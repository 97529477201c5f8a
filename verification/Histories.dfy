// What a topic does next does not depend on what it emitted before. So a node that installs another's
// snapshot, with a past of its own, goes on like the node it came from.

module Histories {
  import opened Messages
  import opened Lists
  import opened Tries
  import opened HoldQueue
  import opened Topics
  import opened Agreement
  import opened Snapshots
  import opened Nodes

  function WithPast(t: Topic, events: seq<Event>, commands: seq<DurableCommand>): Topic {
    t.(events := events + t.events, commands := commands + t.commands)
  }

  lemma NotePast(t: Topic, e: seq<Event>, c: seq<DurableCommand>, id: MessageId, acks: StatusMap)
    ensures Note(WithPast(t, e, c), id, acks) == WithPast(Note(t, id, acks), e, c)
  {
    Assoc(c, t.commands, [UpdateStatus(id, acks)]);
  }

  lemma FlushPast(t: Topic, e: seq<Event>, c: seq<DurableCommand>, id: MessageId, env: Env)
    ensures Flush(WithPast(t, e, c), id, env) == WithPast(Flush(t, id, env), e, c)
  {
    hide Settle, FlatMap;
    var p := FlushResult(t, id, env);
    Assoc(e, t.events, p.events);
    Assoc(c, t.commands, Archives(p.events));
  }

  lemma UpdateAndFlushPast(t: Topic, e: seq<Event>, c: seq<DurableCommand>, id: MessageId, acks: StatusMap, env: Env)
    ensures UpdateAndFlush(WithPast(t, e, c), id, acks, env) == WithPast(UpdateAndFlush(t, id, acks, env), e, c)
  {
    hide Note, Flush, WithPast;
    NotePast(t, e, c, id, acks);
    FlushPast(Note(t, id, acks), e, c, id, env);
  }

  lemma {:induction false} PollAllPast(t: Topic, e: seq<Event>, c: seq<DurableCommand>, ids: seq<MessageId>, env: Env)
    ensures PollAll(WithPast(t, e, c), ids, env) == WithPast(PollAll(t, ids, env), e, c)
    decreases ids
  {
    hide *;
    PollAllOne(t, ids, env);
    PollAllOne(WithPast(t, e, c), ids, env);
    if ids != [] {
      UpdateAndFlushPast(t, e, c, ids[0], map[], env);
      PollAllPast(UpdateAndFlush(t, ids[0], map[], env), e, c, ids[1..], env);
    }
  }

  lemma EmitPast(t: Topic, e: seq<Event>, c: seq<DurableCommand>, event: Event)
    ensures WithPast(t, e, c).Emit(event) == WithPast(t.Emit(event), e, c)
  {
    Assoc(e, t.events, [event]);
  }

  lemma DropFrontPast(t: Topic, e: seq<Event>, c: seq<DurableCommand>)
    requires t.queue != []
    ensures DropFront(WithPast(t, e, c)) == WithPast(DropFront(t), e, c)
  {
    Assoc(e, t.events, [Leave(t.queue[0].Id(), Failure(Overflow))]);
  }

  lemma EnqueuePast(t: Topic, e: seq<Event>, c: seq<DurableCommand>, h: HoldMessage)
    ensures Enqueue(WithPast(t, e, c), h) == WithPast(Enqueue(t, h), e, c)
  {
    Assoc(c, t.commands, [Create(h.message)]);
  }

  lemma PutPast(t: Topic, e: seq<Event>, c: seq<DurableCommand>, h: HoldMessage, env: Env)
    ensures Put(WithPast(t, e, c), h, env) == WithPast(Put(t, h, env), e, c)
  {
    hide UpdateAndFlush, DropFront, Enqueue, Topic.Emit;
    EmitPast(t, e, c, Refuse(h.Id(), Failure(Overflow)));
    if t.Full() {
      DropFrontPast(t, e, c);
    }
    var room := if t.Full() then DropFront(t) else t;
    EnqueuePast(room, e, c, h);
    UpdateAndFlushPast(Enqueue(room, h), e, c, h.Id(), map[], env);
  }

  // The step is the same on any past, and so are the orders it may be taken in.
  lemma StepPast(t: Topic, e: seq<Event>, c: seq<DurableCommand>, p: Proposal, env: Env, hash: Hashing)
    ensures Step(WithPast(t, e, c), p, env, hash) == WithPast(Step(t, p, env, hash), e, c)
    ensures Admissible(WithPast(t, e, c), p, env, hash) <==> Admissible(t, p, env, hash)
  {
    hide UpdateAndFlush, PollAll, Put;
    match p
    case Delegate(m) =>
      EmitPast(t, e, c, Refuse(m.id, Failure(NoAvailableTarget)));
      if !(m.target.Push? && env.ring == []) {
        PutPast(t, e, c, Hold(t, m, env, hash), env);
      }
    case SetState(id, acks) => UpdateAndFlushPast(t, e, c, id, acks, env);
    case _ =>
      assert Prepare(WithPast(t, e, c), p) == WithPast(Prepare(t, p), e, c);
      assert NeedPoll(WithPast(t, e, c), p) == NeedPoll(t, p);
      PollAllPast(Prepare(t, p), e, c, env.walk, env);
  }

  // ----- What was emitted since some moment -----

  // How much a topic had emitted by then.
  datatype Mark = Mark(events: nat, commands: nat)

  type Marks = map<TopicCode, Mark>

  ghost predicate Reached(t: Topic, m: Mark) {
    m.events <= |t.events| && m.commands <= |t.commands|
  }

  function Since(t: Topic, m: Mark): Topic {
    t.(events := if m.events <= |t.events| then t.events[m.events..] else [],
       commands := if m.commands <= |t.commands| then t.commands[m.commands..] else [])
  }

  lemma StepSince(t: Topic, m: Mark, p: Proposal, env: Env, hash: Hashing)
    requires Reached(t, m)
    ensures Reached(Step(t, p, env, hash), m)
    ensures Since(Step(t, p, env, hash), m) == Step(Since(t, m), p, env, hash)
    ensures Admissible(Since(t, m), p, env, hash) <==> Admissible(t, p, env, hash)
  {
    hide Step, Admissible;
    var e, c := t.events[..m.events], t.commands[..m.commands];
    assert e + t.events[m.events..] == t.events && c + t.commands[m.commands..] == t.commands;
    assert WithPast(Since(t, m), e, c) == t;
    StepPast(Since(t, m), e, c, p, env, hash);
    var next := Step(Since(t, m), p, env, hash);
    assert (e + next.events)[m.events..] == next.events && (c + next.commands)[m.commands..] == next.commands;
  }

  function MarkAll(topics: TopicMap): Marks {
    map code | code in topics :: Mark(|topics[code].events|, |topics[code].commands|)
  }

  // A topic that is loaded later starts without a past.
  function MarksAfter(marks: Marks, op: NodeOp): Marks {
    if op.Apply? && op.entry.payload.Normal? then
      match op.entry.payload.proposal
      case LoadTopic(config, _) => if config.code in marks then marks else marks[config.code := Mark(0, 0)]
      case UnloadTopic(code) => marks - {code}
      case _ => marks
    else marks
  }

  function MarksAfterAll(marks: Marks, ops: seq<NodeOp>): Marks
    decreases ops
  {
    if ops == [] then marks else MarksAfterAll(MarksAfter(marks, ops[0]), ops[1..])
  }

  ghost predicate ReachedAll(s: StateMachine, marks: Marks) {
    s.topics.Keys == marks.Keys && forall code :: code in marks ==> Reached(s.topics[code], marks[code])
  }

  function SinceAll(s: StateMachine, marks: Marks): StateMachine {
    s.(topics := map code | code in s.topics && code in marks :: Since(s.topics[code], marks[code]))
  }

  lemma RebuiltSince(t: Topic, m: Mark)
    requires Reached(t, m)
    ensures Reached(Rebuilt(t), m) && Since(Rebuilt(t), m) == Rebuilt(Since(t, m))
  {
  }

  lemma SinceKeys(s: StateMachine, marks: Marks)
    ensures SinceAll(s, marks).topics.Keys == s.topics.Keys * marks.Keys
    ensures SinceAll(s, marks).lastApplied == s.lastApplied && SinceAll(s, marks).membership == s.membership
    ensures forall code :: code in s.topics && code in marks ==>
              SinceAll(s, marks).topics[code] == Since(s.topics[code], marks[code])
  {
    hide Since;
  }

  lemma ReinstalledSince(s: StateMachine, marks: Marks)
    requires ReachedAll(s, marks)
    ensures ReachedAll(Reinstalled(s), marks) && SinceAll(Reinstalled(s), marks) == Reinstalled(SinceAll(s, marks))
  {
    hide Rebuilt, Since, Reached, Reinstalled, SinceAll;
    var since := SinceAll(s, marks);
    var a, b := SinceAll(Reinstalled(s), marks), Reinstalled(since);
    ReinstalledKeys(s);
    ReinstalledKeys(since);
    SinceKeys(s, marks);
    SinceKeys(Reinstalled(s), marks);
    forall code | code in s.topics
      ensures a.topics[code] == b.topics[code] && Reached(Reinstalled(s).topics[code], marks[code])
    {
      ReinstalledOne(s, code);
      ReinstalledOne(since, code);
      RebuiltSince(s.topics[code], marks[code]);
    }
    assert a.topics == b.topics;
  }

  lemma SetSince(s: StateMachine, marks: Marks, code: TopicCode, t: Topic, m: Mark)
    requires ReachedAll(s, marks) && Reached(t, m)
    ensures ReachedAll(s.(topics := s.topics[code := t]), marks[code := m])
    ensures SinceAll(s.(topics := s.topics[code := t]), marks[code := m]) ==
            SinceAll(s, marks).(topics := SinceAll(s, marks).topics[code := Since(t, m)])
  {
    hide Reached, Since;
  }

  lemma NodeStepSince(s: StateMachine, marks: Marks, op: NodeOp, hash: Hashing)
    requires ReachedAll(s, marks)
    ensures ReachedAll(NodeStep(s, op, hash), MarksAfter(marks, op))
    ensures SinceAll(NodeStep(s, op, hash), MarksAfter(marks, op)) == NodeStep(SinceAll(s, marks), op, hash)
    ensures OpFits(SinceAll(s, marks), op, hash) <==> OpFits(s, op, hash)
  {
    hide Step, Admissible, Since, Reached, FromDurable, SortByTime, Reinstalled;
    if op.TakeAndInstall? {
      ReinstalledSince(s, marks);
    } else if op.entry.payload.Normal? {
      match op.entry.payload.proposal
      case ToTopic(code, p) =>
        if code in s.topics {
          StepSince(s.topics[code], marks[code], p, op.env, hash);
          SetSince(s, marks, code, Step(s.topics[code], p, op.env, hash), marks[code]);
          assert marks[code := marks[code]] == marks;
        }
      case LoadTopic(config, messages) =>
        var t := FromDurable(config, SortByTime(messages));
        LoadedSince(config, SortByTime(messages));
        SetSince(s, marks, config.code, t, Mark(0, 0));
      case UnloadTopic(code) =>
        assert SinceAll(s.(topics := s.topics - {code}), marks - {code}).topics == SinceAll(s, marks).topics - {code};
    }
  }

  lemma LoadedSince(config: TopicConfig, messages: seq<DurableMessage>)
    ensures var t := FromDurable(config, messages); Reached(t, Mark(0, 0)) && Since(t, Mark(0, 0)) == t
  {
  }

  lemma {:induction false} RunNodeSince(s: StateMachine, marks: Marks, ops: seq<NodeOp>, hash: Hashing)
    requires ReachedAll(s, marks)
    ensures SinceAll(RunNode(s, ops, hash), MarksAfterAll(marks, ops)) == RunNode(SinceAll(s, marks), ops, hash)
    ensures OpsFit(SinceAll(s, marks), ops, hash) <==> OpsFit(s, ops, hash)
    decreases ops
  {
    hide NodeStep, RunNode, OpsFit, OpFits, SinceAll, ReachedAll, MarksAfter;
    RunNodeOne(s, ops, hash);
    RunNodeOne(SinceAll(s, marks), ops, hash);
    if ops != [] {
      NodeStepSince(s, marks, ops[0], hash);
      RunNodeSince(NodeStep(s, ops[0], hash), MarksAfter(marks, ops[0]), ops[1..], hash);
    }
  }

  // ----- Followers -----

  // Right after the installation the follower has the leader's state, and its own past.
  lemma InstalledHasState(leader: StateMachine, past: Past)
    requires leader.topics.Keys <= past.Keys
    ensures var follower := Install(BuildSnapshot(leader), past);
            && follower.lastApplied == leader.lastApplied && follower.membership == leader.membership
            && follower.topics.Keys == leader.topics.Keys
            && forall code :: code in leader.topics ==>
                 var t, u := leader.topics[code], follower.topics[code];
                 && u.config == t.config && u.routing == t.routing && u.ix.raw == t.ix.raw && u.queue == t.queue
                 && u.ix.Valid() && u.events == past[code].events && u.commands == past[code].commands
  {
    hide Index.Valid;
    forall code | code in leader.topics ensures FromRaw(leader.topics[code].ix.raw).Valid() {
      FromRawIsValid(leader.topics[code].ix.raw);
    }
  }

  ghost function Now(s: StateMachine): StateMachine {
    SinceAll(s, MarkAll(s.topics))
  }

  lemma NowKeys(s: StateMachine)
    ensures ReachedAll(s, MarkAll(s.topics)) && Now(s).topics.Keys == s.topics.Keys
    ensures Now(s).lastApplied == s.lastApplied && Now(s).membership == s.membership
    ensures forall code :: code in s.topics ==> Now(s).topics[code] == s.topics[code].(events := [], commands := [])
  {
    forall code | code in s.topics ensures Now(s).topics[code] == s.topics[code].(events := [], commands := []) {
      var t := s.topics[code];
      assert t.events[|t.events|..] == [] && t.commands[|t.commands|..] == [];
    }
  }

  lemma StartsAlike(leader: StateMachine, past: Past, s: Scope)
    requires AllValid(leader) && leader.topics.Keys <= past.Keys && ScopeHolds(s, leader)
    ensures var follower := Install(BuildSnapshot(leader), past);
            SameView(Now(leader), Now(follower)) && ScopeHolds(s, Now(leader))
  {
    hide Index.Valid, Scope.Holds, FromRaw, ViewOf, Now, Agreeing, Install;
    var follower := Install(BuildSnapshot(leader), past);
    InstalledHasState(leader, past);
    NowKeys(leader);
    NowKeys(follower);
    forall code | code in leader.topics
      ensures Agreeing(Now(leader).topics[code], Now(follower).topics[code]) && s.Holds(Now(leader).topics[code])
    {
      HoldsNow(leader.topics[code], s);
      SameStart(Now(leader).topics[code], Now(follower).topics[code]);
    }
  }

  lemma HoldsNow(t: Topic, s: Scope)
    requires s.Holds(t)
    ensures s.Holds(t.(events := [], commands := []))
  {
  }

  lemma SameStart(t: Topic, u: Topic)
    requires u == t.(ix := u.ix) && u.ix.raw == t.ix.raw && t.ix.Valid() && u.ix.Valid()
    ensures Agreeing(t, u)
  {
  }

  // A node that installs another's snapshot follows it. Over every further log, each in its own
  // environment and with snapshots of its own whenever it likes, both have the same topics, with the
  // same routing and interests, the same messages in the same order with the same statuses up to Unsent
  // versus Sending, and what they emitted since the installation are the same ack results and commands.
  lemma InstalledFollows(leader: StateMachine, past: Past, opsL: seq<NodeOp>, opsF: seq<NodeOp>, hash: Hashing, s: Scope)
    requires AllValid(leader) && leader.topics.Keys <= past.Keys && ScopeHolds(s, leader)
    requires SameLog(WithoutSnapshots(opsL), WithoutSnapshots(opsF), hash, s)
    requires var follower := Install(BuildSnapshot(leader), past);
             OpsFit(leader, opsL, hash) && OpsFit(follower, opsF, hash)
    ensures var follower := Install(BuildSnapshot(leader), past);
            SameView(SinceAll(RunNode(leader, opsL, hash), MarksAfterAll(MarkAll(leader.topics), opsL)),
                     SinceAll(RunNode(follower, opsF, hash), MarksAfterAll(MarkAll(follower.topics), opsF)))
  {
    hide SameLog, WithoutSnapshots, OpsFit, RunNode, SameView, SinceAll, MarksAfterAll, ReachedAll, ScopeHolds,
         Restore, Save, AllValid;
    var follower := Install(BuildSnapshot(leader), past);
    StartsAlike(leader, past, s);
    NowKeys(leader);
    NowKeys(follower);
    RunNodeSince(leader, MarkAll(leader.topics), opsL, hash);
    RunNodeSince(follower, MarkAll(follower.topics), opsF, hash);
    NodeAgreement(Now(leader), Now(follower), opsL, opsF, hash, s);
  }
}
