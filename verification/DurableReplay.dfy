// The durable store follows the queue: replaying the commands that are still to be carried out
// leaves exactly the messages that are held.

module DurableReplay {
  import opened Messages
  import opened Lists
  import opened HoldQueue
  import opened Topics
  import opened Ledger

  // The ids the durable service keeps after a command.
  function Execute(saved: set<MessageId>, c: DurableCommand): set<MessageId> {
    match c
    case Create(m) => saved + {m.id}
    case UpdateStatus(_, _) => saved
    case Archive(id) => saved - {id}
  }

  function Replay(saved: set<MessageId>, commands: seq<DurableCommand>): set<MessageId>
    decreases commands
  {
    if commands == [] then saved else Replay(Execute(saved, commands[0]), commands[1..])
  }

  lemma {:induction false} ReplayConcat(saved: set<MessageId>, a: seq<DurableCommand>, b: seq<DurableCommand>)
    ensures Replay(saved, a + b) == Replay(Replay(saved, a), b)
    decreases a
  {
    if a == [] {
      assert a + b == b;
    } else {
      ReplayConcat(Execute(saved, a[0]), a[1..], b);
      assert (a + b)[1..] == a[1..] + b;
    }
  }

  lemma {:induction false} ReplayArchives(saved: set<MessageId>, events: seq<Event>)
    ensures Replay(saved, FlatMap(ArchiveOf, events)) == saved - Elements(FlatMap(LeftOf, events))
    decreases events
  {
    if events != [] {
      var e, rest := events[0], events[1..];
      assert events == [e] + rest;
      FlatMapCons(ArchiveOf, e, rest);
      FlatMapCons(LeftOf, e, rest);
      var next := if e.Leave? then saved - {e.id} else saved;
      assert Replay(saved, ArchiveOf(e)) == next;
      assert Elements(LeftOf(e) + FlatMap(LeftOf, rest)) == Elements(LeftOf(e)) + Elements(FlatMap(LeftOf, rest));
      hide FlatMap, Replay;
      ReplayConcat(saved, ArchiveOf(e), FlatMap(ArchiveOf, rest));
      ReplayArchives(next, rest);
    }
  }

  // ----- The drain -----

  // The topic with its durable commands: `pending` is the shared command queue, `inflight` what the
  // worker that holds the topic's lock has taken out of it, `saved` what the service keeps.
  datatype Backed = Backed(topic: Topic, saved: set<MessageId>, inflight: seq<DurableCommand>, pending: seq<DurableCommand>)

  datatype DrainOp = Apply(p: Proposal, env: Env) | SwapOut | ExecuteNext

  // The commands a step adds to the queue.
  ghost function Added(t: Topic, after: Topic): seq<DurableCommand> {
    if |t.commands| <= |after.commands| then after.commands[|t.commands|..] else []
  }

  // Only one worker at a time swaps the queue out, and it carries out all it took before it lets go.
  ghost function DrainStep(d: Backed, op: DrainOp, hash: Hashing): Backed {
    match op
    case Apply(p, env) =>
      var after := Step(d.topic, p, env, hash);
      d.(topic := after, pending := d.pending + Added(d.topic, after))
    case SwapOut => if d.inflight == [] then d.(inflight := d.pending, pending := []) else d
    case ExecuteNext =>
      if d.inflight == [] then d
      else d.(saved := Execute(d.saved, d.inflight[0]), inflight := d.inflight[1..])
  }

  ghost function RunDrain(d: Backed, ops: seq<DrainOp>, hash: Hashing): Backed
    decreases ops
  {
    if ops == [] then d else RunDrain(DrainStep(d, ops[0], hash), ops[1..], hash)
  }

  // The ids delegated by the operations.
  function DelegatedBy(op: DrainOp): seq<MessageId> {
    if op.Apply? then DelegatedOf(op.p) else []
  }

  // Making room drops a message with an overflow result and without an archive command.
  function DroppedOf(e: Event): seq<MessageId> {
    if e.Leave? && e.result.AckErr? && e.result.exception.Some? then [e.id] else []
  }

  function Dropped(t: Topic): set<MessageId> {
    Elements(FlatMap(DroppedOf, t.events))
  }

  // The ids the topic answers for in the store.
  function Kept(t: Topic): set<MessageId> {
    Elements(Ids(t.queue)) + Dropped(t)
  }

  // The commands of a topic, carried out on top of `saved`, leave the held ids and the dropped ones.
  ghost predicate Mirrored(t: Topic, saved: set<MessageId>) {
    && Replay(saved, t.commands) == Kept(t)
    && NoRepeats(Ids(t.queue)) && Elements(Ids(t.queue)) !! Dropped(t)
  }

  // ----- Polling drops nothing -----

  ghost predicate AllPlain(events: seq<Event>) {
    forall e :: e in events ==> DroppedOf(e) == []
  }

  lemma {:induction false} PlainDropsNothing(events: seq<Event>)
    requires AllPlain(events)
    ensures FlatMap(DroppedOf, events) == []
  {
    if events != [] {
      assert events[0] in events && forall e :: e in events[1..] ==> e in events;
      PlainDropsNothing(events[1..]);
    }
  }

  lemma PollOnePlain(h: HoldMessage, reach: set<EndpointAddr>, now: Time)
    ensures AllPlain(PollOne(h, reach, now).events)
  {
  }

  lemma {:induction false} PollEachPlain(q: seq<HoldMessage>, ids: set<MessageId>, reach: set<EndpointAddr>, now: Time)
    ensures AllPlain(PollEach(q, ids, reach, now).events)
  {
    if q != [] {
      PollOnePlain(q[0], reach, now);
      PollEachPlain(q[1..], ids, reach, now);
    }
  }

  lemma {:induction false} DrainPlain(q: seq<HoldMessage>, reach: set<EndpointAddr>, now: Time)
    ensures AllPlain(Drain(q, reach, now).events)
  {
    if q != [] {
      PollOnePlain(q[0], reach, now);
      DrainPlain(q[1..], reach, now);
    }
  }

  lemma FlushDropsNothing(t: Topic, id: MessageId, env: Env)
    ensures Dropped(Flush(t, id, env)) == Dropped(t)
  {
    hide PollEach, Drain, FlatMap;
    var p := FlushResult(t, id, env);
    PollEachPlain(t.queue, {id}, t.Reachable(env.node), env.now);
    DrainPlain(t.queue, t.Reachable(env.node), env.now);
    PlainDropsNothing(p.events);
    FlatMapConcat(DroppedOf, t.events, p.events);
    assert FlatMap(DroppedOf, t.events) + [] == FlatMap(DroppedOf, t.events);
  }

  // ----- The parts of a step -----

  lemma NoteMirrors(t: Topic, id: MessageId, acks: StatusMap, saved: set<MessageId>)
    requires Mirrored(t, saved)
    ensures Mirrored(Note(t, id, acks), saved) && Kept(Note(t, id, acks)) == Kept(t)
    ensures t.commands <= Note(t, id, acks).commands
  {
    assert Ids(Note(t, id, acks).queue) == Ids(t.queue);
    ReplayConcat(saved, t.commands, [UpdateStatus(id, acks)]);
  }

  lemma {:induction false} SetOfRest(held: seq<MessageId>, left: seq<MessageId>, rest: seq<MessageId>)
    requires NoRepeats(held) && multiset(left) + multiset(rest) == multiset(held)
    ensures NoRepeats(rest) && Elements(rest) == Elements(held) - Elements(left) && Elements(left) <= Elements(held)
  {
    NoRepeatsCount(held);
    NoRepeatsCount(rest);
    hide NoRepeats;
    assert forall x :: multiset(held)[x] == multiset(left)[x] + multiset(rest)[x];
    forall x
      ensures x in Elements(rest) <==> x in Elements(held) && x !in Elements(left)
      ensures x in Elements(left) ==> x in Elements(held)
    {
      assert x in rest <==> multiset(rest)[x] > 0;
      assert x in left <==> multiset(left)[x] > 0;
      assert x in held <==> multiset(held)[x] > 0;
    }
  }

  lemma FlushMirrors(t: Topic, id: MessageId, env: Env, saved: set<MessageId>)
    requires Mirrored(t, saved)
    ensures Mirrored(Flush(t, id, env), saved) && Kept(Flush(t, id, env)) <= Kept(t)
    ensures t.commands <= Flush(t, id, env).commands
  {
    hide Settle, FlatMap, Replay, Elements, NoRepeats, Dropped;
    var p := FlushResult(t, id, env);
    SettleBalance(t.config.blocking, t.queue, {id}, t.Reachable(env.node), env.now);
    FlushDropsNothing(t, id, env);
    ReplayConcat(saved, t.commands, FlatMap(ArchiveOf, p.events));
    ReplayArchives(Replay(saved, t.commands), p.events);
    SetOfRest(Ids(t.queue), FlatMap(LeftOf, p.events), Ids(p.queue));
  }

  lemma UpdateAndFlushMirrors(t: Topic, id: MessageId, acks: StatusMap, env: Env, saved: set<MessageId>)
    requires Mirrored(t, saved)
    ensures Mirrored(UpdateAndFlush(t, id, acks, env), saved) && Kept(UpdateAndFlush(t, id, acks, env)) <= Kept(t)
    ensures t.commands <= UpdateAndFlush(t, id, acks, env).commands
  {
    hide Mirrored, Note, Flush, Kept;
    NoteMirrors(t, id, acks, saved);
    FlushMirrors(Note(t, id, acks), id, env, saved);
  }

  lemma {:induction false} PollAllMirrors(t: Topic, ids: seq<MessageId>, env: Env, saved: set<MessageId>)
    requires Mirrored(t, saved)
    ensures Mirrored(PollAll(t, ids, env), saved) && Kept(PollAll(t, ids, env)) <= Kept(t)
    ensures t.commands <= PollAll(t, ids, env).commands
    decreases ids
  {
    hide *;
    PollAllOne(t, ids, env);
    if ids != [] {
      UpdateAndFlushMirrors(t, ids[0], map[], env, saved);
      PollAllMirrors(UpdateAndFlush(t, ids[0], map[], env), ids[1..], env, saved);
    }
  }

  lemma EnqueueMirrors(t: Topic, h: HoldMessage, saved: set<MessageId>)
    requires Mirrored(t, saved) && h.Id() !in Kept(t)
    ensures Mirrored(Enqueue(t, h), saved) && Kept(Enqueue(t, h)) == Kept(t) + {h.Id()}
    ensures t.commands <= Enqueue(t, h).commands
  {
    hide FlatMap;
    ReplayConcat(saved, t.commands, [Create(h.message)]);
    IdsConcat(t.queue, [h]);
    assert Ids([h]) == [h.Id()];
    assert Elements(Ids(t.queue) + [h.Id()]) == Elements(Ids(t.queue)) + {h.Id()};
    assert h.Id() in Ids(t.queue) ==> h.Id() in Elements(Ids(t.queue));
  }

  lemma EmitMirrors(t: Topic, id: MessageId, result: AckResult, saved: set<MessageId>)
    requires Mirrored(t, saved)
    ensures Mirrored(t.Emit(Refuse(id, result)), saved) && Kept(t.Emit(Refuse(id, result))) == Kept(t)
  {
    hide Elements, NoRepeats, Ids, Replay;
    FlatMapConcat(DroppedOf, t.events, [Refuse(id, result)]);
    FlatMapCons(DroppedOf, Refuse(id, result), []);
    assert FlatMap(DroppedOf, t.events) + [] == FlatMap(DroppedOf, t.events);
  }

  // The store keeps what is dropped.
  lemma DropFrontMirrors(t: Topic, saved: set<MessageId>)
    requires Mirrored(t, saved) && t.queue != []
    ensures Mirrored(DropFront(t), saved) && Kept(DropFront(t)) == Kept(t)
    ensures Dropped(DropFront(t)) == Dropped(t) + {t.queue[0].Id()}
  {
    var id, ids, rest := t.queue[0].Id(), Ids(t.queue), Ids(t.queue[1..]);
    var leave := Leave(id, Failure(Overflow));
    assert ids == [id] + rest;
    FlatMapConcat(DroppedOf, t.events, [leave]);
    FlatMapCons(DroppedOf, leave, []);
    NoRepeatsCons(id, rest);
    hide FlatMap, Replay, Ids, NoRepeats;
    var dropped := FlatMap(DroppedOf, t.events);
    assert Elements(dropped + [id]) == Elements(dropped) + {id};
    assert Elements([id] + rest) == {id} + Elements(rest);
    assert id in rest <==> id in Elements(rest);
  }

  lemma StepMirrors(t: Topic, p: Proposal, env: Env, hash: Hashing, saved: set<MessageId>)
    requires Mirrored(t, saved)
    requires p.Delegate? ==> p.message.id !in Kept(t)
    ensures Mirrored(Step(t, p, env, hash), saved)
    ensures Kept(Step(t, p, env, hash)) <= Kept(t) + (if p.Delegate? then {p.message.id} else {})
    ensures t.commands <= Step(t, p, env, hash).commands
  {
    hide UpdateAndFlush, PollAll, Replay, FlatMap, Mirrored, Kept;
    match p
    case Delegate(m) =>
      EmitMirrors(t, m.id, Failure(NoAvailableTarget), saved);
      EmitMirrors(t, m.id, Failure(Overflow), saved);
      if !(m.target.Push? && env.ring == []) && !(t.Full() && t.config.overflow.value.policy.RejectNew?) {
        var room, h := if t.Full() then DropFront(t) else t, Hold(t, m, env, hash);
        if t.Full() {
          DropFrontMirrors(t, saved);
        }
        EnqueueMirrors(room, h, saved);
        UpdateAndFlushMirrors(Enqueue(room, h), m.id, map[], env, saved);
      }
    case SetState(id, acks) => UpdateAndFlushMirrors(t, id, acks, env, saved);
    case _ =>
      PrepareMirrors(t, p, saved);
      PollAllMirrors(Prepare(t, p), env.walk, env, saved);
  }

  lemma PrepareMirrors(t: Topic, p: Proposal, saved: set<MessageId>)
    requires p.OfEndpoint() && Mirrored(t, saved)
    ensures Mirrored(Prepare(t, p), saved) && Kept(Prepare(t, p)) == Kept(t) && Prepare(t, p).commands == t.commands
  {
    assert Ids(Prepare(t, p).queue) == Ids(t.queue);
  }

  // `done` is what the service has carried out so far.
  ghost predicate InStep(d: Backed, first: set<MessageId>, done: seq<DurableCommand>) {
    && d.topic.commands == done + d.inflight + d.pending
    && d.saved == Replay(first, done)
    && Mirrored(d.topic, first)
  }

  ghost predicate Fresh(d: Backed, coming: seq<MessageId>) {
    NoRepeats(coming) && forall id :: id in Kept(d.topic) ==> id !in coming
  }

  lemma DrainStepKeeps(d: Backed, op: DrainOp, hash: Hashing, first: set<MessageId>, done: seq<DurableCommand>)
    returns (more: seq<DurableCommand>)
    requires InStep(d, first, done)
    requires op.Apply? && op.p.Delegate? ==> op.p.message.id !in Kept(d.topic)
    ensures InStep(DrainStep(d, op, hash), first, more)
    ensures Kept(DrainStep(d, op, hash).topic) <= Kept(d.topic) + Elements(DelegatedBy(op))
  {
    hide Replay, Mirrored, Step;
    var next := DrainStep(d, op, hash);
    more := done;
    match op
    case Apply(p, env) =>
      StepMirrors(d.topic, p, env, hash, first);
      assert p.Delegate? ==> p.message.id in DelegatedBy(op);
      assert next.topic.commands == d.topic.commands + Added(d.topic, next.topic);
      Assoc(done + d.inflight, d.pending, Added(d.topic, next.topic));
    case SwapOut =>
      if d.inflight == [] {
        assert done + [] + d.pending == done + d.pending + [];
      }
    case ExecuteNext =>
      if d.inflight != [] {
        more := done + [d.inflight[0]];
        ReplayConcat(first, done, [d.inflight[0]]);
        ReplayOne(d.saved, d.inflight[0]);
        assert d.inflight == [d.inflight[0]] + d.inflight[1..];
        Assoc(done, [d.inflight[0]], d.inflight[1..]);
      }
  }

  lemma ReplayOne(saved: set<MessageId>, c: DurableCommand)
    ensures Replay(saved, [c]) == Execute(saved, c)
  {
    assert [c][1..] == [];
  }

  lemma FreshTail(d: Backed, next: Backed, op: DrainOp, rest: seq<DrainOp>)
    requires Fresh(d, FlatMap(DelegatedBy, [op] + rest))
    ensures op.Apply? && op.p.Delegate? ==> op.p.message.id !in Kept(d.topic)
    ensures Kept(next.topic) <= Kept(d.topic) + Elements(DelegatedBy(op)) ==> Fresh(next, FlatMap(DelegatedBy, rest))
  {
    FlatMapCons(DelegatedBy, op, rest);
    var coming := FlatMap(DelegatedBy, rest);
    hide FlatMap, Kept;
    if DelegatedBy(op) == [] {
      assert [] + coming == coming;
    } else {
      NoRepeatsCons(op.p.message.id, coming);
      assert op.p.message.id in [op.p.message.id] + coming;
    }
    assert forall id :: id in coming ==> id in DelegatedBy(op) + coming;
  }

  // ----- The one step that drops -----

  lemma UpdateAndFlushDrops(t: Topic, id: MessageId, acks: StatusMap, env: Env)
    ensures Dropped(UpdateAndFlush(t, id, acks, env)) == Dropped(t)
  {
    FlushDropsNothing(Note(t, id, acks), id, env);
  }

  lemma {:induction false} PollAllDrops(t: Topic, ids: seq<MessageId>, env: Env)
    ensures Dropped(PollAll(t, ids, env)) == Dropped(t)
    decreases ids
  {
    hide *;
    PollAllOne(t, ids, env);
    if ids != [] {
      UpdateAndFlushDrops(t, ids[0], map[], env);
      PollAllDrops(UpdateAndFlush(t, ids[0], map[], env), ids[1..], env);
    }
  }

  lemma EmitDrops(t: Topic, id: MessageId, result: AckResult)
    ensures Dropped(t.Emit(Refuse(id, result))) == Dropped(t)
  {
    FlatMapConcat(DroppedOf, t.events, [Refuse(id, result)]);
    FlatMapCons(DroppedOf, Refuse(id, result), []);
    assert FlatMap(DroppedOf, t.events) + [] == FlatMap(DroppedOf, t.events);
  }

  // A message is delegated to a full topic that drops the oldest; a push that finds no endpoint is
  // refused before the topic makes room.
  predicate MakesRoom(t: Topic, p: Proposal, env: Env) {
    && p.Delegate? && t.Full() && t.config.overflow.value.policy.DropOld?
    && !(p.message.target.Push? && env.ring == [])
  }

  // A step drops a message exactly then: the one at the front.
  lemma StepDropsIff(t: Topic, p: Proposal, env: Env, hash: Hashing, saved: set<MessageId>)
    requires Mirrored(t, saved)
    ensures var after := Dropped(Step(t, p, env, hash));
            && (after == Dropped(t) <==> !MakesRoom(t, p, env))
            && (MakesRoom(t, p, env) ==> t.queue != [] && after == Dropped(t) + {t.queue[0].Id()})
  {
    hide UpdateAndFlush, PollAll, FlatMap, Dropped, Mirrored;
    match p
    case Delegate(m) =>
      EmitDrops(t, m.id, Failure(NoAvailableTarget));
      EmitDrops(t, m.id, Failure(Overflow));
      if !(m.target.Push? && env.ring == []) && !(t.Full() && t.config.overflow.value.policy.RejectNew?) {
        var room, h := if t.Full() then DropFront(t) else t, Hold(t, m, env, hash);
        UpdateAndFlushDrops(Enqueue(room, h), m.id, map[], env);
        SameDropped(room, Enqueue(room, h));
        if t.Full() {
          DropFrontMirrors(t, saved);
          FrontNotDropped(t, saved);
        }
      }
    case SetState(id, acks) => UpdateAndFlushDrops(t, id, acks, env);
    case _ =>
      PollAllDrops(Prepare(t, p), env.walk, env);
      SameDropped(t, Prepare(t, p));
  }

  lemma SameDropped(t: Topic, u: Topic)
    requires t.events == u.events
    ensures Dropped(t) == Dropped(u)
  {
  }

  lemma FrontNotDropped(t: Topic, saved: set<MessageId>)
    requires Mirrored(t, saved) && t.queue != []
    ensures t.queue[0].Id() !in Dropped(t)
  {
    hide Dropped, Replay, NoRepeats;
    assert Ids(t.queue)[0] in Elements(Ids(t.queue));
  }

  // No step of the run makes room, as seen before each.
  ghost predicate NeverMakesRoom(d: Backed, ops: seq<DrainOp>, hash: Hashing)
    decreases ops
  {
    ops == [] ||
    (&& (ops[0].Apply? ==> !MakesRoom(d.topic, ops[0].p, ops[0].env))
     && NeverMakesRoom(DrainStep(d, ops[0], hash), ops[1..], hash))
  }

  // Durable replay: at every interleaving of topic steps and of the worker that drains the command
  // queue, carrying out what is still queued leaves exactly the ids that are held and those that were
  // dropped to make room; so once the queue is empty the service keeps exactly those. It keeps exactly
  // the held ones if and only if nothing was dropped before and no step of the run makes room.
  lemma {:induction false} StoreFollowsQueue(d: Backed, ops: seq<DrainOp>, hash: Hashing, first: set<MessageId>,
                                             done: seq<DurableCommand>)
    requires InStep(d, first, done) && Fresh(d, FlatMap(DelegatedBy, ops))
    ensures var end := RunDrain(d, ops, hash); var held := Elements(Ids(end.topic.queue));
            && Replay(end.saved, end.inflight + end.pending) == held + Dropped(end.topic)
            && (Replay(end.saved, end.inflight + end.pending) == held <==> Dropped(end.topic) == {})
            && (Dropped(end.topic) == {} <==> Dropped(d.topic) == {} && NeverMakesRoom(d, ops, hash))
            && (end.inflight == end.pending == [] ==> end.saved == held + Dropped(end.topic))
    decreases ops
  {
    if ops == [] {
      hide FlatMap, Elements, Ids, Dropped;
      ReplayConcat(first, done, d.inflight + d.pending);
      Assoc(done, d.inflight, d.pending);
    } else {
      hide *;
      assert ops == [ops[0]] + ops[1..];
      RunDrainOne(d, ops, hash);
      DropsOne(d, ops, hash, first, done);
      FreshTail(d, DrainStep(d, ops[0], hash), ops[0], ops[1..]);
      var more := DrainStepKeeps(d, ops[0], hash, first, done);
      StoreFollowsQueue(DrainStep(d, ops[0], hash), ops[1..], hash, first, more);
    }
  }

  lemma RunDrainOne(d: Backed, ops: seq<DrainOp>, hash: Hashing)
    requires ops != []
    ensures RunDrain(d, ops, hash) == RunDrain(DrainStep(d, ops[0], hash), ops[1..], hash)
  {
  }

  lemma DropsOne(d: Backed, ops: seq<DrainOp>, hash: Hashing, first: set<MessageId>, done: seq<DurableCommand>)
    requires ops != [] && InStep(d, first, done)
    ensures var next := DrainStep(d, ops[0], hash);
            Dropped(next.topic) == {} && NeverMakesRoom(next, ops[1..], hash) <==>
            Dropped(d.topic) == {} && NeverMakesRoom(d, ops, hash)
  {
    hide Step, Dropped, MakesRoom, Mirrored;
    if ops[0].Apply? {
      StepDropsIff(d.topic, ops[0].p, ops[0].env, hash, first);
    }
  }

  // A topic loaded from the store starts in step with it.
  lemma LoadedFromStore(config: TopicConfig, messages: seq<DurableMessage>, ops: seq<DrainOp>, hash: Hashing)
    requires NoRepeats(Ids(FromDurable(config, messages).queue) + FlatMap(DelegatedBy, ops))
    ensures var start := FromDurable(config, messages); var first := Elements(Ids(start.queue));
            var end := RunDrain(Backed(start, first, [], []), ops, hash);
            var held := Elements(Ids(end.topic.queue));
            && Replay(end.saved, end.inflight + end.pending) == held + Dropped(end.topic)
            && (Replay(end.saved, end.inflight + end.pending) == held <==>
                NeverMakesRoom(Backed(start, first, [], []), ops, hash))
  {
    var start := FromDurable(config, messages);
    var loaded, coming := Ids(start.queue), FlatMap(DelegatedBy, ops);
    assert start.commands == [] && start.config == config;
    hide FromDurable, FlatMap, Ids;
    var d := Backed(start, Elements(loaded), [], []);
    forall i, j | 0 <= i < |loaded| && 0 <= j < |coming| ensures loaded[i] != coming[j] {
      assert (loaded + coming)[i] != (loaded + coming)[|loaded| + j];
    }
    forall i, j | 0 <= i < j < |loaded| ensures loaded[i] != loaded[j] {
      assert (loaded + coming)[i] != (loaded + coming)[j];
    }
    forall i, j | 0 <= i < j < |coming| ensures coming[i] != coming[j] {
      assert (loaded + coming)[|loaded| + i] != (loaded + coming)[|loaded| + j];
    }
    assert InStep(d, Elements(loaded), []);
    StoreFollowsQueue(d, ops, hash, Elements(loaded), []);
  }

  // ----- Topics that do not drop -----

  predicate DropsOld(c: TopicConfig) {
    c.overflow.Some? && c.overflow.value.policy.DropOld?
  }

  lemma {:induction false} RejectingMakesNoRoom(d: Backed, ops: seq<DrainOp>, hash: Hashing)
    requires !DropsOld(d.topic.config)
    ensures NeverMakesRoom(d, ops, hash)
    decreases ops
  {
    if ops != [] {
      hide Step;
      if ops[0].Apply? {
        StepConfig(d.topic, ops[0].p, ops[0].env, hash);
      }
      RejectingMakesNoRoom(DrainStep(d, ops[0], hash), ops[1..], hash);
    }
  }

  lemma LoadedConfig(config: TopicConfig, messages: seq<DurableMessage>)
    ensures FromDurable(config, messages).config == config
  {
  }

  // So the store of a topic that rejects new messages when it is full, or is never full, always ends up
  // with exactly the held ones.
  lemma StoreIsQueue(config: TopicConfig, messages: seq<DurableMessage>, ops: seq<DrainOp>, hash: Hashing)
    requires !DropsOld(config)
    requires NoRepeats(Ids(FromDurable(config, messages).queue) + FlatMap(DelegatedBy, ops))
    ensures var start := FromDurable(config, messages);
            var end := RunDrain(Backed(start, Elements(Ids(start.queue)), [], []), ops, hash);
            Replay(end.saved, end.inflight + end.pending) == Elements(Ids(end.topic.queue))
  {
    var start := FromDurable(config, messages);
    hide FromDurable, FlatMap, Ids, RunDrain, Dropped, NoRepeats, Elements, Replay, NeverMakesRoom;
    assert start.config == config by { LoadedConfig(config, messages); }
    LoadedFromStore(config, messages, ops, hash);
    RejectingMakesNoRoom(Backed(start, Elements(Ids(start.queue)), [], []), ops, hash);
  }
}
