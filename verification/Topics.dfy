// The topic state machine: one function per proposal, and runs over a log of proposals.

module Topics {
  import opened Messages
  import opened Lists
  import opened Tries
  import opened HoldQueue

  datatype OverflowPolicy = RejectNew | DropOld

  type NonZero = n: nat | 0 < n witness 1

  datatype OverflowConfig = OverflowConfig(policy: OverflowPolicy, size: NonZero)

  datatype TopicConfig = TopicConfig(code: TopicCode, blocking: bool, overflow: Option<OverflowConfig>)

  // `events` and `commands` are what the topic has emitted so far on this node.
  datatype Topic = Topic(
    config: TopicConfig,
    routing: map<NodeId, set<EndpointAddr>>,
    ix: Index,
    queue: seq<HoldMessage>,
    events: seq<Event>,
    commands: seq<DurableCommand>
  ) {
    function Reachable(node: NodeId): set<EndpointAddr> {
      if node in routing then routing[node] else {}
    }

    predicate Full() {
      config.overflow.Some? && |queue| >= config.overflow.value.size
    }

    function Emit(event: Event): Topic {
      this.(events := events + [event])
    }
  }

  datatype Proposal =
    | Delegate(message: Message)
    | SetState(id: MessageId, acks: StatusMap)
    | GoOnline(ep: EndpointAddr, interests: seq<Bytes>, host: NodeId)
    | GoOffline(ep: EndpointAddr, host: NodeId)
    | NewInterest(ep: EndpointAddr, interests: seq<Bytes>)
  {
    predicate OfEndpoint() {
      GoOnline? || GoOffline? || NewInterest?
    }
  }

  // What differs from replica to replica while the same proposal is applied: the node, its clock, and
  // the orders in which its hash sets are walked (the messages to poll, the candidates of a push).
  datatype Env = Env(node: NodeId, now: Time, walk: seq<MessageId>, ring: seq<EndpointAddr>)

  // The 64-bit hashes, the same on every node.
  datatype Hashing = Hashing(ofMessage: MessageId -> nat, ofEndpoint: EndpointAddr -> nat)

  ghost predicate IsRing(ring: seq<EndpointAddr>, eps: set<EndpointAddr>, hash: Hashing) {
    && Enumerates(ring, eps)
    && forall i, j :: 0 <= i < j < |ring| ==> hash.ofEndpoint(ring[i]) <= hash.ofEndpoint(ring[j])
  }

  // ----- Parts of a step -----

  function Ids(q: seq<HoldMessage>): (ids: seq<MessageId>)
    ensures |ids| == |q| && forall i :: 0 <= i < |q| ==> ids[i] == q[i].Id()
  {
    seq(|q|, i requires 0 <= i < |q| => q[i].Id())
  }

  function ArchiveOf(e: Event): seq<DurableCommand> {
    if e.Leave? then [Archive(e.id)] else []
  }

  function Archives(events: seq<Event>): seq<DurableCommand> {
    FlatMap(ArchiveOf, events)
  }

  function ApplyAcks(q: seq<HoldMessage>, id: MessageId, acks: StatusMap): (r: seq<HoldMessage>)
    ensures |r| == |q|
    ensures forall i :: 0 <= i < |q| ==> r[i] == if q[i].Id() == id then q[i].UpdateAcks(acks) else q[i]
  {
    seq(|q|, i requires 0 <= i < |q| => if q[i].Id() == id then q[i].UpdateAcks(acks) else q[i])
  }

  function Note(t: Topic, id: MessageId, acks: StatusMap): Topic {
    t.(queue := ApplyAcks(t.queue, id, acks), commands := t.commands + [UpdateStatus(id, acks)])
  }

  function Flush(t: Topic, id: MessageId, env: Env): Topic {
    var p := Settle(t.config.blocking, t.queue, {id}, t.Reachable(env.node), env.now);
    t.(queue := p.queue, events := t.events + p.events, commands := t.commands + Archives(p.events))
  }

  function UpdateAndFlush(t: Topic, id: MessageId, acks: StatusMap, env: Env): Topic {
    Flush(Note(t, id, acks), id, env)
  }

  function PollAll(t: Topic, ids: seq<MessageId>, env: Env): Topic
    decreases ids
  {
    if ids == [] then t else PollAll(UpdateAndFlush(t, ids[0], map[], env), ids[1..], env)
  }

  function Collect(ix: Index, subjects: seq<Bytes>): set<EndpointAddr> {
    set subject, v | subject in subjects && v in ix.Find(subject) :: v
  }

  function Failure(exception: AckException): AckResult {
    AckErr(map[], Some(exception))
  }

  // Room is made by dropping the message at the front.
  function DropFront(t: Topic): Topic
    requires t.queue != []
  {
    t.(queue := t.queue[1..]).Emit(Leave(t.queue[0].Id(), Failure(Overflow)))
  }

  function Enqueue(t: Topic, h: HoldMessage): Topic {
    t.(queue := t.queue + [h], commands := t.commands + [Create(h.message)])
  }

  function Targets(t: Topic, m: Message, env: Env, hash: Hashing): set<EndpointAddr>
    requires m.target.Push? ==> env.ring != []
  {
    if m.target.Push? then {env.ring[hash.ofMessage(m.id) % |env.ring|]} else Collect(t.ix, m.subjects)
  }

  function Hold(t: Topic, m: Message, env: Env, hash: Hashing): HoldMessage
    requires m.target.Push? ==> env.ring != []
  {
    HoldMessage(m, NewWaitAck(m.ackKind, Targets(t, m, env, hash)))
  }

  function Put(t: Topic, h: HoldMessage, env: Env): Topic {
    if t.Full() && t.config.overflow.value.policy.RejectNew? then t.Emit(Refuse(h.Id(), Failure(Overflow)))
    else
      var room := if t.Full() then DropFront(t) else t;
      UpdateAndFlush(Enqueue(room, h), h.Id(), map[], env)
  }

  function HoldNew(t: Topic, m: Message, env: Env, hash: Hashing): Topic {
    if m.target.Push? && env.ring == [] then t.Emit(Refuse(m.id, Failure(NoAvailableTarget)))
    else Put(t, Hold(t, m, env, hash), env)
  }

  predicate Wanted(ix: Index, h: HoldMessage, ep: EndpointAddr) {
    h.message.target.Durable? && ep in Collect(ix, h.message.subjects)
  }

  function EnlistOne(ix: Index, h: HoldMessage, ep: EndpointAddr): HoldMessage {
    if Wanted(ix, h, ep) && ep !in h.waitAck.status then h.WithStatus(h.waitAck.status[ep := Unsent]) else h
  }

  function Enlist(q: seq<HoldMessage>, ix: Index, ep: EndpointAddr): (r: seq<HoldMessage>)
    ensures |r| == |q| && forall i :: 0 <= i < |q| ==> r[i] == EnlistOne(ix, q[i], ep)
  {
    seq(|q|, i requires 0 <= i < |q| => EnlistOne(ix, q[i], ep))
  }

  function CutOffOne(h: HoldMessage, ep: EndpointAddr): HoldMessage {
    if ep in h.waitAck.status then h.WithStatus(h.waitAck.status[ep := Unreachable]) else h
  }

  function CutOff(q: seq<HoldMessage>, ep: EndpointAddr): (r: seq<HoldMessage>)
    ensures |r| == |q| && forall i :: 0 <= i < |q| ==> r[i] == CutOffOne(q[i], ep)
  {
    seq(|q|, i requires 0 <= i < |q| => CutOffOne(q[i], ep))
  }

  // ----- Steps -----

  // Everything an endpoint proposal does before it polls: routing, interests, statuses.
  ghost function Prepare(t: Topic, p: Proposal): Topic
    requires p.OfEndpoint()
  {
    match p
    case GoOnline(ep, interests, host) =>
      var ix := t.ix.InsertEach(interests, ep);
      t.(routing := t.routing[host := t.Reachable(host) + {ep}], ix := ix, queue := Enlist(t.queue, ix, ep))
    case GoOffline(ep, host) =>
      t.(routing := t.routing[host := t.Reachable(host) - {ep}], ix := t.ix.Delete(ep), queue := CutOff(t.queue, ep))
    case NewInterest(ep, interests) =>
      var ix := t.ix.Delete(ep).InsertEach(interests, ep);
      t.(ix := ix, queue := Enlist(t.queue, ix, ep))
  }

  // The messages it polls afterwards.
  ghost predicate Polls(t: Topic, p: Proposal, h: HoldMessage)
    requires p.OfEndpoint()
  {
    match p
    case GoOnline(ep, _, _) => ep !in h.waitAck.status && Wanted(Prepare(t, p).ix, h, ep)
    case GoOffline(ep, _) => ep in h.waitAck.status
    case NewInterest(ep, _) => Wanted(Prepare(t, p).ix, h, ep)
  }

  ghost function NeedPoll(t: Topic, p: Proposal): set<MessageId>
    requires p.OfEndpoint()
  {
    set h | h in t.queue && Polls(t, p, h) :: h.Id()
  }

  // Messages for an available endpoint are not supported: the code stops there.
  predicate Supported(p: Proposal) {
    p.Delegate? ==> !p.message.target.Available?
  }

  // The orders in `env` are orders of the right sets.
  ghost predicate Admissible(t: Topic, p: Proposal, env: Env, hash: Hashing) {
    match p
    case Delegate(m) => m.target.Push? ==> IsRing(env.ring, Collect(t.ix, m.subjects), hash)
    case SetState(_, _) => true
    case _ => Enumerates(env.walk, NeedPoll(t, p))
  }

  ghost function Step(t: Topic, p: Proposal, env: Env, hash: Hashing): Topic {
    match p
    case Delegate(m) => HoldNew(t, m, env, hash)
    case SetState(id, acks) => UpdateAndFlush(t, id, acks, env)
    case _ => PollAll(Prepare(t, p), env.walk, env)
  }

  // ----- Loading -----

  function IdOf(m: DurableMessage): seq<MessageId> {
    [m.message.id]
  }

  function TimeOf(m: DurableMessage): seq<Time> {
    [m.time]
  }

  function Insert(m: DurableMessage, sorted: seq<DurableMessage>): (r: seq<DurableMessage>)
    ensures multiset(r) == multiset{m} + multiset(sorted) && |r| == |sorted| + 1
  {
    if sorted == [] || m.time <= sorted[0].time then [m] + sorted
    else
      assert sorted == [sorted[0]] + sorted[1..];
      [sorted[0]] + Insert(m, sorted[1..])
  }

  function SortByTime(messages: seq<DurableMessage>): (r: seq<DurableMessage>)
    ensures multiset(r) == multiset(messages) && |r| == |messages|
  {
    if messages == [] then []
    else
      assert messages == [messages[0]] + messages[1..];
      Insert(messages[0], SortByTime(messages[1..]))
  }

  lemma InsertCons(m: DurableMessage, e: DurableMessage, rest: seq<DurableMessage>)
    ensures Insert(m, [e] + rest) == if m.time <= e.time then [m] + ([e] + rest) else [e] + Insert(m, rest)
    ensures Insert(m, []) == [m]
  {
    assert ([e] + rest)[1..] == rest;
  }

  lemma {:induction false} InsertElements(m: DurableMessage, sorted: seq<DurableMessage>)
    ensures forall x :: x in Insert(m, sorted) ==> x == m || x in sorted
  {
    hide Insert;
    if sorted == [] {
      InsertCons(m, m, []);
    } else {
      assert sorted == [sorted[0]] + sorted[1..];
      InsertCons(m, sorted[0], sorted[1..]);
      InsertElements(m, sorted[1..]);
    }
  }

  lemma ByTimeCons(e: DurableMessage, rest: seq<DurableMessage>)
    requires ByTime(rest) && forall x :: x in rest ==> e.time <= x.time
    ensures ByTime([e] + rest)
  {
  }

  lemma {:induction false} InsertSorted(m: DurableMessage, sorted: seq<DurableMessage>)
    requires ByTime(sorted)
    ensures ByTime(Insert(m, sorted))
  {
    hide Insert;
    if sorted == [] {
      InsertCons(m, m, []);
    } else {
      var e, rest := sorted[0], sorted[1..];
      assert sorted == [e] + rest;
      InsertCons(m, e, rest);
      assert forall i :: 0 <= i < |rest| ==> rest[i] == sorted[i + 1];
      if m.time <= e.time {
        ByTimeCons(m, sorted);
      } else {
        InsertSorted(m, rest);
        InsertElements(m, rest);
        ByTimeCons(e, Insert(m, rest));
      }
    }
  }

  predicate ByTime(messages: seq<DurableMessage>) {
    forall i, j :: 0 <= i < j < |messages| ==> messages[i].time <= messages[j].time
  }

  // Loading puts the stored messages in the order of their times.
  lemma {:induction false} SortByTimeSorts(messages: seq<DurableMessage>)
    ensures ByTime(SortByTime(messages)) && multiset(SortByTime(messages)) == multiset(messages)
  {
    if messages != [] {
      SortByTimeSorts(messages[1..]);
      InsertSorted(messages[0], SortByTime(messages[1..]));
    }
  }

  lemma TailByTime(e: DurableMessage, rest: seq<DurableMessage>)
    requires ByTime([e] + rest)
    ensures ByTime(rest) && forall x :: x in rest ==> e.time <= x.time
  {
    var s := [e] + rest;
    assert forall i :: 0 <= i < |rest| ==> rest[i] == s[i + 1];
    forall x | x in rest ensures e.time <= x.time {
      var i :| 0 <= i < |rest| && rest[i] == x;
      assert s[0].time <= s[i + 1].time;
    }
  }

  lemma {:induction false} SortedIsSorted(sorted: seq<DurableMessage>)
    requires ByTime(sorted)
    ensures SortByTime(sorted) == sorted
  {
    if sorted != [] {
      var e, rest := sorted[0], sorted[1..];
      assert sorted == [e] + rest;
      TailByTime(e, rest);
      SortedIsSorted(rest);
      assert rest != [] ==> rest[0] in rest;
    }
  }

  function AtTime(time: Time): DurableMessage -> seq<DurableMessage> {
    (m: DurableMessage) => if m.time == time then [m] else []
  }

  lemma AtOtherTime(time: Time, m: DurableMessage, e: DurableMessage)
    requires e.time < m.time
    ensures AtTime(time)(m) == [] || AtTime(time)(e) == []
  {
  }

  lemma {:induction false} InsertIsStable(m: DurableMessage, sorted: seq<DurableMessage>, time: Time)
    requires ByTime(sorted)
    ensures FlatMap(AtTime(time), Insert(m, sorted)) == AtTime(time)(m) + FlatMap(AtTime(time), sorted)
  {
    hide *;
    var f := AtTime(time);
    if sorted == [] {
      InsertCons(m, m, []);
      FlatMapCons(f, m, []);
      assert f(m) + [] == f(m);
    } else {
      var e, rest := sorted[0], sorted[1..];
      assert sorted == [e] + rest;
      InsertCons(m, e, rest);
      if m.time <= e.time {
        FlatMapCons(f, m, sorted);
      } else {
        TailByTime(e, rest);
        InsertIsStable(m, rest, time);
        FlatMapCons(f, e, rest);
        FlatMapCons(f, e, Insert(m, rest));
        AtOtherTime(time, m, e);
        var more := FlatMap(f, rest);
        assert f(e) + (f(m) + more) == f(m) + (f(e) + more);
      }
    }
  }

  // Messages with the same time stay in the order in which they are stored.
  lemma {:induction false} SortIsStable(messages: seq<DurableMessage>, time: Time)
    ensures FlatMap(AtTime(time), SortByTime(messages)) == FlatMap(AtTime(time), messages)
  {
    if messages != [] {
      assert messages == [messages[0]] + messages[1..];
      SortByTimeSorts(messages[1..]);
      SortIsStable(messages[1..], time);
      InsertIsStable(messages[0], SortByTime(messages[1..]), time);
      FlatMapCons(AtTime(time), messages[0], messages[1..]);
    }
  }

  // The loaded queue is the stored messages in the order of their times, each with its own statuses and
  // the level that it asks for; nothing is routed, wanted or emitted yet.
  lemma LoadedExactly(config: TopicConfig, messages: seq<DurableMessage>)
    ensures var t, sorted := FromDurable(config, messages), SortByTime(messages);
            && t.config == config && t.routing == map[] && t.ix.raw == map[] && t.events == [] && t.commands == []
            && |t.queue| == |messages| && ByTime(sorted) && multiset(sorted) == multiset(messages)
            && forall i :: 0 <= i < |t.queue| ==>
                 && t.queue[i].message == sorted[i].message
                 && t.queue[i].waitAck.level == sorted[i].message.ackKind
                 && t.queue[i].waitAck.status == sorted[i].status
  {
    SortByTimeSorts(messages);
  }

  function Reload(m: DurableMessage): HoldMessage {
    HoldMessage(m.message, WaitAck(m.message.ackKind, m.status))
  }

  function FromDurable(config: TopicConfig, messages: seq<DurableMessage>): Topic {
    var sorted := SortByTime(messages);
    Topic(config, map[], EmptyIndex, seq(|sorted|, i requires 0 <= i < |sorted| => Reload(sorted[i])), [], [])
  }

  // ----- Runs -----

  ghost function Run(t: Topic, log: seq<Proposal>, envs: seq<Env>, hash: Hashing): Topic
    requires |envs| == |log|
    decreases log
  {
    if log == [] then t else Run(Step(t, log[0], envs[0], hash), log[1..], envs[1..], hash)
  }

  ghost predicate RunOk(t: Topic, log: seq<Proposal>, envs: seq<Env>, hash: Hashing)
    requires |envs| == |log|
    decreases log
  {
    log == [] || (&& Supported(log[0])
                  && Admissible(t, log[0], envs[0], hash)
                  && RunOk(Step(t, log[0], envs[0], hash), log[1..], envs[1..], hash))
  }

  lemma RunOne(t: Topic, log: seq<Proposal>, envs: seq<Env>, hash: Hashing)
    requires |envs| == |log|
    ensures log == [] ==> Run(t, log, envs, hash) == t
    ensures log != [] ==>
              var next := Step(t, log[0], envs[0], hash);
              && Run(t, log, envs, hash) == Run(next, log[1..], envs[1..], hash)
              && (RunOk(t, log, envs, hash) ==>
                  && Supported(log[0])
                  && Admissible(t, log[0], envs[0], hash)
                  && RunOk(next, log[1..], envs[1..], hash))
  {
  }

  // ----- Polling a walk, as one settlement -----

  lemma NoAcks(q: seq<HoldMessage>, id: MessageId)
    ensures ApplyAcks(q, id, map[]) == q
  {
    forall i | 0 <= i < |q| ensures q[i].UpdateAcks(map[]) == q[i] {
      assert q[i].UpdateAcks(map[]).waitAck.status == q[i].waitAck.status;
    }
  }

  function StatusUpdates(ids: seq<MessageId>): seq<DurableCommand> {
    seq(|ids|, i requires 0 <= i < |ids| => UpdateStatus(ids[i], map[]))
  }

  function FlushResult(t: Topic, id: MessageId, env: Env): Polled {
    Settle(t.config.blocking, t.queue, {id}, t.Reachable(env.node), env.now)
  }

  lemma EmptyUpdate(t: Topic, id: MessageId, env: Env)
    ensures var p := FlushResult(t, id, env);
            UpdateAndFlush(t, id, map[], env) ==
            t.(queue := p.queue, events := t.events + p.events,
               commands := t.commands + [UpdateStatus(id, map[])] + FlatMap(ArchiveOf, p.events))
  {
    NoAcks(t.queue, id);
  }

  function WalkResult(t: Topic, ids: seq<MessageId>, env: Env): Polled {
    Walk(t.config.blocking, t.queue, ids, t.Reachable(env.node), env.now)
  }

  lemma WalkOne(t: Topic, ids: seq<MessageId>, env: Env)
    requires ids != []
    ensures var p := FlushResult(t, ids[0], env);
            var rest := WalkResult(UpdateAndFlush(t, ids[0], map[], env), ids[1..], env);
            WalkResult(t, ids, env) == Polled(rest.queue, p.events + rest.events)
  {
    EmptyUpdate(t, ids[0], env);
  }

  lemma PollAllOne(t: Topic, ids: seq<MessageId>, env: Env)
    ensures ids == [] ==> PollAll(t, ids, env) == t && WalkResult(t, ids, env) == Polled(t.queue, [])
    ensures FlatMap(ArchiveOf, []) == []
    ensures ids != [] ==> PollAll(t, ids, env) == PollAll(UpdateAndFlush(t, ids[0], map[], env), ids[1..], env)
  {
  }

  lemma {:induction false} PollAllIsWalk(t: Topic, ids: seq<MessageId>, env: Env)
    ensures var w := WalkResult(t, ids, env); var after := PollAll(t, ids, env);
            after == t.(queue := w.queue, events := t.events + w.events, commands := after.commands)
    decreases ids
  {
    hide *;
    PollAllOne(t, ids, env);
    if ids == [] {
      assert t.events + [] == t.events;
    } else {
      WalkOne(t, ids, env);
      EmptyUpdate(t, ids[0], env);
      var next := UpdateAndFlush(t, ids[0], map[], env);
      PollAllIsWalk(next, ids[1..], env);
      var first, rest := FlushResult(t, ids[0], env), WalkResult(next, ids[1..], env);
      assert t.events + first.events + rest.events == t.events + (first.events + rest.events);
    }
  }

  lemma StatusUpdatesCons(ids: seq<MessageId>)
    ensures ids == [] ==> StatusUpdates(ids) == []
    ensures ids != [] ==> StatusUpdates(ids) == [UpdateStatus(ids[0], map[])] + StatusUpdates(ids[1..])
  {
  }

  lemma {:induction false} PollAllCommands(t: Topic, ids: seq<MessageId>, env: Env)
    ensures multiset(PollAll(t, ids, env).commands) ==
            multiset(t.commands) + multiset(StatusUpdates(ids)) + multiset(FlatMap(ArchiveOf, WalkResult(t, ids, env).events))
    decreases ids
  {
    hide *;
    PollAllOne(t, ids, env);
    StatusUpdatesCons(ids);
    if ids != [] {
      WalkOne(t, ids, env);
      EmptyUpdate(t, ids[0], env);
      var next := UpdateAndFlush(t, ids[0], map[], env);
      PollAllCommands(next, ids[1..], env);
      var first, rest := FlushResult(t, ids[0], env), WalkResult(next, ids[1..], env);
      FlatMapConcat(ArchiveOf, first.events, rest.events);
    }
  }

  // The messages an endpoint proposal polls are polled in the order a hash set yields them; the final
  // state and, up to order, what is emitted depend on the set only.
  lemma StepConfluence(t: Topic, p: Proposal, e1: Env, e2: Env, hash: Hashing)
    requires p.OfEndpoint()
    requires Admissible(t, p, e1, hash) && Admissible(t, p, e2, hash)
    requires e1.node == e2.node && e1.now == e2.now
    ensures var t1 := Step(t, p, e1, hash); var t2 := Step(t, p, e2, hash);
            && t2 == t1.(events := t2.events, commands := t2.commands)
            && multiset(t1.events) == multiset(t2.events)
            && (t.config.blocking ==> t1.events == t2.events)
            && multiset(t1.commands) == multiset(t2.commands)
  {
    var ready := Prepare(t, p);
    PollAllIsWalk(ready, e1.walk, e1);
    PollAllIsWalk(ready, e2.walk, e2);
    PollAllCommands(ready, e1.walk, e1);
    PollAllCommands(ready, e2.walk, e2);
    var reach := ready.Reachable(e1.node);
    Confluence(ready.config.blocking, ready.queue, e1.walk, e2.walk, reach, e1.now);
    FlatMapPermuted(ArchiveOf, WalkResult(ready, e1.walk, e1).events, WalkResult(ready, e2.walk, e2).events);
    StatusUpdatesPermuted(e1.walk, e2.walk);
  }

  lemma {:induction false} StatusUpdatesCount(ids: seq<MessageId>, c: DurableCommand)
    requires NoRepeats(ids)
    ensures multiset(StatusUpdates(ids))[c] ==
            if c.UpdateStatus? && c.acks == map[] && c.id in ids then 1 else 0
  {
    if ids != [] {
      assert StatusUpdates(ids) == [UpdateStatus(ids[0], map[])] + StatusUpdates(ids[1..]);
      StatusUpdatesCount(ids[1..], c);
    }
  }

  lemma StatusUpdatesPermuted(a: seq<MessageId>, b: seq<MessageId>)
    requires Enumerates(a, Elements(b)) && Enumerates(b, Elements(a))
    ensures multiset(StatusUpdates(a)) == multiset(StatusUpdates(b))
  {
    forall c: DurableCommand ensures multiset(StatusUpdates(a))[c] == multiset(StatusUpdates(b))[c] {
      StatusUpdatesCount(a, c);
      StatusUpdatesCount(b, c);
      assert c.UpdateStatus? ==> (c.id in a <==> c.id in Elements(a)) && (c.id in b <==> c.id in Elements(b));
    }
  }
}
