// Runs from an empty topic in which something fails that holds under the conditions proved elsewhere.

module Witnesses {
  import opened Messages
  import opened Lists
  import opened Tries
  import opened HoldQueue
  import opened Topics
  import opened Agreement
  import opened AtMostOnce
  import opened SnapshotSends
  import opened NoStall
  import opened DurableReplay
  import opened Nodes
  import opened Fates

  const Free: TopicConfig := TopicConfig(1, false, None)
  const Tight: TopicConfig := TopicConfig(1, true, Some(OverflowConfig(DropOld, 2)))

  function Empty(config: TopicConfig): Topic {
    Topic(config, map[], EmptyIndex, [], [], [])
  }

  lemma EmptyIsLoaded(config: TopicConfig)
    ensures FromDurable(config, []) == Empty(config)
  {
  }

  function Hello(id: MessageId): Message {
    Message(id, ExpectProcessed, TargetKind.Online, None, [[97]], [])
  }

  // A node at rest: nothing to walk, no clock needed.
  function At(node: NodeId): Env {
    Env(node, 0, [], [])
  }

  lemma RunFirst(t: Topic, p: Proposal, env: Env, log: seq<Proposal>, envs: seq<Env>, hash: Hashing)
    requires |envs| == |log|
    ensures var next := Step(t, p, env, hash);
            && Run(t, [p] + log, [env] + envs, hash) == Run(next, log, envs, hash)
            && (RunOk(t, [p] + log, [env] + envs, hash) <==>
                Supported(p) && Admissible(t, p, env, hash) && RunOk(next, log, envs, hash))
  {
    hide Step, Admissible;
    assert ([p] + log)[1..] == log && ([env] + envs)[1..] == envs;
  }

  lemma RunLast(t: Topic, p: Proposal, env: Env, hash: Hashing)
    ensures Run(t, [p], [env], hash) == Step(t, p, env, hash)
    ensures RunOk(t, [p], [env], hash) <==> Supported(p) && Admissible(t, p, env, hash)
  {
    hide Step, Admissible;
    RunFirst(t, p, env, [], [], hash);
    assert [p] + [] == [p] && [env] + [] == [env];
  }

  // ----- Steps of a topic that holds nothing -----

  lemma NothingToPoll(t: Topic, p: Proposal, env: Env, hash: Hashing)
    requires p.OfEndpoint() && env.walk == [] && t.queue == []
    ensures Admissible(t, p, env, hash) && Step(t, p, env, hash) == Prepare(t, p)
    ensures Prepare(t, p).queue == []
  {
    hide Index.InsertEach, Index.Delete;
    assert NeedPoll(t, p) == {};
    assert Elements<MessageId>([]) == {};
  }

  lemma AllFound(ix: Index, ep: EndpointAddr)
    requires ix.Valid()
    ensures ix.InsertEach(Everything, ep).Valid() && ep in Collect(ix.InsertEach(Everything, ep), [[97]])
  {
    InsertEachKeepsValid(ix, Everything, ep);
    EverythingIsFound(ix, ep, [97]);
    hide Index.InsertEach, Index.Valid, Index.Find;
    var subject: Bytes := [97];
    assert subject in [subject];
  }

  lemma FoundIsKnown(ix: Index, subject: Bytes, v: EndpointAddr)
    requires ix.Valid() && v in ix.Find(subject)
    ensures v in ix.raw
  {
    hide Wants, Index.Valid, Index.Find;
    FindIsScan(ix, subject);
  }

  lemma OnlyKey(ep: EndpointAddr, v: EndpointAddr)
    requires v in EmptyIndex.InsertEach(Everything, ep).raw
    ensures v == ep
  {
    hide Index.InsertEach;
    InsertEachRaw(EmptyIndex, Everything, ep, v);
  }

  lemma CollectOne(ix: Index, subject: Bytes, v: EndpointAddr)
    requires v in Collect(ix, [subject])
    ensures v in ix.Find(subject)
  {
    hide Index.Find;
  }

  lemma OnlyOneFound(ep: EndpointAddr)
    ensures Collect(EmptyIndex.InsertEach(Everything, ep), [[97]]) == {ep}
  {
    hide *;
    var ix := EmptyIndex.InsertEach(Everything, ep);
    EmptyIsValid();
    AllFound(EmptyIndex, ep);
    forall v | v in Collect(ix, [[97]]) ensures v == ep {
      CollectOne(ix, [97], v);
      FoundIsKnown(ix, [97], v);
      OnlyKey(ep, v);
    }
  }

  lemma Joins(t: Topic, ep: EndpointAddr, host: NodeId, env: Env, hash: Hashing)
    requires env.walk == [] && t.queue == [] && t.ix.Valid()
    ensures var p := GoOnline(ep, Everything, host); var next := Step(t, p, env, hash);
            && Admissible(t, p, env, hash)
            && next == t.(routing := t.routing[host := t.Reachable(host) + {ep}], ix := next.ix)
            && next.ix.Valid() && ep in Collect(next.ix, [[97]])
            && (t.ix == EmptyIndex ==> Collect(next.ix, [[97]]) == {ep})
  {
    hide Index.Valid, Index.InsertEach, Collect, Admissible;
    AllFound(t.ix, ep);
    OnlyOneFound(ep);
    NothingToPoll(t, GoOnline(ep, Everything, host), env, hash);
  }

  lemma Subscribes(t: Topic, ep: EndpointAddr, env: Env, hash: Hashing)
    requires env.walk == [] && t.queue == [] && t.ix.Valid()
    ensures var p := NewInterest(ep, Everything); var next := Step(t, p, env, hash);
            && Admissible(t, p, env, hash)
            && next == t.(ix := next.ix)
            && ep in Collect(next.ix, [[97]])
  {
    hide Index.Valid, Index.InsertEach, Index.Delete, Collect, Admissible;
    DeleteKeepsValid(t.ix, ep);
    AllFound(t.ix.Delete(ep), ep);
    NothingToPoll(t, NewInterest(ep, Everything), env, hash);
  }

  // The first message is sent where it can be, and waits.
  lemma Greets(t: Topic, id: MessageId, env: Env, hash: Hashing, ep: EndpointAddr)
    requires t.queue == [] && !t.Full() && ep in Collect(t.ix, [[97]])
    ensures var p := Delegate(Hello(id)); var next := Step(t, p, env, hash);
            && Supported(p) && Admissible(t, p, env, hash)
            && |next.queue| == 1 && next.queue[0].message == Hello(id) && ep in next.queue[0].waitAck.status
            && next.queue[0].waitAck.status[ep] == (if ep in t.Reachable(env.node) then Sending else Unsent)
            && next.queue[0].Outgoing(t.Reachable(env.node)) == {} && !next.queue[0].IsResolved(0)
            && next == t.(queue := next.queue, events := next.events, commands := next.commands)
            && next.events == t.events + SendEvents(Hold(t, Hello(id), env, hash), t.Reachable(env.node))
            && next.queue[0] == Hold(t, Hello(id), env, hash).SendUnsent(t.Reachable(env.node))
  {
    hide Collect, FlatMap, SendEvents;
    var h, reach := Hold(t, Hello(id), env, hash), t.Reachable(env.node);
    assert [] + [h] == [h];
    NoAcks([h], id);
    HelloWaits(h, reach, env.now, ep);
    SettleOne(t.config.blocking, h, reach, env.now);
  }

  lemma HelloWaits(h: HoldMessage, reach: set<EndpointAddr>, now: Time, ep: EndpointAddr)
    requires h.message == Hello(h.Id()) && h.waitAck.level == ExpectProcessed
    requires ep in h.waitAck.status && h.waitAck.status[ep].Unsent?
    ensures var sent := h.SendUnsent(reach);
            && PollOne(h, reach, now) == Polled([sent], SendEvents(h, reach)) && sent.message == h.message
            && sent.Outgoing(reach) == {} && !sent.IsResolved(0)
            && ep in sent.waitAck.status && sent.waitAck.status[ep] == if ep in reach then Sending else Unsent
  {
    SendTwice(h, reach);
    assert ep in h.Outgoing(reach) <==> ep in reach;
  }

  lemma SettleOne(blocking: bool, h: HoldMessage, reach: set<EndpointAddr>, now: Time)
    ensures Settle(blocking, [h], {h.Id()}, reach, now) == PollOne(h, reach, now)
  {
    assert [h] == [h] + [];
    DrainCons(h, [], reach, now);
    PollEachCons(h, [], {h.Id()}, reach, now);
    hide PollOne;
    var one := PollOne(h, reach, now);
    assert one.queue + [] == one.queue && one.events + [] == one.events;
  }

  // ----- An endpoint that comes online where it is awaited -----

  const AwaitedLog: seq<Proposal> := [NewInterest(7, Everything)] + ([Delegate(Hello(100))] + [GoOnline(7, [], 1)])

  // An endpoint declares its interests, a message is delegated, the endpoint comes online: it is
  // listed as unsent and reachable, and the message is not sent.
  lemma AwaitedRun(hash: Hashing)
    ensures var start := FromDurable(Free, []); var envs := [At(1)] + ([At(1)] + [At(1)]);
            var t := Run(start, AwaitedLog, envs, hash);
            && RunOk(start, AwaitedLog, envs, hash)
            && |t.queue| == 1 && 7 in t.queue[0].Outgoing(t.Reachable(1)) && !Quiet(t, 1)
  {
    hide Step, Run, RunOk, Admissible, Collect, Prepare;
    EmptyIsLoaded(Free);
    EmptyIsValid();
    var t0 := Empty(Free);
    Subscribes(t0, 7, At(1), hash);
    var t1 := Step(t0, NewInterest(7, Everything), At(1), hash);
    Greets(t1, 100, At(1), hash, 7);
    var t2 := Step(t1, Delegate(Hello(100)), At(1), hash);
    ComesOnline(t2, hash);
    RunFirst(t0, NewInterest(7, Everything), At(1), [Delegate(Hello(100))] + [GoOnline(7, [], 1)], [At(1)] + [At(1)], hash);
    RunFirst(t1, Delegate(Hello(100)), At(1), [GoOnline(7, [], 1)], [At(1)], hash);
    RunLast(t2, GoOnline(7, [], 1), At(1), hash);
    Unsettled(Step(t2, GoOnline(7, [], 1), At(1), hash), 1);
  }

  lemma ComesOnline(t: Topic, hash: Hashing)
    requires |t.queue| == 1 && t.queue[0].message == Hello(100)
    requires 7 in t.queue[0].waitAck.status && t.queue[0].waitAck.status[7].Unsent?
    ensures var p := GoOnline(7, [], 1); var next := Step(t, p, At(1), hash);
            && Admissible(t, p, At(1), hash)
            && next.queue == t.queue && 7 in next.queue[0].Outgoing(next.Reachable(1))
  {
    var p := GoOnline(7, [], 1);
    assert NeedPoll(t, p) == {};
    assert Elements<MessageId>([]) == {};
    assert Prepare(t, p).queue[0] == t.queue[0];
  }

  lemma Unsettled(t: Topic, node: NodeId)
    requires t.queue != [] && t.queue[0].Outgoing(t.Reachable(node)) != {}
    ensures !Quiet(t, node)
  {
    hide HoldMessage.Outgoing;
  }

  // ----- A full blocking topic that drops its front -----

  const OverflowLog: seq<Proposal> :=
    [GoOnline(7, Everything, 1)] + ([Delegate(Hello(100))] + ([Delegate(Hello(101))] + [Delegate(Hello(102))]))

  // A second message waits behind the first.
  lemma Waits(t: Topic, id: MessageId, env: Env, hash: Hashing, ep: EndpointAddr)
    requires t.config == Tight && |t.queue| == 1 && t.queue[0].Id() != id && ep in Collect(t.ix, [[97]])
    ensures var p := Delegate(Hello(id)); var next := Step(t, p, env, hash);
            && Supported(p) && Admissible(t, p, env, hash)
            && next.config == Tight && next.routing == t.routing && next.ix == t.ix
            && |next.queue| == 2 && next.queue[0] == t.queue[0] && next.queue[1].message == Hello(id)
            && ep in next.queue[1].waitAck.status && next.queue[1].waitAck.status[ep].Unsent?
  {
    hide Collect, UpdateAndFlush;
    PulledUp(t, Hold(t, Hello(id), env, hash), env);
    SameIndex(Enqueue(t, Hold(t, Hello(id), env, hash)), id, env);
  }

  lemma SameIndex(t: Topic, id: MessageId, env: Env)
    ensures UpdateAndFlush(t, id, map[], env).ix == t.ix
  {
    hide Settle, FlatMap;
  }

  // A third one makes the first leave; the second comes up, and is not polled.
  lemma Overflows(t: Topic, id: MessageId, env: Env, hash: Hashing)
    requires t.config == Tight && |t.queue| == 2 && t.queue[1].Id() != id
    ensures var p := Delegate(Hello(id)); var next := Step(t, p, env, hash);
            && Supported(p) && Admissible(t, p, env, hash) && MakesRoom(t, p, env)
            && next.routing == t.routing && |next.queue| == 2 && next.queue[0] == t.queue[1]
  {
    hide Collect, UpdateAndFlush;
    assert t.queue[1..] == [t.queue[1]];
    PulledUp(DropFront(t), Hold(t, Hello(id), env, hash), env);
  }

  // The topic as each proposal of the log meets it.
  lemma OverflowStates(hash: Hashing) returns (t1: Topic, t2: Topic, t3: Topic, t4: Topic)
    ensures t1 == Step(Empty(Tight), OverflowLog[0], At(1), hash) && t2 == Step(t1, OverflowLog[1], At(1), hash)
    ensures t3 == Step(t2, OverflowLog[2], At(1), hash) && t4 == Step(t3, OverflowLog[3], At(1), hash)
    ensures var start, envs := Empty(Tight), [At(1)] + ([At(1)] + ([At(1)] + [At(1)]));
            Run(start, OverflowLog, envs, hash) == t4 && RunOk(start, OverflowLog, envs, hash)
    ensures MakesRoom(t3, OverflowLog[3], At(1))
    ensures |t3.queue| == 2 && t3.queue[0].Outgoing(t3.Reachable(1)) == {} && !t3.queue[0].IsResolved(0)
    ensures |t4.queue| == 2 && t4.queue[0] == t3.queue[1] && t4.queue[0].Id() == 101
    ensures 7 in t4.queue[0].Outgoing(t4.Reachable(1))
  {
    hide Step, Run, RunOk, Admissible, Collect, MakesRoom;
    EmptyIsValid();
    var t0 := Empty(Tight);
    Joins(t0, 7, 1, At(1), hash);
    t1 := Step(t0, GoOnline(7, Everything, 1), At(1), hash);
    Greets(t1, 100, At(1), hash, 7);
    t2 := Step(t1, Delegate(Hello(100)), At(1), hash);
    Waits(t2, 101, At(1), hash, 7);
    t3 := Step(t2, Delegate(Hello(101)), At(1), hash);
    Overflows(t3, 102, At(1), hash);
    t4 := Step(t3, Delegate(Hello(102)), At(1), hash);
    RunFirst(t0, GoOnline(7, Everything, 1), At(1),
             [Delegate(Hello(100))] + ([Delegate(Hello(101))] + [Delegate(Hello(102))]), [At(1)] + ([At(1)] + [At(1)]), hash);
    RunFirst(t1, Delegate(Hello(100)), At(1), [Delegate(Hello(101))] + [Delegate(Hello(102))], [At(1)] + [At(1)], hash);
    RunFirst(t2, Delegate(Hello(101)), At(1), [Delegate(Hello(102))], [At(1)], hash);
    RunLast(t3, Delegate(Hello(102)), At(1), hash);
  }

  // The message that came up could be sent, and is not.
  lemma PulledUpRun(hash: Hashing)
    ensures var start := FromDurable(Tight, []); var envs := [At(1)] + ([At(1)] + ([At(1)] + [At(1)]));
            var t := Run(start, OverflowLog, envs, hash);
            && RunOk(start, OverflowLog, envs, hash)
            && |t.queue| == 2 && t.queue[0].Id() == 101 && 7 in t.queue[0].Outgoing(t.Reachable(1)) && !Quiet(t, 1)
  {
    hide Step, Run, RunOk, MakesRoom;
    EmptyIsLoaded(Tight);
    var t1, t2, t3, t4 := OverflowStates(hash);
    Unsettled(t4, 1);
  }

  const OverflowOps: seq<DrainOp> :=
    [DrainOp.Apply(OverflowLog[0], At(1))] + ([DrainOp.Apply(OverflowLog[1], At(1))] +
    ([DrainOp.Apply(OverflowLog[2], At(1))] + [DrainOp.Apply(OverflowLog[3], At(1))]))

  lemma RoomFirst(d: Backed, p: Proposal, env: Env, rest: seq<DrainOp>, hash: Hashing) returns (next: Backed)
    ensures next.topic == Step(d.topic, p, env, hash)
    ensures NeverMakesRoom(d, [DrainOp.Apply(p, env)] + rest, hash) <==>
            !MakesRoom(d.topic, p, env) && NeverMakesRoom(next, rest, hash)
  {
    hide Step, MakesRoom;
    next := DrainStep(d, DrainOp.Apply(p, env), hash);
    assert ([DrainOp.Apply(p, env)] + rest)[1..] == rest;
  }

  // The message that was dropped stays in the store.
  lemma DroppedRun(hash: Hashing)
    ensures var start, envs := FromDurable(Tight, []), [At(1)] + ([At(1)] + ([At(1)] + [At(1)]));
            var end := RunDrain(Backed(start, {}, [], []), OverflowOps, hash);
            && RunOk(start, OverflowLog, envs, hash)
            && Elements(Ids(end.topic.queue)) < Replay(end.saved, end.inflight + end.pending)
  {
    EmptyIsLoaded(Tight);
    var d0 := Backed(Empty(Tight), {}, [], []);
    assert Ids([]) == [] && Elements<MessageId>([]) == {};
    hide Step, Run, RunOk, MakesRoom, Replay, FlatMap, Dropped, NoRepeats, RunDrain, NeverMakesRoom, Ids;
    var t1, t2, t3, t4 := OverflowStates(hash);
    OverflowIds();
    LoadedFromStore(Tight, [], OverflowOps, hash);
    var op2, op3 := DrainOp.Apply(OverflowLog[2], At(1)), DrainOp.Apply(OverflowLog[3], At(1));
    var d1 := RoomFirst(d0, OverflowLog[0], At(1), [DrainOp.Apply(OverflowLog[1], At(1))] + ([op2] + [op3]), hash);
    var d2 := RoomFirst(d1, OverflowLog[1], At(1), [op2] + [op3], hash);
    var d3 := RoomFirst(d2, OverflowLog[2], At(1), [op3], hash);
    var d4 := RoomFirst(d3, OverflowLog[3], At(1), [], hash);
    assert [op3] + [] == [op3];
  }

  lemma {:induction false} OverflowIds()
    ensures NoRepeats([] + FlatMap(DelegatedBy, OverflowOps))
  {
    var ops := OverflowOps;
    FlatMapCons(DelegatedBy, ops[0], [ops[1]] + ([ops[2]] + [ops[3]]));
    FlatMapCons(DelegatedBy, ops[1], [ops[2]] + [ops[3]]);
    FlatMapCons(DelegatedBy, ops[2], [ops[3]]);
    FlatMapCons(DelegatedBy, ops[3], []);
    assert FlatMap(DelegatedBy, ops) == [100, 101, 102];
  }

  // ----- An endpoint that is reported as failed after it processed the message -----

  const FailedLog: seq<Proposal> :=
    [GoOnline(7, Everything, 1)] + ([Delegate(Hello(100))] + ([SetState(100, map[7 := Processed, 8 := Received])] +
    ([GoOffline(7, 1)] + [SetState(100, map[8 := Processed])])))

  const FailedEnvs: seq<Env> := [At(1)] + ([At(1)] + ([At(1)] + ([Env(1, 0, [100], [])] + [At(1)])))

  lemma FlushOne(t: Topic, h: HoldMessage, env: Env)
    requires t.queue == [h]
    ensures var one := PollOne(h, t.Reachable(env.node), env.now); var next := Flush(t, h.Id(), env);
            next.queue == one.queue && next.events == t.events + one.events
  {
    SettleOne(t.config.blocking, h, t.Reachable(env.node), env.now);
    hide Settle, PollOne, FlatMap;
  }

  // An ack to the only message.
  lemma AcksOne(t: Topic, h: HoldMessage, acks: StatusMap, env: Env, hash: Hashing)
    requires t.queue == [h]
    ensures var one := PollOne(h.UpdateAcks(acks), t.Reachable(env.node), env.now);
            var next := Step(t, SetState(h.Id(), acks), env, hash);
            next.queue == one.queue && next.events == t.events + one.events
  {
    hide Flush, PollOne, HoldMessage.UpdateAcks;
    var noted := Note(t, h.Id(), acks);
    assert noted.queue == [h.UpdateAcks(acks)];
    assert noted.Reachable(env.node) == t.Reachable(env.node);
    FlushOne(noted, h.UpdateAcks(acks), env);
  }

  // An endpoint of the only message goes offline.
  lemma OfflineOfOne(t: Topic, h: HoldMessage, ep: EndpointAddr, host: NodeId, env: Env, hash: Hashing)
    requires t.queue == [h] && ep in h.waitAck.status && env.walk == [h.Id()]
    ensures var p := GoOffline(ep, host); var ready, next := Prepare(t, p), Step(t, p, env, hash);
            var one := PollOne(CutOffOne(h, ep), ready.Reachable(env.node), env.now);
            Admissible(t, p, env, hash) && next.queue == one.queue && next.events == t.events + one.events
  {
    hide Flush, PollOne, Index.Delete;
    var p := GoOffline(ep, host);
    var ready := Prepare(t, p);
    assert NeedPoll(t, p) == {h.Id()} by { assert h in t.queue && Polls(t, p, h); }
    assert Elements([h.Id()]) == {h.Id()};
    assert ready.queue == [CutOffOne(h, ep)] && ready.events == t.events;
    NoAcks(ready.queue, h.Id());
    var noted := Note(ready, h.Id(), map[]);
    FlushOne(noted, CutOffOne(h, ep), env);
    assert noted.Reachable(env.node) == ready.Reachable(env.node);
    assert env.walk[1..] == [];
    assert PollAll(ready, env.walk, env) == Flush(noted, h.Id(), env);
  }

  // Nothing to send, and not done.
  lemma StaysAsIs(h: HoldMessage, reach: set<EndpointAddr>, now: Time)
    requires !h.message.target.Durable? && h.Outgoing(reach) == {} && 8 in h.waitAck.status
    requires !h.waitAck.status[8].IsResolved(h.waitAck.level)
    ensures PollOne(h, reach, now) == Polled([h], [])
  {
    assert h.SendUnsent(reach).waitAck.status == h.waitAck.status;
  }

  ghost predicate IsListed(h: HoldMessage, status: StatusMap) {
    h.message == Hello(100) && h.waitAck == WaitAck(ExpectProcessed, status)
  }

  const Acks: StatusMap := map[7 := Processed, 8 := Received]

  lemma FirstAcks(h: HoldMessage, reach: set<EndpointAddr>)
    requires IsListed(h, map[7 := Sending])
    ensures var acked := h.UpdateAcks(Acks); IsListed(acked, Acks) && PollOne(acked, reach, 0) == Polled([acked], [])
  {
    var acked := h.UpdateAcks(Acks);
    assert acked.waitAck.status == Acks;
    StaysAsIs(acked, reach, 0);
  }

  lemma ThenOffline(h: HoldMessage, reach: set<EndpointAddr>)
    requires IsListed(h, Acks)
    ensures var cut := CutOffOne(h, 7);
            IsListed(cut, map[7 := Unreachable, 8 := Received]) && PollOne(cut, reach, 0) == Polled([cut], [])
  {
    var cut := CutOffOne(h, 7);
    assert cut.waitAck.status == map[7 := Unreachable, 8 := Received];
    StaysAsIs(cut, reach, 0);
  }

  lemma LastAck(h: HoldMessage, reach: set<EndpointAddr>)
    requires IsListed(h, map[7 := Unreachable, 8 := Received])
    ensures var last := h.UpdateAcks(map[8 := Processed]); var status := map[7 := Unreachable, 8 := Processed];
            PollOne(last, reach, 0) == Polled([], [Leave(100, AckErr(status, None))])
  {
    var last, status := h.UpdateAcks(map[8 := Processed]), map[7 := Unreachable, 8 := Processed];
    assert last.waitAck.status == status;
    assert last.Outgoing(reach) == {};
    assert last.SendUnsent(reach).waitAck.status == status;
    assert status[7].IsFailed();
    assert [] + [LeaveEvent(last)] == [LeaveEvent(last)];
  }

  lemma SentToOne(t: Topic, hash: Hashing)
    requires Collect(t.ix, [[97]]) == {7} && 7 in t.Reachable(1)
    ensures IsListed(Hold(t, Hello(100), At(1), hash).SendUnsent(t.Reachable(1)), map[7 := Sending])
  {
    hide Collect;
    var h := Hold(t, Hello(100), At(1), hash);
    assert 7 in h.Outgoing(t.Reachable(1));
    assert h.SendUnsent(t.Reachable(1)).waitAck.status == map[7 := Sending];
  }

  lemma Named(h: HoldMessage, status: StatusMap)
    requires IsListed(h, status)
    ensures h.Id() == 100 && h.waitAck.status == status
  {
  }

  lemma FailedStart()
    ensures FailedLog[..3] == [FailedLog[0]] + ([FailedLog[1]] + [FailedLog[2]])
    ensures FailedEnvs[..3] == [At(1)] + ([At(1)] + [At(1)])
  {
  }

  lemma AllSupported()
    ensures forall i :: 0 <= i < |FailedLog| ==> Supported(FailedLog[i])
  {
  }

  lemma AckFits(t: Topic, p: Proposal, env: Env, hash: Hashing)
    requires p.SetState?
    ensures Admissible(t, p, env, hash)
  {
  }

  lemma FailedUnfolds(t0: Topic, t1: Topic, t2: Topic, t3: Topic, t4: Topic, hash: Hashing)
    requires t1 == Step(t0, FailedLog[0], At(1), hash) && t2 == Step(t1, FailedLog[1], At(1), hash)
    requires t3 == Step(t2, FailedLog[2], At(1), hash) && t4 == Step(t3, FailedLog[3], FailedEnvs[3], hash)
    requires Admissible(t0, FailedLog[0], At(1), hash) && Admissible(t1, FailedLog[1], At(1), hash)
    requires Admissible(t3, FailedLog[3], FailedEnvs[3], hash)
    ensures RunOk(t0, FailedLog[..3], FailedEnvs[..3], hash) && RunOk(t0, FailedLog, FailedEnvs, hash)
    ensures Run(t0, FailedLog[..3], FailedEnvs[..3], hash) == t3
    ensures Run(t0, FailedLog, FailedEnvs, hash) == Step(t4, FailedLog[4], At(1), hash)
  {
    hide Step, Run, RunOk, Admissible, Supported, Prepare;
    var a, b, c, d, e := FailedLog[0], FailedLog[1], FailedLog[2], FailedLog[3], FailedLog[4];
    FailedStart();
    AckFits(t2, c, At(1), hash);
    AckFits(t4, e, At(1), hash);
    AllSupported();
    RunFirst(t0, a, At(1), [b] + [c], [At(1)] + [At(1)], hash);
    RunFirst(t1, b, At(1), [c], [At(1)], hash);
    RunLast(t2, c, At(1), hash);
    RunFirst(t0, a, At(1), [b] + ([c] + ([d] + [e])), [At(1)] + ([At(1)] + ([FailedEnvs[3]] + [At(1)])), hash);
    RunFirst(t1, b, At(1), [c] + ([d] + [e]), [At(1)] + ([FailedEnvs[3]] + [At(1)]), hash);
    RunFirst(t2, c, At(1), [d] + [e], [FailedEnvs[3]] + [At(1)], hash);
    RunFirst(t3, d, FailedEnvs[3], [e], [At(1)], hash);
    RunLast(t4, e, At(1), hash);
  }

  lemma AcksAgain(h: HoldMessage, reach: set<EndpointAddr>)
    requires IsListed(h, Acks)
    ensures var again := h.UpdateAcks(map[8 := Sent]);
            IsListed(again, map[7 := Processed, 8 := Sent]) && PollOne(again, reach, 0) == Polled([again], [])
  {
    var again := h.UpdateAcks(map[8 := Sent]);
    assert again.waitAck.status == map[7 := Processed, 8 := Sent];
    StaysAsIs(again, reach, 0);
  }

  // An endpoint acknowledged that it received the message; a later ack that it was sent takes that back.
  lemma FallsBackRun(hash: Hashing)
    ensures var start := FromDurable(Free, []);
            var before := Run(start, FailedLog[..3], FailedEnvs[..3], hash);
            var after := Step(before, SetState(100, map[8 := Sent]), At(1), hash);
            && RunOk(start, FailedLog[..3], FailedEnvs[..3], hash)
            && |before.queue| == |after.queue| == 1
            && IsListed(before.queue[0], map[7 := Processed, 8 := Received])
            && IsListed(after.queue[0], map[7 := Processed, 8 := Sent])
  {
    hide Step, Run, RunOk, IsListed, PollOne, HoldMessage.UpdateAcks;
    FailedRun(hash);
    var t3 := Run(FromDurable(Free, []), FailedLog[..3], FailedEnvs[..3], hash);
    var acked := t3.queue[0];
    Named(acked, Acks);
    AcksAgain(acked, t3.Reachable(1));
    AcksOne(t3, acked, map[8 := Sent], At(1), hash);
  }

  // The endpoint processed the message and said so; it goes offline while another is still at work; the
  // result lists it as unreachable, and is a failure.
  lemma FailedRun(hash: Hashing)
    ensures var start := FromDurable(Free, []);
            var before := Run(start, FailedLog[..3], FailedEnvs[..3], hash);
            var after := Run(start, FailedLog, FailedEnvs, hash);
            && RunOk(start, FailedLog[..3], FailedEnvs[..3], hash) && RunOk(start, FailedLog, FailedEnvs, hash)
            && |before.queue| == 1 && IsListed(before.queue[0], Acks)
            && Leave(100, AckErr(map[7 := Unreachable, 8 := Processed], None)) in after.events
  {
    hide Step, Run, RunOk, Admissible, Collect, Prepare, CutOffOne, HoldMessage.UpdateAcks, IsListed, PollOne;
    EmptyIsLoaded(Free);
    EmptyIsValid();
    var t0, ack, last := Empty(Free), SetState(100, Acks), SetState(100, map[8 := Processed]);
    Joins(t0, 7, 1, At(1), hash);
    var t1 := Step(t0, GoOnline(7, Everything, 1), At(1), hash);
    Greets(t1, 100, At(1), hash, 7);
    var t2 := Step(t1, Delegate(Hello(100)), At(1), hash);
    var h := t2.queue[0];
    SentToOne(t1, hash);
    FirstAcks(h, t2.Reachable(1));
    AcksOne(t2, h, Acks, At(1), hash);
    var t3 := Step(t2, ack, At(1), hash);
    var acked := h.UpdateAcks(Acks);
    Named(acked, Acks);
    ThenOffline(acked, Prepare(t3, GoOffline(7, 1)).Reachable(1));
    OfflineOfOne(t3, acked, 7, 1, Env(1, 0, [100], []), hash);
    var t4 := Step(t3, GoOffline(7, 1), Env(1, 0, [100], []), hash);
    var cut := CutOffOne(acked, 7);
    Named(cut, map[7 := Unreachable, 8 := Received]);
    LastAck(cut, t4.Reachable(1));
    AcksOne(t4, cut, map[8 := Processed], At(1), hash);
    FailedUnfolds(t0, t1, t2, t3, t4, hash);
  }

  // ----- Two nodes on both sides of an expiry -----

  function Brief(): Message {
    Message(100, ExpectProcessed, TargetKind.Durable, Some(DurableConfig(0, None)), [], [])
  }

  // The same log on two nodes, one of which has a clock that is past the expiry of the message: it has
  // answered the message and let it go, and the other holds it.
  lemma ClockRun(hash: Hashing)
    ensures var start, log := FromDurable(Free, []), [Delegate(Brief())];
            var early, late := Run(start, log, [Env(1, 0, [], [])], hash), Run(start, log, [Env(2, 1, [], [])], hash);
            && RunOk(start, log, [Env(1, 0, [], [])], hash) && RunOk(start, log, [Env(2, 1, [], [])], hash)
            && |early.queue| == 1 && early.events == []
            && late.queue == [] && late.events == [Leave(100, AckOk(map[]))]
            && ViewOf(early) != ViewOf(late)
  {
    EmptyIsLoaded(Free);
    var t, p := Empty(Free), Delegate(Brief());
    RunLast(t, p, Env(1, 0, [], []), hash);
    RunLast(t, p, Env(2, 1, [], []), hash);
    hide Run, RunOk;
    BriefStep(t, Env(1, 0, [], []), hash);
    BriefStep(t, Env(2, 1, [], []), hash);
  }

  lemma BriefStep(t: Topic, env: Env, hash: Hashing)
    requires t == Empty(Free)
    ensures var next := Step(t, Delegate(Brief()), env, hash);
            if env.now > 0 then next.queue == [] && next.events == [Leave(100, AckOk(map[]))]
            else |next.queue| == 1 && next.queue[0].Id() == 100 && next.events == []
  {
    var h := Hold(t, Brief(), env, hash);
    assert h.waitAck.status == map[] && h.Outgoing({}) == {};
    assert h.SendUnsent({}).waitAck.status == map[];
    assert [] + [h] == [h];
    assert t.Reachable(env.node) == {};
    NoAcks([h], 100);
    SettleOne(false, h, {}, env.now);
    hide Settle, FlatMap;
    assert SendEvents(h, {}) == [];
  }

  // ----- A message that gets no result -----

  const LoadOp: NodeOp := NodeOp.Apply(Entry(1, Normal(LoadTopic(Free, []))), At(1))
  const BriefOp: NodeOp := NodeOp.Apply(Entry(2, Normal(ToTopic(1, Delegate(Brief())))), At(1))
  const UnloadOp: NodeOp := NodeOp.Apply(Entry(3, Normal(UnloadTopic(1))), At(1))

  const NoTopics: StateMachine := StateMachine(None, StoredMembership(None, {}), map[])

  // A topic is loaded, a message is delegated to it and held, the topic is unloaded: the message is
  // neither held nor answered. The same where the topic was not loaded in the first place.
  lemma LostRun(hash: Hashing)
    ensures var ops := [LoadOp] + ([BriefOp] + [UnloadOp]);
            OpsFit(NoTopics, ops, hash) && FateOf(NoTopics, ops, hash, 1) == Fate([100], [], [], [100], [])
    ensures OpsFit(NoTopics, [BriefOp], hash) && FateOf(NoTopics, [BriefOp], hash, 1) == Fate([100], [100], [], [], [])
  {
    hide Step, FateOf, OpsFit, OpFits, NodeStep, Adds, FateNow, Empty, LoadOp, BriefOp, UnloadOp;
    var t := Step(Empty(Free), Delegate(Brief()), At(1), hash);
    BriefStep(Empty(Free), At(1), hash);
    HeldOnly(t);
    Loads(hash);
    Holds(StateMachine(Some(1), StoredMembership(None, {}), map[1 := Empty(Free)]), hash);
    var s1 := NodeStep(NoTopics, LoadOp, hash);
    var s2 := NodeStep(s1, BriefOp, hash);
    Unloads(s2, t, hash);
    Misses(hash);
    OpsFirst(NoTopics, LoadOp, [BriefOp] + [UnloadOp], hash);
    OpsFirst(s1, BriefOp, [UnloadOp], hash);
    OpsLast(s2, UnloadOp, hash);
    OpsLast(NoTopics, BriefOp, hash);
  }

  lemma Loads(hash: Hashing)
    ensures NodeStep(NoTopics, LoadOp, hash) == StateMachine(Some(1), StoredMembership(None, {}), map[1 := Empty(Free)])
    ensures OpFits(NoTopics, LoadOp, hash) && Adds(NoTopics, LoadOp, 1) == Fate([], [], [], [], [])
  {
    EmptyIsLoaded(Free);
    hide FromDurable;
    assert SortByTime([]) == [];
    assert Ids(Empty(Free).queue) == [];
  }

  lemma Holds(s: StateMachine, hash: Hashing)
    requires s.topics == map[1 := Empty(Free)]
    ensures NodeStep(s, BriefOp, hash).topics == map[1 := Step(Empty(Free), Delegate(Brief()), At(1), hash)]
    ensures OpFits(s, BriefOp, hash) && Adds(s, BriefOp, 1) == Fate([100], [], [], [], [])
  {
    hide Step;
  }

  lemma Unloads(s: StateMachine, t: Topic, hash: Hashing)
    requires s.topics == map[1 := t] && Ids(t.queue) == [100] && Answered(t) == []
    ensures FateNow(NodeStep(s, UnloadOp, hash), 1) == Fate([], [], [], [], [])
    ensures OpFits(s, UnloadOp, hash) && Adds(s, UnloadOp, 1) == Fate([], [], [], [100], [])
  {
    hide Answered, Ids;
  }

  lemma Misses(hash: Hashing)
    ensures FateNow(NodeStep(NoTopics, BriefOp, hash), 1) == Fate([], [], [], [], [])
    ensures OpFits(NoTopics, BriefOp, hash) && Adds(NoTopics, BriefOp, 1) == Fate([100], [100], [], [], [])
  {
  }

  lemma HeldOnly(t: Topic)
    requires |t.queue| == 1 && t.queue[0].Id() == 100 && t.events == []
    ensures Ids(t.queue) == [100] && Answered(t) == []
  {
  }

  lemma OpsFirst(s: StateMachine, op: NodeOp, ops: seq<NodeOp>, hash: Hashing)
    ensures FateOf(s, [op] + ops, hash, 1) == Both(Adds(s, op, 1), FateOf(NodeStep(s, op, hash), ops, hash, 1))
    ensures OpsFit(s, [op] + ops, hash) <==> OpFits(s, op, hash) && OpsFit(NodeStep(s, op, hash), ops, hash)
  {
    hide NodeStep, Adds, OpFits;
    assert ([op] + ops)[1..] == ops;
  }

  lemma OpsLast(s: StateMachine, op: NodeOp, hash: Hashing)
    ensures FateOf(s, [op], hash, 1) == Both(Adds(s, op, 1), FateNow(NodeStep(s, op, hash), 1))
    ensures OpsFit(s, [op], hash) <==> OpFits(s, op, hash)
  {
    hide NodeStep, Adds, OpFits, FateNow;
    OpsFirst(s, op, [], hash);
    assert [op] + [] == [op];
  }

  // ----- A host that installs the snapshot of another node -----

  const MeetingLog: seq<Proposal> :=
    [GoOnline(8, Everything, 2)] + ([GoOnline(7, Everything, 1)] + [Delegate(Hello(100))])

  // The log on a node: the host has handed the message over, the other node lists it as unsent.
  lemma Meets(node: NodeId, hash: Hashing)
    requires node == 1 || node == 2
    ensures var start := FromDurable(Free, []); var envs := [At(node)] + ([At(node)] + [At(node)]);
            var t := Run(start, MeetingLog, envs, hash);
            && RunOk(start, MeetingLog, envs, hash)
            && t.config == Free && 7 in t.Reachable(1)
            && |t.queue| == 1 && t.queue[0].message == Hello(100) && 7 in t.queue[0].waitAck.status
            && t.queue[0].waitAck.status[7] == (if node == 1 then Sending else Unsent)
            && (node == 1 ==> Sends(t.events, 100, 7) == 1)
  {
    hide Step, Run, RunOk, Admissible, Collect, Sends, SendEvents;
    EmptyIsLoaded(Free);
    EmptyIsValid();
    var t0 := Empty(Free);
    Joins(t0, 8, 2, At(node), hash);
    var t1 := Step(t0, GoOnline(8, Everything, 2), At(node), hash);
    Joins(t1, 7, 1, At(node), hash);
    var t2 := Step(t1, GoOnline(7, Everything, 1), At(node), hash);
    Greets(t2, 100, At(node), hash, 7);
    RunFirst(t0, GoOnline(8, Everything, 2), At(node),
             [GoOnline(7, Everything, 1)] + [Delegate(Hello(100))], [At(node)] + [At(node)], hash);
    RunFirst(t1, GoOnline(7, Everything, 1), At(node), [Delegate(Hello(100))], [At(node)], hash);
    RunLast(t2, Delegate(Hello(100)), At(node), hash);
    if node == 1 {
      GreetedOnce(t2, hash);
    }
  }

  lemma GreetedOnce(t: Topic, hash: Hashing)
    requires t.queue == [] && t.events == [] && 7 in Collect(t.ix, [[97]]) && 7 in t.Reachable(1)
    ensures Sends([] + SendEvents(Hold(t, Hello(100), At(1), hash), t.Reachable(1)), 100, 7) == 1
  {
    hide Collect;
    var h, reach := Hold(t, Hello(100), At(1), hash), t.Reachable(1);
    assert 7 in h.Outgoing(reach);
    SendsOne(Dispatch(100, h.Outgoing(reach)), 100, 7);
    assert [] + SendEvents(h, reach) == [Dispatch(100, h.Outgoing(reach))];
  }

  // Both nodes apply the same log; the host installs the other's snapshot; with the next ack, of
  // another endpoint, it hands the message over once more.
  lemma SnapshotSendsAgain(hash: Hashing)
    ensures var start := FromDurable(Free, []);
            var host := Run(start, MeetingLog, [At(1)] + ([At(1)] + [At(1)]), hash);
            var other := Run(start, MeetingLog, [At(2)] + ([At(2)] + [At(2)]), hash);
            var ack := SetState(100, map[8 := Received]);
            && RunOk(start, MeetingLog, [At(1)] + ([At(1)] + [At(1)]), hash)
            && RunOk(start, MeetingLog, [At(2)] + ([At(2)] + [At(2)]), hash)
            && (forall i :: 0 <= i < |MeetingLog| ==> Lawful(MeetingLog[i], 7, 1)) && Lawful(ack, 7, 1)
            && Sends(host.events, 100, 7) == 1
            && Sends(Step(Installed(host, other), ack, At(1), hash).events, 100, 7) >= 2
  {
    hide Step, Run, RunOk, Sends;
    Meets(1, hash);
    Meets(2, hash);
    var start := FromDurable(Free, []);
    var host := Run(start, MeetingLog, [At(1)] + ([At(1)] + [At(1)]), hash);
    var other := Run(start, MeetingLog, [At(2)] + ([At(2)] + [At(2)]), hash);
    AckSends(host, other, hash);
  }

  lemma AckSends(host: Topic, other: Topic, hash: Hashing)
    requires Sends(host.events, 100, 7) == 1
    requires other.config == Free && 7 in other.Reachable(1)
    requires |other.queue| == 1 && other.queue[0].message == Hello(100)
    requires 7 in other.queue[0].waitAck.status && other.queue[0].waitAck.status[7].Unsent?
    ensures Sends(Step(Installed(host, other), SetState(100, map[8 := Received]), At(1), hash).events, 100, 7) >= 2
  {
    hide FromRaw, Sends, Settle, FlatMap;
    var t, acks: StatusMap := Installed(host, other), map[8 := Received];
    var noted, reach := Note(t, 100, acks), t.Reachable(1);
    assert noted.Reachable(1) == reach == other.Reachable(1);
    assert noted.queue == [noted.queue[0]] && noted.queue[0] in noted.queue;
    assert 7 in noted.queue[0].Outgoing(reach);
    SettleSendsNow(false, noted.queue, reach, 0, noted.queue[0], 7);
    SendsConcat(host.events, FlushResult(noted, 100, At(1)).events, 100, 7);
  }
}
