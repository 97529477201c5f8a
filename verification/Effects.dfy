// What a single proposal achieves.

module Effects {
  import opened Messages
  import opened Lists
  import opened Tries
  import opened HoldQueue
  import opened Topics

  // A message that is still held after polling is one that was held, sent to where it could be if it
  // was polled.
  ghost predicate StaysFrom(x: HoldMessage, q: seq<HoldMessage>, reach: set<EndpointAddr>) {
    exists h :: h in q && (x == h || x == h.SendUnsent(reach))
  }

  ghost predicate SentFrom(x: HoldMessage, q: seq<HoldMessage>, reach: set<EndpointAddr>) {
    exists h :: h in q && x == h.SendUnsent(reach)
  }

  lemma {:induction false} PollEachStays(q: seq<HoldMessage>, ids: set<MessageId>, reach: set<EndpointAddr>, now: Time)
    ensures forall x :: x in PollEach(q, ids, reach, now).queue ==>
              if x.Id() in ids then SentFrom(x, q, reach) else x in q
  {
    if q != [] {
      var h, rest := q[0], q[1..];
      assert q == [h] + rest;
      PollEachStays(rest, ids, reach, now);
      PollEachCons(h, rest, ids, reach, now);
      var more := PollEach(rest, ids, reach, now).queue;
      forall x | x in PollEach(q, ids, reach, now).queue
        ensures if x.Id() in ids then SentFrom(x, q, reach) else x in q
      {
        if x in more {
          assert x.Id() in ids ==> SentFrom(x, rest, reach);
        } else {
          assert x in PollIf(h, ids, reach, now).queue;
          assert h in q;
        }
      }
    }
  }

  lemma {:induction false} DrainStays(q: seq<HoldMessage>, reach: set<EndpointAddr>, now: Time)
    ensures forall x :: x in Drain(q, reach, now).queue ==> StaysFrom(x, q, reach)
  {
    if q != [] {
      var h, rest := q[0], q[1..];
      assert q == [h] + rest && h in q;
      DrainStays(rest, reach, now);
      DrainCons(h, rest, reach, now);
      forall x | x in Drain(q, reach, now).queue ensures StaysFrom(x, q, reach) {
        if x in PollOne(h, reach, now).queue {
          assert x == h.SendUnsent(reach);
        } else if x in rest {
          assert x in q;
        } else {
          assert StaysFrom(x, rest, reach);
        }
      }
    }
  }

  lemma SettleStays(blocking: bool, q: seq<HoldMessage>, ids: set<MessageId>, reach: set<EndpointAddr>, now: Time)
    ensures forall x :: x in Settle(blocking, q, ids, reach, now).queue ==> StaysFrom(x, q, reach)
  {
    hide PollEach, Drain;
    PollEachStays(q, ids, reach, now);
    DrainStays(q, reach, now);
  }

  // An endpoint proposal prepares the topic and settles the messages it has to poll.
  lemma EndpointStep(t: Topic, p: Proposal, env: Env, hash: Hashing)
    requires p.OfEndpoint() && Admissible(t, p, env, hash)
    ensures var ready := Prepare(t, p); var after := Step(t, p, env, hash);
            && after.routing == ready.routing && after.ix == ready.ix
            && after.queue == Settle(t.config.blocking, ready.queue, NeedPoll(t, p), ready.Reachable(env.node), env.now).queue
  {
    hide Settle, Walk, PollAll, NeedPoll;
    var ready := Prepare(t, p);
    PollAllIsWalk(ready, env.walk, env);
    WalkIsSettle(t.config.blocking, ready.queue, env.walk, ready.Reachable(env.node), env.now);
  }

  // An endpoint that went offline is reachable under its host no more, all others are as before; no
  // subject finds it, what finds others is unchanged; and every held message that lists it lists it as
  // unreachable.
  lemma OfflineForgets(t: Topic, ep: EndpointAddr, host: NodeId, env: Env, hash: Hashing)
    requires t.ix.Valid() && Admissible(t, GoOffline(ep, host), env, hash)
    ensures var after := Step(t, GoOffline(ep, host), env, hash);
            && (forall node :: after.Reachable(node) == t.Reachable(node) - (if node == host then {ep} else {}))
            && (forall subject :: after.ix.Find(subject) == t.ix.Find(subject) - {ep})
            && (forall h :: h in after.queue && ep in h.waitAck.status ==> h.waitAck.status[ep].Unreachable?)
  {
    var p := GoOffline(ep, host);
    var ready, after := Prepare(t, p), Step(t, p, env, hash);
    EndpointStep(t, p, env, hash);
    SettleStays(t.config.blocking, ready.queue, NeedPoll(t, p), ready.Reachable(env.node), env.now);
    hide Settle, NeedPoll, Step;
    forall subject ensures after.ix.Find(subject) == t.ix.Find(subject) - {ep} {
      DeleteForgets(t.ix, ep, subject);
    }
    forall h | h in after.queue && ep in h.waitAck.status ensures h.waitAck.status[ep].Unreachable? {
      var x :| x in ready.queue && (h == x || h == x.SendUnsent(ready.Reachable(env.node)));
      var i :| 0 <= i < |t.queue| && ready.queue[i] == x;
      assert x == CutOffOne(t.queue[i], ep);
      assert x.waitAck.status[ep].Unreachable?;
      assert ep !in x.Outgoing(ready.Reachable(env.node));
    }
  }

  lemma DeleteForgets(ix: Index, ep: EndpointAddr, subject: Bytes)
    requires ix.Valid()
    ensures ix.Delete(ep).Find(subject) == ix.Find(subject) - {ep}
  {
    DeleteKeepsValid(ix, ep);
    FindIsScan(ix, subject);
    FindIsScan(ix.Delete(ep), subject);
    hide Index.Valid, Index.Find, Index.Delete;
    assert forall v :: v != ep ==> (Wants(ix.raw - {ep}, v, subject) <==> Wants(ix.raw, v, subject));
  }

  // An endpoint that came online is reachable under its host, and every held durable message that its
  // interests match lists it.
  lemma OnlineEnlists(t: Topic, ep: EndpointAddr, interests: seq<Bytes>, host: NodeId, env: Env, hash: Hashing)
    requires Admissible(t, GoOnline(ep, interests, host), env, hash)
    ensures var after := Step(t, GoOnline(ep, interests, host), env, hash);
            && (forall node :: after.Reachable(node) == t.Reachable(node) + (if node == host then {ep} else {}))
            && forall x :: x in after.queue && Wanted(after.ix, x, ep) ==> ep in x.waitAck.status
  {
    hide Settle, Step, Collect, NeedPoll;
    var p := GoOnline(ep, interests, host);
    var ready, after := Prepare(t, p), Step(t, p, env, hash);
    EndpointStep(t, p, env, hash);
    SettleStays(t.config.blocking, ready.queue, NeedPoll(t, p), ready.Reachable(env.node), env.now);
    forall x | x in after.queue && Wanted(after.ix, x, ep) ensures ep in x.waitAck.status {
      var y :| y in ready.queue && (x == y || x == y.SendUnsent(ready.Reachable(env.node)));
      var i :| 0 <= i < |t.queue| && ready.queue[i] == y;
      assert y == EnlistOne(ready.ix, t.queue[i], ep);
    }
  }

  // On the host itself, unless the topic is blocking, none of those that did not list the endpoint
  // before is left unsent.
  lemma OnlineSends(t: Topic, ep: EndpointAddr, interests: seq<Bytes>, env: Env, hash: Hashing, x: HoldMessage,
                    h: HoldMessage)
    requires Admissible(t, GoOnline(ep, interests, env.node), env, hash) && !t.config.blocking
    requires h in t.queue && ep !in h.waitAck.status && Wanted(Prepare(t, GoOnline(ep, interests, env.node)).ix, h, ep)
    requires x in Step(t, GoOnline(ep, interests, env.node), env, hash).queue && x.Id() == h.Id()
    ensures ep in x.waitAck.status ==> !x.waitAck.status[ep].Unsent?
  {
    hide PollEach, Step, Collect, HoldMessage.SendUnsent, HoldMessage.Outgoing, Wanted;
    var p := GoOnline(ep, interests, env.node);
    var ready := Prepare(t, p);
    var reach, ids := ready.Reachable(env.node), NeedPoll(t, p);
    EndpointStep(t, p, env, hash);
    PollEachStays(ready.queue, ids, reach, env.now);
    assert Polls(t, p, h) && x.Id() in ids && ep in reach;
    var z :| z in ready.queue && x == z.SendUnsent(reach);
    SentIsNotUnsent(z, reach, ep);
  }

  lemma SentIsNotUnsent(z: HoldMessage, reach: set<EndpointAddr>, ep: EndpointAddr)
    requires ep in reach
    ensures var x := z.SendUnsent(reach); ep in x.waitAck.status ==> !x.waitAck.status[ep].Unsent?
  {
    assert ep in z.waitAck.status && z.waitAck.status[ep].Unsent? ==> ep in z.Outgoing(reach);
  }

  // After a state update a message that is still held carries the acks, except where its status was
  // resolved already.
  lemma AcksAreRecorded(t: Topic, id: MessageId, acks: StatusMap, env: Env, hash: Hashing, x: HoldMessage, ep: EndpointAddr)
    requires x in Step(t, SetState(id, acks), env, hash).queue && x.Id() == id
    requires ep in acks && !acks[ep].Unsent?
    ensures ep in x.waitAck.status
    ensures x.waitAck.status[ep] == acks[ep] || x.waitAck.status[ep].IsResolved(x.waitAck.level)
  {
    hide Settle, FlatMap;
    var noted := Note(t, id, acks).queue;
    var reach := t.Reachable(env.node);
    SettleStays(t.config.blocking, noted, {id}, reach, env.now);
    var y :| y in noted && (x == y || x == y.SendUnsent(reach));
    var i :| 0 <= i < |t.queue| && noted[i] == y;
    assert y == t.queue[i].UpdateAcks(acks);
    assert y.waitAck.status[ep] == acks[ep] || y.waitAck.status[ep].IsResolved(y.waitAck.level);
    assert ep !in y.Outgoing(reach);
  }

  // A message for these endpoints is done with as soon as it has been sent.
  predicate DoneAtOnce(m: Message, targets: set<EndpointAddr>, now: Time) {
    if !m.target.Durable? then targets == {}
    else m.durability.None? || m.Expired(now)
         || (m.durability.value.maxReceiver.Some? && |targets| >= m.durability.value.maxReceiver.value)
  }

  function FirstStatus(targets: set<EndpointAddr>, reach: set<EndpointAddr>): StatusMap {
    map ep | ep in targets :: if ep in reach then Sending else Unsent
  }

  // What polling a message for these endpoints emits: it is handed to those in reach, and if it is done
  // with at once it succeeds.
  function FirstEvents(m: Message, targets: set<EndpointAddr>, reach: set<EndpointAddr>, now: Time): seq<Event> {
    var leave := if DoneAtOnce(m, targets, now) then [Leave(m.id, AckOk(FirstStatus(targets, reach)))] else [];
    (if targets * reach == {} then [] else [Dispatch(m.id, targets * reach)]) + leave
  }

  lemma NewIsPolled(m: Message, targets: set<EndpointAddr>, reach: set<EndpointAddr>, now: Time)
    ensures PollOne(HoldMessage(m, NewWaitAck(m.ackKind, targets)), reach, now).events == FirstEvents(m, targets, reach, now)
  {
    var h := HoldMessage(m, NewWaitAck(m.ackKind, targets));
    assert h.Outgoing(reach) == targets * reach;
    var sent := h.SendUnsent(reach);
    assert sent.waitAck.status == FirstStatus(targets, reach);
    assert sent.IsResolved(now) <==> DoneAtOnce(m, targets, now) by { NewIsDone(m, targets, reach, now); }
    assert SendEvents(h, reach) + [] == SendEvents(h, reach);
  }

  lemma NewIsDone(m: Message, targets: set<EndpointAddr>, reach: set<EndpointAddr>, now: Time)
    ensures HoldMessage(m, WaitAck(m.ackKind, FirstStatus(targets, reach))).IsResolved(now) <==> DoneAtOnce(m, targets, now)
  {
    var status := FirstStatus(targets, reach);
    assert status.Keys == targets && |status| == |status.Keys|;
    forall ep | ep in status ensures !status[ep].IsResolved(m.ackKind) {
    }
    if targets != {} {
      var ep := Pick(targets);
      assert ep in status;
    }
  }

  // What delegating a message emits. It is refused when a push finds no endpoint or when the topic is
  // full and rejects; otherwise a full topic first drops its front. Then it is handed to exactly the
  // endpoints it is for that this node reaches, at once, and answered at once if it is done with,
  // unless a blocking topic has others before it: then nothing more happens.
  lemma DelegateDispatches(t: Topic, m: Message, env: Env, hash: Hashing)
    requires m.id !in Ids(t.queue)
    ensures Step(t, Delegate(m), env, hash).events == t.events +
            if m.target.Push? && env.ring == [] then [Refuse(m.id, Failure(NoAvailableTarget))]
            else if t.Full() && t.config.overflow.value.policy.RejectNew? then [Refuse(m.id, Failure(Overflow))]
            else
              var others := if t.Full() then t.queue[1..] else t.queue;
              (if t.Full() then [Leave(t.queue[0].Id(), Failure(Overflow))] else [])
              + (if t.config.blocking && others != [] then []
                 else FirstEvents(m, Targets(t, m, env, hash), t.Reachable(env.node), env.now))
  {
    hide FirstEvents, PollOne, PollEach, Drain, Targets, FlatMap;
    if !(m.target.Push? && env.ring == []) && !(t.Full() && t.config.overflow.value.policy.RejectNew?) {
      var room, h := if t.Full() then DropFront(t) else t, Hold(t, m, env, hash);
      NewIsPolled(m, Targets(t, m, env, hash), t.Reachable(env.node), env.now);
      FreshInRoom(t, m.id);
      NewIsSettled(room.config.blocking, room.queue, h, t.Reachable(env.node), env.now);
      NoAcks(room.queue + [h], m.id);
      var p := FlushResult(Note(Enqueue(room, h), m.id, map[]), m.id, env);
      assert Step(t, Delegate(m), env, hash).events == room.events + p.events;
      assert room.events == t.events + if t.Full() then [Leave(t.queue[0].Id(), Failure(Overflow))] else [];
      Assoc(t.events, if t.Full() then [Leave(t.queue[0].Id(), Failure(Overflow))] else [], p.events);
    }
  }

  lemma FreshInRoom(t: Topic, id: MessageId)
    requires id !in Ids(t.queue)
    ensures t.queue != [] ==> id !in Ids(t.queue[1..])
  {
    if t.queue != [] {
      assert Ids(t.queue) == [t.queue[0].Id()] + Ids(t.queue[1..]);
    }
  }

  lemma NewIsSettled(blocking: bool, q: seq<HoldMessage>, h: HoldMessage, reach: set<EndpointAddr>, now: Time)
    requires h.Id() !in Ids(q)
    ensures Settle(blocking, q + [h], {h.Id()}, reach, now).events ==
            if blocking && q != [] then [] else PollOne(h, reach, now).events
  {
    hide PollOne, PollEach, Drain;
    if !blocking {
      PollLast(q, h, reach, now);
    } else if q == [] {
      assert q + [h] == [h] + [];
      DrainCons(h, [], reach, now);
      assert PollOne(h, reach, now).events + [] == PollOne(h, reach, now).events;
      DrainNil(reach, now);
    } else {
      assert Ids(q)[0] == q[0].Id();
    }
  }

  lemma {:induction false} PollLast(q: seq<HoldMessage>, h: HoldMessage, reach: set<EndpointAddr>, now: Time)
    requires h.Id() !in Ids(q)
    ensures PollEach(q + [h], {h.Id()}, reach, now).events == PollOne(h, reach, now).events
  {
    if q == [] {
      assert q + [h] == [h] + [];
      PollEachCons(h, [], {h.Id()}, reach, now);
      assert PollOne(h, reach, now).events + [] == PollOne(h, reach, now).events;
    } else {
      assert Ids(q)[0] == q[0].Id() && Ids(q)[1..] == Ids(q[1..]);
      assert q + [h] == [q[0]] + (q[1..] + [h]);
      PollEachCons(q[0], q[1..] + [h], {h.Id()}, reach, now);
      PollLast(q[1..], h, reach, now);
      assert [] + PollOne(h, reach, now).events == PollOne(h, reach, now).events;
    }
  }
}
