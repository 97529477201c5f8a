// What becomes of the status of an endpoint: by an ack, by a step, and in the result that is reported.

module Statuses {
  import opened Messages
  import opened Levels
  import opened Lists
  import opened Tries
  import opened HoldQueue
  import opened Topics
  import opened Ledger
  import opened Effects
  import opened AtMostOnce

  // Which statuses an ack changes: it is taken where it names an endpoint that is not resolved.
  lemma AckTakenIff(h: HoldMessage, acks: StatusMap, ep: EndpointAddr)
    requires ep in h.waitAck.status
    ensures var before, after := h.waitAck.status[ep], h.UpdateAcks(acks).waitAck.status[ep];
            && (after != before <==> ep in acks && !before.IsResolved(h.waitAck.level) && acks[ep] != before)
            && (after != before ==> after == acks[ep])
  {
  }

  // A status goes back exactly when it is not resolved and the ack says less.
  lemma AckFallsBackIff(h: HoldMessage, acks: StatusMap, ep: EndpointAddr)
    requires ep in h.waitAck.status
    ensures Rank(h.UpdateAcks(acks).waitAck.status[ep]) < Rank(h.waitAck.status[ep]) <==>
            && ep in acks && !h.waitAck.status[ep].IsResolved(h.waitAck.level)
            && Rank(acks[ep]) < Rank(h.waitAck.status[ep])
  {
    AckTakenIff(h, acks, ep);
    hide HoldMessage.UpdateAcks;
  }

  // ----- A held message through a step -----

  // What a step makes of a held message before it polls.
  ghost function Touched(t: Topic, p: Proposal, h: HoldMessage): (r: HoldMessage)
    ensures r.message == h.message && r.waitAck.level == h.waitAck.level
  {
    match p
    case Delegate(_) => h
    case SetState(id, acks) => if h.Id() == id then h.UpdateAcks(acks) else h
    case GoOffline(ep, _) => CutOffOne(h, ep)
    case _ => EnlistOne(Prepare(t, p).ix, h, p.ep)
  }

  ghost function Reach(t: Topic, p: Proposal, node: NodeId): set<EndpointAddr> {
    if p.OfEndpoint() then Prepare(t, p).Reachable(node) else t.Reachable(node)
  }

  // A message that the step polled or left alone.
  ghost predicate ComesOf(x: HoldMessage, y: HoldMessage, reach: set<EndpointAddr>) {
    x == y || x == y.SendUnsent(reach)
  }

  ghost predicate LeavesOf(events: seq<Event>, q: seq<HoldMessage>, reach: set<EndpointAddr>) {
    forall e :: e in events && e.Leave? ==> LeavesFrom(e, q, reach)
  }

  ghost predicate LeavesFrom(e: Event, q: seq<HoldMessage>, reach: set<EndpointAddr>) {
    exists h :: h in q && e == LeaveEvent(h.SendUnsent(reach))
  }

  lemma LeavesMore(events: seq<Event>, q: seq<HoldMessage>, all: seq<HoldMessage>, reach: set<EndpointAddr>)
    requires LeavesOf(events, q, reach) && forall h :: h in q ==> h in all
    ensures LeavesOf(events, all, reach)
  {
    forall e | e in events && e.Leave? ensures LeavesFrom(e, all, reach) {
      assert LeavesFrom(e, q, reach);
    }
  }

  lemma PollOneLeaves(h: HoldMessage, q: seq<HoldMessage>, reach: set<EndpointAddr>, now: Time)
    requires h in q
    ensures LeavesOf(PollOne(h, reach, now).events, q, reach)
  {
  }

  lemma LeavesConcat(a: seq<Event>, b: seq<Event>, q: seq<HoldMessage>, reach: set<EndpointAddr>)
    requires LeavesOf(a, q, reach) && LeavesOf(b, q, reach)
    ensures LeavesOf(a + b, q, reach)
  {
    hide LeavesFrom;
  }

  lemma {:induction false} PollEachLeaves(q: seq<HoldMessage>, ids: set<MessageId>, reach: set<EndpointAddr>, now: Time)
    ensures LeavesOf(PollEach(q, ids, reach, now).events, q, reach)
  {
    if q != [] {
      var h, rest := q[0], q[1..];
      assert q == [h] + rest;
      PollEachCons(h, rest, ids, reach, now);
      PollOneLeaves(h, q, reach, now);
      assert LeavesOf(PollIf(h, ids, reach, now).events, q, reach);
      hide *;
      PollEachLeaves(rest, ids, reach, now);
      LeavesMore(PollEach(rest, ids, reach, now).events, rest, q, reach);
      LeavesConcat(PollIf(h, ids, reach, now).events, PollEach(rest, ids, reach, now).events, q, reach);
    }
  }

  lemma {:induction false} DrainLeaves(q: seq<HoldMessage>, reach: set<EndpointAddr>, now: Time)
    ensures LeavesOf(Drain(q, reach, now).events, q, reach)
  {
    if q != [] {
      var h, rest := q[0], q[1..];
      assert q == [h] + rest;
      DrainCons(h, rest, reach, now);
      PollOneLeaves(h, q, reach, now);
      assert LeavesOf([], q, reach);
      hide *;
      DrainLeaves(rest, reach, now);
      LeavesMore(Drain(rest, reach, now).events, rest, q, reach);
      var one := PollOne(h, reach, now);
      LeavesConcat(one.events, if one.queue == [] then Drain(rest, reach, now).events else [], q, reach);
    }
  }

  lemma SettleLeaves(blocking: bool, q: seq<HoldMessage>, ids: set<MessageId>, reach: set<EndpointAddr>, now: Time)
    ensures LeavesOf(Settle(blocking, q, ids, reach, now).events, q, reach)
  {
    hide PollEach, Drain, LeavesFrom;
    PollEachLeaves(q, ids, reach, now);
    DrainLeaves(q, reach, now);
  }

  // The messages a topic holds afterwards come of those in `q`, and so do the results it adds, save
  // that of a message dropped to make room.
  ghost predicate Outcome(after: Topic, q: seq<HoldMessage>, reach: set<EndpointAddr>, events: seq<Event>) {
    && (forall x :: x in after.queue ==> StaysFrom(x, q, reach))
    && (forall e :: e in after.events && e.Leave? ==> e in events || IsDrop(e) || LeavesFrom(e, q, reach))
  }

  predicate IsDrop(e: Event) {
    e.Leave? && e.result == Failure(Overflow)
  }

  lemma FlushOutcome(t: Topic, id: MessageId, env: Env)
    ensures Outcome(Flush(t, id, env), t.queue, t.Reachable(env.node), t.events)
  {
    hide Settle, FlatMap, StaysFrom, LeavesFrom;
    SettleStays(t.config.blocking, t.queue, {id}, t.Reachable(env.node), env.now);
    SettleLeaves(t.config.blocking, t.queue, {id}, t.Reachable(env.node), env.now);
  }

  lemma PollAllOutcome(t: Topic, env: Env)
    ensures Outcome(PollAll(t, env.walk, env), t.queue, t.Reachable(env.node), t.events)
  {
    hide Settle, Walk, PollAll, StaysFrom, LeavesFrom;
    var reach := t.Reachable(env.node);
    PollAllIsWalk(t, env.walk, env);
    WalkIsSettle(t.config.blocking, t.queue, env.walk, reach, env.now);
    SettleStays(t.config.blocking, t.queue, Elements(env.walk), reach, env.now);
    SettleLeaves(t.config.blocking, t.queue, Elements(env.walk), reach, env.now);
    var w := WalkResult(t, env.walk, env).events;
    var s := Settle(t.config.blocking, t.queue, Elements(env.walk), reach, env.now).events;
    forall e | e in w ensures e in s {
      assert e in multiset(w) && multiset(w) == multiset(s);
    }
  }

  // The messages as the step polls them.
  ghost function Ready(t: Topic, p: Proposal, env: Env, hash: Hashing): seq<HoldMessage> {
    match p
    case Delegate(m) =>
      if m.target.Push? && env.ring == [] then t.queue
      else if t.Full() && t.config.overflow.value.policy.RejectNew? then t.queue
      else (if t.Full() then DropFront(t) else t).queue + [Hold(t, m, env, hash)]
    case SetState(id, acks) => ApplyAcks(t.queue, id, acks)
    case _ => Prepare(t, p).queue
  }

  lemma StepOutcome(t: Topic, p: Proposal, env: Env, hash: Hashing)
    ensures Outcome(Step(t, p, env, hash), Ready(t, p, env, hash), Reach(t, p, env.node), t.events)
  {
    hide StaysFrom, LeavesFrom, Flush, PollAll, Prepare;
    match p
    case Delegate(m) => DelegateOutcome(t, m, env, hash);
    case SetState(id, acks) => FlushOutcome(Note(t, id, acks), id, env);
    case _ =>
      assert Prepare(t, p).events == t.events by { PrepareEvents(t, p); }
      PollAllOutcome(Prepare(t, p), env);
  }

  lemma PrepareEvents(t: Topic, p: Proposal)
    requires p.OfEndpoint()
    ensures Prepare(t, p).events == t.events
  {
  }

  lemma DelegateOutcome(t: Topic, m: Message, env: Env, hash: Hashing)
    ensures Outcome(HoldNew(t, m, env, hash), Ready(t, Delegate(m), env, hash), t.Reachable(env.node), t.events)
  {
    hide LeavesFrom, Flush, HoldMessage.SendUnsent;
    if !(m.target.Push? && env.ring == []) && !(t.Full() && t.config.overflow.value.policy.RejectNew?) {
      hide StaysFrom;
      var room, h := if t.Full() then DropFront(t) else t, Hold(t, m, env, hash);
      NoAcks(Enqueue(room, h).queue, m.id);
      FlushOutcome(Note(Enqueue(room, h), m.id, map[]), m.id, env);
    }
  }

  lemma ReadyAt(t: Topic, p: Proposal, env: Env, hash: Hashing, y: HoldMessage) returns (i: nat)
    requires y in Ready(t, p, env, hash) && (p.Delegate? ==> p.message.id != y.Id())
    ensures i < |t.queue| && y == Touched(t, p, t.queue[i])
  {
    hide HoldMessage.UpdateAcks, Wanted, Index.InsertEach, Index.Delete;
    if p.Delegate? {
      i :| 0 <= i < |t.queue| && t.queue[i] == y;
    } else {
      var r := Ready(t, p, env, hash);
      i :| 0 <= i < |r| && r[i] == y;
    }
  }

  lemma SameMessage(q: seq<HoldMessage>, i: nat, h: HoldMessage)
    requires NoRepeats(Ids(q)) && i < |q| && h in q && q[i].Id() == h.Id()
    ensures q[i] == h
  {
    var j :| 0 <= j < |q| && q[j] == h;
    assert Ids(q)[i] == Ids(q)[j];
  }

  lemma ReadyIsTouched(t: Topic, p: Proposal, env: Env, hash: Hashing, h: HoldMessage, y: HoldMessage)
    requires NoRepeats(Ids(t.queue)) && h in t.queue && (p.Delegate? ==> p.message.id != h.Id())
    requires y in Ready(t, p, env, hash) && y.Id() == h.Id()
    ensures y == Touched(t, p, h)
  {
    hide Ready, Touched, NoRepeats, Ids;
    var i := ReadyAt(t, p, env, hash, y);
    SameMessage(t.queue, i, h);
  }

  // A message that is still held comes of what it was, and so does its result.
  lemma StepOfOne(t: Topic, p: Proposal, env: Env, hash: Hashing, h: HoldMessage)
    requires NoRepeats(Ids(t.queue)) && h in t.queue && (p.Delegate? ==> p.message.id != h.Id())
    ensures var after := Step(t, p, env, hash); var y, reach := Touched(t, p, h), Reach(t, p, env.node);
            && (forall x :: x in after.queue && x.Id() == h.Id() ==> ComesOf(x, y, reach))
            && (forall e :: e in after.events && e.Leave? && e.id == h.Id() && e !in t.events && !IsDrop(e) ==>
                  e == LeaveEvent(y.SendUnsent(reach)))
  {
    StepOutcome(t, p, env, hash);
    var after, q, reach := Step(t, p, env, hash), Ready(t, p, env, hash), Reach(t, p, env.node);
    hide Step, Ready, Reach, Touched, HoldMessage.SendUnsent, NoRepeats;
    forall x | x in after.queue && x.Id() == h.Id() ensures ComesOf(x, Touched(t, p, h), reach) {
      assert StaysFrom(x, q, reach);
      var y :| y in q && (x == y || x == y.SendUnsent(reach));
      ReadyIsTouched(t, p, env, hash, h, y);
    }
    forall e | e in after.events && e.Leave? && e.id == h.Id() && e !in t.events && !IsDrop(e)
      ensures e == LeaveEvent(Touched(t, p, h).SendUnsent(reach))
    {
      assert LeavesFrom(e, q, reach);
      var y :| y in q && e == LeaveEvent(y.SendUnsent(reach));
      ReadyIsTouched(t, p, env, hash, h, y);
    }
  }

  predicate TakesOffline(p: Proposal, ep: EndpointAddr) {
    p.GoOffline? && p.ep == ep
  }

  // A resolved status is final, except that going offline overwrites it.
  ghost predicate ResolvedBecomes(h: HoldMessage, x: HoldMessage, ep: EndpointAddr, p: Proposal) {
    && x.waitAck.level == h.waitAck.level && ep in x.waitAck.status
    && x.waitAck.status[ep] == if ep in h.waitAck.status && !TakesOffline(p, ep) then h.waitAck.status[ep] else Unreachable
  }

  lemma TouchedResolved(t: Topic, p: Proposal, h: HoldMessage, x: HoldMessage, ep: EndpointAddr, reach: set<EndpointAddr>)
    requires ep in h.waitAck.status && h.waitAck.status[ep].IsResolved(h.waitAck.level)
    requires ComesOf(x, Touched(t, p, h), reach)
    ensures ResolvedBecomes(h, x, ep, p)
  {
    hide Wanted, Prepare;
    var y := Touched(t, p, h);
    assert ep in y.waitAck.status;
    assert y.waitAck.status[ep] == if TakesOffline(p, ep) then Unreachable else h.waitAck.status[ep];
    assert ep !in y.Outgoing(reach);
  }

  lemma ResolvedStaysIff(t: Topic, p: Proposal, env: Env, hash: Hashing, h: HoldMessage, x: HoldMessage, ep: EndpointAddr)
    requires NoRepeats(Ids(t.queue)) && h in t.queue && (p.Delegate? ==> p.message.id != h.Id())
    requires ep in h.waitAck.status && h.waitAck.status[ep].IsResolved(h.waitAck.level)
    requires x in Step(t, p, env, hash).queue && x.Id() == h.Id()
    ensures ep in x.waitAck.status
    ensures x.waitAck.status[ep] == h.waitAck.status[ep] <==> !TakesOffline(p, ep) || h.waitAck.status[ep].Unreachable?
    ensures TakesOffline(p, ep) ==> x.waitAck.status[ep].Unreachable?
  {
    hide Step, Touched, ComesOf, Reach, NoRepeats, HoldMessage.SendUnsent;
    StepOfOne(t, p, env, hash, h);
    TouchedResolved(t, p, h, x, ep, Reach(t, p, env.node));
  }

  // The status of a message that stays held goes back in a step exactly when the step is an ack to it
  // that says less about an endpoint that is not resolved.
  lemma StepFallsBackIff(t: Topic, p: Proposal, env: Env, hash: Hashing, h: HoldMessage, x: HoldMessage, ep: EndpointAddr)
    requires NoRepeats(Ids(t.queue)) && h in t.queue && (p.Delegate? ==> p.message.id != h.Id())
    requires ep in h.waitAck.status && (p.SetState? ==> NeverUnsent(p.acks))
    requires x in Step(t, p, env, hash).queue && x.Id() == h.Id()
    ensures ep in x.waitAck.status
    ensures Rank(x.waitAck.status[ep]) < Rank(h.waitAck.status[ep]) <==>
            && p.SetState? && p.id == h.Id() && ep in p.acks && !h.waitAck.status[ep].IsResolved(h.waitAck.level)
            && Rank(p.acks[ep]) < Rank(h.waitAck.status[ep])
  {
    hide Step, ComesOf, Reach, NoRepeats, HoldMessage.SendUnsent, HoldMessage.UpdateAcks, Prepare, Wanted;
    StepOfOne(t, p, env, hash, h);
    var y := Touched(t, p, h);
    SentRank(y, x, Reach(t, p, env.node), ep);
    if p.SetState? && p.id == h.Id() {
      AckTakenIff(h, p.acks, ep);
    }
  }

  lemma SentRank(y: HoldMessage, x: HoldMessage, reach: set<EndpointAddr>, ep: EndpointAddr)
    requires ComesOf(x, y, reach) && ep in y.waitAck.status
    ensures ep in x.waitAck.status
    ensures x.waitAck.status[ep] == y.waitAck.status[ep] || (y.waitAck.status[ep].Unsent? && x.waitAck.status[ep].Sending?)
  {
  }

  // ----- The result -----

  // The endpoint goes offline while the message is held.
  ghost predicate OfflineWhileHeld(t: Topic, log: seq<Proposal>, envs: seq<Env>, hash: Hashing, id: MessageId,
                                   ep: EndpointAddr)
    requires |envs| == |log|
    decreases log
  {
    && log != [] && id in Ids(t.queue)
    && (TakesOffline(log[0], ep) || OfflineWhileHeld(Step(t, log[0], envs[0], hash), log[1..], envs[1..], hash, id, ep))
  }

  // Every message so far is accounted for, and no id is used twice, not by the rest of the log either.
  ghost predicate Clean(t: Topic, log: seq<Proposal>, loaded: seq<MessageId>, delegated: seq<MessageId>) {
    Accounted(t, loaded, delegated) && NoRepeats(loaded + (delegated + FlatMap(DelegatedOf, log)))
  }

  lemma CleanNow(t: Topic, log: seq<Proposal>, loaded: seq<MessageId>, delegated: seq<MessageId>, id: MessageId)
    requires Clean(t, log, loaded, delegated)
    ensures NoRepeats(Ids(t.queue))
    ensures id in Ids(t.queue) ==> id !in Left(t) && id !in FlatMap(DelegatedOf, log)
    ensures id in Left(t) ==> id !in Ids(t.queue)
  {
    hide FlatMap, InOrder, HeadOnly, Bounded, Ids, Left, Refused, Created, NoRepeats;
    var rest := FlatMap(DelegatedOf, log);
    ConservationSum(t, loaded, delegated);
    var held, acks, all := Ids(t.queue), Left(t) + Refused(t), loaded + (delegated + rest);
    NoRepeatsCount(all);
    NoRepeatsCount(held);
    assert multiset(all) == multiset(loaded + delegated) + multiset(rest);
    forall x ensures multiset(held)[x] + multiset(Left(t))[x] + multiset(rest)[x] <= 1 {
      assert multiset(acks)[x] == multiset(Left(t))[x] + multiset(Refused(t))[x];
      assert multiset(all)[x] == multiset(held)[x] + multiset(acks)[x] + multiset(rest)[x];
    }
    assert id in held <==> multiset(held)[id] > 0;
    assert id in Left(t) <==> multiset(Left(t))[id] > 0;
    assert id in rest <==> multiset(rest)[id] > 0;
  }

  lemma CleanNext(t: Topic, log: seq<Proposal>, env: Env, hash: Hashing, loaded: seq<MessageId>, delegated: seq<MessageId>)
    requires log != [] && Clean(t, log, loaded, delegated)
    ensures Clean(Step(t, log[0], env, hash), log[1..], loaded, delegated + DelegatedOf(log[0]))
  {
    hide Step, Accounted, NoRepeats;
    StepKeeps(t, log[0], env, hash, loaded, delegated);
    assert log == [log[0]] + log[1..];
    FlatMapCons(DelegatedOf, log[0], log[1..]);
    Assoc(delegated, DelegatedOf(log[0]), FlatMap(DelegatedOf, log[1..]));
  }

  lemma {:induction false} LeftHas(events: seq<Event>, e: Event)
    requires e in events && e.Leave?
    ensures e.id in FlatMap(LeftOf, events)
  {
    if events[0] == e {
      assert FlatMap(LeftOf, events) == LeftOf(e) + FlatMap(LeftOf, events[1..]);
    } else {
      LeftHas(events[1..], e);
    }
  }

  lemma IdAt(q: seq<HoldMessage>, h: HoldMessage)
    requires h in q
    ensures h.Id() in Ids(q)
  {
    var i :| 0 <= i < |q| && q[i] == h;
    assert Ids(q)[i] == h.Id();
  }

  lemma WithId(q: seq<HoldMessage>, id: MessageId) returns (h: HoldMessage)
    requires id in Ids(q)
    ensures h in q && h.Id() == id
  {
    var i :| 0 <= i < |q| && Ids(q)[i] == id;
    h := q[i];
  }

  lemma ReadyIds(t: Topic, p: Proposal, env: Env, hash: Hashing, y: HoldMessage)
    requires y in Ready(t, p, env, hash)
    ensures y.Id() in Ids(t.queue) || (p.Delegate? && p.message.id == y.Id())
  {
    hide HoldMessage.UpdateAcks, Wanted, Index.InsertEach, Index.Delete;
    var r := Ready(t, p, env, hash);
    var i :| 0 <= i < |r| && r[i] == y;
    if p.Delegate? {
      if y in t.queue {
        IdAt(t.queue, y);
      }
    } else {
      assert Ids(t.queue)[i] == y.Id();
    }
  }

  // A message that is not held comes back only by being delegated, and no step adds a result for it.
  lemma StepOfNone(t: Topic, p: Proposal, env: Env, hash: Hashing, id: MessageId)
    requires id !in Ids(t.queue) && (p.Delegate? ==> p.message.id != id)
    ensures var after := Step(t, p, env, hash);
            && id !in Ids(after.queue)
            && forall e :: e in after.events && e.Leave? && e.id == id && !IsDrop(e) ==> e in t.events
  {
    StepOutcome(t, p, env, hash);
    var after, q, reach := Step(t, p, env, hash), Ready(t, p, env, hash), Reach(t, p, env.node);
    hide Step, Ready, Reach, HoldMessage.SendUnsent;
    if id in Ids(after.queue) {
      var x := WithId(after.queue, id);
      assert StaysFrom(x, q, reach);
      var y :| y in q && (x == y || x == y.SendUnsent(reach));
      ReadyIds(t, p, env, hash, y);
    }
    forall e | e in after.events && e.Leave? && e.id == id && !IsDrop(e) ensures e in t.events {
      if e !in t.events {
        assert LeavesFrom(e, q, reach);
        var y :| y in q && e == LeaveEvent(y.SendUnsent(reach));
        ReadyIds(t, p, env, hash, y);
      }
    }
  }

  lemma DelegatedFirst(log: seq<Proposal>)
    requires log != []
    ensures FlatMap(DelegatedOf, log) == DelegatedOf(log[0]) + FlatMap(DelegatedOf, log[1..])
    ensures log[0].Delegate? ==> log[0].message.id in FlatMap(DelegatedOf, log)
    ensures forall id :: id in FlatMap(DelegatedOf, log[1..]) ==> id in FlatMap(DelegatedOf, log)
  {
    assert log[0].Delegate? ==> DelegatedOf(log[0])[0] == log[0].message.id;
  }

  lemma {:induction false} RunOfNone(t: Topic, log: seq<Proposal>, envs: seq<Env>, hash: Hashing, e: Event)
    requires |envs| == |log| && e.Leave? && !IsDrop(e)
    requires e.id !in Ids(t.queue) && e.id !in FlatMap(DelegatedOf, log)
    requires e in Run(t, log, envs, hash).events
    ensures e in t.events
    decreases log
  {
    hide *;
    RunOne(t, log, envs, hash);
    if log != [] {
      DelegatedFirst(log);
      StepOfNone(t, log[0], envs[0], hash, e.id);
      RunOfNone(Step(t, log[0], envs[0], hash), log[1..], envs[1..], hash, e);
    }
  }

  lemma OfflineOne(t: Topic, log: seq<Proposal>, envs: seq<Env>, hash: Hashing, id: MessageId, ep: EndpointAddr)
    requires |envs| == |log| && log != [] && id in Ids(t.queue)
    ensures var next := Step(t, log[0], envs[0], hash);
            && (OfflineWhileHeld(t, log, envs, hash, id, ep) <==>
                TakesOffline(log[0], ep) || OfflineWhileHeld(next, log[1..], envs[1..], hash, id, ep))
            && (id !in Ids(next.queue) ==> !OfflineWhileHeld(next, log[1..], envs[1..], hash, id, ep))
  {
    hide Step;
  }

  // What a result says of an endpoint.
  ghost predicate Reported(e: Event, ep: EndpointAddr, kind: StatusKind) {
    && e.Leave? && ep in e.result.status && e.result.status[ep] == kind
    && (kind.IsFailed() ==> e.result.AckErr?)
  }

  lemma LeaveReports(y: HoldMessage, ep: EndpointAddr)
    requires ep in y.waitAck.status
    ensures Reported(LeaveEvent(y), ep, y.waitAck.status[ep])
  {
  }

  lemma {:induction false} CleanIsReported(t: Topic, log: seq<Proposal>, envs: seq<Env>, hash: Hashing, h: HoldMessage,
                                           ep: EndpointAddr, e: Event, loaded: seq<MessageId>, delegated: seq<MessageId>)
    requires |envs| == |log| && Clean(t, log, loaded, delegated)
    requires h in t.queue && ep in h.waitAck.status && h.waitAck.status[ep].IsResolved(h.waitAck.level)
    requires e in Run(t, log, envs, hash).events && e.Leave? && e.id == h.Id() && !IsDrop(e)
    ensures Reported(e, ep, if OfflineWhileHeld(t, log, envs, hash, h.Id(), ep) then Unreachable else h.waitAck.status[ep])
    decreases log
  {
    hide Clean, Left, Ids, NoRepeats, FlatMap, Run, Step, Reported, ComesOf, Reach, Touched, OfflineWhileHeld,
         TakesOffline, LeaveEvent, HoldMessage.SendUnsent, IsDrop;
    RunOne(t, log, envs, hash);
    CleanNow(t, log, loaded, delegated, h.Id());
    IdAt(t.queue, h);
    NotYetReported(t, h.Id(), e);
    if log != [] {
      var next, p := Step(t, log[0], envs[0], hash), log[0];
      CleanNext(t, log, envs[0], hash, loaded, delegated);
      DelegatedFirst(log);
      StepOfOne(t, p, envs[0], hash, h);
      OfflineOne(t, log, envs, hash, h.Id(), ep);
      var y, reach := Touched(t, p, h), Reach(t, p, envs[0].node);
      if h.Id() in Ids(next.queue) {
        var x := WithId(next.queue, h.Id());
        TouchedResolved(t, p, h, x, ep, reach);
        StillResolved(h, x, ep, p);
        CleanIsReported(next, log[1..], envs[1..], hash, x, ep, e, loaded, delegated + DelegatedOf(p));
      } else {
        RunOfNone(next, log[1..], envs[1..], hash, e);
        PolledComes(y, reach);
        TouchedResolved(t, p, h, y.SendUnsent(reach), ep, reach);
        StillResolved(h, y.SendUnsent(reach), ep, p);
        LeaveReports(y.SendUnsent(reach), ep);
      }
    }
  }

  lemma PolledComes(y: HoldMessage, reach: set<EndpointAddr>)
    ensures ComesOf(y.SendUnsent(reach), y, reach)
  {
  }

  lemma StillResolved(h: HoldMessage, x: HoldMessage, ep: EndpointAddr, p: Proposal)
    requires ResolvedBecomes(h, x, ep, p) && ep in h.waitAck.status && h.waitAck.status[ep].IsResolved(h.waitAck.level)
    ensures ep in x.waitAck.status && x.waitAck.status[ep].IsResolved(x.waitAck.level)
    ensures x.waitAck.status[ep] == if TakesOffline(p, ep) then Unreachable else h.waitAck.status[ep]
  {
  }

  lemma NotYetReported(t: Topic, id: MessageId, e: Event)
    requires id !in Left(t) && e.Leave? && e.id == id
    ensures e !in t.events
  {
    if e in t.events {
      LeftHas(t.events, e);
    }
  }

  // A topic as it was loaded is clean, and so is every topic it runs to.
  lemma LoadedIsClean(config: TopicConfig, messages: seq<DurableMessage>, log: seq<Proposal>)
    requires NoRepeats(Ids(FromDurable(config, messages).queue) + FlatMap(DelegatedOf, log))
    ensures var t := FromDurable(config, messages); Clean(t, log, Ids(t.queue), [])
  {
    hide FromDurable, Accounted, NoRepeats, Ids, FlatMap;
    LoadedIsAccounted(config, messages);
    assert [] + FlatMap(DelegatedOf, log) == FlatMap(DelegatedOf, log);
  }

  lemma RunIsClean(t: Topic, log: seq<Proposal>, more: seq<Proposal>, envs: seq<Env>, hash: Hashing,
                   loaded: seq<MessageId>, delegated: seq<MessageId>)
    requires |envs| == |log| && Clean(t, log + more, loaded, delegated)
    ensures Clean(Run(t, log, envs, hash), more, loaded, delegated + FlatMap(DelegatedOf, log))
  {
    hide Run, Accounted, NoRepeats, FlatMap;
    RunKeeps(t, log, envs, hash, loaded, delegated);
    FlatMapConcat(DelegatedOf, log, more);
    Assoc(delegated, FlatMap(DelegatedOf, log), FlatMap(DelegatedOf, more));
  }

  // Once resolved, a status is what the result reports, unless the endpoint goes offline before the
  // message leaves: after any run `log` of a loaded topic and over any run `more` that follows, as long
  // as no id is used twice.
  lemma ResolvedIsReported(config: TopicConfig, messages: seq<DurableMessage>, log: seq<Proposal>, envs: seq<Env>,
                           more: seq<Proposal>, moreEnvs: seq<Env>, hash: Hashing, h: HoldMessage, ep: EndpointAddr, e: Event)
    requires |envs| == |log| && |moreEnvs| == |more|
    requires NoRepeats(Ids(FromDurable(config, messages).queue) + FlatMap(DelegatedOf, log + more))
    requires var t := Run(FromDurable(config, messages), log, envs, hash);
             && h in t.queue && ep in h.waitAck.status && h.waitAck.status[ep].IsResolved(h.waitAck.level)
             && e in Run(t, more, moreEnvs, hash).events && e.Leave? && e.id == h.Id() && !IsDrop(e)
    ensures var t := Run(FromDurable(config, messages), log, envs, hash);
            Reported(e, ep, if OfflineWhileHeld(t, more, moreEnvs, hash, h.Id(), ep) then Unreachable
                            else h.waitAck.status[ep])
  {
    hide *;
    var start := FromDurable(config, messages);
    LoadedIsClean(config, messages, log + more);
    RunIsClean(start, log, more, envs, hash, Ids(start.queue), []);
    CleanIsReported(Run(start, log, envs, hash), more, moreEnvs, hash, h, ep, e,
                    Ids(start.queue), [] + FlatMap(DelegatedOf, log));
  }

  // The endpoints that are reported as failed although they reached the level asked for are exactly
  // those that went offline after that, while the message was held.
  lemma ReachedFailsIff(config: TopicConfig, messages: seq<DurableMessage>, log: seq<Proposal>, envs: seq<Env>,
                        more: seq<Proposal>, moreEnvs: seq<Env>, hash: Hashing, h: HoldMessage, ep: EndpointAddr, e: Event)
    requires |envs| == |log| && |moreEnvs| == |more|
    requires NoRepeats(Ids(FromDurable(config, messages).queue) + FlatMap(DelegatedOf, log + more))
    requires var t := Run(FromDurable(config, messages), log, envs, hash);
             && h in t.queue && ep in h.waitAck.status && h.waitAck.status[ep].IsReached(h.waitAck.level)
             && e in Run(t, more, moreEnvs, hash).events && e.Leave? && e.id == h.Id() && !IsDrop(e)
    ensures ep in e.result.status
    ensures e.result.status[ep].IsFailed() <==>
            OfflineWhileHeld(Run(FromDurable(config, messages), log, envs, hash), more, moreEnvs, hash, h.Id(), ep)
    ensures e.result.status[ep].IsFailed() ==> e.result.AckErr?
    ensures !e.result.status[ep].IsFailed() ==> e.result.status[ep] == h.waitAck.status[ep]
  {
    hide Run, OfflineWhileHeld, FromDurable, FlatMap, NoRepeats, Ids;
    ResolvedIsReported(config, messages, log, envs, more, moreEnvs, hash, h, ep, e);
  }
}
