// Each node asks its own clock whether a durable message has expired. When that makes replicas disagree.

module Clocks {
  import opened Messages
  import opened Lists
  import opened Tries
  import opened HoldQueue
  import opened Topics
  import opened Ledger
  import opened Agreement
  import opened Statuses
  import opened Nodes

  // The clock alone decides whether the message is done with.
  predicate LeftToClock(h: HoldMessage) {
    && h.message.target.Durable? && h.message.durability.Some?
    && !(h.message.durability.value.maxReceiver.Some?
         && |h.waitAck.status| >= h.message.durability.value.maxReceiver.value)
  }

  predicate Split(h: HoldMessage, n1: Time, n2: Time) {
    LeftToClock(h) && h.message.Expired(n1) != h.message.Expired(n2)
  }

  lemma ResolvedIff(h: HoldMessage, reach: set<EndpointAddr>, now: Time)
    ensures h.SendUnsent(reach).IsResolved(now) == h.IsResolved(now)
  {
    var sent := h.SendUnsent(reach);
    assert |sent.waitAck.status| == |sent.waitAck.status.Keys| && |h.waitAck.status| == |h.waitAck.status.Keys|;
    assert forall ep :: ep in h.waitAck.status ==>
      sent.waitAck.status[ep].IsResolved(h.waitAck.level) == h.waitAck.status[ep].IsResolved(h.waitAck.level);
  }

  // Polled at two clocks, a message fares the same exactly when both are on the same side of its expiry,
  // or the clock does not matter.
  lemma PollOneIff(h: HoldMessage, reach: set<EndpointAddr>, n1: Time, n2: Time)
    ensures PollOne(h, reach, n1) == PollOne(h, reach, n2) <==> !Split(h, n1, n2)
    ensures (PollOne(h, reach, n1).queue == [] <==> PollOne(h, reach, n2).queue == []) <==> !Split(h, n1, n2)
    ensures PollOne(h, reach, n1).queue == [] <==> h.IsResolved(n1)
    ensures PollOne(h, reach, n1).queue == [] || Ids(PollOne(h, reach, n1).queue) == [h.Id()]
  {
    ResolvedIff(h, reach, n1);
    ResolvedIff(h, reach, n2);
    hide HoldMessage.SendUnsent;
    assert h.SendUnsent(reach).message == h.message;
  }

  // Draining from the front gets to such a message.
  predicate DrainSplits(q: seq<HoldMessage>, n1: Time, n2: Time) {
    q != [] && (Split(q[0], n1, n2) || (q[0].IsResolved(n1) && DrainSplits(q[1..], n1, n2)))
  }

  predicate Splits(blocking: bool, q: seq<HoldMessage>, ids: set<MessageId>, n1: Time, n2: Time) {
    if blocking then q != [] && q[0].Id() in ids && DrainSplits(q, n1, n2)
    else exists h :: h in q && h.Id() in ids && Split(h, n1, n2)
  }

  // The ids that are left are among those that were there.
  lemma IdsWithin(left: seq<MessageId>, rest: seq<MessageId>, all: seq<MessageId>, id: MessageId)
    requires multiset(left) + multiset(rest) == multiset(all) && id !in all
    ensures id !in rest
  {
    assert multiset(all)[id] == multiset(left)[id] + multiset(rest)[id];
    assert multiset(all)[id] == 0;
  }

  lemma FirstDiffers(id: MessageId, a: seq<MessageId>, b: seq<MessageId>)
    requires id !in b
    ensures [id] + a != b
  {
    assert id in [id] + a;
  }

  lemma IdsTail(h: HoldMessage, rest: seq<HoldMessage>)
    requires NoRepeats(Ids([h] + rest))
    ensures h.Id() !in Ids(rest) && NoRepeats(Ids(rest))
  {
    IdsCons(h, rest);
    NoRepeatsCons(h.Id(), Ids(rest));
  }

  lemma PollIfIff(h: HoldMessage, ids: set<MessageId>, reach: set<EndpointAddr>, n1: Time, n2: Time)
    ensures var a, b := PollIf(h, ids, reach, n1), PollIf(h, ids, reach, n2);
            && (Ids(a.queue) == [] || Ids(a.queue) == [h.Id()]) && (Ids(b.queue) == [] || Ids(b.queue) == [h.Id()])
            && if h.Id() in ids && Split(h, n1, n2) then Ids(a.queue) != Ids(b.queue) else a == b
  {
    PollOneIff(h, reach, n1, n2);
    PollOneIff(h, reach, n2, n1);
    hide PollOne, Split;
  }

  lemma TwoQueues(id: MessageId, a: seq<MessageId>, b: seq<MessageId>, restA: seq<MessageId>, restB: seq<MessageId>)
    requires (a == [] || a == [id]) && (b == [] || b == [id]) && id !in restA && id !in restB
    ensures a + restA == b + restB <==> a == b && restA == restB
  {
    if a != b {
      if a == [] {
        FirstDiffers(id, restB, restA);
        assert [] + restA == restA;
      } else {
        FirstDiffers(id, restA, restB);
        assert [] + restB == restB;
      }
    } else if a + restA == b + restB {
      assert restA == (a + restA)[|a|..] == (b + restB)[|b|..] == restB;
    }
  }

  lemma {:induction false} PollEachIff(q: seq<HoldMessage>, ids: set<MessageId>, reach: set<EndpointAddr>, n1: Time, n2: Time)
    requires NoRepeats(Ids(q))
    ensures var a, b := PollEach(q, ids, reach, n1), PollEach(q, ids, reach, n2);
            if Splits(false, q, ids, n1, n2) then Ids(a.queue) != Ids(b.queue) else a == b
  {
    hide PollEach, PollIf, Ids, NoRepeats, FlatMap, Split;
    if q == [] {
      PollEachNil(ids, reach, n1);
      PollEachNil(ids, reach, n2);
    } else {
      var h, rest := q[0], q[1..];
      assert q == [h] + rest;
      IdsTail(h, rest);
      var a, b := PollIf(h, ids, reach, n1), PollIf(h, ids, reach, n2);
      var restA, restB := PollEach(rest, ids, reach, n1), PollEach(rest, ids, reach, n2);
      PollEachCons(h, rest, ids, reach, n1);
      PollEachCons(h, rest, ids, reach, n2);
      PollIfIff(h, ids, reach, n1, n2);
      PollEachIff(rest, ids, reach, n1, n2);
      PollEachBalance(rest, ids, reach, n1);
      PollEachBalance(rest, ids, reach, n2);
      IdsWithin(FlatMap(LeftOf, restA.events), Ids(restA.queue), Ids(rest), h.Id());
      IdsWithin(FlatMap(LeftOf, restB.events), Ids(restB.queue), Ids(rest), h.Id());
      IdsConcat(a.queue, restA.queue);
      IdsConcat(b.queue, restB.queue);
      TwoQueues(h.Id(), Ids(a.queue), Ids(b.queue), Ids(restA.queue), Ids(restB.queue));
    }
  }

  lemma DrainLeft(q: seq<HoldMessage>, reach: set<EndpointAddr>, now: Time, id: MessageId)
    requires id !in Ids(q)
    ensures id !in Ids(Drain(q, reach, now).queue)
  {
    hide *;
    DrainBalance(q, reach, now);
    var d := Drain(q, reach, now);
    assert multiset(FlatMap(LeftOf, d.events) + Ids(d.queue)) == multiset(FlatMap(LeftOf, d.events)) + multiset(Ids(d.queue));
    IdsWithin(FlatMap(LeftOf, d.events), Ids(d.queue), Ids(q), id);
  }

  lemma {:induction false} DrainIff(q: seq<HoldMessage>, reach: set<EndpointAddr>, n1: Time, n2: Time)
    requires NoRepeats(Ids(q))
    ensures var a, b := Drain(q, reach, n1), Drain(q, reach, n2);
            if DrainSplits(q, n1, n2) then Ids(a.queue) != Ids(b.queue) else a == b
  {
    hide Drain, PollOne, Ids, NoRepeats, FlatMap, Split, HoldMessage.IsResolved;
    if q == [] {
      DrainNil(reach, n1);
      DrainNil(reach, n2);
    } else {
      var h, rest := q[0], q[1..];
      assert q == [h] + rest;
      IdsTail(h, rest);
      DrainCons(h, rest, reach, n1);
      DrainCons(h, rest, reach, n2);
      PollOneIff(h, reach, n1, n2);
      PollOneIff(h, reach, n2, n1);
      DrainIff(rest, reach, n1, n2);
      DrainLeft(rest, reach, n1, h.Id());
      DrainLeft(rest, reach, n2, h.Id());
      var a, b := PollOne(h, reach, n1).queue, PollOne(h, reach, n2).queue;
      IdsConcat(a, if a == [] then Drain(rest, reach, n1).queue else rest);
      IdsConcat(b, if b == [] then Drain(rest, reach, n2).queue else rest);
      NothingLeft();
      var restA := Ids(if a == [] then Drain(rest, reach, n1).queue else rest);
      var restB := Ids(if b == [] then Drain(rest, reach, n2).queue else rest);
      OnlyThen(a, b);
      TwoQueues(h.Id(), Ids(a), Ids(b), restA, restB);
    }
  }

  lemma OnlyThen(a: seq<HoldMessage>, b: seq<HoldMessage>)
    ensures Ids(a) == Ids(b) ==> (a == [] <==> b == [])
  {
  }

  lemma SettleIff(blocking: bool, q: seq<HoldMessage>, ids: set<MessageId>, reach: set<EndpointAddr>, n1: Time, n2: Time)
    requires NoRepeats(Ids(q))
    ensures var a, b := Settle(blocking, q, ids, reach, n1), Settle(blocking, q, ids, reach, n2);
            if Splits(blocking, q, ids, n1, n2) then Ids(a.queue) != Ids(b.queue) else a == b
  {
    hide PollEach, Drain, NoRepeats, Ids, DrainSplits;
    PollEachIff(q, ids, reach, n1, n2);
    DrainIff(q, reach, n1, n2);
  }

  // ----- Steps -----

  predicate TurnedAway(t: Topic, m: Message, env: Env) {
    (m.target.Push? && env.ring == []) || (t.Full() && t.config.overflow.value.policy.RejectNew?)
  }

  // The messages that a step polls.
  ghost function PolledBy(t: Topic, p: Proposal, env: Env): set<MessageId> {
    match p
    case Delegate(m) => if TurnedAway(t, m, env) then {} else {m.id}
    case SetState(id, _) => {id}
    case _ => NeedPoll(t, p)
  }

  // The step polls a message that only the clock decides about, and the clocks disagree.
  ghost predicate ClockSplits(t: Topic, p: Proposal, env: Env, hash: Hashing, now: Time) {
    Splits(t.config.blocking, Ready(t, p, env, hash), PolledBy(t, p, env), env.now, now)
  }

  lemma ReadyUnique(t: Topic, p: Proposal, env: Env, hash: Hashing)
    requires NoRepeats(Ids(t.queue)) && (p.Delegate? ==> p.message.id !in Ids(t.queue))
    ensures NoRepeats(Ids(Ready(t, p, env, hash)))
  {
    var r := Ready(t, p, env, hash);
    if p.Delegate? {
      if !TurnedAway(t, p.message, env) {
        var rest := if t.Full() then t.queue[1..] else t.queue;
        assert r == rest + [Hold(t, p.message, env, hash)];
        assert t.Full() ==> Ids(t.queue) == [t.queue[0].Id()] + Ids(rest);
        IdsConcat(rest, [Hold(t, p.message, env, hash)]);
        assert Ids([Hold(t, p.message, env, hash)]) == [p.message.id];
        assert Ids(r) == Ids(rest) + [p.message.id];
        NoRepeatsLast(t, rest, p.message.id);
      }
    } else {
      assert Ids(r) == Ids(t.queue);
    }
  }

  lemma NoRepeatsLast(t: Topic, rest: seq<HoldMessage>, id: MessageId)
    requires NoRepeats(Ids(t.queue)) && id !in Ids(t.queue)
    requires rest == t.queue || (t.queue != [] && rest == t.queue[1..])
    ensures NoRepeats(Ids(rest) + [id])
  {
    if t.queue != [] && rest == t.queue[1..] {
      assert t.queue == [t.queue[0]] + rest;
      IdsTail(t.queue[0], rest);
      IdsCons(t.queue[0], rest);
    }
    assert id !in Ids(rest) && NoRepeats(Ids(rest));
  }

  // A topic stepped at two clocks.
  lemma StepAtTwoClocks(t: Topic, p: Proposal, env: Env, hash: Hashing, now: Time)
    requires NoRepeats(Ids(t.queue)) && (p.Delegate? ==> p.message.id !in Ids(t.queue)) && Admissible(t, p, env, hash)
    ensures var a, b := Step(t, p, env, hash), Step(t, p, env.(now := now), hash);
            if ClockSplits(t, p, env, hash, now) then Ids(a.queue) != Ids(b.queue) else ViewOf(a) == ViewOf(b)
  {
    hide ViewOf, Settle, FlatMap, Splits, Prepare, NeedPoll, Enqueue, Hold, DropFront, NoRepeats, Ids;
    ReadyUnique(t, p, env, hash);
    SettleIff(t.config.blocking, Ready(t, p, env, hash), PolledBy(t, p, env), Reach(t, p, env.node), env.now, now);
    match p
    case Delegate(m) => DelegateAtTwoClocks(t, m, env, hash, now);
    case SetState(id, acks) =>
    case _ =>
      var ready := Prepare(t, p);
      PrepareConfig(t, p);
      PollAllAtTwoClocks(ready, env, NeedPoll(t, p), now);
  }

  lemma PollAllAtTwoClocks(t: Topic, env: Env, need: set<MessageId>, now: Time)
    requires Enumerates(env.walk, need)
    ensures var a, b := PollAll(t, env.walk, env), PollAll(t, env.walk, env.(now := now));
            var pa := Settle(t.config.blocking, t.queue, need, t.Reachable(env.node), env.now);
            var pb := Settle(t.config.blocking, t.queue, need, t.Reachable(env.node), now);
            && a.queue == pa.queue && b.queue == pb.queue
            && (pa == pb ==> ViewOf(a) == ViewOf(b))
  {
    hide ViewOf, Settle, FlatMap, PollAll, NormPolled, StatusUpdates, Walk;
    PollAllIsWalk(t, env.walk, env);
    PollAllIsWalk(t, env.walk, env.(now := now));
    WalkIsSettle(t.config.blocking, t.queue, env.walk, t.Reachable(env.node), env.now);
    WalkIsSettle(t.config.blocking, t.queue, env.walk, t.Reachable(env.node), now);
    ViewOfWalk(t, env, need);
    ViewOfWalk(t, env.(now := now), need);
  }

  lemma DelegateAtTwoClocks(t: Topic, m: Message, env: Env, hash: Hashing, now: Time)
    ensures var a, b := HoldNew(t, m, env, hash), HoldNew(t, m, env.(now := now), hash);
            var q, ids, reach := Ready(t, Delegate(m), env, hash), PolledBy(t, Delegate(m), env), t.Reachable(env.node);
            var pa := Settle(t.config.blocking, q, ids, reach, env.now);
            var pb := Settle(t.config.blocking, q, ids, reach, now);
            && a.queue == pa.queue && b.queue == pb.queue
            && (pa == pb ==> a == b)
  {
    hide Collect, FlatMap, PollEach, Drain;
    if TurnedAway(t, m, env) {
      PollEachNone(t.queue, t.Reachable(env.node), env.now);
      PollEachNone(t.queue, t.Reachable(env.node), now);
    } else {
      var room, h := if t.Full() then DropFront(t) else t, Hold(t, m, env, hash);
      assert Hold(t, m, env.(now := now), hash) == h;
      NoAcks(Enqueue(room, h).queue, m.id);
    }
  }

  // ----- Replicas -----

  lemma ViewIds(a: Topic, b: Topic)
    requires ViewOf(a) == ViewOf(b)
    ensures Ids(a.queue) == Ids(b.queue)
  {
    assert |a.queue| == |NormQueue(a.queue)| == |NormQueue(b.queue)| == |b.queue|;
    forall i | 0 <= i < |a.queue| ensures a.queue[i].Id() == b.queue[i].Id() {
      assert NormQueue(a.queue)[i] == NormQueue(b.queue)[i];
    }
  }

  lemma SameClockFits(t: Topic, p: Proposal, env: Env, hash: Hashing, now: Time)
    ensures Admissible(t, p, env.(now := now), hash) <==> Admissible(t, p, env, hash)
  {
  }

  // One step keeps two replicas in agreement exactly when it does not poll a message that only the
  // clock decides about and that has expired at one of their clocks and not at the other.
  lemma StepAgreesIff(a: Topic, b: Topic, p: Proposal, ea: Env, eb: Env, hash: Hashing, s: Scope)
    requires ViewOf(a) == ViewOf(b) && a.ix.Valid() && b.ix.Valid()
    requires Admissible(a, p, ea, hash) && Admissible(b, p, eb, hash)
    requires Distinct(hash, s.eps) && s.Covers(p) && s.Holds(a)
    requires NoRepeats(Ids(b.queue)) && (p.Delegate? ==> p.message.id !in Ids(b.queue))
    ensures ViewOf(Step(a, p, ea, hash)) == ViewOf(Step(b, p, eb, hash)) <==> !ClockSplits(b, p, eb, hash, ea.now)
  {
    hide ViewOf, Step, Admissible, Distinct, Scope.Covers, Scope.Holds, NoRepeats, Ids, ClockSplits, Index.Valid;
    SameClockFits(b, p, eb, hash, ea.now);
    StepAgrees(a, b, p, ea, eb.(now := ea.now), hash, s);
    StepAtTwoClocks(b, p, eb, hash, ea.now);
    if ViewOf(Step(a, p, ea, hash)) == ViewOf(Step(b, p, eb, hash)) {
      ViewIds(Step(b, p, eb, hash), Step(b, p, eb.(now := ea.now), hash));
    }
  }

  // The replicas agree after every prefix of the log.
  ghost predicate AgreeThroughout(a: Topic, b: Topic, log: seq<Proposal>, ea: seq<Env>, eb: seq<Env>, hash: Hashing)
    requires |ea| == |eb| == |log|
    decreases log
  {
    && ViewOf(a) == ViewOf(b)
    && (log == [] ||
        AgreeThroughout(Step(a, log[0], ea[0], hash), Step(b, log[0], eb[0], hash), log[1..], ea[1..], eb[1..], hash))
  }

  // No step of the run polls such a message, as seen before each on one of the replicas.
  ghost predicate NeverSplits(b: Topic, log: seq<Proposal>, ea: seq<Env>, eb: seq<Env>, hash: Hashing)
    requires |ea| == |eb| == |log|
    decreases log
  {
    log == [] || (&& !ClockSplits(b, log[0], eb[0], hash, ea[0].now)
                  && NeverSplits(Step(b, log[0], eb[0], hash), log[1..], ea[1..], eb[1..], hash))
  }

  ghost predicate Covered(log: seq<Proposal>, s: Scope) {
    forall p :: p in log ==> s.Covers(p)
  }

  lemma RunUnfolds(a: Topic, b: Topic, log: seq<Proposal>, ea: seq<Env>, eb: seq<Env>, hash: Hashing, s: Scope)
    requires |ea| == |eb| == |log| && Covered(log, s) && ViewOf(a) == ViewOf(b)
    ensures log == [] ==> AgreeThroughout(a, b, log, ea, eb, hash) && NeverSplits(b, log, ea, eb, hash)
    ensures log != [] ==>
              var na, nb := Step(a, log[0], ea[0], hash), Step(b, log[0], eb[0], hash);
              && s.Covers(log[0]) && Covered(log[1..], s)
              && (AgreeThroughout(a, b, log, ea, eb, hash) <==> AgreeThroughout(na, nb, log[1..], ea[1..], eb[1..], hash))
              && (AgreeThroughout(a, b, log, ea, eb, hash) ==> ViewOf(na) == ViewOf(nb))
              && (NeverSplits(b, log, ea, eb, hash) <==>
                  !ClockSplits(b, log[0], eb[0], hash, ea[0].now) && NeverSplits(nb, log[1..], ea[1..], eb[1..], hash))
  {
    hide ViewOf, Step, ClockSplits, Scope.Covers;
  }

  // Over a whole run two replicas agree after every step exactly when no step splits them.
  lemma {:induction false} CleanAgreesIff(a: Topic, b: Topic, log: seq<Proposal>, ea: seq<Env>, eb: seq<Env>, hash: Hashing,
                                          s: Scope, loaded: seq<MessageId>, delegated: seq<MessageId>)
    requires |ea| == |eb| == |log| && Covered(log, s) && Distinct(hash, s.eps)
    requires ViewOf(a) == ViewOf(b) && a.ix.Valid() && b.ix.Valid() && s.Holds(a)
    requires RunOk(a, log, ea, hash) && RunOk(b, log, eb, hash) && Clean(b, log, loaded, delegated)
    ensures AgreeThroughout(a, b, log, ea, eb, hash) <==> NeverSplits(b, log, ea, eb, hash)
    decreases log
  {
    hide *;
    RunUnfolds(a, b, log, ea, eb, hash, s);
    if log != [] {
      var na, nb := Step(a, log[0], ea[0], hash), Step(b, log[0], eb[0], hash);
      RunOne(a, log, ea, hash);
      RunOne(b, log, eb, hash);
      CleanStart(b, log, loaded, delegated);
      StepAgreesIff(a, b, log[0], ea[0], eb[0], hash, s);
      if ViewOf(na) == ViewOf(nb) {
        StepKeepsValid(a, log[0], ea[0], hash);
        StepKeepsValid(b, log[0], eb[0], hash);
        StepHolds(a, log[0], ea[0], hash, s);
        CleanNext(b, log, eb[0], hash, loaded, delegated);
        CleanAgreesIff(na, nb, log[1..], ea[1..], eb[1..], hash, s, loaded, delegated + DelegatedOf(log[0]));
      }
    }
  }

  lemma CleanStart(t: Topic, log: seq<Proposal>, loaded: seq<MessageId>, delegated: seq<MessageId>)
    requires log != [] && Clean(t, log, loaded, delegated)
    ensures NoRepeats(Ids(t.queue)) && (log[0].Delegate? ==> log[0].message.id !in Ids(t.queue))
  {
    hide Clean, FlatMap, NoRepeats, Ids;
    DelegatedFirst(log);
    CleanNow(t, log, loaded, delegated, if log[0].Delegate? then log[0].message.id else 0);
  }

  // The exact condition for replicas to agree: from the same stored messages, each on its own clock,
  // two nodes agree after every step of the log if and only if no step polls a message that only the
  // clock decides about and that has expired for one of them and not for the other.
  lemma ReplicasAgreeIff(config: TopicConfig, messages: seq<DurableMessage>, log: seq<Proposal>, ea: seq<Env>, eb: seq<Env>,
                         hash: Hashing, s: Scope)
    requires |ea| == |eb| == |log| && Covered(log, s) && Distinct(hash, s.eps)
    requires forall m :: m in messages ==> s.Knows(m.message)
    requires var start := FromDurable(config, messages);
             && RunOk(start, log, ea, hash) && RunOk(start, log, eb, hash)
             && NoRepeats(Ids(start.queue) + FlatMap(DelegatedOf, log))
    ensures var start := FromDurable(config, messages);
            AgreeThroughout(start, start, log, ea, eb, hash) <==> NeverSplits(start, log, ea, eb, hash)
  {
    hide *;
    var start := FromDurable(config, messages);
    LoadedIsClean(config, messages, log);
    LoadIsValid(config, messages);
    LoadHolds(config, messages, s);
    CleanAgreesIff(start, start, log, ea, eb, hash, s, Ids(start.queue), []);
  }
}
