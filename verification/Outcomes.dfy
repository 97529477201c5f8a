// What each proposal does, written out message by message and endpoint by endpoint.

module Outcomes {
  import opened Messages
  import opened Levels
  import opened Lists
  import opened Texts
  import opened Tries
  import opened HoldQueue
  import opened Topics
  import opened Agreement
  import opened Ledger
  import opened Effects
  import opened Statuses

  // ----- Who is interested -----

  ghost predicate WantsAny(ix: Index, v: EndpointAddr, subjects: seq<Bytes>) {
    exists subject, i :: subject in subjects && i in RawOf(ix, v) && TextFinds(i, subject)
  }

  // The endpoints with an interest whose text finds the text of one of the subjects.
  ghost function Interested(ix: Index, subjects: seq<Bytes>): set<EndpointAddr> {
    set v | v in ix.raw && WantsAny(ix, v, subjects)
  }

  lemma CollectIsInterested(ix: Index, subjects: seq<Bytes>)
    requires ix.Valid()
    ensures Collect(ix, subjects) == Interested(ix, subjects)
  {
    hide TextFinds, Index.Valid, Index.Find;
    forall subject, v: EndpointAddr
      ensures v in ix.Find(subject) <==> exists i :: i in RawOf(ix, v) && TextFinds(i, subject)
    {
      FoundIff(ix, subject, v);
    }
    forall v ensures v in Collect(ix, subjects) <==> v in Interested(ix, subjects) {
      if v in Collect(ix, subjects) {
        var subject :| subject in subjects && v in ix.Find(subject);
        var i :| i in RawOf(ix, v) && TextFinds(i, subject);
        assert WantsAny(ix, v, subjects);
      }
      if v in Interested(ix, subjects) {
        var subject, i :| subject in subjects && i in RawOf(ix, v) && TextFinds(i, subject);
        assert v in ix.Find(subject);
      }
    }
  }

  // ----- Routing and interests -----

  // Only the endpoint that comes online or goes offline is added to or taken from what a node reaches,
  // and only under the host it names.
  lemma RoutingAfter(t: Topic, p: Proposal, env: Env, hash: Hashing, node: NodeId)
    requires Admissible(t, p, env, hash)
    ensures Step(t, p, env, hash).Reachable(node) ==
            if p.GoOnline? && p.host == node then t.Reachable(node) + {p.ep}
            else if p.GoOffline? && p.host == node then t.Reachable(node) - {p.ep}
            else t.Reachable(node)
  {
    hide Settle, FlatMap, Collect, NeedPoll, PollAll, Index.InsertEach, Index.Delete;
    if p.OfEndpoint() {
      EndpointStep(t, p, env, hash);
    }
  }

  // Coming online adds interests to those declared before, new interests replace them, going offline
  // withdraws them, and nobody else's change.
  function DeclaredAfter(before: set<Bytes>, p: Proposal, v: EndpointAddr): set<Bytes> {
    if p.GoOnline? && v == p.ep then before + Elements(p.interests)
    else if p.NewInterest? && v == p.ep then Elements(p.interests)
    else if p.GoOffline? && v == p.ep then {}
    else before
  }

  lemma InterestsAfter(t: Topic, p: Proposal, env: Env, hash: Hashing, v: EndpointAddr)
    requires t.ix.Valid()
    ensures var after := Step(t, p, env, hash).ix;
            after.Valid() && RawOf(after, v) == DeclaredAfter(RawOf(t.ix, v), p, v)
  {
    StepKeepsValid(t, p, env, hash);
    StepMessages(t, p, env, hash);
    hide Step, Index.Valid, Index.InsertEach, Index.Delete;
    match p
    case GoOnline(ep, interests, _) => InsertEachRaw(t.ix, interests, ep, v);
    case NewInterest(ep, interests) =>
      DeleteKeepsValid(t.ix, ep);
      InsertEachRaw(t.ix.Delete(ep), interests, ep, v);
    case GoOffline(ep, _) => DeleteKeepsValid(t.ix, ep);
    case _ =>
  }

  // So what a subject finds after a step can be read off the interests declared before it.
  lemma FoundAfter(t: Topic, p: Proposal, env: Env, hash: Hashing, v: EndpointAddr, subject: Bytes)
    requires t.ix.Valid()
    ensures v in Step(t, p, env, hash).ix.Find(subject) <==>
            exists i :: i in DeclaredAfter(RawOf(t.ix, v), p, v) && TextFinds(i, subject)
  {
    hide Step, Index.Valid, Index.Find, TextFinds, Admissible, RawOf, DeclaredAfter;
    InterestsAfter(t, p, env, hash, v);
    FoundIff(Step(t, p, env, hash).ix, subject, v);
  }

  // ----- The target of a push -----

  function Before(eps: set<EndpointAddr>, ep: EndpointAddr, hash: Hashing): set<EndpointAddr> {
    set v | v in eps && hash.ofEndpoint(v) < hash.ofEndpoint(ep)
  }

  lemma BeforeMore(eps: set<EndpointAddr>, e: EndpointAddr, ep: EndpointAddr, hash: Hashing)
    requires Distinct(hash, eps) && e in eps && ep in eps && e != ep && hash.ofEndpoint(e) <= hash.ofEndpoint(ep)
    ensures |Before(eps, ep, hash)| == 1 + |Before(eps - {e}, ep, hash)| && Distinct(hash, eps - {e})
  {
    assert Before(eps, ep, hash) == {e} + Before(eps - {e}, ep, hash);
  }

  lemma BeforeNone(eps: set<EndpointAddr>, e: EndpointAddr, hash: Hashing)
    requires forall v :: v in eps ==> hash.ofEndpoint(e) <= hash.ofEndpoint(v)
    ensures |Before(eps, e, hash)| == 0
  {
    forall v ensures v !in Before(eps, e, hash) {
      if v in eps {
        assert hash.ofEndpoint(e) <= hash.ofEndpoint(v);
      }
    }
    assert Before(eps, e, hash) == {};
  }

  lemma InRing(ring: seq<EndpointAddr>, eps: set<EndpointAddr>, hash: Hashing, i: nat)
    requires IsRing(ring, eps, hash) && i < |ring|
    ensures ring[i] in eps
  {
    assert ring[i] in Elements(ring);
  }

  // In the sorted ring the number of candidates before one is its position.
  lemma {:induction false} RingPosition(ring: seq<EndpointAddr>, eps: set<EndpointAddr>, hash: Hashing, i: nat)
    requires IsRing(ring, eps, hash) && Distinct(hash, eps) && i < |ring|
    ensures ring[i] in eps && |Before(eps, ring[i], hash)| == i
    decreases |ring|
  {
    hide *;
    InRing(ring, eps, hash, i);
    RingTail(ring, eps, hash);
    if i == 0 {
      BeforeNone(eps, ring[0], hash);
    } else {
      InRing(ring[1..], eps - {ring[0]}, hash, i - 1);
      BeforeMore(eps, ring[0], ring[i], hash);
      RingPosition(ring[1..], eps - {ring[0]}, hash, i - 1);
    }
  }

  lemma {:induction false} RingSize(ring: seq<EndpointAddr>, eps: set<EndpointAddr>, hash: Hashing)
    requires IsRing(ring, eps, hash)
    ensures |ring| == |eps|
    decreases |ring|
  {
    if eps == {} {
      ElementsEmpty(ring);
    } else {
      RingTail(ring, eps, hash);
      RingSize(ring[1..], eps - {ring[0]}, hash);
    }
  }

  // A push is for the interested endpoint that has as many others before it, by their hashes, as the
  // hash of the message leaves when divided by their number.
  lemma PushTarget(t: Topic, m: Message, env: Env, hash: Hashing, ep: EndpointAddr)
    requires m.target.Push? && t.ix.Valid() && Admissible(t, Delegate(m), env, hash)
    requires Interested(t.ix, m.subjects) != {} && Distinct(hash, Interested(t.ix, m.subjects))
    ensures env.ring != []
    ensures var eps := Interested(t.ix, m.subjects);
            Targets(t, m, env, hash) == {ep} <==>
            ep in eps && |Before(eps, ep, hash)| == hash.ofMessage(m.id) % |eps|
    ensures |Targets(t, m, env, hash)| == 1
  {
    hide Interested, Collect, Index.Valid;
    CollectIsInterested(t.ix, m.subjects);
    var eps, ring := Interested(t.ix, m.subjects), env.ring;
    RingTail(ring, eps, hash);
    RingSize(ring, eps, hash);
    var k := hash.ofMessage(m.id) % |eps|;
    RingPosition(ring, eps, hash, k);
    if ep in eps {
      assert ep in Elements(ring);
      var j :| 0 <= j < |ring| && ring[j] == ep;
      RingPosition(ring, eps, hash, j);
    }
    assert Targets(t, m, env, hash) == {ring[k]};
    assert ep in {ring[k]} <==> ep == ring[k];
  }

  // Messages whose hashes leave different remainders go to different endpoints.
  lemma PushesSpread(t: Topic, m: Message, n: Message, em: Env, en: Env, hash: Hashing)
    requires m.target.Push? && n.target.Push? && m.subjects == n.subjects && t.ix.Valid()
    requires Admissible(t, Delegate(m), em, hash) && Admissible(t, Delegate(n), en, hash)
    requires Interested(t.ix, m.subjects) != {} && Distinct(hash, Interested(t.ix, m.subjects))
    ensures em.ring != [] && en.ring != []
    ensures var count := |Interested(t.ix, m.subjects)|;
            Targets(t, m, em, hash) == Targets(t, n, en, hash) <==>
            hash.ofMessage(m.id) % count == hash.ofMessage(n.id) % count
  {
    hide Interested, Index.Valid, Admissible, Targets, Distinct;
    PushTarget(t, m, em, hash, 0);
    PushTarget(t, n, en, hash, 0);
    var a := Pick(Targets(t, m, em, hash));
    var b := Pick(Targets(t, n, en, hash));
    OnlyOne(Targets(t, m, em, hash), a);
    OnlyOne(Targets(t, n, en, hash), b);
    PushTarget(t, m, em, hash, a);
    PushTarget(t, n, en, hash, a);
    PushTarget(t, n, en, hash, b);
  }

  lemma OnlyOne<T>(s: set<T>, x: T)
    requires |s| == 1 && x in s
    ensures s == {x}
  {
    assert |s - {x}| == 0;
  }

  // ----- Held messages -----

  function StatusAt(h: HoldMessage, ep: EndpointAddr): Option<StatusKind> {
    if ep in h.waitAck.status then Some(h.waitAck.status[ep]) else None
  }

  // A durable message that the endpoint is interested in.
  ghost predicate Owed(ix: Index, h: HoldMessage, ep: EndpointAddr) {
    h.message.target.Durable? && ep in Interested(ix, h.message.subjects)
  }

  // What the proposal makes of the status of an endpoint, before anything is polled. `ix` is the index
  // after it.
  ghost function NotedAt(p: Proposal, ix: Index, h: HoldMessage, ep: EndpointAddr): Option<StatusKind> {
    var now := StatusAt(h, ep);
    match p
    case Delegate(_) => now
    case SetState(id, acks) =>
      if id == h.message.id && ep in acks && !(now.Some? && Over(now.value, h.waitAck.level)) then Some(acks[ep]) else now
    case GoOffline(gone, _) => if ep == gone && now.Some? then Some(Unreachable) else now
    case GoOnline(new_, _, _) => if ep == new_ && now.None? && Owed(ix, h, ep) then Some(Unsent) else now
    case NewInterest(new_, _) => if ep == new_ && now.None? && Owed(ix, h, ep) then Some(Unsent) else now
  }

  ghost predicate IsNoted(y: HoldMessage, p: Proposal, ix: Index, h: HoldMessage) {
    && y.message == h.message && y.waitAck.level == h.waitAck.level
    && forall ep :: StatusAt(y, ep) == NotedAt(p, ix, h, ep)
  }

  // The messages the proposal asks to poll.
  ghost predicate Asked(p: Proposal, ix: Index, h: HoldMessage) {
    match p
    case Delegate(_) => false
    case SetState(id, _) => id == h.message.id
    case GoOffline(gone, _) => StatusAt(h, gone).Some?
    case GoOnline(new_, _, _) => StatusAt(h, new_).None? && Owed(ix, h, new_)
    case NewInterest(new_, _) => Owed(ix, h, new_)
  }

  // Nothing is left to wait for.
  predicate Finished(y: HoldMessage, now: Time) {
    if !y.message.target.Durable? then forall ep :: ep in y.waitAck.status ==> Over(y.waitAck.status[ep], y.waitAck.level)
    else match y.message.durability
      case None => true
      case Some(d) => now > d.expire || (d.maxReceiver.Some? && |y.waitAck.status.Keys| >= d.maxReceiver.value)
  }

  // A queue that is not blocking polls what is asked for. A blocking one polls from the front, if that
  // is asked for, as far as the messages before are finished.
  ghost predicate IsPolled(blocking: bool, p: Proposal, ix: Index, q: seq<HoldMessage>, noted: seq<HoldMessage>,
                           now: Time, i: nat)
    requires i < |q| == |noted|
  {
    if !blocking then Asked(p, ix, q[i]) else Asked(p, ix, q[0]) && forall j :: 0 <= j < i ==> Finished(noted[j], now)
  }

  function ToSend(y: HoldMessage, reach: set<EndpointAddr>): set<EndpointAddr> {
    set ep | ep in y.waitAck.status && y.waitAck.status[ep] == Unsent && ep in reach
  }

  function SentStatus(y: HoldMessage, reach: set<EndpointAddr>): StatusMap {
    map ep | ep in y.waitAck.status :: if y.waitAck.status[ep] == Unsent && ep in reach then Sending else y.waitAck.status[ep]
  }

  function ResultOf(status: StatusMap): AckResult {
    if exists ep :: ep in status && HasFailed(status[ep]) then AckErr(status, None) else AckOk(status)
  }

  // A polled message is sent to whoever is unsent and can be reached; if it is finished it leaves with its
  // result.
  predicate Fares(y: HoldMessage, polled: bool, reach: set<EndpointAddr>, now: Time,
                  kept: seq<HoldMessage>, told: seq<Event>) {
    if !polled then kept == [y] && told == []
    else
      var status := SentStatus(y, reach);
      && kept == (if Finished(y, now) then [] else [HoldMessage(y.message, WaitAck(y.waitAck.level, status))])
      && told == (if ToSend(y, reach) == {} then [] else [Dispatch(y.message.id, ToSend(y, reach))])
                 + (if Finished(y, now) then [Leave(y.message.id, ResultOf(status))] else [])
  }

  function Concat<T>(s: seq<seq<T>>): seq<T> {
    if s == [] then [] else s[0] + Concat(s[1..])
  }

  // ----- Polling, written out -----

  lemma FinishedIff(y: HoldMessage, reach: set<EndpointAddr>, now: Time)
    ensures y.SendUnsent(reach).IsResolved(now) <==> Finished(y, now)
  {
    AllLevels();
    var sent := y.SendUnsent(reach);
    assert |sent.waitAck.status| == |sent.waitAck.status.Keys|;
    if !y.message.target.Durable? {
      forall ep | ep in y.waitAck.status
        ensures sent.waitAck.status[ep].IsResolved(y.waitAck.level) <==> Over(y.waitAck.status[ep], y.waitAck.level)
      {
      }
    }
  }

  lemma PollOneFares(y: HoldMessage, reach: set<EndpointAddr>, now: Time)
    ensures Fares(y, true, reach, now, PollOne(y, reach, now).queue, PollOne(y, reach, now).events)
  {
    FinishedIff(y, reach, now);
    AllLevels();
    var sent := y.SendUnsent(reach);
    assert y.Outgoing(reach) == ToSend(y, reach);
    assert sent.waitAck.status == SentStatus(y, reach);
    assert sent.Resolve() == ResultOf(sent.waitAck.status);
    assert SendEvents(y, reach) + [] == SendEvents(y, reach);
  }

  function KeptAt(y: HoldMessage, polled: bool, reach: set<EndpointAddr>, now: Time): seq<HoldMessage> {
    if polled then PollOne(y, reach, now).queue else [y]
  }

  function ToldAt(y: HoldMessage, polled: bool, reach: set<EndpointAddr>, now: Time): seq<Event> {
    if polled then PollOne(y, reach, now).events else []
  }

  lemma AtFares(y: HoldMessage, polled: bool, reach: set<EndpointAddr>, now: Time)
    ensures Fares(y, polled, reach, now, KeptAt(y, polled, reach, now), ToldAt(y, polled, reach, now))
  {
    hide PollOne;
    PollOneFares(y, reach, now);
  }

  function KeptAll(q: seq<HoldMessage>, polled: seq<bool>, reach: set<EndpointAddr>, now: Time): (r: seq<seq<HoldMessage>>)
    requires |polled| == |q|
    ensures |r| == |q| && forall i :: 0 <= i < |q| ==> r[i] == KeptAt(q[i], polled[i], reach, now)
  {
    seq(|q|, i requires 0 <= i < |q| => KeptAt(q[i], polled[i], reach, now))
  }

  function ToldAll(q: seq<HoldMessage>, polled: seq<bool>, reach: set<EndpointAddr>, now: Time): (r: seq<seq<Event>>)
    requires |polled| == |q|
    ensures |r| == |q| && forall i :: 0 <= i < |q| ==> r[i] == ToldAt(q[i], polled[i], reach, now)
  {
    seq(|q|, i requires 0 <= i < |q| => ToldAt(q[i], polled[i], reach, now))
  }

  lemma AllCons(q: seq<HoldMessage>, polled: seq<bool>, reach: set<EndpointAddr>, now: Time)
    requires |polled| == |q|
    ensures q == [] ==> Concat(KeptAll(q, polled, reach, now)) == [] && Concat(ToldAll(q, polled, reach, now)) == []
    ensures q != [] ==>
              && Concat(KeptAll(q, polled, reach, now)) ==
                 KeptAt(q[0], polled[0], reach, now) + Concat(KeptAll(q[1..], polled[1..], reach, now))
              && Concat(ToldAll(q, polled, reach, now)) ==
                 ToldAt(q[0], polled[0], reach, now) + Concat(ToldAll(q[1..], polled[1..], reach, now))
  {
    hide KeptAt, ToldAt;
    if q != [] {
      assert KeptAll(q, polled, reach, now)[1..] == KeptAll(q[1..], polled[1..], reach, now);
      assert ToldAll(q, polled, reach, now)[1..] == ToldAll(q[1..], polled[1..], reach, now);
    }
  }

  lemma {:induction false} NonePolled(q: seq<HoldMessage>, polled: seq<bool>, reach: set<EndpointAddr>, now: Time)
    requires |polled| == |q| && forall i :: 0 <= i < |q| ==> !polled[i]
    ensures Concat(KeptAll(q, polled, reach, now)) == q && Concat(ToldAll(q, polled, reach, now)) == []
  {
    hide KeptAll, ToldAll, Concat;
    AllCons(q, polled, reach, now);
    if q != [] {
      NonePolled(q[1..], polled[1..], reach, now);
      assert q == [q[0]] + q[1..];
    }
  }

  lemma {:induction false} PollEachAll(q: seq<HoldMessage>, ids: set<MessageId>, polled: seq<bool>,
                                       reach: set<EndpointAddr>, now: Time)
    requires |polled| == |q| && forall i :: 0 <= i < |q| ==> (polled[i] <==> q[i].Id() in ids)
    ensures PollEach(q, ids, reach, now) ==
            Polled(Concat(KeptAll(q, polled, reach, now)), Concat(ToldAll(q, polled, reach, now)))
  {
    hide KeptAll, ToldAll, Concat, PollEach, PollOne;
    AllCons(q, polled, reach, now);
    if q == [] {
      PollEachNil(ids, reach, now);
    } else {
      assert q == [q[0]] + q[1..];
      PollEachCons(q[0], q[1..], ids, reach, now);
      PollEachAll(q[1..], ids, polled[1..], reach, now);
    }
  }

  // Draining polls each message that all before it are finished.
  lemma {:induction false} DrainAll(q: seq<HoldMessage>, polled: seq<bool>, reach: set<EndpointAddr>, now: Time)
    requires |polled| == |q|
    requires forall i :: 0 <= i < |q| ==> (polled[i] <==> forall j :: 0 <= j < i ==> Finished(q[j], now))
    ensures Drain(q, reach, now) == Polled(Concat(KeptAll(q, polled, reach, now)), Concat(ToldAll(q, polled, reach, now)))
  {
    hide KeptAll, ToldAll, Concat, Drain, PollOne, Finished;
    AllCons(q, polled, reach, now);
    if q == [] {
      DrainNil(reach, now);
    } else {
      var h, rest := q[0], q[1..];
      assert q == [h] + rest;
      DrainCons(h, rest, reach, now);
      LeavesIff(h, reach, now);
      if Finished(h, now) {
        forall i | 0 <= i < |rest| ensures polled[1..][i] <==> forall j :: 0 <= j < i ==> Finished(rest[j], now) {
          AllBefore(q, i + 1, now);
        }
        DrainAll(rest, polled[1..], reach, now);
      } else {
        forall i | 0 <= i < |rest| ensures !polled[1..][i] {
          assert !Finished(q[0], now) && polled[1..][i] == polled[i + 1];
        }
        NonePolled(rest, polled[1..], reach, now);
      }
    }
  }

  lemma LeavesIff(y: HoldMessage, reach: set<EndpointAddr>, now: Time)
    ensures PollOne(y, reach, now).queue == [] <==> Finished(y, now)
  {
    hide Finished;
    FinishedIff(y, reach, now);
  }

  lemma AllBefore(q: seq<HoldMessage>, i: nat, now: Time)
    requires 0 < i <= |q|
    ensures (forall j :: 0 <= j < i ==> Finished(q[j], now)) <==>
            Finished(q[0], now) && forall j :: 0 <= j < i - 1 ==> Finished(q[1..][j], now)
  {
    hide Finished;
    if Finished(q[0], now) && forall j :: 0 <= j < i - 1 ==> Finished(q[1..][j], now) {
      forall j | 0 <= j < i ensures Finished(q[j], now) {
        if j > 0 {
          assert q[1..][j - 1] == q[j];
        }
      }
    }
  }

  lemma SettleAll(blocking: bool, q: seq<HoldMessage>, ids: set<MessageId>, polled: seq<bool>,
                  reach: set<EndpointAddr>, now: Time)
    requires |polled| == |q|
    requires forall i :: 0 <= i < |q| ==>
               (polled[i] <==>
                if blocking then q[0].Id() in ids && forall j :: 0 <= j < i ==> Finished(q[j], now)
                else q[i].Id() in ids)
    ensures Settle(blocking, q, ids, reach, now) ==
            Polled(Concat(KeptAll(q, polled, reach, now)), Concat(ToldAll(q, polled, reach, now)))
  {
    hide KeptAll, ToldAll, Concat, Drain, PollEach, Finished;
    if !blocking {
      PollEachAll(q, ids, polled, reach, now);
    } else if q != [] && q[0].Id() in ids {
      DrainAll(q, polled, reach, now);
    } else {
      NonePolled(q, polled, reach, now);
    }
  }

  // ----- Endpoint proposals and acks -----

  lemma TouchedIsNoted(t: Topic, p: Proposal, h: HoldMessage, ix: Index)
    requires !p.Delegate? && ix.Valid() && (p.OfEndpoint() ==> ix == Prepare(t, p).ix)
    ensures IsNoted(Touched(t, p, h), p, ix, h)
  {
    AllLevels();
    CollectIsInterested(ix, h.message.subjects);
    hide Interested, Collect, Index.Valid, Prepare;
  }

  lemma PollsIsAsked(t: Topic, p: Proposal, h: HoldMessage)
    requires p.OfEndpoint() && Prepare(t, p).ix.Valid()
    ensures Polls(t, p, h) <==> Asked(p, Prepare(t, p).ix, h)
  {
    CollectIsInterested(Prepare(t, p).ix, h.message.subjects);
    hide Interested, Collect, Index.Valid, Prepare;
  }

  // The ids that a step polls.
  ghost function PollIds(t: Topic, p: Proposal): set<MessageId>
    requires !p.Delegate?
  {
    if p.SetState? then {p.id} else NeedPoll(t, p)
  }

  lemma PollIdsAsked(t: Topic, p: Proposal, ix: Index, k: nat)
    requires !p.Delegate? && ix.Valid() && (p.OfEndpoint() ==> ix == Prepare(t, p).ix)
    requires NoRepeats(Ids(t.queue)) && k < |t.queue|
    ensures t.queue[k].Id() in PollIds(t, p) <==> Asked(p, ix, t.queue[k])
  {
    hide Interested, Index.Valid, Prepare, Polls, NoRepeats, Asked;
    var h := t.queue[k];
    assert h in t.queue;
    if p.OfEndpoint() {
      PollsIsAsked(t, p, h);
      if h.Id() in NeedPoll(t, p) {
        var g :| g in t.queue && Polls(t, p, g) && g.Id() == h.Id();
        SameMessage(t.queue, k, g);
      }
    } else {
      assert Asked(p, ix, h) <==> p.id == h.Id() by { AckAsks(p, ix, h); }
    }
  }

  lemma AckAsks(p: Proposal, ix: Index, h: HoldMessage)
    requires p.SetState?
    ensures Asked(p, ix, h) <==> p.id == h.Id()
  {
  }

  lemma ReadyIsNoted(t: Topic, p: Proposal, env: Env, hash: Hashing, ix: Index)
    requires !p.Delegate? && ix.Valid() && (p.OfEndpoint() ==> ix == Prepare(t, p).ix)
    ensures var noted := Ready(t, p, env, hash);
            && |noted| == |t.queue|
            && forall i :: 0 <= i < |noted| ==>
                 noted[i].Id() == t.queue[i].Id() && IsNoted(noted[i], p, ix, t.queue[i])
  {
    var noted := Ready(t, p, env, hash);
    hide Index.Valid, Index.InsertEach, Index.Delete, Wanted, HoldMessage.UpdateAcks, IsNoted;
    forall i | 0 <= i < |noted| ensures noted[i] == Touched(t, p, t.queue[i]) && IsNoted(noted[i], p, ix, t.queue[i]) {
      TouchedIsNoted(t, p, t.queue[i], ix);
    }
  }

  // A step other than a delegation, in full. Message by message: the statuses are noted, and what is
  // polled is sent, answered and kept or not as it fares. Nothing else is held, told or filed. The
  // order of what is told is fixed in a blocking topic and for acks.
  lemma StepWrittenOut(t: Topic, p: Proposal, env: Env, hash: Hashing)
    returns (noted: seq<HoldMessage>, kept: seq<seq<HoldMessage>>, told: seq<seq<Event>>)
    requires !p.Delegate? && t.ix.Valid() && NoRepeats(Ids(t.queue)) && Admissible(t, p, env, hash)
    ensures |noted| == |kept| == |told| == |t.queue|
    ensures var after := Step(t, p, env, hash);
            && (forall i :: 0 <= i < |t.queue| ==> IsNoted(noted[i], p, after.ix, t.queue[i]))
            && (forall i :: 0 <= i < |t.queue| ==>
                  Fares(noted[i], IsPolled(t.config.blocking, p, after.ix, t.queue, noted, env.now, i),
                        after.Reachable(env.node), env.now, kept[i], told[i]))
            && after.config == t.config && after.queue == Concat(kept)
            && multiset(after.events) == multiset(t.events + Concat(told))
            && (t.config.blocking || p.SetState? ==> after.events == t.events + Concat(told))
  {
    hide Settle, PollOne, Index.Valid, Prepare, NeedPoll, Asked, IsNoted, Finished, KeptAll, ToldAll, Fares,
         Concat, NoRepeats, Admissible, Ready, Touched;
    var after := Step(t, p, env, hash);
    var ix, reach := after.ix, after.Reachable(env.node);
    StepSettles(t, p, env, hash);
    noted := Ready(t, p, env, hash);
    ReadyIsNoted(t, p, env, hash, ix);
    var polled := seq(|noted|, i requires 0 <= i < |noted| => IsPolled(t.config.blocking, p, ix, t.queue, noted, env.now, i));
    forall k | 0 <= k < |t.queue| ensures noted[k].Id() in PollIds(t, p) <==> Asked(p, ix, t.queue[k]) {
      PollIdsAsked(t, p, ix, k);
    }
    SettleAll(t.config.blocking, noted, PollIds(t, p), polled, reach, env.now);
    kept, told := KeptAll(noted, polled, reach, env.now), ToldAll(noted, polled, reach, env.now);
    forall i | 0 <= i < |noted| ensures Fares(noted[i], polled[i], reach, env.now, kept[i], told[i]) {
      AtFares(noted[i], polled[i], reach, env.now);
    }
  }

  // The step is one settlement of the messages as noted.
  lemma StepSettles(t: Topic, p: Proposal, env: Env, hash: Hashing)
    requires !p.Delegate? && t.ix.Valid() && Admissible(t, p, env, hash)
    ensures var after := Step(t, p, env, hash);
            var s := Settle(t.config.blocking, Ready(t, p, env, hash), PollIds(t, p), after.Reachable(env.node), env.now);
            && after.ix.Valid() && (p.OfEndpoint() ==> after.ix == Prepare(t, p).ix)
            && after.config == t.config && after.queue == s.queue
            && multiset(after.events) == multiset(t.events + s.events)
            && (t.config.blocking || p.SetState? ==> after.events == t.events + s.events)
  {
    StepKeepsValid(t, p, env, hash);
    hide Settle, FlatMap, Prepare, NeedPoll, PollAll, Walk, Index.Valid;
    if p.OfEndpoint() {
      var ready := Prepare(t, p);
      EndpointStep(t, p, env, hash);
      PrepareKeepsRest(t, p);
      PollAllIsWalk(ready, env.walk, env);
      WalkIsSettle(t.config.blocking, ready.queue, env.walk, ready.Reachable(env.node), env.now);
      assert Elements(env.walk) == NeedPoll(t, p);
      assert Step(t, p, env, hash).Reachable(env.node) == ready.Reachable(env.node);
    }
  }

  lemma PrepareKeepsRest(t: Topic, p: Proposal)
    requires p.OfEndpoint()
    ensures Prepare(t, p).config == t.config && Prepare(t, p).events == t.events && Prepare(t, p).commands == t.commands
  {
  }

  // ----- Durable commands -----

  lemma {:induction false} ArchivesCount(events: seq<Event>, c: DurableCommand)
    ensures multiset(FlatMap(ArchiveOf, events))[c] == if c.Archive? then multiset(FlatMap(LeftOf, events))[c.id] else 0
  {
    if events != [] {
      var e, rest := events[0], events[1..];
      assert events == [e] + rest;
      FlatMapCons(ArchiveOf, e, rest);
      FlatMapCons(LeftOf, e, rest);
      ArchivesCount(rest, c);
    }
  }

  lemma GoneCount(held: seq<MessageId>, left: seq<MessageId>, rest: seq<MessageId>, id: MessageId)
    requires NoRepeats(held) && multiset(left) + multiset(rest) == multiset(held)
    ensures multiset(left)[id] == if id in held && id !in rest then 1 else 0
  {
    NoRepeatsCount(held);
    hide NoRepeats;
    assert multiset(held)[id] == multiset(left)[id] + multiset(rest)[id];
    assert id in held <==> multiset(held)[id] > 0;
    assert id in rest <==> multiset(rest)[id] > 0;
  }

  ghost predicate IsUpdate(t: Topic, p: Proposal, ix: Index, c: DurableCommand) {
    if p.SetState? then c == UpdateStatus(p.id, p.acks)
    else exists h :: h in t.queue && Asked(p, ix, h) && c == UpdateStatus(h.Id(), map[])
  }

  // The durable commands of a step other than a delegation: the acks as they came, or an empty update
  // for each message that is asked for; and an archive for each message that goes out of the queue.
  lemma CommandsWrittenOut(t: Topic, p: Proposal, env: Env, hash: Hashing, c: DurableCommand)
    requires !p.Delegate? && t.ix.Valid() && NoRepeats(Ids(t.queue)) && Admissible(t, p, env, hash)
    ensures var after := Step(t, p, env, hash);
            multiset(after.commands)[c] == multiset(t.commands)[c]
              + (if IsUpdate(t, p, after.ix, c) then 1 else 0)
              + (if c.Archive? && c.id in Ids(t.queue) && c.id !in Ids(after.queue) then 1 else 0)
  {
    var after := Step(t, p, env, hash);
    var s := Settle(t.config.blocking, Ready(t, p, env, hash), PollIds(t, p), after.Reachable(env.node), env.now);
    StepSettles(t, p, env, hash);
    StepFiles(t, p, env, hash);
    ReadyIsNoted(t, p, env, hash, after.ix);
    hide Step, Settle, FlatMap, Ready, PollIds, NoRepeats, Asked, IsNoted, StatusUpdates;
    var held := Ids(Ready(t, p, env, hash));
    assert held == Ids(t.queue);
    SettleBalance(t.config.blocking, Ready(t, p, env, hash), PollIds(t, p), after.Reachable(env.node), env.now);
    ArchivesCount(s.events, c);
    if c.Archive? {
      GoneCount(held, FlatMap(LeftOf, s.events), Ids(s.queue), c.id);
    }
    UpdatesCount(t, p, env, hash, after.ix, c);
    var filed := Updates(p, env) + FlatMap(ArchiveOf, s.events);
    assert multiset(filed)[c] == multiset(Updates(p, env))[c] + multiset(FlatMap(ArchiveOf, s.events))[c];
  }

  function Updates(p: Proposal, env: Env): seq<DurableCommand>
    requires !p.Delegate?
  {
    if p.SetState? then [UpdateStatus(p.id, p.acks)] else StatusUpdates(env.walk)
  }

  lemma StepFiles(t: Topic, p: Proposal, env: Env, hash: Hashing)
    requires !p.Delegate? && t.ix.Valid() && Admissible(t, p, env, hash)
    ensures var after := Step(t, p, env, hash);
            var s := Settle(t.config.blocking, Ready(t, p, env, hash), PollIds(t, p), after.Reachable(env.node), env.now);
            multiset(after.commands) == multiset(t.commands) + multiset(Updates(p, env) + FlatMap(ArchiveOf, s.events))
  {
    hide Settle, FlatMap, Prepare, NeedPoll, PollAll, Walk, Index.Valid, StatusUpdates;
    if p.OfEndpoint() {
      var ready := Prepare(t, p);
      EndpointStep(t, p, env, hash);
      PrepareKeepsRest(t, p);
      PollAllCommands(ready, env.walk, env);
      WalkIsSettle(t.config.blocking, ready.queue, env.walk, ready.Reachable(env.node), env.now);
      assert Elements(env.walk) == NeedPoll(t, p);
      assert Step(t, p, env, hash).Reachable(env.node) == ready.Reachable(env.node);
      var s := Settle(t.config.blocking, ready.queue, NeedPoll(t, p), ready.Reachable(env.node), env.now);
      FlatMapPermuted(ArchiveOf, WalkResult(ready, env.walk, env).events, s.events);
      var u, a := StatusUpdates(env.walk), FlatMap(ArchiveOf, s.events);
      assert multiset(u + a) == multiset(u) + multiset(a);
    } else {
      var s := FlushResult(Note(t, p.id, p.acks), p.id, env);
      var a := FlatMap(ArchiveOf, s.events);
      Assoc(t.commands, [UpdateStatus(p.id, p.acks)], a);
    }
  }

  lemma UpdatesCount(t: Topic, p: Proposal, env: Env, hash: Hashing, ix: Index, c: DurableCommand)
    requires !p.Delegate? && ix.Valid() && (p.OfEndpoint() ==> ix == Prepare(t, p).ix)
    requires NoRepeats(Ids(t.queue)) && Admissible(t, p, env, hash)
    ensures multiset(Updates(p, env))[c] == if IsUpdate(t, p, ix, c) then 1 else 0
  {
    hide Prepare, Index.Valid, Asked, Polls, StatusUpdates, NoRepeats, NeedPoll;
    if p.OfEndpoint() {
      assert NoRepeats(env.walk) && Elements(env.walk) == NeedPoll(t, p);
      StatusUpdatesCount(env.walk, c);
      NeedIsAsked(t, p);
      if c.UpdateStatus? {
        assert c.id in env.walk <==> c.id in Elements(env.walk);
      }
    }
  }

  lemma NeedIsAsked(t: Topic, p: Proposal)
    requires p.OfEndpoint() && Prepare(t, p).ix.Valid()
    ensures forall id :: id in NeedPoll(t, p) <==> exists h :: h in t.queue && Asked(p, Prepare(t, p).ix, h) && h.Id() == id
  {
    hide Prepare, Index.Valid, Asked, Polls;
    forall h | h in t.queue ensures Polls(t, p, h) <==> Asked(p, Prepare(t, p).ix, h) {
      PollsIsAsked(t, p, h);
    }
    forall id ensures id in NeedPoll(t, p) <==> exists h :: h in t.queue && Asked(p, Prepare(t, p).ix, h) && h.Id() == id {
      if h :| h in t.queue && Asked(p, Prepare(t, p).ix, h) && h.Id() == id {
        assert Polls(t, p, h);
      }
    }
  }

  // ----- Delegations -----

  // The message as it is put in the queue: all that it is for are unsent.
  function NewMessage(m: Message, targets: set<EndpointAddr>): HoldMessage {
    HoldMessage(m, WaitAck(m.ackKind, map ep | ep in targets :: Unsent))
  }

  function Overflown(id: MessageId): Event {
    Leave(id, AckErr(map[], Some(Overflow)))
  }

  predicate IsFull(t: Topic) {
    t.config.overflow.Some? && |t.queue| >= t.config.overflow.value.size
  }

  // A delegation, in full. A push that nobody is interested in is refused, and so is a message for a
  // full topic that rejects. Otherwise a full topic drops its front; the message is put behind the
  // others, unsent for all the interested endpoints, or for the one that a push chooses; and it is
  // polled, unless a blocking topic has others before it. All of this is recorded.
  lemma DelegateWrittenOut(t: Topic, m: Message, env: Env, hash: Hashing)
    returns (targets: set<EndpointAddr>, kept: seq<HoldMessage>, told: seq<Event>)
    requires t.ix.Valid() && m.id !in Ids(t.queue) && Admissible(t, Delegate(m), env, hash)
    ensures var after, eps := Step(t, Delegate(m), env, hash), Interested(t.ix, m.subjects);
            if m.target.Push? && eps == {} then
              after == t.(events := t.events + [Refuse(m.id, AckErr(map[], Some(NoAvailableTarget)))])
            else if IsFull(t) && t.config.overflow.value.policy == RejectNew then
              after == t.(events := t.events + [Refuse(m.id, AckErr(map[], Some(Overflow)))])
            else
              var others := if IsFull(t) then t.queue[1..] else t.queue;
              var polled := !t.config.blocking || others == [];
              var new_ := NewMessage(m, targets);
              && (if m.target.Push? then |targets| == 1 && targets <= eps else targets == eps)
              && Fares(new_, polled, t.Reachable(env.node), env.now, kept, told)
              && after == t.(queue := others + kept, events := after.events, commands := after.commands)
              && after.events == t.events + (if IsFull(t) then [Overflown(t.queue[0].Id())] else []) + told
              && after.commands == t.commands + [Create(m), UpdateStatus(m.id, map[])]
                                   + (if kept == [] then [Archive(m.id)] else [])
    ensures m.target.Push? && Interested(t.ix, m.subjects) != {} ==> env.ring != [] && targets == Targets(t, m, env, hash)
  {
    hide PollEach, Drain, FlatMap, Interested, Collect, PollOne, Index.Valid, Fares, Put, Targets;
    CollectIsInterested(t.ix, m.subjects);
    targets, kept, told := {}, [], [];
    var eps := Interested(t.ix, m.subjects);
    if m.target.Push? {
      ElementsEmpty(env.ring);
    }
    if !(m.target.Push? && eps == {}) {
      targets := Targets(t, m, env, hash);
      if m.target.Push? {
        PushIsOne(t, m, env, hash, eps);
      } else {
        AllAreTargets(t, m, env, hash);
      }
      assert Hold(t, m, env, hash) == NewMessage(m, targets);
      kept, told := PutWrittenOut(t, NewMessage(m, targets), env);
    }
  }

  lemma AllAreTargets(t: Topic, m: Message, env: Env, hash: Hashing)
    requires !m.target.Push?
    ensures Targets(t, m, env, hash) == Collect(t.ix, m.subjects)
  {
  }

  // The overflow policy and the push.
  lemma PutWrittenOut(t: Topic, h: HoldMessage, env: Env) returns (kept: seq<HoldMessage>, told: seq<Event>)
    requires h.Id() !in Ids(t.queue)
    ensures var after := Put(t, h, env);
            if IsFull(t) && t.config.overflow.value.policy == RejectNew then
              after == t.(events := t.events + [Refuse(h.Id(), AckErr(map[], Some(Overflow)))])
            else
              var others := if IsFull(t) then t.queue[1..] else t.queue;
              && Fares(h, !t.config.blocking || others == [], t.Reachable(env.node), env.now, kept, told)
              && after == t.(queue := others + kept, events := after.events, commands := after.commands)
              && after.events == t.events + (if IsFull(t) then [Overflown(t.queue[0].Id())] else []) + told
              && after.commands == t.commands + [Create(h.message), UpdateStatus(h.Id(), map[])]
                                   + (if kept == [] then [Archive(h.Id())] else [])
  {
    hide Fares, UpdateAndFlush, KeptAt, ToldAt;
    kept, told := [], [];
    if !(IsFull(t) && t.config.overflow.value.policy == RejectNew) {
      var room := if IsFull(t) then DropFront(t) else t;
      var polled, reach := !t.config.blocking || room.queue == [], t.Reachable(env.node);
      kept, told := KeptAt(h, polled, reach, env.now), ToldAt(h, polled, reach, env.now);
      AtFares(h, polled, reach, env.now);
      FreshInRoom(t, h.Id());
      PushWrittenOut(room, h, env);
    }
  }

  lemma PushWrittenOut(t: Topic, h: HoldMessage, env: Env)
    requires h.Id() !in Ids(t.queue)
    ensures var after := UpdateAndFlush(Enqueue(t, h), h.Id(), map[], env);
            var polled, reach := !t.config.blocking || t.queue == [], t.Reachable(env.node);
            var kept, told := KeptAt(h, polled, reach, env.now), ToldAt(h, polled, reach, env.now);
            && after == t.(queue := t.queue + kept, events := t.events + told, commands := after.commands)
            && after.commands == t.commands + [Create(h.message), UpdateStatus(h.Id(), map[])]
                                 + (if kept == [] then [Archive(h.Id())] else [])
  {
    hide FlatMap, Settle, KeptAt, ToldAt;
    var polled, reach := !t.config.blocking || t.queue == [], t.Reachable(env.node);
    NewSettles(t.config.blocking, t.queue, h, reach, env.now);
    EmptyUpdate(Enqueue(t, h), h.Id(), env);
    NewFiles(h, polled, reach, env.now);
    Assoc(t.commands, [Create(h.message)], [UpdateStatus(h.Id(), map[])]);
    assert [Create(h.message)] + [UpdateStatus(h.Id(), map[])] == [Create(h.message), UpdateStatus(h.Id(), map[])];
  }

  lemma PushIsOne(t: Topic, m: Message, env: Env, hash: Hashing, eps: set<EndpointAddr>)
    requires m.target.Push? && IsRing(env.ring, eps, hash) && env.ring != []
    ensures |Targets(t, m, env, hash)| == 1 && Targets(t, m, env, hash) <= eps
  {
    var ep := env.ring[hash.ofMessage(m.id) % |env.ring|];
    assert ep in Elements(env.ring);
    assert Targets(t, m, env, hash) == {ep};
  }

  lemma NewSettles(blocking: bool, q: seq<HoldMessage>, h: HoldMessage, reach: set<EndpointAddr>, now: Time)
    requires h.Id() !in Ids(q)
    ensures var polled := !blocking || q == [];
            Settle(blocking, q + [h], {h.Id()}, reach, now) ==
            Polled(q + KeptAt(h, polled, reach, now), ToldAt(h, polled, reach, now))
  {
    hide KeptAll, ToldAll, Concat, PollOne, PollEach, Drain;
    var all, p := q + [h], !blocking || q == [];
    var polled := seq(|all|, i requires 0 <= i < |all| => p && i == |q|);
    forall i | 0 <= i < |all| ensures all[i].Id() in {h.Id()} <==> i == |q| {
      assert i < |q| ==> Ids(q)[i] == all[i].Id();
    }
    SettleAll(blocking, all, {h.Id()}, polled, reach, now);
    LastPolled(q, h, polled, reach, now);
  }

  lemma {:induction false} LastPolled(q: seq<HoldMessage>, h: HoldMessage, polled: seq<bool>,
                                      reach: set<EndpointAddr>, now: Time)
    requires |polled| == |q| + 1 && forall i :: 0 <= i < |q| ==> !polled[i]
    ensures Concat(KeptAll(q + [h], polled, reach, now)) == q + KeptAt(h, polled[|q|], reach, now)
    ensures Concat(ToldAll(q + [h], polled, reach, now)) == ToldAt(h, polled[|q|], reach, now)
    decreases q
  {
    hide KeptAll, ToldAll, Concat, PollOne, KeptAt, ToldAt;
    var all := q + [h];
    AllCons(all, polled, reach, now);
    if q == [] {
      AllCons([], [], reach, now);
      assert all[1..] == [] && polled[1..] == [];
      assert [] + KeptAt(h, polled[0], reach, now) == KeptAt(h, polled[0], reach, now) + [];
      assert ToldAt(h, polled[0], reach, now) + [] == ToldAt(h, polled[0], reach, now);
    } else {
      assert all[1..] == q[1..] + [h];
      LastPolled(q[1..], h, polled[1..], reach, now);
      NotPolled(q[0], reach, now);
      assert q == [q[0]] + q[1..];
      Assoc([q[0]], q[1..], KeptAt(h, polled[|q|], reach, now));
      assert [] + ToldAt(h, polled[|q|], reach, now) == ToldAt(h, polled[|q|], reach, now);
    }
  }

  lemma NotPolled(y: HoldMessage, reach: set<EndpointAddr>, now: Time)
    ensures KeptAt(y, false, reach, now) == [y] && ToldAt(y, false, reach, now) == []
  {
  }

  lemma NewFiles(h: HoldMessage, polled: bool, reach: set<EndpointAddr>, now: Time)
    ensures FlatMap(ArchiveOf, ToldAt(h, polled, reach, now)) ==
            if KeptAt(h, polled, reach, now) == [] then [Archive(h.Id())] else []
  {
    if polled {
      var sends := SendEvents(h, reach);
      var leave := LeaveEvent(h.SendUnsent(reach));
      if sends != [] {
        FlatMapCons(ArchiveOf, sends[0], []);
      }
      FlatMapConcat(ArchiveOf, sends, [leave]);
      FlatMapCons(ArchiveOf, leave, []);
    }
  }
}
