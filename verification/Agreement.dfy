// Replicas that apply the same log agree, although their node ids, clocks and hash-set orders differ.

module Agreement {
  import opened Messages
  import opened Levels
  import opened Lists
  import opened Tries
  import opened HoldQueue
  import opened Topics

  function NormQueue(q: seq<HoldMessage>): (r: seq<HoldMessage>)
    ensures |r| == |q| && forall i :: 0 <= i < |q| ==> r[i] == q[i].Norm()
  {
    seq(|q|, i requires 0 <= i < |q| => q[i].Norm())
  }

  function NormResult(r: AckResult): AckResult {
    match r
    case AckOk(status) => AckOk(NormStatus(status))
    case AckErr(status, exception) => AckErr(NormStatus(status), exception)
  }

  // Dispatches happen on the hosting node only; ack results are the same everywhere up to Unsent
  // versus Sending.
  function NormEvent(e: Event): seq<Event> {
    match e
    case Dispatch(_, _) => []
    case Refuse(_, _) => [e]
    case Leave(id, result) => [Leave(id, NormResult(result))]
  }

  function NormEvents(events: seq<Event>): seq<Event> {
    FlatMap(NormEvent, events)
  }

  function NormPolled(p: Polled): Polled {
    Polled(NormQueue(p.queue), NormEvents(p.events))
  }

  // What replicas have in common.
  datatype View = View(
    config: TopicConfig,
    routing: map<NodeId, set<EndpointAddr>>,
    raw: RawInterests,
    queue: seq<HoldMessage>,
    acks: multiset<Event>,
    commands: multiset<DurableCommand>
  )

  function ViewOf(t: Topic): View {
    View(t.config, t.routing, t.ix.raw, NormQueue(t.queue), multiset(NormEvents(t.events)), multiset(t.commands))
  }

  // ----- What having the same view means -----

  // Equal, or one of them being sent where the other is unsent.
  predicate SameStatus(a: StatusKind, b: StatusKind) {
    a == b || ((a.Unsent? || a.Sending?) && (b.Unsent? || b.Sending?))
  }

  predicate SameStatuses(a: StatusMap, b: StatusMap) {
    a.Keys == b.Keys && forall ep :: ep in a ==> SameStatus(a[ep], b[ep])
  }

  predicate SameQueue(a: seq<HoldMessage>, b: seq<HoldMessage>) {
    && |a| == |b|
    && forall i :: 0 <= i < |a| ==>
                     && a[i].message == b[i].message && a[i].waitAck.level == b[i].waitAck.level
                     && SameStatuses(a[i].waitAck.status, b[i].waitAck.status)
  }

  predicate SameResult(a: AckResult, b: AckResult) {
    && SameStatuses(a.status, b.status)
    && (a.AckOk? <==> b.AckOk?) && (a.AckErr? && b.AckErr? ==> a.exception == b.exception)
  }

  lemma NormStatusIff(a: StatusMap, b: StatusMap)
    ensures NormStatus(a) == NormStatus(b) <==> SameStatuses(a, b)
  {
    if NormStatus(a) == NormStatus(b) {
      assert a.Keys == NormStatus(a).Keys == NormStatus(b).Keys == b.Keys;
      forall ep | ep in a ensures SameStatus(a[ep], b[ep]) {
        assert NormStatus(a)[ep] == NormStatus(b)[ep];
        NormIff(a[ep], b[ep]);
      }
    }
    if SameStatuses(a, b) {
      forall ep | ep in a ensures NormStatus(a)[ep] == NormStatus(b)[ep] {
        NormIff(a[ep], b[ep]);
      }
    }
  }

  lemma NormQueueIff(a: seq<HoldMessage>, b: seq<HoldMessage>)
    ensures NormQueue(a) == NormQueue(b) <==> SameQueue(a, b)
  {
    hide SameStatuses, NormStatus;
    if NormQueue(a) == NormQueue(b) {
      assert |a| == |NormQueue(a)| == |NormQueue(b)| == |b|;
      forall i | 0 <= i < |a|
        ensures a[i].message == b[i].message && a[i].waitAck.level == b[i].waitAck.level
        ensures SameStatuses(a[i].waitAck.status, b[i].waitAck.status)
      {
        assert a[i].Norm() == NormQueue(a)[i] == NormQueue(b)[i] == b[i].Norm();
        NormStatusIff(a[i].waitAck.status, b[i].waitAck.status);
      }
    }
    if SameQueue(a, b) {
      forall i | 0 <= i < |a| ensures a[i].Norm() == b[i].Norm() {
        NormStatusIff(a[i].waitAck.status, b[i].waitAck.status);
      }
    }
  }

  // What is compared of an event: nothing of a dispatch, all of a refusal, the result of a message that
  // leaves up to Unsent versus Sending.
  lemma NormEventIff(a: Event, b: Event)
    ensures NormEvent(a) == NormEvent(b) <==>
            || (a.Dispatch? && b.Dispatch?)
            || (a.Refuse? && a == b)
            || (a.Leave? && b.Leave? && a.id == b.id && SameResult(a.result, b.result))
    ensures NormEvent(a) == [] <==> a.Dispatch?
  {
    hide SameStatuses, NormStatus;
    if a.Leave? && b.Leave? {
      NormStatusIff(a.result.status, b.result.status);
      assert NormEvent(a)[0] == Leave(a.id, NormResult(a.result)) && NormEvent(b)[0] == Leave(b.id, NormResult(b.result));
    }
    if a.Refuse? && NormEvent(a) == NormEvent(b) {
      assert NormEvent(a)[0] == a;
    }
    if b.Refuse? && NormEvent(a) == NormEvent(b) {
      assert NormEvent(b)[0] == b;
    }
  }

  lemma {:induction false} NormEventsHave(events: seq<Event>, e: Event)
    requires e in events && !e.Dispatch?
    ensures NormEvent(e)[0] in NormEvents(events)
  {
    assert events == [events[0]] + events[1..];
    if e == events[0] {
      assert NormEvents(events) == NormEvent(e) + NormEvents(events[1..]);
    } else {
      NormEventsHave(events[1..], e);
    }
  }

  lemma {:induction false} NormEventsOnly(events: seq<Event>, n: Event) returns (e: Event)
    requires n in NormEvents(events)
    ensures e in events && !e.Dispatch? && NormEvent(e) == [n]
  {
    if n in NormEvent(events[0]) {
      e := events[0];
    } else {
      e := NormEventsOnly(events[1..], n);
    }
  }

  ghost predicate HasResult(events: seq<Event>, e: Event)
    requires !e.Dispatch?
  {
    exists f :: f in events && !f.Dispatch? && f.id == e.id && (f.Refuse? <==> e.Refuse?) && SameResult(f.result, e.result)
  }

  // Two replicas with the same view hold the same messages in the same order, with the same statuses but
  // for Unsent versus Sending; have the same routing and interests; have given every message the same
  // result; and have issued the same durable commands.
  lemma ViewMeans(a: Topic, b: Topic)
    requires ViewOf(a) == ViewOf(b)
    ensures a.config == b.config && a.routing == b.routing && a.ix.raw == b.ix.raw && SameQueue(a.queue, b.queue)
    ensures multiset(a.commands) == multiset(b.commands)
    ensures forall e :: e in a.events && !e.Dispatch? ==> HasResult(b.events, e)
  {
    hide FlatMap, SameStatuses, NormStatus;
    NormQueueIff(a.queue, b.queue);
    forall e | e in a.events && !e.Dispatch? ensures HasResult(b.events, e) {
      NormEventsHave(a.events, e);
      var n := NormEvent(e)[0];
      assert n in multiset(NormEvents(a.events)) && n in NormEvents(b.events);
      var f := NormEventsOnly(b.events, n);
      NormEventIff(f, e);
      SameAsSelf(e.result.status);
    }
  }

  lemma SameAsSelf(status: StatusMap)
    ensures SameStatuses(status, status)
  {
  }

  // ----- Polling, seen without the dispatches -----

  lemma NormMessage(h: HoldMessage, reach: set<EndpointAddr>, now: Time)
    ensures h.SendUnsent(reach).Norm() == h.Norm() == h.Norm().SendUnsent({}) == h.Norm().Norm()
    ensures h.SendUnsent(reach).IsResolved(now) == h.Norm().IsResolved(now)
    ensures NormResult(h.Resolve()) == h.Norm().Resolve()
    ensures h.Norm().Outgoing({}) == {}
  {
    var sent, norm := h.SendUnsent(reach), h.Norm();
    forall ep | ep in h.waitAck.status
      ensures sent.Norm().waitAck.status[ep] == norm.waitAck.status[ep]
      ensures norm.SendUnsent({}).waitAck.status[ep] == norm.waitAck.status[ep]
      ensures norm.Norm().waitAck.status[ep] == norm.waitAck.status[ep]
    {
      assert ep in h.Outgoing(reach) ==> h.waitAck.status[ep].Unsent?;
      assert ep !in norm.Outgoing({});
    }
    assert sent.Norm().waitAck.status == norm.waitAck.status;
    assert norm.SendUnsent({}).waitAck.status == norm.waitAck.status;
    assert norm.Norm().waitAck.status == norm.waitAck.status;
    NormResolved(h, now);
    NormResolved(sent, now);
    assert forall ep :: ep in h.waitAck.status ==> h.Norm().waitAck.status[ep].IsFailed() == h.waitAck.status[ep].IsFailed();
  }

  lemma NormResolved(h: HoldMessage, now: Time)
    ensures h.Norm().IsResolved(now) == h.IsResolved(now)
  {
    assert |h.Norm().waitAck.status| == |h.Norm().waitAck.status.Keys| == |h.waitAck.status.Keys| == |h.waitAck.status|;
    assert forall ep :: ep in h.waitAck.status ==>
      h.Norm().waitAck.status[ep].IsResolved(h.waitAck.level) ==
        h.waitAck.status[ep].IsResolved(h.waitAck.level);
  }

  lemma NormSends(h: HoldMessage, reach: set<EndpointAddr>)
    ensures NormEvents(SendEvents(h, reach)) == []
  {
    if h.Outgoing(reach) != {} {
      FlatMapCons(NormEvent, SendEvents(h, reach)[0], []);
    }
  }

  lemma NormLeave(h: HoldMessage, reach: set<EndpointAddr>)
    ensures NormEvents(SendEvents(h, reach) + [LeaveEvent(h.SendUnsent(reach))]) == [LeaveEvent(h.Norm())]
  {
    NormSends(h, reach);
    var sent := h.SendUnsent(reach);
    NormMessage(h, reach, 0);
    NormMessage(sent, reach, 0);
    FlatMapConcat(NormEvent, SendEvents(h, reach), [LeaveEvent(sent)]);
    FlatMapCons(NormEvent, LeaveEvent(sent), []);
  }

  lemma NormPollOne(h: HoldMessage, reach: set<EndpointAddr>, now: Time)
    ensures NormPolled(PollOne(h, reach, now)) == PollOne(h.Norm(), {}, now)
  {
    NormSends(h, reach);
    NormLeave(h, reach);
    NormMessage(h, reach, now);
  }

  lemma NormPollIf(h: HoldMessage, ids: set<MessageId>, reach: set<EndpointAddr>, now: Time)
    ensures NormPolled(PollIf(h, ids, reach, now)) == PollIf(h.Norm(), ids, {}, now)
  {
    hide PollOne;
    NormPollOne(h, reach, now);
  }

  lemma NormJoin(a: Polled, b: Polled)
    ensures NormPolled(Join(a, b)) == Join(NormPolled(a), NormPolled(b))
  {
    FlatMapConcat(NormEvent, a.events, b.events);
  }

  lemma {:induction false} NormPollEach(q: seq<HoldMessage>, ids: set<MessageId>, reach: set<EndpointAddr>, now: Time)
    ensures NormPolled(PollEach(q, ids, reach, now)) == PollEach(NormQueue(q), ids, {}, now)
  {
    if q != [] {
      var h, rest := q[0], q[1..];
      assert q == [h] + rest && NormQueue(q) == [h.Norm()] + NormQueue(rest);
      PollEachCons(h, rest, ids, reach, now);
      PollEachCons(h.Norm(), NormQueue(rest), ids, {}, now);
      hide *;
      NormPollIf(h, ids, reach, now);
      NormPollEach(rest, ids, reach, now);
      NormJoin(PollIf(h, ids, reach, now), PollEach(rest, ids, reach, now));
    }
  }

  lemma NormQueueCons(h: HoldMessage, rest: seq<HoldMessage>)
    ensures NormQueue([h] + rest) == [h.Norm()] + NormQueue(rest)
  {
  }

  lemma NormParts(one: Polled, rest: seq<HoldMessage>)
    ensures NormPolled(one).queue == [] <==> one.queue == []
    ensures NormPolled(Polled(rest, [])) == Polled(NormQueue(rest), [])
  {
  }

  lemma NormNone()
    ensures NormQueue([]) == [] && NormPolled(Polled([], [])) == Polled([], [])
  {
  }

  lemma {:induction false} NormDrain(q: seq<HoldMessage>, reach: set<EndpointAddr>, now: Time)
    ensures NormPolled(Drain(q, reach, now)) == Drain(NormQueue(q), {}, now)
  {
    if q == [] {
      DrainNil(reach, now);
      NormNone();
    } else {
      hide *;
      var h, rest := q[0], q[1..];
      assert q == [h] + rest;
      NormQueueCons(h, rest);
      NormParts(PollOne(h, reach, now), rest);
      DrainCons(h, rest, reach, now);
      DrainCons(h.Norm(), NormQueue(rest), {}, now);
      var one := PollOne(h, reach, now);
      NormPollOne(h, reach, now);
      NormDrain(rest, reach, now);
      NormJoin(one, if one.queue == [] then Drain(rest, reach, now) else Polled(rest, []));
    }
  }

  lemma NormSettle(blocking: bool, q: seq<HoldMessage>, ids: set<MessageId>, reach: set<EndpointAddr>, now: Time)
    ensures NormPolled(Settle(blocking, q, ids, reach, now)) == Settle(blocking, NormQueue(q), ids, {}, now)
  {
    hide PollEach, Drain;
    NormPollEach(q, ids, reach, now);
    NormDrain(q, reach, now);
  }

  // ----- Clocks -----

  ghost predicate SameExpiry(q: seq<HoldMessage>, n1: Time, n2: Time) {
    forall h :: h in q ==> h.message.Expired(n1) == h.message.Expired(n2)
  }

  lemma {:induction false} PollEachClock(q: seq<HoldMessage>, ids: set<MessageId>, reach: set<EndpointAddr>,
                                         n1: Time, n2: Time)
    requires SameExpiry(q, n1, n2)
    ensures PollEach(q, ids, reach, n1) == PollEach(q, ids, reach, n2)
  {
    if q != [] {
      PollEachClock(q[1..], ids, reach, n1, n2);
      assert q[0].SendUnsent(reach).IsResolved(n1) == q[0].SendUnsent(reach).IsResolved(n2);
    }
  }

  lemma {:induction false} DrainClock(q: seq<HoldMessage>, reach: set<EndpointAddr>, n1: Time, n2: Time)
    requires SameExpiry(q, n1, n2)
    ensures Drain(q, reach, n1) == Drain(q, reach, n2)
  {
    if q != [] {
      DrainClock(q[1..], reach, n1, n2);
      assert q[0].SendUnsent(reach).IsResolved(n1) == q[0].SendUnsent(reach).IsResolved(n2);
    }
  }

  lemma SettleClock(blocking: bool, q: seq<HoldMessage>, ids: set<MessageId>, n1: Time, n2: Time)
    requires SameExpiry(q, n1, n2)
    ensures Settle(blocking, q, ids, {}, n1) == Settle(blocking, q, ids, {}, n2)
  {
    hide PollEach, Drain;
    PollEachClock(q, ids, {}, n1, n2);
    DrainClock(q, {}, n1, n2);
  }

  // ----- Two replicas -----

  // Same normal form, and clocks that agree on what has expired.
  ghost predicate Twins(q1: seq<HoldMessage>, q2: seq<HoldMessage>, n1: Time, n2: Time) {
    NormQueue(q1) == NormQueue(q2) && SameExpiry(q1, n1, n2)
  }

  lemma SettleAgrees(blocking: bool, q1: seq<HoldMessage>, q2: seq<HoldMessage>, ids: set<MessageId>,
                     r1: set<EndpointAddr>, r2: set<EndpointAddr>, n1: Time, n2: Time)
    requires Twins(q1, q2, n1, n2)
    ensures NormPolled(Settle(blocking, q1, ids, r1, n1)) == NormPolled(Settle(blocking, q2, ids, r2, n2))
  {
    NormSettle(blocking, q1, ids, r1, n1);
    NormSettle(blocking, q2, ids, r2, n2);
    forall h | h in NormQueue(q1) ensures h.message.Expired(n1) == h.message.Expired(n2) {
      var i :| 0 <= i < |q1| && NormQueue(q1)[i] == h;
      assert q1[i] in q1;
    }
    SettleClock(blocking, NormQueue(q1), ids, n1, n2);
  }

  lemma {:induction false} NormArchives(events: seq<Event>)
    ensures FlatMap(ArchiveOf, NormEvents(events)) == FlatMap(ArchiveOf, events)
  {
    if events != [] {
      var e, rest := events[0], events[1..];
      assert events == [e] + rest;
      NormArchives(rest);
      FlatMapCons(ArchiveOf, e, rest);
      FlatMapCons(NormEvent, e, rest);
      FlatMapConcat(ArchiveOf, NormEvent(e), NormEvents(rest));
      if !e.Dispatch? {
        FlatMapCons(ArchiveOf, NormEvent(e)[0], []);
      }
    }
  }

  // What polling adds to the view, by the normal form of what it emits.
  lemma ViewAfter(t: Topic, after: Topic, p: Polled, updates: multiset<DurableCommand>)
    requires after == t.(queue := p.queue, events := after.events, commands := after.commands)
    requires multiset(after.events) == multiset(t.events + p.events)
    requires multiset(after.commands) == multiset(t.commands) + updates + multiset(FlatMap(ArchiveOf, p.events))
    ensures var n := NormPolled(p);
            ViewOf(after) == ViewOf(t).(queue := n.queue,
                                        acks := ViewOf(t).acks + multiset(n.events),
                                        commands := ViewOf(t).commands + updates + multiset(FlatMap(ArchiveOf, n.events)))
  {
    hide FlatMap;
    FlatMapPermuted(NormEvent, after.events, t.events + p.events);
    FlatMapConcat(NormEvent, t.events, p.events);
    NormArchives(p.events);
  }

  lemma FlushAgrees(a: Topic, b: Topic, id: MessageId, ea: Env, eb: Env)
    requires ViewOf(a) == ViewOf(b) && SameExpiry(a.queue, ea.now, eb.now)
    ensures ViewOf(Flush(a, id, ea)) == ViewOf(Flush(b, id, eb))
  {
    var pa, pb := FlushResult(a, id, ea), FlushResult(b, id, eb);
    SettleAgrees(a.config.blocking, a.queue, b.queue, {id}, a.Reachable(ea.node), b.Reachable(eb.node), ea.now, eb.now);
    assert NormPolled(pa) == NormPolled(pb);
    hide FlatMap, Settle, ViewOf, NormPolled;
    ViewAfter(a, Flush(a, id, ea), pa, multiset{});
    ViewAfter(b, Flush(b, id, eb), pb, multiset{});
  }

  lemma NormAcks(h: HoldMessage, acks: StatusMap)
    ensures h.UpdateAcks(acks).Norm() == h.Norm().UpdateAcks(acks).Norm()
  {
    forall ep | ep in h.waitAck.status.Keys + acks.Keys
      ensures h.UpdateAcks(acks).Norm().waitAck.status[ep] == h.Norm().UpdateAcks(acks).Norm().waitAck.status[ep]
    {
      assert ep in h.waitAck.status ==>
        h.Norm().waitAck.status[ep].IsResolved(h.waitAck.level) == h.waitAck.status[ep].IsResolved(h.waitAck.level);
    }
    assert h.UpdateAcks(acks).Norm().waitAck.status == h.Norm().UpdateAcks(acks).Norm().waitAck.status;
  }

  lemma NoteAgrees(a: Topic, b: Topic, id: MessageId, acks: StatusMap)
    requires ViewOf(a) == ViewOf(b)
    ensures ViewOf(Note(a, id, acks)) == ViewOf(Note(b, id, acks))
  {
    var qa, qb := ApplyAcks(a.queue, id, acks), ApplyAcks(b.queue, id, acks);
    assert NormQueue(a.queue) == NormQueue(b.queue);
    forall i | 0 <= i < |a.queue| ensures NormQueue(qa)[i] == NormQueue(qb)[i] {
      NormAcks(a.queue[i], acks);
      NormAcks(b.queue[i], acks);
      assert NormQueue(a.queue)[i] == NormQueue(b.queue)[i];
    }
    assert NormQueue(qa) == NormQueue(qb);
  }

  lemma UpdateAndFlushAgrees(a: Topic, b: Topic, id: MessageId, acks: StatusMap, ea: Env, eb: Env)
    requires ViewOf(a) == ViewOf(b) && SameExpiry(a.queue, ea.now, eb.now)
    ensures ViewOf(UpdateAndFlush(a, id, acks, ea)) == ViewOf(UpdateAndFlush(b, id, acks, eb))
  {
    forall h | h in Note(a, id, acks).queue ensures h.message.Expired(ea.now) == h.message.Expired(eb.now) {
      var i :| 0 <= i < |a.queue| && Note(a, id, acks).queue[i] == h;
      assert a.queue[i] in a.queue;
    }
    hide ViewOf;
    NoteAgrees(a, b, id, acks);
    FlushAgrees(Note(a, id, acks), Note(b, id, acks), id, ea, eb);
  }

  lemma ViewOfWalk(t: Topic, env: Env, need: set<MessageId>)
    requires Enumerates(env.walk, need)
    ensures var n := NormPolled(Settle(t.config.blocking, t.queue, need, t.Reachable(env.node), env.now));
            ViewOf(PollAll(t, env.walk, env)) ==
            ViewOf(t).(queue := n.queue,
                       acks := ViewOf(t).acks + multiset(n.events),
                       commands := ViewOf(t).commands + multiset(StatusUpdates(env.walk))
                                   + multiset(FlatMap(ArchiveOf, n.events)))
  {
    var p := Settle(t.config.blocking, t.queue, need, t.Reachable(env.node), env.now);
    WalkIsSettle(t.config.blocking, t.queue, env.walk, t.Reachable(env.node), env.now);
    var w := WalkResult(t, env.walk, env);
    PollAllIsWalk(t, env.walk, env);
    PollAllCommands(t, env.walk, env);
    FlatMapPermuted(ArchiveOf, w.events, p.events);
    hide FlatMap, Settle, Walk, PollAll, ViewOf, StatusUpdates;
    ViewAfter(t, PollAll(t, env.walk, env), p, multiset(StatusUpdates(env.walk)));
  }

  lemma PollAllAgrees(a: Topic, b: Topic, need: set<MessageId>, ea: Env, eb: Env)
    requires ViewOf(a) == ViewOf(b) && SameExpiry(a.queue, ea.now, eb.now)
    requires Enumerates(ea.walk, need) && Enumerates(eb.walk, need)
    ensures ViewOf(PollAll(a, ea.walk, ea)) == ViewOf(PollAll(b, eb.walk, eb))
  {
    SettleAgrees(a.config.blocking, a.queue, b.queue, need, a.Reachable(ea.node), b.Reachable(eb.node), ea.now, eb.now);
    StatusUpdatesPermuted(ea.walk, eb.walk);
    assert a.config == b.config;
    hide FlatMap, Settle, PollAll, ViewOf, NormPolled, StatusUpdates;
    ViewOfWalk(a, ea, need);
    ViewOfWalk(b, eb, need);
  }

  // ----- Choosing the target of a push -----

  ghost predicate Distinct(hash: Hashing, eps: set<EndpointAddr>) {
    forall v, w :: v in eps && w in eps && hash.ofEndpoint(v) == hash.ofEndpoint(w) ==> v == w
  }

  lemma RingTail(ring: seq<EndpointAddr>, eps: set<EndpointAddr>, hash: Hashing)
    requires IsRing(ring, eps, hash) && eps != {}
    ensures ring != [] && ring[0] in eps && IsRing(ring[1..], eps - {ring[0]}, hash)
    ensures forall v :: v in eps ==> hash.ofEndpoint(ring[0]) <= hash.ofEndpoint(v)
  {
    assert Pick(eps) in Elements(ring);
    assert ring == [ring[0]] + ring[1..];
    assert ring[0] in Elements(ring);
    forall w ensures w in Elements(ring[1..]) <==> w in eps - {ring[0]} {
      assert w in Elements(ring) <==> w in eps;
    }
    forall w | w in eps ensures hash.ofEndpoint(ring[0]) <= hash.ofEndpoint(w) {
      assert w in Elements(ring);
      var i :| 0 <= i < |ring| && ring[i] == w;
    }
  }

  // With distinct hashes, sorting the candidates by hash has one outcome, whatever order they came in.
  lemma {:induction false} RingIsUnique(r1: seq<EndpointAddr>, r2: seq<EndpointAddr>, eps: set<EndpointAddr>, hash: Hashing)
    requires IsRing(r1, eps, hash) && IsRing(r2, eps, hash) && Distinct(hash, eps)
    ensures r1 == r2
    decreases eps
  {
    if eps == {} {
      ElementsEmpty(r1);
      ElementsEmpty(r2);
    } else {
      RingTail(r1, eps, hash);
      RingTail(r2, eps, hash);
      assert r1[0] == r2[0];
      RingIsUnique(r1[1..], r2[1..], eps - {r1[0]}, hash);
      assert r1 == [r1[0]] + r1[1..] && r2 == [r2[0]] + r2[1..];
    }
  }

  // A push goes to exactly one interested endpoint, the same one on every node.
  lemma PushSelection(a: Topic, b: Topic, m: Message, ea: Env, eb: Env, hash: Hashing)
    requires m.target.Push? && Collect(a.ix, m.subjects) == Collect(b.ix, m.subjects) != {}
    requires Admissible(a, Delegate(m), ea, hash) && Admissible(b, Delegate(m), eb, hash)
    requires Distinct(hash, Collect(a.ix, m.subjects))
    ensures ea.ring != [] && eb.ring != []
    ensures Targets(a, m, ea, hash) == Targets(b, m, eb, hash)
    ensures exists ep :: ep in Collect(a.ix, m.subjects) && Targets(a, m, ea, hash) == {ep}
  {
    var eps := Collect(a.ix, m.subjects);
    RingTail(ea.ring, eps, hash);
    RingIsUnique(ea.ring, eb.ring, eps, hash);
    var ep := ea.ring[hash.ofMessage(m.id) % |ea.ring|];
    assert ep in Elements(ea.ring);
  }

  // ----- Steps -----

  lemma CollectAgrees(a: Index, b: Index, subjects: seq<Bytes>)
    requires a.Valid() && b.Valid() && a.raw == b.raw
    ensures Collect(a, subjects) == Collect(b, subjects)
    ensures Collect(a, subjects) <= a.raw.Keys
  {
    forall subject | subject in subjects ensures a.Find(subject) == b.Find(subject) <= a.raw.Keys {
      FindIsScan(a, subject);
      FindIsScan(b, subject);
    }
  }

  lemma EmitAgrees(a: Topic, b: Topic, e: Event)
    requires ViewOf(a) == ViewOf(b)
    ensures ViewOf(a.Emit(e)) == ViewOf(b.Emit(e))
  {
    hide FlatMap;
    FlatMapConcat(NormEvent, a.events, [e]);
    FlatMapConcat(NormEvent, b.events, [e]);
  }

  lemma DropFrontAgrees(a: Topic, b: Topic)
    requires ViewOf(a) == ViewOf(b) && a.queue != []
    ensures b.queue != [] && ViewOf(DropFront(a)) == ViewOf(DropFront(b))
  {
    hide FlatMap;
    var ra, rb := a.(queue := a.queue[1..]), b.(queue := b.queue[1..]);
    assert NormQueue(a.queue) == NormQueue(b.queue);
    assert NormQueue(a.queue)[0] == NormQueue(b.queue)[0];
    assert NormQueue(ra.queue) == NormQueue(a.queue)[1..] && NormQueue(rb.queue) == NormQueue(b.queue)[1..];
    EmitAgrees(ra, rb, Leave(a.queue[0].Id(), Failure(Overflow)));
    assert a.queue[0].Id() == NormQueue(a.queue)[0].Id() == b.queue[0].Id();
  }

  lemma EnqueueAgrees(a: Topic, b: Topic, h: HoldMessage)
    requires ViewOf(a) == ViewOf(b)
    ensures ViewOf(Enqueue(a, h)) == ViewOf(Enqueue(b, h))
  {
    hide FlatMap;
    assert NormQueue(a.queue + [h]) == NormQueue(a.queue) + [h.Norm()];
    assert NormQueue(b.queue + [h]) == NormQueue(b.queue) + [h.Norm()];
  }

  lemma HoldNewAgrees(a: Topic, b: Topic, m: Message, ea: Env, eb: Env, hash: Hashing)
    requires ViewOf(a) == ViewOf(b) && a.ix.Valid() && b.ix.Valid()
    requires Admissible(a, Delegate(m), ea, hash) && Admissible(b, Delegate(m), eb, hash)
    requires SameExpiry(a.queue, ea.now, eb.now) && m.Expired(ea.now) == m.Expired(eb.now)
    requires Distinct(hash, a.ix.raw.Keys)
    ensures ViewOf(HoldNew(a, m, ea, hash)) == ViewOf(HoldNew(b, m, eb, hash))
  {
    CollectAgrees(a.ix, b.ix, m.subjects);
    if m.target.Push? {
      RingIsUnique(ea.ring, eb.ring, Collect(a.ix, m.subjects), hash);
    }
    assert |NormQueue(a.queue)| == |NormQueue(b.queue)|;
    assert a.Full() == b.Full();
    hide FlatMap, ViewOf, UpdateAndFlush, Enqueue, Collect;
    if m.target.Push? && ea.ring == [] {
      EmitAgrees(a, b, Refuse(m.id, Failure(NoAvailableTarget)));
    } else if a.Full() && a.config.overflow.value.policy.RejectNew? {
      EmitAgrees(a, b, Refuse(m.id, Failure(Overflow)));
    } else {
      var ra, rb := if a.Full() then DropFront(a) else a, if b.Full() then DropFront(b) else b;
      if a.Full() {
        DropFrontAgrees(a, b);
      }
      var h := Hold(a, m, ea, hash);
      assert Hold(b, m, eb, hash) == h;
      EnqueueAgrees(ra, rb, h);
      assert SameExpiry(Enqueue(ra, h).queue, ea.now, eb.now) by {
        EnqueueExpiry(a, ra, h, ea.now, eb.now);
      }
      UpdateAndFlushAgrees(Enqueue(ra, h), Enqueue(rb, h), m.id, map[], ea, eb);
    }
  }

  lemma EnqueueExpiry(a: Topic, ra: Topic, h: HoldMessage, n1: Time, n2: Time)
    requires SameExpiry(a.queue, n1, n2) && h.message.Expired(n1) == h.message.Expired(n2)
    requires forall x :: x in ra.queue ==> x in a.queue
    ensures SameExpiry(Enqueue(ra, h).queue, n1, n2)
  {
  }

  lemma EnlistAgrees(a: Topic, b: Topic, ia: Index, ib: Index, ep: EndpointAddr, i: nat)
    requires NormQueue(a.queue) == NormQueue(b.queue) && i < |a.queue|
    requires ia.Valid() && ib.Valid() && ia.raw == ib.raw
    ensures EnlistOne(ia, a.queue[i], ep).Norm() == EnlistOne(ib, b.queue[i], ep).Norm()
    ensures CutOffOne(a.queue[i], ep).Norm() == CutOffOne(b.queue[i], ep).Norm()
    ensures Wanted(ia, a.queue[i], ep) == Wanted(ib, b.queue[i], ep)
    ensures ep in a.queue[i].waitAck.status <==> ep in b.queue[i].waitAck.status
    ensures a.queue[i].Id() == b.queue[i].Id()
  {
    var x, y := a.queue[i], b.queue[i];
    assert x.Norm() == NormQueue(a.queue)[i] == NormQueue(b.queue)[i] == y.Norm();
    assert x.Norm().message == x.message && y.Norm().message == y.message;
    CollectAgrees(ia, ib, x.message.subjects);
    NormOverwrite(x, ep, Unsent);
    NormOverwrite(y, ep, Unsent);
    NormOverwrite(x, ep, Unreachable);
    NormOverwrite(y, ep, Unreachable);
  }

  lemma NormOverwrite(h: HoldMessage, ep: EndpointAddr, kind: StatusKind)
    requires !kind.Sending?
    ensures ep in h.waitAck.status <==> ep in h.Norm().waitAck.status
    ensures h.WithStatus(h.waitAck.status[ep := kind]).Norm() ==
            h.Norm().WithStatus(h.Norm().waitAck.status[ep := kind])
  {
    assert NormStatus(h.waitAck.status[ep := kind]) == NormStatus(h.waitAck.status)[ep := kind];
  }

  lemma PrepareIndex(a: Topic, b: Topic, p: Proposal)
    requires p.OfEndpoint()
    requires a.ix.Valid() && b.ix.Valid() && a.ix.raw == b.ix.raw
    ensures Prepare(a, p).ix.Valid() && Prepare(b, p).ix.Valid() && Prepare(a, p).ix.raw == Prepare(b, p).ix.raw
    ensures forall v :: v in Prepare(a, p).ix.raw ==> v in a.ix.raw || (v == p.ep && !p.GoOffline?)
  {
    DeleteKeepsValid(a.ix, p.ep);
    DeleteKeepsValid(b.ix, p.ep);
    if !p.GoOffline? {
      var ia := if p.GoOnline? then a.ix else a.ix.Delete(p.ep);
      var ib := if p.GoOnline? then b.ix else b.ix.Delete(p.ep);
      InsertEachKeepsValid(ia, p.interests, p.ep);
      InsertEachKeepsValid(ib, p.interests, p.ep);
      assert Prepare(a, p).ix == ia.InsertEach(p.interests, p.ep) && Prepare(b, p).ix == ib.InsertEach(p.interests, p.ep);
      forall v ensures v in ia.InsertEach(p.interests, p.ep).raw ==> v in a.ix.raw || v == p.ep {
        InsertEachRaw(ia, p.interests, p.ep, v);
      }
      InsertEachSameRaw(ia, ib, p.interests, p.ep);
    }
  }

  lemma {:induction false} InsertEachSameRaw(a: Index, b: Index, interests: seq<Bytes>, v: EndpointAddr)
    requires a.raw == b.raw
    ensures a.InsertEach(interests, v).raw == b.InsertEach(interests, v).raw
    decreases interests
  {
    if interests != [] {
      InsertEachSameRaw(a.Insert(interests[0], v), b.Insert(interests[0], v), interests[1..], v);
    }
  }

  lemma PrepareAgrees(a: Topic, b: Topic, p: Proposal)
    requires p.OfEndpoint()
    requires ViewOf(a) == ViewOf(b) && a.ix.Valid() && b.ix.Valid()
    ensures ViewOf(Prepare(a, p)) == ViewOf(Prepare(b, p))
    ensures NeedPoll(a, p) == NeedPoll(b, p)
  {
    PrepareIndex(a, b, p);
    assert NormQueue(a.queue) == NormQueue(b.queue) && |NormQueue(a.queue)| == |a.queue| == |b.queue|;
    var pa, pb := Prepare(a, p), Prepare(b, p);
    assert |pa.queue| == |a.queue| && |pb.queue| == |b.queue|;
    forall i | 0 <= i < |a.queue| ensures NormQueue(pa.queue)[i] == NormQueue(pb.queue)[i] {
      EnlistAgrees(a, b, pa.ix, pb.ix, p.ep, i);
    }
    assert NormQueue(pa.queue) == NormQueue(pb.queue);
    forall id ensures id in NeedPoll(a, p) <==> id in NeedPoll(b, p) {
      if id in NeedPoll(a, p) { NeedPollAgrees(a, b, p, id); }
      if id in NeedPoll(b, p) { NeedPollAgrees(b, a, p, id); }
    }
  }

  lemma NeedPollAgrees(a: Topic, b: Topic, p: Proposal, id: MessageId)
    requires p.OfEndpoint()
    requires NormQueue(a.queue) == NormQueue(b.queue) && a.ix.Valid() && b.ix.Valid() && a.ix.raw == b.ix.raw
    requires id in NeedPoll(a, p)
    ensures id in NeedPoll(b, p)
  {
    PrepareIndex(a, b, p);
    assert |NormQueue(a.queue)| == |a.queue| == |b.queue|;
    var i :| 0 <= i < |a.queue| && a.queue[i].Id() == id && Polls(a, p, a.queue[i]);
    EnlistAgrees(a, b, Prepare(a, p).ix, Prepare(b, p).ix, p.ep, i);
    assert b.queue[i] in b.queue;
  }

  // ----- Runs -----

  // The endpoints and expiry times that a log mentions.
  datatype Scope = Scope(eps: set<EndpointAddr>, expiries: set<Time>) {
    predicate Knows(m: Message) {
      m.durability.Some? ==> m.durability.value.expire in expiries
    }

    predicate Covers(p: Proposal) {
      match p
      case Delegate(m) => Knows(m)
      case GoOnline(ep, _, _) => ep in eps
      case NewInterest(ep, _) => ep in eps
      case _ => true
    }

    ghost predicate Holds(t: Topic) {
      (forall m :: m in MessagesOf(t.queue) ==> Knows(m)) && t.ix.raw.Keys <= eps
    }

    // Clocks may differ as long as no expiry time lies between them.
    ghost predicate SameSide(n1: Time, n2: Time) {
      forall e :: e in expiries ==> (n1 > e <==> n2 > e)
    }
  }

  lemma StepAgrees(a: Topic, b: Topic, p: Proposal, ea: Env, eb: Env, hash: Hashing, s: Scope)
    requires ViewOf(a) == ViewOf(b) && a.ix.Valid() && b.ix.Valid()
    requires Admissible(a, p, ea, hash) && Admissible(b, p, eb, hash)
    requires Distinct(hash, s.eps) && s.Covers(p) && s.Holds(a) && s.SameSide(ea.now, eb.now)
    ensures ViewOf(Step(a, p, ea, hash)) == ViewOf(Step(b, p, eb, hash))
  {
    assert forall h :: h in a.queue ==> h.message in MessagesOf(a.queue);
    assert SameExpiry(a.queue, ea.now, eb.now);
    hide ViewOf, HoldNew, UpdateAndFlush, PollAll, Prepare, NeedPoll;
    match p
    case Delegate(m) =>
      SameRaw(a, b);
      HoldNewAgrees(a, b, m, ea, eb, hash);
    case SetState(id, acks) =>
      UpdateAndFlushAgrees(a, b, id, acks, ea, eb);
    case _ => EndpointAgrees(a, b, p, ea, eb, hash);
  }

  lemma EndpointAgrees(a: Topic, b: Topic, p: Proposal, ea: Env, eb: Env, hash: Hashing)
    requires p.OfEndpoint() && ViewOf(a) == ViewOf(b) && a.ix.Valid() && b.ix.Valid()
    requires Admissible(a, p, ea, hash) && Admissible(b, p, eb, hash) && SameExpiry(a.queue, ea.now, eb.now)
    ensures ViewOf(Step(a, p, ea, hash)) == ViewOf(Step(b, p, eb, hash))
  {
    PrepareAgrees(a, b, p);
    PrepareExpiry(a, p, ea.now, eb.now);
    hide ViewOf, PollAll, Prepare, NeedPoll, SameExpiry, Enumerates;
    PollAllAgrees(Prepare(a, p), Prepare(b, p), NeedPoll(a, p), ea, eb);
  }

  lemma PrepareExpiry(t: Topic, p: Proposal, n1: Time, n2: Time)
    requires p.OfEndpoint() && SameExpiry(t.queue, n1, n2)
    ensures SameExpiry(Prepare(t, p).queue, n1, n2)
  {
    var after := Prepare(t, p).queue;
    forall h | h in after ensures h.message.Expired(n1) == h.message.Expired(n2) {
      var i :| 0 <= i < |after| && after[i] == h;
      assert t.queue[i] in t.queue && after[i].message == t.queue[i].message;
    }
  }

  lemma SameRaw(a: Topic, b: Topic)
    requires ViewOf(a) == ViewOf(b)
    ensures a.ix.raw == b.ix.raw
  {
  }

  // ----- The messages a step can leave in the queue -----

  lemma SameMessages(a: seq<HoldMessage>, b: seq<HoldMessage>)
    requires |a| == |b| && forall i :: 0 <= i < |a| ==> a[i].message == b[i].message
    ensures MessagesOf(a) == MessagesOf(b)
  {
    forall m | m in MessagesOf(a) ensures m in MessagesOf(b) {
      var i :| 0 <= i < |a| && a[i].message == m;
      assert b[i] in b;
    }
    forall m | m in MessagesOf(b) ensures m in MessagesOf(a) {
      var i :| 0 <= i < |b| && b[i].message == m;
      assert a[i] in a;
    }
  }

  lemma PrepareMessages(t: Topic, p: Proposal)
    requires p.OfEndpoint()
    ensures MessagesOf(Prepare(t, p).queue) == MessagesOf(t.queue)
  {
    SameMessages(Prepare(t, p).queue, t.queue);
  }

  lemma UpdateAndFlushMessages(t: Topic, id: MessageId, acks: StatusMap, env: Env)
    ensures var after := UpdateAndFlush(t, id, acks, env); MessagesOf(after.queue) <= MessagesOf(t.queue) && after.ix == t.ix
  {
    SameMessages(ApplyAcks(t.queue, id, acks), t.queue);
    SettleMessages(t.config.blocking, ApplyAcks(t.queue, id, acks), {id}, t.Reachable(env.node), env.now);
  }

  lemma {:induction false} PollAllMessages(t: Topic, ids: seq<MessageId>, env: Env)
    ensures var after := PollAll(t, ids, env); MessagesOf(after.queue) <= MessagesOf(t.queue) && after.ix == t.ix
    decreases ids
  {
    hide *;
    PollAllOne(t, ids, env);
    if ids != [] {
      UpdateAndFlushMessages(t, ids[0], map[], env);
      PollAllMessages(UpdateAndFlush(t, ids[0], map[], env), ids[1..], env);
    }
  }

  lemma StepMessages(t: Topic, p: Proposal, env: Env, hash: Hashing)
    ensures var after := Step(t, p, env, hash);
            && MessagesOf(after.queue) <= MessagesOf(t.queue) + (if p.Delegate? then {p.message} else {})
            && after.ix == (if p.OfEndpoint() then Prepare(t, p).ix else t.ix)
  {
    match p
    case Delegate(m) =>
      if !(m.target.Push? && env.ring == []) {
        var room := if t.Full() then DropFront(t) else t;
        MessagesConcat(room.queue, [Hold(t, m, env, hash)]);
        if t.Full() {
          assert t.queue == [t.queue[0]] + t.queue[1..];
          MessagesConcat([t.queue[0]], t.queue[1..]);
        }
        UpdateAndFlushMessages(Enqueue(room, Hold(t, m, env, hash)), m.id, map[], env);
      }
    case SetState(id, acks) => UpdateAndFlushMessages(t, id, acks, env);
    case _ =>
      PrepareMessages(t, p);
      PollAllMessages(Prepare(t, p), env.walk, env);
  }

  lemma StepKeepsValid(t: Topic, p: Proposal, env: Env, hash: Hashing)
    requires t.ix.Valid()
    ensures Step(t, p, env, hash).ix.Valid()
  {
    StepMessages(t, p, env, hash);
    if p.OfEndpoint() {
      PrepareIndex(t, t, p);
    }
  }

  lemma StepHolds(t: Topic, p: Proposal, env: Env, hash: Hashing, s: Scope)
    requires t.ix.Valid() && s.Holds(t) && s.Covers(p)
    ensures s.Holds(Step(t, p, env, hash))
  {
    StepMessages(t, p, env, hash);
    if p.OfEndpoint() {
      PrepareIndex(t, t, p);
      forall v | v in Prepare(t, p).ix.raw ensures v in s.eps {
        assert v in t.ix.raw || (v == p.ep && !p.GoOffline?);
      }
    }
  }

  ghost predicate Comparable(log: seq<Proposal>, ea: seq<Env>, eb: seq<Env>, hash: Hashing, s: Scope) {
    && |ea| == |eb| == |log|
    && Distinct(hash, s.eps)
    && forall i :: 0 <= i < |log| ==> s.Covers(log[i]) && s.SameSide(ea[i].now, eb[i].now)
  }

  lemma ComparableTail(log: seq<Proposal>, ea: seq<Env>, eb: seq<Env>, hash: Hashing, s: Scope)
    requires Comparable(log, ea, eb, hash, s) && log != []
    ensures |ea| == |eb| == |log| && s.Covers(log[0]) && s.SameSide(ea[0].now, eb[0].now) && Distinct(hash, s.eps)
    ensures Comparable(log[1..], ea[1..], eb[1..], hash, s)
  {
    hide Scope.Covers, Scope.SameSide, Distinct;
  }

  // Replica agreement: after the same log, whatever the node ids, clocks and hash-set orders, two
  // replicas hold the same messages in the same order with the same statuses up to Unsent versus
  // Sending, the same routing and interests, and have emitted the same ack results and durable
  // commands. Since this holds after every prefix, each message is resolved in the same step.
  lemma {:induction false} ReplicaAgreement(a: Topic, b: Topic, log: seq<Proposal>, ea: seq<Env>, eb: seq<Env>,
                                            hash: Hashing, s: Scope)
    requires Comparable(log, ea, eb, hash, s)
    requires ViewOf(a) == ViewOf(b) && a.ix.Valid() && b.ix.Valid() && s.Holds(a)
    requires RunOk(a, log, ea, hash) && RunOk(b, log, eb, hash)
    ensures ViewOf(Run(a, log, ea, hash)) == ViewOf(Run(b, log, eb, hash))
    decreases log
  {
    RunOne(a, log, ea, hash);
    RunOne(b, log, eb, hash);
    if log != [] {
      ComparableTail(log, ea, eb, hash, s);
      hide *;
      StepAgrees(a, b, log[0], ea[0], eb[0], hash, s);
      StepKeepsValid(a, log[0], ea[0], hash);
      StepKeepsValid(b, log[0], eb[0], hash);
      StepHolds(a, log[0], ea[0], hash, s);
      ReplicaAgreement(Step(a, log[0], ea[0], hash), Step(b, log[0], eb[0], hash), log[1..], ea[1..], eb[1..], hash, s);
    }
  }
}
