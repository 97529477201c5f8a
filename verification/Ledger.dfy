// What every run keeps: each message is accounted for exactly once, a blocking topic works strictly
// from the front, and the queue stays within its bound.

module Ledger {
  import opened Messages
  import opened Lists
  import opened HoldQueue
  import opened Topics

  function LeftOf(e: Event): seq<MessageId> {
    if e.Leave? then [e.id] else []
  }

  function RefusedOf(e: Event): seq<MessageId> {
    if e.Refuse? then [e.id] else []
  }

  function CreatedOf(c: DurableCommand): seq<MessageId> {
    if c.Create? then [c.message.id] else []
  }

  function DelegatedOf(p: Proposal): seq<MessageId> {
    if p.Delegate? then [p.message.id] else []
  }

  // The messages that have gone out of the queue, were never let in, were let in.
  function Left(t: Topic): seq<MessageId> { FlatMap(LeftOf, t.events) }

  function Refused(t: Topic): seq<MessageId> { FlatMap(RefusedOf, t.events) }

  function Created(t: Topic): seq<MessageId> { FlatMap(CreatedOf, t.commands) }

  ghost predicate Balanced(t: Topic, loaded: seq<MessageId>, delegated: seq<MessageId>) {
    && multiset(Left(t)) + multiset(Ids(t.queue)) == multiset(loaded) + multiset(Created(t))
    && multiset(delegated) == multiset(Created(t)) + multiset(Refused(t))
  }

  // In a blocking topic messages go out in exactly the order in which they came in.
  ghost predicate InOrder(t: Topic, loaded: seq<MessageId>) {
    t.config.blocking ==> Left(t) + Ids(t.queue) == loaded + Created(t)
  }

  // When the p-th event hands a message to endpoints, the messages that have left so far are the
  // ones pushed before it, and it is the next one.
  ghost predicate HeadAt(events: seq<Event>, pushed: seq<MessageId>, p: nat)
    requires p < |events|
  {
    events[p].Dispatch? ==>
      var left := FlatMap(LeftOf, events[..p]);
      left < pushed && pushed[|left|] == events[p].id
  }

  ghost predicate AllHead(events: seq<Event>, pushed: seq<MessageId>) {
    forall p :: 0 <= p < |events| ==> HeadAt(events, pushed, p)
  }

  ghost predicate HeadOnly(t: Topic, loaded: seq<MessageId>) {
    t.config.blocking ==> AllHead(t.events, loaded + Created(t))
  }

  ghost predicate Bounded(t: Topic, loaded: seq<MessageId>) {
    t.config.overflow.Some? ==> |t.queue| <= t.config.overflow.value.size || |t.queue| <= |loaded|
  }

  ghost predicate Accounted(t: Topic, loaded: seq<MessageId>, delegated: seq<MessageId>) {
    && Balanced(t, loaded, delegated)
    && InOrder(t, loaded)
    && HeadOnly(t, loaded)
    && Bounded(t, loaded)
  }

  // ----- Polling -----

  lemma SendsNoLeave(h: HoldMessage, reach: set<EndpointAddr>)
    ensures FlatMap(LeftOf, SendEvents(h, reach)) == []
    ensures FlatMap(RefusedOf, SendEvents(h, reach)) == []
  {
    if h.Outgoing(reach) != {} {
      FlatMapCons(LeftOf, SendEvents(h, reach)[0], []);
      FlatMapCons(RefusedOf, SendEvents(h, reach)[0], []);
    }
  }

  lemma LeavesOne(h: HoldMessage, reach: set<EndpointAddr>)
    ensures var out := SendEvents(h, reach) + [LeaveEvent(h.SendUnsent(reach))];
            FlatMap(LeftOf, out) == [h.Id()] && FlatMap(RefusedOf, out) == []
  {
    SendsNoLeave(h, reach);
    var leave := LeaveEvent(h.SendUnsent(reach));
    FlatMapConcat(LeftOf, SendEvents(h, reach), [leave]);
    FlatMapConcat(RefusedOf, SendEvents(h, reach), [leave]);
    FlatMapCons(LeftOf, leave, []);
    FlatMapCons(RefusedOf, leave, []);
  }

  lemma IdsConcat(a: seq<HoldMessage>, b: seq<HoldMessage>)
    ensures Ids(a + b) == Ids(a) + Ids(b)
  {
  }

  lemma PollOneBalance(h: HoldMessage, reach: set<EndpointAddr>, now: Time)
    ensures var p := PollOne(h, reach, now);
            FlatMap(LeftOf, p.events) + Ids(p.queue) == [h.Id()] && FlatMap(RefusedOf, p.events) == []
  {
    SendsNoLeave(h, reach);
    LeavesOne(h, reach);
  }

  lemma JoinBalance(a: Polled, b: Polled)
    ensures FlatMap(LeftOf, Join(a, b).events) == FlatMap(LeftOf, a.events) + FlatMap(LeftOf, b.events)
    ensures FlatMap(RefusedOf, Join(a, b).events) == FlatMap(RefusedOf, a.events) + FlatMap(RefusedOf, b.events)
    ensures Ids(Join(a, b).queue) == Ids(a.queue) + Ids(b.queue)
  {
    FlatMapConcat(LeftOf, a.events, b.events);
    FlatMapConcat(RefusedOf, a.events, b.events);
  }

  lemma PollIfBalance(h: HoldMessage, ids: set<MessageId>, reach: set<EndpointAddr>, now: Time)
    ensures var p := PollIf(h, ids, reach, now);
            FlatMap(LeftOf, p.events) + Ids(p.queue) == [h.Id()] && FlatMap(RefusedOf, p.events) == []
  {
    hide PollOne, FlatMap;
    PollOneBalance(h, reach, now);
    NothingLeft();
    assert Ids([h]) == [h.Id()];
  }

  lemma {:induction false} PollEachBalance(q: seq<HoldMessage>, ids: set<MessageId>, reach: set<EndpointAddr>, now: Time)
    ensures var p := PollEach(q, ids, reach, now);
            && multiset(FlatMap(LeftOf, p.events)) + multiset(Ids(p.queue)) == multiset(Ids(q))
            && FlatMap(RefusedOf, p.events) == []
  {
    if q == [] {
      NothingLeft();
      PollEachNone([], reach, now);
    } else {
      hide *;
      var h, rest := q[0], q[1..];
      assert q == [h] + rest;
      IdsCons(h, rest);
      PollEachCons(h, rest, ids, reach, now);
      PollIfBalance(h, ids, reach, now);
      var one, p := PollIf(h, ids, reach, now), PollEach(rest, ids, reach, now);
      JoinBalance(one, p);
      PollEachBalance(rest, ids, reach, now);
      assert multiset(FlatMap(LeftOf, one.events) + Ids(one.queue)) == multiset{h.Id()};
    }
  }

  lemma DrainFirst(h: HoldMessage, rest: seq<HoldMessage>, reach: set<EndpointAddr>, now: Time)
    ensures var one := PollOne(h, reach, now);
            && Drain([h] + rest, reach, now) ==
               Join(one, if one.queue == [] then Drain(rest, reach, now) else Polled(rest, []))
            && FlatMap(RefusedOf, one.events) == []
            && if one.queue == [] then FlatMap(LeftOf, one.events) == [h.Id()]
               else FlatMap(LeftOf, one.events) == [] && Ids(one.queue) == [h.Id()]
  {
    DrainCons(h, rest, reach, now);
    PollOneBalance(h, reach, now);
    var one := PollOne(h, reach, now);
    hide FlatMap, PollOne, Drain;
    var left, kept := FlatMap(LeftOf, one.events), Ids(one.queue);
    assert |left| + |kept| == 1;
  }

  lemma NothingLeft()
    ensures FlatMap(LeftOf, []) == [] && FlatMap(RefusedOf, []) == [] && Ids([]) == []
  {
  }

  lemma IdsCons(h: HoldMessage, rest: seq<HoldMessage>)
    ensures Ids([h] + rest) == [h.Id()] + Ids(rest)
  {
  }

  lemma {:induction false} DrainBalance(q: seq<HoldMessage>, reach: set<EndpointAddr>, now: Time)
    ensures var d := Drain(q, reach, now);
            FlatMap(LeftOf, d.events) + Ids(d.queue) == Ids(q) && FlatMap(RefusedOf, d.events) == []
  {
    NothingLeft();
    if q != [] {
      var h, rest := q[0], q[1..];
      assert q == [h] + rest;
      hide *;
      IdsCons(h, rest);
      DrainFirst(h, rest, reach, now);
      var one := PollOne(h, reach, now);
      var p := if one.queue == [] then Drain(rest, reach, now) else Polled(rest, []);
      JoinBalance(one, p);
      if one.queue == [] {
        DrainBalance(rest, reach, now);
        Assoc([h.Id()], FlatMap(LeftOf, p.events), Ids(p.queue));
        assert Ids(one.queue) == [] && [] + Ids(p.queue) == Ids(p.queue);
      } else {
        assert [] + ([h.Id()] + Ids(rest)) == Ids(q);
      }
    }
  }

  lemma SettleBalance(blocking: bool, q: seq<HoldMessage>, ids: set<MessageId>, reach: set<EndpointAddr>, now: Time)
    ensures var p := Settle(blocking, q, ids, reach, now);
            && multiset(FlatMap(LeftOf, p.events)) + multiset(Ids(p.queue)) == multiset(Ids(q))
            && (blocking ==> FlatMap(LeftOf, p.events) + Ids(p.queue) == Ids(q))
            && FlatMap(RefusedOf, p.events) == []
            && |p.queue| <= |q|
  {
    PollEachBalance(q, ids, reach, now);
    DrainBalance(q, reach, now);
    var p := Settle(blocking, q, ids, reach, now);
    var left := FlatMap(LeftOf, p.events);
    if blocking {
      assert multiset(left + Ids(p.queue)) == multiset(left) + multiset(Ids(p.queue));
    }
    assert |multiset(left)| + |multiset(Ids(p.queue))| == |multiset(Ids(q))|;
    assert |multiset(Ids(p.queue))| == |p.queue| && |multiset(Ids(q))| == |q|;
  }

  lemma {:induction false} ArchivesCreateNothing(events: seq<Event>)
    ensures FlatMap(CreatedOf, FlatMap(ArchiveOf, events)) == []
  {
    if events != [] {
      ArchivesCreateNothing(events[1..]);
      assert events == [events[0]] + events[1..];
      FlatMapCons(ArchiveOf, events[0], events[1..]);
      FlatMapConcat(CreatedOf, ArchiveOf(events[0]), FlatMap(ArchiveOf, events[1..]));
      if events[0].Leave? {
        FlatMapCons(CreatedOf, Archive(events[0].id), []);
      }
    }
  }

  // ----- Head of line -----

  lemma HeadAppend(a: seq<Event>, b: seq<Event>, pushed: seq<MessageId>)
    requires AllHead(a, pushed)
    requires forall p :: |a| <= p < |a + b| ==> HeadAt(a + b, pushed, p)
    ensures AllHead(a + b, pushed)
  {
    forall p | 0 <= p < |a| ensures HeadAt(a + b, pushed, p) {
      assert HeadAt(a, pushed, p);
      assert (a + b)[..p] == a[..p];
    }
  }

  lemma HeadSend(events: seq<Event>, h: HoldMessage, reach: set<EndpointAddr>, pushed: seq<MessageId>)
    requires AllHead(events, pushed)
    requires FlatMap(LeftOf, events) < pushed && pushed[|FlatMap(LeftOf, events)|] == h.Id()
    ensures AllHead(events + SendEvents(h, reach), pushed)
  {
    var after := events + SendEvents(h, reach);
    assert after[..|events|] == events;
    HeadAppend(events, SendEvents(h, reach), pushed);
  }

  lemma {:induction false} HeadDrain(events: seq<Event>, q: seq<HoldMessage>, reach: set<EndpointAddr>,
                                     now: Time, pushed: seq<MessageId>)
    requires AllHead(events, pushed)
    requires FlatMap(LeftOf, events) + Ids(q) == pushed
    ensures AllHead(events + Drain(q, reach, now).events, pushed)
    decreases q
  {
    if q == [] {
      assert events + [] == events;
    } else {
      var h, rest := q[0], q[1..];
      DrainHead(events, q, reach, now, pushed);
      hide *;
      if PollOne(h, reach, now).queue == [] {
        HeadDrain(events + PollOne(h, reach, now).events, rest, reach, now, pushed);
      }
    }
  }

  lemma DrainHead(events: seq<Event>, q: seq<HoldMessage>, reach: set<EndpointAddr>, now: Time, pushed: seq<MessageId>)
    requires AllHead(events, pushed)
    requires q != [] && FlatMap(LeftOf, events) + Ids(q) == pushed
    ensures var one := PollOne(q[0], reach, now);
            && AllHead(events + one.events, pushed)
            && if one.queue == []
               then && FlatMap(LeftOf, events + one.events) + Ids(q[1..]) == pushed
                    && events + Drain(q, reach, now).events == events + one.events + Drain(q[1..], reach, now).events
               else events + Drain(q, reach, now).events == events + one.events
  {
    assert Ids(q) == [q[0].Id()] + Ids(q[1..]);
    DrainEvents(q, reach, now);
    hide *;
    HeadPollOne(events, q[0], Ids(q[1..]), reach, now, pushed);
    Assoc(events, PollOne(q[0], reach, now).events, Drain(q[1..], reach, now).events);
  }

  lemma DrainEvents(q: seq<HoldMessage>, reach: set<EndpointAddr>, now: Time)
    requires q != []
    ensures var one := PollOne(q[0], reach, now);
            Drain(q, reach, now).events ==
            if one.queue == [] then one.events + Drain(q[1..], reach, now).events else one.events
  {
    hide PollOne;
  }

  // Polling the front, and letting it leave.
  lemma HeadPollOne(events: seq<Event>, h: HoldMessage, rest: seq<MessageId>, reach: set<EndpointAddr>, now: Time,
                    pushed: seq<MessageId>)
    requires AllHead(events, pushed)
    requires FlatMap(LeftOf, events) + ([h.Id()] + rest) == pushed
    ensures var one := PollOne(h, reach, now);
            && AllHead(events + one.events, pushed)
            && (one.queue == [] ==> FlatMap(LeftOf, events + one.events) + rest == pushed)
  {
    var sends, leave := SendEvents(h, reach), LeaveEvent(h.SendUnsent(reach));
    LeavesOne(h, reach);
    HeadSend(events, h, reach, pushed);
    assert leave.Leave? && leave.id == h.Id();
    assert PollOne(h, reach, now).events == sends || (PollOne(h, reach, now).events == sends + [leave]);
    assert PollOne(h, reach, now).queue == [] ==> PollOne(h, reach, now).events == sends + [leave];
    hide *;
    HeadPop(events, sends, leave, pushed, rest);
  }

  lemma HeadPop(events: seq<Event>, sends: seq<Event>, leave: Event, pushed: seq<MessageId>, rest: seq<MessageId>)
    requires AllHead(events + sends, pushed) && leave.Leave?
    requires FlatMap(LeftOf, sends + [leave]) == [leave.id]
    requires FlatMap(LeftOf, events) + ([leave.id] + rest) == pushed
    ensures AllHead(events + (sends + [leave]), pushed)
    ensures FlatMap(LeftOf, events + (sends + [leave])) + rest == pushed
  {
    hide *;
    HeadLeave(events + sends, leave, pushed);
    assert events + sends + [leave] == events + (sends + [leave]);
    FlatMapConcat(LeftOf, events, sends + [leave]);
    var left := FlatMap(LeftOf, events);
    assert left + [leave.id] + rest == left + ([leave.id] + rest);
  }

  lemma HeadLeave(events: seq<Event>, e: Event, pushed: seq<MessageId>)
    requires AllHead(events, pushed) && !e.Dispatch?
    ensures AllHead(events + [e], pushed)
  {
    hide FlatMap;
    HeadAppend(events, [e], pushed);
  }

  lemma HeadSettle(events: seq<Event>, q: seq<HoldMessage>, ids: set<MessageId>, reach: set<EndpointAddr>,
                   now: Time, pushed: seq<MessageId>)
    requires AllHead(events, pushed)
    requires FlatMap(LeftOf, events) + Ids(q) == pushed
    ensures AllHead(events + Settle(true, q, ids, reach, now).events, pushed)
  {
    hide FlatMap, AllHead, Drain;
    if q == [] || q[0].Id() !in ids {
      assert events + [] == events;
    }
    HeadDrain(events, q, reach, now, pushed);
    assert events + [] == events;
  }

  // ----- The parts of a step -----

  // The bookkeeping of any part of a step: `out` leaves, `refused` is turned away, `new` comes in.
  lemma Moves(t: Topic, after: Topic, loaded: seq<MessageId>, delegated: seq<MessageId>,
              out: seq<MessageId>, refused: seq<MessageId>, new_: seq<MessageId>)
    requires Accounted(t, loaded, delegated) && after.config == t.config
    requires Left(after) == Left(t) + out && Refused(after) == Refused(t) + refused
    requires Created(after) == Created(t) + new_
    requires multiset(out) + multiset(Ids(after.queue)) == multiset(Ids(t.queue)) + multiset(new_)
    requires t.config.blocking ==> out + Ids(after.queue) == Ids(t.queue) + new_
    requires HeadOnly(after, loaded) && Bounded(after, loaded)
    ensures Accounted(after, loaded, delegated + new_ + refused)
  {
    hide Left, Refused, Created, Ids, HeadOnly, Bounded;
    var held, heldAfter := Ids(t.queue), Ids(after.queue);
    assert multiset(Left(after)) == multiset(Left(t)) + multiset(out);
    assert multiset(Created(after)) == multiset(Created(t)) + multiset(new_);
    assert multiset(Refused(after)) == multiset(Refused(t)) + multiset(refused);
    forall x ensures (multiset(Left(after)) + multiset(heldAfter))[x] == (multiset(loaded) + multiset(Created(after)))[x] {
      assert (multiset(Left(t)) + multiset(held))[x] == (multiset(loaded) + multiset(Created(t)))[x];
      assert (multiset(out) + multiset(heldAfter))[x] == (multiset(held) + multiset(new_))[x];
    }
    assert Balanced(after, loaded, delegated + new_ + refused);
    if t.config.blocking {
      assert Left(t) + out + heldAfter == Left(t) + (out + heldAfter);
      assert Left(t) + (held + new_) == Left(t) + held + new_;
      assert loaded + Created(t) + new_ == loaded + (Created(t) + new_);
    }
    assert InOrder(after, loaded);
  }

  lemma LogSame(t: Topic, command: DurableCommand)
    requires !command.Create?
    ensures FlatMap(CreatedOf, t.commands + [command]) == Created(t)
  {
    FlatMapConcat(CreatedOf, t.commands, [command]);
    FlatMapCons(CreatedOf, command, []);
  }

  lemma NoteKeeps(t: Topic, id: MessageId, acks: StatusMap, loaded: seq<MessageId>, delegated: seq<MessageId>)
    requires Accounted(t, loaded, delegated)
    ensures Accounted(Note(t, id, acks), loaded, delegated)
  {
    hide FlatMap;
    assert Ids(Note(t, id, acks).queue) == Ids(t.queue);
    LogSame(t, UpdateStatus(id, acks));
  }

  lemma HeadFlush(t: Topic, id: MessageId, env: Env, loaded: seq<MessageId>)
    requires InOrder(t, loaded) && HeadOnly(t, loaded)
    requires Created(Flush(t, id, env)) == Created(t)
    ensures HeadOnly(Flush(t, id, env), loaded)
  {
    hide FlatMap, Settle, AllHead;
    if t.config.blocking {
      HeadSettle(t.events, t.queue, {id}, t.Reachable(env.node), env.now, loaded + Created(t));
    }
  }

  lemma FlushKeeps(t: Topic, id: MessageId, env: Env, loaded: seq<MessageId>, delegated: seq<MessageId>)
    requires Accounted(t, loaded, delegated)
    ensures Accounted(Flush(t, id, env), loaded, delegated)
  {
    var p, after := FlushResult(t, id, env), Flush(t, id, env);
    SettleBalance(t.config.blocking, t.queue, {id}, t.Reachable(env.node), env.now);
    hide FlatMap, Settle, HeadOnly;
    FlatMapConcat(LeftOf, t.events, p.events);
    FlatMapConcat(RefusedOf, t.events, p.events);
    FlatMapConcat(CreatedOf, t.commands, Archives(p.events));
    ArchivesCreateNothing(p.events);
    assert Created(t) + [] == Created(t) && Refused(t) + [] == Refused(t) && delegated + [] + [] == delegated;
    HeadFlush(t, id, env, loaded);
    assert Ids(t.queue) + [] == Ids(t.queue);
    Moves(t, after, loaded, delegated, FlatMap(LeftOf, p.events), [], []);
  }

  lemma UpdateAndFlushKeeps(t: Topic, id: MessageId, acks: StatusMap, env: Env, loaded: seq<MessageId>,
                            delegated: seq<MessageId>)
    requires Accounted(t, loaded, delegated)
    ensures Accounted(UpdateAndFlush(t, id, acks, env), loaded, delegated)
  {
    hide Accounted, Note, Flush;
    NoteKeeps(t, id, acks, loaded, delegated);
    FlushKeeps(Note(t, id, acks), id, env, loaded, delegated);
  }

  lemma {:induction false} PollAllKeeps(t: Topic, ids: seq<MessageId>, env: Env, loaded: seq<MessageId>,
                                        delegated: seq<MessageId>)
    requires Accounted(t, loaded, delegated)
    ensures Accounted(PollAll(t, ids, env), loaded, delegated)
    decreases ids
  {
    hide *;
    PollAllOne(t, ids, env);
    if ids != [] {
      UpdateAndFlushKeeps(t, ids[0], map[], env, loaded, delegated);
      PollAllKeeps(UpdateAndFlush(t, ids[0], map[], env), ids[1..], env, loaded, delegated);
    }
  }

  lemma EmitOne(t: Topic, e: Event, loaded: seq<MessageId>)
    requires !e.Dispatch? && HeadOnly(t, loaded)
    ensures Left(t.Emit(e)) == Left(t) + LeftOf(e)
    ensures Refused(t.Emit(e)) == Refused(t) + RefusedOf(e)
    ensures HeadOnly(t.Emit(e), loaded)
  {
    hide FlatMap;
    FlatMapConcat(LeftOf, t.events, [e]);
    FlatMapConcat(RefusedOf, t.events, [e]);
    FlatMapCons(LeftOf, e, []);
    FlatMapCons(RefusedOf, e, []);
    if t.config.blocking {
      HeadLeave(t.events, e, loaded + Created(t));
    }
  }

  lemma RefuseKeeps(t: Topic, id: MessageId, result: AckResult, loaded: seq<MessageId>, delegated: seq<MessageId>)
    requires Accounted(t, loaded, delegated)
    ensures Accounted(t.Emit(Refuse(id, result)), loaded, delegated + [id])
  {
    hide FlatMap, HeadOnly;
    EmitOne(t, Refuse(id, result), loaded);
    assert Left(t) + [] == Left(t) && Created(t) + [] == Created(t) && delegated + [] == delegated;
    assert [] + Ids(t.queue) == Ids(t.queue) + [];
    Moves(t, t.Emit(Refuse(id, result)), loaded, delegated, [], [id], []);
  }

  lemma DropFrontKeeps(t: Topic, loaded: seq<MessageId>, delegated: seq<MessageId>)
    requires Accounted(t, loaded, delegated) && t.queue != []
    ensures Accounted(DropFront(t), loaded, delegated)
  {
    hide FlatMap, HeadOnly;
    var id := t.queue[0].Id();
    assert HeadOnly(t.(queue := t.queue[1..]), loaded) by { HeadOnlySame(t, t.(queue := t.queue[1..]), loaded); }
    EmitOne(t.(queue := t.queue[1..]), Leave(id, Failure(Overflow)), loaded);
    assert Ids(t.queue) == [id] + Ids(t.queue[1..]);
    assert Refused(t) + [] == Refused(t) && Created(t) + [] == Created(t) && delegated + [] + [] == delegated;
    assert Ids(t.queue) + [] == Ids(t.queue);
    Moves(t, DropFront(t), loaded, delegated, [id], [], []);
  }

  lemma HeadOnlySame(t: Topic, u: Topic, loaded: seq<MessageId>)
    requires HeadOnly(t, loaded) && u.events == t.events && u.commands == t.commands && u.config == t.config
    ensures HeadOnly(u, loaded)
  {
  }

  lemma HeadMore(t: Topic, u: Topic, loaded: seq<MessageId>, id: MessageId)
    requires HeadOnly(t, loaded) && u.events == t.events && u.config == t.config
    requires Created(u) == Created(t) + [id]
    ensures HeadOnly(u, loaded)
  {
    hide FlatMap;
    assert loaded + Created(u) == loaded + Created(t) + [id];
    forall p | t.config.blocking && 0 <= p < |t.events| ensures HeadAt(t.events, loaded + Created(t) + [id], p) {
      assert HeadAt(t.events, loaded + Created(t), p);
    }
  }

  lemma EnqueueKeeps(t: Topic, h: HoldMessage, loaded: seq<MessageId>, delegated: seq<MessageId>)
    requires Accounted(t, loaded, delegated)
    requires Bounded(Enqueue(t, h), loaded)
    ensures Accounted(Enqueue(t, h), loaded, delegated + [h.Id()])
  {
    hide FlatMap, HeadOnly;
    var after := Enqueue(t, h);
    IdsConcat(t.queue, [h]);
    assert Ids([h]) == [h.Id()];
    FlatMapConcat(CreatedOf, t.commands, [Create(h.message)]);
    FlatMapCons(CreatedOf, Create(h.message), []);
    HeadMore(t, after, loaded, h.Id());
    assert Left(t) + [] == Left(t) && Refused(t) + [] == Refused(t) && delegated + [h.Id()] + [] == delegated + [h.Id()];
    assert [] + Ids(after.queue) == Ids(t.queue) + [h.Id()];
    Moves(t, after, loaded, delegated, [], [], [h.Id()]);
  }

  lemma HoldNewKeeps(t: Topic, m: Message, env: Env, hash: Hashing, loaded: seq<MessageId>, delegated: seq<MessageId>)
    requires Accounted(t, loaded, delegated)
    ensures Accounted(HoldNew(t, m, env, hash), loaded, delegated + [m.id])
  {
    hide FlatMap, HeadOnly, Balanced, InOrder, UpdateAndFlush;
    if m.target.Push? && env.ring == [] {
      RefuseKeeps(t, m.id, Failure(NoAvailableTarget), loaded, delegated);
    } else if t.Full() && t.config.overflow.value.policy.RejectNew? {
      RefuseKeeps(t, m.id, Failure(Overflow), loaded, delegated);
    } else {
      var room := if t.Full() then DropFront(t) else t;
      if t.Full() {
        DropFrontKeeps(t, loaded, delegated);
      }
      EnqueueKeeps(room, Hold(t, m, env, hash), loaded, delegated);
      UpdateAndFlushKeeps(Enqueue(room, Hold(t, m, env, hash)), m.id, map[], env, loaded, delegated + [m.id]);
    }
  }

  lemma PrepareKeeps(t: Topic, p: Proposal, loaded: seq<MessageId>, delegated: seq<MessageId>)
    requires p.OfEndpoint()
    requires Accounted(t, loaded, delegated)
    ensures Accounted(Prepare(t, p), loaded, delegated)
  {
    hide FlatMap;
    assert Ids(Prepare(t, p).queue) == Ids(t.queue);
  }

  lemma StepKeeps(t: Topic, p: Proposal, env: Env, hash: Hashing, loaded: seq<MessageId>, delegated: seq<MessageId>)
    requires Accounted(t, loaded, delegated)
    ensures Accounted(Step(t, p, env, hash), loaded, delegated + DelegatedOf(p))
  {
    hide Accounted, HoldNew, UpdateAndFlush, PollAll, Prepare;
    assert delegated + [] == delegated;
    match p
    case Delegate(m) => HoldNewKeeps(t, m, env, hash, loaded, delegated);
    case SetState(id, acks) => UpdateAndFlushKeeps(t, id, acks, env, loaded, delegated);
    case _ =>
      PrepareKeeps(t, p, loaded, delegated);
      PollAllKeeps(Prepare(t, p), env.walk, env, loaded, delegated);
  }

  lemma {:induction false} RunKeeps(t: Topic, log: seq<Proposal>, envs: seq<Env>, hash: Hashing,
                                    loaded: seq<MessageId>, delegated: seq<MessageId>)
    requires |envs| == |log| && Accounted(t, loaded, delegated)
    ensures Accounted(Run(t, log, envs, hash), loaded, delegated + FlatMap(DelegatedOf, log))
    decreases log
  {
    hide *;
    RunOne(t, log, envs, hash);
    if log == [] {
      FlatMapCons(DelegatedOf, SetState(0, map[]), []);
      assert delegated + [] == delegated;
    } else {
      FlatMapCons(DelegatedOf, log[0], log[1..]);
      assert log == [log[0]] + log[1..];
      StepKeeps(t, log[0], envs[0], hash, loaded, delegated);
      var more, rest := delegated + DelegatedOf(log[0]), FlatMap(DelegatedOf, log[1..]);
      RunKeeps(Step(t, log[0], envs[0], hash), log[1..], envs[1..], hash, loaded, more);
      assert more + rest == delegated + (DelegatedOf(log[0]) + rest);
    }
  }

  lemma LoadedIsAccounted(config: TopicConfig, messages: seq<DurableMessage>)
    ensures var t := FromDurable(config, messages); Accounted(t, Ids(t.queue), [])
  {
    var t := FromDurable(config, messages);
    assert Left(t) == [] && Refused(t) == [] && Created(t) == [];
    assert [] + Ids(t.queue) == Ids(t.queue) + [];
  }

  // Conservation: over a topic's life, with distinct message ids, every loaded or delegated message
  // is either held, with no ack result emitted for it, or not held, with exactly one.
  lemma Conservation(config: TopicConfig, messages: seq<DurableMessage>, log: seq<Proposal>, envs: seq<Env>,
                     hash: Hashing, id: MessageId)
    requires |envs| == |log|
    requires var loaded := Ids(FromDurable(config, messages).queue);
             NoRepeats(loaded + FlatMap(DelegatedOf, log)) && id in loaded + FlatMap(DelegatedOf, log)
    ensures var t := Run(FromDurable(config, messages), log, envs, hash);
            var acks := Left(t) + Refused(t);
            && NoRepeats(Ids(t.queue)) && NoRepeats(acks)
            && (id in Ids(t.queue) <==> id !in acks)
  {
    var start := FromDurable(config, messages);
    var loaded, delegated, t := Ids(start.queue), FlatMap(DelegatedOf, log), Run(start, log, envs, hash);
    LoadedIsAccounted(config, messages);
    hide FlatMap, Run, FromDurable, InOrder, HeadOnly, Bounded, Ids, Left, Refused, Created, NoRepeats;
    RunKeeps(start, log, envs, hash, loaded, []);
    assert [] + delegated == delegated;
    hide Balanced;
    ConservationSum(t, loaded, delegated);
    Partition(Ids(t.queue), Left(t) + Refused(t), loaded + delegated, id);
  }

  // Head-of-line order: in a blocking topic messages leave exactly in the order in which they were
  // loaded and pushed, and a message is handed over only while it is the next one to leave.
  lemma BlockingOrder(config: TopicConfig, messages: seq<DurableMessage>, log: seq<Proposal>, envs: seq<Env>, hash: Hashing)
    requires |envs| == |log| && config.blocking
    ensures var start := FromDurable(config, messages); var t := Run(start, log, envs, hash);
            && Left(t) + Ids(t.queue) == Ids(start.queue) + Created(t)
            && forall p :: 0 <= p < |t.events| ==> HeadAt(t.events, Ids(start.queue) + Created(t), p)
  {
    var start := FromDurable(config, messages);
    LoadedIsAccounted(config, messages);
    RunConfig(start, log, envs, hash);
    assert start.config == config;
    hide FlatMap, Run, FromDurable, Balanced, Bounded, Ids, Left, Refused, Created, HeadAt;
    RunKeeps(start, log, envs, hash, Ids(start.queue), []);
  }

  // Overflow bound: under either policy the queue never grows beyond the larger of the configured
  // size and the number of messages it was loaded with.
  lemma OverflowBound(config: TopicConfig, messages: seq<DurableMessage>, log: seq<Proposal>, envs: seq<Env>, hash: Hashing)
    requires |envs| == |log| && config.overflow.Some?
    ensures var t := Run(FromDurable(config, messages), log, envs, hash);
            |t.queue| <= config.overflow.value.size || |t.queue| <= |messages|
  {
    var start := FromDurable(config, messages);
    LoadedIsAccounted(config, messages);
    RunConfig(start, log, envs, hash);
    assert start.config == config;
    assert |start.queue| == |messages|;
    hide FlatMap, Run, FromDurable, Balanced, InOrder, HeadOnly, Left, Refused, Created;
    RunKeeps(start, log, envs, hash, Ids(start.queue), []);
  }

  lemma PrepareConfig(t: Topic, p: Proposal)
    requires p.OfEndpoint()
    ensures Prepare(t, p).config == t.config
  {
  }

  lemma StepConfig(t: Topic, p: Proposal, env: Env, hash: Hashing)
    ensures Step(t, p, env, hash).config == t.config
  {
    if p.OfEndpoint() {
      PollAllIsWalk(Prepare(t, p), env.walk, env);
    }
  }

  lemma {:induction false} RunConfig(t: Topic, log: seq<Proposal>, envs: seq<Env>, hash: Hashing)
    requires |envs| == |log|
    ensures Run(t, log, envs, hash).config == t.config
    decreases log
  {
    hide *;
    RunOne(t, log, envs, hash);
    if log != [] {
      StepConfig(t, log[0], envs[0], hash);
      RunConfig(Step(t, log[0], envs[0], hash), log[1..], envs[1..], hash);
    }
  }

  lemma ConservationSum(t: Topic, loaded: seq<MessageId>, delegated: seq<MessageId>)
    requires Balanced(t, loaded, delegated)
    ensures multiset(Ids(t.queue)) + multiset(Left(t) + Refused(t)) == multiset(loaded + delegated)
  {
    hide Ids, Left, Refused, Created;
    var held, out, turned := multiset(Ids(t.queue)), multiset(Left(t)), multiset(Refused(t));
    forall x ensures (held + (out + turned))[x] == (multiset(loaded) + multiset(delegated))[x] {
      assert (out + held)[x] == (multiset(loaded) + multiset(Created(t)))[x];
    }
    assert multiset(Left(t) + Refused(t)) == multiset(Left(t)) + multiset(Refused(t));
    assert multiset(loaded + delegated) == multiset(loaded) + multiset(delegated);
  }

  lemma Partition(held: seq<MessageId>, acks: seq<MessageId>, known: seq<MessageId>, id: MessageId)
    requires multiset(held) + multiset(acks) == multiset(known) && NoRepeats(known) && id in known
    ensures NoRepeats(held) && NoRepeats(acks) && (id in held <==> id !in acks)
  {
    NoRepeatsCount(known);
    NoRepeatsCount(held);
    NoRepeatsCount(acks);
    hide NoRepeats;
    assert forall x :: multiset(known)[x] == multiset(held)[x] + multiset(acks)[x];
    assert multiset(known)[id] >= 1;
  }
}
