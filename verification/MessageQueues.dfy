// The message queue: held messages by id, two time indexes, a cache of resolved ids and a size.

module MessageQueues {
  import opened Messages
  import opened Lists
  import opened Tries
  import opened HoldQueue
  import opened Topics
  import opened QueueIndex
  import opened Contexts

  datatype Poll = Ready | Pending

  // The statuses are walked in the order of a hash map.
  method SendUnsent(h: HoldMessage, reach: set<EndpointAddr>, ctx: ProposalContext) returns (sent: HoldMessage)
    requires ctx.sending == {}
    modifies ctx`sending, ctx`events
    ensures sent == h.SendUnsent(reach)
    ensures ctx.events == old(ctx.events) + SendEvents(h, reach) && ctx.sending == {}
  {
    var status, todo := h.waitAck.status, h.waitAck.status.Keys;
    while todo != {}
      invariant todo <= h.waitAck.status.Keys == status.Keys
      invariant ctx.events == old(ctx.events) && ctx.sending == h.Outgoing(reach) - todo
      invariant forall ep :: ep in status ==>
                  status[ep] == if ep in h.Outgoing(reach) - todo then Sending else h.waitAck.status[ep]
      decreases todo
    {
      ghost var some := Pick(todo);
      assert some in todo;
      var ep :| ep in todo;
      todo := todo - {ep};
      if status[ep].Unsent? && ep in reach {
        status := status[ep := Sending];
        ctx.DispatchMessage(ep);
      }
      assert ep in h.Outgoing(reach) <==> h.waitAck.status[ep].Unsent? && ep in reach;
    }
    assert ctx.sending == h.Outgoing(reach);
    ctx.EndDispatch(h.Id());
    sent := h.WithStatus(status);
    assert forall ep :: ep in status ==> status[ep] == if ep in h.Outgoing(reach) then Sending else h.waitAck.status[ep];
    assert status == h.SendUnsent(reach).waitAck.status;
  }

  // ----- Single messages in the list of held messages -----

  function Without(q: seq<HoldMessage>, ids: set<MessageId>): seq<HoldMessage> {
    if q == [] then [] else (if q[0].Id() in ids then [] else [q[0]]) + Without(q[1..], ids)
  }

  lemma {:induction false} WithoutOthers(q: seq<HoldMessage>, id: MessageId)
    requires id !in Ids(q)
    ensures Without(q, {id}) == q
  {
    if q != [] {
      assert Ids(q)[0] == q[0].Id() && Ids(q)[1..] == Ids(q[1..]);
      WithoutOthers(q[1..], id);
    }
  }

  lemma {:induction false} WithoutNone(q: seq<HoldMessage>)
    ensures Without(q, {}) == q
  {
    if q != [] {
      WithoutNone(q[1..]);
    }
  }

  lemma WithoutCons(h: HoldMessage, q: seq<HoldMessage>, ids: set<MessageId>)
    ensures Without([h] + q, ids) == (if h.Id() in ids then [] else [h]) + Without(q, ids)
  {
    assert ([h] + q)[1..] == q;
  }

  lemma {:induction false} WithoutTwice(q: seq<HoldMessage>, a: set<MessageId>, b: set<MessageId>)
    ensures Without(Without(q, a), b) == Without(q, a + b)
  {
    if q != [] {
      var h, rest := q[0], q[1..];
      assert q == [h] + rest;
      hide Without;
      WithoutTwice(rest, a, b);
      WithoutCons(h, rest, a);
      WithoutCons(h, rest, a + b);
      WithoutCons(h, Without(rest, a), b);
      assert [] + Without(rest, a) == Without(rest, a);
    }
  }

  lemma IdsTail(q: seq<HoldMessage>)
    requires q != [] && NoRepeats(Ids(q))
    ensures NoRepeats(Ids(q[1..])) && q[0].Id() !in Ids(q[1..])
    ensures Ids(q[1..]) == Ids(q)[1..]
  {
    var ids, rest := Ids(q), Ids(q[1..]);
    assert rest == ids[1..];
    forall i | 0 <= i < |rest| ensures rest[i] != ids[0] {
      assert rest[i] == ids[i + 1];
    }
  }

  // Taking out the message at a position, when every message is listed once.
  lemma {:induction false} WithoutAt(q: seq<HoldMessage>, k: nat)
    requires k < |q| && NoRepeats(Ids(q))
    ensures Without(q, {q[k].Id()}) == q[..k] + q[k + 1..]
  {
    var rest := q[1..];
    IdsTail(q);
    if k == 0 {
      WithoutOthers(rest, q[0].Id());
    } else {
      assert Ids(q)[0] != Ids(q)[k];
      WithoutAt(rest, k - 1);
      assert [q[0]] + (rest[..k - 1] + rest[k..]) == q[..k] + q[k + 1..];
    }
  }

  lemma SentAlready(h: HoldMessage, reach: set<EndpointAddr>)
    requires h.Outgoing(reach) == {}
    ensures h.SendUnsent(reach) == h && SendEvents(h, reach) == []
  {
    assert forall ep :: ep in h.waitAck.status ==> ep !in h.Outgoing(reach);
    assert h.SendUnsent(reach).waitAck.status == h.waitAck.status;
  }

  // The message a poll looks at: in a blocking queue only the front.
  predicate Due(blocking: bool, q: seq<HoldMessage>, id: MessageId) {
    if blocking then q != [] && q[0].Id() == id else id in Ids(q)
  }

  function SendOne(q: seq<HoldMessage>, id: MessageId, reach: set<EndpointAddr>): (r: seq<HoldMessage>)
    ensures |r| == |q|
    ensures forall i :: 0 <= i < |q| ==> r[i] == if q[i].Id() == id then q[i].SendUnsent(reach) else q[i]
  {
    seq(|q|, i requires 0 <= i < |q| => if q[i].Id() == id then q[i].SendUnsent(reach) else q[i])
  }

  predicate Known(held: map<MessageId, HoldMessage>, order: seq<MessageId>) {
    forall i :: 0 <= i < |order| ==> order[i] in held
  }

  function LeaveEvents(held: map<MessageId, HoldMessage>, order: seq<MessageId>): seq<Event>
    requires Known(held, order)
  {
    seq(|order|, i requires 0 <= i < |order| => LeaveEvent(held[order[i]]))
  }

  // The cache is never stale: what it lists has nothing left to send and is resolved, and in a blocking
  // queue it lists the front at most.
  ghost predicate CacheOk(resolved: set<MessageId>, held: map<MessageId, HoldMessage>, blocking: bool, q: seq<HoldMessage>,
                          reach: set<EndpointAddr>, now: Time)
  {
    forall id :: id in resolved ==>
      && id in held && held[id].Outgoing(reach) == {} && held[id].IsResolved(now)
      && (blocking ==> q != [] && q[0].Id() == id)
  }

  lemma CacheFront(resolved: set<MessageId>, held: map<MessageId, HoldMessage>, q: seq<HoldMessage>,
                   reach: set<EndpointAddr>, now: Time)
    requires CacheOk(resolved, held, true, q, reach, now)
    requires q != [] ==> q[0].Id() in held && held[q[0].Id()] == q[0]
    ensures q == [] ==> resolved == {}
    ensures q != [] ==> resolved == {} || (resolved == {q[0].Id()} && q[0].SendUnsent(reach).IsResolved(now))
  {
    if q == [] {
      assert forall id :: id !in resolved;
    } else {
      assert forall id :: id in resolved ==> id == q[0].Id();
      if resolved != {} {
        assert resolved == {q[0].Id()};
        SentAlready(q[0], reach);
      }
    }
  }

  lemma EmptyCache(held: map<MessageId, HoldMessage>, q: seq<HoldMessage>, reach: set<EndpointAddr>, now: Time)
    ensures forall blocking: bool :: CacheOk({}, held, blocking, q, reach, now)
  {
  }

  lemma SendFront(q: seq<HoldMessage>, reach: set<EndpointAddr>)
    requires q != [] && NoRepeats(Ids(q))
    ensures SendOne(q, q[0].Id(), reach) == [q[0].SendUnsent(reach)] + q[1..]
  {
    SendOneAt(q, 0, reach);
  }

  // Sending a held message, in the map and in the list.
  lemma SentListed(timeId: seq<Timed>, idTime: map<MessageId, Time>, held: map<MessageId, HoldMessage>, id: MessageId,
                   reach: set<EndpointAddr>)
    requires Linked(timeId, idTime, held) && id in held
    ensures Linked(timeId, idTime, held[id := held[id].SendUnsent(reach)])
    ensures Listed(timeId, held[id := held[id].SendUnsent(reach)]) == SendOne(Listed(timeId, held), id, reach)
  {
    LinkedKeys(timeId, idTime, held);
    ListedHeld(timeId, idTime, held);
    UpdateListed(timeId, idTime, held, held[id].SendUnsent(reach));
    hide Linked, HoldMessage.SendUnsent;
    var q := Listed(timeId, held);
    assert forall i :: 0 <= i < |q| ==> q[i] in q;
  }

  lemma DueIsHeld(timeId: seq<Timed>, idTime: map<MessageId, Time>, held: map<MessageId, HoldMessage>,
                  blocking: bool, id: MessageId)
    requires Linked(timeId, idTime, held)
    ensures Due(blocking, Listed(timeId, held), id) ==> id in held
    ensures !blocking ==> (Due(blocking, Listed(timeId, held), id) <==> id in held)
  {
    LinkedKeys(timeId, idTime, held);
    ListedOnce(timeId, idTime, held);
  }

  // What a poll finds in the cache is due, has been sent already and is resolved.
  lemma Cached(resolved: set<MessageId>, timeId: seq<Timed>, idTime: map<MessageId, Time>, held: map<MessageId, HoldMessage>,
               blocking: bool, id: MessageId, reach: set<EndpointAddr>, now: Time)
    requires Linked(timeId, idTime, held) && CacheOk(resolved, held, blocking, Listed(timeId, held), reach, now)
    requires id in resolved
    ensures id in held && Due(blocking, Listed(timeId, held), id)
    ensures held[id].SendUnsent(reach) == held[id] && SendEvents(held[id], reach) == [] && held[id].IsResolved(now)
    ensures SendOne(Listed(timeId, held), id, reach) == Listed(timeId, held)
    ensures held[id := held[id].SendUnsent(reach)] == held
  {
    DueIsHeld(timeId, idTime, held, blocking, id);
    SentAlready(held[id], reach);
    SentListed(timeId, idTime, held, id, reach);
    assert held[id := held[id].SendUnsent(reach)] == held;
  }

  // A poll leaves the cache fresh.
  lemma CachePolled(resolved: set<MessageId>, held: map<MessageId, HoldMessage>, blocking: bool, q: seq<HoldMessage>,
                    id: MessageId, reach: set<EndpointAddr>, now: Time)
    requires CacheOk(resolved, held, blocking, q, reach, now) && id in held && Due(blocking, q, id)
    ensures var sent := held[id].SendUnsent(reach); var more := if sent.IsResolved(now) then {id} else {};
            CacheOk(resolved + more, held[id := sent], blocking, SendOne(q, id, reach), reach, now)
  {
    hide HoldMessage.SendUnsent, HoldMessage.IsResolved, HoldMessage.Outgoing, Ids;
    SendTwice(held[id], reach);
    if id in resolved {
      SentAlready(held[id], reach);
    }
  }

  // A queue in a snapshot: all its fields.
  datatype SavedQueue = SavedQueue(
    blocking: bool,
    holdMessages: map<MessageId, HoldMessage>,
    timeId: seq<Timed>,
    idTime: map<MessageId, Time>,
    resolved: set<MessageId>,
    size: nat
  )

  class MessageQueue {
    const blocking: bool
    var holdMessages: map<MessageId, HoldMessage>
    var timeId: seq<Timed>
    var idTime: map<MessageId, Time>
    var resolved: set<MessageId>
    var size: nat

    ghost predicate Coherent()
      reads this
    {
      Linked(timeId, idTime, holdMessages) && size == |timeId|
    }

    ghost predicate NoNewTimes(before: seq<Timed>)
      reads this
    {
      forall x :: x in timeId ==> x in before
    }

    // The held messages in push order.
    ghost function Contents(): (q: seq<HoldMessage>)
      requires Coherent()
      reads this
    {
      Listed(timeId, holdMessages)
    }

    ghost predicate CacheFresh(reach: set<EndpointAddr>, now: Time)
      requires Coherent()
      reads this
    {
      CacheOk(resolved, holdMessages, blocking, Contents(), reach, now)
    }

    constructor (blocking: bool)
      ensures Coherent() && Contents() == [] && resolved == {} && this.blocking == blocking
    {
      this.blocking := blocking;
      holdMessages, timeId, idTime, resolved, size := map[], [], map[], {}, 0;
    }

    function Serialize(): (s: SavedQueue)
      reads this
    {
      SavedQueue(blocking, holdMessages, timeId, idTime, resolved, size)
    }

    constructor Deserialize(s: SavedQueue)
      ensures blocking == s.blocking && holdMessages == s.holdMessages && timeId == s.timeId
      ensures idTime == s.idTime && resolved == s.resolved && size == s.size
    {
      blocking, holdMessages, timeId := s.blocking, s.holdMessages, s.timeId;
      idTime, resolved, size := s.idTime, s.resolved, s.size;
    }

    // The indexes stay coherent exactly when the id is new and the time of the push is not in use, and
    // the message comes last when it is pushed later than the others.
    method Push(h: HoldMessage, now: Time)
      requires Coherent()
      modifies this
      ensures holdMessages == old(holdMessages)[h.Id() := h] && resolved == old(resolved)
      ensures Coherent() <==> h.Id() !in old(holdMessages) && !TimeUsed(old(timeId), now)
      ensures h.Id() !in old(holdMessages) && (forall x :: x in old(timeId) ==> x.time < now) ==>
                Coherent() && Contents() == old(Contents()) + [h]
      ensures forall x :: x in timeId ==> x in old(timeId) || x.time == now
    {
      PushLinks(timeId, idTime, holdMessages, h, now);
      InsertTimedIs(timeId, Timed(now, h.Id()));
      if h.Id() !in holdMessages && forall x :: x in timeId ==> x.time < now {
        PushListed(timeId, idTime, holdMessages, h, now);
      }
      var id := h.Id();
      holdMessages := holdMessages[id := h];
      timeId := InsertTimed(timeId, Timed(now, id));
      idTime := idTime[id := now];
      size := size + 1;
    }

    // A stored message keeps its own time and statuses.
    method PushDurableMessage(m: DurableMessage)
      requires Coherent()
      modifies this
      ensures resolved == old(resolved)
      ensures holdMessages ==
              old(holdMessages)[m.message.id := HoldMessage(m.message, WaitAck(m.message.ackKind, m.status))]
      ensures Coherent() <==> m.message.id !in old(holdMessages) && !TimeUsed(old(timeId), m.time)
      ensures m.message.id !in old(holdMessages) && (forall x :: x in old(timeId) ==> x.time < m.time) ==>
                Coherent() && Contents() == old(Contents()) + [HoldMessage(m.message, WaitAck(m.message.ackKind, m.status))]
      ensures forall x :: x in timeId ==> x in old(timeId) || x.time == m.time
    {
      Push(Reload(m), m.time);
    }

    method Pop() returns (r: Option<HoldMessage>)
      requires Coherent()
      modifies this
      ensures Coherent()
      ensures old(Contents()) == [] ==> r == None && unchanged(this)
      ensures old(Contents()) != [] ==>
                && r == Some(old(Contents()[0])) && Contents() == old(Contents())[1..]
                && holdMessages == old(holdMessages) - {r.value.Id()}
                && resolved == old(resolved) - {r.value.Id()}
      ensures NoNewTimes(old(timeId))
    {
      if timeId == [] {
        return None;
      }
      var timed := timeId[0];
      RemoveLinks(timeId, idTime, holdMessages, 0);
      assert timed in timeId;
      assert Contents()[..0] + Contents()[1..] == Contents()[1..];
      timeId := RemoveTimed(timeId, timed.time);
      idTime := idTime - {timed.id};
      resolved := resolved - {timed.id};
      size := size - 1;
      r := Some(holdMessages[timed.id]);
      holdMessages := holdMessages - {timed.id};
    }

    method GetFront() returns (r: Option<HoldMessage>)
      requires Coherent()
      ensures r == if Contents() == [] then None else Some(Contents()[0])
    {
      if timeId == [] {
        return None;
      }
      assert timeId[0] in timeId;
      r := Some(holdMessages[timeId[0].id]);
    }

    method Remove(id: MessageId) returns (r: Option<HoldMessage>)
      requires Coherent()
      modifies this
      ensures Coherent() && resolved == old(resolved)
      ensures r == (if id in old(holdMessages) then Some(old(holdMessages)[id]) else None)
      ensures holdMessages == old(holdMessages) - {id}
      ensures Contents() == Without(old(Contents()), {id})
      ensures NoNewTimes(old(timeId))
    {
      hide Linked, Listed, Ids, Without, RemoveTimed, NoRepeats;
      ListedOnce(timeId, idTime, holdMessages);
      LinkedKeys(timeId, idTime, holdMessages);
      if id !in holdMessages {
        WithoutOthers(Contents(), id);
        return None;
      }
      ghost var k := PlaceOf(timeId, idTime, holdMessages, id);
      WithoutAt(Contents(), k);
      RemoveLinks(timeId, idTime, holdMessages, k);
      r := Some(holdMessages[id]);
      holdMessages := holdMessages - {id};
      timeId := RemoveTimed(timeId, idTime[id]);
      idTime := idTime - {id};
      size := size - 1;
    }

    // A status that is resolved is kept; any other, whatever the table says about it, is overwritten.
    method UpdateAck(ackTo: MessageId, from: EndpointAddr, kind: StatusKind)
      requires Coherent()
      modifies `holdMessages
      ensures Coherent()
      ensures Contents() == ApplyAcks(old(Contents()), ackTo, map[from := kind])
      ensures holdMessages.Keys == old(holdMessages).Keys
    {
      if ackTo in holdMessages {
        var hm := holdMessages[ackTo];
        var status := hm.waitAck.status;
        if from in status {
          if status[from].IsResolved(hm.waitAck.level) {
            assert hm.UpdateAcks(map[from := kind]).waitAck.status == status;
            UpdateListed(timeId, idTime, holdMessages, hm);
            return;
          }
          match status[from] {
            case Processed => return;
            case Received => if kind == Processed || kind == Failed { status := status[from := kind]; }
            case Sent => if kind != Unsent || kind != Sending { status := status[from := kind]; }
            case Sending => if kind != Unsent { status := status[from := kind]; }
            case Unsent => status := status[from := kind];
            case _ =>
          }
        }
        status := status[from := kind];
        assert hm.UpdateAcks(map[from := kind]).waitAck.status == status;
        UpdateListed(timeId, idTime, holdMessages, hm.WithStatus(status));
        holdMessages := holdMessages[ackTo := hm.WithStatus(status)];
      } else {
        ListedOnce(timeId, idTime, holdMessages);
        assert forall i :: 0 <= i < |Contents()| ==> Ids(Contents())[i] == Contents()[i].Id();
      }
    }

    method PollMessageInner(id: MessageId, reach: set<EndpointAddr>, ctx: ProposalContext) returns (r: Option<Poll>)
      requires Coherent() && ctx.sending == {}
      modifies `holdMessages, ctx`sending, ctx`events
      ensures Coherent() && ctx.sending == {}
      ensures r == None <==> if blocking then old(Contents()) == [] else id !in old(holdMessages)
      ensures !Due(blocking, old(Contents()), id) ==>
                r != Some(Ready) && holdMessages == old(holdMessages) && ctx.events == old(ctx.events)
      ensures Due(blocking, old(Contents()), id) ==>
                && id in old(holdMessages)
                && var h := old(holdMessages[id]);
                && holdMessages == old(holdMessages)[id := h.SendUnsent(reach)]
                && ctx.events == old(ctx.events) + SendEvents(h, reach)
                && r == Some(if h.SendUnsent(reach).IsResolved(ctx.now) then Ready else Pending)
                && Contents() == SendOne(old(Contents()), id, reach)
    {
      hide Linked, Listed, Ids, HoldMessage.SendUnsent, HoldMessage.IsResolved, HoldMessage.Outgoing, SendEvents, SendOne;
      DueIsHeld(timeId, idTime, holdMessages, blocking, id);
      LinkedKeys(timeId, idTime, holdMessages);
      if blocking {
        var front := GetFront();
        if front.None? {
          return None;
        }
        if front.value.Id() != id {
          return Some(Pending);
        }
      }
      if id !in holdMessages {
        return None;
      }
      SentListed(timeId, idTime, holdMessages, id, reach);
      var sent := SendUnsent(holdMessages[id], reach, ctx);
      holdMessages := holdMessages[id := sent];
      r := Some(if sent.IsResolved(ctx.now) then Ready else Pending);
    }

    // Polling with the cache is polling.
    method PollMessage(id: MessageId, reach: set<EndpointAddr>, ctx: ProposalContext) returns (r: Option<Poll>)
      requires Coherent() && CacheFresh(reach, ctx.now) && ctx.sending == {}
      modifies `holdMessages, `resolved, ctx`sending, ctx`events
      ensures Coherent() && CacheFresh(reach, ctx.now) && ctx.sending == {}
      ensures resolved == old(resolved) + (if r == Some(Ready) then {id} else {})
      ensures !Due(blocking, old(Contents()), id) ==>
                r != Some(Ready) && holdMessages == old(holdMessages) && ctx.events == old(ctx.events)
      ensures Due(blocking, old(Contents()), id) ==>
                && id in old(holdMessages)
                && var h := old(holdMessages[id]);
                && holdMessages == old(holdMessages)[id := h.SendUnsent(reach)]
                && ctx.events == old(ctx.events) + SendEvents(h, reach)
                && r == Some(if h.SendUnsent(reach).IsResolved(ctx.now) then Ready else Pending)
                && Contents() == SendOne(old(Contents()), id, reach)
    {
      hide Linked, Listed, Ids, HoldMessage.SendUnsent, HoldMessage.IsResolved, HoldMessage.Outgoing, SendEvents, SendOne,
           CacheOk, Due;
      if id in resolved {
        Cached(resolved, timeId, idTime, holdMessages, blocking, id, reach, ctx.now);
        return Some(Ready);
      }
      DueIsHeld(timeId, idTime, holdMessages, blocking, id);
      if Due(blocking, Contents(), id) {
        CachePolled(resolved, holdMessages, blocking, Contents(), id, reach, ctx.now);
      }
      r := PollMessageInner(id, reach, ctx);
      if r == Some(Ready) {
        resolved := resolved + {id};
      } else {
        assert resolved + {} == resolved;
      }
    }

    method SwapOutResolved() returns (swapped: set<MessageId>)
      modifies `resolved
      ensures swapped == old(resolved) && resolved == {}
    {
      swapped := resolved;
      resolved := {};
    }

    method BlockingPop(reach: set<EndpointAddr>, ctx: ProposalContext) returns (r: Option<HoldMessage>)
      requires blocking && Coherent() && CacheFresh(reach, ctx.now) && ctx.sending == {}
      modifies this, ctx`sending, ctx`events
      ensures Coherent() && CacheFresh(reach, ctx.now) && ctx.sending == {}
      ensures old(Contents()) == [] ==> r == None && Contents() == [] && ctx.events == old(ctx.events)
      ensures old(Contents()) != [] ==>
                var h := old(Contents()[0]);
                && ctx.events == old(ctx.events) + SendEvents(h, reach)
                && if h.SendUnsent(reach).IsResolved(ctx.now)
                   then r == Some(h.SendUnsent(reach)) && Contents() == old(Contents())[1..]
                   else r == None && Contents() == [h.SendUnsent(reach)] + old(Contents())[1..]
      ensures r == None ==> resolved == {}
      ensures NoNewTimes(old(timeId))
    {
      hide Linked, Listed, Ids, NoRepeats, SendOne, CacheOk, HoldMessage.IsResolved, HoldMessage.SendUnsent,
           HoldMessage.Outgoing, SendEvents;
      LinkedKeys(timeId, idTime, holdMessages);
      ListedOnce(timeId, idTime, holdMessages);
      CacheFront(resolved, holdMessages, Contents(), reach, ctx.now);
      var next := GetFront();
      if next.None? {
        return None;
      }
      SendFront(Contents(), reach);
      var poll := PollMessage(next.value.Id(), reach, ctx);
      if poll == Some(Ready) {
        r := Pop();
        assert resolved == {};
        EmptyCache(holdMessages, Contents(), reach, ctx.now);
      } else {
        r := None;
      }
    }

    // The non-blocking part walks a hash set: `order` is the order it yields.
    method Flush(reach: set<EndpointAddr>, ctx: ProposalContext) returns (ghost order: seq<MessageId>)
      requires Coherent() && CacheFresh(reach, ctx.now) && ctx.sending == {}
      modifies this, ctx
      ensures Coherent() && resolved == {} && ctx.sending == {}
      ensures blocking ==>
                var d := Drain(old(Contents()), reach, ctx.now);
                && Contents() == d.queue && ctx.events == old(ctx.events) + d.events
                && ctx.commands == old(ctx.commands) + Archives(d.events)
      ensures !blocking ==>
                && Enumerates(order, old(resolved)) && Known(old(holdMessages), order)
                && Contents() == Without(old(Contents()), old(resolved))
                && ctx.events == old(ctx.events) + LeaveEvents(old(holdMessages), order)
                && ctx.commands == old(ctx.commands) + Archives(LeaveEvents(old(holdMessages), order))
      ensures NoNewTimes(old(timeId))
    {
      order := [];
      if blocking {
        FlushBlocking(reach, ctx);
      } else {
        order := FlushResolved(reach, ctx);
      }
    }

    method FlushBlocking(reach: set<EndpointAddr>, ctx: ProposalContext)
      requires blocking && Coherent() && CacheFresh(reach, ctx.now) && ctx.sending == {}
      modifies this, ctx
      ensures Coherent() && resolved == {} && ctx.sending == {}
      ensures var d := Drain(old(Contents()), reach, ctx.now);
              && Contents() == d.queue && ctx.events == old(ctx.events) + d.events
              && ctx.commands == old(ctx.commands) + Archives(d.events)
      ensures NoNewTimes(old(timeId))
    {
      hide Drain, FlatMap, Linked, Listed, HoldMessage.IsResolved, HoldMessage.SendUnsent;
      ghost var d := Drain(Contents(), reach, ctx.now);
      ghost var cur, out: seq<Event> := Contents(), [];
      ArchivesNone();
      assert old(ctx.events) + out == ctx.events && old(ctx.commands) + Archives(out) == ctx.commands;
      while true
        invariant Coherent() && CacheFresh(reach, ctx.now) && ctx.sending == {}
        invariant Contents() == cur && NoNewTimes(old(timeId))
        invariant ctx.events == old(ctx.events) + out && ctx.commands == old(ctx.commands) + Archives(out)
        invariant d == Join(Polled([], out), Drain(cur, reach, ctx.now))
        decreases |cur|
      {
        var m := BlockingPop(reach, ctx);
        if m.None? {
          DrainStops(cur, out, reach, ctx.now);
          return;
        }
        DrainGoesOn(cur, out, reach, ctx.now);
        var id := m.value.Id();
        ctx.ResolveAck(LeaveEvent(m.value));
        ctx.PushDurableCommand(Archive(id));
        Assoc(old(ctx.events) + out, SendEvents(cur[0], reach), [LeaveEvent(m.value)]);
        Assoc(old(ctx.events), out, SendEvents(cur[0], reach) + [LeaveEvent(m.value)]);
        Assoc(old(ctx.commands), Archives(out), [Archive(id)]);
        cur, out := cur[1..], out + (SendEvents(cur[0], reach) + [LeaveEvent(m.value)]);
      }
    }

    method FlushResolved(reach: set<EndpointAddr>, ctx: ProposalContext) returns (ghost order: seq<MessageId>)
      requires !blocking && Coherent() && CacheFresh(reach, ctx.now)
      modifies this, ctx`events, ctx`commands
      ensures Coherent() && resolved == {}
      ensures Taken(old(holdMessages), old(Contents()), old(ctx.events), old(ctx.commands), order, old(resolved),
                    holdMessages, Contents(), ctx.events, ctx.commands)
      ensures NoNewTimes(old(timeId))
    {
      assert forall id :: id in holdMessages ==> holdMessages[id].Id() == id;
      assert forall id :: id in resolved ==> id in holdMessages;
      order := [];
      ghost var held, q := holdMessages, Contents();
      ghost var events, commands := ctx.events, ctx.commands;
      TakenNone(held, q, events, commands);
      hide CacheFresh, Known, Without, FlatMap, Archives, Enumerates, LeaveEvents, Linked, Listed, Ids, Taken;
      var todo := SwapOutResolved();
      ghost var all := todo;
      assert all - todo == {};
      while todo != {}
        invariant Coherent() && resolved == {} && todo <= all && NoNewTimes(old(timeId))
        invariant Taken(held, q, events, commands, order, all - todo, holdMessages, Contents(), ctx.events, ctx.commands)
        decreases todo
      {
        ghost var some := Pick(todo);
        assert some in todo;
        var id :| id in todo;
        TakenHeld(held, q, events, commands, order, all - todo, holdMessages, Contents(), ctx.events, ctx.commands, id);
        TakenMore(held, q, events, commands, order, all - todo, holdMessages, Contents(), ctx.events, ctx.commands, id);
        assert all - todo + {id} == all - (todo - {id});
        Release(id, ctx);
        todo, order := todo - {id}, order + [id];
      }
      assert all - todo == all;
    }

    method Release(id: MessageId, ctx: ProposalContext)
      requires Coherent() && id in holdMessages
      modifies this, ctx`events, ctx`commands
      ensures Coherent() && resolved == old(resolved)
      ensures holdMessages == old(holdMessages) - {id} && Contents() == Without(old(Contents()), {id})
      ensures old(holdMessages)[id].Id() == id
      ensures ctx.events == old(ctx.events) + [LeaveEvent(old(holdMessages)[id])]
      ensures ctx.commands == old(ctx.commands) + [Archive(id)]
      ensures NoNewTimes(old(timeId))
    {
      var m := Remove(id);
      if m.Some? {
        ctx.ResolveAck(LeaveEvent(m.value));
        ctx.PushDurableCommand(Archive(id));
      }
    }

    // How an update ends: poll, and flush when that resolved the message. With an empty cache this is
    // one settlement of the list of held messages, and the cache is empty again afterwards.
    method PollAndFlush(id: MessageId, reach: set<EndpointAddr>, ctx: ProposalContext)
      requires Coherent() && resolved == {} && ctx.sending == {}
      modifies this, ctx
      ensures Coherent() && resolved == {} && ctx.sending == {} && NoNewTimes(old(timeId))
      ensures EndsAs(Settle(blocking, old(Contents()), {id}, reach, ctx.now), Contents(),
                     old(ctx.events), ctx.events, old(ctx.commands), ctx.commands)
    {
      hide Settle, Drain, Without, LeaveEvents, FlatMap, Archives, NoRepeats, Ids, SendOne, Linked, Listed,
           Due, Known, Enumerates, HoldMessage.IsResolved, HoldMessage.SendUnsent, HoldMessage.Outgoing,
           SendEvents, CacheOk, EndsAs;
      ghost var q, held := Contents(), holdMessages;
      ghost var events, commands := ctx.events, ctx.commands;
      LinkedKeys(timeId, idTime, held);
      ListedOnce(timeId, idTime, held);
      EmptyCache(held, q, reach, ctx.now);
      ghost var k := 0;
      ghost var due := Due(blocking, q, id);
      if due {
        k := DuePlace(blocking, q, id);
        ListedAt(timeId, idTime, held, k);
      }
      var poll := PollMessage(id, reach, ctx);
      ghost var polled := holdMessages;
      if poll == Some(Ready) {
        assert resolved == {id};
        ghost var order := Flush(reach, ctx);
        if blocking {
          AfterFlushBlocking(q, reach, ctx.now, events, commands);
        } else {
          AfterFlushResolved(q, k, reach, ctx.now, events, commands, polled, order);
        }
      } else if due {
        AfterPending(blocking, q, k, reach, ctx.now, events, commands);
      } else {
        AfterNothing(blocking, q, id, reach, ctx.now, events, commands);
      }
    }
  }

  // ----- Steps of the flush -----

  lemma DrainStops(cur: seq<HoldMessage>, out: seq<Event>, reach: set<EndpointAddr>, now: Time)
    requires cur == [] || !cur[0].SendUnsent(reach).IsResolved(now)
    ensures Join(Polled([], out), Drain(cur, reach, now)) ==
            if cur == [] then Polled([], out)
            else Polled([cur[0].SendUnsent(reach)] + cur[1..], out + SendEvents(cur[0], reach))
    ensures cur != [] ==> Archives(out + SendEvents(cur[0], reach)) == Archives(out)
  {
    assert out + [] == out;
    if cur != [] {
      assert cur == [cur[0]] + cur[1..];
      DrainCons(cur[0], cur[1..], reach, now);
      assert SendEvents(cur[0], reach) + [] == SendEvents(cur[0], reach);
      ArchivesOfPoll(cur[0], reach);
      FlatMapConcat(ArchiveOf, out, SendEvents(cur[0], reach));
      assert Archives(out) + [] == Archives(out);
    }
  }

  lemma DrainGoesOn(cur: seq<HoldMessage>, out: seq<Event>, reach: set<EndpointAddr>, now: Time)
    requires cur != [] && cur[0].SendUnsent(reach).IsResolved(now)
    ensures var leaving := SendEvents(cur[0], reach) + [LeaveEvent(cur[0].SendUnsent(reach))];
            && Join(Polled([], out), Drain(cur, reach, now)) == Join(Polled([], out + leaving), Drain(cur[1..], reach, now))
            && Archives(out + leaving) == Archives(out) + [Archive(cur[0].Id())]
  {
    var sends, leave := SendEvents(cur[0], reach), LeaveEvent(cur[0].SendUnsent(reach));
    assert cur == [cur[0]] + cur[1..];
    DrainCons(cur[0], cur[1..], reach, now);
    var rest := Drain(cur[1..], reach, now);
    assert [] + rest.queue == rest.queue;
    Assoc(out, sends + [leave], rest.events);
    ArchivesOfPoll(cur[0], reach);
    hide *;
    FlatMapConcat(ArchiveOf, out, sends + [leave]);
  }

  lemma ArchivesNone()
    ensures Archives([]) == []
  {
  }

  lemma ArchivesOfPoll(h: HoldMessage, reach: set<EndpointAddr>)
    ensures FlatMap(ArchiveOf, SendEvents(h, reach)) == []
    ensures FlatMap(ArchiveOf, SendEvents(h, reach) + [LeaveEvent(h.SendUnsent(reach))]) == [Archive(h.Id())]
  {
    var leave := LeaveEvent(h.SendUnsent(reach));
    FlatMapConcat(ArchiveOf, SendEvents(h, reach), [leave]);
    FlatMapCons(ArchiveOf, leave, []);
    if h.Outgoing(reach) != {} {
      FlatMapCons(ArchiveOf, SendEvents(h, reach)[0], []);
    }
  }

  // How far the flush of a non-blocking queue has got: `order` lists what is gone.
  ghost predicate Taken(held: map<MessageId, HoldMessage>, q: seq<HoldMessage>, events: seq<Event>,
                        commands: seq<DurableCommand>,
                        order: seq<MessageId>, gone: set<MessageId>,
                        heldNow: map<MessageId, HoldMessage>, qNow: seq<HoldMessage>,
                        eventsNow: seq<Event>, commandsNow: seq<DurableCommand>)
  {
    && Enumerates(order, gone) && Known(held, order)
    && heldNow == held - gone
    && qNow == Without(q, gone)
    && eventsNow == events + LeaveEvents(held, order)
    && commandsNow == commands + Archives(LeaveEvents(held, order))
  }

  lemma TakenNone(held: map<MessageId, HoldMessage>, q: seq<HoldMessage>, events: seq<Event>, commands: seq<DurableCommand>)
    ensures Taken(held, q, events, commands, [], {}, held, q, events, commands)
  {
    WithoutNone(q);
    EnumeratesNone(held);
    ArchivesNone();
    assert events + [] == events && commands + [] == commands && held - {} == held;
  }

  lemma TakenHeld(held: map<MessageId, HoldMessage>, q: seq<HoldMessage>, events: seq<Event>, commands: seq<DurableCommand>,
                  order: seq<MessageId>, gone: set<MessageId>,
                  heldNow: map<MessageId, HoldMessage>, qNow: seq<HoldMessage>,
                  eventsNow: seq<Event>, commandsNow: seq<DurableCommand>, id: MessageId)
    requires Taken(held, q, events, commands, order, gone, heldNow, qNow, eventsNow, commandsNow)
    requires id in held && id !in gone
    ensures id in heldNow && heldNow[id] == held[id]
  {
  }

  lemma TakenMore(held: map<MessageId, HoldMessage>, q: seq<HoldMessage>, events: seq<Event>, commands: seq<DurableCommand>,
                  order: seq<MessageId>, gone: set<MessageId>,
                  heldNow: map<MessageId, HoldMessage>, qNow: seq<HoldMessage>,
                  eventsNow: seq<Event>, commandsNow: seq<DurableCommand>, id: MessageId)
    requires Taken(held, q, events, commands, order, gone, heldNow, qNow, eventsNow, commandsNow)
    requires id in held && id !in gone && held[id].Id() == id
    ensures Taken(held, q, events, commands, order + [id], gone + {id}, heldNow - {id}, Without(qNow, {id}),
                  eventsNow + [LeaveEvent(held[id])], commandsNow + [Archive(id)])
  {
    hide Known, Without, FlatMap, Archives, Enumerates, LeaveEvents;
    WithoutTwice(q, gone, {id});
    EnumeratesMore(order, gone, id);
    LeaveEventsMore(held, order, id);
    Assoc(events, LeaveEvents(held, order), [LeaveEvent(held[id])]);
    Assoc(commands, Archives(LeaveEvents(held, order)), [Archive(id)]);
    assert held - gone - {id} == held - (gone + {id});
  }

  lemma EnumeratesNone(held: map<MessageId, HoldMessage>)
    ensures Enumerates<MessageId>([], {}) && Known(held, []) && LeaveEvents(held, []) == []
  {
  }

  lemma EnumeratesMore(order: seq<MessageId>, ids: set<MessageId>, id: MessageId)
    requires Enumerates(order, ids) && id !in ids
    ensures Enumerates(order + [id], ids + {id})
  {
    assert id !in order by {
      assert id in order ==> id in Elements(order);
    }
    assert Elements(order + [id]) == Elements(order) + {id};
  }

  lemma LeaveEventsMore(held: map<MessageId, HoldMessage>, order: seq<MessageId>, id: MessageId)
    requires id in held && Known(held, order)
    ensures Known(held, order + [id])
    ensures LeaveEvents(held, order + [id]) == LeaveEvents(held, order) + [LeaveEvent(held[id])]
    ensures held[id].Id() == id ==>
              Archives(LeaveEvents(held, order + [id])) == Archives(LeaveEvents(held, order)) + [Archive(id)]
  {
    assert LeaveEvents(held, order + [id]) == LeaveEvents(held, order) + [LeaveEvent(held[id])];
    FlatMapConcat(ArchiveOf, LeaveEvents(held, order), [LeaveEvent(held[id])]);
    FlatMapCons(ArchiveOf, LeaveEvent(held[id]), []);
  }

  // ----- Poll and flush are one settlement -----

  lemma {:induction false} PollEachAbsent(q: seq<HoldMessage>, id: MessageId, reach: set<EndpointAddr>, now: Time)
    requires id !in Ids(q)
    ensures PollEach(q, {id}, reach, now) == Polled(q, [])
  {
    if q != [] {
      assert Ids(q)[0] == q[0].Id() && Ids(q)[1..] == Ids(q[1..]);
      PollEachAbsent(q[1..], id, reach, now);
    }
  }

  lemma {:induction false} PollEachConcat(a: seq<HoldMessage>, b: seq<HoldMessage>, ids: set<MessageId>,
                                          reach: set<EndpointAddr>, now: Time)
    ensures PollEach(a + b, ids, reach, now) == Join(PollEach(a, ids, reach, now), PollEach(b, ids, reach, now))
  {
    var rest := PollEach(b, ids, reach, now);
    if a == [] {
      assert a + b == b && [] + rest.queue == rest.queue && [] + rest.events == rest.events;
    } else {
      var h, more := a[0], a[1..];
      assert a == [h] + more && a + b == [h] + (more + b);
      PollEachCons(h, more, ids, reach, now);
      PollEachCons(h, more + b, ids, reach, now);
      hide *;
      PollEachConcat(more, b, ids, reach, now);
      JoinAssoc(PollIf(h, ids, reach, now), PollEach(more, ids, reach, now), rest);
    }
  }

  lemma JoinAssoc(a: Polled, b: Polled, c: Polled)
    ensures Join(a, Join(b, c)) == Join(Join(a, b), c)
  {
    Assoc(a.queue, b.queue, c.queue);
    Assoc(a.events, b.events, c.events);
  }

  lemma PollEachOne(h: HoldMessage, reach: set<EndpointAddr>, now: Time)
    ensures PollEach([h], {h.Id()}, reach, now) == PollOne(h, reach, now)
  {
    assert [h] + [] == [h];
    PollEachCons(h, [], {h.Id()}, reach, now);
    var one := PollOne(h, reach, now);
    assert one.queue + [] == one.queue && one.events + [] == one.events;
  }

  lemma IdsAround(q: seq<HoldMessage>, k: nat)
    requires k < |q| && NoRepeats(Ids(q))
    ensures q == q[..k] + [q[k]] + q[k + 1..]
    ensures q[k].Id() !in Ids(q[..k]) && q[k].Id() !in Ids(q[k + 1..])
  {
    var ids := Ids(q);
    assert Ids(q[..k]) == ids[..k] && Ids(q[k + 1..]) == ids[k + 1..];
    forall i | 0 <= i < k ensures ids[..k][i] != ids[k] {
      assert ids[i] != ids[k];
    }
    var tail := ids[k + 1..];
    forall i | 0 <= i < |tail| ensures tail[i] != ids[k] {
      assert tail[i] == ids[k + 1 + i];
    }
  }

  lemma PollEachAt(q: seq<HoldMessage>, k: nat, reach: set<EndpointAddr>, now: Time)
    requires k < |q| && NoRepeats(Ids(q))
    ensures var one := PollOne(q[k], reach, now);
            PollEach(q, {q[k].Id()}, reach, now) == Polled(q[..k] + one.queue + q[k + 1..], one.events)
  {
    IdsAround(q, k);
    var a, h, b, ids, one := q[..k], q[k], q[k + 1..], {q[k].Id()}, PollOne(q[k], reach, now);
    assert [] + one.events + [] == one.events;
    assert Join(Join(Polled(a, []), one), Polled(b, [])) == Polled(a + one.queue + b, one.events);
    hide *;
    PollEachAbsent(a, h.Id(), reach, now);
    PollEachAbsent(b, h.Id(), reach, now);
    PollEachOne(h, reach, now);
    PollEachConcat(a, [h], ids, reach, now);
    PollEachConcat(a + [h], b, ids, reach, now);
  }

  lemma SendOneAt(q: seq<HoldMessage>, k: nat, reach: set<EndpointAddr>)
    requires k < |q| && NoRepeats(Ids(q))
    ensures var sent := SendOne(q, q[k].Id(), reach);
            sent == q[..k] + [q[k].SendUnsent(reach)] + q[k + 1..] && Ids(sent) == Ids(q)
  {
    var ids := Ids(q);
    assert forall i :: 0 <= i < |q| && i != k ==> ids[i] != ids[k];
    assert forall i :: 0 <= i < |q| && i != k ==> q[i].Id() != q[k].Id();
  }

  lemma DuePlace(blocking: bool, q: seq<HoldMessage>, id: MessageId) returns (k: nat)
    requires Due(blocking, q, id)
    ensures k < |q| && q[k].Id() == id && (blocking ==> k == 0)
  {
    if blocking {
      k := 0;
    } else {
      k :| 0 <= k < |q| && Ids(q)[k] == id;
    }
  }

  lemma OnlyOne(order: seq<MessageId>, id: MessageId)
    requires Enumerates(order, {id})
    ensures order == [id]
  {
    ElementsEmpty(order);
    forall i | 0 <= i < |order| ensures order[i] == id {
      assert order[i] in Elements(order);
    }
    var rest := order[1..];
    assert order == [id] + rest;
    NoRepeatsCons(id, rest);
    assert forall x :: x in rest ==> x in order;
    ElementsEmpty(rest);
    assert Elements(rest) == {};
  }

  // Nothing to poll.
  lemma SettleNotDue(blocking: bool, q: seq<HoldMessage>, id: MessageId, reach: set<EndpointAddr>, now: Time)
    requires !Due(blocking, q, id)
    ensures Settle(blocking, q, {id}, reach, now) == Polled(q, [])
  {
    if !blocking {
      PollEachAbsent(q, id, reach, now);
    }
  }

  // The message stays: it was sent where it could be.
  lemma SettlePending(blocking: bool, q: seq<HoldMessage>, k: nat, reach: set<EndpointAddr>, now: Time)
    requires k < |q| && NoRepeats(Ids(q)) && Due(blocking, q, q[k].Id()) && (blocking ==> k == 0)
    requires !q[k].SendUnsent(reach).IsResolved(now)
    ensures Settle(blocking, q, {q[k].Id()}, reach, now) == Polled(SendOne(q, q[k].Id(), reach), SendEvents(q[k], reach))
  {
    SendOneAt(q, k, reach);
    if blocking {
      assert q == [q[0]] + q[1..];
      DrainCons(q[0], q[1..], reach, now);
      assert SendEvents(q[0], reach) + [] == SendEvents(q[0], reach);
    } else {
      PollEachAt(q, k, reach, now);
    }
  }

  // The message leaves. The flush finds it sent already, in the cache.
  lemma SettleReadyFront(q: seq<HoldMessage>, reach: set<EndpointAddr>, now: Time)
    requires q != [] && NoRepeats(Ids(q)) && q[0].SendUnsent(reach).IsResolved(now)
    ensures var sent, d := SendOne(q, q[0].Id(), reach), Drain(SendOne(q, q[0].Id(), reach), reach, now);
            Settle(true, q, {q[0].Id()}, reach, now) == Polled(d.queue, SendEvents(q[0], reach) + d.events)
  {
    SendOneAt(q, 0, reach);
    SendTwice(q[0], reach);
    var sent, rest := q[0].SendUnsent(reach), q[1..];
    SentAlready(sent, reach);
    assert q == [q[0]] + rest && SendOne(q, q[0].Id(), reach) == [sent] + rest;
    DrainCons(q[0], rest, reach, now);
    DrainCons(sent, rest, reach, now);
    assert [] + [LeaveEvent(sent)] == [LeaveEvent(sent)];
    Assoc(SendEvents(q[0], reach), [LeaveEvent(sent)], Drain(rest, reach, now).events);
  }

  lemma SettleReady(q: seq<HoldMessage>, k: nat, reach: set<EndpointAddr>, now: Time)
    requires k < |q| && NoRepeats(Ids(q)) && q[k].SendUnsent(reach).IsResolved(now)
    ensures Settle(false, q, {q[k].Id()}, reach, now) ==
            Polled(Without(SendOne(q, q[k].Id(), reach), {q[k].Id()}),
                   SendEvents(q[k], reach) + [LeaveEvent(q[k].SendUnsent(reach))])
  {
    SendOneAt(q, k, reach);
    var sent := SendOne(q, q[k].Id(), reach);
    assert sent[k].Id() == q[k].Id();
    WithoutAt(sent, k);
    assert sent[..k] == q[..k] && sent[k + 1..] == q[k + 1..];
    PollEachAt(q, k, reach, now);
    assert q[..k] + [] == q[..k];
  }

  lemma ArchivesOfSends(h: HoldMessage, reach: set<EndpointAddr>, events: seq<Event>)
    ensures Archives(SendEvents(h, reach) + events) == Archives(events)
    ensures Archives(SendEvents(h, reach)) == []
  {
    ArchivesOfPoll(h, reach);
    FlatMapConcat(ArchiveOf, SendEvents(h, reach), events);
    assert [] + Archives(events) == Archives(events);
  }

  // A poll and flush ends as the settlement says: with its queue, and having emitted its events and
  // the archive commands for the messages that left.
  predicate EndsAs(p: Polled, q: seq<HoldMessage>, events: seq<Event>, eventsNow: seq<Event>,
                   commands: seq<DurableCommand>, commandsNow: seq<DurableCommand>)
  {
    q == p.queue && eventsNow == events + p.events && commandsNow == commands + Archives(p.events)
  }

  lemma AfterNothing(blocking: bool, q: seq<HoldMessage>, id: MessageId, reach: set<EndpointAddr>, now: Time,
                     events: seq<Event>, commands: seq<DurableCommand>)
    requires !Due(blocking, q, id)
    ensures EndsAs(Settle(blocking, q, {id}, reach, now), q, events, events, commands, commands)
  {
    SettleNotDue(blocking, q, id, reach, now);
    ArchivesNone();
    assert events + [] == events && commands + [] == commands;
  }

  lemma AfterPending(blocking: bool, q: seq<HoldMessage>, k: nat, reach: set<EndpointAddr>, now: Time,
                     events: seq<Event>, commands: seq<DurableCommand>)
    requires k < |q| && NoRepeats(Ids(q)) && Due(blocking, q, q[k].Id()) && (blocking ==> k == 0)
    requires !q[k].SendUnsent(reach).IsResolved(now)
    ensures EndsAs(Settle(blocking, q, {q[k].Id()}, reach, now), SendOne(q, q[k].Id(), reach),
                   events, events + SendEvents(q[k], reach), commands, commands)
  {
    SettlePending(blocking, q, k, reach, now);
    ArchivesOfSends(q[k], reach, []);
    assert commands + [] == commands;
  }

  lemma AfterFlushBlocking(q: seq<HoldMessage>, reach: set<EndpointAddr>, now: Time,
                           events: seq<Event>, commands: seq<DurableCommand>)
    requires q != [] && NoRepeats(Ids(q)) && q[0].SendUnsent(reach).IsResolved(now)
    ensures var d := Drain(SendOne(q, q[0].Id(), reach), reach, now);
            EndsAs(Settle(true, q, {q[0].Id()}, reach, now), d.queue,
                   events, events + SendEvents(q[0], reach) + d.events, commands, commands + Archives(d.events))
  {
    hide Settle, Drain, FlatMap, Archives;
    SettleReadyFront(q, reach, now);
    var d := Drain(SendOne(q, q[0].Id(), reach), reach, now);
    Assoc(events, SendEvents(q[0], reach), d.events);
    ArchivesOfSends(q[0], reach, d.events);
  }

  lemma AfterFlushResolved(q: seq<HoldMessage>, k: nat, reach: set<EndpointAddr>, now: Time,
                           events: seq<Event>, commands: seq<DurableCommand>,
                           held: map<MessageId, HoldMessage>, order: seq<MessageId>)
    requires k < |q| && NoRepeats(Ids(q)) && q[k].SendUnsent(reach).IsResolved(now)
    requires Enumerates(order, {q[k].Id()}) && Known(held, order)
    requires q[k].Id() in held && held[q[k].Id()] == q[k].SendUnsent(reach)
    ensures var leave := LeaveEvents(held, order);
            EndsAs(Settle(false, q, {q[k].Id()}, reach, now), Without(SendOne(q, q[k].Id(), reach), {q[k].Id()}),
                   events, events + SendEvents(q[k], reach) + leave, commands, commands + Archives(leave))
  {
    OnlyOne(order, q[k].Id());
    var leave := LeaveEvent(q[k].SendUnsent(reach));
    assert LeaveEvents(held, order) == [leave];
    hide Settle, Without, FlatMap, Archives, LeaveEvents, NoRepeats, Enumerates, Known, Ids;
    SettleReady(q, k, reach, now);
    Assoc(events, SendEvents(q[k], reach), [leave]);
    ArchivesOfSends(q[k], reach, [leave]);
  }
}
