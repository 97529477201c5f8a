// What polling does to a queue of held messages, written over the messages in push order.
// MessageQueues.dfy proves that the indexed queue of the repository does the same.

module HoldQueue {
  import opened Messages
  import opened Lists

  // Everything a step tells the outside world, in order. One send_unsent call spawns one send per
  // endpoint, so the endpoints of a batch are unordered. Refuse and Leave are both resolve_ack:
  // Refuse for a message that never entered the queue, Leave for one that goes out of it.
  datatype Event =
    | Dispatch(id: MessageId, eps: set<EndpointAddr>)
    | Refuse(id: MessageId, result: AckResult)
    | Leave(id: MessageId, result: AckResult)

  datatype HoldMessage = HoldMessage(message: Message, waitAck: WaitAck) {
    function Id(): MessageId {
      message.id
    }

    // The endpoints that a poll on a node reaching `reach` sends the message to.
    function Outgoing(reach: set<EndpointAddr>): set<EndpointAddr> {
      set ep | ep in waitAck.status && waitAck.status[ep].Unsent? && ep in reach
    }

    function WithStatus(status: StatusMap): HoldMessage {
      this.(waitAck := waitAck.(status := status))
    }

    function SendUnsent(reach: set<EndpointAddr>): (h: HoldMessage)
      ensures h.message == message && h.waitAck.level == waitAck.level
      ensures h.waitAck.status.Keys == waitAck.status.Keys
    {
      WithStatus(map ep | ep in waitAck.status ::
                   if ep in Outgoing(reach) then Sending else waitAck.status[ep])
    }

    predicate IsResolved(now: Time) {
      match message.target
      case Durable =>
        || message.durability.None?
        || message.Expired(now)
        || (message.durability.value.maxReceiver.Some?
            && |waitAck.status| >= message.durability.value.maxReceiver.value)
      case _ =>
        forall ep :: ep in waitAck.status ==> waitAck.status[ep].IsResolved(waitAck.level)
    }

    function Resolve(): AckResult {
      if exists ep :: ep in waitAck.status && waitAck.status[ep].IsFailed()
      then AckErr(waitAck.status, None)
      else AckOk(waitAck.status)
    }

    // A set of acks: a status that is already resolved is kept, any other is overwritten, and an
    // endpoint that was never addressed is added.
    function UpdateAcks(acks: StatusMap): (h: HoldMessage)
      ensures h.message == message && h.waitAck.level == waitAck.level
      ensures h.waitAck.status.Keys == waitAck.status.Keys + acks.Keys
    {
      WithStatus(map ep | ep in waitAck.status.Keys + acks.Keys ::
                   if ep in acks && !(ep in waitAck.status && waitAck.status[ep].IsResolved(waitAck.level))
                   then acks[ep] else waitAck.status[ep])
    }

    function Norm(): (h: HoldMessage)
      ensures h.message == message && h.waitAck.level == waitAck.level
    {
      WithStatus(NormStatus(waitAck.status))
    }
  }

  datatype Polled = Polled(queue: seq<HoldMessage>, events: seq<Event>)

  function SendEvents(h: HoldMessage, reach: set<EndpointAddr>): seq<Event> {
    if h.Outgoing(reach) == {} then [] else [Dispatch(h.Id(), h.Outgoing(reach))]
  }

  function LeaveEvent(h: HoldMessage): Event {
    Leave(h.Id(), h.Resolve())
  }

  function Join(a: Polled, b: Polled): Polled {
    Polled(a.queue + b.queue, a.events + b.events)
  }

  // Polling one message: it is sent where it can be sent, and leaves if that resolves it.
  function PollOne(h: HoldMessage, reach: set<EndpointAddr>, now: Time): Polled {
    var sent := h.SendUnsent(reach);
    if sent.IsResolved(now) then Polled([], SendEvents(h, reach) + [LeaveEvent(sent)])
    else Polled([sent], SendEvents(h, reach))
  }

  function PollIf(h: HoldMessage, ids: set<MessageId>, reach: set<EndpointAddr>, now: Time): Polled {
    if h.Id() in ids then PollOne(h, reach, now) else Polled([h], [])
  }

  // Polling the messages of `ids` in a non-blocking topic.
  function PollEach(q: seq<HoldMessage>, ids: set<MessageId>, reach: set<EndpointAddr>, now: Time): Polled {
    if q == [] then Polled([], [])
    else Join(PollIf(q[0], ids, reach, now), PollEach(q[1..], ids, reach, now))
  }

  // Flushing a blocking topic: the front is polled, and while that resolves it the next one follows.
  function Drain(q: seq<HoldMessage>, reach: set<EndpointAddr>, now: Time): Polled {
    if q == [] then Polled([], [])
    else
      var one := PollOne(q[0], reach, now);
      Join(one, if one.queue == [] then Drain(q[1..], reach, now) else Polled(q[1..], []))
  }

  // Polling a set of messages at once, whatever the order.
  function Settle(blocking: bool, q: seq<HoldMessage>, ids: set<MessageId>,
                  reach: set<EndpointAddr>, now: Time): Polled {
    if !blocking then PollEach(q, ids, reach, now)
    else if q != [] && q[0].Id() in ids then Drain(q, reach, now)
    else Polled(q, [])
  }

  // Polling them one by one in the order the hash set happens to yield them.
  function Walk(blocking: bool, q: seq<HoldMessage>, ids: seq<MessageId>,
                reach: set<EndpointAddr>, now: Time): Polled
    decreases ids
  {
    if ids == [] then Polled(q, [])
    else
      var first := Settle(blocking, q, {ids[0]}, reach, now);
      var rest := Walk(blocking, first.queue, ids[1..], reach, now);
      Polled(rest.queue, first.events + rest.events)
  }

  // ----- Confluence -----

  lemma SendTwice(h: HoldMessage, reach: set<EndpointAddr>)
    ensures h.SendUnsent(reach).SendUnsent(reach) == h.SendUnsent(reach)
    ensures h.SendUnsent(reach).Outgoing(reach) == {}
  {
    var sent := h.SendUnsent(reach);
    forall ep | ep in sent.waitAck.status ensures ep !in sent.Outgoing(reach) {
      assert ep in h.Outgoing(reach) || sent.waitAck.status[ep] == h.waitAck.status[ep];
    }
    assert sent.SendUnsent(reach).waitAck.status == sent.waitAck.status;
  }

  lemma PollEachNone(q: seq<HoldMessage>, reach: set<EndpointAddr>, now: Time)
    ensures PollEach(q, {}, reach, now) == Polled(q, [])
  {
    if q != [] {
      PollEachNone(q[1..], reach, now);
    }
  }

  lemma PollEachCons(h: HoldMessage, q: seq<HoldMessage>, ids: set<MessageId>, reach: set<EndpointAddr>, now: Time)
    ensures PollEach([h] + q, ids, reach, now) == Join(PollIf(h, ids, reach, now), PollEach(q, ids, reach, now))
  {
    assert ([h] + q)[1..] == q;
  }

  lemma DrainCons(h: HoldMessage, q: seq<HoldMessage>, reach: set<EndpointAddr>, now: Time)
    ensures var one := PollOne(h, reach, now);
            Drain([h] + q, reach, now) == Join(one, if one.queue == [] then Drain(q, reach, now) else Polled(q, []))
  {
    assert ([h] + q)[1..] == q;
  }

  lemma PollTwice(h: HoldMessage, reach: set<EndpointAddr>, now: Time)
    ensures var one := PollOne(h, reach, now);
            && |one.queue| <= 1
            && (one.queue != [] ==>
                  one.queue[0].Id() == h.Id() && PollOne(one.queue[0], reach, now) == Polled(one.queue, []))
  {
    SendTwice(h, reach);
  }

  lemma PollIfUnion(h: HoldMessage, a: set<MessageId>, b: set<MessageId>, reach: set<EndpointAddr>, now: Time)
    ensures var pa := PollIf(h, a, reach, now); var pc := PollIf(h, a + b, reach, now);
            && |pa.queue| <= 1
            && if pa.queue == [] then pc == pa
               else var pb := PollIf(pa.queue[0], b, reach, now); pc == Polled(pb.queue, pa.events + pb.events)
  {
    PollTwice(h, reach, now);
    hide PollOne;
    var pa := PollIf(h, a, reach, now);
    if pa.queue != [] {
      assert pa.events + [] == pa.events;
      var pb := PollIf(pa.queue[0], b, reach, now);
      assert [] + pb.events == pb.events;
    }
  }

  lemma DrainNil(reach: set<EndpointAddr>, now: Time)
    ensures Drain([], reach, now) == Polled([], [])
  {
  }

  lemma PollEachNil(ids: set<MessageId>, reach: set<EndpointAddr>, now: Time)
    ensures PollEach([], ids, reach, now) == Polled([], [])
  {
  }

  lemma JoinIs(a: Polled, b: Polled)
    ensures Join(a, b).queue == a.queue + b.queue && Join(a, b).events == a.events + b.events
  {
  }

  // Polling `a` and then `b` is polling `a + b`.
  lemma {:induction false} PollEachUnion(q: seq<HoldMessage>, a: set<MessageId>, b: set<MessageId>,
                                         reach: set<EndpointAddr>, now: Time)
    ensures var pa := PollEach(q, a, reach, now); var pb := PollEach(pa.queue, b, reach, now);
            var pc := PollEach(q, a + b, reach, now);
            pb.queue == pc.queue && multiset(pa.events + pb.events) == multiset(pc.events)
  {
    hide *;
    if q == [] {
      PollEachNil(a, reach, now);
      PollEachNil(b, reach, now);
      PollEachNil(a + b, reach, now);
    } else {
      var h, rest := q[0], q[1..];
      assert q == [h] + rest;
      PollEachCons(h, rest, a, reach, now);
      PollEachCons(h, rest, a + b, reach, now);
      PollIfUnion(h, a, b, reach, now);
      var one, ra := PollIf(h, a, reach, now), PollEach(rest, a, reach, now);
      PollRest(one, ra, b, reach, now);
      PollEachUnion(rest, a, b, reach, now);
      var rb, rc := PollEach(ra.queue, b, reach, now), PollEach(rest, a + b, reach, now);
      JoinIs(one, ra);
      JoinIs(PollIf(h, a + b, reach, now), rc);
      if one.queue == [] {
        Interleave(one.events, ra.events, [], rb.events, rc.events);
        assert [] + rb.events == rb.events && one.events + [] == one.events;
        assert [] + rc.queue == rc.queue;
      } else {
        var again := PollIf(one.queue[0], b, reach, now);
        JoinIs(again, rb);
        Interleave(one.events, ra.events, again.events, rb.events, rc.events);
      }
    }
  }

  lemma PollRest(one: Polled, ra: Polled, b: set<MessageId>, reach: set<EndpointAddr>, now: Time)
    requires |one.queue| <= 1
    ensures PollEach(Join(one, ra).queue, b, reach, now) ==
            if one.queue == [] then PollEach(ra.queue, b, reach, now)
            else Join(PollIf(one.queue[0], b, reach, now), PollEach(ra.queue, b, reach, now))
  {
    if one.queue == [] {
      assert one.queue + ra.queue == ra.queue;
    } else {
      assert one.queue == [one.queue[0]];
      PollEachCons(one.queue[0], ra.queue, b, reach, now);
    }
  }

  lemma {:induction false} DrainTwice(q: seq<HoldMessage>, reach: set<EndpointAddr>, now: Time)
    ensures var d := Drain(q, reach, now); Drain(d.queue, reach, now) == Polled(d.queue, [])
  {
    if q != [] {
      var h, rest := q[0], q[1..];
      assert q == [h] + rest;
      PollTwice(h, reach, now);
      DrainCons(h, rest, reach, now);
      var one := PollOne(h, reach, now);
      if one.queue == [] {
        DrainTwice(rest, reach, now);
        assert [] + Drain(rest, reach, now).queue == Drain(rest, reach, now).queue;
      } else {
        DrainCons(one.queue[0], rest, reach, now);
        assert one.queue == [one.queue[0]];
      }
    }
  }

  lemma SettleUnion(blocking: bool, q: seq<HoldMessage>, a: set<MessageId>, b: set<MessageId>,
                    reach: set<EndpointAddr>, now: Time)
    ensures var pa := Settle(blocking, q, a, reach, now); var pb := Settle(blocking, pa.queue, b, reach, now);
            var pc := Settle(blocking, q, a + b, reach, now);
            && pb.queue == pc.queue
            && multiset(pa.events + pb.events) == multiset(pc.events)
            && (blocking ==> pa.events + pb.events == pc.events)
  {
    PollEachUnion(q, a, b, reach, now);
    DrainTwice(q, reach, now);
    hide PollEach, Drain;
    var pa := Settle(blocking, q, a, reach, now);
    var pb := Settle(blocking, pa.queue, b, reach, now);
    if blocking {
      assert pa.events + [] == pa.events && [] + pb.events == pb.events;
    }
  }

  // The walk over the hash set has one outcome: the final queue depends on the set only, and so does
  // what is emitted, up to order; in a blocking topic even the order is fixed.
  lemma {:induction false} WalkIsSettle(blocking: bool, q: seq<HoldMessage>, ids: seq<MessageId>,
                                        reach: set<EndpointAddr>, now: Time)
    ensures var w := Walk(blocking, q, ids, reach, now);
            var s := Settle(blocking, q, Elements(ids), reach, now);
            && w.queue == s.queue
            && multiset(w.events) == multiset(s.events)
            && (blocking ==> w.events == s.events)
    decreases ids
  {
    if ids == [] {
      assert Elements(ids) == {};
      PollEachNone(q, reach, now);
    } else {
      var first := Settle(blocking, q, {ids[0]}, reach, now);
      assert Elements(ids) == {ids[0]} + Elements(ids[1..]);
      hide Settle, Elements;
      WalkIsSettle(blocking, first.queue, ids[1..], reach, now);
      SettleUnion(blocking, q, {ids[0]}, Elements(ids[1..]), reach, now);
    }
  }

  lemma Confluence(blocking: bool, q: seq<HoldMessage>, w1: seq<MessageId>, w2: seq<MessageId>,
                   reach: set<EndpointAddr>, now: Time)
    requires Elements(w1) == Elements(w2)
    ensures var p1 := Walk(blocking, q, w1, reach, now); var p2 := Walk(blocking, q, w2, reach, now);
            && p1.queue == p2.queue
            && multiset(p1.events) == multiset(p2.events)
            && (blocking ==> p1.events == p2.events)
  {
    WalkIsSettle(blocking, q, w1, reach, now);
    WalkIsSettle(blocking, q, w2, reach, now);
  }

  // ----- What polling keeps of the messages themselves -----

  function MessagesOf(q: seq<HoldMessage>): set<Message> {
    set h | h in q :: h.message
  }

  lemma MessagesConcat(a: seq<HoldMessage>, b: seq<HoldMessage>)
    ensures MessagesOf(a + b) == MessagesOf(a) + MessagesOf(b)
  {
  }

  lemma {:induction false} PollEachMessages(q: seq<HoldMessage>, ids: set<MessageId>, reach: set<EndpointAddr>, now: Time)
    ensures MessagesOf(PollEach(q, ids, reach, now).queue) <= MessagesOf(q)
  {
    if q != [] {
      var h, rest := q[0], q[1..];
      assert q == [h] + rest;
      MessagesConcat([h], rest);
      PollEachCons(h, rest, ids, reach, now);
      PollEachMessages(rest, ids, reach, now);
      MessagesConcat(PollIf(h, ids, reach, now).queue, PollEach(rest, ids, reach, now).queue);
    }
  }

  lemma {:induction false} DrainMessages(q: seq<HoldMessage>, reach: set<EndpointAddr>, now: Time)
    ensures MessagesOf(Drain(q, reach, now).queue) <= MessagesOf(q)
  {
    if q != [] {
      var h, rest := q[0], q[1..];
      assert q == [h] + rest;
      MessagesConcat([h], rest);
      DrainCons(h, rest, reach, now);
      DrainMessages(rest, reach, now);
      var one := PollOne(h, reach, now);
      MessagesConcat(one.queue, if one.queue == [] then Drain(rest, reach, now).queue else rest);
    }
  }

  lemma SettleMessages(blocking: bool, q: seq<HoldMessage>, ids: set<MessageId>, reach: set<EndpointAddr>, now: Time)
    ensures MessagesOf(Settle(blocking, q, ids, reach, now).queue) <= MessagesOf(q)
  {
    PollEachMessages(q, ids, reach, now);
    DrainMessages(q, reach, now);
  }
}
