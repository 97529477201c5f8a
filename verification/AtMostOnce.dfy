// Across the whole cluster a message is handed to an endpoint at most once.

module AtMostOnce {
  import opened Messages
  import opened Lists
  import opened HoldQueue
  import opened Topics
  import opened Ledger

  // The dispatches of message `id` to endpoint `ep`.
  function SentTo(id: MessageId, ep: EndpointAddr): Event -> seq<Event> {
    (e: Event) => if e.Dispatch? && e.id == id && ep in e.eps then [e] else []
  }

  function Sends(events: seq<Event>, id: MessageId, ep: EndpointAddr): nat {
    |FlatMap(SentTo(id, ep), events)|
  }

  // The message may still be dispatched to the endpoint: it is listed as unsent, or it is not listed
  // yet and a durable message, which endpoints that come online are added to.
  predicate IsOpen(h: HoldMessage, ep: EndpointAddr) {
    if ep in h.waitAck.status then h.waitAck.status[ep].Unsent?
    else h.message.target.Durable? && h.message.subjects != []
  }

  function OpenTo(id: MessageId, ep: EndpointAddr): HoldMessage -> seq<HoldMessage> {
    (h: HoldMessage) => if h.Id() == id && IsOpen(h, ep) then [h] else []
  }

  function Open(q: seq<HoldMessage>, id: MessageId, ep: EndpointAddr): nat {
    |FlatMap(OpenTo(id, ep), q)|
  }

  // The times the message is still to be delegated.
  function SameId(id: MessageId): MessageId -> seq<MessageId> {
    (x: MessageId) => if x == id then [x] else []
  }

  function Coming(log: seq<Proposal>, id: MessageId): nat {
    |FlatMap(SameId(id), FlatMap(DelegatedOf, log))|
  }

  lemma SendsConcat(a: seq<Event>, b: seq<Event>, id: MessageId, ep: EndpointAddr)
    ensures Sends(a + b, id, ep) == Sends(a, id, ep) + Sends(b, id, ep)
    ensures Sends([], id, ep) == 0
  {
    FlatMapConcat(SentTo(id, ep), a, b);
  }

  lemma OpenConcat(a: seq<HoldMessage>, b: seq<HoldMessage>, id: MessageId, ep: EndpointAddr)
    ensures Open(a + b, id, ep) == Open(a, id, ep) + Open(b, id, ep)
    ensures Open([], id, ep) == 0
  {
    FlatMapConcat(OpenTo(id, ep), a, b);
  }

  lemma OpenOne(h: HoldMessage, id: MessageId, ep: EndpointAddr)
    ensures Open([h], id, ep) == |OpenTo(id, ep)(h)|
  {
    FlatMapCons(OpenTo(id, ep), h, []);
  }

  lemma SendsOne(e: Event, id: MessageId, ep: EndpointAddr)
    ensures Sends([e], id, ep) == |SentTo(id, ep)(e)|
  {
    FlatMapCons(SentTo(id, ep), e, []);
  }

  // ----- Every part of a step pays for its dispatches -----

  lemma PollOnePays(h: HoldMessage, reach: set<EndpointAddr>, now: Time, id: MessageId, ep: EndpointAddr)
    ensures var one := PollOne(h, reach, now); Sends(one.events, id, ep) + Open(one.queue, id, ep) <= Open([h], id, ep)
    ensures ep !in reach ==> Sends(PollOne(h, reach, now).events, id, ep) == 0
  {
    var sent := h.SendUnsent(reach);
    OpenOne(h, id, ep);
    OpenOne(sent, id, ep);
    OpenConcat([], [], id, ep);
    SendsOne(LeaveEvent(sent), id, ep);
    SendsOne(Dispatch(h.Id(), h.Outgoing(reach)), id, ep);
    SendsConcat(SendEvents(h, reach), [LeaveEvent(sent)], id, ep);
    assert ep in h.Outgoing(reach) <==> ep in h.waitAck.status && h.waitAck.status[ep].Unsent? && ep in reach;
  }

  lemma {:induction false} PollEachPays(q: seq<HoldMessage>, ids: set<MessageId>, reach: set<EndpointAddr>, now: Time,
                                        id: MessageId, ep: EndpointAddr)
    ensures var p := PollEach(q, ids, reach, now); Sends(p.events, id, ep) + Open(p.queue, id, ep) <= Open(q, id, ep)
    ensures ep !in reach ==> Sends(PollEach(q, ids, reach, now).events, id, ep) == 0
  {
    SendsConcat([], [], id, ep);
    if q != [] {
      var h, rest := q[0], q[1..];
      assert q == [h] + rest;
      PollEachCons(h, rest, ids, reach, now);
      PollOnePays(h, reach, now, id, ep);
      var one, p := PollIf(h, ids, reach, now), PollEach(rest, ids, reach, now);
      assert one == PollOne(h, reach, now) || one == Polled([h], []);
      hide PollEach, PollOne, PollIf, FlatMap, Sends, Open;
      PollEachPays(rest, ids, reach, now, id, ep);
      OpenConcat([h], rest, id, ep);
      OpenConcat(one.queue, p.queue, id, ep);
      SendsConcat(one.events, p.events, id, ep);
    }
  }

  lemma {:induction false} DrainPays(q: seq<HoldMessage>, reach: set<EndpointAddr>, now: Time, id: MessageId,
                                     ep: EndpointAddr)
    ensures var p := Drain(q, reach, now); Sends(p.events, id, ep) + Open(p.queue, id, ep) <= Open(q, id, ep)
    ensures ep !in reach ==> Sends(Drain(q, reach, now).events, id, ep) == 0
  {
    SendsConcat([], [], id, ep);
    if q != [] {
      var h, rest := q[0], q[1..];
      assert q == [h] + rest;
      DrainCons(h, rest, reach, now);
      var one := PollOne(h, reach, now);
      var p := if one.queue == [] then Drain(rest, reach, now) else Polled(rest, []);
      hide Drain, PollOne, FlatMap, Sends, Open;
      PollOnePays(h, reach, now, id, ep);
      DrainPays(rest, reach, now, id, ep);
      OpenConcat([h], rest, id, ep);
      OpenConcat(one.queue, p.queue, id, ep);
      SendsConcat(one.events, p.events, id, ep);
    }
  }

  // What may still be dispatched, and what has been.
  function Budget(t: Topic, id: MessageId, ep: EndpointAddr): nat {
    Sends(t.events, id, ep) + Open(t.queue, id, ep)
  }

  lemma FlushPays(t: Topic, m: MessageId, env: Env, id: MessageId, ep: EndpointAddr)
    ensures Budget(Flush(t, m, env), id, ep) <= Budget(t, id, ep)
    ensures ep !in t.Reachable(env.node) ==> Sends(Flush(t, m, env).events, id, ep) == Sends(t.events, id, ep)
  {
    hide PollEach, Drain, FlatMap, Sends, Open;
    PollEachPays(t.queue, {m}, t.Reachable(env.node), env.now, id, ep);
    DrainPays(t.queue, t.Reachable(env.node), env.now, id, ep);
    SendsConcat(t.events, FlushResult(t, m, env).events, id, ep);
  }

  // Changing messages one by one without opening any keeps the budget.
  lemma {:induction false} OpenPointwise(q: seq<HoldMessage>, r: seq<HoldMessage>, id: MessageId, ep: EndpointAddr)
    requires |q| == |r| && forall i :: 0 <= i < |q| ==> |OpenTo(id, ep)(r[i])| <= |OpenTo(id, ep)(q[i])|
    ensures Open(r, id, ep) <= Open(q, id, ep)
  {
    if q != [] {
      assert q == [q[0]] + q[1..] && r == [r[0]] + r[1..];
      assert |OpenTo(id, ep)(r[0])| <= |OpenTo(id, ep)(q[0])|;
      OpenPointwise(q[1..], r[1..], id, ep);
      hide FlatMap, Open;
      OpenConcat([q[0]], q[1..], id, ep);
      OpenConcat([r[0]], r[1..], id, ep);
      OpenOne(q[0], id, ep);
      OpenOne(r[0], id, ep);
    }
  }

  predicate NeverUnsent(acks: StatusMap) {
    forall ep :: ep in acks ==> !acks[ep].Unsent?
  }

  lemma UpdateAndFlushPays(t: Topic, m: MessageId, acks: StatusMap, env: Env, id: MessageId, ep: EndpointAddr)
    requires NeverUnsent(acks)
    ensures Budget(UpdateAndFlush(t, m, acks, env), id, ep) <= Budget(t, id, ep)
    ensures ep !in t.Reachable(env.node) ==> Sends(UpdateAndFlush(t, m, acks, env).events, id, ep) == Sends(t.events, id, ep)
    ensures UpdateAndFlush(t, m, acks, env).routing == t.routing
  {
    OpenPointwise(t.queue, ApplyAcks(t.queue, m, acks), id, ep);
    FlushPays(Note(t, m, acks), m, env, id, ep);
  }

  lemma {:induction false} PollAllPays(t: Topic, ids: seq<MessageId>, env: Env, id: MessageId, ep: EndpointAddr)
    ensures Budget(PollAll(t, ids, env), id, ep) <= Budget(t, id, ep)
    ensures ep !in t.Reachable(env.node) ==> Sends(PollAll(t, ids, env).events, id, ep) == Sends(t.events, id, ep)
    ensures PollAll(t, ids, env).routing == t.routing
    decreases ids
  {
    assert NeverUnsent(map[]);
    hide *;
    PollAllOne(t, ids, env);
    if ids != [] {
      var next := UpdateAndFlush(t, ids[0], map[], env);
      UpdateAndFlushPays(t, ids[0], map[], env, id, ep);
      SameReach(t, next, env.node);
      PollAllPays(next, ids[1..], env, id, ep);
    }
  }

  lemma SameReach(t: Topic, u: Topic, node: NodeId)
    requires t.routing == u.routing
    ensures t.Reachable(node) == u.Reachable(node)
  {
  }

  lemma EmitPays(t: Topic, e: Event, id: MessageId, ep: EndpointAddr)
    requires !e.Dispatch?
    ensures Sends(t.Emit(e).events, id, ep) == Sends(t.events, id, ep)
  {
    SendsConcat(t.events, [e], id, ep);
    SendsOne(e, id, ep);
  }

  lemma HoldNewPays(t: Topic, m: Message, env: Env, hash: Hashing, id: MessageId, ep: EndpointAddr)
    ensures Budget(HoldNew(t, m, env, hash), id, ep) <= Budget(t, id, ep) + (if m.id == id then 1 else 0)
    ensures ep !in t.Reachable(env.node) ==> Sends(HoldNew(t, m, env, hash).events, id, ep) == Sends(t.events, id, ep)
    ensures HoldNew(t, m, env, hash).routing == t.routing
  {
    hide FlatMap, Sends, Open, UpdateAndFlush;
    EmitPays(t, Refuse(m.id, Failure(NoAvailableTarget)), id, ep);
    EmitPays(t, Refuse(m.id, Failure(Overflow)), id, ep);
    if !(m.target.Push? && env.ring == []) && !(t.Full() && t.config.overflow.value.policy.RejectNew?) {
      var room, h := if t.Full() then DropFront(t) else t, Hold(t, m, env, hash);
      if t.Full() {
        EmitPays(t.(queue := t.queue[1..]), Leave(t.queue[0].Id(), Failure(Overflow)), id, ep);
        assert t.queue == [t.queue[0]] + t.queue[1..];
        OpenConcat([t.queue[0]], t.queue[1..], id, ep);
      }
      OpenConcat(room.queue, [h], id, ep);
      OpenOne(h, id, ep);
      SameReach(t, Enqueue(room, h), env.node);
      UpdateAndFlushPays(Enqueue(room, h), m.id, map[], env, id, ep);
    }
  }

  // Acks never say Unsent, and the endpoint goes online under one host only.
  predicate Lawful(p: Proposal, ep: EndpointAddr, host: NodeId) {
    && (p.SetState? ==> NeverUnsent(p.acks))
    && (p.GoOnline? && p.ep == ep ==> p.host == host)
  }

  lemma PreparePays(t: Topic, p: Proposal, id: MessageId, ep: EndpointAddr)
    requires p.OfEndpoint()
    ensures Budget(Prepare(t, p), id, ep) <= Budget(t, id, ep) && Prepare(t, p).events == t.events
  {
    OpenPointwise(t.queue, Prepare(t, p).queue, id, ep);
  }

  lemma PrepareReach(t: Topic, p: Proposal, ep: EndpointAddr, host: NodeId, node: NodeId)
    requires p.OfEndpoint() && Lawful(p, ep, host) && node != host && ep !in t.Reachable(node)
    ensures ep !in Prepare(t, p).Reachable(node)
  {
  }

  lemma ComingOne(p: Proposal, rest: seq<Proposal>, id: MessageId)
    ensures Coming([p] + rest, id) == (if p.Delegate? && p.message.id == id then 1 else 0) + Coming(rest, id)
  {
    FlatMapCons(DelegatedOf, p, rest);
    FlatMapConcat(SameId(id), DelegatedOf(p), FlatMap(DelegatedOf, rest));
    if p.Delegate? {
      FlatMapCons(SameId(id), p.message.id, []);
    }
  }

  lemma StepPays(t: Topic, p: Proposal, env: Env, hash: Hashing, id: MessageId, ep: EndpointAddr, host: NodeId)
    requires Lawful(p, ep, host)
    ensures Budget(Step(t, p, env, hash), id, ep) <= Budget(t, id, ep) + (if p.Delegate? && p.message.id == id then 1 else 0)
    ensures env.node != host && ep !in t.Reachable(env.node) ==>
              var after := Step(t, p, env, hash);
              Sends(after.events, id, ep) == Sends(t.events, id, ep) && ep !in after.Reachable(env.node)
  {
    hide Sends, Open, UpdateAndFlush, HoldNew, PollAll, Prepare;
    match p
    case Delegate(m) =>
      HoldNewPays(t, m, env, hash, id, ep);
      SameReach(t, Step(t, p, env, hash), env.node);
    case SetState(m, acks) =>
      UpdateAndFlushPays(t, m, acks, env, id, ep);
      SameReach(t, Step(t, p, env, hash), env.node);
    case _ =>
      PreparePays(t, p, id, ep);
      PollAllPays(Prepare(t, p), env.walk, env, id, ep);
      SameReach(Prepare(t, p), Step(t, p, env, hash), env.node);
      if env.node != host && ep !in t.Reachable(env.node) {
        PrepareReach(t, p, ep, host, env.node);
      }
  }

  lemma {:induction false} RunPays(t: Topic, log: seq<Proposal>, envs: seq<Env>, hash: Hashing,
                                   id: MessageId, ep: EndpointAddr, host: NodeId, node: NodeId)
    requires |envs| == |log|
    requires forall i :: 0 <= i < |log| ==> Lawful(log[i], ep, host) && envs[i].node == node
    ensures Budget(Run(t, log, envs, hash), id, ep) <= Budget(t, id, ep) + Coming(log, id)
    ensures node != host && ep !in t.Reachable(node) ==>
              Sends(Run(t, log, envs, hash).events, id, ep) == Sends(t.events, id, ep)
    decreases log
  {
    RunOne(t, log, envs, hash);
    if log != [] {
      assert log == [log[0]] + log[1..];
      assert Lawful(log[0], ep, host) && envs[0].node == node;
      assert forall i :: 0 <= i < |log[1..]| ==> log[1..][i] == log[i + 1] && envs[1..][i] == envs[i + 1];
      hide Sends, Open, Step, Run, Coming, Budget;
      ComingOne(log[0], log[1..], id);
      StepPays(t, log[0], envs[0], hash, id, ep, host);
      RunPays(Step(t, log[0], envs[0], hash), log[1..], envs[1..], hash, id, ep, host, node);
    }
  }

  // ----- The cluster -----

  // One node's copy of the topic: it has applied some prefix of the log, in its own way.
  datatype Replica = Replica(node: NodeId, log: seq<Proposal>, envs: seq<Env>) {
    ghost predicate Runs(ep: EndpointAddr, host: NodeId) {
      && |envs| == |log|
      && forall i :: 0 <= i < |log| ==> Lawful(log[i], ep, host) && envs[i].node == node
    }

    ghost function State(start: Topic, hash: Hashing): Topic
      requires |envs| == |log|
    {
      Run(start, log, envs, hash)
    }
  }

  ghost function TotalSends(cluster: seq<Replica>, start: Topic, hash: Hashing, id: MessageId, ep: EndpointAddr): nat
    requires forall r :: r in cluster ==> |r.envs| == |r.log|
  {
    if cluster == [] then 0
    else Sends(cluster[0].State(start, hash).events, id, ep) + TotalSends(cluster[1..], start, hash, id, ep)
  }

  lemma {:induction false} SameIdCounts(ids: seq<MessageId>, id: MessageId)
    ensures |FlatMap(SameId(id), ids)| == multiset(ids)[id]
  {
    if ids != [] {
      assert ids == [ids[0]] + ids[1..];
      FlatMapCons(SameId(id), ids[0], ids[1..]);
      SameIdCounts(ids[1..], id);
    }
  }

  lemma {:induction false} OpenWithin(q: seq<HoldMessage>, id: MessageId, ep: EndpointAddr)
    ensures Open(q, id, ep) <= multiset(Ids(q))[id]
  {
    hide *;
    OpenConcat([], [], id, ep);
    if q != [] {
      var h, rest := q[0], q[1..];
      assert q == [h] + rest;
      OpenFirst(h, rest, id, ep);
      OpenWithin(rest, id, ep);
    } else {
      assert q == [];
    }
  }

  lemma OpenFirst(h: HoldMessage, rest: seq<HoldMessage>, id: MessageId, ep: EndpointAddr)
    ensures Open([h] + rest, id, ep) <= (if h.Id() == id then 1 else 0) + Open(rest, id, ep)
    ensures multiset(Ids([h] + rest))[id] == (if h.Id() == id then 1 else 0) + multiset(Ids(rest))[id]
  {
    hide FlatMap, Open;
    OpenConcat([h], rest, id, ep);
    OpenOne(h, id, ep);
    IdsCons(h, rest);
  }

  // On one node: at most once, and never when the endpoint lives on another node.
  lemma ReplicaSends(r: Replica, config: TopicConfig, messages: seq<DurableMessage>, hash: Hashing,
                     id: MessageId, ep: EndpointAddr, host: NodeId)
    requires r.Runs(ep, host)
    requires NoRepeats(Ids(FromDurable(config, messages).queue) + FlatMap(DelegatedOf, r.log))
    ensures var sends := Sends(r.State(FromDurable(config, messages), hash).events, id, ep);
            sends <= 1 && (r.node != host ==> sends == 0)
  {
    var start := FromDurable(config, messages);
    var loaded, delegated := Ids(start.queue), FlatMap(DelegatedOf, r.log);
    assert start.events == [] && ep !in start.Reachable(r.node);
    hide FlatMap, Run, FromDurable, Ids;
    SendsConcat([], [], id, ep);
    RunPays(start, r.log, r.envs, hash, id, ep, host, r.node);
    OpenWithin(start.queue, id, ep);
    SameIdCounts(delegated, id);
    NoRepeatsCount(loaded + delegated);
    assert multiset(loaded + delegated)[id] == multiset(loaded)[id] + multiset(delegated)[id];
  }

  // At-most-once dispatch: however far each node has got in the log, and whatever its clock and
  // hash-set orders, all nodes together hand a message to an endpoint at most once, provided message
  // ids are fresh and the endpoint goes online under one host.
  lemma {:induction false} AtMostOnceDispatch(cluster: seq<Replica>, config: TopicConfig, messages: seq<DurableMessage>,
                                              hash: Hashing, id: MessageId, ep: EndpointAddr, host: NodeId)
    requires forall r :: r in cluster ==> |r.envs| == |r.log| && r.Runs(ep, host)
    requires forall r :: r in cluster ==>
               NoRepeats(Ids(FromDurable(config, messages).queue) + FlatMap(DelegatedOf, r.log))
    requires forall i, j :: 0 <= i < j < |cluster| ==> cluster[i].node != cluster[j].node
    ensures TotalSends(cluster, FromDurable(config, messages), hash, id, ep) <= 1
    ensures (forall r :: r in cluster ==> r.node != host) ==>
              TotalSends(cluster, FromDurable(config, messages), hash, id, ep) == 0
  {
    if cluster != [] {
      assert forall i :: 0 <= i < |cluster[1..]| ==> cluster[1..][i] == cluster[i + 1];
      var r, rest := cluster[0], cluster[1..];
      assert r in cluster && forall x :: x in rest ==> x in cluster && x.node != r.node;
      hide FlatMap, FromDurable, Ids, NoRepeats, Replica.Runs, Replica.State, Sends;
      ReplicaSends(r, config, messages, hash, id, ep, host);
      AtMostOnceDispatch(rest, config, messages, hash, id, ep, host);
    }
  }
}
