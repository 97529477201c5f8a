// A topic without durable messages never leaves work undone between two steps.

module NoStall {
  import opened Messages
  import opened Lists
  import opened HoldQueue
  import opened Topics
  import opened Ledger

  // Nothing more to do for a held message on this node: it is not resolved, and it waits for no
  // endpoint that the node can reach.
  ghost predicate Settled(h: HoldMessage, reach: set<EndpointAddr>) {
    && !h.message.target.Durable?
    && !h.IsResolved(0)
    && h.Outgoing(reach) == {}
  }

  ghost predicate Transient(h: HoldMessage) {
    !h.message.target.Durable?
  }

  // The messages a flush is responsible for: all of them, or the front of a blocking topic.
  ghost predicate Idle(blocking: bool, q: seq<HoldMessage>, reach: set<EndpointAddr>) {
    && (forall i :: 0 <= i < |q| ==> Transient(q[i]))
    && (forall i :: 0 <= i < |q| && (blocking ==> i == 0) ==> Settled(q[i], reach))
  }

  // The same, except for the messages that are about to be polled.
  ghost predicate IdleBut(blocking: bool, q: seq<HoldMessage>, ids: set<MessageId>, reach: set<EndpointAddr>) {
    && (forall i :: 0 <= i < |q| ==> Transient(q[i]))
    && (forall i :: 0 <= i < |q| && (blocking ==> i == 0) && q[i].Id() !in ids ==> Settled(q[i], reach))
  }

  lemma AnyTime(h: HoldMessage, now: Time)
    requires Transient(h)
    ensures h.IsResolved(now) == h.IsResolved(0)
  {
  }

  lemma PollOneSettles(h: HoldMessage, reach: set<EndpointAddr>, now: Time)
    requires Transient(h)
    ensures var one := PollOne(h, reach, now);
            |one.queue| <= 1 && forall x :: x in one.queue ==> Settled(x, reach)
  {
    SendTwice(h, reach);
    AnyTime(h.SendUnsent(reach), now);
  }

  ghost predicate AllSettled(q: seq<HoldMessage>, reach: set<EndpointAddr>) {
    forall x :: x in q ==> Settled(x, reach)
  }

  lemma {:induction false} PollEachSettles(q: seq<HoldMessage>, ids: set<MessageId>, reach: set<EndpointAddr>, now: Time)
    requires IdleBut(false, q, ids, reach)
    ensures AllSettled(PollEach(q, ids, reach, now).queue, reach)
  {
    if q != [] {
      var h, rest := q[0], q[1..];
      assert q == [h] + rest;
      assert forall i :: 0 <= i < |rest| ==> rest[i] == q[i + 1];
      PollEachCons(h, rest, ids, reach, now);
      PollOneSettles(h, reach, now);
      assert AllSettled(PollIf(h, ids, reach, now).queue, reach);
      hide PollEach, PollOne, PollIf, Settled, Transient;
      PollEachSettles(rest, ids, reach, now);
    }
  }

  lemma {:induction false} DrainSettles(q: seq<HoldMessage>, reach: set<EndpointAddr>, now: Time)
    requires forall i :: 0 <= i < |q| ==> Transient(q[i])
    ensures Idle(true, Drain(q, reach, now).queue, reach)
  {
    if q != [] {
      var h, rest := q[0], q[1..];
      assert q == [h] + rest;
      assert forall i :: 0 <= i < |rest| ==> rest[i] == q[i + 1];
      DrainCons(h, rest, reach, now);
      PollOneSettles(h, reach, now);
      var one := PollOne(h, reach, now);
      DrainSettles(rest, reach, now);
      assert one.queue != [] ==> one.queue[0] in one.queue;
      hide Drain, PollOne;
      if one.queue == [] {
        assert [] + Drain(rest, reach, now).queue == Drain(rest, reach, now).queue;
      } else {
        assert (one.queue + rest)[0] == one.queue[0] && Settled(one.queue[0], reach);
        assert Transient(one.queue[0]);
        assert forall i :: 0 < i < |q| ==> (one.queue + rest)[i] == q[i];
      }
    }
  }

  lemma SettleIdles(blocking: bool, q: seq<HoldMessage>, ids: set<MessageId>, reach: set<EndpointAddr>, now: Time)
    requires IdleBut(blocking, q, ids, reach)
    ensures Idle(blocking, Settle(blocking, q, ids, reach, now).queue, reach)
  {
    hide PollEach, Drain;
    if blocking {
      DrainSettles(q, reach, now);
    } else {
      PollEachSettles(q, ids, reach, now);
      var r := PollEach(q, ids, reach, now).queue;
      assert forall i :: 0 <= i < |r| ==> r[i] in r;
    }
  }

  // ----- Steps -----

  ghost predicate Quiet(t: Topic, node: NodeId) {
    Idle(t.config.blocking, t.queue, t.Reachable(node))
  }

  ghost predicate QuietBut(t: Topic, ids: set<MessageId>, node: NodeId) {
    IdleBut(t.config.blocking, t.queue, ids, t.Reachable(node))
  }

  lemma NoteQuiet(t: Topic, id: MessageId, acks: StatusMap, node: NodeId)
    requires QuietBut(t, {id}, node)
    ensures QuietBut(Note(t, id, acks), {id}, node)
  {
  }

  lemma UpdateAndFlushQuiet(t: Topic, id: MessageId, acks: StatusMap, env: Env)
    requires QuietBut(t, {id}, env.node)
    ensures Quiet(UpdateAndFlush(t, id, acks, env), env.node)
  {
    NoteQuiet(t, id, acks, env.node);
    hide Settle, Idle, IdleBut;
    SettleIdles(t.config.blocking, Note(t, id, acks).queue, {id}, t.Reachable(env.node), env.now);
  }

  lemma PollAllQuiet(t: Topic, env: Env, need: set<MessageId>)
    requires QuietBut(t, need, env.node) && Enumerates(env.walk, need)
    ensures Quiet(PollAll(t, env.walk, env), env.node)
  {
    hide Settle, Idle, IdleBut, Walk, PollAll;
    PollAllIsWalk(t, env.walk, env);
    WalkIsSettle(t.config.blocking, t.queue, env.walk, t.Reachable(env.node), env.now);
    SettleIdles(t.config.blocking, t.queue, need, t.Reachable(env.node), env.now);
  }

  lemma QuietUnfold(t: Topic, node: NodeId)
    ensures Quiet(t, node) <==>
              && (forall i :: 0 <= i < |t.queue| ==> Transient(t.queue[i]))
              && (forall i :: 0 <= i < |t.queue| && (t.config.blocking ==> i == 0) ==> Settled(t.queue[i], t.Reachable(node)))
  {
  }

  // The topic is asked for Online and Push messages with fresh ids only.
  ghost predicate Ordinary(t: Topic, p: Proposal) {
    p.Delegate? ==> !p.message.target.Durable? && !p.message.target.Available? && p.message.id !in Ids(t.queue)
  }

  // An endpoint does not wait for a message that is already held when it comes online here.
  ghost predicate NotAwaited(t: Topic, ep: EndpointAddr) {
    forall i :: 0 <= i < |t.queue| && (t.config.blocking ==> i == 0) ==>
      !(ep in t.queue[i].waitAck.status && t.queue[i].waitAck.status[ep].Unsent?)
  }

  // A blocking topic drops its front while another message waits behind it.
  ghost predicate PullsUp(t: Topic, m: Message, env: Env) {
    && t.config.blocking && t.Full() && t.config.overflow.value.policy.DropOld? && |t.queue| >= 2
    && !(m.target.Push? && env.ring == [])
  }

  // The steps after which nothing is left undone.
  ghost predicate Allowed(t: Topic, p: Proposal, env: Env) {
    match p
    case Delegate(m) => PullsUp(t, m, env) ==> Settled(t.queue[1], t.Reachable(env.node))
    case GoOnline(ep, _, host) => host == env.node ==> NotAwaited(t, ep)
    case _ => true
  }

  lemma PutQuiet(t: Topic, h: HoldMessage, env: Env)
    requires Quiet(t, env.node) && Transient(h)
    ensures Quiet(UpdateAndFlush(Enqueue(t, h), h.Id(), map[], env), env.node)
  {
    var held := Enqueue(t, h);
    forall i | 0 <= i < |held.queue| && (t.config.blocking ==> i == 0) && held.queue[i].Id() !in {h.Id()}
      ensures Settled(held.queue[i], t.Reachable(env.node))
    {
      assert held.queue[i] == t.queue[i];
    }
    assert forall i :: 0 <= i < |t.queue| ==> held.queue[i] == t.queue[i];
    hide Settled, Transient;
    assert QuietBut(held, {h.Id()}, env.node);
    hide Quiet, QuietBut;
    UpdateAndFlushQuiet(held, h.Id(), map[], env);
  }

  lemma DropQuiet(t: Topic, node: NodeId)
    requires Quiet(t, node) && t.queue != []
    requires t.config.blocking && |t.queue| >= 2 ==> Settled(t.queue[1], t.Reachable(node))
    ensures Quiet(DropFront(t), node)
  {
    hide Settled, Transient;
    assert forall i :: 0 <= i < |t.queue| - 1 ==> DropFront(t).queue[i] == t.queue[i + 1];
  }

  // When the front was dropped, the message that came up is not polled.
  lemma PulledUp(t: Topic, h: HoldMessage, env: Env)
    requires t.config.blocking && t.queue != [] && h.Id() !in Ids(t.queue)
    ensures var after := UpdateAndFlush(Enqueue(t, h), h.Id(), map[], env);
            after.queue == t.queue + [h] && after.routing == t.routing && after.config == t.config
  {
    NoAcks(t.queue + [h], h.Id());
    assert Ids(t.queue)[0] == t.queue[0].Id();
    hide Drain, PollEach, FlatMap;
  }

  lemma HoldNewQuiet(t: Topic, m: Message, env: Env, hash: Hashing)
    requires Quiet(t, env.node) && Ordinary(t, Delegate(m))
    ensures Quiet(HoldNew(t, m, env, hash), env.node) <==> Allowed(t, Delegate(m), env)
  {
    if !(m.target.Push? && env.ring == []) && !(t.Full() && t.config.overflow.value.policy.RejectNew?) {
      var room, h := if t.Full() then DropFront(t) else t, Hold(t, m, env, hash);
      assert Transient(h) && h.Id() == m.id;
      assert HoldNew(t, m, env, hash) == UpdateAndFlush(Enqueue(room, h), m.id, map[], env);
      hide UpdateAndFlush, Settled, Transient;
      if Allowed(t, Delegate(m), env) {
        if t.Full() {
          DropQuiet(t, env.node);
        }
        PutQuiet(room, h, env);
      } else {
        assert forall i :: 0 <= i < |room.queue| ==> Ids(room.queue)[i] == Ids(t.queue)[i + 1];
        PulledUp(room, h, env);
        QuietUnfold(HoldNew(t, m, env, hash), env.node);
        assert (room.queue + [h])[0] == t.queue[1];
      }
    }
  }

  lemma PrepareQuiet(t: Topic, p: Proposal, env: Env)
    requires p.OfEndpoint() && Allowed(t, p, env) && Quiet(t, env.node)
    ensures QuietBut(Prepare(t, p), NeedPoll(t, p), env.node)
  {
    var after, node := Prepare(t, p), env.node;
    forall i | 0 <= i < |t.queue| && (t.config.blocking ==> i == 0) && after.queue[i].Id() !in NeedPoll(t, p)
      ensures Settled(after.queue[i], after.Reachable(node))
    {
      var h := t.queue[i];
      assert h in t.queue;
      assert !Polls(t, p, h);
      assert after.queue[i] == h;
      assert forall ep :: ep in after.Reachable(node) ==>
        ep in t.Reachable(node) || (p.GoOnline? && ep == p.ep && p.host == node);
      assert h.Outgoing(after.Reachable(node)) <= h.Outgoing(t.Reachable(node));
    }
  }

  // Where it is awaited, an endpoint that comes online is not sent the message.
  lemma AwaitedStalls(t: Topic, ep: EndpointAddr, interests: seq<Bytes>, env: Env, hash: Hashing)
    requires Quiet(t, env.node) && Admissible(t, GoOnline(ep, interests, env.node), env, hash) && !NotAwaited(t, ep)
    ensures !Quiet(Step(t, GoOnline(ep, interests, env.node), env, hash), env.node)
  {
    var p := GoOnline(ep, interests, env.node);
    var after := Prepare(t, p);
    var i :| 0 <= i < |t.queue| && (t.config.blocking ==> i == 0)
             && ep in t.queue[i].waitAck.status && t.queue[i].waitAck.status[ep].Unsent?;
    assert forall h :: h in t.queue ==> Transient(h);
    assert NeedPoll(t, p) == {};
    ElementsEmpty(env.walk);
    assert Step(t, p, env, hash) == after;
    assert after.queue[i] == t.queue[i];
    assert ep in after.queue[i].Outgoing(after.Reachable(env.node));
  }

  // A step leaves nothing undone exactly when it neither brings online, on this node, an endpoint that
  // a held message waits for, nor pulls up a message that could be sent or is resolved.
  lemma StepQuiet(t: Topic, p: Proposal, env: Env, hash: Hashing)
    requires Quiet(t, env.node) && Ordinary(t, p) && Admissible(t, p, env, hash)
    ensures Quiet(Step(t, p, env, hash), env.node) <==> Allowed(t, p, env)
  {
    hide Quiet, QuietBut, HoldNew, UpdateAndFlush, PollAll, Prepare, NeedPoll, NotAwaited;
    match p
    case Delegate(m) => HoldNewQuiet(t, m, env, hash);
    case SetState(id, acks) =>
      WeakerIdle(t, {id}, env.node);
      UpdateAndFlushQuiet(t, id, acks, env);
    case GoOnline(ep, interests, host) =>
      if Allowed(t, p, env) {
        EndpointQuiet(t, p, env, hash);
      } else {
        AwaitedStalls(t, ep, interests, env, hash);
      }
    case _ => EndpointQuiet(t, p, env, hash);
  }

  lemma EndpointQuiet(t: Topic, p: Proposal, env: Env, hash: Hashing)
    requires p.OfEndpoint() && Allowed(t, p, env) && Quiet(t, env.node) && Admissible(t, p, env, hash)
    ensures Quiet(Step(t, p, env, hash), env.node)
  {
    hide Quiet, QuietBut, PollAll, Prepare, NeedPoll, Allowed;
    PrepareQuiet(t, p, env);
    PollAllQuiet(Prepare(t, p), env, NeedPoll(t, p));
  }

  lemma WeakerIdle(t: Topic, ids: set<MessageId>, node: NodeId)
    requires Quiet(t, node)
    ensures QuietBut(t, ids, node)
  {
  }

  ghost predicate RunAllowed(t: Topic, log: seq<Proposal>, envs: seq<Env>, hash: Hashing)
    requires |envs| == |log|
    decreases log
  {
    log == [] || (&& Ordinary(t, log[0]) && Allowed(t, log[0], envs[0])
                  && RunAllowed(Step(t, log[0], envs[0], hash), log[1..], envs[1..], hash))
  }

  lemma {:induction false} RunQuiet(t: Topic, log: seq<Proposal>, envs: seq<Env>, hash: Hashing, node: NodeId)
    requires |envs| == |log| && forall i :: 0 <= i < |envs| ==> envs[i].node == node
    requires Quiet(t, node)
    requires RunOk(t, log, envs, hash) && RunAllowed(t, log, envs, hash)
    ensures Quiet(Run(t, log, envs, hash), node)
    decreases log
  {
    RunOne(t, log, envs, hash);
    if log != [] {
      var next := Step(t, log[0], envs[0], hash);
      assert Ordinary(t, log[0]) && Allowed(t, log[0], envs[0]) && RunAllowed(next, log[1..], envs[1..], hash);
      assert forall i :: 0 <= i < |envs[1..]| ==> envs[1..][i] == envs[i + 1];
      hide Quiet, Step, Run, RunOk, RunAllowed, Allowed, Ordinary, Admissible;
      StepQuiet(t, log[0], envs[0], hash);
      RunQuiet(next, log[1..], envs[1..], hash, node);
    }
  }

  // No stall: in a topic started empty, between any two steps no held message (of a blocking topic:
  // not the front) is resolved already or waits for an endpoint that this node can reach.
  lemma NothingStalls(config: TopicConfig, log: seq<Proposal>, envs: seq<Env>, hash: Hashing, node: NodeId)
    requires |envs| == |log| && forall i :: 0 <= i < |envs| ==> envs[i].node == node
    requires RunOk(FromDurable(config, []), log, envs, hash) && RunAllowed(FromDurable(config, []), log, envs, hash)
    ensures var t := Run(FromDurable(config, []), log, envs, hash);
            forall i :: 0 <= i < |t.queue| && (config.blocking ==> i == 0) ==>
              t.queue[i].Outgoing(t.Reachable(node)) == {} && forall now :: !t.queue[i].IsResolved(now)
  {
    RunQuiet(FromDurable(config, []), log, envs, hash, node);
    RunConfig(FromDurable(config, []), log, envs, hash);
  }
}
