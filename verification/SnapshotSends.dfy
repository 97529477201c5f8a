// At-most-once dispatch when a node installs another's snapshot: exactly when it survives.

module SnapshotSends {
  import opened Messages
  import opened Lists
  import opened Tries
  import opened HoldQueue
  import opened Topics
  import opened Ledger
  import opened Agreement
  import opened Snapshots
  import opened AtMostOnce

  // ----- What polling sends -----

  lemma PollOneSends(h: HoldMessage, reach: set<EndpointAddr>, now: Time, ep: EndpointAddr)
    requires ep in h.Outgoing(reach)
    ensures Sends(PollOne(h, reach, now).events, h.Id(), ep) >= 1
  {
    var send := Dispatch(h.Id(), h.Outgoing(reach));
    SendsOne(send, h.Id(), ep);
    SendsConcat([send], [LeaveEvent(h.SendUnsent(reach))], h.Id(), ep);
  }

  // The message is sent to the endpoint, or it is held as before.
  ghost predicate SentOrHeld(p: Polled, h: HoldMessage, ep: EndpointAddr) {
    Sends(p.events, h.Id(), ep) >= 1 || h in p.queue
  }

  lemma JoinSentOrHeld(a: Polled, b: Polled, h: HoldMessage, ep: EndpointAddr)
    requires SentOrHeld(a, h, ep) || SentOrHeld(b, h, ep)
    ensures SentOrHeld(Join(a, b), h, ep)
  {
    SendsConcat(a.events, b.events, h.Id(), ep);
  }

  lemma PollIfSends(h: HoldMessage, ids: set<MessageId>, reach: set<EndpointAddr>, now: Time, ep: EndpointAddr)
    requires ep in h.Outgoing(reach)
    ensures SentOrHeld(PollIf(h, ids, reach, now), h, ep)
  {
    PollOneSends(h, reach, now, ep);
  }

  lemma {:induction false} PollEachSends(q: seq<HoldMessage>, ids: set<MessageId>, reach: set<EndpointAddr>, now: Time,
                                         h: HoldMessage, ep: EndpointAddr)
    requires h in q && ep in h.Outgoing(reach)
    ensures SentOrHeld(PollEach(q, ids, reach, now), h, ep)
  {
    hide *;
    assert q == [q[0]] + q[1..];
    PollEachCons(q[0], q[1..], ids, reach, now);
    if q[0] == h {
      PollIfSends(h, ids, reach, now, ep);
    } else {
      PollEachSends(q[1..], ids, reach, now, h, ep);
    }
    JoinSentOrHeld(PollIf(q[0], ids, reach, now), PollEach(q[1..], ids, reach, now), h, ep);
  }

  lemma HeldBehind(rest: seq<HoldMessage>, h: HoldMessage, ep: EndpointAddr)
    requires h in rest
    ensures SentOrHeld(Polled(rest, []), h, ep)
  {
  }

  lemma SentNow(p: Polled, h: HoldMessage, ep: EndpointAddr)
    requires Sends(p.events, h.Id(), ep) >= 1
    ensures SentOrHeld(p, h, ep)
  {
  }

  lemma {:induction false} DrainSends(q: seq<HoldMessage>, reach: set<EndpointAddr>, now: Time, h: HoldMessage,
                                      ep: EndpointAddr)
    requires h in q && ep in h.Outgoing(reach)
    ensures SentOrHeld(Drain(q, reach, now), h, ep)
    ensures q[0] == h ==> Sends(Drain(q, reach, now).events, h.Id(), ep) >= 1
  {
    hide *;
    assert q == [q[0]] + q[1..];
    DrainCons(q[0], q[1..], reach, now);
    var one := PollOne(q[0], reach, now);
    var more := if one.queue == [] then Drain(q[1..], reach, now) else Polled(q[1..], []);
    if q[0] == h {
      PollOneSends(h, reach, now, ep);
      SentNow(one, h, ep);
      JoinEvents(one, more);
      SendsConcat(one.events, more.events, h.Id(), ep);
    } else if one.queue == [] {
      DrainSends(q[1..], reach, now, h, ep);
    } else {
      HeldBehind(q[1..], h, ep);
    }
    JoinSentOrHeld(one, more, h, ep);
  }

  lemma SettleSends(blocking: bool, q: seq<HoldMessage>, ids: set<MessageId>, reach: set<EndpointAddr>, now: Time,
                    h: HoldMessage, ep: EndpointAddr)
    requires h in q && ep in h.Outgoing(reach)
    ensures SentOrHeld(Settle(blocking, q, ids, reach, now), h, ep)
  {
    hide SentOrHeld, PollEach, Drain, HoldMessage.Outgoing;
    PollEachSends(q, ids, reach, now, h, ep);
    DrainSends(q, reach, now, h, ep);
    HeldBehind(q, h, ep);
  }

  // Polling the message itself, where it may be polled, sends it.
  lemma SettleSendsNow(blocking: bool, q: seq<HoldMessage>, reach: set<EndpointAddr>, now: Time, h: HoldMessage,
                       ep: EndpointAddr)
    requires h in q && ep in h.Outgoing(reach) && (blocking ==> q[0] == h)
    ensures Sends(Settle(blocking, q, {h.Id()}, reach, now).events, h.Id(), ep) >= 1
  {
    hide Sends, PollEach, Drain, HoldMessage.Outgoing;
    if blocking {
      DrainSends(q, reach, now, h, ep);
    } else {
      PollEachSendsNow(q, reach, now, h, ep);
    }
  }

  lemma {:induction false} PollEachSendsNow(q: seq<HoldMessage>, reach: set<EndpointAddr>, now: Time,
                                            h: HoldMessage, ep: EndpointAddr)
    requires h in q && ep in h.Outgoing(reach)
    ensures Sends(PollEach(q, {h.Id()}, reach, now).events, h.Id(), ep) >= 1
  {
    var ids := {h.Id()};
    assert PollIf(h, ids, reach, now) == PollOne(h, reach, now);
    hide *;
    assert q == [q[0]] + q[1..];
    PollEachCons(q[0], q[1..], ids, reach, now);
    SendsConcat(PollIf(q[0], ids, reach, now).events, PollEach(q[1..], ids, reach, now).events, h.Id(), ep);
    if q[0] == h {
      PollOneSends(h, reach, now, ep);
    } else {
      PollEachSendsNow(q[1..], reach, now, h, ep);
    }
    JoinEvents(PollIf(q[0], ids, reach, now), PollEach(q[1..], ids, reach, now));
  }

  lemma JoinEvents(a: Polled, b: Polled)
    ensures Join(a, b).events == a.events + b.events
  {
  }

  // ----- Making the front of a blocking topic leave -----

  function AllProcessed(h: HoldMessage): StatusMap {
    map ep | ep in h.waitAck.status :: Processed
  }

  // All expiry times are over.
  predicate Late(q: seq<HoldMessage>, now: Time) {
    forall m :: m in MessagesOf(q) && m.durability.Some? ==> m.durability.value.expire < now
  }

  lemma {:induction false} SomeLate(q: seq<HoldMessage>, from: Time) returns (now: Time)
    ensures from <= now && Late(q, now)
  {
    now := from;
    if q != [] {
      assert q == [q[0]] + q[1..];
      MessagesConcat([q[0]], q[1..]);
      now := SomeLate(q[1..], from);
      var m := q[0].message;
      if m.durability.Some? && m.durability.value.expire >= now {
        now := m.durability.value.expire + 1;
      }
    }
  }

  lemma FrontLeaves(h: HoldMessage, reach: set<EndpointAddr>, now: Time)
    requires h.message.durability.Some? ==> h.message.durability.value.expire < now
    ensures PollOne(h.UpdateAcks(AllProcessed(h)), reach, now).queue == []
  {
    var acked := h.UpdateAcks(AllProcessed(h));
    forall ep | ep in acked.waitAck.status ensures acked.waitAck.status[ep].IsResolved(h.waitAck.level) {
    }
    assert acked.Outgoing(reach) == {};
    assert acked.SendUnsent(reach).waitAck.status == acked.waitAck.status;
  }

  lemma NoRepeatsPart(held: seq<MessageId>, left: seq<MessageId>, rest: seq<MessageId>)
    requires NoRepeats(held) && multiset(left) + multiset(rest) == multiset(held)
    ensures NoRepeats(rest)
  {
    NoRepeatsCount(held);
    NoRepeatsCount(rest);
    hide NoRepeats;
    assert forall x :: multiset(held)[x] == multiset(left)[x] + multiset(rest)[x];
  }

  lemma {:induction false} DrainShrinks(q: seq<HoldMessage>, reach: set<EndpointAddr>, now: Time)
    requires q != [] && PollOne(q[0], reach, now).queue == []
    ensures |Drain(q, reach, now).queue| < |q|
  {
    DrainBalance(q[1..], reach, now);
    hide PollOne, FlatMap;
    assert |Drain(q[1..], reach, now).queue| <= |q[1..]| by {
      assert |Ids(q[1..])| == |FlatMap(LeftOf, Drain(q[1..], reach, now).events)| + |Ids(Drain(q[1..], reach, now).queue)|;
    }
  }

  // The step that moves the message on: it is polled, or the front before it is made to leave.
  ghost function MoveOn(t: Topic, h: HoldMessage): Proposal
    requires h in t.queue
  {
    if t.config.blocking then SetState(t.queue[0].Id(), if t.queue[0] == h then map[] else AllProcessed(t.queue[0]))
    else SetState(h.Id(), map[])
  }

  lemma OtherIds(q: seq<HoldMessage>, h: HoldMessage)
    requires NoRepeats(Ids(q)) && h in q && q[0] != h
    ensures q[0].Id() != h.Id()
  {
    var i :| 0 <= i < |q| && q[i] == h;
    assert Ids(q)[0] != Ids(q)[i];
  }

  lemma StaysLate(t: Topic, p: Proposal, env: Env, hash: Hashing)
    requires Late(t.queue, env.now) && !p.Delegate?
    ensures Late(Step(t, p, env, hash).queue, env.now)
  {
    StepMessages(t, p, env, hash);
    hide Step, MessagesOf;
  }

  lemma FrontIsLate(q: seq<HoldMessage>, now: Time)
    requires Late(q, now) && q != []
    ensures q[0].message.durability.Some? ==> q[0].message.durability.value.expire < now
  {
    assert q[0].message in MessagesOf(q);
  }

  lemma MoveOnOutcome(t: Topic, h: HoldMessage, hash: Hashing, ep: EndpointAddr, node: NodeId, now: Time)
    requires Late(t.queue, now) && NoRepeats(Ids(t.queue)) && h in t.queue && ep in h.Outgoing(t.Reachable(node))
    ensures var next := Step(t, MoveOn(t, h), Env(node, now, [], []), hash);
            && Lawful(MoveOn(t, h), ep, node) && NoRepeats(Ids(next.queue)) && Late(next.queue, now)
            && next.routing == t.routing
            && (|| Sends(next.events, h.Id(), ep) >= Sends(t.events, h.Id(), ep) + 1
                || (&& h in next.queue && |next.queue| < |t.queue|
                    && Sends(next.events, h.Id(), ep) >= Sends(t.events, h.Id(), ep)))
  {
    hide PollEach, Drain, FlatMap, Sends, NoRepeats, HoldMessage.UpdateAcks, HoldMessage.Outgoing, PollOne,
         Topic.Reachable, Late;
    var p, env, reach := MoveOn(t, h), Env(node, now, [], []), t.Reachable(node);
    StaysLate(t, p, env, hash);
    NoAcks(t.queue, p.id);
    var noted := ApplyAcks(t.queue, p.id, p.acks);
    var s := Settle(t.config.blocking, noted, {p.id}, reach, env.now);
    assert Ids(noted) == Ids(t.queue);
    SettleBalance(t.config.blocking, noted, {p.id}, reach, env.now);
    NoRepeatsPart(Ids(noted), FlatMap(LeftOf, s.events), Ids(s.queue));
    SendsConcat(t.events, s.events, h.Id(), ep);
    SameReach(t, Note(t, p.id, p.acks), node);
    if t.config.blocking && t.queue[0] != h {
      OtherIds(t.queue, h);
      var i :| 0 <= i < |t.queue| && t.queue[i] == h;
      assert noted[i] == h && h in noted && noted[0] == t.queue[0].UpdateAcks(AllProcessed(t.queue[0]));
      SettleSends(true, noted, {p.id}, reach, env.now, h, ep);
      FrontIsLate(t.queue, now);
      FrontLeaves(t.queue[0], reach, now);
      DrainShrinks(noted, reach, env.now);
    } else {
      SettleSendsNow(t.config.blocking, t.queue, reach, env.now, h, ep);
    }
  }

  // ----- Suffixes of the log -----

  // A log the node may go on with, with clocks that do not go back behind `now`: lawful for the
  // endpoint, and without delegating the message.
  ghost predicate Suffix(t: Topic, log: seq<Proposal>, envs: seq<Env>, hash: Hashing,
                         id: MessageId, ep: EndpointAddr, node: NodeId, now: Time) {
    && |envs| == |log|
    && (forall i :: 0 <= i < |log| ==> Lawful(log[i], ep, node) && envs[i].node == node && now <= envs[i].now)
    && (forall i, j :: 0 <= i < j < |envs| ==> envs[i].now <= envs[j].now)
    && RunOk(t, log, envs, hash) && Coming(log, id) == 0
  }

  lemma SuffixNone(t: Topic, hash: Hashing, id: MessageId, ep: EndpointAddr, node: NodeId, now: Time)
    ensures Suffix(t, [], [], hash, id, ep, node, now) && Run(t, [], [], hash) == t
  {
  }

  lemma SuffixCons(t: Topic, p: Proposal, env: Env, log: seq<Proposal>, envs: seq<Env>, hash: Hashing, id: MessageId,
                   ep: EndpointAddr, node: NodeId)
    requires !p.Delegate? && Lawful(p, ep, node) && env.node == node && Admissible(t, p, env, hash)
    requires Suffix(Step(t, p, env, hash), log, envs, hash, id, ep, node, env.now)
    ensures Suffix(t, [p] + log, [env] + envs, hash, id, ep, node, env.now)
    ensures Run(t, [p] + log, [env] + envs, hash) == Run(Step(t, p, env, hash), log, envs, hash)
  {
    hide Step, Admissible, Lawful, Coming;
    ComingOne(p, log, id);
    assert ([p] + log)[1..] == log && ([env] + envs)[1..] == envs;
  }

  lemma SuffixEarlier(t: Topic, log: seq<Proposal>, envs: seq<Env>, hash: Hashing, id: MessageId, ep: EndpointAddr,
                      node: NodeId, now: Time, from: Time)
    requires Suffix(t, log, envs, hash, id, ep, node, now) && from <= now
    ensures Suffix(t, log, envs, hash, id, ep, node, from)
  {
    hide RunOk, Lawful, Coming;
  }

  // A message listed as unsent for an endpoint that the node reaches can be made to be sent.
  lemma {:induction false} CanBeSent(t: Topic, h: HoldMessage, hash: Hashing, ep: EndpointAddr, node: NodeId, now: Time)
    returns (log: seq<Proposal>, envs: seq<Env>)
    requires Late(t.queue, now) && NoRepeats(Ids(t.queue)) && h in t.queue && ep in h.Outgoing(t.Reachable(node))
    ensures Suffix(t, log, envs, hash, h.Id(), ep, node, now)
    ensures Sends(Run(t, log, envs, hash).events, h.Id(), ep) >= Sends(t.events, h.Id(), ep) + 1
    decreases |t.queue|
  {
    hide Step, Sends, NoRepeats, Suffix, Run, HoldMessage.Outgoing, Lawful, Late;
    var p, env := MoveOn(t, h), Env(node, now, [], []);
    var next := Step(t, p, env, hash);
    MoveOnOutcome(t, h, hash, ep, node, now);
    SuffixNone(next, hash, h.Id(), ep, node, now);
    log, envs := [], [];
    if Sends(next.events, h.Id(), ep) < Sends(t.events, h.Id(), ep) + 1 {
      SameReach(t, next, node);
      log, envs := CanBeSent(next, h, hash, ep, node, now);
    }
    SuffixCons(t, p, env, log, envs, hash, h.Id(), ep, node);
    log, envs := [p] + log, [env] + envs;
  }

  // ----- Bringing the endpoint online -----

  lemma {:induction false} SomeWalk(ids: set<MessageId>) returns (walk: seq<MessageId>)
    ensures Enumerates(walk, ids)
    decreases ids
  {
    walk := [];
    if ids != {} {
      var id := Pick(ids);
      var rest := SomeWalk(ids - {id});
      walk := [id] + rest;
      NoRepeatsCons(id, rest);
      assert id in rest <==> id in Elements(rest);
      assert Elements(walk) == {id} + Elements(rest);
    }
  }

  ghost function Online(ep: EndpointAddr, node: NodeId): Proposal {
    GoOnline(ep, Everything, node)
  }

  // With every interest there is, it is listed by each message that is open to it.
  lemma OnlineLists(t: Topic, h: HoldMessage, ep: EndpointAddr, node: NodeId)
    requires t.ix.Valid() && h in t.queue && IsOpen(h, ep)
    ensures var ready := Prepare(t, Online(ep, node)); var x := EnlistOne(ready.ix, h, ep);
            && x in ready.queue && x.Id() == h.Id() && ep in x.Outgoing(ready.Reachable(node))
            && Ids(ready.queue) == Ids(t.queue) && ready.events == t.events
  {
    var p := Online(ep, node);
    var ready := Prepare(t, p);
    var i :| 0 <= i < |t.queue| && t.queue[i] == h;
    assert ready.queue[i] == EnlistOne(ready.ix, h, ep);
    if ep !in h.waitAck.status {
      var subject := h.message.subjects[0];
      EverythingIsFound(t.ix, ep, subject);
      assert subject in h.message.subjects;
      assert ep in Collect(ready.ix, h.message.subjects);
    }
  }

  lemma PermutedSends(a: seq<Event>, b: seq<Event>, id: MessageId, ep: EndpointAddr)
    requires multiset(a) == multiset(b)
    ensures Sends(a, id, ep) == Sends(b, id, ep)
  {
    FlatMapPermuted(SentTo(id, ep), a, b);
    assert |multiset(FlatMap(SentTo(id, ep), a))| == |multiset(FlatMap(SentTo(id, ep), b))|;
  }

  lemma OnlineOutcome(t: Topic, h: HoldMessage, env: Env, hash: Hashing, ep: EndpointAddr, node: NodeId)
    requires t.ix.Valid() && h in t.queue && IsOpen(h, ep) && NoRepeats(Ids(t.queue))
    requires env.node == node && Admissible(t, Online(ep, node), env, hash)
    ensures var next := Step(t, Online(ep, node), env, hash); var x := EnlistOne(Prepare(t, Online(ep, node)).ix, h, ep);
            && x.Id() == h.Id() && ep in x.Outgoing(next.Reachable(node)) && NoRepeats(Ids(next.queue))
            && Sends(next.events, h.Id(), ep) >= Sends(t.events, h.Id(), ep)
            && (Sends(next.events, h.Id(), ep) >= Sends(t.events, h.Id(), ep) + 1 || x in next.queue)
  {
    hide Settle, Walk, PollAll, Prepare, FlatMap, Sends, NoRepeats, IsOpen, EnlistOne, HoldMessage.Outgoing, Enumerates;
    var ready, next := Prepare(t, Online(ep, node)), Step(t, Online(ep, node), env, hash);
    var x := EnlistOne(ready.ix, h, ep);
    OnlineLists(t, h, ep, node);
    PollAllIsWalk(ready, env.walk, env);
    var w, reach := WalkResult(ready, env.walk, env), ready.Reachable(node);
    SameReach(ready, next, node);
    var s := Settle(t.config.blocking, ready.queue, Elements(env.walk), reach, env.now);
    assert ready.config == t.config by { PrepareConfig(t, Online(ep, node)); }
    WalkIsSettle(t.config.blocking, ready.queue, env.walk, reach, env.now);
    SettleSends(t.config.blocking, ready.queue, Elements(env.walk), reach, env.now, x, ep);
    SettleBalance(t.config.blocking, ready.queue, Elements(env.walk), reach, env.now);
    NoRepeatsPart(Ids(ready.queue), FlatMap(LeftOf, s.events), Ids(s.queue));
    PermutedSends(w.events, s.events, h.Id(), ep);
    SendsConcat(t.events, w.events, h.Id(), ep);
  }

  lemma OnlineFits(t: Topic, env: Env, hash: Hashing, ep: EndpointAddr, node: NodeId)
    requires Enumerates(env.walk, NeedPoll(t, Online(ep, node)))
    ensures Admissible(t, Online(ep, node), env, hash) && Lawful(Online(ep, node), ep, node)
  {
  }

  // A message that is open to an endpoint can be made to be sent to it.
  lemma OpenCanBeSent(t: Topic, h: HoldMessage, hash: Hashing, ep: EndpointAddr, node: NodeId, from: Time)
    returns (log: seq<Proposal>, envs: seq<Env>)
    requires t.ix.Valid() && h in t.queue && IsOpen(h, ep) && NoRepeats(Ids(t.queue))
    ensures Suffix(t, log, envs, hash, h.Id(), ep, node, from)
    ensures Sends(Run(t, log, envs, hash).events, h.Id(), ep) >= Sends(t.events, h.Id(), ep) + 1
  {
    hide Step, Sends, NoRepeats, Suffix, Run, HoldMessage.Outgoing, Lawful, Admissible, IsOpen, Index.Valid, Prepare,
         EnlistOne, Late;
    var p := Online(ep, node);
    var walk := SomeWalk(NeedPoll(t, p));
    var now := SomeLate(t.queue, from);
    var env := Env(node, now, walk, []);
    OnlineFits(t, env, hash, ep, node);
    OnlineOutcome(t, h, env, hash, ep, node);
    StaysLate(t, p, env, hash);
    var next := Step(t, p, env, hash);
    SuffixNone(next, hash, h.Id(), ep, node, now);
    log, envs := [], [];
    if Sends(next.events, h.Id(), ep) < Sends(t.events, h.Id(), ep) + 1 {
      log, envs := CanBeSent(next, EnlistOne(Prepare(t, p).ix, h, ep), hash, ep, node, now);
    }
    SuffixCons(t, p, env, log, envs, hash, h.Id(), ep, node);
    log, envs := [p] + log, [env] + envs;
    SuffixEarlier(t, log, envs, hash, h.Id(), ep, node, now, from);
  }

  // ----- Installing a snapshot -----

  // Whatever the log goes on with from `now` on, this node hands the message to the endpoint at most
  // once, in all.
  ghost predicate SafeAfter(t: Topic, hash: Hashing, id: MessageId, ep: EndpointAddr, node: NodeId, now: Time) {
    forall log, envs :: Suffix(t, log, envs, hash, id, ep, node, now) ==> Sends(Run(t, log, envs, hash).events, id, ep) <= 1
  }

  // What the node `host` has after installing the image of `other`.
  ghost function Installed(host: Topic, other: Topic): Topic {
    Restore(Save(other), host.events, host.commands)
  }

  lemma {:induction false} SomeOpen(q: seq<HoldMessage>, id: MessageId, ep: EndpointAddr) returns (h: HoldMessage)
    requires Open(q, id, ep) >= 1
    ensures h in q && h.Id() == id && IsOpen(h, ep)
  {
    hide Open, IsOpen;
    OpenConcat([], [], id, ep);
    assert q != [];
    assert q == [q[0]] + q[1..];
    OpenConcat([q[0]], q[1..], id, ep);
    OpenOne(q[0], id, ep);
    if q[0].Id() == id && IsOpen(q[0], ep) {
      h := q[0];
    } else {
      h := SomeOpen(q[1..], id, ep);
    }
  }

  lemma InstalledIsSafe(host: Topic, other: Topic, hash: Hashing, id: MessageId, ep: EndpointAddr, node: NodeId, now: Time)
    requires Sends(host.events, id, ep) + Open(other.queue, id, ep) <= 1
    ensures SafeAfter(Installed(host, other), hash, id, ep, node, now)
  {
    hide Sends, Open, Run, RunOk, Lawful, FromRaw, Coming;
    var t := Installed(host, other);
    forall log, envs | Suffix(t, log, envs, hash, id, ep, node, now)
      ensures Sends(Run(t, log, envs, hash).events, id, ep) <= 1
    {
      RunPays(t, log, envs, hash, id, ep, node, node);
    }
  }

  // Installing another node's snapshot on the node that hosts the endpoint keeps at-most-once dispatch,
  // whatever the log goes on with, exactly unless the host has sent the message already and it is open
  // to the endpoint in the snapshot: listed as unsent, or durable and not listed yet.
  lemma InstallIsSafeIff(host: Topic, other: Topic, hash: Hashing, id: MessageId, ep: EndpointAddr, node: NodeId, now: Time)
    requires Sends(host.events, id, ep) <= 1 && NoRepeats(Ids(other.queue))
    ensures SafeAfter(Installed(host, other), hash, id, ep, node, now) <==>
            !(Sends(host.events, id, ep) == 1 && Open(other.queue, id, ep) >= 1)
  {
    hide Sends, Open, SafeAfter, FromRaw, NoRepeats, Index.Valid;
    OpenOnce(other.queue, id, ep);
    if Sends(host.events, id, ep) == 1 && Open(other.queue, id, ep) >= 1 {
      var h := SomeOpen(other.queue, id, ep);
      FromRawIsValid(other.ix.raw);
      var log, envs := OpenCanBeSent(Installed(host, other), h, hash, ep, node, now);
      NotSafe(Installed(host, other), log, envs, hash, id, ep, node, now);
    } else {
      InstalledIsSafe(host, other, hash, id, ep, node, now);
    }
  }

  lemma OpenOnce(q: seq<HoldMessage>, id: MessageId, ep: EndpointAddr)
    requires NoRepeats(Ids(q))
    ensures Open(q, id, ep) <= 1
  {
    OpenWithin(q, id, ep);
    NoRepeatsCount(Ids(q));
  }

  lemma NotSafe(t: Topic, log: seq<Proposal>, envs: seq<Env>, hash: Hashing, id: MessageId, ep: EndpointAddr,
                node: NodeId, now: Time)
    requires Suffix(t, log, envs, hash, id, ep, node, now) && Sends(Run(t, log, envs, hash).events, id, ep) > 1
    ensures !SafeAfter(t, hash, id, ep, node, now)
  {
    hide Suffix, Sends, Run;
  }

  // On a node that does not host the endpoint nothing is sent, whoever the snapshot comes from.
  lemma InstalledElsewhere(mine: Topic, other: Topic, log: seq<Proposal>, envs: seq<Env>, hash: Hashing,
                           id: MessageId, ep: EndpointAddr, host: NodeId, node: NodeId)
    requires |envs| == |log| && forall i :: 0 <= i < |log| ==> Lawful(log[i], ep, host) && envs[i].node == node
    requires node != host && ep !in other.Reachable(node)
    ensures Sends(Run(Installed(mine, other), log, envs, hash).events, id, ep) == Sends(mine.events, id, ep)
  {
    hide Sends, Open, Run, Lawful, FromRaw;
    RunPays(Installed(mine, other), log, envs, hash, id, ep, host, node);
  }
}
