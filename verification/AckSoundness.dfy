// What an ack result says about the statuses it carries.

module AckSoundness {
  import opened Messages
  import opened Levels
  import opened HoldQueue
  import opened Topics

  // Success: every endpoint got to the level asked for, or beyond, and none failed. Failure: nothing is
  // pending and some endpoint failed or became unreachable. An exception: the message was dropped to
  // make room.
  ghost predicate SoundResult(r: AckResult, level: AckExpect) {
    match r
    case AckOk(status) => forall ep :: ep in status ==> !HasFailed(status[ep]) && LevelRank(level) <= Rank(status[ep])
    case AckErr(status, None) =>
      && (forall ep :: ep in status ==> HasFailed(status[ep]) || LevelRank(level) <= Rank(status[ep]))
      && exists ep :: ep in status && HasFailed(status[ep])
    case AckErr(_, Some(exception)) => exception == Overflow
  }

  ghost predicate SoundEvent(e: Event, known: map<MessageId, Message>) {
    e.Leave? && e.id in known && !known[e.id].target.Durable? ==> SoundResult(e.result, known[e.id].ackKind)
  }

  ghost predicate AllSound(events: seq<Event>, known: map<MessageId, Message>) {
    forall e :: e in events ==> SoundEvent(e, known)
  }

  ghost predicate Genuine(h: HoldMessage, known: map<MessageId, Message>) {
    h.Id() in known && known[h.Id()] == h.message && h.waitAck.level == h.message.ackKind
  }

  ghost predicate AllGenuine(q: seq<HoldMessage>, known: map<MessageId, Message>) {
    forall h :: h in q ==> Genuine(h, known)
  }

  lemma PollOneSound(h: HoldMessage, reach: set<EndpointAddr>, now: Time, known: map<MessageId, Message>)
    requires Genuine(h, known)
    ensures var one := PollOne(h, reach, now); AllSound(one.events, known) && AllGenuine(one.queue, known)
  {
    AllLevels();
    var sent := h.SendUnsent(reach);
    if !h.message.target.Durable? && sent.IsResolved(now) {
      assert SoundResult(sent.Resolve(), h.message.ackKind);
    }
  }

  lemma JoinSound(a: Polled, b: Polled, known: map<MessageId, Message>)
    requires AllSound(a.events, known) && AllGenuine(a.queue, known)
    requires AllSound(b.events, known) && AllGenuine(b.queue, known)
    ensures AllSound(Join(a, b).events, known) && AllGenuine(Join(a, b).queue, known)
  {
  }

  lemma {:induction false} PollEachSound(q: seq<HoldMessage>, ids: set<MessageId>, reach: set<EndpointAddr>, now: Time,
                                         known: map<MessageId, Message>)
    requires AllGenuine(q, known)
    ensures var p := PollEach(q, ids, reach, now); AllSound(p.events, known) && AllGenuine(p.queue, known)
  {
    if q != [] {
      var h, rest := q[0], q[1..];
      assert q == [h] + rest && h in q;
      PollEachCons(h, rest, ids, reach, now);
      PollOneSound(h, reach, now, known);
      hide PollEach, PollOne, Genuine, SoundEvent;
      PollEachSound(rest, ids, reach, now, known);
      JoinSound(PollIf(h, ids, reach, now), PollEach(rest, ids, reach, now), known);
    }
  }

  lemma {:induction false} DrainSound(q: seq<HoldMessage>, reach: set<EndpointAddr>, now: Time,
                                      known: map<MessageId, Message>)
    requires AllGenuine(q, known)
    ensures var p := Drain(q, reach, now); AllSound(p.events, known) && AllGenuine(p.queue, known)
  {
    if q != [] {
      var h, rest := q[0], q[1..];
      assert q == [h] + rest && h in q;
      DrainCons(h, rest, reach, now);
      PollOneSound(h, reach, now, known);
      hide Drain, PollOne, Genuine, SoundEvent;
      DrainSound(rest, reach, now, known);
      var one := PollOne(h, reach, now);
      JoinSound(one, if one.queue == [] then Drain(rest, reach, now) else Polled(rest, []), known);
    }
  }

  ghost predicate Sound(t: Topic, known: map<MessageId, Message>) {
    AllSound(t.events, known) && AllGenuine(t.queue, known)
  }

  lemma UpdateAndFlushSound(t: Topic, id: MessageId, acks: StatusMap, env: Env, known: map<MessageId, Message>)
    requires Sound(t, known)
    ensures Sound(UpdateAndFlush(t, id, acks, env), known)
  {
    var noted := Note(t, id, acks);
    forall h | h in noted.queue ensures Genuine(h, known) {
      var i :| 0 <= i < |t.queue| && noted.queue[i] == h;
      assert Genuine(t.queue[i], known);
    }
    hide PollEach, Drain, Genuine, SoundEvent;
    PollEachSound(noted.queue, {id}, t.Reachable(env.node), env.now, known);
    DrainSound(noted.queue, t.Reachable(env.node), env.now, known);
  }

  lemma {:induction false} PollAllSound(t: Topic, ids: seq<MessageId>, env: Env, known: map<MessageId, Message>)
    requires Sound(t, known)
    ensures Sound(PollAll(t, ids, env), known)
    decreases ids
  {
    hide *;
    PollAllOne(t, ids, env);
    if ids != [] {
      UpdateAndFlushSound(t, ids[0], map[], env, known);
      PollAllSound(UpdateAndFlush(t, ids[0], map[], env), ids[1..], env, known);
    }
  }

  lemma PrepareSound(t: Topic, p: Proposal, known: map<MessageId, Message>)
    requires p.OfEndpoint() && Sound(t, known)
    ensures Sound(Prepare(t, p), known)
  {
    forall h | h in Prepare(t, p).queue ensures Genuine(h, known) {
      var i :| 0 <= i < |t.queue| && Prepare(t, p).queue[i] == h;
      assert Genuine(t.queue[i], known);
    }
  }

  lemma StepSound(t: Topic, p: Proposal, env: Env, hash: Hashing, known: map<MessageId, Message>)
    requires Sound(t, known)
    requires p.Delegate? ==> p.message.id in known && known[p.message.id] == p.message
    ensures Sound(Step(t, p, env, hash), known)
  {
    hide UpdateAndFlush, PollAll, Prepare;
    match p
    case Delegate(m) =>
      if !(m.target.Push? && env.ring == []) && !(t.Full() && t.config.overflow.value.policy.RejectNew?) {
        var room := if t.Full() then DropFront(t) else t;
        UpdateAndFlushSound(Enqueue(room, Hold(t, m, env, hash)), m.id, map[], env, known);
      }
    case SetState(id, acks) => UpdateAndFlushSound(t, id, acks, env, known);
    case _ =>
      PrepareSound(t, p, known);
      PollAllSound(Prepare(t, p), env.walk, env, known);
  }

  lemma {:induction false} RunSound(t: Topic, log: seq<Proposal>, envs: seq<Env>, hash: Hashing,
                                    known: map<MessageId, Message>)
    requires |envs| == |log| && Sound(t, known)
    requires forall i :: 0 <= i < |log| && log[i].Delegate? ==>
               log[i].message.id in known && known[log[i].message.id] == log[i].message
    ensures Sound(Run(t, log, envs, hash), known)
    decreases log
  {
    RunOne(t, log, envs, hash);
    if log != [] {
      assert forall i :: 0 <= i < |log[1..]| ==> log[1..][i] == log[i + 1];
      assert log[0].Delegate? ==> log[0].message.id in known && known[log[0].message.id] == log[0].message;
      hide Sound, Step, Run;
      StepSound(t, log[0], envs[0], hash, known);
      RunSound(Step(t, log[0], envs[0], hash), log[1..], envs[1..], hash, known);
    }
  }

  // Ack soundness: over a topic's life, with `known` naming the message behind each id, every ack
  // result that leaves the queue for a message that is not durable is sound.
  lemma AcksAreSound(config: TopicConfig, messages: seq<DurableMessage>, log: seq<Proposal>, envs: seq<Env>,
                     hash: Hashing, known: map<MessageId, Message>, id: MessageId, result: AckResult)
    requires |envs| == |log|
    requires forall m :: m in messages ==> m.message.id in known && known[m.message.id] == m.message
    requires forall i :: 0 <= i < |log| && log[i].Delegate? ==>
               log[i].message.id in known && known[log[i].message.id] == log[i].message
    requires Leave(id, result) in Run(FromDurable(config, messages), log, envs, hash).events
    requires id in known && !known[id].target.Durable?
    ensures SoundResult(result, known[id].ackKind)
  {
    LoadedIsGenuine(config, messages, known);
    hide FromDurable, Run, SoundResult, AllGenuine;
    RunSound(FromDurable(config, messages), log, envs, hash, known);
    assert SoundEvent(Leave(id, result), known);
  }

  lemma LoadedIsGenuine(config: TopicConfig, messages: seq<DurableMessage>, known: map<MessageId, Message>)
    requires forall m :: m in messages ==> m.message.id in known && known[m.message.id] == m.message
    ensures Sound(FromDurable(config, messages), known)
  {
    var start, sorted := FromDurable(config, messages), SortByTime(messages);
    hide SortByTime;
    assert start.events == [] && |start.queue| == |sorted|;
    forall h | h in start.queue ensures Genuine(h, known) {
      var i :| 0 <= i < |start.queue| && start.queue[i] == h;
      assert h == Reload(sorted[i]);
      assert sorted[i] in multiset(sorted) && multiset(sorted) == multiset(messages);
      assert sorted[i] in messages;
    }
  }
}
