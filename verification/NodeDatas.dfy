// The node's topics as objects, and the proposals applied to them.

module NodeDatas {
  import opened Messages
  import opened Lists
  import opened Tries
  import opened Topics
  import opened QueueIndex
  import opened Contexts
  import opened TopicDatas
  import opened Snapshots
  import opened Nodes
  import opened Lives

  // A topic together with the objects that only it reaches.
  ghost predicate Owned(t: TopicData, fp: set<object>)
    reads fp
  {
    && {t, t.queue, t.epInterestMap, t.epInterestMap.root} <= fp
    && t.epInterestMap.root.repr <= fp
    && t.Valid()
  }

  ghost function ValueOf(t: TopicData, fp: set<object>, h: History): Topic
    requires Owned(t, fp)
    reads fp
  {
    Topic(t.config, t.epRoutingTable, t.epInterestMap.Value(), t.queue.Contents(), h.events, h.commands)
  }

  ghost function Footprint(t: TopicData): set<object>
    reads t.epInterestMap.root
  {
    {t, t.queue, t.epInterestMap, t.epInterestMap.root} + t.epInterestMap.root.repr
  }

  // The image that a stored topic is: the plain interests, and the messages in push order.
  ghost function ImageOf(s: SavedTopic): TopicImage
    requires s.Coherent()
  {
    TopicImage(s.config, s.epRoutingTable, s.raw, Listed(s.queue.timeId, s.queue.holdMessages))
  }

  lemma SavedIsImage(t: TopicData, fp: set<object>, h: History)
    requires Owned(t, fp)
    ensures t.Serialize().Coherent() && ImageOf(t.Serialize()) == Save(ValueOf(t, fp, h))
  {
  }

  ghost function TopicOf(s: SavedTopic, h: History): Topic
    requires s.Coherent()
  {
    Restore(ImageOf(s), h.events, h.commands)
  }

  method ReadBack(saved: SavedTopic, ghost h: History) returns (t: TopicData, ghost s: Slot)
    requires saved.Coherent()
    ensures s.t == t && fresh(s.fp) && Owned(s.t, s.fp)
    ensures ValueOf(s.t, s.fp, s.h) == TopicOf(saved, h)
    ensures t.queue.timeId == saved.queue.timeId
  {
    t := new TopicData.Deserialize(saved);
    s := Slot(t, Footprint(t), h);
  }

  // No time in the queue is later than `latest`.
  ghost predicate TimelyOne(t: TopicData, fp: set<object>, latest: Time)
    requires Owned(t, fp)
    reads fp
  {
    forall x :: x in t.queue.timeId ==> x.time <= latest
  }

  // A message to hold is new, and the clock is ahead of the times in the queue.
  ghost predicate Accepts(t: TopicData, p: Proposal, now: Time)
    reads t.queue
  {
    p.Delegate? ==>
      && !p.message.target.Available?
      && p.message.id !in t.queue.holdMessages
      && forall x :: x in t.queue.timeId ==> x.time < now
  }

  method Perform(t: TopicData, p: Proposal, ctx: ProposalContext, hash: Hashing) returns (ghost env: Env)
    requires t.Valid() && ctx.sending == {} && Accepts(t, p, ctx.now)
    modifies t, t.queue, t.epInterestMap, t.epInterestMap.root.repr, ctx
    ensures t.Valid() && fresh(t.epInterestMap.root.repr - old(t.epInterestMap.root.repr))
    ensures env.node == ctx.node && env.now == ctx.now && Admissible(old(t.Value(ctx)), p, env, hash)
    ensures t.Value(ctx) == Step(old(t.Value(ctx)), p, env, hash)
    ensures forall x :: x in t.queue.timeId ==> x in old(t.queue.timeId) || x.time == ctx.now
  {
    match p {
      case Delegate(m) => env := t.HoldNewMessage(m, ctx, hash);
      case SetState(id, acks) =>
        env := EnvOf(ctx);
        t.UpdateAndFlush(id, acks, ctx);
      case GoOnline(ep, interests, host) => env := t.EpOnline(ep, interests, host, ctx, hash);
      case GoOffline(ep, host) => env := t.EpOffline(host, ep, ctx, hash);
      case NewInterest(ep, interests) => env := t.UpdateEpInterest(ep, interests, ctx, hash);
    }
  }

  // The same, of a topic with its objects.
  method PerformOwned(t: TopicData, ghost fp: set<object>, p: Proposal, node: NodeId, now: Time, hash: Hashing,
                      ghost h: History)
    returns (ghost env: Env, ghost fpNow: set<object>, ghost hNow: History)
    requires Owned(t, fp) && Accepts(t, p, now)
    modifies fp
    ensures fp <= fpNow && fresh(fpNow - fp) && Owned(t, fpNow)
    ensures old(TimelyOne(t, fp, now)) ==> TimelyOne(t, fpNow, now)
    ensures env.node == node && env.now == now && Admissible(old(ValueOf(t, fp, h)), p, env, hash)
    ensures ValueOf(t, fpNow, hNow) == Step(old(ValueOf(t, fp, h)), p, env, hash)
  {
    hide Step, Admissible;
    var ctx := new ProposalContext(node, now, h.events, h.commands);
    env := Perform(t, p, ctx, hash);
    fpNow, hNow := fp + t.epInterestMap.root.repr, History(ctx.events, ctx.commands);
  }

  // ----- Several topics -----

  // A loaded topic, the objects that only it reaches, and what it has emitted on this node.
  datatype Slot = Slot(t: TopicData, fp: set<object>, h: History)

  ghost function Refs(slots: map<TopicCode, Slot>): map<TopicCode, TopicData> {
    map code | code in slots :: slots[code].t
  }

  lemma RefsOf(slots: map<TopicCode, Slot>)
    ensures Refs(slots).Keys == slots.Keys
    ensures forall code :: code in slots ==> Refs(slots)[code] == slots[code].t
  {
  }

  lemma RefsSet(slots: map<TopicCode, Slot>, code: TopicCode, s: Slot)
    ensures Refs(slots[code := s]) == Refs(slots)[code := s.t]
    ensures Refs(slots - {code}) == Refs(slots) - {code}
  {
  }

  lemma SlotBack(slots: map<TopicCode, Slot>, code: TopicCode, s: Slot)
    requires code in slots && s.t == slots[code].t
    ensures Refs((slots - {code})[code := s]) == Refs(slots)
  {
  }

  // `repr` holds the objects of all of them, and they share none.
  ghost predicate Sound(slots: map<TopicCode, Slot>, repr: set<object>)
    reads repr
  {
    && (forall code :: code in slots ==> slots[code].fp <= repr && Owned(slots[code].t, slots[code].fp))
    && (forall c, d :: c in slots && d in slots && c != d ==> slots[c].fp !! slots[d].fp)
  }

  ghost function ValueOfAll(slots: map<TopicCode, Slot>, repr: set<object>): TopicMap
    requires Sound(slots, repr)
    reads repr
  {
    map code | code in slots :: ValueOf(slots[code].t, slots[code].fp, slots[code].h)
  }

  lemma TakeSlot(slots: map<TopicCode, Slot>, repr: set<object>, code: TopicCode)
    requires Sound(slots, repr) && code in slots
    ensures Owned(slots[code].t, slots[code].fp) && slots[code].fp <= repr
    ensures Sound(slots - {code}, repr - slots[code].fp)
    ensures var v := ValueOf(slots[code].t, slots[code].fp, slots[code].h);
            ValueOfAll(slots, repr) == ValueOfAll(slots - {code}, repr - slots[code].fp)[code := v]
  {
    hide Owned, ValueOf;
  }

  lemma AddSlot(slots: map<TopicCode, Slot>, repr: set<object>, code: TopicCode, s: Slot)
    requires Sound(slots, repr) && code !in slots && Owned(s.t, s.fp) && repr !! s.fp
    ensures Sound(slots[code := s], repr + s.fp)
    ensures ValueOfAll(slots[code := s], repr + s.fp) == ValueOfAll(slots, repr)[code := ValueOf(s.t, s.fp, s.h)]
  {
    hide Owned, ValueOf;
  }

  ghost predicate Timely(slots: map<TopicCode, Slot>, repr: set<object>, latest: Time)
    requires Sound(slots, repr)
    reads repr
  {
    forall code :: code in slots ==> TimelyOne(slots[code].t, slots[code].fp, latest)
  }

  lemma TakeTimely(slots: map<TopicCode, Slot>, repr: set<object>, code: TopicCode, latest: Time)
    requires Sound(slots, repr) && code in slots
    ensures Owned(slots[code].t, slots[code].fp) && Sound(slots - {code}, repr - slots[code].fp)
    ensures Timely(slots, repr, latest) ==>
              Timely(slots - {code}, repr - slots[code].fp, latest) && TimelyOne(slots[code].t, slots[code].fp, latest)
  {
    hide Owned, TimelyOne;
  }

  lemma AddTimely(slots: map<TopicCode, Slot>, repr: set<object>, code: TopicCode, s: Slot, latest: Time)
    requires Sound(slots, repr) && code !in slots && Owned(s.t, s.fp) && repr !! s.fp
    ensures Sound(slots[code := s], repr + s.fp)
    ensures Timely(slots, repr, latest) && TimelyOne(s.t, s.fp, latest) ==> Timely(slots[code := s], repr + s.fp, latest)
  {
    hide Owned, TimelyOne;
  }

  lemma LaterTimely(slots: map<TopicCode, Slot>, repr: set<object>, latest: Time, now: Time)
    requires Sound(slots, repr) && Timely(slots, repr, latest) && latest <= now
    ensures Timely(slots, repr, now)
  {
    forall code | code in slots ensures TimelyOne(slots[code].t, slots[code].fp, now) {
      assert TimelyOne(slots[code].t, slots[code].fp, latest);
    }
  }

  lemma ValueKeys(slots: map<TopicCode, Slot>, repr: set<object>)
    requires Sound(slots, repr)
    ensures ValueOfAll(slots, repr).Keys == slots.Keys
  {
  }

  // What a proposal about one topic does to all of them.
  ghost predicate Applied(before: TopicMap, after: TopicMap, code: TopicCode, p: Proposal, env: Env, hash: Hashing) {
    && (code in before ==> Admissible(before[code], p, env, hash))
    && after == ApplyProposal(before, ToTopic(code, p), env, hash)
  }

  lemma AppliedOne(others: TopicMap, code: TopicCode, t: Topic, p: Proposal, env: Env, hash: Hashing)
    requires code !in others && Admissible(t, p, env, hash)
    ensures Applied(others[code := t], others[code := Step(t, p, env, hash)], code, p, env, hash)
  {
    hide Step, Admissible;
    var u := Step(t, p, env, hash);
    assert others[code := t][code := u] == others[code := u];
  }

  lemma AppliedNone(before: TopicMap, code: TopicCode, p: Proposal, env: Env, hash: Hashing)
    requires code !in before
    ensures Applied(before, before, code, p, env, hash)
  {
  }

  lemma TakeBack(m: TopicMap, code: TopicCode, t: Topic)
    requires code !in m
    ensures m[code := t] - {code} == m
  {
  }

  // The same, of a topic among others.
  method PerformAmong(t: TopicData, ghost slots: map<TopicCode, Slot>, ghost repr: set<object>, code: TopicCode, p: Proposal,
                      node: NodeId, now: Time, hash: Hashing)
    returns (ghost env: Env, ghost slotsNow: map<TopicCode, Slot>, ghost reprNow: set<object>)
    requires Sound(slots, repr) && code in slots && slots[code].t == t && Accepts(t, p, now)
    modifies repr
    ensures Sound(slotsNow, reprNow) && fresh(reprNow - repr)
    ensures Refs(slotsNow) == Refs(slots)
    ensures env.node == node && env.now == now
    ensures Applied(old(ValueOfAll(slots, repr)), ValueOfAll(slotsNow, reprNow), code, p, env, hash)
    ensures old(Timely(slots, repr, now)) ==> Timely(slotsNow, reprNow, now)
  {
    hide Owned, ValueOf, Step, Admissible, Accepts, Sound, ValueOfAll, Applied, Timely, TimelyOne;
    TakeTimely(slots, repr, code, now);
    ghost var s, fp, h := slots[code], {}, History([], []);
    ghost var rest, others := slots - {code}, repr - slots[code].fp;
    TakeSlot(slots, repr, code);
    ValueKeys(rest, others);
    ghost var m, v := ValueOfAll(rest, others), ValueOf(s.t, s.fp, s.h);
    env, fp, h := PerformOwned(t, s.fp, p, node, now, hash, s.h);
    AddSlot(rest, others, code, Slot(s.t, fp, h));
    AppliedOne(m, code, v, p, env, hash);
    SlotBack(slots, code, Slot(s.t, fp, h));
    AddTimely(rest, others, code, Slot(s.t, fp, h), now);
    slotsNow, reprNow := rest[code := Slot(s.t, fp, h)], others + fp;
  }

  // ----- Snapshots -----

  ghost function SavedAll(slots: map<TopicCode, Slot>, repr: set<object>): map<TopicCode, SavedTopic>
    requires Sound(slots, repr)
    reads repr
  {
    map code | code in slots :: slots[code].t.Serialize()
  }

  ghost predicate CoherentAll(saved: map<TopicCode, SavedTopic>) {
    forall code :: code in saved ==> saved[code].Coherent()
  }

  ghost function TopicsOf(saved: map<TopicCode, SavedTopic>, past: Past): TopicMap
    requires saved.Keys <= past.Keys && CoherentAll(saved)
  {
    map code | code in saved :: TopicOf(saved[code], past[code])
  }

  // No stored time is later than `latest`.
  predicate SavedTimely(saved: map<TopicCode, SavedTopic>, latest: Time) {
    forall code :: code in saved ==> QueueTimely(saved[code], latest)
  }

  predicate QueueTimely(s: SavedTopic, latest: Time) {
    forall x :: x in s.queue.timeId ==> x.time <= latest
  }

  lemma ReadIsTimely(saved: SavedTopic, t: TopicData, fp: set<object>, latest: Time)
    requires Owned(t, fp) && t.queue.timeId == saved.queue.timeId
    ensures TimelyOne(t, fp, latest) <==> QueueTimely(saved, latest)
  {
  }

  lemma SavedAllIsTimely(slots: map<TopicCode, Slot>, repr: set<object>, latest: Time)
    requires Sound(slots, repr) && Timely(slots, repr, latest)
    ensures SavedTimely(SavedAll(slots, repr), latest)
  {
    hide Owned, TimelyOne, QueueTimely;
    forall code | code in slots ensures QueueTimely(slots[code].t.Serialize(), latest) {
      ReadIsTimely(slots[code].t.Serialize(), slots[code].t, slots[code].fp, latest);
    }
  }

  ghost function ImagesOf(saved: map<TopicCode, SavedTopic>): map<TopicCode, TopicImage>
    requires CoherentAll(saved)
  {
    map code | code in saved :: ImageOf(saved[code])
  }

  lemma SavedAllAreImages(slots: map<TopicCode, Slot>, repr: set<object>)
    requires Sound(slots, repr)
    ensures var saved, topics := SavedAll(slots, repr), ValueOfAll(slots, repr);
            && saved.Keys == topics.Keys && CoherentAll(saved)
            && ImagesOf(saved) == map code | code in topics :: Save(topics[code])
  {
    hide Owned, ValueOf, ImageOf, Save, SavedTopic.Coherent;
    forall code | code in slots
      ensures slots[code].t.Serialize().Coherent()
      ensures ImageOf(slots[code].t.Serialize()) == Save(ValueOfAll(slots, repr)[code])
    {
      SavedIsImage(slots[code].t, slots[code].fp, slots[code].h);
    }
  }

  lemma NoTopics(saved: map<TopicCode, SavedTopic>, past: Past)
    requires saved.Keys <= past.Keys && CoherentAll(saved)
    ensures TopicsOf(map[], past) == map[] && Refs(map[]) == map[]
    ensures Sound(map[], {}) && ValueOfAll(map[], {}) == map[]
  {
  }

  lemma NothingTimely(latest: Time)
    ensures Sound(map[], {}) && Timely(map[], {}, latest)
  {
  }

  lemma TopicsOfMore(saved: map<TopicCode, SavedTopic>, past: Past, todo: set<TopicCode>, code: TopicCode)
    requires saved.Keys <= past.Keys && CoherentAll(saved)
    requires code in todo && todo <= saved.Keys
    ensures TopicsOf(saved - (todo - {code}), past) == TopicsOf(saved - todo, past)[code := TopicOf(saved[code], past[code])]
  {
    hide TopicOf, SavedTopic.Coherent;
  }

  lemma NoneLess(saved: map<TopicCode, SavedTopic>)
    ensures saved - saved.Keys == map[] && saved - {} == saved
  {
  }

  // One topic more is read back.
  lemma ReadOneMore(slots: map<TopicCode, Slot>, repr: set<object>, saved: map<TopicCode, SavedTopic>, past: Past,
                    todo: set<TopicCode>, code: TopicCode, s: Slot, latest: Time)
    requires Sound(slots, repr) && slots.Keys == saved.Keys - todo && saved.Keys <= past.Keys && CoherentAll(saved)
    requires code in todo && todo <= saved.Keys && Owned(s.t, s.fp) && repr !! s.fp
    requires ValueOfAll(slots, repr) == TopicsOf(saved - todo, past)
    requires ValueOf(s.t, s.fp, s.h) == TopicOf(saved[code], past[code]) && s.t.queue.timeId == saved[code].queue.timeId
    requires SavedTimely(saved, latest) ==> Timely(slots, repr, latest)
    ensures Sound(slots[code := s], repr + s.fp) && Refs(slots[code := s]) == Refs(slots)[code := s.t]
    ensures ValueOfAll(slots[code := s], repr + s.fp) == TopicsOf(saved - (todo - {code}), past)
    ensures SavedTimely(saved, latest) ==> Timely(slots[code := s], repr + s.fp, latest)
  {
    hide Owned, ValueOf, Sound, ValueOfAll, Refs, TopicOf, TopicsOf, SavedTopic.Coherent, Timely, TimelyOne, QueueTimely;
    RefsSet(slots, code, s);
    AddSlot(slots, repr, code, s);
    AddTimely(slots, repr, code, s, latest);
    ReadIsTimely(saved[code], s.t, s.fp, latest);
    TopicsOfMore(saved, past, todo, code);
  }

  class NodeData {
    var topics: map<TopicCode, TopicData>
    ghost var slots: map<TopicCode, Slot>
    ghost var repr: set<object>

    ghost predicate Valid()
      reads this, repr
    {
      && topics == Refs(slots)
      && this !in repr && Sound(slots, repr)
    }

    ghost function Value(): TopicMap
      requires Valid()
      reads this, repr
    {
      ValueOfAll(slots, repr)
    }

    constructor ()
      ensures Valid() && Value() == map[] && repr == {}
    {
      topics, slots, repr := map[], map[], {};
    }

    // The methods for the proposals about one topic differ in the topic's method they call only.
    method ApplyToTopic(code: TopicCode, p: Proposal, node: NodeId, now: Time, hash: Hashing) returns (ghost env: Env)
      requires Valid()
      requires code in topics ==> Accepts(topics[code], p, now)
      modifies this, repr
      ensures Valid() && fresh(repr - old(repr)) && topics == old(topics)
      ensures env.node == node && env.now == now
      ensures Applied(old(Value()), Value(), code, p, env, hash)
      ensures old(Timely(slots, repr, now)) ==> Timely(slots, repr, now)
    {
      hide Applied, Sound, ValueOfAll, Accepts, Refs, Owned, ValueOf, Timely;
      env := Env(node, now, [], []);
      ValueKeys(slots, repr);
      RefsOf(slots);
      if code !in topics {
        AppliedNone(Value(), code, p, env, hash);
        return;
      }
      env, slots, repr := PerformAmong(topics[code], slots, repr, code, p, node, now, hash);
    }

    // The snapshot of every topic.
    ghost function Saved(): map<TopicCode, SavedTopic>
      requires Valid()
      reads this, repr
    {
      SavedAll(slots, repr)
    }

    method Serialize() returns (saved: map<TopicCode, SavedTopic>)
      requires Valid()
      ensures saved == Saved()
    {
      saved := map code | code in topics :: topics[code].Serialize();
    }

    // `past` is what has been emitted for the topics so far.
    constructor Deserialize(saved: map<TopicCode, SavedTopic>, ghost past: Past, ghost latest: Time)
      requires saved.Keys <= past.Keys && CoherentAll(saved)
      ensures Valid() && fresh(repr)
      ensures Value() == TopicsOf(saved, past)
      ensures SavedTimely(saved, latest) ==> Timely(slots, repr, latest)
    {
      topics, slots, repr := map[], map[], {};
      new;
      hide Owned, ValueOf, Sound, ValueOfAll, Refs, TopicOf, TopicsOf, SavedTopic.Coherent, Timely, SavedTimely;
      NothingTimely(latest);
      NoTopics(saved, past);
      NoneLess(saved);
      var todo := saved.Keys;
      while todo != {}
        invariant Valid() && fresh(repr) && todo <= saved.Keys && slots.Keys == saved.Keys - todo
        invariant Value() == TopicsOf(saved - todo, past)
        invariant SavedTimely(saved, latest) ==> Timely(slots, repr, latest)
        decreases todo
      {
        ghost var some := Pick(todo);
        assert some in todo;
        var code :| code in todo;
        ghost var s;
        var topic;
        topic, s := ReadBack(saved[code], past[code]);
        ReadOneMore(slots, repr, saved, past, todo, code, s, latest);
        topics, slots, repr := topics[code := topic], slots[code := s], repr + s.fp;
        todo := todo - {code};
      }
    }

    // A topic that is loaded already stays as it is.
    method ApplyLoadTopic(config: TopicConfig, messages: seq<DurableMessage>, ghost latest: Time)
      requires Valid()
      requires config.code !in topics ==> NoRepeats(FlatMap(IdOf, messages)) && NoRepeats(FlatMap(TimeOf, messages))
      modifies this
      ensures Valid() && fresh(repr - old(repr))
      ensures Value() == Nodes.Load(old(Value()), config, messages)
      ensures old(Timely(slots, repr, latest)) && (config.code !in old(topics) ==> NoneAfter(messages, latest)) ==>
                Timely(slots, repr, latest)
    {
      hide Timely, TimelyOne, NoneAfter, Owned, ValueOf, Sound, ValueOfAll, FromDurable, SortByTime, NoRepeats,
           FlatMap, IdOf, TimeOf, Refs;
      ValueKeys(slots, repr);
      RefsOf(slots);
      if config.code in topics {
        return;
      }
      ghost var s;
      var topic;
      topic, s := NewTopic(config, messages);
      RefsSet(slots, config.code, s);
      AddTimely(slots, repr, config.code, s, latest);
      NewIsTimely(topic, s.fp, messages, latest);
      AddSlot(slots, repr, config.code, s);
      topics, slots, repr := topics[config.code := topic], slots[config.code := s], repr + s.fp;
    }

    method ApplyUnloadTopic(code: TopicCode, ghost latest: Time)
      requires Valid()
      modifies this
      ensures Valid() && repr <= old(repr) && Value() == old(Value()) - {code}
      ensures old(Timely(slots, repr, latest)) ==> Timely(slots, repr, latest)
    {
      hide Timely, Owned, ValueOf, Sound, ValueOfAll, Refs;
      ValueKeys(slots, repr);
      RefsOf(slots);
      if code in topics {
        RefsSet(slots, code, slots[code]);
        TakeTimely(slots, repr, code, latest);
        TakeSlot(slots, repr, code);
        ValueKeys(slots - {code}, repr - slots[code].fp);
        TakeBack(ValueOfAll(slots - {code}, repr - slots[code].fp), code,
                 ValueOf(slots[code].t, slots[code].fp, slots[code].h));
        topics, slots, repr := topics - {code}, slots - {code}, repr - slots[code].fp;
      }
    }
  }

  lemma NewIsTimely(t: TopicData, fp: set<object>, messages: seq<DurableMessage>, latest: Time)
    requires Owned(t, fp) && forall x :: x in t.queue.timeId ==> x.time in Times(messages)
    ensures NoneAfter(messages, latest) ==> TimelyOne(t, fp, latest)
  {
  }

  method NewTopic(config: TopicConfig, messages: seq<DurableMessage>) returns (topic: TopicData, ghost s: Slot)
    requires NoRepeats(FlatMap(IdOf, messages)) && NoRepeats(FlatMap(TimeOf, messages))
    ensures s.t == topic && fresh(s.fp) && Owned(s.t, s.fp)
    ensures ValueOf(s.t, s.fp, s.h) == FromDurable(config, SortByTime(messages))
    ensures forall x :: x in topic.queue.timeId ==> x.time in Times(messages)
  {
    SameTimes(messages, SortByTime(messages));
    PermutedOnce(IdOf, messages, SortByTime(messages));
    PermutedOnce(TimeOf, messages, SortByTime(messages));
    topic := new TopicData.FromDurable(config, SortByTime(messages));
    s := Slot(topic, Footprint(topic), History([], []));
  }

  // A stored topic is read back with different ids and times; a message is accepted by its topic.
  ghost predicate Takes(node: NodeData, e: Entry, now: Time)
    requires node.Valid()
    reads node, node.repr
  {
    e.payload.Normal? ==>
      match e.payload.proposal
      case ToTopic(code, p) =>
        code in node.topics ==> node.topics[code].queue in node.repr && Accepts(node.topics[code], p, now)
      case LoadTopic(config, messages) =>
        config.code !in node.topics ==> NoRepeats(FlatMap(IdOf, messages)) && NoRepeats(FlatMap(TimeOf, messages))
      case UnloadTopic(_) => true
  }

  lemma TakenIsSupported(node: NodeData, e: Entry, now: Time)
    requires node.Valid() && Takes(node, e, now)
    ensures e.payload.Normal? && e.payload.proposal.ToTopic? && e.payload.proposal.code in node.topics ==>
              Supported(e.payload.proposal.proposal)
  {
    hide Sound, Refs;
  }

  ghost predicate LoadsNoneAfter(node: NodeData, e: Entry, now: Time)
    reads node
  {
    e.payload.Normal? && e.payload.proposal.LoadTopic? && e.payload.proposal.config.code !in node.topics ==>
      NoneAfter(e.payload.proposal.messages, now)
  }

  lemma FittingIsTaken(node: NodeData, s: StateMachine, e: Entry, latest: Time, now: Time)
    requires node.Valid() && s.topics == node.Value()
    requires Timely(node.slots, node.repr, latest) && latest < now
    requires EntryFits(s, e, now)
    ensures Takes(node, e, now) && LoadsNoneAfter(node, e, now)
  {
    hide Sound, ValueOfAll, Owned, ValueOf, Refs, Timely, NoRepeats, FlatMap, Accepts;
    ValueKeys(node.slots, node.repr);
    RefsOf(node.slots);
    if e.payload.Normal? && e.payload.proposal.ToTopic? && e.payload.proposal.code in node.topics {
      Accepted(node.slots, node.repr, e.payload.proposal.code, e.payload.proposal.proposal, latest, now);
    }
  }

  lemma Accepted(slots: map<TopicCode, Slot>, repr: set<object>, code: TopicCode, p: Proposal, latest: Time, now: Time)
    requires Sound(slots, repr) && code in slots && Timely(slots, repr, latest) && latest < now
    requires Supported(p) && (p.Delegate? ==> p.message.id !in Ids(ValueOfAll(slots, repr)[code].queue))
    ensures slots[code].t.queue in repr && Accepts(slots[code].t, p, now)
  {
    var t, fp := slots[code].t, slots[code].fp;
    assert Owned(t, fp) && TimelyOne(t, fp, latest);
    var queue := t.queue;
    ListedOnce(queue.timeId, queue.idTime, queue.holdMessages);
    assert ValueOfAll(slots, repr)[code].queue == Listed(queue.timeId, queue.holdMessages);
  }

  datatype StoredSnapshot = StoredSnapshot(
    lastApplied: Option<LogId>,
    membership: StoredMembership,
    data: map<TopicCode, SavedTopic>
  )

  // What is stored, as a snapshot of the state machine function.
  ghost function SnapshotOf(s: StoredSnapshot): Snapshot
    requires CoherentAll(s.data)
  {
    Snapshot(s.lastApplied, s.membership, ImagesOf(s.data))
  }

  lemma TopicsAreInstalled(s: StoredSnapshot, past: Past)
    requires CoherentAll(s.data) && s.data.Keys <= past.Keys
    ensures Install(SnapshotOf(s), past) == StateMachine(s.lastApplied, s.membership, TopicsOf(s.data, past))
  {
    hide SavedTopic.Coherent, ImageOf, Restore;
    var installed, read := Install(SnapshotOf(s), past).topics, TopicsOf(s.data, past);
    assert installed.Keys == read.Keys;
    forall code | code in read ensures installed[code] == read[code] {
      assert SnapshotOf(s).images[code] == ImageOf(s.data[code]);
    }
  }

  // The snapshot can be installed, and the tally holds of it.
  ghost predicate Vouched(s: StoredSnapshot, y: Tally) {
    CoherentAll(s.data) && SavedTimely(s.data, y.latest) && TracksImages(y.known, SnapshotOf(s))
  }

  // A stretch of life, and the snapshot of another node that ends it, with the tally of that node.
  datatype Turn = Turn(life: seq<LifeOp>, snapshot: StoredSnapshot, tally: Tally)

  ghost predicate FreshTurns(y: Tally, turns: seq<Turn>)
    decreases turns
  {
    turns == [] ||
    (FreshLife(y, turns[0].life) && Vouched(turns[0].snapshot, turns[0].tally) && FreshTurns(turns[0].tally, turns[1..]))
  }

  // Each stretch is a run of the state machine function, and ends in what following makes of it.
  ghost predicate RunsThrough(s: StateMachine, turns: seq<Turn>, runs: seq<seq<NodeOp>>, end: StateMachine,
                              nodeId: NodeId, hash: Hashing)
    decreases turns
  {
    if turns == [] then runs == [] && end == s
    else
      && runs != [] && CoherentAll(turns[0].snapshot.data)
      && MatchesAll(runs[0], turns[0].life, nodeId) && OpsFit(s, runs[0], hash)
      && RunsThrough(Followed(RunNode(s, runs[0], hash), SnapshotOf(turns[0].snapshot)), turns[1..], runs[1..],
                     end, nodeId, hash)
  }

  function Commits(entries: seq<Entry>, clocks: seq<Time>): seq<LifeOp>
    requires |clocks| == |entries|
  {
    seq(|entries|, i requires 0 <= i < |entries| => Commit(entries[i], clocks[i]))
  }

  lemma LifeTail(y: Tally, life: seq<LifeOp>, i: nat)
    requires i < |life|
    ensures life[i..] != [] && life[i..][0] == life[i] && life[i..][1..] == life[i + 1..]
    ensures TallyEnd(y, life[i..]) == TallyEnd(TallyAfter(y, life[i]), life[i + 1..])
    ensures FreshLife(y, life[i..]) <==> FreshOp(y, life[i]) && FreshLife(TallyAfter(y, life[i]), life[i + 1..])
  {
    FreshLifeOne(y, life[i..]);
    assert life[i..][1..] == life[i + 1..];
  }

  lemma MatchesMore(ops: seq<NodeOp>, op: NodeOp, life: seq<LifeOp>, node: NodeId)
    requires |ops| < |life| && MatchesAll(ops, life[..|ops|], node) && Matches(op, life[|ops|], node)
    ensures MatchesAll(ops + [op], life[..|ops| + 1], node)
  {
    hide Matches;
  }

  class StateMachineData {
    var lastApplied: Option<LogId>
    var membership: StoredMembership
    var node: NodeData

    ghost predicate Valid()
      reads this, node, node.repr
    {
      node.Valid() && this !in node.repr
    }

    ghost function Value(): StateMachine
      requires Valid()
      reads this, node, node.repr
    {
      StateMachine(lastApplied, membership, node.Value())
    }

    constructor ()
      ensures Valid() && Value() == StateMachine(None, StoredMembership(None, {}), map[])
      ensures forall latest: Time :: Kept(Tally(map[], latest))
    {
      lastApplied, membership := None, StoredMembership(None, {});
      node := new NodeData();
    }

    // One turn of the loop over the entries of the log.
    method ApplyEntry(e: Entry, nodeId: NodeId, now: Time, hash: Hashing) returns (ghost env: Env)
      requires Valid() && Takes(node, e, now)
      modifies this, node, node.repr
      ensures Valid() && node == old(node) && fresh(node.repr - old(node.repr))
      ensures env.node == nodeId && env.now == now && OpFits(old(Value()), Apply(e, env), hash)
      ensures Value() == Nodes.ApplyEntry(old(Value()), e, env, hash)
      ensures old(Timely(node.slots, node.repr, now)) && old(LoadsNoneAfter(node, e, now)) ==>
                Timely(node.slots, node.repr, now)
    {
      hide Sound, ValueOfAll, FlatMap, NoRepeats, Accepts, Admissible, Step, Nodes.Load, Refs, Owned, ValueOf,
           Timely, NoneAfter;
      env := Env(nodeId, now, [], []);
      ValueKeys(node.slots, node.repr);
      RefsOf(node.slots);
      TakenIsSupported(node, e, now);
      lastApplied := Some(e.logId);
      match e.payload {
        case Blank =>
        case Normal(proposal) =>
          match proposal {
            case ToTopic(code, p) => env := node.ApplyToTopic(code, p, nodeId, now, hash);
            case LoadTopic(config, messages) => node.ApplyLoadTopic(config, messages, now);
            case UnloadTopic(code) => node.ApplyUnloadTopic(code, now);
          }
        case Membership(members) => membership := StoredMembership(Some(e.logId), members);
      }
    }

    // The objects are coherent and the caches empty, and the tally of the log holds of the state.
    ghost predicate Kept(y: Tally)
      reads this, node, node.repr
    {
      Valid() && Tracks(y.known, Value()) && Timely(node.slots, node.repr, y.latest)
    }

    method ApplyFresh(e: Entry, nodeId: NodeId, now: Time, hash: Hashing, ghost y: Tally) returns (ghost env: Env)
      requires Valid() && Kept(y) && FreshOp(y, Commit(e, now))
      modifies this, node, node.repr
      ensures Valid() && Kept(TallyAfter(y, Commit(e, now))) && node == old(node) && fresh(node.repr - old(node.repr))
      ensures Matches(Apply(e, env), Commit(e, now), nodeId) && OpFits(old(Value()), Apply(e, env), hash)
      ensures Value() == NodeStep(old(Value()), Apply(e, env), hash)
    {
      hide Sound, Timely, Takes, LoadsNoneAfter, OpFits, Nodes.ApplyEntry, EntryFits, Accepts, Tracks,
           KnownAfterEntry, FreshProposal;
      FreshFits(y, Value(), e, now);
      FittingIsTaken(node, Value(), e, y.latest, now);
      LaterTimely(node.slots, node.repr, y.latest, now);
      ghost var before := Value();
      env := ApplyEntry(e, nodeId, now, hash);
      ApplyTracks(y.known, before, e, env, hash);
    }

    // The loop over the entries of the log. The invariants of every object hold between any two of
    // them, and the run is one of the state machine function.
    method ApplyAll(entries: seq<Entry>, clocks: seq<Time>, nodeId: NodeId, hash: Hashing, ghost y: Tally)
      returns (ghost ops: seq<NodeOp>)
      requires Valid() && Kept(y) && |clocks| == |entries| && FreshLife(y, Commits(entries, clocks))
      modifies this, node, node.repr
      ensures Valid() && Kept(TallyEnd(y, Commits(entries, clocks))) && MatchesAll(ops, Commits(entries, clocks), nodeId)
      ensures OpsFit(old(Value()), ops, hash) && Value() == RunNode(old(Value()), ops, hash)
    {
      hide Kept, FreshLife, FreshOp, TallyEnd, TallyAfter, Matches, OpsFit, RunNode, OpFits, NodeStep;
      ops := [];
      ghost var start, life, z := Value(), Commits(entries, clocks), y;
      RunNodeOne(start, [], hash);
      assert life[0..] == life && life[|life|..] == [] && life[..|life|] == life;
      for i := 0 to |entries|
        invariant Valid() && Kept(z) && node == old(node) && fresh(node.repr - old(node.repr))
        invariant FreshLife(z, life[i..]) && TallyEnd(z, life[i..]) == TallyEnd(y, life)
        invariant |ops| == i && MatchesAll(ops, life[..i], nodeId)
        invariant OpsFit(start, ops, hash) && Value() == RunNode(start, ops, hash)
      {
        LifeTail(z, life, i);
        ghost var env := ApplyFresh(entries[i], nodeId, clocks[i], hash, z);
        RunNodeMore(start, ops, Apply(entries[i], env), hash);
        MatchesMore(ops, Apply(entries[i], env), life, nodeId);
        z, ops := TallyAfter(z, life[i]), ops + [Apply(entries[i], env)];
      }
      TallyNone(z);
    }

    method BuildSnapshot(ghost latest: Time) returns (s: StoredSnapshot)
      requires Valid()
      ensures CoherentAll(s.data) && SnapshotOf(s) == Nodes.BuildSnapshot(Value())
      ensures Timely(node.slots, node.repr, latest) ==> SavedTimely(s.data, latest)
    {
      hide Sound, ValueOfAll, SavedAll, Save, SavedTopic.Coherent, Timely, SavedTimely, ImagesOf;
      var data := node.Serialize();
      s := StoredSnapshot(lastApplied, membership, data);
      SavedAllAreImages(node.slots, node.repr);
      if Timely(node.slots, node.repr, latest) {
        SavedAllIsTimely(node.slots, node.repr, latest);
      }
    }

    // `past` is what this node has emitted for the topics so far.
    method InstallSnapshot(s: StoredSnapshot, ghost past: Past, ghost latest: Time)
      requires CoherentAll(s.data) && s.data.Keys <= past.Keys
      modifies this
      ensures Valid() && fresh(node) && fresh(node.repr)
      ensures Value() == Install(SnapshotOf(s), past)
      ensures SavedTimely(s.data, latest) ==> Timely(node.slots, node.repr, latest)
    {
      hide Sound, ValueOfAll, TopicsOf, Refs, CoherentAll, SnapshotOf, Install, Timely, SavedTimely;
      var newData := new NodeData.Deserialize(s.data, past, latest);
      membership, lastApplied, node := s.membership, s.lastApplied, newData;
      TopicsAreInstalled(s, past);
    }

    // A snapshot to install, here or on another node, and what is known of it.
    method HandOver(ghost y: Tally) returns (s: StoredSnapshot)
      requires Valid() && Kept(y)
      ensures Vouched(s, y) && SnapshotOf(s) == Nodes.BuildSnapshot(Value())
    {
      hide Sound, ValueOfAll, CoherentAll, SnapshotOf, Timely, SavedTimely, Tracks, TracksImages, Nodes.BuildSnapshot;
      s := BuildSnapshot(y.latest);
      SnapshotTracks(y.known, Value());
    }

    // Following the node that the snapshot comes from: its state, in new objects, and what is known of it.
    method Follow(s: StoredSnapshot, ghost y: Tally)
      requires Vouched(s, y)
      requires Valid()
      modifies this
      ensures Valid() && Kept(y) && fresh(node) && fresh(node.repr)
      ensures Value() == Followed(old(Value()), SnapshotOf(s))
    {
      hide Sound, ValueOfAll, CoherentAll, SnapshotOf, Install, Timely, SavedTimely, Tracks, TracksImages;
      ghost var before := Value();
      SameKeys(s);
      InstallSnapshot(s, PastFor(before, s.data.Keys), y.latest);
      InstalledTracks(y.known, SnapshotOf(s), PastFor(before, s.data.Keys));
    }

    // Taking a snapshot and installing it.
    method ReinstallSnapshot(ghost y: Tally)
      requires Valid() && Kept(y)
      modifies this
      ensures Valid() && Kept(y) && fresh(node) && fresh(node.repr)
      ensures Value() == Reinstalled(old(Value()))
    {
      hide Kept, Vouched, SnapshotOf, Followed, Reinstalled, Nodes.BuildSnapshot;
      OwnIsFollowed(Value());
      var s := HandOver(y);
      Follow(s, y);
    }

    // A life of the node: entries are applied, and now and then a snapshot is taken and installed.
    // Coherence of all objects is kept, and the run is one of the state machine function.
    method Live(life: seq<LifeOp>, nodeId: NodeId, hash: Hashing, ghost y: Tally) returns (ghost ops: seq<NodeOp>)
      requires Valid() && Kept(y) && FreshLife(y, life)
      modifies this, node, node.repr
      ensures Valid() && Kept(TallyEnd(y, life)) && MatchesAll(ops, life, nodeId)
      ensures OpsFit(old(Value()), ops, hash) && Value() == RunNode(old(Value()), ops, hash)
      ensures (node == old(node) || fresh(node)) && fresh(node.repr - old(node.repr))
    {
      hide Kept, FreshLife, FreshOp, TallyEnd, OpsFit, RunNode, OpFits, NodeStep, Reinstalled;
      ops := [];
      ghost var start, z := Value(), y;
      RunNodeOne(start, [], hash);
      assert life[0..] == life && life[|life|..] == [] && life[..|life|] == life;
      for i := 0 to |life|
        invariant Valid() && Kept(z) && (node == old(node) || fresh(node)) && fresh(node.repr - old(node.repr))
        invariant FreshLife(z, life[i..]) && TallyEnd(z, life[i..]) == TallyEnd(y, life)
        invariant |ops| == i && MatchesAll(ops, life[..i], nodeId)
        invariant OpsFit(start, ops, hash) && Value() == RunNode(start, ops, hash)
      {
        LifeTail(z, life, i);
        ghost var op := TakeAndInstall;
        match life[i] {
          case Commit(e, now) =>
            ghost var env := ApplyFresh(e, nodeId, now, hash, z);
            op := Apply(e, env);
          case Reinstall =>
            SnapshotFits(Value(), hash);
            ReinstallSnapshot(z);
        }
        RunNodeMore(start, ops, op, hash);
        MatchesMore(ops, op, life, nodeId);
        z, ops := TallyAfter(z, life[i]), ops + [op];
      }
      TallyNone(z);
    }

    // A life in which the node now and then falls behind, and follows another node. Coherence of all
    // objects is kept as well.
    method LiveAndFollow(turns: seq<Turn>, nodeId: NodeId, hash: Hashing, ghost y: Tally)
      returns (ghost runs: seq<seq<NodeOp>>)
      requires Valid() && Kept(y) && FreshTurns(y, turns)
      modifies this, node, node.repr
      ensures Valid() && Kept(if turns == [] then y else turns[|turns| - 1].tally)
      ensures RunsThrough(old(Value()), turns, runs, Value(), nodeId, hash)
      decreases |turns|
    {
      hide Kept, FreshLife, TallyEnd, OpsFit, RunNode, SnapshotOf, Followed, MatchesAll, CoherentAll,
           SavedTimely, TracksImages;
      runs := [];
      if turns != [] {
        ghost var ops := Live(turns[0].life, nodeId, hash, y);
        Follow(turns[0].snapshot, turns[0].tally);
        runs := LiveAndFollow(turns[1..], nodeId, hash, turns[0].tally);
        assert ([ops] + runs)[1..] == runs;
        runs := [ops] + runs;
      }
    }
  }

  lemma SnapshotFits(s: StateMachine, hash: Hashing)
    ensures OpFits(s, TakeAndInstall, hash) && NodeStep(s, TakeAndInstall, hash) == Reinstalled(s)
  {
  }

  lemma TallyNone(y: Tally)
    ensures TallyEnd(y, []) == y
  {
  }

  lemma SameKeys(s: StoredSnapshot)
    requires CoherentAll(s.data)
    ensures SnapshotOf(s).images.Keys == s.data.Keys
  {
    hide SavedTopic.Coherent, ImageOf;
  }
}
