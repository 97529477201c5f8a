// The topic as the node keeps it: routing table, interest map and message queue, changed in place.
// Each method does to the topic's value what the step of the same name does in Topics.dfy.

module TopicDatas {
  import opened Messages
  import opened Lists
  import opened Tries
  import opened HoldQueue
  import opened Topics
  import opened QueueIndex
  import opened Contexts
  import opened MessageQueues
  import opened InterestMaps

  ghost function EnvOf(ctx: ProposalContext): Env {
    Env(ctx.node, ctx.now, [], [])
  }

  lemma AckTwice(h: HoldMessage, acks: StatusMap, from: EndpointAddr, kind: StatusKind)
    requires from !in acks
    ensures h.UpdateAcks(acks).UpdateAcks(map[from := kind]) == h.UpdateAcks(acks[from := kind])
  {
    var one, both := h.UpdateAcks(acks).UpdateAcks(map[from := kind]), h.UpdateAcks(acks[from := kind]);
    assert one.waitAck.status.Keys == both.waitAck.status.Keys;
    assert one.waitAck.status == both.waitAck.status;
  }

  lemma OneMoreAck(q: seq<HoldMessage>, id: MessageId, acks: StatusMap, from: EndpointAddr, kind: StatusKind)
    requires from !in acks
    ensures ApplyAcks(ApplyAcks(q, id, acks), id, map[from := kind]) == ApplyAcks(q, id, acks[from := kind])
  {
    hide HoldMessage.UpdateAcks;
    forall i | 0 <= i < |q|
      ensures q[i].UpdateAcks(acks).UpdateAcks(map[from := kind]) == q[i].UpdateAcks(acks[from := kind])
    {
      AckTwice(q[i], acks, from, kind);
    }
  }

  lemma {:induction false} Singles<T>(f: DurableMessage -> seq<T>, messages: seq<DurableMessage>)
    requires forall m :: |f(m)| == 1
    ensures |FlatMap(f, messages)| == |messages|
    ensures forall i :: 0 <= i < |messages| ==> FlatMap(f, messages)[i] == f(messages[i])[0]
  {
    if messages != [] {
      assert messages == [messages[0]] + messages[1..];
      FlatMapCons(f, messages[0], messages[1..]);
      Singles(f, messages[1..]);
    }
  }

  predicate Strict(sorted: seq<DurableMessage>) {
    forall i, j :: 0 <= i < j < |sorted| ==>
      sorted[i].time < sorted[j].time && sorted[i].message.id != sorted[j].message.id
  }

  lemma PermutedOnce<T>(f: DurableMessage -> seq<T>, a: seq<DurableMessage>, b: seq<DurableMessage>)
    requires NoRepeats(FlatMap(f, a)) && multiset(a) == multiset(b)
    ensures NoRepeats(FlatMap(f, b))
  {
    hide *;
    FlatMapPermuted(f, a, b);
    NoRepeatsCount(FlatMap(f, a));
    NoRepeatsCount(FlatMap(f, b));
  }

  // Stored messages with different ids and times are sorted strictly.
  lemma SortedStrictly(messages: seq<DurableMessage>)
    requires NoRepeats(FlatMap(IdOf, messages)) && NoRepeats(FlatMap(TimeOf, messages))
    ensures Strict(SortByTime(messages))
  {
    hide *;
    var sorted := SortByTime(messages);
    SortByTimeSorts(messages);
    PermutedOnce(IdOf, messages, sorted);
    PermutedOnce(TimeOf, messages, sorted);
    StrictFrom(sorted);
  }

  lemma StrictFrom(sorted: seq<DurableMessage>)
    requires ByTime(sorted) && NoRepeats(FlatMap(IdOf, sorted)) && NoRepeats(FlatMap(TimeOf, sorted))
    ensures Strict(sorted)
  {
    Singles(IdOf, sorted);
    Singles(TimeOf, sorted);
    hide FlatMap;
    var ids, times := FlatMap(IdOf, sorted), FlatMap(TimeOf, sorted);
    forall i, j | 0 <= i < j < |sorted|
      ensures sorted[i].time < sorted[j].time && sorted[i].message.id != sorted[j].message.id
    {
      assert times[i] != times[j] && ids[i] != ids[j];
    }
  }

  // The stored messages that are in the queue so far.
  predicate IsLoaded(q: seq<HoldMessage>, sorted: seq<DurableMessage>) {
    |q| <= |sorted| && forall k :: 0 <= k < |q| ==> q[k] == Reload(sorted[k])
  }

  lemma NotYetLoaded(sorted: seq<DurableMessage>, q: seq<HoldMessage>)
    requires Strict(sorted) && IsLoaded(q, sorted) && |q| < |sorted|
    ensures sorted[|q|].message.id !in Ids(q)
    ensures q != [] ==> sorted[|q| - 1].time < sorted[|q|].time
    ensures IsLoaded(q + [Reload(sorted[|q|])], sorted)
  {
    assert forall k :: 0 <= k < |q| ==> Ids(q)[k] == sorted[k].message.id;
  }

  method LoadQueue(blocking: bool, messages: seq<DurableMessage>) returns (queue: MessageQueue)
    requires NoRepeats(FlatMap(IdOf, messages)) && NoRepeats(FlatMap(TimeOf, messages))
    ensures fresh(queue) && queue.blocking == blocking && queue.Coherent() && queue.resolved == {}
    ensures |queue.Contents()| == |messages| && IsLoaded(queue.Contents(), SortByTime(messages))
    ensures forall x :: x in queue.timeId ==> x.time in Times(messages)
  {
    hide SortByTime, FlatMap, NoRepeats, Linked, Listed, Ids, Strict, IdOf, TimeOf, IsLoaded, InsertTimed, TimeUsed, Times;
    var sorted := SortByTime(messages);
    SortedStrictly(messages);
    queue := new MessageQueue(blocking);
    NothingLoaded(sorted);
    for i := 0 to |sorted|
      invariant fresh(queue) && queue.blocking == blocking && queue.Coherent() && queue.resolved == {}
      invariant |queue.Contents()| == i && IsLoaded(queue.Contents(), sorted)
      invariant forall x :: x in queue.timeId ==> i > 0 && x.time <= sorted[i - 1].time
      invariant forall x :: x in queue.timeId ==> x.time in Times(sorted)
    {
      TimesAt(sorted, i);
      ListedOnce(queue.timeId, queue.idTime, queue.holdMessages);
      NotYetLoaded(sorted, queue.Contents());
      queue.PushDurableMessage(sorted[i]);
    }
    SameTimes(messages, sorted);
  }

  function Times(messages: seq<DurableMessage>): set<Time> {
    set m | m in messages :: m.time
  }

  lemma TimesAt(messages: seq<DurableMessage>, i: nat)
    requires i < |messages|
    ensures messages[i].time in Times(messages)
  {
  }

  lemma SameTimes(a: seq<DurableMessage>, b: seq<DurableMessage>)
    requires multiset(a) == multiset(b)
    ensures Times(a) == Times(b)
  {
    forall m: DurableMessage ensures m in a <==> m in b {
      assert m in a <==> m in multiset(a);
      assert m in b <==> m in multiset(b);
    }
  }

  lemma NothingLoaded(sorted: seq<DurableMessage>)
    ensures IsLoaded([], sorted)
  {
  }

  lemma IsLoadedQueue(q: seq<HoldMessage>, config: TopicConfig, messages: seq<DurableMessage>)
    requires |q| == |messages| && IsLoaded(q, SortByTime(messages))
    ensures q == Topics.FromDurable(config, messages).queue
  {
    hide SortByTime;
  }

  // ----- The hash ring -----

  predicate ByHash(ring: seq<EndpointAddr>, hash: Hashing) {
    forall i, j :: 0 <= i < j < |ring| ==> hash.ofEndpoint(ring[i]) <= hash.ofEndpoint(ring[j])
  }

  function InsertByHash(ep: EndpointAddr, ring: seq<EndpointAddr>, hash: Hashing): seq<EndpointAddr> {
    if ring == [] || hash.ofEndpoint(ep) <= hash.ofEndpoint(ring[0]) then [ep] + ring
    else [ring[0]] + InsertByHash(ep, ring[1..], hash)
  }

  lemma ByHashCons(ep: EndpointAddr, rest: seq<EndpointAddr>, hash: Hashing)
    ensures ByHash([ep] + rest, hash) <==>
            ByHash(rest, hash) && forall x :: x in rest ==> hash.ofEndpoint(ep) <= hash.ofEndpoint(x)
  {
    var ring := [ep] + rest;
    assert forall i :: 0 <= i < |rest| ==> ring[i + 1] == rest[i];
    if ByHash(ring, hash) {
      forall x | x in rest ensures hash.ofEndpoint(ep) <= hash.ofEndpoint(x) {
        var i :| 0 <= i < |rest| && rest[i] == x;
        assert hash.ofEndpoint(ring[0]) <= hash.ofEndpoint(ring[i + 1]);
      }
    }
  }

  lemma {:induction false} InsertByHashIs(ep: EndpointAddr, ring: seq<EndpointAddr>, hash: Hashing)
    requires ByHash(ring, hash) && ep !in ring && NoRepeats(ring)
    ensures ByHash(InsertByHash(ep, ring, hash), hash) && NoRepeats(InsertByHash(ep, ring, hash))
    ensures Elements(InsertByHash(ep, ring, hash)) == {ep} + Elements(ring)
  {
    hide *;
    RingCons(ep, ring, hash);
    if ring == [] {
      InsertByHashFirst(ep, ring, hash);
    } else {
      var e, rest := ring[0], ring[1..];
      assert ring == [e] + rest;
      RingCons(e, rest, hash);
      InsertByHashCons(ep, e, rest, hash);
      if hash.ofEndpoint(e) < hash.ofEndpoint(ep) {
        InsertByHashIs(ep, rest, hash);
        RingCons(e, InsertByHash(ep, rest, hash), hash);
      }
    }
  }

  lemma RingCons(ep: EndpointAddr, rest: seq<EndpointAddr>, hash: Hashing)
    ensures ByHash([ep] + rest, hash) <==>
            ByHash(rest, hash) && forall x :: x in rest ==> hash.ofEndpoint(ep) <= hash.ofEndpoint(x)
    ensures NoRepeats([ep] + rest) <==> NoRepeats(rest) && ep !in rest
    ensures Elements([ep] + rest) == {ep} + Elements(rest)
    ensures forall x :: x in Elements(rest) <==> x in rest
  {
    ByHashCons(ep, rest, hash);
    NoRepeatsCons(ep, rest);
    hide NoRepeats, ByHash;
  }

  lemma InsertByHashFirst(ep: EndpointAddr, ring: seq<EndpointAddr>, hash: Hashing)
    requires ring == []
    ensures InsertByHash(ep, ring, hash) == [ep] + ring
  {
  }

  lemma InsertByHashCons(ep: EndpointAddr, e: EndpointAddr, rest: seq<EndpointAddr>, hash: Hashing)
    ensures InsertByHash(ep, [e] + rest, hash) ==
            if hash.ofEndpoint(ep) <= hash.ofEndpoint(e) then [ep] + ([e] + rest) else [e] + InsertByHash(ep, rest, hash)
  {
    assert ([e] + rest)[1..] == rest;
  }

  // Sorting the candidates by hash.
  method HashRing(eps: set<EndpointAddr>, hash: Hashing) returns (ring: seq<EndpointAddr>)
    ensures IsRing(ring, eps, hash)
  {
    ring := [];
    var todo := eps;
    while todo != {}
      invariant todo <= eps && ByHash(ring, hash) && Enumerates(ring, eps - todo)
      decreases todo
    {
      ghost var some := Pick(todo);
      assert some in todo;
      var ep :| ep in todo;
      assert ep in ring ==> ep in Elements(ring);
      InsertByHashIs(ep, ring, hash);
      assert eps - todo + {ep} == eps - (todo - {ep});
      ring := InsertByHash(ep, ring, hash);
      todo := todo - {ep};
    }
    assert eps - todo == eps;
  }

  lemma {:induction false} PollAllMore(t: Topic, ids: seq<MessageId>, id: MessageId, env: Env)
    ensures PollAll(t, ids + [id], env) == Topics.UpdateAndFlush(PollAll(t, ids, env), id, map[], env)
    decreases ids
  {
    hide *;
    PollAllOne(t, ids, env);
    PollAllOne(t, ids + [id], env);
    if ids == [] {
      assert [] + [id] == [id] && [id][1..] == [];
      PollAllOne(Topics.UpdateAndFlush(t, id, map[], env), [], env);
    } else {
      assert (ids + [id])[1..] == ids[1..] + [id];
      PollAllMore(Topics.UpdateAndFlush(t, ids[0], map[], env), ids[1..], id, env);
    }
  }

  // Only the node and the clock matter to polling.
  lemma {:induction false} PollAllSameEnv(t: Topic, ids: seq<MessageId>, e1: Env, e2: Env)
    requires e1.node == e2.node && e1.now == e2.now
    ensures PollAll(t, ids, e1) == PollAll(t, ids, e2)
    decreases ids
  {
    PollAllOne(t, ids, e1);
    PollAllOne(t, ids, e2);
    if ids != [] {
      assert Topics.UpdateAndFlush(t, ids[0], map[], e1) == Topics.UpdateAndFlush(t, ids[0], map[], e2);
      hide *;
      PollAllSameEnv(Topics.UpdateAndFlush(t, ids[0], map[], e1), ids[1..], e1, e2);
    }
  }

  lemma NeedOnline(t: Topic, ep: EndpointAddr, interests: seq<Bytes>, host: NodeId, need: set<MessageId>)
    requires forall id :: id in need <==>
               exists h ::
                 && h in t.queue && h.Id() == id && ep !in h.waitAck.status
                 && Wanted(Prepare(t, GoOnline(ep, interests, host)).ix, h, ep)
    ensures need == NeedPoll(t, GoOnline(ep, interests, host))
  {
    forall id | id in need ensures id in NeedPoll(t, GoOnline(ep, interests, host)) {
      var h :| h in t.queue && h.Id() == id && ep !in h.waitAck.status
               && Wanted(Prepare(t, GoOnline(ep, interests, host)).ix, h, ep);
      assert Polls(t, GoOnline(ep, interests, host), h);
    }
  }

  lemma NeedOffline(t: Topic, ep: EndpointAddr, host: NodeId, need: set<MessageId>)
    requires forall id :: id in need <==>
               exists h :: h in t.queue && h.Id() == id && ep in h.waitAck.status
    ensures need == NeedPoll(t, GoOffline(ep, host))
  {
    forall id | id in need ensures id in NeedPoll(t, GoOffline(ep, host)) {
      var h :| h in t.queue && h.Id() == id && ep in h.waitAck.status;
      assert Polls(t, GoOffline(ep, host), h);
    }
  }

  lemma NeedInterest(t: Topic, ep: EndpointAddr, interests: seq<Bytes>, need: set<MessageId>)
    requires forall id :: id in need <==>
               exists h :: h in t.queue && h.Id() == id && Wanted(Prepare(t, NewInterest(ep, interests)).ix, h, ep)
    ensures need == NeedPoll(t, NewInterest(ep, interests))
  {
    forall id | id in need ensures id in NeedPoll(t, NewInterest(ep, interests)) {
      var h :| h in t.queue && h.Id() == id && Wanted(Prepare(t, NewInterest(ep, interests)).ix, h, ep);
      assert Polls(t, NewInterest(ep, interests), h);
    }
  }

  datatype SavedTopic = SavedTopic(
    config: TopicConfig,
    epRoutingTable: map<NodeId, set<EndpointAddr>>,
    raw: RawInterests,
    queue: SavedQueue
  ) {
    ghost predicate Coherent() {
      && Linked(queue.timeId, queue.idTime, queue.holdMessages) && queue.size == |queue.timeId|
      && queue.resolved == {} && queue.blocking == config.blocking
    }
  }

  // Walking the held messages and changing each of them, in the map and in the list.
  lemma EnlistListed(timeId: seq<Timed>, idTime: map<MessageId, Time>, held: map<MessageId, HoldMessage>,
                     now: map<MessageId, HoldMessage>, ix: Index, ep: EndpointAddr)
    requires Linked(timeId, idTime, held) && now.Keys == held.Keys
    requires forall id :: id in held ==> now[id] == EnlistOne(ix, held[id], ep)
    ensures Linked(timeId, idTime, now) && Listed(timeId, now) == Enlist(Listed(timeId, held), ix, ep)
  {
    hide Wanted;
    assert forall i :: 0 <= i < |timeId| ==> timeId[i] in timeId;
  }

  lemma CutOffListed(timeId: seq<Timed>, idTime: map<MessageId, Time>, held: map<MessageId, HoldMessage>,
                     now: map<MessageId, HoldMessage>, ep: EndpointAddr)
    requires Linked(timeId, idTime, held) && now.Keys == held.Keys
    requires forall id :: id in held ==> now[id] == CutOffOne(held[id], ep)
    ensures Linked(timeId, idTime, now) && Listed(timeId, now) == CutOff(Listed(timeId, held), ep)
  {
    assert forall i :: 0 <= i < |timeId| ==> timeId[i] in timeId;
  }

  class TopicData {
    const config: TopicConfig
    var epRoutingTable: map<NodeId, set<EndpointAddr>>
    const epInterestMap: InterestMap
    const queue: MessageQueue

    // Between steps the cache of resolved messages is empty.
    ghost predicate Valid()
      reads this, queue, epInterestMap, epInterestMap.root, epInterestMap.root.repr
    {
      && epInterestMap.Valid()
      && queue.Coherent() && queue.resolved == {} && queue.blocking == config.blocking
    }

    ghost function Value(ctx: ProposalContext): Topic
      requires queue.Coherent()
      reads this, queue, epInterestMap, epInterestMap.root, ctx
    {
      Topic(config, epRoutingTable, epInterestMap.Value(), queue.Contents(), ctx.events, ctx.commands)
    }

    constructor FromDurable(config: TopicConfig, messages: seq<DurableMessage>)
      requires NoRepeats(FlatMap(IdOf, messages)) && NoRepeats(FlatMap(TimeOf, messages))
      ensures Valid() && this.config == config
      ensures fresh(queue) && fresh(epInterestMap) && fresh(epInterestMap.root) && fresh(epInterestMap.root.repr)
      ensures epRoutingTable == map[] && epInterestMap.Value() == EmptyIndex
      ensures forall x :: x in queue.timeId ==> x.time in Times(messages)
      ensures queue.Contents() == Topics.FromDurable(config, messages).queue
      ensures |queue.Contents()| == |messages|
      ensures forall i :: 0 <= i < |messages| ==>
                var m := SortByTime(messages)[i];
                queue.Contents()[i] == HoldMessage(m.message, WaitAck(m.message.ackKind, m.status))
    {
      LoadedExactly(config, messages);
      this.config := config;
      epRoutingTable := map[];
      epInterestMap := new InterestMap();
      var loaded := LoadQueue(config.blocking, messages);
      IsLoadedQueue(loaded.Contents(), config, messages);
      queue := loaded;
    }

    // A topic in a snapshot: of the interest map only the plain map is kept.
    function Serialize(): SavedTopic
      reads this, epInterestMap, queue
    {
      SavedTopic(config, epRoutingTable, epInterestMap.raw, queue.Serialize())
    }

    constructor Deserialize(s: SavedTopic)
      requires s.Coherent()
      ensures Valid() && config == s.config && epRoutingTable == s.epRoutingTable
      ensures fresh(queue) && fresh(epInterestMap) && fresh(epInterestMap.root) && fresh(epInterestMap.root.repr)
      ensures epInterestMap.Value() == Tries.FromRaw(s.raw)
      ensures queue.Contents() == Listed(s.queue.timeId, s.queue.holdMessages) && queue.timeId == s.queue.timeId
    {
      config, epRoutingTable := s.config, s.epRoutingTable;
      epInterestMap := new InterestMap.FromRaw(s.raw);
      queue := new MessageQueue.Deserialize(s.queue);
    }

    function ReachableEps(node: NodeId): set<EndpointAddr>
      reads this
    {
      if node in epRoutingTable then epRoutingTable[node] else {}
    }

    method UpdateAndFlush(id: MessageId, acks: StatusMap, ctx: ProposalContext)
      requires Valid() && ctx.sending == {}
      modifies queue, ctx
      ensures Valid() && ctx.sending == {} && queue.NoNewTimes(old(queue.timeId))
      ensures Value(ctx) == Topics.UpdateAndFlush(old(Value(ctx)), id, acks, EnvOf(ctx))
    {
      var reach := ReachableEps(ctx.node);
      ctx.PushDurableCommand(UpdateStatus(id, acks));
      ghost var before := queue.Contents();
      NoAcks(before, id);
      var todo, done: StatusMap := acks.Keys, map[];
      while todo != {}
        modifies queue
        invariant todo <= acks.Keys && done == acks - todo
        invariant queue.Coherent() && queue.resolved == {} && queue.timeId == old(queue.timeId)
        invariant queue.Contents() == ApplyAcks(before, id, done)
        decreases todo
      {
        ghost var some := Pick(todo);
        assert some in todo;
        var from :| from in todo;
        OneMoreAck(before, id, done, from, acks[from]);
        queue.UpdateAck(id, from, acks[from]);
        todo, done := todo - {from}, done[from := acks[from]];
      }
      assert done == acks;
      queue.PollAndFlush(id, reach, ctx);
    }

    method CollectAddrBySubjects(subjects: seq<Bytes>) returns (eps: set<EndpointAddr>)
      requires epInterestMap.Valid()
      ensures eps == Collect(epInterestMap.Value(), subjects)
    {
      eps := {};
      for i := 0 to |subjects|
        invariant eps == Collect(epInterestMap.Value(), subjects[..i])
      {
        var found := epInterestMap.Find(subjects[i]);
        eps := eps + found;
        assert subjects[..i + 1] == subjects[..i] + [subjects[i]];
      }
      assert subjects[..|subjects|] == subjects;
    }

    // The candidates of a push come out of a hash set; `ring` is the order they are sorted into.
    method HoldNewMessage(m: Message, ctx: ProposalContext, hash: Hashing) returns (ghost env: Env)
      requires Valid() && ctx.sending == {}
      requires !m.target.Available?
      requires m.id !in queue.holdMessages && forall x :: x in queue.timeId ==> x.time < ctx.now
      modifies queue, ctx
      ensures Valid() && ctx.sending == {}
      ensures forall x :: x in queue.timeId ==> x in old(queue.timeId) || x.time == ctx.now
      ensures env.node == ctx.node && env.now == ctx.now && Admissible(old(Value(ctx)), Delegate(m), env, hash)
      ensures Value(ctx) == HoldNew(old(Value(ctx)), m, env, hash)
    {
      env := EnvOf(ctx);
      var eps := CollectAddrBySubjects(m.subjects);
      if m.target.Push? {
        var ring := HashRing(eps, hash);
        env := env.(ring := ring);
        if ring == [] {
          ctx.ResolveAck(Refuse(m.id, Failure(NoAvailableTarget)));
          return;
        }
        eps := {ring[hash.ofMessage(m.id) % |ring|]};
      }
      var hold := HoldMessage(m, NewWaitAck(m.ackKind, eps));
      PutInQueue(hold, ctx);
    }

    method PutInQueue(hold: HoldMessage, ctx: ProposalContext)
      requires Valid() && ctx.sending == {}
      requires hold.Id() !in queue.holdMessages && forall x :: x in queue.timeId ==> x.time < ctx.now
      modifies queue, ctx
      ensures Valid() && ctx.sending == {}
      ensures forall x :: x in queue.timeId ==> x in old(queue.timeId) || x.time == ctx.now
      ensures Value(ctx) == Put(old(Value(ctx)), hold, EnvOf(ctx))
    {
      if config.overflow.Some? {
        if queue.size >= config.overflow.value.size {
          match config.overflow.value.policy {
            case RejectNew =>
              ctx.ResolveAck(Refuse(hold.Id(), Failure(Overflow)));
              return;
            case DropOld =>
              var front := queue.Pop();
              ctx.ResolveAck(Leave(front.value.Id(), Failure(Overflow)));
          }
        }
      }
      queue.Push(hold, ctx.now);
      ctx.PushDurableCommand(Create(hold.message));
      UpdateAndFlush(hold.Id(), map[], ctx);
    }

    // `any` over the subjects.
    method IsWanted(h: HoldMessage, ep: EndpointAddr) returns (wanted: bool)
      requires epInterestMap.Valid()
      ensures wanted <==> ep in Collect(epInterestMap.Value(), h.message.subjects)
    {
      var subjects := h.message.subjects;
      for i := 0 to |subjects|
        invariant ep !in Collect(epInterestMap.Value(), subjects[..i])
      {
        var found := epInterestMap.Find(subjects[i]);
        assert subjects[i] in subjects;
        if ep in found {
          return true;
        }
        assert subjects[..i + 1] == subjects[..i] + [subjects[i]];
      }
      assert subjects[..|subjects|] == subjects;
      wanted := false;
    }

    // The held messages are walked in the order of a hash map.
    method EnlistNew(ep: EndpointAddr) returns (need: set<MessageId>)
      requires Valid()
      modifies queue`holdMessages
      ensures Valid()
      ensures queue.Contents() == Enlist(old(queue.Contents()), epInterestMap.Value(), ep)
      ensures forall id :: id in need <==>
                exists h :: h in old(queue.Contents()) && h.Id() == id
                            && ep !in h.waitAck.status && Wanted(epInterestMap.Value(), h, ep)
    {
      hide Linked, Listed, Enlist, CutOff, InterestMap.Valid, Collect;
      ghost var held, ix := queue.holdMessages, epInterestMap.Value();
      var todo := queue.holdMessages.Keys;
      need := {};
      while todo != {}
        modifies queue`holdMessages
        invariant todo <= held.Keys == queue.holdMessages.Keys
        invariant forall id :: id in held ==>
                    queue.holdMessages[id] == if id in todo then held[id] else EnlistOne(ix, held[id], ep)
        invariant forall id :: id in need <==>
                    id in held && id !in todo && ep !in held[id].waitAck.status && Wanted(ix, held[id], ep)
        decreases todo
      {
        ghost var some := Pick(todo);
        assert some in todo;
        var id :| id in todo;
        todo := todo - {id};
        var h := queue.holdMessages[id];
        if h.message.target.Durable? {
          if ep !in h.waitAck.status {
            var wanted := IsWanted(h, ep);
            if wanted {
              queue.holdMessages := queue.holdMessages[id := h.WithStatus(h.waitAck.status[ep := Unsent])];
              need := need + {id};
            }
          }
        }
      }
      EnlistListed(queue.timeId, queue.idTime, held, queue.holdMessages, ix, ep);
      ListedHeld(queue.timeId, queue.idTime, held);
    }

    method EnlistWanted(ep: EndpointAddr) returns (need: set<MessageId>)
      requires Valid()
      modifies queue`holdMessages
      ensures Valid()
      ensures queue.Contents() == Enlist(old(queue.Contents()), epInterestMap.Value(), ep)
      ensures forall id :: id in need <==>
                exists h :: h in old(queue.Contents()) && h.Id() == id && Wanted(epInterestMap.Value(), h, ep)
    {
      hide Linked, Listed, Enlist, CutOff, InterestMap.Valid;
      ghost var held, ix := queue.holdMessages, epInterestMap.Value();
      var todo := queue.holdMessages.Keys;
      need := {};
      while todo != {}
        modifies queue`holdMessages
        invariant todo <= held.Keys == queue.holdMessages.Keys
        invariant forall id :: id in held ==>
                    queue.holdMessages[id] == if id in todo then held[id] else EnlistOne(ix, held[id], ep)
        invariant forall id :: id in need <==> id in held && id !in todo && Wanted(ix, held[id], ep)
        decreases todo
      {
        ghost var some := Pick(todo);
        assert some in todo;
        var id :| id in todo;
        todo := todo - {id};
        var h := queue.holdMessages[id];
        if h.message.target.Durable? {
          var wanted := false;
          var status := h.waitAck.status;
          var subjects := h.message.subjects;
          for i := 0 to |subjects|
            modifies {}
            invariant wanted <==> ep in Collect(ix, subjects[..i])
            invariant status == if wanted && ep !in h.waitAck.status then h.waitAck.status[ep := Unsent] else h.waitAck.status
          {
            var found := epInterestMap.Find(subjects[i]);
            assert subjects[..i + 1] == subjects[..i] + [subjects[i]];
            if ep in found {
              if ep !in status {
                status := status[ep := Unsent];
              }
              wanted := true;
            }
          }
          assert subjects[..|subjects|] == subjects;
          queue.holdMessages := queue.holdMessages[id := h.WithStatus(status)];
          assert h.WithStatus(h.waitAck.status) == h;
          if wanted {
            need := need + {id};
          }
        }
      }
      EnlistListed(queue.timeId, queue.idTime, held, queue.holdMessages, ix, ep);
      ListedHeld(queue.timeId, queue.idTime, held);
    }

    method CutOffHeld(ep: EndpointAddr) returns (need: set<MessageId>)
      requires Valid()
      modifies queue`holdMessages
      ensures Valid()
      ensures queue.Contents() == CutOff(old(queue.Contents()), ep)
      ensures forall id :: id in need <==>
                exists h :: h in old(queue.Contents()) && h.Id() == id && ep in h.waitAck.status
    {
      hide Linked, Listed, Enlist, CutOff, InterestMap.Valid, Collect;
      ghost var held := queue.holdMessages;
      var todo := queue.holdMessages.Keys;
      need := {};
      while todo != {}
        modifies queue`holdMessages
        invariant todo <= held.Keys == queue.holdMessages.Keys
        invariant forall id :: id in held ==>
                    queue.holdMessages[id] == if id in todo then held[id] else CutOffOne(held[id], ep)
        invariant forall id :: id in need <==> id in held && id !in todo && ep in held[id].waitAck.status
        decreases todo
      {
        ghost var some := Pick(todo);
        assert some in todo;
        var id :| id in todo;
        todo := todo - {id};
        var h := queue.holdMessages[id];
        if ep in h.waitAck.status {
          queue.holdMessages := queue.holdMessages[id := h.WithStatus(h.waitAck.status[ep := Unreachable])];
          need := need + {id};
        }
      }
      CutOffListed(queue.timeId, queue.idTime, held, queue.holdMessages, ep);
      ListedHeld(queue.timeId, queue.idTime, held);
    }

    // The ids to poll come out of a hash set; `walk` is the order it yields.
    method PollEvery(need: set<MessageId>, ctx: ProposalContext) returns (ghost walk: seq<MessageId>)
      requires Valid() && ctx.sending == {}
      modifies queue, ctx
      ensures Valid() && ctx.sending == {} && queue.NoNewTimes(old(queue.timeId))
      ensures Enumerates(walk, need)
      ensures Value(ctx) == PollAll(old(Value(ctx)), walk, EnvOf(ctx))
    {
      hide PollAll, Topics.UpdateAndFlush, Linked, Listed, InterestMap.Valid;
      walk := [];
      ghost var ready, env := Value(ctx), EnvOf(ctx);
      var todo := need;
      PollAllOne(ready, [], env);
      assert need - todo == {};
      while todo != {}
        modifies queue, ctx
        invariant Valid() && ctx.sending == {} && queue.NoNewTimes(old(queue.timeId))
        invariant todo <= need && Enumerates(walk, need - todo)
        invariant Value(ctx) == PollAll(ready, walk, env)
        decreases todo
      {
        ghost var some := Pick(todo);
        assert some in todo;
        var id :| id in todo;
        EnumeratesMore(walk, need - todo, id);
        assert need - todo + {id} == need - (todo - {id});
        PollAllMore(ready, walk, id, env);
        UpdateAndFlush(id, map[], ctx);
        walk, todo := walk + [id], todo - {id};
      }
      assert need - todo == need;
    }

    method EpOnline(ep: EndpointAddr, interests: seq<Bytes>, host: NodeId, ctx: ProposalContext, ghost hash: Hashing)
      returns (ghost env: Env)
      requires Valid() && ctx.sending == {}
      modifies this, queue, ctx, epInterestMap, epInterestMap.root.repr
      ensures Valid() && ctx.sending == {} && queue.NoNewTimes(old(queue.timeId))
      ensures fresh(epInterestMap.root.repr - old(epInterestMap.root.repr))
      ensures env.node == ctx.node && env.now == ctx.now
      ensures Admissible(old(Value(ctx)), GoOnline(ep, interests, host), env, hash)
      ensures Value(ctx) == Step(old(Value(ctx)), GoOnline(ep, interests, host), env, hash)
      ensures epRoutingTable == old(epRoutingTable)[host := old(ReachableEps(host)) + {ep}]
    {
      ghost var t, p := Value(ctx), GoOnline(ep, interests, host);
      epRoutingTable := epRoutingTable[host := ReachableEps(host) + {ep}];
      InsertEvery(interests, ep);
      var need := EnlistNew(ep);
      assert Value(ctx) == Prepare(t, p);
      NeedOnline(t, ep, interests, host, need);
      ghost var walk := PollEvery(need, ctx);
      env := EnvOf(ctx).(walk := walk);
      PollAllSameEnv(Prepare(t, p), walk, EnvOf(ctx), env);
    }

    method InsertEvery(interests: seq<Bytes>, ep: EndpointAddr)
      requires Valid()
      modifies epInterestMap, epInterestMap.root.repr
      ensures Valid() && fresh(epInterestMap.root.repr - old(epInterestMap.root.repr))
      ensures epInterestMap.Value() == old(epInterestMap.Value()).InsertEach(interests, ep)
    {
      ghost var whole := epInterestMap.Value().InsertEach(interests, ep);
      for i := 0 to |interests|
        invariant Valid() && fresh(epInterestMap.root.repr - old(epInterestMap.root.repr))
        invariant epInterestMap.Value().InsertEach(interests[i..], ep) == whole
      {
        assert interests[i..][1..] == interests[i + 1..];
        epInterestMap.Insert(interests[i], ep);
      }
    }

    method EpOffline(host: NodeId, ep: EndpointAddr, ctx: ProposalContext, ghost hash: Hashing) returns (ghost env: Env)
      requires Valid() && ctx.sending == {}
      modifies this, queue, ctx, epInterestMap, epInterestMap.root.repr
      ensures Valid() && ctx.sending == {} && queue.NoNewTimes(old(queue.timeId))
      ensures fresh(epInterestMap.root.repr - old(epInterestMap.root.repr))
      ensures env.node == ctx.node && env.now == ctx.now
      ensures Admissible(old(Value(ctx)), GoOffline(ep, host), env, hash)
      ensures Value(ctx) == Step(old(Value(ctx)), GoOffline(ep, host), env, hash)
      ensures epRoutingTable == old(epRoutingTable)[host := old(ReachableEps(host)) - {ep}]
    {
      ghost var t, p := Value(ctx), GoOffline(ep, host);
      epRoutingTable := epRoutingTable[host := ReachableEps(host) - {ep}];
      epInterestMap.Delete(ep);
      var need := CutOffHeld(ep);
      assert Value(ctx) == Prepare(t, p);
      NeedOffline(t, ep, host, need);
      ghost var walk := PollEvery(need, ctx);
      env := EnvOf(ctx).(walk := walk);
      PollAllSameEnv(Prepare(t, p), walk, EnvOf(ctx), env);
    }

    method UpdateEpInterest(ep: EndpointAddr, interests: seq<Bytes>, ctx: ProposalContext, ghost hash: Hashing)
      returns (ghost env: Env)
      requires Valid() && ctx.sending == {}
      modifies this, queue, ctx, epInterestMap, epInterestMap.root.repr
      ensures Valid() && ctx.sending == {} && queue.NoNewTimes(old(queue.timeId))
      ensures fresh(epInterestMap.root.repr - old(epInterestMap.root.repr))
      ensures env.node == ctx.node && env.now == ctx.now
      ensures Admissible(old(Value(ctx)), NewInterest(ep, interests), env, hash)
      ensures Value(ctx) == Step(old(Value(ctx)), NewInterest(ep, interests), env, hash)
    {
      ghost var t, p := Value(ctx), NewInterest(ep, interests);
      epInterestMap.Delete(ep);
      InsertEvery(interests, ep);
      var need := EnlistWanted(ep);
      assert Value(ctx) == Prepare(t, p);
      NeedInterest(t, ep, interests, need);
      ghost var walk := PollEvery(need, ctx);
      env := EnvOf(ctx).(walk := walk);
      PollAllSameEnv(Prepare(t, p), walk, EnvOf(ctx), env);
    }
  }
}
