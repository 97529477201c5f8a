// A snapshot keeps the plain map of interests only; the trie is built again when it is read back.
// The rebuilt topic behaves like the one it was taken from.

module Snapshots {
  import opened Messages
  import opened Lists
  import opened Tries
  import opened HoldQueue
  import opened Topics
  import opened Agreement

  // What a snapshot stores of a topic.
  datatype TopicImage = TopicImage(
    config: TopicConfig,
    routing: map<NodeId, set<EndpointAddr>>,
    raw: RawInterests,
    queue: seq<HoldMessage>
  )

  function Save(t: Topic): TopicImage {
    TopicImage(t.config, t.routing, t.ix.raw, t.queue)
  }

  // Reading an image back on a node that has emitted `events` and `commands` for the topic so far.
  ghost function Restore(image: TopicImage, events: seq<Event>, commands: seq<DurableCommand>): Topic {
    Topic(image.config, image.routing, FromRaw(image.raw), image.queue, events, commands)
  }

  ghost function Rebuilt(t: Topic): Topic {
    Restore(Save(t), t.events, t.commands)
  }

  // Equal in everything but the shape of the trie.
  ghost predicate SameButTrie(t: Topic, u: Topic) {
    && u == t.(ix := u.ix)
    && u.ix.raw == t.ix.raw
    && t.ix.Valid() && u.ix.Valid()
  }

  lemma RebuiltIsSame(t: Topic)
    requires t.ix.Valid()
    ensures SameButTrie(t, Rebuilt(t))
  {
    FromRawIsValid(t.ix.raw);
  }

  lemma UpdateAndFlushSame(t: Topic, ix: Index, id: MessageId, acks: StatusMap, env: Env)
    ensures UpdateAndFlush(t.(ix := ix), id, acks, env) == UpdateAndFlush(t, id, acks, env).(ix := ix)
    ensures UpdateAndFlush(t, id, acks, env).ix == t.ix
  {
    hide Settle, FlatMap;
  }

  lemma {:induction false} PollAllSame(t: Topic, ix: Index, ids: seq<MessageId>, env: Env)
    ensures PollAll(t.(ix := ix), ids, env) == PollAll(t, ids, env).(ix := ix)
    decreases ids
  {
    hide *;
    PollAllOne(t, ids, env);
    PollAllOne(t.(ix := ix), ids, env);
    if ids != [] {
      UpdateAndFlushSame(t, ix, ids[0], map[], env);
      PollAllSame(UpdateAndFlush(t, ids[0], map[], env), ix, ids[1..], env);
    }
  }

  lemma PrepareSame(t: Topic, u: Topic, p: Proposal)
    requires p.OfEndpoint() && SameButTrie(t, u)
    ensures SameButTrie(Prepare(t, p), Prepare(u, p)) && NeedPoll(t, p) == NeedPoll(u, p)
  {
    PrepareIndex(t, u, p);
    var ix, iu := Prepare(t, p).ix, Prepare(u, p).ix;
    forall h: HoldMessage ensures Wanted(ix, h, p.ep) == Wanted(iu, h, p.ep) {
      CollectAgrees(ix, iu, h.message.subjects);
    }
    assert Enlist(t.queue, ix, p.ep) == Enlist(u.queue, iu, p.ep);
  }

  lemma HoldNewSame(t: Topic, u: Topic, m: Message, env: Env, hash: Hashing)
    requires SameButTrie(t, u)
    ensures HoldNew(u, m, env, hash) == HoldNew(t, m, env, hash).(ix := u.ix)
    ensures HoldNew(t, m, env, hash).ix == t.ix
  {
    CollectAgrees(t.ix, u.ix, m.subjects);
    hide UpdateAndFlush, Collect;
    if !(m.target.Push? && env.ring == []) && !(t.Full() && t.config.overflow.value.policy.RejectNew?) {
      var room, roomU := if t.Full() then DropFront(t) else t, if u.Full() then DropFront(u) else u;
      var h := Hold(t, m, env, hash);
      assert Hold(u, m, env, hash) == h && roomU == room.(ix := u.ix);
      UpdateAndFlushSame(Enqueue(room, h), u.ix, m.id, map[], env);
    }
  }

  // One step keeps two such topics alike, and the walks one may take the other may take too.
  lemma StepSame(t: Topic, u: Topic, p: Proposal, env: Env, hash: Hashing)
    requires SameButTrie(t, u)
    ensures SameButTrie(Step(t, p, env, hash), Step(u, p, env, hash))
    ensures Admissible(t, p, env, hash) <==> Admissible(u, p, env, hash)
  {
    StepKeepsValid(t, p, env, hash);
    StepKeepsValid(u, p, env, hash);
    hide UpdateAndFlush, HoldNew, PollAll, Prepare, NeedPoll, Index.Valid;
    match p
    case Delegate(m) =>
      HoldNewSame(t, u, m, env, hash);
      CollectAgrees(t.ix, u.ix, m.subjects);
    case SetState(id, acks) => UpdateAndFlushSame(t, u.ix, id, acks, env);
    case _ =>
      PrepareSame(t, u, p);
      var ready := Prepare(t, p);
      PollAllIsWalk(ready, env.walk, env);
      PollAllSame(ready, Prepare(u, p).ix, env.walk, env);
  }
}
