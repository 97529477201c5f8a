// A node's life as it can be read from its log: the entries with their clocks and the snapshots between
// them, the message ids each topic has seen, and how far the clock has got.

module Lives {
  import opened Messages
  import opened Lists
  import opened HoldQueue
  import opened Topics
  import opened Agreement
  import opened Snapshots
  import opened Nodes

  datatype LifeOp = Commit(entry: Entry, now: Time) | Reinstall

  // The loaded topics, each with the ids it has seen.
  type Known = map<TopicCode, set<MessageId>>

  datatype Tally = Tally(known: Known, latest: Time)

  function KnownAfter(known: Known, p: NodeProposal): Known {
    match p
    case ToTopic(code, q) =>
      if code in known && q.Delegate? then known[code := known[code] + {q.message.id}] else known
    case LoadTopic(config, messages) =>
      if config.code in known then known else known[config.code := Elements(FlatMap(IdOf, messages))]
    case UnloadTopic(code) => known - {code}
  }

  function KnownAfterEntry(known: Known, e: Entry): Known {
    if e.payload.Normal? then KnownAfter(known, e.payload.proposal) else known
  }

  function TallyAfter(y: Tally, op: LifeOp): Tally {
    if op.Reinstall? then y else Tally(KnownAfterEntry(y.known, op.entry), op.now)
  }

  function TallyEnd(y: Tally, life: seq<LifeOp>): Tally
    decreases life
  {
    if life == [] then y else TallyEnd(TallyAfter(y, life[0]), life[1..])
  }

  predicate NoneAfter(messages: seq<DurableMessage>, latest: Time) {
    forall m :: m in messages ==> m.time <= latest
  }

  // A delegated message has an id its topic has not seen; a topic is loaded with messages that have
  // different ids and times, none in the future.
  predicate FreshProposal(known: Known, p: NodeProposal, now: Time) {
    match p
    case ToTopic(code, q) => code in known ==> Supported(q) && (q.Delegate? ==> q.message.id !in known[code])
    case LoadTopic(config, messages) =>
      config.code !in known ==>
        NoRepeats(FlatMap(IdOf, messages)) && NoRepeats(FlatMap(TimeOf, messages)) && NoneAfter(messages, now)
    case UnloadTopic(_) => true
  }

  // The clock goes on between entries.
  predicate FreshOp(y: Tally, op: LifeOp) {
    op.Commit? ==>
      y.latest < op.now && (op.entry.payload.Normal? ==> FreshProposal(y.known, op.entry.payload.proposal, op.now))
  }

  predicate FreshLife(y: Tally, life: seq<LifeOp>)
    decreases life
  {
    life == [] || (FreshOp(y, life[0]) && FreshLife(TallyAfter(y, life[0]), life[1..]))
  }

  lemma FreshLifeOne(y: Tally, life: seq<LifeOp>)
    requires life != []
    ensures TallyEnd(y, life) == TallyEnd(TallyAfter(y, life[0]), life[1..])
    ensures FreshLife(y, life) <==> FreshOp(y, life[0]) && FreshLife(TallyAfter(y, life[0]), life[1..])
  {
  }

  // ----- What the tally says of the state -----

  ghost predicate Tracks(known: Known, s: StateMachine) {
    && s.topics.Keys == known.Keys
    && forall code :: code in known ==> Elements(Ids(s.topics[code].queue)) <= known[code]
  }

  // The same of the state itself, which cannot be read from the log.
  ghost predicate EntryFits(s: StateMachine, e: Entry, now: Time) {
    e.payload.Normal? ==>
      match e.payload.proposal
      case ToTopic(code, p) =>
        code in s.topics ==> Supported(p) && (p.Delegate? ==> p.message.id !in Ids(s.topics[code].queue))
      case LoadTopic(config, messages) =>
        config.code !in s.topics ==>
          NoRepeats(FlatMap(IdOf, messages)) && NoRepeats(FlatMap(TimeOf, messages)) && NoneAfter(messages, now)
      case UnloadTopic(_) => true
  }

  lemma InElements(ids: seq<MessageId>, id: MessageId)
    ensures id in ids <==> id in Elements(ids)
  {
  }

  lemma FreshFits(y: Tally, s: StateMachine, e: Entry, now: Time)
    requires Tracks(y.known, s) && FreshOp(y, Commit(e, now))
    ensures EntryFits(s, e, now)
  {
    hide NoRepeats, FlatMap, Supported, Elements;
    if e.payload.Normal? && e.payload.proposal.ToTopic? && e.payload.proposal.code in s.topics {
      var code, p := e.payload.proposal.code, e.payload.proposal.proposal;
      if p.Delegate? {
        InElements(Ids(s.topics[code].queue), p.message.id);
      }
    }
  }

  lemma IdsOfMessages(q: seq<HoldMessage>, id: MessageId)
    ensures id in Elements(Ids(q)) <==> exists m :: m in MessagesOf(q) && m.id == id
  {
    if id in Elements(Ids(q)) {
      var i :| 0 <= i < |q| && Ids(q)[i] == id;
      assert q[i].message in MessagesOf(q);
    }
    if m :| m in MessagesOf(q) && m.id == id {
      var i :| 0 <= i < |q| && q[i].message == m;
      assert Ids(q)[i] == id;
    }
  }

  lemma StepIds(t: Topic, p: Proposal, env: Env, hash: Hashing)
    ensures Elements(Ids(Step(t, p, env, hash).queue)) <=
            Elements(Ids(t.queue)) + (if p.Delegate? then {p.message.id} else {})
  {
    StepMessages(t, p, env, hash);
    hide Step, Ids, MessagesOf, Elements, Prepare;
    var after := Step(t, p, env, hash);
    forall id | id in Elements(Ids(after.queue)) ensures id in Elements(Ids(t.queue)) || (p.Delegate? && id == p.message.id) {
      IdsOfMessages(after.queue, id);
      IdsOfMessages(t.queue, id);
    }
  }

  lemma {:induction false} IdIsListed(messages: seq<DurableMessage>, m: DurableMessage)
    requires m in messages
    ensures m.message.id in Elements(FlatMap(IdOf, messages))
  {
    assert FlatMap(IdOf, messages) == IdOf(messages[0]) + FlatMap(IdOf, messages[1..]);
    if messages[0] != m {
      IdIsListed(messages[1..], m);
    } else {
      assert FlatMap(IdOf, messages)[0] == m.message.id;
    }
  }

  lemma LoadedIds(config: TopicConfig, messages: seq<DurableMessage>)
    ensures Elements(Ids(FromDurable(config, SortByTime(messages)).queue)) <= Elements(FlatMap(IdOf, messages))
  {
    hide FlatMap, SortByTime;
    var sorted := SortByTime(SortByTime(messages));
    var q := FromDurable(config, SortByTime(messages)).queue;
    forall id | id in Elements(Ids(q)) ensures id in Elements(FlatMap(IdOf, messages)) {
      var i :| 0 <= i < |q| && Ids(q)[i] == id;
      assert sorted[i] in multiset(sorted) && multiset(sorted) == multiset(messages);
      assert sorted[i] in messages;
      IdIsListed(messages, sorted[i]);
    }
  }

  lemma SetTracks(known: Known, s: StateMachine, code: TopicCode, ids: set<MessageId>, t: Topic)
    requires Tracks(known, s) && Elements(Ids(t.queue)) <= ids
    ensures Tracks(known[code := ids], s.(topics := s.topics[code := t]))
  {
    hide Elements, Ids;
  }

  lemma ApplyTracks(known: Known, s: StateMachine, e: Entry, env: Env, hash: Hashing)
    requires Tracks(known, s)
    ensures Tracks(KnownAfterEntry(known, e), Nodes.ApplyEntry(s, e, env, hash))
  {
    hide Step, FromDurable, SortByTime, FlatMap, Ids, Elements;
    if e.payload.Normal? {
      match e.payload.proposal
      case ToTopic(code, p) =>
        if code in s.topics {
          StepIds(s.topics[code], p, env, hash);
          var ids := known[code] + (if p.Delegate? then {p.message.id} else {});
          SetTracks(known, s, code, ids, Step(s.topics[code], p, env, hash));
          assert known[code] + {} == known[code] && known[code := known[code]] == known;
        }
      case LoadTopic(config, messages) =>
        if config.code !in s.topics {
          LoadedIds(config, messages);
          SetTracks(known, s, config.code, Elements(FlatMap(IdOf, messages)), FromDurable(config, SortByTime(messages)));
        }
      case UnloadTopic(_) =>
    }
  }

  // The same of a snapshot.
  ghost predicate TracksImages(known: Known, snapshot: Snapshot) {
    && snapshot.images.Keys == known.Keys
    && forall code :: code in known ==> Elements(Ids(snapshot.images[code].queue)) <= known[code]
  }

  lemma SnapshotTracks(known: Known, s: StateMachine)
    requires Tracks(known, s)
    ensures TracksImages(known, BuildSnapshot(s))
  {
    hide Elements, Ids;
  }

  // What is tracked of a node is tracked of every node that installs its snapshot.
  lemma InstalledTracks(known: Known, snapshot: Snapshot, past: Past)
    requires TracksImages(known, snapshot) && snapshot.images.Keys <= past.Keys
    ensures Tracks(known, Install(snapshot, past))
  {
    hide Elements, Ids;
    var follower := Install(snapshot, past);
    forall code | code in known ensures follower.topics[code].queue == snapshot.images[code].queue {
    }
  }

  // What the node has emitted so far for topics, which it may not have.
  function PastFor(s: StateMachine, codes: set<TopicCode>): Past {
    map code | code in codes ::
      if code in s.topics then History(s.topics[code].events, s.topics[code].commands) else History([], [])
  }

  // Following another node: its snapshot is installed over what this one has.
  ghost function Followed(s: StateMachine, snapshot: Snapshot): StateMachine {
    Install(snapshot, PastFor(s, snapshot.images.Keys))
  }

  lemma OwnIsFollowed(s: StateMachine)
    ensures Followed(s, BuildSnapshot(s)) == Reinstalled(s)
  {
    hide Install, Save;
    assert PastFor(s, BuildSnapshot(s).images.Keys) == PastOf(s.topics);
  }

  lemma ReinstalledTracks(known: Known, s: StateMachine)
    requires Tracks(known, s)
    ensures Tracks(known, Reinstalled(s))
  {
    hide Tracks, BuildSnapshot, Install, TracksImages;
    OwnIsFollowed(s);
    SnapshotTracks(known, s);
    InstalledTracks(known, BuildSnapshot(s), PastFor(s, BuildSnapshot(s).images.Keys));
  }

  // ----- Whole lives -----

  // The operation of the state machine function, on the node and at the clock of the life.
  predicate Matches(op: NodeOp, l: LifeOp, node: NodeId) {
    match l
    case Commit(entry, now) => op.Apply? && op.entry == entry && op.env.node == node && op.env.now == now
    case Reinstall => op.TakeAndInstall?
  }

  predicate MatchesAll(ops: seq<NodeOp>, life: seq<LifeOp>, node: NodeId) {
    |ops| == |life| && forall i :: 0 <= i < |ops| ==> Matches(ops[i], life[i], node)
  }

  ghost predicate AllFit(s: StateMachine, ops: seq<NodeOp>, hash: Hashing)
    decreases ops
  {
    ops == [] ||
    (&& (ops[0].Apply? ==> EntryFits(s, ops[0].entry, ops[0].env.now))
     && AllFit(NodeStep(s, ops[0], hash), ops[1..], hash))
  }

  lemma OneTracks(y: Tally, s: StateMachine, op: NodeOp, l: LifeOp, node: NodeId, hash: Hashing)
    requires Tracks(y.known, s) && Matches(op, l, node)
    ensures Tracks(TallyAfter(y, l).known, NodeStep(s, op, hash))
  {
    hide Nodes.ApplyEntry, Reinstalled, KnownAfterEntry, Tracks;
    if op.Apply? {
      ApplyTracks(y.known, s, op.entry, op.env, hash);
    } else {
      ReinstalledTracks(y.known, s);
    }
  }

  // Along a life that is fresh as read from the log, every entry fits the state that it meets, whatever
  // the orders in which hash sets are walked.
  lemma {:induction false} FreshLifeFits(y: Tally, s: StateMachine, ops: seq<NodeOp>, life: seq<LifeOp>,
                                         node: NodeId, hash: Hashing)
    requires Tracks(y.known, s) && FreshLife(y, life) && MatchesAll(ops, life, node)
    ensures AllFit(s, ops, hash)
    ensures Tracks(TallyEnd(y, life).known, RunNode(s, ops, hash))
    decreases ops
  {
    hide NodeStep, EntryFits, Tracks, FreshOp, TallyAfter;
    RunNodeOne(s, ops, hash);
    if ops != [] {
      assert Matches(ops[0], life[0], node);
      assert forall i :: 0 <= i < |ops[1..]| ==> ops[1..][i] == ops[i + 1] && life[1..][i] == life[i + 1];
      FreshLifeOne(y, life);
      OneTracks(y, s, ops[0], life[0], node, hash);
      if ops[0].Apply? {
        FreshFits(y, s, ops[0].entry, ops[0].env.now);
      }
      FreshLifeFits(TallyAfter(y, life[0]), NodeStep(s, ops[0], hash), ops[1..], life[1..], node, hash);
    }
  }
}
