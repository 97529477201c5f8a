// The state machine of a node: its topics under the replicated log, and snapshots of them.

module Nodes {
  import opened Messages
  import opened Tries
  import opened HoldQueue
  import opened Topics
  import opened Agreement
  import opened Snapshots

  type LogId = int

  datatype NodeProposal =
    | ToTopic(code: TopicCode, proposal: Proposal)
    | LoadTopic(config: TopicConfig, messages: seq<DurableMessage>)
    | UnloadTopic(code: TopicCode)

  datatype Payload = Blank | Normal(proposal: NodeProposal) | Membership(members: set<NodeId>)

  datatype Entry = Entry(logId: LogId, payload: Payload)

  datatype StoredMembership = StoredMembership(logId: Option<LogId>, members: set<NodeId>)

  type TopicMap = map<TopicCode, Topic>

  datatype StateMachine = StateMachine(lastApplied: Option<LogId>, membership: StoredMembership, topics: TopicMap)

  // ----- Applying the log -----

  // A proposal for a topic that is not loaded is dropped; a topic that is loaded already stays as it is.
  ghost function Load(topics: TopicMap, config: TopicConfig, messages: seq<DurableMessage>): TopicMap {
    if config.code in topics then topics else topics[config.code := FromDurable(config, SortByTime(messages))]
  }

  ghost function ApplyProposal(topics: TopicMap, p: NodeProposal, env: Env, hash: Hashing): TopicMap {
    match p
    case ToTopic(code, q) => if code in topics then topics[code := Step(topics[code], q, env, hash)] else topics
    case LoadTopic(config, messages) => Load(topics, config, messages)
    case UnloadTopic(code) => topics - {code}
  }

  ghost function ApplyEntry(s: StateMachine, e: Entry, env: Env, hash: Hashing): StateMachine {
    var noted := s.(lastApplied := Some(e.logId));
    match e.payload
    case Blank => noted
    case Normal(p) => noted.(topics := ApplyProposal(s.topics, p, env, hash))
    case Membership(members) => noted.(membership := StoredMembership(Some(e.logId), members))
  }

  predicate Unloads(e: Entry, code: TopicCode) {
    e.payload.Normal? && e.payload.proposal == UnloadTopic(code)
  }

  predicate Loads(e: Entry, code: TopicCode) {
    e.payload.Normal? && e.payload.proposal.LoadTopic? && e.payload.proposal.config.code == code
  }

  // One entry, topic by topic: a loaded topic stays unless it is unloaded, an absent one comes only by
  // being loaded, as its stored messages say, and a loaded one steps only by a proposal for it.
  lemma EntryWrittenOut(s: StateMachine, e: Entry, env: Env, hash: Hashing, code: TopicCode)
    ensures var after := ApplyEntry(s, e, env, hash).topics;
            && (code in after <==> (code in s.topics && !Unloads(e, code)) || Loads(e, code))
            && (code in s.topics && code in after ==>
                  after[code] ==
                  if e.payload.Normal? && e.payload.proposal.ToTopic? && e.payload.proposal.code == code
                  then Step(s.topics[code], e.payload.proposal.proposal, env, hash) else s.topics[code])
            && (code !in s.topics && code in after ==>
                  after[code] == FromDurable(e.payload.proposal.config, e.payload.proposal.messages))
  {
    hide Step, SortByTime;
    if e.payload.Normal? && e.payload.proposal.LoadTopic? {
      SortByTimeSorts(e.payload.proposal.messages);
      SortedIsSorted(SortByTime(e.payload.proposal.messages));
    }
  }

  // ----- Snapshots -----

  datatype Snapshot = Snapshot(lastApplied: Option<LogId>, membership: StoredMembership, images: map<TopicCode, TopicImage>)

  function BuildSnapshot(s: StateMachine): Snapshot {
    Snapshot(s.lastApplied, s.membership, map code | code in s.topics :: Save(s.topics[code]))
  }

  // What has been emitted for a topic.
  datatype History = History(events: seq<Event>, commands: seq<DurableCommand>)

  type Past = map<TopicCode, History>

  function PastOf(topics: TopicMap): Past {
    map code | code in topics :: History(topics[code].events, topics[code].commands)
  }

  // Installing replaces the state. `past` tells what the node has emitted so far for each topic.
  ghost function Install(snapshot: Snapshot, past: Past): StateMachine
    requires snapshot.images.Keys <= past.Keys
  {
    StateMachine(snapshot.lastApplied, snapshot.membership,
                 map code | code in snapshot.images ::
                   Restore(snapshot.images[code], past[code].events, past[code].commands))
  }

  ghost function Reinstalled(s: StateMachine): StateMachine {
    Install(BuildSnapshot(s), PastOf(s.topics))
  }

  lemma ReinstalledKeys(s: StateMachine)
    ensures Reinstalled(s).topics.Keys == s.topics.Keys
    ensures Reinstalled(s).lastApplied == s.lastApplied && Reinstalled(s).membership == s.membership
  {
    hide FromRaw;
  }

  lemma ReinstalledOne(s: StateMachine, code: TopicCode)
    requires code in s.topics
    ensures code in Reinstalled(s).topics && Reinstalled(s).topics[code] == Rebuilt(s.topics[code])
  {
    hide FromRaw;
  }

  datatype NodeOp = Apply(entry: Entry, env: Env) | TakeAndInstall

  ghost function NodeStep(s: StateMachine, op: NodeOp, hash: Hashing): StateMachine {
    match op
    case Apply(entry, env) => ApplyEntry(s, entry, env, hash)
    case TakeAndInstall => Reinstalled(s)
  }

  ghost function RunNode(s: StateMachine, ops: seq<NodeOp>, hash: Hashing): StateMachine
    decreases ops
  {
    if ops == [] then s else RunNode(NodeStep(s, ops[0], hash), ops[1..], hash)
  }

  // The log in a node's life, without the snapshots.
  function WithoutSnapshots(ops: seq<NodeOp>): seq<NodeOp> {
    if ops == [] then []
    else (if ops[0].Apply? then [ops[0]] else []) + WithoutSnapshots(ops[1..])
  }

  // The orders in the environment fit the state, and nothing unsupported is asked for.
  ghost predicate OpFits(s: StateMachine, op: NodeOp, hash: Hashing) {
    op.Apply? && op.entry.payload.Normal? ==> ProposalFits(s, op.entry.payload.proposal, op.env, hash)
  }

  ghost predicate ProposalFits(s: StateMachine, p: NodeProposal, env: Env, hash: Hashing) {
    p.ToTopic? && p.code in s.topics ==>
      Supported(p.proposal) && Admissible(s.topics[p.code], p.proposal, env, hash)
  }

  ghost predicate OpsFit(s: StateMachine, ops: seq<NodeOp>, hash: Hashing)
    decreases ops
  {
    ops == [] || (OpFits(s, ops[0], hash) && OpsFit(NodeStep(s, ops[0], hash), ops[1..], hash))
  }

  lemma RunNodeOne(s: StateMachine, ops: seq<NodeOp>, hash: Hashing)
    ensures ops == [] ==> RunNode(s, ops, hash) == s && OpsFit(s, ops, hash) && WithoutSnapshots(ops) == []
    ensures ops != [] ==>
              var next := NodeStep(s, ops[0], hash);
              && RunNode(s, ops, hash) == RunNode(next, ops[1..], hash)
              && (OpsFit(s, ops, hash) <==> OpFits(s, ops[0], hash) && OpsFit(next, ops[1..], hash))
              && WithoutSnapshots(ops) == (if ops[0].Apply? then [ops[0]] else []) + WithoutSnapshots(ops[1..])
  {
  }

  lemma RunNodeCons(s: StateMachine, op: NodeOp, ops: seq<NodeOp>, hash: Hashing)
    ensures var next := NodeStep(s, op, hash);
            && RunNode(s, [op] + ops, hash) == RunNode(next, ops, hash)
            && (OpsFit(s, [op] + ops, hash) <==> OpFits(s, op, hash) && OpsFit(next, ops, hash))
  {
    assert ([op] + ops)[1..] == ops;
  }

  lemma {:induction false} RunNodeMore(s: StateMachine, ops: seq<NodeOp>, op: NodeOp, hash: Hashing)
    ensures var last := RunNode(s, ops, hash);
            && RunNode(s, ops + [op], hash) == NodeStep(last, op, hash)
            && (OpsFit(s, ops + [op], hash) <==> OpsFit(s, ops, hash) && OpFits(last, op, hash))
    decreases ops
  {
    hide *;
    RunNodeOne(s, ops, hash);
    if ops == [] {
      assert [] + [op] == [op] + [];
      RunNodeCons(s, op, [], hash);
      RunNodeOne(NodeStep(s, op, hash), [], hash);
    } else {
      var next := NodeStep(s, ops[0], hash);
      assert ops + [op] == [ops[0]] + (ops[1..] + [op]);
      RunNodeCons(s, ops[0], ops[1..] + [op], hash);
      RunNodeMore(next, ops[1..], op, hash);
    }
  }

  // ----- What a node has after its log -----

  // The id of the last entry, the last membership, and whether a topic was last loaded or unloaded.
  function LastId(ops: seq<NodeOp>, before: Option<LogId>): Option<LogId>
    decreases |ops|
  {
    if ops == [] then before
    else
      var op := ops[|ops| - 1];
      if op.Apply? then Some(op.entry.logId) else LastId(ops[..|ops| - 1], before)
  }

  function LastMembership(ops: seq<NodeOp>, before: StoredMembership): StoredMembership
    decreases |ops|
  {
    if ops == [] then before
    else
      var op := ops[|ops| - 1];
      if op.Apply? && op.entry.payload.Membership? then StoredMembership(Some(op.entry.logId), op.entry.payload.members)
      else LastMembership(ops[..|ops| - 1], before)
  }

  predicate LastLoaded(ops: seq<NodeOp>, code: TopicCode, before: bool)
    decreases |ops|
  {
    if ops == [] then before
    else
      var op := ops[|ops| - 1];
      if op.Apply? && Loads(op.entry, code) then true
      else if op.Apply? && Unloads(op.entry, code) then false
      else LastLoaded(ops[..|ops| - 1], code, before)
  }

  // After any log, with snapshots at any points, the last applied id is that of the last entry, the
  // membership the last one in the log, and a topic is there exactly if it was last loaded.
  lemma {:induction false} NodeAtLast(s: StateMachine, ops: seq<NodeOp>, hash: Hashing, code: TopicCode)
    ensures var last := RunNode(s, ops, hash);
            && last.lastApplied == LastId(ops, s.lastApplied)
            && last.membership == LastMembership(ops, s.membership)
            && (code in last.topics <==> LastLoaded(ops, code, code in s.topics))
    decreases |ops|
  {
    hide RunNode, NodeStep;
    if ops == [] {
      RunNodeOne(s, ops, hash);
    } else {
      var init, op := ops[..|ops| - 1], ops[|ops| - 1];
      assert ops == init + [op];
      RunNodeMore(s, init, op, hash);
      NodeAtLast(s, init, hash, code);
      OneAtLast(RunNode(s, init, hash), op, hash, code);
    }
  }

  lemma OneAtLast(s: StateMachine, op: NodeOp, hash: Hashing, code: TopicCode)
    ensures var next := NodeStep(s, op, hash);
            && next.lastApplied == (if op.Apply? then Some(op.entry.logId) else s.lastApplied)
            && next.membership ==
               (if op.Apply? && op.entry.payload.Membership?
                then StoredMembership(Some(op.entry.logId), op.entry.payload.members) else s.membership)
            && (code in next.topics <==>
                (code in s.topics && !(op.Apply? && Unloads(op.entry, code))) || (op.Apply? && Loads(op.entry, code)))
  {
    hide Step, FromDurable, SortByTime, Reinstalled, Loads, Unloads, ApplyProposal;
    if op.Apply? {
      EntryWrittenOut(s, op.entry, op.env, hash, code);
    } else {
      ReinstalledKeys(s);
    }
  }

  // ----- One topic among the others -----

  predicate Concerns(op: NodeOp, code: TopicCode) {
    op.Apply? && op.entry.payload.Normal? && op.entry.payload.proposal.ToTopic?
    && op.entry.payload.proposal.code == code
  }

  function ProposalsFor(ops: seq<NodeOp>, code: TopicCode): seq<Proposal> {
    if ops == [] then []
    else (if Concerns(ops[0], code) then [ops[0].entry.payload.proposal.proposal] else []) + ProposalsFor(ops[1..], code)
  }

  function EnvsFor(ops: seq<NodeOp>, code: TopicCode): (envs: seq<Env>)
    ensures |envs| == |ProposalsFor(ops, code)|
  {
    if ops == [] then []
    else (if Concerns(ops[0], code) then [ops[0].env] else []) + EnvsFor(ops[1..], code)
  }

  // The topic stays loaded, and no snapshot is installed.
  predicate KeepsLoaded(ops: seq<NodeOp>, code: TopicCode) {
    forall op :: op in ops ==>
      op.Apply? && !(op.entry.payload.Normal? && op.entry.payload.proposal == UnloadTopic(code))
  }

  // Topics do not interfere: while it is loaded, a topic goes through exactly the run of its own
  // proposals, so what is proved of the runs of a topic holds of each topic of a node.
  lemma {:induction false} TopicRunsAlone(s: StateMachine, ops: seq<NodeOp>, hash: Hashing, code: TopicCode)
    requires code in s.topics && KeepsLoaded(ops, code)
    ensures code in RunNode(s, ops, hash).topics
    ensures RunNode(s, ops, hash).topics[code] == Run(s.topics[code], ProposalsFor(ops, code), EnvsFor(ops, code), hash)
    decreases ops
  {
    if ops != [] {
      assert ops[0] in ops && forall op :: op in ops[1..] ==> op in ops;
      var next := NodeStep(s, ops[0], hash);
      hide Step;
      TopicRunsAlone(next, ops[1..], hash, code);
      if Concerns(ops[0], code) {
        var log, envs := ProposalsFor(ops, code), EnvsFor(ops, code);
        assert log[1..] == ProposalsFor(ops[1..], code) && envs[1..] == EnvsFor(ops[1..], code);
        assert next.topics[code] == Step(s.topics[code], log[0], envs[0], hash);
      } else {
        assert next.topics[code] == s.topics[code];
        assert ProposalsFor(ops, code) == ProposalsFor(ops[1..], code);
        assert EnvsFor(ops, code) == EnvsFor(ops[1..], code);
      }
    }
  }

  // ----- Transparency -----

  ghost predicate AllValid(s: StateMachine) {
    forall code :: code in s.topics ==> s.topics[code].ix.Valid()
  }

  // The same state machine, up to the shape of the tries.
  ghost predicate Alike(a: StateMachine, b: StateMachine) {
    && a.lastApplied == b.lastApplied && a.membership == b.membership
    && a.topics.Keys == b.topics.Keys
    && forall code :: code in a.topics ==> SameButTrie(a.topics[code], b.topics[code])
  }

  lemma LoadIsValid(config: TopicConfig, messages: seq<DurableMessage>)
    ensures FromDurable(config, messages).ix.Valid()
  {
    EmptyIsValid();
  }

  lemma ApplyAlike(a: StateMachine, b: StateMachine, entry: Entry, env: Env, hash: Hashing)
    requires Alike(a, b)
    ensures Alike(ApplyEntry(a, entry, env, hash), ApplyEntry(b, entry, env, hash))
    ensures OpFits(a, Apply(entry, env), hash) <==> OpFits(b, Apply(entry, env), hash)
  {
    hide SameButTrie, Step, Admissible, FromDurable, SortByTime;
    if entry.payload.Normal? {
      match entry.payload.proposal
      case ToTopic(code, p) =>
        if code in a.topics {
          StepSame(a.topics[code], b.topics[code], p, env, hash);
        }
      case LoadTopic(config, messages) => LoadIsSame(config, SortByTime(messages));
      case UnloadTopic(_) =>
    }
  }

  lemma LoadIsSame(config: TopicConfig, messages: seq<DurableMessage>)
    ensures SameButTrie(FromDurable(config, messages), FromDurable(config, messages))
  {
    LoadIsValid(config, messages);
  }

  lemma ReinstalledAlike(a: StateMachine, b: StateMachine)
    requires Alike(a, b)
    ensures Alike(a, Reinstalled(b)) && Alike(Reinstalled(a), b)
  {
    hide Index.Valid, Reinstalled, Rebuilt;
    ReinstalledKeys(a);
    ReinstalledKeys(b);
    forall code | code in a.topics
      ensures SameButTrie(a.topics[code], Reinstalled(b).topics[code])
      ensures SameButTrie(Reinstalled(a).topics[code], b.topics[code])
    {
      ReinstalledOne(a, code);
      ReinstalledOne(b, code);
      RebuiltIsSame(a.topics[code]);
      RebuiltIsSame(b.topics[code]);
    }
  }

  // Snapshot transparency: taking and installing snapshots at any points of a node's life, any number
  // of times, changes nothing but the shape of the tries. In particular the node dispatches the same
  // messages, emits the same ack results and durable commands, and holds the same messages with the
  // same statuses as if there had been no snapshot; and what it may do next is the same.
  lemma {:induction false} SnapshotTransparency(a: StateMachine, b: StateMachine, ops: seq<NodeOp>, hash: Hashing)
    requires Alike(a, b)
    ensures Alike(RunNode(a, ops, hash), RunNode(b, WithoutSnapshots(ops), hash))
    ensures OpsFit(a, ops, hash) <==> OpsFit(b, WithoutSnapshots(ops), hash)
    decreases ops
  {
    hide *;
    RunNodeOne(a, ops, hash);
    if ops == [] {
      RunNodeOne(b, [], hash);
    } else if ops[0].Apply? {
      OneApplied(a, b, ops[0], hash);
      SnapshotTransparency(NodeStep(a, ops[0], hash), NodeStep(b, ops[0], hash), ops[1..], hash);
      RunNodeCons(b, ops[0], WithoutSnapshots(ops[1..]), hash);
    } else {
      OneSnapshot(a, b, ops[0], hash);
      SnapshotTransparency(NodeStep(a, ops[0], hash), b, ops[1..], hash);
      assert [] + WithoutSnapshots(ops[1..]) == WithoutSnapshots(ops[1..]);
    }
  }

  lemma OneApplied(a: StateMachine, b: StateMachine, op: NodeOp, hash: Hashing)
    requires Alike(a, b) && op.Apply?
    ensures Alike(NodeStep(a, op, hash), NodeStep(b, op, hash))
    ensures OpFits(a, op, hash) <==> OpFits(b, op, hash)
  {
    hide Alike, ApplyEntry, OpFits;
    ApplyAlike(a, b, op.entry, op.env, hash);
  }

  lemma OneSnapshot(a: StateMachine, b: StateMachine, op: NodeOp, hash: Hashing)
    requires Alike(a, b) && op.TakeAndInstall?
    ensures Alike(NodeStep(a, op, hash), b) && OpFits(a, op, hash)
  {
    ReinstalledAlike(a, b);
  }

  // So a topic goes through the run of its own proposals with snapshots in between as well, up to the
  // shape of its trie.
  lemma TopicRunsThroughSnapshots(s: StateMachine, ops: seq<NodeOp>, hash: Hashing, code: TopicCode)
    requires AllValid(s) && code in s.topics && KeepsLoaded(WithoutSnapshots(ops), code)
    ensures code in RunNode(s, ops, hash).topics
    ensures var log := WithoutSnapshots(ops);
            SameButTrie(RunNode(s, ops, hash).topics[code],
                        Run(s.topics[code], ProposalsFor(log, code), EnvsFor(log, code), hash))
  {
    hide RunNode, Run, SameButTrie, KeepsLoaded, AllValid, WithoutSnapshots, ProposalsFor, EnvsFor;
    AlikeSelf(s);
    SnapshotTransparency(s, s, ops, hash);
    TopicRunsAlone(s, WithoutSnapshots(ops), hash, code);
  }

  // ----- Agreement of nodes -----

  ghost predicate Agreeing(t: Topic, u: Topic) {
    ViewOf(t) == ViewOf(u) && t.ix.Valid() && u.ix.Valid()
  }

  ghost predicate SameView(a: StateMachine, b: StateMachine) {
    && a.lastApplied == b.lastApplied && a.membership == b.membership
    && a.topics.Keys == b.topics.Keys
    && forall code :: code in a.topics ==> Agreeing(a.topics[code], b.topics[code])
  }

  // The endpoints and expiry times of all the node's topics.
  ghost predicate ScopeHolds(s: Scope, a: StateMachine) {
    forall code :: code in a.topics ==> s.Holds(a.topics[code])
  }

  ghost predicate ScopeCovers(s: Scope, entry: Entry) {
    entry.payload.Normal? ==> ScopeCoversProposal(s, entry.payload.proposal)
  }

  ghost predicate ScopeCoversProposal(s: Scope, p: NodeProposal) {
    match p
    case ToTopic(_, q) => s.Covers(q)
    case LoadTopic(_, messages) => forall m :: m in messages ==> s.Knows(m.message)
    case UnloadTopic(_) => true
  }

  lemma LoadHolds(config: TopicConfig, messages: seq<DurableMessage>, s: Scope)
    requires forall m :: m in messages ==> s.Knows(m.message)
    ensures s.Holds(FromDurable(config, messages))
  {
    var start, sorted := FromDurable(config, messages), SortByTime(messages);
    hide SortByTime;
    forall m | m in MessagesOf(start.queue) ensures s.Knows(m) {
      var i :| 0 <= i < |start.queue| && start.queue[i].message == m;
      assert sorted[i] in multiset(sorted) && multiset(sorted) == multiset(messages);
      assert sorted[i] in messages;
    }
  }

  lemma SortKeepsKnown(messages: seq<DurableMessage>, s: Scope)
    requires forall m :: m in messages ==> s.Knows(m.message)
    ensures forall m :: m in SortByTime(messages) ==> s.Knows(m.message)
  {
    hide Scope.Knows;
    forall m | m in SortByTime(messages) ensures s.Knows(m.message) {
      assert m in multiset(SortByTime(messages));
      assert m in messages;
    }
  }

  lemma SetTopicAgrees(a: StateMachine, b: StateMachine, code: TopicCode, t: Topic, u: Topic, s: Scope)
    requires SameView(a, b) && ScopeHolds(s, a) && Agreeing(t, u) && s.Holds(t)
    ensures SameView(a.(topics := a.topics[code := t]), b.(topics := b.topics[code := u]))
    ensures ScopeHolds(s, a.(topics := a.topics[code := t]))
  {
    hide Agreeing, Scope.Holds;
  }

  lemma ProposalAgrees(a: StateMachine, b: StateMachine, p: NodeProposal, ea: Env, eb: Env, hash: Hashing, s: Scope)
    requires SameView(a, b) && ScopeHolds(s, a) && ScopeCoversProposal(s, p)
    requires Distinct(hash, s.eps) && s.SameSide(ea.now, eb.now)
    requires ProposalFits(a, p, ea, hash) && ProposalFits(b, p, eb, hash)
    ensures var na := a.(topics := ApplyProposal(a.topics, p, ea, hash));
            SameView(na, b.(topics := ApplyProposal(b.topics, p, eb, hash))) && ScopeHolds(s, na)
  {
    hide Agreeing, Step, Scope.Holds, Scope.Covers, FromDurable, SortByTime, Admissible, Scope.SameSide, Distinct,
         Scope.Knows;
    match p
    case ToTopic(code, q) =>
      if code in a.topics {
        TopicAgrees(a.topics[code], b.topics[code], q, ea, eb, hash, s);
        SetTopicAgrees(a, b, code, Step(a.topics[code], q, ea, hash), Step(b.topics[code], q, eb, hash), s);
      }
    case LoadTopic(config, messages) =>
      var t := FromDurable(config, SortByTime(messages));
      LoadAgrees(config, messages, s);
      SetTopicAgrees(a, b, config.code, t, t, s);
    case UnloadTopic(_) =>
  }

  lemma ApplyAgrees(a: StateMachine, b: StateMachine, entry: Entry, ea: Env, eb: Env, hash: Hashing, s: Scope)
    requires SameView(a, b) && ScopeHolds(s, a) && ScopeCovers(s, entry)
    requires Distinct(hash, s.eps) && s.SameSide(ea.now, eb.now)
    requires OpFits(a, Apply(entry, ea), hash) && OpFits(b, Apply(entry, eb), hash)
    ensures SameView(ApplyEntry(a, entry, ea, hash), ApplyEntry(b, entry, eb, hash))
    ensures ScopeHolds(s, ApplyEntry(a, entry, ea, hash))
  {
    hide ApplyProposal, ProposalFits, Agreeing, Scope.Holds, ScopeCoversProposal, Scope.SameSide, Distinct;
    if entry.payload.Normal? {
      ProposalAgrees(a, b, entry.payload.proposal, ea, eb, hash, s);
    }
  }

  lemma TopicAgrees(t: Topic, u: Topic, p: Proposal, ea: Env, eb: Env, hash: Hashing, s: Scope)
    requires Agreeing(t, u) && s.Holds(t) && s.Covers(p)
    requires Distinct(hash, s.eps) && s.SameSide(ea.now, eb.now)
    requires Admissible(t, p, ea, hash) && Admissible(u, p, eb, hash)
    ensures Agreeing(Step(t, p, ea, hash), Step(u, p, eb, hash)) && s.Holds(Step(t, p, ea, hash))
  {
    hide ViewOf, Step, Index.Valid, Scope.Holds, Scope.Covers, Admissible;
    StepAgrees(t, u, p, ea, eb, hash, s);
    StepKeepsValid(t, p, ea, hash);
    StepKeepsValid(u, p, eb, hash);
    StepHolds(t, p, ea, hash, s);
  }

  lemma LoadAgrees(config: TopicConfig, messages: seq<DurableMessage>, s: Scope)
    requires forall m :: m in messages ==> s.Knows(m.message)
    ensures var t := FromDurable(config, SortByTime(messages)); Agreeing(t, t) && s.Holds(t)
  {
    hide ViewOf, Index.Valid, Scope.Holds, FromDurable, SortByTime;
    LoadIsValid(config, SortByTime(messages));
    SortKeepsKnown(messages, s);
    LoadHolds(config, SortByTime(messages), s);
  }

  // Two lives of which one applies the same entries as the other, each on its own node.
  ghost predicate SameLog(a: seq<NodeOp>, b: seq<NodeOp>, hash: Hashing, s: Scope) {
    && |a| == |b| && Distinct(hash, s.eps)
    && forall i :: 0 <= i < |a| ==>
                     && a[i].Apply? && b[i].Apply? && a[i].entry == b[i].entry
                     && ScopeCovers(s, a[i].entry) && s.SameSide(a[i].env.now, b[i].env.now)
  }

  lemma SameLogTail(a: seq<NodeOp>, b: seq<NodeOp>, hash: Hashing, s: Scope)
    requires SameLog(a, b, hash, s) && a != []
    ensures b != [] && a[0].Apply? && b[0].Apply? && a[0].entry == b[0].entry
    ensures ScopeCovers(s, a[0].entry) && s.SameSide(a[0].env.now, b[0].env.now) && Distinct(hash, s.eps)
    ensures SameLog(a[1..], b[1..], hash, s)
  {
    hide ScopeCovers, Scope.SameSide, Distinct;
  }

  lemma {:induction false} LogsAgree(a: StateMachine, b: StateMachine, opsA: seq<NodeOp>, opsB: seq<NodeOp>,
                                     hash: Hashing, s: Scope)
    requires SameLog(opsA, opsB, hash, s)
    requires SameView(a, b) && ScopeHolds(s, a)
    requires OpsFit(a, opsA, hash) && OpsFit(b, opsB, hash)
    ensures SameView(RunNode(a, opsA, hash), RunNode(b, opsB, hash))
    decreases opsA
  {
    RunNodeOne(a, opsA, hash);
    RunNodeOne(b, opsB, hash);
    if opsA != [] {
      SameLogTail(opsA, opsB, hash, s);
      var na, nb := NodeStep(a, opsA[0], hash), NodeStep(b, opsB[0], hash);
      assert na == ApplyEntry(a, opsA[0].entry, opsA[0].env, hash);
      assert nb == ApplyEntry(b, opsB[0].entry, opsB[0].env, hash);
      hide *;
      ApplyAgrees(a, b, opsA[0].entry, opsA[0].env, opsB[0].env, hash, s);
      LogsAgree(na, nb, opsA[1..], opsB[1..], hash, s);
    } else {
      assert opsB == [];
    }
  }

  lemma AlikeView(a: StateMachine, b: StateMachine)
    requires Alike(a, b)
    ensures SameView(a, b)
  {
  }

  lemma ViewChain(a: StateMachine, b: StateMachine, c: StateMachine)
    requires SameView(a, b) && SameView(b, c)
    ensures SameView(a, c)
  {
    hide ViewOf, Index.Valid;
  }

  lemma AlikeSymmetric(a: StateMachine, b: StateMachine)
    requires Alike(a, b)
    ensures Alike(b, a)
  {
  }

  lemma AlikeSelf(a: StateMachine)
    requires AllValid(a)
    ensures Alike(a, a)
  {
  }

  lemma ViewIsValid(a: StateMachine, b: StateMachine)
    requires SameView(a, b)
    ensures AllValid(a) && AllValid(b)
  {
  }

  // Agreement of nodes: two nodes that applied the same log, each in its own environment and with
  // snapshots of its own whenever it liked, have the same topics with the same views.
  lemma NodeAgreement(a: StateMachine, b: StateMachine, opsA: seq<NodeOp>, opsB: seq<NodeOp>, hash: Hashing, s: Scope)
    requires SameLog(WithoutSnapshots(opsA), WithoutSnapshots(opsB), hash, s)
    requires SameView(a, b) && ScopeHolds(s, a)
    requires OpsFit(a, opsA, hash) && OpsFit(b, opsB, hash)
    ensures SameView(RunNode(a, opsA, hash), RunNode(b, opsB, hash))
  {
    hide *;
    var logA, logB := WithoutSnapshots(opsA), WithoutSnapshots(opsB);
    ViewIsValid(a, b);
    AlikeSelf(a);
    AlikeSelf(b);
    SnapshotTransparency(a, a, opsA, hash);
    SnapshotTransparency(b, b, opsB, hash);
    LogsAgree(a, b, logA, logB, hash, s);
    AlikeView(RunNode(a, opsA, hash), RunNode(a, logA, hash));
    AlikeSymmetric(RunNode(b, opsB, hash), RunNode(b, logB, hash));
    AlikeView(RunNode(b, logB, hash), RunNode(b, opsB, hash));
    ViewChain(RunNode(a, opsA, hash), RunNode(a, logA, hash), RunNode(b, logB, hash));
    ViewChain(RunNode(a, opsA, hash), RunNode(b, logB, hash), RunNode(b, opsB, hash));
  }
}
