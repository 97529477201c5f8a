// What becomes of the messages that come to a node for one topic, while the topic is loaded and unloaded.

module Fates {
  import opened Messages
  import opened Lists
  import opened Topics
  import opened Ledger
  import opened Snapshots
  import opened Nodes

  // The ids that came, by being delegated or by being loaded with the topic, and what became of them:
  // delegated while the topic was not loaded, answered, held when it was unloaded, held now.
  datatype Fate = Fate(came: seq<MessageId>, missed: seq<MessageId>, answered: seq<MessageId>,
                       lost: seq<MessageId>, held: seq<MessageId>)

  function Answered(t: Topic): seq<MessageId> {
    Left(t) + Refused(t)
  }

  function FateNow(s: StateMachine, code: TopicCode): Fate {
    if code in s.topics then Fate([], [], Answered(s.topics[code]), [], Ids(s.topics[code].queue))
    else Fate([], [], [], [], [])
  }

  function Proposed(op: NodeOp): Option<NodeProposal> {
    if op.Apply? && op.entry.payload.Normal? then Some(op.entry.payload.proposal) else None
  }

  // What one operation adds to the fate.
  ghost function Adds(s: StateMachine, op: NodeOp, code: TopicCode): Fate {
    match Proposed(op)
    case Some(ToTopic(c, p)) =>
      if c != code then Fate([], [], [], [], [])
      else Fate(DelegatedOf(p), if code in s.topics then [] else DelegatedOf(p), [], [], [])
    case Some(LoadTopic(config, messages)) =>
      if config.code == code && code !in s.topics
      then Fate(Ids(FromDurable(config, SortByTime(messages)).queue), [], [], [], [])
      else Fate([], [], [], [], [])
    case Some(UnloadTopic(c)) =>
      if c == code && code in s.topics
      then Fate([], [], Answered(s.topics[code]), Ids(s.topics[code].queue), [])
      else Fate([], [], [], [], [])
    case None => Fate([], [], [], [], [])
  }

  function Both(a: Fate, b: Fate): Fate {
    Fate(a.came + b.came, a.missed + b.missed, a.answered + b.answered, a.lost + b.lost, a.held + b.held)
  }

  ghost function FateOf(s: StateMachine, ops: seq<NodeOp>, hash: Hashing, code: TopicCode): Fate
    decreases ops
  {
    if ops == [] then FateNow(s, code)
    else Both(Adds(s, ops[0], code), FateOf(NodeStep(s, ops[0], hash), ops[1..], hash, code))
  }

  // Nothing is lost sight of, or counted twice.
  ghost predicate AddsUp(f: Fate, before: seq<MessageId>) {
    multiset(before) + multiset(f.came) == multiset(f.missed) + multiset(f.answered) + multiset(f.lost) + multiset(f.held)
  }

  // What the topic, if it is loaded, has to account for.
  ghost predicate Owes(s: StateMachine, code: TopicCode, loaded: seq<MessageId>, delegated: seq<MessageId>) {
    if code in s.topics then Accounted(s.topics[code], loaded, delegated) else loaded == delegated == []
  }

  lemma NowAddsUp(s: StateMachine, code: TopicCode, loaded: seq<MessageId>, delegated: seq<MessageId>)
    requires Owes(s, code, loaded, delegated)
    ensures AddsUp(FateNow(s, code), loaded + delegated)
  {
    hide Left, Refused, Ids, InOrder, HeadOnly, Bounded;
    if code in s.topics {
      ConservationSum(s.topics[code], loaded, delegated);
    }
  }

  lemma RebuiltAccounted(t: Topic, loaded: seq<MessageId>, delegated: seq<MessageId>)
    requires Accounted(t, loaded, delegated)
    ensures Accounted(Rebuilt(t), loaded, delegated)
  {
  }

  // The topic after one operation, if it neither appears nor goes.
  lemma StaysOwing(s: StateMachine, op: NodeOp, hash: Hashing, code: TopicCode,
                   loaded: seq<MessageId>, delegated: seq<MessageId>)
    requires Owes(s, code, loaded, delegated)
    requires code in s.topics && code in NodeStep(s, op, hash).topics
    ensures Owes(NodeStep(s, op, hash), code, loaded, delegated + Adds(s, op, code).came)
    ensures Adds(s, op, code) == Fate(Adds(s, op, code).came, [], [], [], [])
  {
    hide Accounted, Step, FromDurable, SortByTime, Reinstalled, Rebuilt;
    assert delegated + [] == delegated;
    if op.TakeAndInstall? {
      ReinstalledOne(s, code);
      RebuiltAccounted(s.topics[code], loaded, delegated);
    } else if Concerns(op, code) {
      StepKeeps(s.topics[code], op.entry.payload.proposal.proposal, op.env, hash, loaded, delegated);
    }
  }

  lemma Appears(s: StateMachine, op: NodeOp, hash: Hashing, code: TopicCode)
    requires code !in s.topics && code in NodeStep(s, op, hash).topics
    ensures var f := Adds(s, op, code); Owes(NodeStep(s, op, hash), code, f.came, []) && f == Fate(f.came, [], [], [], [])
  {
    hide Accounted, Step, FromDurable, SortByTime, Reinstalled;
    if op.TakeAndInstall? {
      ReinstalledKeys(s);
    } else if Proposed(op).Some? && Proposed(op).value.LoadTopic? {
      LoadedIsAccounted(op.entry.payload.proposal.config, SortByTime(op.entry.payload.proposal.messages));
    }
  }

  lemma StaysAbsent(s: StateMachine, op: NodeOp, hash: Hashing, code: TopicCode)
    requires code !in s.topics && code !in NodeStep(s, op, hash).topics
    ensures var f := Adds(s, op, code); f == Fate(f.came, f.came, [], [], [])
  {
    hide Step, FromDurable, SortByTime;
  }

  lemma Goes(s: StateMachine, op: NodeOp, hash: Hashing, code: TopicCode)
    requires code in s.topics && code !in NodeStep(s, op, hash).topics
    ensures Adds(s, op, code) == Fate([], [], FateNow(s, code).answered, FateNow(s, code).held, [])
  {
    hide Step, FromDurable, SortByTime, Reinstalled;
    if op.TakeAndInstall? {
      ReinstalledKeys(s);
    }
  }

  lemma FateOne(s: StateMachine, ops: seq<NodeOp>, hash: Hashing, code: TopicCode)
    ensures ops == [] ==> FateOf(s, ops, hash, code) == FateNow(s, code)
    ensures ops != [] ==>
              FateOf(s, ops, hash, code) ==
              Both(Adds(s, ops[0], code), FateOf(NodeStep(s, ops[0], hash), ops[1..], hash, code))
  {
    hide NodeStep, Adds;
  }

  // `more` came and is owed from now on.
  lemma MoreAddsUp(before: seq<MessageId>, more: seq<MessageId>, f: Fate)
    requires AddsUp(f, before + more)
    ensures AddsUp(Both(Fate(more, [], [], [], []), f), before)
  {
    assert multiset(before + more) == multiset(before) + multiset(more);
    assert multiset(more + f.came) == multiset(more) + multiset(f.came);
    NothingMore(f);
  }

  lemma NothingMore(f: Fate)
    ensures Both(Fate([], [], [], [], []), f) == f
    ensures [] + f.missed == f.missed && [] + f.answered == f.answered && [] + f.lost == f.lost && [] + f.held == f.held
  {
  }

  lemma MissedAddsUp(more: seq<MessageId>, f: Fate)
    requires AddsUp(f, [])
    ensures AddsUp(Both(Fate(more, more, [], [], []), f), [])
  {
    assert multiset(more + f.came) == multiset(more) + multiset(f.came);
    assert multiset(more + f.missed) == multiset(more) + multiset(f.missed);
    NothingMore(f);
  }

  lemma GoneAddsUp(before: seq<MessageId>, answered: seq<MessageId>, lost: seq<MessageId>, f: Fate)
    requires AddsUp(f, []) && multiset(before) == multiset(answered) + multiset(lost)
    ensures AddsUp(Both(Fate([], [], answered, lost, []), f), before)
  {
    assert multiset(answered + f.answered) == multiset(answered) + multiset(f.answered);
    assert multiset(lost + f.lost) == multiset(lost) + multiset(f.lost);
    assert [] + f.came == f.came && [] + f.missed == f.missed && [] + f.held == f.held;
  }

  lemma {:induction false} FateAddsUp(s: StateMachine, ops: seq<NodeOp>, hash: Hashing, code: TopicCode,
                                      loaded: seq<MessageId>, delegated: seq<MessageId>)
    requires Owes(s, code, loaded, delegated)
    ensures AddsUp(FateOf(s, ops, hash, code), loaded + delegated)
    decreases ops
  {
    hide AddsUp, Both, Adds, FateOf, NodeStep, Accounted, Ids, Left, Refused, Answered;
    FateOne(s, ops, hash, code);
    NowAddsUp(s, code, loaded, delegated);
    if ops != [] {
      var op, next := ops[0], NodeStep(s, ops[0], hash);
      var f, rest := Adds(s, op, code), FateOf(next, ops[1..], hash, code);
      var none: seq<MessageId> := [];
      assert none + none == none && f.came + none == none + f.came;
      assert code !in s.topics ==> loaded + delegated == none;
      if code in s.topics && code in next.topics {
        StaysOwing(s, op, hash, code, loaded, delegated);
        FateAddsUp(next, ops[1..], hash, code, loaded, delegated + f.came);
        Assoc(loaded, delegated, f.came);
        MoreAddsUp(loaded + delegated, f.came, rest);
      } else if code in next.topics {
        Appears(s, op, hash, code);
        FateAddsUp(next, ops[1..], hash, code, f.came, []);
        MoreAddsUp(none, f.came, rest);
      } else {
        FateAddsUp(next, ops[1..], hash, code, [], []);
        if code in s.topics {
          Goes(s, op, hash, code);
          AllGone(s, code, loaded + delegated);
          GoneAddsUp(loaded + delegated, f.answered, f.lost, rest);
        } else {
          StaysAbsent(s, op, hash, code);
          MissedAddsUp(f.came, rest);
        }
      }
    }
  }

  lemma AllGone(s: StateMachine, code: TopicCode, before: seq<MessageId>)
    requires code in s.topics && AddsUp(FateNow(s, code), before)
    ensures multiset(before) == multiset(FateNow(s, code).answered) + multiset(FateNow(s, code).held)
  {
    hide Answered, Ids;
    OnlyTwo(FateNow(s, code), before);
  }

  lemma OnlyTwo(f: Fate, before: seq<MessageId>)
    requires AddsUp(f, before) && f.came == f.missed == f.lost == []
    ensures multiset(before) == multiset(f.answered) + multiset(f.held)
  {
    assert multiset(f.came) == multiset(f.missed) == multiset(f.lost) == multiset{};
    assert multiset(before) + multiset{} == multiset(before);
    assert multiset{} + multiset(f.answered) + multiset{} + multiset(f.held) == multiset(f.answered) + multiset(f.held);
  }

  // Conservation on a node, over any log and with snapshots at any points, with ids that are not used
  // twice for the topic: of every message that came for it, exactly one is true. It is held by the
  // loaded topic; it was answered, exactly once; it was held when the topic was unloaded; it was
  // delegated while the topic was not loaded. So it is neither held nor answered exactly in the last two.
  lemma NodeConservation(s: StateMachine, ops: seq<NodeOp>, hash: Hashing, code: TopicCode, id: MessageId)
    requires code !in s.topics && NoRepeats(FateOf(s, ops, hash, code).came) && id in FateOf(s, ops, hash, code).came
    ensures var f, last := FateOf(s, ops, hash, code), RunNode(s, ops, hash);
            && f.held == (if code in last.topics then Ids(last.topics[code].queue) else [])
            && NoRepeats(f.answered) && NoRepeats(f.held)
            && (id in f.held ==> id !in f.answered)
            && (id !in f.held && id !in f.answered <==> id in f.lost || id in f.missed)
            && !(id in f.lost && id in f.missed)
  {
    hide FateOf, Ids, NoRepeats, RunNode;
    FateAddsUp(s, ops, hash, code, [], []);
    HeldAtLast(s, ops, hash, code);
    var f := FateOf(s, ops, hash, code);
    NoRepeatsCount(f.came);
    NoRepeatsCount(f.answered);
    NoRepeatsCount(f.held);
    forall x ensures multiset(f.came)[x] ==
                     multiset(f.missed)[x] + multiset(f.answered)[x] + multiset(f.lost)[x] + multiset(f.held)[x] {
      assert (multiset([] + []) + multiset(f.came))[x] == multiset(f.came)[x];
    }
    Counts(f, id);
  }

  lemma Counts(f: Fate, id: MessageId)
    ensures id in f.came <==> multiset(f.came)[id] > 0
    ensures id in f.missed <==> multiset(f.missed)[id] > 0
    ensures id in f.answered <==> multiset(f.answered)[id] > 0
    ensures id in f.lost <==> multiset(f.lost)[id] > 0
    ensures id in f.held <==> multiset(f.held)[id] > 0
  {
  }

  lemma {:induction false} HeldAtLast(s: StateMachine, ops: seq<NodeOp>, hash: Hashing, code: TopicCode)
    ensures FateOf(s, ops, hash, code).held == FateNow(RunNode(s, ops, hash), code).held
    decreases ops
  {
    hide NodeStep, FateOf, RunNode, FateNow;
    FateOne(s, ops, hash, code);
    RunNodeOne(s, ops, hash);
    if ops != [] {
      HeldAtLast(NodeStep(s, ops[0], hash), ops[1..], hash, code);
      var rest := FateOf(NodeStep(s, ops[0], hash), ops[1..], hash, code);
      assert Adds(s, ops[0], code).held == [] && [] + rest.held == rest.held;
    }
  }
}
