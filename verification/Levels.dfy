// The order of statuses, and what it means for a status to reach a level.

module Levels {
  import opened Messages

  // How far a status has got. The two failures come after everything else.
  function Rank(kind: StatusKind): nat {
    match kind
    case Unsent => 0
    case Sending => 1
    case Sent => 2
    case Received => 3
    case Processed => 4
    case Failed => 5
    case Unreachable => 5
  }

  // How far a level asks a message to get.
  function LevelRank(level: AckExpect): nat {
    match level
    case ExpectSent => 2
    case ExpectReceived => 3
    case ExpectProcessed => 4
  }

  predicate HasFailed(kind: StatusKind) {
    kind == Failed || kind == Unreachable
  }

  // The level or a later stage, and no failure.
  predicate AtLevel(kind: StatusKind, level: AckExpect) {
    !HasFailed(kind) && LevelRank(level) <= Rank(kind)
  }

  predicate Over(kind: StatusKind, level: AckExpect) {
    HasFailed(kind) || AtLevel(kind, level)
  }

  // The table of the code is this order.
  lemma ReachedIsAtLevel(kind: StatusKind, level: AckExpect)
    ensures kind.IsReached(level) <==> AtLevel(kind, level)
    ensures kind.IsFailed() <==> HasFailed(kind)
    ensures kind.IsResolved(level) <==> Over(kind, level)
  {
  }

  lemma AllLevels()
    ensures forall kind: StatusKind, level :: kind.IsReached(level) <==> AtLevel(kind, level)
    ensures forall kind: StatusKind :: kind.IsFailed() <==> HasFailed(kind)
    ensures forall kind: StatusKind, level :: kind.IsResolved(level) <==> Over(kind, level)
  {
    forall kind: StatusKind, level: AckExpect
      ensures kind.IsReached(level) <==> AtLevel(kind, level)
      ensures kind.IsFailed() <==> HasFailed(kind)
      ensures kind.IsResolved(level) <==> Over(kind, level)
    {
      ReachedIsAtLevel(kind, level);
    }
  }

  // What replicas share of a status: all of it, but for whether an unsent message is being sent.
  lemma NormIff(a: StatusKind, b: StatusKind)
    ensures a.Norm() == b.Norm() <==> a == b || ((a.Unsent? || a.Sending?) && (b.Unsent? || b.Sending?))
  {
  }
}
