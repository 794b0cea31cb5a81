/** Records of what calls did, kept beside the node: what a snapshot saves a revert brings back. */
module Ledgers {
  import opened NodeModel
  import opened Runs

  /** What is recorded now, and what was recorded at each snapshot still on the stack. */
  datatype Ledger<T> = Ledger(now: T, saved: seq<T>)

  /** A snapshot saves the record, a revert brings a saved one back, a reset starts anew, and any other
      call moves on to the next record. */
  function Turn<T>(sys: Sys, op: Op, l: Ledger<T>, next: T, anew: T): Ledger<T> {
    match op
    case EvmSnapshot => if |sys.snapshots| < 100 then l.(saved := l.saved + [l.now]) else l
    case EvmRevert(id) =>
      var i := RevertIndex(id) - (|sys.snapshots| - |l.saved|);
      if 0 <= i < |l.saved| then Ledger(l.saved[i], l.saved[..i]) else l
    case Reset(_, _, _) => Ledger(anew, [])
    case _ => l.(now := next)
  }

  /** The record is right about the node, and the saved ones about the snapshots from `floor` up. */
  ghost predicate Kept<T>(p: (Node, T) -> bool, sys: Sys, floor: nat, l: Ledger<T>) {
    && p(sys.node, l.now)
    && |sys.snapshots| == floor + |l.saved|
    && forall i :: 0 <= i < |l.saved| ==> p(RestoreSnapshot(sys.node, sys.snapshots[floor + i]), l.saved[i])
  }

  predicate IsOrdinary(op: Op) {
    !op.EvmSnapshot? && !op.EvmRevert? && !op.Reset?
  }

  /** To keep a ledger it is enough to keep it on ordinary calls. */
  lemma TurnKeeps<T>(p: (Node, T) -> bool, sys: Sys, op: Op, floor: nat, l: Ledger<T>, next: T, anew: T)
    requires Kept(p, sys, floor, l) && Step(sys, op).Done?
    requires op.EvmRevert? ==> RevertIndex(op.id) >= floor
    requires op.Reset? ==> floor == 0 && p(Step(sys, op).sys.node, anew)
    requires IsOrdinary(op) ==> p(Step(sys, op).sys.node, next)
    ensures Kept(p, Step(sys, op).sys, floor, Turn(sys, op, l, next, anew))
  {
    if !op.Reset? {
      StepKeepsFork(sys, op);
      RestoreTaken(sys.node);
    }
  }
}
