/** The snapshot stack over whole runs. */
module Snapshots {
  import opened Filters
  import opened NodeModel
  import opened Runs

  ghost predicate KeepsAll(ops: seq<Op>, floor: nat) {
    forall op :: op in ops ==> Keeps(op, floor)
  }

  /** Operations that keep the history up to `floor` leave the lower part of the stack, and the fork,
      as they were. */
  lemma {:induction false} LowerStackIsUntouched(sys: Sys, ops: seq<Op>, floor: nat)
    requires floor <= |sys.snapshots| && KeepsAll(ops, floor) && Run(sys, ops).Some?
    ensures var sys' := Run(sys, ops).value;
            && floor <= |sys'.snapshots|
            && sys'.snapshots[..floor] == sys.snapshots[..floor]
            && sys'.node.store.contents.fork == sys.node.store.contents.fork
    decreases |ops|
  {
    if ops != [] {
      var op := ops[0];
      assert op in ops;
      var sys1 := Step(sys, op).sys;
      StepKeepsFork(sys, op);
      assert sys1.snapshots[..floor] == sys.snapshots[..floor];
      LowerStackIsUntouched(sys1, ops[1..], floor);
    }
  }

  /** Reverting to a snapshot undoes everything since it was taken: after any operations that do not
      themselves go back past it, the node and the whole stack are as they were just before, so the
      id is free again and lower ids still work. */
  lemma RevertRestoresEverything(sys: Sys, ops: seq<Op>)
    requires |sys.snapshots| < MAX_SNAPSHOTS
    requires KeepsAll(ops, |sys.snapshots| + 1)
    requires Run(Step(sys, EvmSnapshot).sys, ops).Some?
    ensures var id := |sys.snapshots| + 1;
            && Step(sys, EvmSnapshot).reply == Reply.Number(id)
            && Step(Run(Step(sys, EvmSnapshot).sys, ops).value, EvmRevert(id)) == Done(sys, Accepted)
  {
    var floor := |sys.snapshots| + 1;
    var taken := Step(sys, EvmSnapshot).sys;
    var later := Run(taken, ops).value;
    LowerStackIsUntouched(taken, ops, floor);
    assert taken.snapshots[..floor] == taken.snapshots;
    assert later.snapshots[floor - 1] == later.snapshots[..floor][floor - 1] == TakeSnapshot(sys.node);
    assert later.snapshots[..floor - 1] == later.snapshots[..floor][..floor - 1] == sys.snapshots;
  }

  /** What a revert does to filters: they are those of the snapshot again, counter and waiting items
      included. So the first id issued after the revert is the first one issued after the snapshot, for
      whatever filter, and a poll delivers again what a poll right after the snapshot delivered. */
  lemma RevertReissuesAndRedelivers(sys: Sys, ops: seq<Op>, first: Filter, again: Filter, id: nat)
    requires |sys.snapshots| < MAX_SNAPSHOTS && KeepsAll(ops, |sys.snapshots| + 1)
    requires Run(Step(sys, EvmSnapshot).sys, ops).Some?
    ensures var taken := Step(sys, EvmSnapshot).sys;
            var reverted := Step(Run(taken, ops).value, EvmRevert(|sys.snapshots| + 1)).sys;
            && reverted.node.filters == sys.node.filters
            && Step(reverted, NewFilter(again)).reply == Step(taken, NewFilter(first)).reply
            && Step(reverted, FilterChanges(id)).reply == Step(taken, FilterChanges(id)).reply
  {
    RevertRestoresEverything(sys, ops);
  }

  /** A revert succeeds exactly for the ids in use (and, by saturation, id 0 as if it were 1); it drops
      that snapshot and all later ones and keeps the earlier ones. */
  lemma RevertDropsLater(sys: Sys, id: nat)
    ensures Step(sys, EvmRevert(id)).reply == Accepted <==> sys.snapshots != [] && id <= |sys.snapshots|
    ensures Step(sys, EvmRevert(id)).reply == Accepted ==>
              && RevertIndex(id) < |sys.snapshots|
              && Step(sys, EvmRevert(id)).sys.snapshots == sys.snapshots[..RevertIndex(id)]
              && TakeSnapshot(Step(sys, EvmRevert(id)).sys.node) == sys.snapshots[RevertIndex(id)]
    ensures Step(sys, EvmRevert(id)).reply != Accepted ==> Step(sys, EvmRevert(id)) == Done(sys, Refused)
    ensures Step(sys, EvmRevert(0)) == Step(sys, EvmRevert(1))
  {
  }

  /** The stack never exceeds its limit, and at the limit no snapshot is taken. */
  lemma {:induction false} StackIsBounded(sys: Sys, ops: seq<Op>)
    requires |sys.snapshots| <= MAX_SNAPSHOTS && Run(sys, ops).Some?
    ensures |Run(sys, ops).value.snapshots| <= MAX_SNAPSHOTS
    decreases |ops|
  {
    if ops != [] {
      if !ops[0].Reset? {
        StepKeepsFork(sys, ops[0]);
      }
      StackIsBounded(Step(sys, ops[0]).sys, ops[1..]);
    }
  }
}
