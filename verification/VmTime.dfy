/** The time the VM sees never goes back, whatever is done to the node's clock. */
module VmTime {
  import opened Base
  import opened Views
  import opened NodeModel
  import opened Coupling
  import opened Runs
  import opened Snapshots

  /* ---------- the batches of one call ---------- */

  /** The times the VM is told for the batches of a mining call, one per block. */
  function MineTimes(n: Node, first: bool, interval: U64, scripts: seq<seq<Access>>): seq<nat>
    decreases |scripts|
  {
    if scripts == [] then []
    else
      [EnvOf(NextContext(n)).timestamp]
      + MineTimes(MineOne(n, first, interval, scripts[0]), false, interval, scripts[1..])
  }

  /** The times of all batches whose results a call keeps, in order. */
  function BatchTimes(sys: Sys, op: Op): seq<nat> {
    match op
    case SendTx(_, _) => if Commits(sys.node, op) then [EnvOf(NextContext(sys.node)).timestamp] else []
    case MineBlocks(interval, scripts) => MineTimes(sys.node, true, interval, scripts)
    case _ => []
  }

  /** Strictly increasing, and all above `low`. */
  predicate Ascends(times: seq<nat>, low: nat) {
    && (forall i :: 0 <= i < |times| ==> low < times[i])
    && (forall i, j :: 0 <= i < j < |times| ==> times[i] < times[j])
  }

  lemma AscendsCons(time: nat, times: seq<nat>, low: nat)
    requires low < time && Ascends(times, time)
    ensures Ascends([time] + times, low)
  {
  }

  /** Storage remembers a batch at `time` or later. */
  predicate Remembers(n: Node, time: nat) {
    StoredBatch(n.store.contents).Some? && StoredBatch(n.store.contents).value.timestamp >= time
  }

  ghost predicate RemembersAll(n: Node, times: seq<nat>) {
    forall t :: t in times ==> Remembers(n, t)
  }

  lemma MineOneRemembers(n: Node, first: bool, interval: U64, script: seq<Access>)
    requires Good(n) && HasRoom(n) && EmptyContract(n, script)
    requires first || n.timestamp + interval <= U64_MAX
    ensures EnvOf(NextContext(n)).timestamp == LatestTime(n) + 1
    ensures var n' := MineOne(n, first, interval, script);
            Remembers(n', LatestTime(n) + 1) && LatestTime(n') >= LatestTime(n) + 1
  {
    NextContextAgrees(n);
    MineOneCouples(n, first, interval, script);
  }

  lemma {:induction false} MineRemembers(n: Node, first: bool, interval: U64, scripts: seq<seq<Access>>, time: nat)
    requires Good(n) && MineOk(n, first, interval, scripts) && Remembers(n, time)
    ensures Remembers(Mine(n, first, interval, scripts), time)
    decreases |scripts|
  {
    if scripts != [] {
      MineOneRemembers(n, first, interval, scripts[0]);
      MineOneIsGood(n, first, interval, scripts[0]);
      MineRemembers(MineOne(n, first, interval, scripts[0]), false, interval, scripts[1..], time);
    }
  }

  /** The batches of a mining call get strictly increasing times, at interval zero too, where the node's
      own clock stands still. */
  lemma {:induction false} MineTimesAscend(n: Node, first: bool, interval: U64, scripts: seq<seq<Access>>)
    requires Good(n) && MineOk(n, first, interval, scripts)
    ensures Ascends(MineTimes(n, first, interval, scripts), LatestTime(n))
    ensures RemembersAll(Mine(n, first, interval, scripts), MineTimes(n, first, interval, scripts))
    decreases |scripts|
  {
    if scripts != [] {
      var n' := MineOne(n, first, interval, scripts[0]);
      var rest := MineTimes(n', false, interval, scripts[1..]);
      MineOneRemembers(n, first, interval, scripts[0]);
      MineOneIsGood(n, first, interval, scripts[0]);
      MineTimesAscend(n', false, interval, scripts[1..]);
      MineRemembers(n', false, interval, scripts[1..], LatestTime(n) + 1);
      AscendsCons(LatestTime(n) + 1, rest, LatestTime(n));
    }
  }

  /** Within one call the batches get strictly increasing times, all later than anything the node or its
      storage knew. */
  lemma BatchTimesAscend(sys: Sys, op: Op)
    requires Good(sys.node) && Admissible(sys, op)
    ensures Ascends(BatchTimes(sys, op), LatestTime(sys.node))
  {
    if Commits(sys.node, op) {
      NextContextAgrees(sys.node);
    } else if op.MineBlocks? {
      MineTimesAscend(sys.node, true, op.interval, op.scripts);
    }
  }

  /** Every batch leaves its own time or a later one in storage. */
  lemma BatchesAreRemembered(sys: Sys, op: Op)
    requires Good(sys.node) && Admissible(sys, op) && Step(sys, op).Done?
    ensures RemembersAll(Step(sys, op).sys.node, BatchTimes(sys, op))
  {
    if Commits(sys.node, op) {
      CommitCouples(sys.node, op.tx, op.run);
      CommitCounters(sys.node, op.tx, op.run);
    } else if op.MineBlocks? {
      MineTimesAscend(sys.node, true, op.interval, op.scripts);
    }
  }

  /* ---------- over whole histories ---------- */

  lemma SendTxRemembers(sys: Sys, tx: Tx, run: VmRun, time: nat)
    requires Good(sys.node) && Remembers(sys.node, time)
    requires Admissible(sys, SendTx(tx, run)) && SendTxStep(sys, tx, run).Done?
    ensures Remembers(SendTxStep(sys, tx, run).sys.node, time)
  {
    if Commits(sys.node, SendTx(tx, run)) {
      CommitCouples(sys.node, tx, run);
      PanicIffOutOfStep(sys.node, tx, run);
    } else {
      UncommittedIsAside(sys, tx, run);
    }
  }

  /** No later operation of the same history forgets a time. */
  lemma StepRemembers(sys: Sys, op: Op, time: nat)
    requires Good(sys.node) && Remembers(sys.node, time)
    requires Admissible(sys, op) && Step(sys, op).Done? && !op.EvmRevert? && !op.Reset?
    ensures Remembers(Step(sys, op).sys.node, time)
  {
    match op
    case SendTx(tx, run) => SendTxRemembers(sys, tx, run, time);
    case MineBlocks(interval, scripts) => MineRemembers(sys.node, true, interval, scripts, time);
    case EvmSnapshot =>
    case _ => LocalIsAside(sys.node, op);
  }

  lemma {:induction false} RunRemembers(sys: Sys, ops: seq<Op>, floor: nat, time: nat)
    requires GoodSys(sys) && Everywhere(n => Remembers(n, time), sys, floor)
    requires AdmissibleRun(sys, ops) && KeepsAll(ops, floor) && Run(sys, ops).Some?
    ensures GoodSys(Run(sys, ops).value) && Remembers(Run(sys, ops).value.node, time)
    decreases |ops|
  {
    if ops != [] {
      var op := ops[0];
      assert op in ops;
      StepKeepsGoodSys(sys, op);
      if !op.EvmRevert? {
        StepRemembers(sys, op, time);
      }
      Lift(n => Remembers(n, time), sys, op, floor);
      RunRemembers(Step(sys, op).sys, ops[1..], floor, time);
    }
  }

  lemma TimeIsLeft(sys: Sys, op: Op, time: nat, next: Sys)
    requires GoodSys(sys) && Admissible(sys, op) && Step(sys, op).Done? && Step(sys, op).sys == next
    requires time in BatchTimes(sys, op)
    ensures GoodSys(next) && Remembers(next.node, time) && next.snapshots == sys.snapshots
  {
    BatchesAreRemembered(sys, op);
    StepKeepsGoodSys(sys, op);
  }

  lemma TimeStaysRemembered(next: Sys, ops: seq<Op>, time: nat, later: Sys)
    requires GoodSys(next) && Remembers(next.node, time)
    requires AdmissibleRun(next, ops) && KeepsAll(ops, |next.snapshots|) && Run(next, ops) == Some(later)
    ensures Good(later.node) && Remembers(later.node, time) && LatestTime(later.node) >= time
  {
    RunRemembers(next, ops, |next.snapshots|, time);
  }

  /** Every batch of a call gets a strictly later time than every batch of an earlier call of the same
      history, whichever batches of their calls they are, even after the node's clock was set into the
      past. A context that is merely prepared later is later too, until the clock saturates. */
  lemma VmTimeNeverGoesBack(sys: Sys, op: Op, ops: seq<Op>, next: Op)
    requires GoodSys(sys) && Admissible(sys, op) && Step(sys, op).Done?
    requires AdmissibleRun(Step(sys, op).sys, ops) && KeepsAll(ops, |sys.snapshots|)
    requires Run(Step(sys, op).sys, ops).Some?
    requires Admissible(Run(Step(sys, op).sys, ops).value, next)
    ensures var later := Run(Step(sys, op).sys, ops).value;
            && (forall t1, t2 :: t1 in BatchTimes(sys, op) && t2 in BatchTimes(later, next) ==> t1 < t2)
            && (forall t1 :: t1 in BatchTimes(sys, op) ==>
                  NextContext(later.node).timestamp > t1 || NextContext(later.node).timestamp == U64_MAX)
  {
    var later := Run(Step(sys, op).sys, ops).value;
    forall t1 | t1 in BatchTimes(sys, op)
      ensures forall t2 :: t2 in BatchTimes(later, next) ==> t1 < t2
      ensures NextContext(later.node).timestamp > t1 || NextContext(later.node).timestamp == U64_MAX
    {
      TimeIsLeft(sys, op, t1, Step(sys, op).sys);
      TimeStaysRemembered(Step(sys, op).sys, ops, t1, later);
      BatchTimesAscend(later, next);
    }
  }
}
