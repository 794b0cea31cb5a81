/** Receipts and the chain tell the same story. */
module Receipts {
  import opened Base
  import opened LocalStorage
  import opened ForkedStorage
  import opened Views
  import opened NodeModel
  import opened Coupling
  import opened Chain
  import opened Runs
  import opened Delivery
  import opened Ledgers

  /** The receipt of `tx` names a stored block that contains exactly this transaction, and every log in
      it, in order, names that block, its batch and its time. */
  ghost predicate MatchesChain(c: Chain, tx: Hash, r: TxResult) {
    && c.base < r.miniblock <= c.height
    && Holds(c, r.miniblock)
    && var b := c.blocks[c.hashes[r.miniblock]];
       && b.transactions == [tx] && b.batch == r.batch
       && forall i :: 0 <= i < |r.logs| ==>
            && r.logs[i].txHash == tx && r.logs[i].logIndex == i
            && r.logs[i].blockHash == b.hash && r.logs[i].blockNumber == b.number
            && r.logs[i].batch == b.batch && r.logs[i].timestamp == b.timestamp
  }

  ghost predicate ReceiptsMatch(n: Node) {
    forall tx :: tx in n.txResults ==> MatchesChain(ChainOf(n), tx, n.txResults[tx])
  }

  lemma GrowKeepsMatch(c: Chain, b: Block, tx: Hash, r: TxResult)
    requires WellLinked(c) && Fits(c, b) && MatchesChain(c, tx, r)
    ensures MatchesChain(Grow(c, b), tx, r)
  {
    GrowFrame(c, b, r.miniblock);
  }

  /** The receipt tells how the run ended and what it emitted, event by event. */
  predicate Reports(r: TxResult, run: VmRun) {
    && (r.succeeded <==> run.result.Success?)
    && |r.logs| == |run.events|
    && forall i :: 0 <= i < |run.events| ==>
         && r.logs[i].address == run.events[i].address
         && r.logs[i].topics == run.events[i].topics
         && r.logs[i].data == run.events[i].data
         && r.logs[i].logIndex == i
  }

  /** The receipt a commit records matches the transaction block it appends, and reports the run. */
  lemma NewReceiptMatches(c: Chain, b: Block, tx: Hash, run: VmRun)
    requires WellLinked(c) && Fits(c, b) && b.transactions == [tx]
    ensures var r := TxResult(b.batch, b.number, run.result.Success?, MakeLogs(run.events, b, tx));
            MatchesChain(Grow(c, b), tx, r) && Reports(r, run)
  {
    GrowAddsSound(c, b);
  }

  lemma CommitKeepsReceipts(n: Node, tx: Tx, run: VmRun)
    requires ReceiptsMatch(n) && Sealed(ChainOf(n)) && HasRoom(n) && CommitTx(n, tx, run).Some?
    ensures ReceiptsMatch(CommitTx(n, tx, run).value)
  {
    var c, n' := ChainOf(n), CommitTx(n, tx, run).value;
    var b1 := TxBlock(n, tx.hash, NextContext(n));
    var b2 := TrailingBlock(NextContext(n), b1);
    CommitGrows(n, tx, run);
    CommitKeepsChain(n, tx, run);
    CommitResults(n, tx, run);
    forall h | h in n'.txResults
      ensures MatchesChain(ChainOf(n'), h, n'.txResults[h])
    {
      if h == tx.hash {
        NewReceiptMatches(c, b1, h, run);
      } else {
        GrowKeepsMatch(c, b1, h, n.txResults[h]);
      }
      GrowKeepsMatch(Grow(c, b1), b2, h, n'.txResults[h]);
    }
  }

  lemma {:induction false} MineKeepsReceipts(n: Node, first: bool, interval: U64, scripts: seq<seq<Access>>)
    requires ReceiptsMatch(n) && Good(n) && MineOk(n, first, interval, scripts)
    ensures ReceiptsMatch(Mine(n, first, interval, scripts))
    decreases |scripts|
  {
    if scripts != [] {
      var n' := MineOne(n, first, interval, scripts[0]);
      MineOneIsGood(n, first, interval, scripts[0]);
      MineOneKeepsChain(n, first, interval, scripts[0]);
      var b: Block :| b.transactions == [] && Fits(ChainOf(n), b) && ChainOf(n') == Grow(ChainOf(n), b);
      forall h | h in n'.txResults
        ensures MatchesChain(ChainOf(n'), h, n'.txResults[h])
      {
        GrowKeepsMatch(ChainOf(n), b, h, n.txResults[h]);
      }
      MineKeepsReceipts(n', false, interval, scripts[1..]);
    }
  }

  lemma SameRecordsMatch(n: Node, n': Node)
    requires ReceiptsMatch(n) && SameRecords(n, n')
    ensures ReceiptsMatch(n')
  {
  }

  lemma SendTxKeepsReceipts(sys: Sys, tx: Tx, run: VmRun)
    requires ReceiptsMatch(sys.node) && Good(sys.node)
    requires Admissible(sys, SendTx(tx, run)) && SendTxStep(sys, tx, run).Done?
    ensures ReceiptsMatch(SendTxStep(sys, tx, run).sys.node)
  {
    if Commits(sys.node, SendTx(tx, run)) {
      CommitKeepsReceipts(sys.node, tx, run);
    } else {
      UncommittedIsAside(sys, tx, run);
      SameRecordsMatch(sys.node, SendTxStep(sys, tx, run).sys.node);
    }
  }

  lemma LocalKeepsReceipts(n: Node, op: Op)
    requires Local(op) && Coherent(n.store) && ReceiptsMatch(n)
    ensures ReceiptsMatch(LocalStep(n, op).0)
  {
    LocalIsAside(n, op);
    SameRecordsMatch(n, LocalStep(n, op).0);
  }

  lemma StepKeepsReceipts(sys: Sys, op: Op)
    requires ReceiptsMatch(sys.node) && Good(sys.node)
    requires Admissible(sys, op) && Step(sys, op).Done? && !op.EvmRevert?
    ensures ReceiptsMatch(Step(sys, op).sys.node)
  {
    match op
    case SendTx(tx, run) => SendTxKeepsReceipts(sys, tx, run);
    case MineBlocks(interval, scripts) => MineKeepsReceipts(sys.node, true, interval, scripts);
    case EvmSnapshot =>
    case Reset(fork, genesis, wallets) => EnrichAllAside(NewNode(fork, genesis, sys.node.gasPrice), wallets);
    case _ => LocalKeepsReceipts(sys.node, op);
  }

  /** In every reachable state, and in every snapshot, each recorded receipt matches the stored chain:
      its block is there, holds exactly that transaction, and is the block that all its logs name. */
  lemma {:induction false} ReceiptsAlwaysMatch(sys: Sys, ops: seq<Op>)
    requires GoodSys(sys) && Everywhere(n => ReceiptsMatch(n), sys, 0)
    requires AdmissibleRun(sys, ops) && Run(sys, ops).Some?
    ensures Everywhere(n => ReceiptsMatch(n), Run(sys, ops).value, 0)
    decreases |ops|
  {
    if ops != [] {
      var op := ops[0];
      StepKeepsGoodSys(sys, op);
      if !op.EvmRevert? {
        StepKeepsReceipts(sys, op);
      }
      Lift(n => ReceiptsMatch(n), sys, op, 0);
      ReceiptsAlwaysMatch(Step(sys, op).sys, ops[1..]);
    }
  }

  /* ---------- what the transactions emitted ---------- */

  /** There is a receipt for each of the runs, and no other. */
  ghost predicate AllReported(n: Node, runs: map<Hash, VmRun>) {
    && n.txResults.Keys == runs.Keys
    && forall h :: h in runs ==> Reports(n.txResults[h], runs[h])
  }

  lemma CommitReports(n: Node, tx: Tx, run: VmRun)
    requires CommitTx(n, tx, run).Some?
    ensures var results := CommitTx(n, tx, run).value.txResults;
            && tx.hash in results && Reports(results[tx.hash], run)
            && results == n.txResults[tx.hash := results[tx.hash]]
  {
    assert CommitTx(n, tx, run).value.txResults == Applied(n, tx, run).txResults;
  }

  lemma CommittedReports(n: Node, tx: Tx, run: VmRun, n': Node)
    requires CommitTx(n, tx, run) == Some(n')
    ensures tx.hash in n'.txResults && Reports(n'.txResults[tx.hash], run)
  {
    CommitReports(n, tx, run);
  }

  /** The runs committed by a call, under their transactions' hashes. */
  function WithRun(n: Node, op: Op, runs: map<Hash, VmRun>): map<Hash, VmRun> {
    if Commits(n, op) then runs[op.tx.hash := op.run] else runs
  }

  lemma SameResultsReported(n: Node, n': Node, runs: map<Hash, VmRun>)
    requires AllReported(n, runs) && n'.txResults == n.txResults
    ensures AllReported(n', runs)
  {
  }

  lemma CommitAllReported(n: Node, tx: Tx, run: VmRun, runs: map<Hash, VmRun>)
    requires HasRoom(n) && CommitTx(n, tx, run).Some? && AllReported(n, runs)
    ensures AllReported(CommitTx(n, tx, run).value, runs[tx.hash := run])
  {
    CommitReports(n, tx, run);
  }

  lemma SendTxReports(sys: Sys, tx: Tx, run: VmRun, runs: map<Hash, VmRun>)
    requires Good(sys.node) && Admissible(sys, SendTx(tx, run)) && SendTxStep(sys, tx, run).Done?
    requires AllReported(sys.node, runs)
    ensures AllReported(SendTxStep(sys, tx, run).sys.node, WithRun(sys.node, SendTx(tx, run), runs))
  {
    if Commits(sys.node, SendTx(tx, run)) {
      CommitAllReported(sys.node, tx, run, runs);
    } else {
      UncommittedIsAside(sys, tx, run);
      SameResultsReported(sys.node, SendTxStep(sys, tx, run).sys.node, runs);
    }
  }

  lemma LocalReports(n: Node, op: Op, runs: map<Hash, VmRun>)
    requires Local(op) && AllReported(n, runs)
    ensures AllReported(LocalStep(n, op).0, WithRun(n, op, runs))
  {
    LocalKeepsRecords(n, op);
    SameResultsReported(n, LocalStep(n, op).0, runs);
  }

  lemma StepReports(sys: Sys, op: Op, runs: map<Hash, VmRun>)
    requires Good(sys.node) && Admissible(sys, op) && Step(sys, op).Done? && IsOrdinary(op)
    requires AllReported(sys.node, runs)
    ensures AllReported(Step(sys, op).sys.node, WithRun(sys.node, op, runs))
  {
    match op
    case SendTx(tx, run) => SendTxReports(sys, tx, run, runs);
    case MineBlocks(interval, scripts) =>
      MineIsQuiet(sys.node, true, interval, scripts);
      SameResultsReported(sys.node, Mine(sys.node, true, interval, scripts), runs);
    case _ => LocalReports(sys.node, op, runs);
  }

  /** The runs committed by a list of calls and not undone, the last one under each hash. */
  function RunsKept(sys: Sys, ops: seq<Op>, l: Ledger<map<Hash, VmRun>>): Ledger<map<Hash, VmRun>>
    decreases |ops|
  {
    if ops == [] || Step(sys, ops[0]).Panic? then l
    else RunsKept(Step(sys, ops[0]).sys, ops[1..], Turn(sys, ops[0], l, WithRun(sys.node, ops[0], l.now), map[]))
  }

  /** In every reachable state, and in every snapshot, there is a receipt for every transaction committed
      and not undone, and for no other, and each tells what its run did: whether it succeeded, and its
      events, address, topics and data, in the order in which they were emitted. */
  lemma {:induction false} ReceiptsReportTheRuns(sys: Sys, ops: seq<Op>, l: Ledger<map<Hash, VmRun>>)
    requires GoodSys(sys) && Kept((n, r) => AllReported(n, r), sys, 0, l)
    requires AdmissibleRun(sys, ops) && Run(sys, ops).Some?
    ensures Kept((n, r) => AllReported(n, r), Run(sys, ops).value, 0, RunsKept(sys, ops, l))
    decreases |ops|
  {
    if ops != [] {
      var op := ops[0];
      var next := WithRun(sys.node, op, l.now);
      if IsOrdinary(op) {
        StepReports(sys, op, l.now);
      } else if op.Reset? {
        EnrichAllAside(NewNode(op.fork, op.genesis, sys.node.gasPrice), op.wallets);
      }
      TurnKeeps((n, r) => AllReported(n, r), sys, op, 0, l, next, map[]);
      StepKeepsGoodSys(sys, op);
      ReceiptsReportTheRuns(Step(sys, op).sys, ops[1..], Turn(sys, op, l, next, map[]));
    }
  }

  /** The same from a fresh node. */
  lemma EveryReceiptReportsItsRun(fork: Option<Fork>, genesis: InMemoryStorage, gasPrice: nat, ops: seq<Op>, last: Sys)
    requires StartFits(fork, genesis) && AdmissibleRun(Start(fork, genesis, gasPrice), ops)
    requires Run(Start(fork, genesis, gasPrice), ops) == Some(last)
    ensures AllReported(last.node, RunsKept(Start(fork, genesis, gasPrice), ops, Ledger(map[], [])).now)
  {
    StartIsGood(fork, genesis, gasPrice);
    ReceiptsReportTheRuns(Start(fork, genesis, gasPrice), ops, Ledger(map[], []));
  }
}
