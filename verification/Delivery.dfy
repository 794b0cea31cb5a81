/** Polling a log filter and querying it give matching answers. */
module Delivery {
  import opened Base
  import opened ForkedStorage
  import opened Views
  import opened Filters
  import opened NodeModel
  import opened Coupling
  import opened Runs
  import opened Snapshots

  /** The log is recorded in its transaction's receipt and matches the query at the present head. */
  ghost predicate Queryable(n: Node, q: LogQuery, log: Log) {
    && log.blockNumber <= n.miniblock
    && Matches(q, log, n.miniblock)
    && log.txHash in n.txResults && log in n.txResults[log.txHash].logs
  }

  /** Every log waiting in a filter whose from-bound does not follow the head can be queried. */
  ghost predicate WaitingLogsQueryable(n: Node) {
    forall id, log :: id in n.filters.filters && n.filters.filters[id].LogFilter?
      && !LatestLike(n.filters.filters[id].query.from) && log in n.filters.filters[id].logs
      ==> Queryable(n, n.filters.filters[id].query, log)
  }

  /** No transaction is committed that is recorded already: recording the same hash again replaces its
      logs. Resubmitting one that is then refused or halts is harmless. */
  predicate FreshTx(sys: Sys, op: Op) {
    Commits(sys.node, op) ==> op.tx.hash !in sys.node.txResults
  }

  ghost predicate FreshRun(sys: Sys, ops: seq<Op>)
    decreases |ops|
  {
    ops == [] ||
    (&& FreshTx(sys, ops[0])
     && (Step(sys, ops[0]).Done? ==> FreshRun(Step(sys, ops[0]).sys, ops[1..])))
  }

  /** A queryable log stays queryable when the head moves on and other transactions are recorded. */
  lemma StaysQueryable(n: Node, n': Node, q: LogQuery, log: Log)
    requires Queryable(n, q, log) && !LatestLike(q.from)
    requires n.miniblock <= n'.miniblock
    requires forall h :: h in n.txResults ==> h in n'.txResults && n'.txResults[h] == n.txResults[h]
    ensures Queryable(n', q, log)
  {
  }

  /** What a log filter holds after a batch of notifications: what it held, and new logs that match. */
  lemma {:induction false} NotifiedLogs(fs: FilterSet, logs: seq<Log>, latest: nat, id: nat)
    requires id in fs.filters
    ensures var f, f' := fs.filters[id], NotifyAll(fs, LogEvents(logs, latest)).filters;
            && id in f' && SameKind(f, f'[id])
            && (f.LogFilter? ==>
                  forall l :: l in f'[id].logs ==> l in f.logs || (l in logs && Matches(f.query, l, latest)))
    decreases |logs|
  {
    if logs != [] {
      assert LogEvents(logs, latest)[1..] == LogEvents(logs[1..], latest);
      var fs1 := Notify(fs, NewLog(logs[0], latest));
      NotifiedLogs(fs1, logs[1..], latest, id);
    }
  }

  lemma {:induction false} NotifiedIds(fs: FilterSet, logs: seq<Log>, latest: nat)
    ensures NotifyAll(fs, LogEvents(logs, latest)).filters.Keys == fs.filters.Keys
    decreases |logs|
  {
    if logs != [] {
      assert LogEvents(logs, latest)[1..] == LogEvents(logs[1..], latest);
      NotifiedIds(Notify(fs, NewLog(logs[0], latest)), logs[1..], latest);
    }
  }

  lemma CommitResults(n: Node, tx: Tx, run: VmRun)
    requires HasRoom(n) && CommitTx(n, tx, run).Some?
    ensures var b1 := TxBlock(n, tx.hash, NextContext(n));
            var n' := CommitTx(n, tx, run).value;
            && b1.number == n.miniblock + 1 && n'.miniblock == n.miniblock + 2
            && n'.txResults == n.txResults[tx.hash :=
                 TxResult(b1.batch, b1.number, run.result.Success?, MakeLogs(run.events, b1, tx.hash))]
  {
    CommitCounters(n, tx, run);
  }

  /** What a log filter holds after a commit. */
  lemma CommitNotifies(n: Node, tx: Tx, run: VmRun, id: nat)
    requires CommitTx(n, tx, run).Some? && id in CommitTx(n, tx, run).value.filters.filters
    requires CommitTx(n, tx, run).value.filters.filters[id].LogFilter?
    ensures var b1 := TxBlock(n, tx.hash, NextContext(n));
            var f' := CommitTx(n, tx, run).value.filters.filters[id];
            && id in n.filters.filters && SameKind(f', n.filters.filters[id])
            && forall l :: l in f'.logs ==>
                 || l in n.filters.filters[id].logs
                 || (l in MakeLogs(run.events, b1, tx.hash) && Matches(f'.query, l, b1.number))
  {
    var b1 := TxBlock(n, tx.hash, NextContext(n));
    var logs := MakeLogs(run.events, b1, tx.hash);
    var pending := Notify(n.filters, NewPending(tx.hash));
    CommitFilters(n, tx, run);
    NotifiedIds(pending, logs, b1.number);
    NotifiedLogs(pending, logs, b1.number, id);
  }

  lemma CommitKeepsWaiting(n: Node, tx: Tx, run: VmRun)
    requires WaitingLogsQueryable(n) && HasRoom(n) && CommitTx(n, tx, run).Some? && tx.hash !in n.txResults
    ensures WaitingLogsQueryable(CommitTx(n, tx, run).value)
  {
    var n' := CommitTx(n, tx, run).value;
    CommitResults(n, tx, run);
    forall id, log | id in n'.filters.filters && n'.filters.filters[id].LogFilter?
      && !LatestLike(n'.filters.filters[id].query.from) && log in n'.filters.filters[id].logs
      ensures Queryable(n', n'.filters.filters[id].query, log)
    {
      CommitNotifies(n, tx, run, id);
      var q := n'.filters.filters[id].query;
      if log in n.filters.filters[id].logs {
        StaysQueryable(n, n', q, log);
      } else {
        VerdictIsStable(q, log, n'.miniblock);
      }
    }
  }

  /** An operation that keeps receipts, never lowers the head and gives no log to any filter. */
  lemma QuietKeepsWaiting(n: Node, n': Node)
    requires WaitingLogsQueryable(n) && n.miniblock <= n'.miniblock && n'.txResults == n.txResults
    requires forall id :: id in n'.filters.filters && n'.filters.filters[id].LogFilter? ==>
               n'.filters.filters[id].logs == []
               || (id in n.filters.filters && n'.filters.filters[id] == n.filters.filters[id])
    ensures WaitingLogsQueryable(n')
  {
    forall id, log | id in n'.filters.filters && n'.filters.filters[id].LogFilter?
      && !LatestLike(n'.filters.filters[id].query.from) && log in n'.filters.filters[id].logs
      ensures Queryable(n', n'.filters.filters[id].query, log)
    {
      StaysQueryable(n, n', n'.filters.filters[id].query, log);
    }
  }

  lemma {:induction false} MineIsQuiet(n: Node, first: bool, interval: U64, scripts: seq<seq<Access>>)
    requires Good(n) && MineOk(n, first, interval, scripts)
    ensures var n' := Mine(n, first, interval, scripts);
            n'.txResults == n.txResults && n'.filters == n.filters && n.miniblock <= n'.miniblock
    decreases |scripts|
  {
    if scripts != [] {
      var n' := MineOne(n, first, interval, scripts[0]);
      MineOneIsGood(n, first, interval, scripts[0]);
      MineIsQuiet(n', false, interval, scripts[1..]);
    }
  }

  lemma SendTxKeepsWaiting(sys: Sys, tx: Tx, run: VmRun)
    requires WaitingLogsQueryable(sys.node) && FreshTx(sys, SendTx(tx, run))
    requires Admissible(sys, SendTx(tx, run)) && SendTxStep(sys, tx, run).Done?
    ensures WaitingLogsQueryable(SendTxStep(sys, tx, run).sys.node)
  {
    if Commits(sys.node, SendTx(tx, run)) {
      CommitKeepsWaiting(sys.node, tx, run);
    } else if Acceptable(sys.node, tx) {
      QuietKeepsWaiting(sys.node, Attempted(sys.node, tx, run));
    }
  }

  /** A local call installs, removes or empties filters, and puts no log into one. */
  lemma LocalFilters(n: Node, op: Op)
    requires Local(op)
    ensures var fs := LocalStep(n, op).0.filters.filters;
            forall id :: id in fs && fs[id].LogFilter? ==>
              fs[id].logs == [] || (id in n.filters.filters && fs[id] == n.filters.filters[id])
  {
  }

  lemma LocalKeepsWaiting(n: Node, op: Op)
    requires Local(op) && Coherent(n.store) && WaitingLogsQueryable(n)
    ensures WaitingLogsQueryable(LocalStep(n, op).0)
  {
    LocalIsAside(n, op);
    LocalFilters(n, op);
    QuietKeepsWaiting(n, LocalStep(n, op).0);
  }

  lemma MineKeepsWaiting(n: Node, interval: U64, scripts: seq<seq<Access>>)
    requires Good(n) && MineOk(n, true, interval, scripts) && WaitingLogsQueryable(n)
    ensures WaitingLogsQueryable(Mine(n, true, interval, scripts))
  {
    MineIsQuiet(n, true, interval, scripts);
    QuietKeepsWaiting(n, Mine(n, true, interval, scripts));
  }

  lemma StepKeepsWaiting(sys: Sys, op: Op)
    requires Good(sys.node) && WaitingLogsQueryable(sys.node)
    requires Admissible(sys, op) && FreshTx(sys, op) && Step(sys, op).Done? && !op.EvmRevert?
    ensures WaitingLogsQueryable(Step(sys, op).sys.node)
  {
    match op
    case SendTx(tx, run) => SendTxKeepsWaiting(sys, tx, run);
    case MineBlocks(interval, scripts) => MineKeepsWaiting(sys.node, interval, scripts);
    case EvmSnapshot =>
    case Reset(fork, genesis, wallets) => EnrichAllAside(NewNode(fork, genesis, sys.node.gasPrice), wallets);
    case _ => LocalKeepsWaiting(sys.node, op);
  }

  /** On every run with distinct transaction hashes, in every state and every snapshot. */
  lemma {:induction false} RunKeepsWaiting(sys: Sys, ops: seq<Op>)
    requires GoodSys(sys) && Everywhere(n => WaitingLogsQueryable(n), sys, 0)
    requires AdmissibleRun(sys, ops) && FreshRun(sys, ops) && Run(sys, ops).Some?
    ensures GoodSys(Run(sys, ops).value)
    ensures Everywhere(n => WaitingLogsQueryable(n), Run(sys, ops).value, 0)
    decreases |ops|
  {
    if ops != [] {
      var op := ops[0];
      StepKeepsGoodSys(sys, op);
      if !op.EvmRevert? {
        StepKeepsWaiting(sys, op);
      }
      Lift(n => WaitingLogsQueryable(n), sys, op, 0);
      RunKeepsWaiting(Step(sys, op).sys, ops[1..]);
    }
  }

  /** Live and query views agree: after any such run, every log that a poll returns for a filter whose
      from-bound does not follow the head is among the logs a query of the same filter returns. */
  lemma PolledLogsAreQueried(sys: Sys, ops: seq<Op>, id: nat)
    requires GoodSys(sys) && Everywhere(n => WaitingLogsQueryable(n), sys, 0)
    requires AdmissibleRun(sys, ops) && FreshRun(sys, ops) && Run(sys, ops).Some?
    ensures var n := Run(sys, ops).value.node;
            && id in n.filters.filters && n.filters.filters[id].LogFilter?
            && !LatestLike(n.filters.filters[id].query.from) ==>
              match Step(Run(sys, ops).value, FilterChanges(id)).reply
              case Polled(Logs(logs)) => forall l :: l in logs ==> l in QueryLogs(n, n.filters.filters[id].query)
              case Polled(Empty) => n.filters.filters[id].logs == []
              case _ => false
  {
    RunKeepsWaiting(sys, ops);
    var n := Run(sys, ops).value.node;
    assert WaitingLogsQueryable(n);
    if id in n.filters.filters && n.filters.filters[id].LogFilter? && !LatestLike(n.filters.filters[id].query.from) {
      var f := n.filters.filters[id];
      forall l | l in f.logs
        ensures l in QueryLogs(n, f.query)
      {
        assert Queryable(n, f.query, l);
      }
    }
  }

  /** And it stays there: a log that a query returned is returned by the same query in every later
      state of the same history. */
  lemma {:induction false} QueriedLogsStay(sys: Sys, ops: seq<Op>, floor: nat, q: LogQuery, log: Log)
    requires GoodSys(sys) && Everywhere(n => Queryable(n, q, log), sys, floor) && !LatestLike(q.from)
    requires AdmissibleRun(sys, ops) && FreshRun(sys, ops) && KeepsAll(ops, floor) && Run(sys, ops).Some?
    ensures log in QueryLogs(Run(sys, ops).value.node, q)
    decreases |ops|
  {
    if ops == [] {
      assert Queryable(sys.node, q, log);
    } else {
      var op := ops[0];
      assert op in ops;
      StepKeepsGoodSys(sys, op);
      if !op.EvmRevert? {
        ResultsOnlyGrow(sys, op);
        StaysQueryable(sys.node, Step(sys, op).sys.node, q, log);
      }
      Lift(n => Queryable(n, q, log), sys, op, floor);
      QueriedLogsStay(Step(sys, op).sys, ops[1..], floor, q, log);
    }
  }

  /** Within one history receipts are only added and the head only rises. */
  lemma ResultsOnlyGrow(sys: Sys, op: Op)
    requires Good(sys.node) && Admissible(sys, op) && FreshTx(sys, op)
    requires Step(sys, op).Done? && !op.EvmRevert? && !op.Reset?
    ensures sys.node.miniblock <= Step(sys, op).sys.node.miniblock
    ensures forall h :: h in sys.node.txResults ==>
              && h in Step(sys, op).sys.node.txResults
              && Step(sys, op).sys.node.txResults[h] == sys.node.txResults[h]
  {
    match op
    case SendTx(tx, run) =>
      if Commits(sys.node, op) {
        CommitResults(sys.node, tx, run);
      }
    case MineBlocks(interval, scripts) => MineIsQuiet(sys.node, true, interval, scripts);
    case EvmSnapshot =>
    case _ => LocalIsAside(sys.node, op);
  }

  /* ---------- filters that follow the head ---------- */

  /** Every recorded log is of a block below the head. */
  ghost predicate ReceiptsBelowHead(n: Node) {
    forall h, l :: h in n.txResults && l in n.txResults[h].logs ==> l.blockNumber < n.miniblock
  }

  lemma SendTxKeepsReceiptsBelow(sys: Sys, tx: Tx, run: VmRun)
    requires ReceiptsBelowHead(sys.node) && Admissible(sys, SendTx(tx, run)) && SendTxStep(sys, tx, run).Done?
    ensures ReceiptsBelowHead(SendTxStep(sys, tx, run).sys.node)
  {
    if Commits(sys.node, SendTx(tx, run)) {
      CommitResults(sys.node, tx, run);
    }
  }

  lemma LocalKeepsReceiptsBelow(n: Node, op: Op)
    requires Local(op) && Coherent(n.store) && ReceiptsBelowHead(n)
    ensures ReceiptsBelowHead(LocalStep(n, op).0)
  {
    LocalIsAside(n, op);
  }

  lemma MineKeepsReceiptsBelow(n: Node, interval: U64, scripts: seq<seq<Access>>)
    requires Good(n) && MineOk(n, true, interval, scripts) && ReceiptsBelowHead(n)
    ensures ReceiptsBelowHead(Mine(n, true, interval, scripts))
  {
    MineIsQuiet(n, true, interval, scripts);
  }

  lemma StepKeepsReceiptsBelow(sys: Sys, op: Op)
    requires Good(sys.node) && ReceiptsBelowHead(sys.node)
    requires Admissible(sys, op) && Step(sys, op).Done? && !op.EvmRevert?
    ensures ReceiptsBelowHead(Step(sys, op).sys.node)
  {
    match op
    case SendTx(tx, run) => SendTxKeepsReceiptsBelow(sys, tx, run);
    case MineBlocks(interval, scripts) => MineKeepsReceiptsBelow(sys.node, interval, scripts);
    case EvmSnapshot =>
    case Reset(fork, genesis, wallets) => EnrichAllAside(NewNode(fork, genesis, sys.node.gasPrice), wallets);
    case _ => LocalKeepsReceiptsBelow(sys.node, op);
  }

  /** In every reachable state a filter whose from-bound follows the head, as `eth_newFilter` makes by
      default, queries nothing, whatever its polls delivered: a commit announces its logs one block
      below the head it leaves. */
  lemma {:induction false} DefaultFiltersQueryNothing(sys: Sys, ops: seq<Op>, q: LogQuery)
    requires GoodSys(sys) && Everywhere(n => ReceiptsBelowHead(n), sys, 0)
    requires AdmissibleRun(sys, ops) && Run(sys, ops).Some? && LatestLike(q.from)
    ensures QueryLogs(Run(sys, ops).value.node, q) == {}
    decreases |ops|
  {
    if ops != [] {
      var op := ops[0];
      StepKeepsGoodSys(sys, op);
      if !op.EvmRevert? {
        StepKeepsReceiptsBelow(sys, op);
      }
      Lift(n => ReceiptsBelowHead(n), sys, op, 0);
      DefaultFiltersQueryNothing(Step(sys, op).sys, ops[1..], q);
    } else {
      assert ReceiptsBelowHead(sys.node);
    }
  }

  /* ---------- the node's filters as a filter run ---------- */

  /** The events a committed transaction announces: itself as pending, its logs, and its two blocks. */
  function CommitEvents(n: Node, tx: Tx, run: VmRun): seq<Event> {
    var b1 := TxBlock(n, tx.hash, NextContext(n));
    var b2 := TrailingBlock(NextContext(n), b1);
    [NewPending(tx.hash)] + LogEvents(MakeLogs(run.events, b1, tx.hash), b1.number)
    + [NewBlock(b1.hash), NewBlock(b2.hash)]
  }

  /** What one call means to the filters. Mined blocks are not announced. */
  function FilterOpsOf(sys: Sys, op: Op): seq<FilterOp> {
    match op
    case SendTx(tx, run) =>
      if !Acceptable(sys.node, tx) then []
      else if run.result.Halt? || run.result.Failure? then [OpNotify(NewPending(tx.hash))]
      else Notices(CommitEvents(sys.node, tx, run))
    case NewFilter(filter) => [OpInstall(Drained(filter))]
    case UninstallFilter(id) => [OpRemove(id)]
    case FilterChanges(id) => [OpPoll(id)]
    case _ => []
  }

  lemma CommitIsFilterRun(n: Node, tx: Tx, run: VmRun)
    requires CommitTx(n, tx, run).Some?
    ensures CommitTx(n, tx, run).value.filters == RunFilters(n.filters, Notices(CommitEvents(n, tx, run)))
  {
    var b1 := TxBlock(n, tx.hash, NextContext(n));
    var b2 := TrailingBlock(NextContext(n), b1);
    var logs := LogEvents(MakeLogs(run.events, b1, tx.hash), b1.number);
    CommitFilters(n, tx, run);
    NotifyAllIsRun(n.filters, CommitEvents(n, tx, run));
    assert CommitEvents(n, tx, run) == ([NewPending(tx.hash)] + logs + [NewBlock(b1.hash)]) + [NewBlock(b2.hash)];
    NotifyAllAppend(n.filters, [NewPending(tx.hash)] + logs + [NewBlock(b1.hash)], NewBlock(b2.hash));
    NotifyAllAppend(n.filters, [NewPending(tx.hash)] + logs, NewBlock(b1.hash));
    assert ([NewPending(tx.hash)] + logs)[1..] == logs;
  }

  lemma OneFilterOp(fs: FilterSet, op: FilterOp)
    ensures RunFilters(fs, [op]) == StepFilters(fs, op)
  {
    assert [op][1..] == [];
    assert RunFilters(fs, [op]) == RunFilters(StepFilters(fs, op), []);
  }

  lemma {:induction false} MineKeepsFilters(n: Node, first: bool, interval: U64, scripts: seq<seq<Access>>)
    ensures Mine(n, first, interval, scripts).filters == n.filters
    decreases |scripts|
  {
    if scripts != [] {
      MineKeepsFilters(MineOne(n, first, interval, scripts[0]), false, interval, scripts[1..]);
    }
  }

  lemma SendTxIsFilterRun(sys: Sys, tx: Tx, run: VmRun)
    requires SendTxStep(sys, tx, run).Done?
    ensures SendTxStep(sys, tx, run).sys.node.filters
         == RunFilters(sys.node.filters, FilterOpsOf(sys, SendTx(tx, run)))
  {
    if Commits(sys.node, SendTx(tx, run)) {
      CommitIsFilterRun(sys.node, tx, run);
    } else if Acceptable(sys.node, tx) {
      OneFilterOp(sys.node.filters, OpNotify(NewPending(tx.hash)));
    }
  }

  lemma LocalIsFilterRun(sys: Sys, op: Op)
    requires Local(op)
    ensures LocalStep(sys.node, op).0.filters == RunFilters(sys.node.filters, FilterOpsOf(sys, op))
  {
    match op
    case NewFilter(filter) => OneFilterOp(sys.node.filters, OpInstall(Drained(filter)));
    case UninstallFilter(id) => OneFilterOp(sys.node.filters, OpRemove(id));
    case FilterChanges(id) => OneFilterOp(sys.node.filters, OpPoll(id));
    case _ =>
  }

  lemma StepIsFilterRun(sys: Sys, op: Op)
    requires Step(sys, op).Done? && !op.EvmRevert? && !op.Reset?
    ensures Step(sys, op).sys.node.filters == RunFilters(sys.node.filters, FilterOpsOf(sys, op))
  {
    match op
    case SendTx(tx, run) => SendTxIsFilterRun(sys, tx, run);
    case MineBlocks(interval, scripts) => MineKeepsFilters(sys.node, true, interval, scripts);
    case EvmSnapshot =>
    case _ => LocalIsFilterRun(sys, op);
  }

  function FilterOpsOfRun(sys: Sys, ops: seq<Op>): seq<FilterOp>
    decreases |ops|
  {
    if ops == [] || Step(sys, ops[0]).Panic? then []
    else FilterOpsOf(sys, ops[0]) + FilterOpsOfRun(Step(sys, ops[0]).sys, ops[1..])
  }

  lemma {:induction false} RunIsFilterRun(sys: Sys, ops: seq<Op>)
    requires Run(sys, ops).Some?
    requires forall op :: op in ops ==> !op.EvmRevert? && !op.Reset?
    ensures Run(sys, ops).value.node.filters == RunFilters(sys.node.filters, FilterOpsOfRun(sys, ops))
    decreases |ops|
  {
    if ops != [] {
      assert ops[0] in ops;
      var sys' := Step(sys, ops[0]).sys;
      StepIsFilterRun(sys, ops[0]);
      RunIsFilterRun(sys', ops[1..]);
      RunFiltersAppend(sys.node.filters, FilterOpsOf(sys, ops[0]), FilterOpsOfRun(sys', ops[1..]));
    }
  }

  /** Exactly-once delivery over node runs: for a filter that is not uninstalled, what its polls return
      followed by what still waits is what waited followed by the announcements of the transactions
      committed since, in order: a pending hash, the matching logs, and two block hashes each. */
  lemma ExactlyOnceOverNodeRuns(sys: Sys, ops: seq<Op>, id: nat)
    requires Run(sys, ops).Some? && Good(sys.node) && id in sys.node.filters.filters
    requires forall op :: op in ops ==> !op.EvmRevert? && !op.Reset?
    requires OpRemove(id) !in FilterOpsOfRun(sys, ops)
    ensures var calls := FilterOpsOfRun(sys, ops);
            var f := sys.node.filters.filters[id];
            var fs' := Run(sys, ops).value.node.filters;
            && id in fs'.filters
            && Delivered(sys.node.filters, id, calls) + Waiting(fs'.filters[id]) == Waiting(f) + Owed(f, calls)
  {
    RunIsFilterRun(sys, ops);
    ExactlyOnceInOrder(sys.node.filters, id, FilterOpsOfRun(sys, ops));
  }
}
