/** Invariants over whole runs of the node, snapshots and reverts included. */
module Runs {
  import opened Base
  import opened LocalStorage
  import opened ForkedStorage
  import opened Views
  import opened Bytecode
  import opened Filters
  import opened NodeModel
  import opened Coupling
  import opened Chain
  import opened History

  /* ---------- properties of a node that hold in its snapshots too ---------- */

  /** `p` holds of the node, and of the node that any snapshot from `floor` up would bring back. */
  ghost predicate Everywhere(p: Node -> bool, sys: Sys, floor: nat) {
    && p(sys.node)
    && forall i :: floor <= i < |sys.snapshots| ==> p(RestoreSnapshot(sys.node, sys.snapshots[i]))
  }

  function RevertIndex(id: nat): nat {
    if id == 0 then 0 else id - 1
  }

  /** The operation neither resets the node nor reverts below `floor`: the history up to a snapshot
      stack of that height is kept. */
  predicate Keeps(op: Op, floor: nat) {
    !op.Reset? && (op.EvmRevert? ==> RevertIndex(op.id) >= floor)
  }

  lemma RestoreTaken(n: Node)
    ensures RestoreSnapshot(n, TakeSnapshot(n)) == n
  {
  }

  /** Apart from a reset no operation changes the fork, and only snapshots, reverts and resets change
      the stack. */
  lemma StepKeepsFork(sys: Sys, op: Op)
    requires Step(sys, op).Done? && !op.Reset?
    ensures Step(sys, op).sys.node.store.contents.fork == sys.node.store.contents.fork
    ensures !op.EvmSnapshot? && !op.EvmRevert? ==> Step(sys, op).sys.snapshots == sys.snapshots
  {
    match op
    case SendTx(tx, run) => SendTxKeepsFork(sys, tx, run);
    case MineBlocks(interval, scripts) => MineKeepsFork(sys.node, true, interval, scripts);
    case EvmSnapshot =>
    case EvmRevert(_) =>
    case _ => LocalKeepsFork(sys.node, op);
  }

  lemma LocalKeepsFork(n: Node, op: Op)
    requires Local(op)
    ensures LocalStep(n, op).0.store.contents.fork == n.store.contents.fork
  {
    if op.Sandbox? {
      RunKeepsFork(n.store, op.script);
    }
  }

  lemma SendTxKeepsFork(sys: Sys, tx: Tx, run: VmRun)
    requires SendTxStep(sys, tx, run).Done?
    ensures SendTxStep(sys, tx, run).sys.node.store.contents.fork == sys.node.store.contents.fork
    ensures SendTxStep(sys, tx, run).sys.snapshots == sys.snapshots
  {
    RunKeepsFork(sys.node.store, run.script);
  }

  lemma {:induction false} MineKeepsFork(n: Node, first: bool, interval: U64, scripts: seq<seq<Access>>)
    ensures Mine(n, first, interval, scripts).store.contents.fork == n.store.contents.fork
    decreases |scripts|
  {
    if scripts != [] {
      RunKeepsFork(n.store, scripts[0]);
      MineKeepsFork(MineOne(n, first, interval, scripts[0]), false, interval, scripts[1..]);
    }
  }

  /** To keep a property everywhere it is enough to keep it on the live node; snapshots and reverts
      only copy nodes that have it. */
  lemma Lift(p: Node -> bool, sys: Sys, op: Op, floor: nat)
    requires Everywhere(p, sys, floor) && Step(sys, op).Done?
    requires op.EvmRevert? ==> RevertIndex(op.id) >= floor
    requires !op.EvmRevert? ==> p(Step(sys, op).sys.node)
    ensures Everywhere(p, Step(sys, op).sys, floor)
  {
    var sys' := Step(sys, op).sys;
    if !op.Reset? {
      StepKeepsFork(sys, op);
      RestoreTaken(sys.node);
    }
  }

  /* ---------- the node invariant ---------- */

  ghost predicate Good(n: Node) {
    && Coherent(n.store)
    && NumbersAgree(n)
    && Sealed(ChainOf(n))
    && WindowOk(n)
    && IdsBelowCounter(n.filters)
  }

  /** What the outside world owes the node: the VM keeps its contract on the runs that are committed,
      counters do not run out, nobody writes the two SystemContext slots directly, and a fork's
      details describe its storage. */
  ghost predicate Admissible(sys: Sys, op: Op) {
    match op
    case SendTx(tx, run) => Commits(sys.node, op) ==> HasRoom(sys.node) && TxContract(sys.node, run.script)
    case MineBlocks(interval, scripts) => MineOk(sys.node, true, interval, scripts)
    case Reset(fork, genesis, _) => StartFits(fork, genesis)
    case SetStorageAt(key, _) => !InfoSlot(key)
    case _ => true
  }

  predicate StartFits(fork: Option<Fork>, genesis: InMemoryStorage) {
    var n := NewNode(fork, genesis, 0);
    ForkFits(fork) && NumbersAgree(n) && TimeAhead(n)
  }

  /** A fresh node without a fork fits whenever its genesis leaves the two slots unset. */
  lemma GenesisFits(genesis: InMemoryStorage)
    requires BATCH_INFO !in genesis.state && L2_INFO !in genesis.state
    ensures StartFits(None, genesis)
  {
  }

  lemma StartIsGood(fork: Option<Fork>, genesis: InMemoryStorage, gasPrice: nat)
    requires StartFits(fork, genesis)
    ensures Good(NewNode(fork, genesis, gasPrice)) && TimeAhead(NewNode(fork, genesis, gasPrice))
  {
    NewNodeIsSealed(fork, genesis, gasPrice);
    NewNodeWindow(fork, genesis, gasPrice);
  }

  lemma {:induction false} NotifyKeepsIds(fs: FilterSet, events: seq<Event>)
    requires IdsBelowCounter(fs)
    ensures IdsBelowCounter(NotifyAll(fs, events))
    decreases |events|
  {
    if events != [] {
      NotifyKeepsIds(Notify(fs, events[0]), events[1..]);
    }
  }

  lemma CommitFilters(n: Node, tx: Tx, run: VmRun)
    requires CommitTx(n, tx, run).Some?
    ensures var b1 := TxBlock(n, tx.hash, NextContext(n));
            var b2 := TrailingBlock(NextContext(n), b1);
            var heard := NotifyAll(Notify(n.filters, NewPending(tx.hash)),
                                   LogEvents(MakeLogs(run.events, b1, tx.hash), b1.number));
            CommitTx(n, tx, run).value.filters == Notify(Notify(heard, NewBlock(b1.hash)), NewBlock(b2.hash))
  {
  }

  lemma CommitKeepsGood(n: Node, tx: Tx, run: VmRun)
    requires Good(n) && HasRoom(n) && TxContract(n, run.script) && CommitTx(n, tx, run).Some?
    ensures Good(CommitTx(n, tx, run).value) && TimeAhead(CommitTx(n, tx, run).value)
  {
    CommitCouples(n, tx, run);
    CommitKeepsChain(n, tx, run);
    CommitSlides(n, tx, run);
    CommitFilters(n, tx, run);
    var b1 := TxBlock(n, tx.hash, NextContext(n));
    NotifyKeepsIds(Notify(n.filters, NewPending(tx.hash)), LogEvents(MakeLogs(run.events, b1, tx.hash), b1.number));
  }

  lemma MineOneIsGood(n: Node, first: bool, interval: U64, script: seq<Access>)
    requires Good(n) && HasRoom(n) && EmptyContract(n, script)
    requires first || n.timestamp + interval <= U64_MAX
    ensures Good(MineOne(n, first, interval, script))
    ensures MineOne(n, first, interval, script).miniblock == n.miniblock + 1
  {
    MineOneCouples(n, first, interval, script);
    MineOneKeepsChain(n, first, interval, script);
    MineOneKeepsWindow(n, first, interval, script);
    assert MineOne(n, first, interval, script).filters == n.filters;
  }

  lemma {:induction false} MineKeepsGood(n: Node, first: bool, interval: U64, scripts: seq<seq<Access>>)
    requires Good(n) && MineOk(n, first, interval, scripts)
    ensures Good(Mine(n, first, interval, scripts))
    decreases |scripts|
  {
    if scripts != [] {
      MineOneIsGood(n, first, interval, scripts[0]);
      MineKeepsGood(MineOne(n, first, interval, scripts[0]), false, interval, scripts[1..]);
    }
  }

  /* ---------- operations that append no block ---------- */

  /** The records of the chain, the archive and the receipts are the same, and so is the fork. */
  ghost predicate SameRecords(n: Node, n': Node) {
    && ChainOf(n') == ChainOf(n)
    && n'.batch == n.batch && n'.headHash == n.headHash
    && n'.archive == n.archive && n'.txResults == n.txResults
    && n'.store.contents.fork == n.store.contents.fork
  }

  /** Storage is sound and tells the same about the last batch and the last L2 block. */
  ghost predicate SameInfo(s: Store, s': Store) {
    && Coherent(s')
    && s'.contents.fork == s.contents.fork
    && Overlay(s'.contents, BATCH_INFO) == Overlay(s.contents, BATCH_INFO)
    && Overlay(s'.contents, L2_INFO) == Overlay(s.contents, L2_INFO)
  }

  lemma AsideIsGood(n: Node, n': Node)
    requires Good(n) && SameRecords(n, n') && SameInfo(n.store, n'.store) && IdsBelowCounter(n'.filters)
    ensures Good(n')
    ensures TimeAhead(n') <==> Ahead(n.store.contents, n'.timestamp)
  {
  }

  lemma ReadKeepsContents(n: Node, key: StorageKey, block: Option<BlockId>, online: bool)
    requires Coherent(n.store)
    ensures var n' := GetStorage(n, key, block, online).0;
            Coherent(n'.store) && n'.store.contents == n.store.contents && n' == n.(store := n'.store)
  {
  }

  lemma WriteAside(s: Store, key: StorageKey, value: Word)
    requires Coherent(s) && !InfoSlot(key)
    ensures SameInfo(s, WithValue(s, key, value))
  {
  }

  lemma CodeAside(s: Store, hasher: Hasher, address: Address, code: Bytes)
    requires Coherent(s)
    ensures SameInfo(s, PublishCode(s, hasher, address, code).0)
  {
    var dep := ToFactoryDep(hasher, code);
    if dep.Ok? {
      WriteAside(WithCode(s, dep.value.0, FromWords(dep.value.1)), CodeKey(address), dep.value.0);
    }
  }

  lemma EnrichAside(n: Node, address: Address)
    requires Coherent(n.store)
    ensures SameInfo(n.store, Enrich(n, address).store)
    ensures Enrich(n, address) == n.(store := Enrich(n, address).store, rich := n.rich + {address})
  {
    var x := Perform(Open(n.store), WriteSlot(BalanceKey(address), RICH_BALANCE)).0;
    PerformRefines(Open(n.store), WriteSlot(BalanceKey(address), RICH_BALANCE));
    assert x.view.modified == map[BalanceKey(address) := RICH_BALANCE];
  }

  lemma {:induction false} EnrichAllAside(n: Node, wallets: seq<Address>)
    requires Coherent(n.store)
    ensures var n' := EnrichAll(n, wallets);
            SameInfo(n.store, n'.store) && n' == n.(store := n'.store, rich := n'.rich)
    decreases |wallets|
  {
    if wallets != [] {
      EnrichAside(n, wallets[0]);
      EnrichAllAside(Enrich(n, wallets[0]), wallets[1..]);
    }
  }

  lemma LocalKeepsRecords(n: Node, op: Op)
    requires Local(op)
    ensures SameRecords(n, LocalStep(n, op).0)
  {
    LocalKeepsFork(n, op);
  }

  lemma LocalKeepsIds(n: Node, op: Op)
    requires Local(op) && IdsBelowCounter(n.filters)
    ensures IdsBelowCounter(LocalStep(n, op).0.filters)
  {
  }

  lemma LocalKeepsStore(n: Node, op: Op)
    requires Local(op) && Coherent(n.store)
    ensures Coherent(LocalStep(n, op).0.store)
    ensures (op.SetStorageAt? ==> !InfoSlot(op.key)) ==> SameInfo(n.store, LocalStep(n, op).0.store)
  {
    match op
    case Sandbox(script) => RunIsCoherent(n.store, script);
    case SetStorageAt(key, value) =>
      if !InfoSlot(key) {
        WriteAside(n.store, key, value);
      }
    case SetCode(hasher, address, code) => CodeAside(n.store, hasher, address, code);
    case SetRich(address) => EnrichAside(n, address);
    case ReadStorage(key, block, online) => ReadKeepsContents(n, key, block, online);
    case ReadCode(address, online) => FetchCodeRefines(n.store, address, online);
    case _ =>
  }

  /** What every local call keeps. */
  lemma LocalIsAside(n: Node, op: Op)
    requires Local(op) && Coherent(n.store)
    ensures var n' := LocalStep(n, op).0;
            && SameRecords(n, n') && Coherent(n'.store)
            && ((op.SetStorageAt? ==> !InfoSlot(op.key)) ==> SameInfo(n.store, n'.store))
            && (IdsBelowCounter(n.filters) ==> IdsBelowCounter(n'.filters))
  {
    LocalKeepsRecords(n, op);
    LocalKeepsStore(n, op);
    if IdsBelowCounter(n.filters) {
      LocalKeepsIds(n, op);
    }
  }

  /** A transaction that is rejected, halts or fails. */
  lemma UncommittedIsAside(sys: Sys, tx: Tx, run: VmRun)
    requires Coherent(sys.node.store) && !Commits(sys.node, SendTx(tx, run))
    ensures SendTxStep(sys, tx, run).Done?
    ensures var n' := SendTxStep(sys, tx, run).sys.node;
            && SameRecords(sys.node, n') && n'.timestamp == sys.node.timestamp
            && Coherent(n'.store) && n'.store.contents == sys.node.store.contents
            && (IdsBelowCounter(sys.node.filters) ==> IdsBelowCounter(n'.filters))
  {
    RunIsCoherent(sys.node.store, run.script);
  }

  lemma SendTxKeepsGood(sys: Sys, tx: Tx, run: VmRun)
    requires Good(sys.node) && Admissible(sys, SendTx(tx, run)) && SendTxStep(sys, tx, run).Done?
    ensures Good(SendTxStep(sys, tx, run).sys.node)
  {
    if Commits(sys.node, SendTx(tx, run)) {
      CommitKeepsGood(sys.node, tx, run);
    } else {
      UncommittedIsAside(sys, tx, run);
      AsideIsGood(sys.node, SendTxStep(sys, tx, run).sys.node);
    }
  }

  lemma ResetIsGood(sys: Sys, fork: Option<Fork>, genesis: InMemoryStorage, wallets: seq<Address>)
    requires StartFits(fork, genesis)
    ensures var n := ResetStep(sys, fork, genesis, wallets).sys.node;
            Good(n) && TimeAhead(n)
  {
    var n := NewNode(fork, genesis, sys.node.gasPrice);
    StartIsGood(fork, genesis, sys.node.gasPrice);
    EnrichAllAside(n, wallets);
    AsideIsGood(n, EnrichAll(n, wallets));
  }

  lemma LocalKeepsGood(n: Node, op: Op)
    requires Local(op) && Good(n) && (op.SetStorageAt? ==> !InfoSlot(op.key))
    ensures Good(LocalStep(n, op).0)
    ensures TimeAhead(LocalStep(n, op).0) <==> Ahead(n.store.contents, LocalStep(n, op).0.timestamp)
  {
    LocalIsAside(n, op);
    AsideIsGood(n, LocalStep(n, op).0);
  }

  /** Every operation but a revert keeps the node good, whatever its time. */
  lemma StepKeepsGood(sys: Sys, op: Op)
    requires Good(sys.node) && Admissible(sys, op) && Step(sys, op).Done? && !op.EvmRevert?
    ensures Good(Step(sys, op).sys.node)
  {
    match op
    case SendTx(tx, run) => SendTxKeepsGood(sys, tx, run);
    case MineBlocks(interval, scripts) => MineKeepsGood(sys.node, true, interval, scripts);
    case EvmSnapshot =>
    case Reset(fork, genesis, wallets) => ResetIsGood(sys, fork, genesis, wallets);
    case _ => LocalKeepsGood(sys.node, op);
  }

  /* ---------- time ---------- */

  /** Only two operations may turn time back behind storage. */
  predicate Forward(sys: Sys, op: Op) {
    match op
    case SetTime(time) => Ahead(sys.node.store.contents, time)
    case MineBlocks(interval, scripts) => |scripts| <= 1 || interval > 0
    case _ => true
  }

  /** In a good state an admissible operation panics exactly when it commits a transaction while
      storage is ahead of the node's time. */
  lemma PanicExactly(sys: Sys, op: Op)
    requires Good(sys.node) && Admissible(sys, op)
    ensures Step(sys, op).Panic? <==> Commits(sys.node, op) && !TimeAhead(sys.node)
  {
    if Commits(sys.node, op) {
      PanicIffOutOfStep(sys.node, op.tx, op.run);
    }
  }

  lemma SendTxStaysAhead(sys: Sys, tx: Tx, run: VmRun)
    requires Good(sys.node) && TimeAhead(sys.node) && Admissible(sys, SendTx(tx, run))
    requires SendTxStep(sys, tx, run).Done?
    ensures TimeAhead(SendTxStep(sys, tx, run).sys.node)
  {
    if Commits(sys.node, SendTx(tx, run)) {
      CommitKeepsGood(sys.node, tx, run);
    } else {
      UncommittedIsAside(sys, tx, run);
    }
  }

  lemma LocalTime(n: Node, op: Op)
    requires Local(op)
    ensures op.SetTime? ==> LocalStep(n, op).0.timestamp == op.time
    ensures !op.SetTime? ==> LocalStep(n, op).0.timestamp >= n.timestamp
  {
  }

  /** From a state whose time is ahead no operation panics, and it leaves time ahead if and only if it
      is not one of the two. */
  lemma TimeStaysAheadExactly(sys: Sys, op: Op)
    requires Good(sys.node) && TimeAhead(sys.node) && Admissible(sys, op) && !op.EvmRevert?
    ensures Step(sys, op).Done?
    ensures TimeAhead(Step(sys, op).sys.node) <==> Forward(sys, op)
  {
    PanicExactly(sys, op);
    match op
    case SendTx(tx, run) => SendTxStaysAhead(sys, tx, run);
    case MineBlocks(interval, scripts) =>
      if scripts != [] {
        MineCouples(sys.node, interval, scripts);
      }
    case EvmSnapshot =>
    case Reset(fork, genesis, wallets) => ResetIsGood(sys, fork, genesis, wallets);
    case _ =>
      LocalKeepsGood(sys.node, op);
      LocalTime(sys.node, op);
  }

  /* ---------- runs ---------- */

  ghost predicate AdmissibleRun(sys: Sys, ops: seq<Op>)
    decreases |ops|
  {
    ops == [] ||
    (&& Admissible(sys, ops[0])
     && (Step(sys, ops[0]).Done? ==> AdmissibleRun(Step(sys, ops[0]).sys, ops[1..])))
  }

  ghost predicate ForwardRun(sys: Sys, ops: seq<Op>)
    decreases |ops|
  {
    ops == [] ||
    (&& Forward(sys, ops[0])
     && (Step(sys, ops[0]).Done? ==> ForwardRun(Step(sys, ops[0]).sys, ops[1..])))
  }

  ghost predicate GoodSys(sys: Sys) {
    Everywhere(n => Good(n), sys, 0)
  }

  lemma StepKeepsGoodSys(sys: Sys, op: Op)
    requires GoodSys(sys) && Admissible(sys, op) && Step(sys, op).Done?
    ensures GoodSys(Step(sys, op).sys)
  {
    if !op.EvmRevert? {
      StepKeepsGood(sys, op);
    }
    Lift(n => Good(n), sys, op, 0);
  }

  /** Every state reachable by admissible operations is good, and so is every node that a stored
      snapshot would bring back: caches tell the truth about the installed fork, counters match
      storage, the chain is sound and the archive is the window over it. Time may go anywhere. */
  lemma {:induction false} RunKeepsGood(sys: Sys, ops: seq<Op>)
    requires GoodSys(sys) && AdmissibleRun(sys, ops)
    ensures Run(sys, ops).Some? ==> GoodSys(Run(sys, ops).value)
    decreases |ops|
  {
    if ops != [] && Step(sys, ops[0]).Done? {
      StepKeepsGoodSys(sys, ops[0]);
      RunKeepsGood(Step(sys, ops[0]).sys, ops[1..]);
    }
  }

  /** No run of admissible operations that never turns time back can panic, whatever mix of
      transactions, mining, snapshots, reverts and resets it is. */
  lemma {:induction false} ForwardRunsNeverPanic(sys: Sys, ops: seq<Op>)
    requires GoodSys(sys) && Everywhere(n => TimeAhead(n), sys, 0)
    requires AdmissibleRun(sys, ops) && ForwardRun(sys, ops)
    ensures Run(sys, ops).Some?
    ensures GoodSys(Run(sys, ops).value) && Everywhere(n => TimeAhead(n), Run(sys, ops).value, 0)
    decreases |ops|
  {
    if ops != [] {
      var op := ops[0];
      PanicExactly(sys, op);
      StepKeepsGoodSys(sys, op);
      if !op.EvmRevert? {
        TimeStaysAheadExactly(sys, op);
      }
      Lift(n => TimeAhead(n), sys, op, 0);
      ForwardRunsNeverPanic(Step(sys, op).sys, ops[1..]);
    }
  }

  /** The same from a fresh node. */
  lemma FreshNodeNeverPanics(fork: Option<Fork>, genesis: InMemoryStorage, gasPrice: nat, ops: seq<Op>)
    requires StartFits(fork, genesis)
    requires AdmissibleRun(Start(fork, genesis, gasPrice), ops) && ForwardRun(Start(fork, genesis, gasPrice), ops)
    ensures Run(Start(fork, genesis, gasPrice), ops).Some?
    ensures GoodSys(Run(Start(fork, genesis, gasPrice), ops).value)
  {
    StartIsGood(fork, genesis, gasPrice);
    ForwardRunsNeverPanic(Start(fork, genesis, gasPrice), ops);
  }
}
