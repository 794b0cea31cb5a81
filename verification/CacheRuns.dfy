/** The read caches over whole runs: they always agree with the installed fork, and nothing a client
    sees depends on what they hold. */
module CacheRuns {
  import opened Base
  import opened ForkedStorage
  import opened Views
  import opened Bytecode
  import opened Filters
  import opened NodeModel
  import opened Coupling
  import opened Runs

  /* ---------- coherence ---------- */

  ghost predicate CoherentSys(sys: Sys) {
    Everywhere((n: Node) => Coherent(n.store), sys, 0)
  }

  lemma MineOneCoherent(n: Node, first: bool, interval: U64, script: seq<Access>)
    requires Coherent(n.store)
    ensures Coherent(MineOne(n, first, interval, script).store)
  {
    RunIsCoherent(n.store, script);
  }

  lemma {:induction false} MineCoherent(n: Node, first: bool, interval: U64, scripts: seq<seq<Access>>)
    requires Coherent(n.store)
    ensures Coherent(Mine(n, first, interval, scripts).store)
    decreases |scripts|
  {
    if scripts != [] {
      MineOneCoherent(n, first, interval, scripts[0]);
      MineCoherent(MineOne(n, first, interval, scripts[0]), false, interval, scripts[1..]);
    }
  }

  lemma SendTxCoherent(sys: Sys, tx: Tx, run: VmRun)
    requires Coherent(sys.node.store) && SendTxStep(sys, tx, run).Done?
    ensures Coherent(SendTxStep(sys, tx, run).sys.node.store)
  {
    var n := sys.node;
    var x := RunInView(n.store, run.script);
    RunIsCoherent(n.store, run.script);
    if Acceptable(n, tx) && !run.result.Halt? && !run.result.Failure? {
      CommitStore(n, tx, run);
      BytecodesKeepSlots(Flushed(x.store, x.view.modified), run.bytecodes, BATCH_INFO);
    }
  }

  lemma StepCoherent(sys: Sys, op: Op)
    requires Coherent(sys.node.store) && Step(sys, op).Done? && !op.EvmRevert?
    ensures Coherent(Step(sys, op).sys.node.store)
  {
    match op
    case SendTx(tx, run) => SendTxCoherent(sys, tx, run);
    case MineBlocks(interval, scripts) => MineCoherent(sys.node, true, interval, scripts);
    case EvmSnapshot =>
    case Reset(fork, genesis, wallets) => EnrichAllAside(NewNode(fork, genesis, sys.node.gasPrice), wallets);
    case _ => LocalIsAside(sys.node, op);
  }

  lemma StepKeepsCoherentSys(sys: Sys, op: Op)
    requires CoherentSys(sys) && Step(sys, op).Done?
    ensures CoherentSys(Step(sys, op).sys)
  {
    if !op.EvmRevert? {
      StepCoherent(sys, op);
    }
    Lift((n: Node) => Coherent(n.store), sys, op, 0);
  }

  /** On every run whatsoever the live caches, and the caches inside every stored snapshot, agree with
      the fork installed at that moment. Resets may change the fork because they clear the stack. */
  lemma {:induction false} CachesAlwaysAgreeWithFork(sys: Sys, ops: seq<Op>)
    requires CoherentSys(sys) && Run(sys, ops).Some?
    ensures CoherentSys(Run(sys, ops).value)
    decreases |ops|
  {
    if ops != [] {
      StepKeepsCoherentSys(sys, ops[0]);
      CachesAlwaysAgreeWithFork(Step(sys, ops[0]).sys, ops[1..]);
    }
  }

  /* ---------- invisibility ---------- */

  /** A node without what its caches hold. */
  function Bare(n: Node): Node {
    n.(store := n.store.(readCache := map[], depCache := map[]))
  }

  function BareSnapshot(s: Snapshot): Snapshot {
    s.(readCache := map[], depCache := map[])
  }

  ghost predicate Alike(sys: Sys, other: Sys) {
    && Bare(sys.node) == Bare(other.node)
    && |sys.snapshots| == |other.snapshots|
    && forall i :: 0 <= i < |sys.snapshots| ==> BareSnapshot(sys.snapshots[i]) == BareSnapshot(other.snapshots[i])
  }

  /** Nodes that are alike differ in their caches only. */
  lemma BareEqual(n: Node, other: Node)
    requires Bare(n) == Bare(other)
    ensures n.(store := other.store) == other && n.store.contents == other.store.contents
  {
  }

  lemma RunsAlike(s: Store, other: Store, script: seq<Access>)
    requires Coherent(s) && Coherent(other) && s.contents == other.contents
    ensures RunInView(s, script).view.modified == RunInView(other, script).view.modified
    ensures RunInView(s, script).store.contents == RunInView(other, script).store.contents == s.contents
  {
    ExecuteRefines(Open(s), ENV_READS + script);
    ExecuteRefines(Open(other), ENV_READS + script);
  }

  lemma AppendAlike(n: Node, other: Node, block: Block)
    requires Bare(n) == Bare(other)
    ensures AppendBlock(n, block).Some? <==> AppendBlock(other, block).Some?
    ensures AppendBlock(n, block).Some? ==> Bare(AppendBlock(n, block).value) == Bare(AppendBlock(other, block).value)
  {
    BareEqual(n, other);
  }

  lemma ContextAlike(n: Node, other: Node, tx: Tx)
    requires Bare(n) == Bare(other)
    ensures NextContext(n) == NextContext(other)
    ensures TxBlock(n, tx.hash, NextContext(n)) == TxBlock(other, tx.hash, NextContext(other))
    ensures Acceptable(n, tx) <==> Acceptable(other, tx)
  {
    BareEqual(n, other);
  }

  lemma AttemptedAlike(n: Node, other: Node, tx: Tx, run: VmRun)
    requires Coherent(n.store) && Coherent(other.store) && Bare(n) == Bare(other)
    ensures Bare(Attempted(n, tx, run)) == Bare(Attempted(other, tx, run))
  {
    BareEqual(n, other);
    RunsAlike(n.store, other.store, run.script);
  }

  lemma WrittenAlike(s: Store, other: Store, script: seq<Access>, bytecodes: map<Word, Bytes>)
    requires Coherent(s) && Coherent(other) && s.contents == other.contents
    ensures var x, y := RunInView(s, script), RunInView(other, script);
            && WithBytecodes(Flushed(x.store, x.view.modified), bytecodes).contents
               == WithBytecodes(Flushed(y.store, y.view.modified), bytecodes).contents
  {
    RunsAlike(s, other, script);
  }

  lemma AppliedAlike(n: Node, other: Node, tx: Tx, run: VmRun)
    requires Coherent(n.store) && Coherent(other.store) && Bare(n) == Bare(other)
    ensures Bare(Applied(n, tx, run)) == Bare(Applied(other, tx, run))
  {
    BareEqual(n, other);
    ContextAlike(n, other, tx);
    WrittenAlike(n.store, other.store, run.script, run.bytecodes);
  }

  lemma CommitAlike(n: Node, other: Node, tx: Tx, run: VmRun)
    requires Coherent(n.store) && Coherent(other.store) && Bare(n) == Bare(other)
    ensures CommitTx(n, tx, run).Some? <==> CommitTx(other, tx, run).Some?
    ensures CommitTx(n, tx, run).Some? ==> Bare(CommitTx(n, tx, run).value) == Bare(CommitTx(other, tx, run).value)
  {
    ContextAlike(n, other, tx);
    AppliedAlike(n, other, tx, run);
    var block := TxBlock(n, tx.hash, NextContext(n));
    AppendAlike(Applied(n, tx, run), Applied(other, tx, run), block);
    var first, first' := AppendBlock(Applied(n, tx, run), block), AppendBlock(Applied(other, tx, run), block);
    if first.Some? {
      AppendAlike(first.value, first'.value, TrailingBlock(NextContext(n), block));
    }
  }

  lemma MineOneAlike(n: Node, other: Node, first: bool, interval: U64, script: seq<Access>)
    requires Coherent(n.store) && Coherent(other.store) && Bare(n) == Bare(other)
    ensures Bare(MineOne(n, first, interval, script)) == Bare(MineOne(other, first, interval, script))
  {
    BareEqual(n, other);
    RunsAlike(n.store, other.store, script);
  }

  lemma {:induction false} MineAlike(n: Node, other: Node, first: bool, interval: U64, scripts: seq<seq<Access>>)
    requires Coherent(n.store) && Coherent(other.store) && Bare(n) == Bare(other)
    ensures Bare(Mine(n, first, interval, scripts)) == Bare(Mine(other, first, interval, scripts))
    decreases |scripts|
  {
    if scripts != [] {
      var n', other' := MineOne(n, first, interval, scripts[0]), MineOne(other, first, interval, scripts[0]);
      MineOneAlike(n, other, first, interval, scripts[0]);
      MineOneCoherent(n, first, interval, scripts[0]);
      MineOneCoherent(other, first, interval, scripts[0]);
      MineAlike(n', other', false, interval, scripts[1..]);
    }
  }

  /** Reads made while the remote cannot be reached are left out: what they can answer does depend on
      the caches. */
  predicate OfflineRead(op: Op) {
    (op.ReadStorage? || op.ReadCode?) && !op.online
  }

  lemma LiveReadAlike(n: Node, other: Node, key: StorageKey)
    requires Coherent(n.store) && Coherent(other.store) && Bare(n) == Bare(other)
    ensures LiveRead(n, key, true).1 == LiveRead(other, key, true).1
    ensures Bare(LiveRead(n, key, true).0) == Bare(LiveRead(other, key, true).0)
  {
    BareEqual(n, other);
    StepRefines(n.store, Get(key, true));
    StepRefines(other.store, Get(key, true));
  }

  lemma ReadAtNumberAlike(n: Node, other: Node, key: StorageKey, number: nat)
    requires Coherent(n.store) && Coherent(other.store) && Bare(n) == Bare(other)
    ensures ReadAtNumber(n, key, number, true).1 == ReadAtNumber(other, key, number, true).1
    ensures Bare(ReadAtNumber(n, key, number, true).0) == Bare(ReadAtNumber(other, key, number, true).0)
  {
    BareEqual(n, other);
    LiveReadAlike(n, other, key);
  }

  lemma ReadAlike(n: Node, other: Node, key: StorageKey, block: Option<BlockId>)
    requires Coherent(n.store) && Coherent(other.store) && Bare(n) == Bare(other)
    ensures GetStorage(n, key, block, true).1 == GetStorage(other, key, block, true).1
    ensures Bare(GetStorage(n, key, block, true).0) == Bare(GetStorage(other, key, block, true).0)
  {
    BareEqual(n, other);
    if ResolveBlock(n, block).Ok? {
      ReadAtNumberAlike(n, other, key, ResolveBlock(n, block).value);
    }
  }

  lemma EnrichAlike(n: Node, other: Node, address: Address)
    requires Coherent(n.store) && Coherent(other.store) && Bare(n) == Bare(other)
    ensures Bare(Enrich(n, address)) == Bare(Enrich(other, address))
  {
    BareEqual(n, other);
    PerformRefines(Open(n.store), WriteSlot(BalanceKey(address), RICH_BALANCE));
    PerformRefines(Open(other.store), WriteSlot(BalanceKey(address), RICH_BALANCE));
  }

  lemma RestoreAlike(sys: Sys, other: Sys, i: nat)
    requires Alike(sys, other) && i < |sys.snapshots|
    ensures Bare(RestoreSnapshot(sys.node, sys.snapshots[i])) == Bare(RestoreSnapshot(other.node, other.snapshots[i]))
  {
    assert BareSnapshot(sys.snapshots[i]) == BareSnapshot(other.snapshots[i]);
    BareEqual(sys.node, other.node);
  }

  /** The two nodes take this step alike. */
  ghost predicate StepsAlike(sys: Sys, other: Sys, op: Op) {
    && (Step(sys, op).Done? <==> Step(other, op).Done?)
    && (Step(sys, op).Done? ==>
          && Step(sys, op).reply == Step(other, op).reply
          && Bare(Step(sys, op).sys.node) == Bare(Step(other, op).sys.node))
  }

  lemma SendTxAlike(sys: Sys, other: Sys, tx: Tx, run: VmRun)
    requires CoherentSys(sys) && CoherentSys(other) && Alike(sys, other)
    ensures StepsAlike(sys, other, SendTx(tx, run))
  {
    ContextAlike(sys.node, other.node, tx);
    AttemptedAlike(sys.node, other.node, tx, run);
    CommitAlike(sys.node, other.node, tx, run);
  }

  lemma RevertAlike(sys: Sys, other: Sys, id: nat)
    requires Alike(sys, other)
    ensures StepsAlike(sys, other, EvmRevert(id))
  {
    if RevertIndex(id) < |sys.snapshots| {
      RestoreAlike(sys, other, RevertIndex(id));
    }
  }

  lemma LocalAlike(n: Node, other: Node, op: Op)
    requires Local(op) && !OfflineRead(op)
    requires Coherent(n.store) && Coherent(other.store) && Bare(n) == Bare(other)
    ensures LocalStep(n, op).1 == LocalStep(other, op).1
    ensures Bare(LocalStep(n, op).0) == Bare(LocalStep(other, op).0)
  {
    BareEqual(n, other);
    match op
    case ReadStorage(key, block, _) => ReadAlike(n, other, key, block);
    case ReadCode(address, _) =>
      FetchCodeRefines(n.store, address, true);
      FetchCodeRefines(other.store, address, true);
    case Sandbox(script) => RunsAlike(n.store, other.store, script);
    case SetRich(address) => EnrichAlike(n, other, address);
    case _ =>
  }

  lemma NodeStepAlike(sys: Sys, other: Sys, op: Op)
    requires CoherentSys(sys) && CoherentSys(other) && Alike(sys, other) && !OfflineRead(op)
    ensures StepsAlike(sys, other, op)
  {
    match op
    case SendTx(tx, run) => SendTxAlike(sys, other, tx, run);
    case MineBlocks(interval, scripts) => MineAlike(sys.node, other.node, true, interval, scripts);
    case EvmSnapshot =>
    case EvmRevert(id) => RevertAlike(sys, other, id);
    case Reset(_, _, _) => BareEqual(sys.node, other.node);
    case _ => LocalAlike(sys.node, other.node, op);
  }

  lemma StackStepAlike(sys: Sys, other: Sys, op: Op)
    requires Alike(sys, other) && StepsAlike(sys, other, op) && Step(sys, op).Done?
    ensures Alike(Step(sys, op).sys, Step(other, op).sys)
  {
    BareEqual(sys.node, other.node);
    if !op.Reset? {
      StepKeepsFork(sys, op);
      StepKeepsFork(other, op);
    }
  }

  /** The replies a client gets, until a panic. */
  function Replies(sys: Sys, ops: seq<Op>): seq<Reply>
    decreases |ops|
  {
    if ops == [] then []
    else
      match Step(sys, ops[0])
      case Panic => []
      case Done(sys', reply) => [reply] + Replies(sys', ops[1..])
  }

  /** What two runs of the same calls show a client: the same replies, a panic at the same call or
      none, and states that differ in their caches only, so that every query answers alike. */
  ghost predicate SameRuns(sys: Sys, other: Sys, ops: seq<Op>) {
    && Replies(sys, ops) == Replies(other, ops)
    && (Run(sys, ops).Some? <==> Run(other, ops).Some?)
    && (Run(sys, ops).Some? ==> Alike(Run(sys, ops).value, Run(other, ops).value))
  }

  /** Two nodes that differ in their caches only stay so, and give the same replies, over every
      sequence of calls. */
  lemma {:induction false} CachesAreInvisible(sys: Sys, other: Sys, ops: seq<Op>)
    requires CoherentSys(sys) && CoherentSys(other) && Alike(sys, other)
    requires forall op :: op in ops ==> !OfflineRead(op)
    ensures SameRuns(sys, other, ops)
    decreases |ops|
  {
    if ops != [] {
      var op := ops[0];
      assert op in ops;
      NodeStepAlike(sys, other, op);
      if Step(sys, op).Done? {
        StackStepAlike(sys, other, op);
        StepKeepsCoherentSys(sys, op);
        StepKeepsCoherentSys(other, op);
        CachesAreInvisible(Step(sys, op).sys, Step(other, op).sys, ops[1..]);
      }
    }
  }

  predicate IsQuery(op: Op) {
    op.Sandbox? || op.ReadStorage? || op.ReadCode?
  }

  lemma QueryIsAlike(sys: Sys, query: Op)
    requires CoherentSys(sys) && IsQuery(query)
    ensures Step(sys, query).Done? && Alike(Step(sys, query).sys, sys)
  {
    match query
    case Sandbox(script) => RunIsCoherent(sys.node.store, script);
    case ReadStorage(key, block, online) => ReadKeepsContents(sys.node, key, block, online);
    case ReadCode(address, online) => FetchCodeRefines(sys.node.store, address, online);
    case _ =>
  }

  /** A sandboxed VM run (a call or a gas probe) and any read of storage or code, answered or not,
      changes nothing but caches, and no later reply or state of the node over any later calls. */
  lemma QueriesLeaveNoTrace(sys: Sys, query: Op, ops: seq<Op>)
    requires CoherentSys(sys) && IsQuery(query)
    requires forall op :: op in ops ==> !OfflineRead(op)
    ensures Alike(Step(sys, query).sys, sys)
    ensures SameRuns(Step(sys, query).sys, sys, ops)
  {
    QueryIsAlike(sys, query);
    StepKeepsCoherentSys(sys, query);
    CachesAreInvisible(Step(sys, query).sys, sys, ops);
  }

  /** A transaction rejected by validation changes nothing at all. One that halts, or whose run fails,
      leaves a node that differs in its caches only from one where all that happened was one more entry
      in each pending-transaction filter, and stays so over any later calls. */
  lemma FailedTxLeavesOneNotice(sys: Sys, tx: Tx, run: VmRun, ops: seq<Op>)
    requires CoherentSys(sys)
    requires forall op :: op in ops ==> !OfflineRead(op)
    ensures !Acceptable(sys.node, tx) ==> Step(sys, SendTx(tx, run)) == Done(sys, Refused)
    ensures Acceptable(sys.node, tx) && (run.result.Halt? || run.result.Failure?) ==>
              var noticed := sys.(node := sys.node.(filters := Notify(sys.node.filters, NewPending(tx.hash))));
              && Step(sys, SendTx(tx, run)).reply == Refused
              && Bare(Step(sys, SendTx(tx, run)).sys.node) == Bare(noticed.node)
              && Step(sys, SendTx(tx, run)).sys.snapshots == noticed.snapshots
              && SameRuns(Step(sys, SendTx(tx, run)).sys, noticed, ops)
  {
    if Acceptable(sys.node, tx) && (run.result.Halt? || run.result.Failure?) {
      var noticed := sys.(node := sys.node.(filters := Notify(sys.node.filters, NewPending(tx.hash))));
      StepKeepsCoherentSys(sys, SendTx(tx, run));
      RunIsCoherent(sys.node.store, run.script);
      assert CoherentSys(noticed);
      CachesAreInvisible(Step(sys, SendTx(tx, run)).sys, noticed, ops);
    }
  }
}
