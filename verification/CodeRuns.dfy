/** Contract code over whole runs of the node. */
module CodeRuns {
  import opened Base
  import opened ForkedStorage
  import opened Views
  import opened Bytecode
  import opened NodeModel
  import opened Coupling
  import opened Chain
  import opened Runs
  import opened Snapshots
  import opened CacheRuns
  import opened SlotWrites

  /** The call publishes code under its own hash only. */
  ghost predicate Honest(hasher: Hasher, n: Node, op: Op) {
    match op
    case SendTx(_, run) =>
      Commits(n, op) ==>
        forall h :: h in run.bytecodes ==>
          Usable(hasher, run.bytecodes[h]) && hasher(ToWords(run.bytecodes[h])).value == h
    case SetCode(other, _, _) => other == hasher
    case _ => true
  }

  ghost predicate HonestRun(hasher: Hasher, sys: Sys, ops: seq<Op>)
    decreases |ops|
  {
    ops == [] ||
    (&& Honest(hasher, sys.node, ops[0])
     && (Step(sys, ops[0]).Done? ==> HonestRun(hasher, Step(sys, ops[0]).sys, ops[1..])))
  }

  /** The code is in the local dictionary under its hash. */
  ghost predicate Published(n: Node, hasher: Hasher, code: Bytes) {
    && Usable(hasher, code)
    && n.store.contents.raw.LoadFactoryDep(hasher(ToWords(code)).value) == Some(code)
  }

  lemma {:induction false} MineKeepsDeps(n: Node, first: bool, interval: U64, scripts: seq<seq<Access>>)
    ensures Mine(n, first, interval, scripts).store.contents.raw.factoryDeps == n.store.contents.raw.factoryDeps
    decreases |scripts|
  {
    if scripts != [] {
      RunKeepsFork(n.store, scripts[0]);
      MineKeepsDeps(MineOne(n, first, interval, scripts[0]), false, interval, scripts[1..]);
    }
  }

  lemma SendTxKeepsPublished(sys: Sys, tx: Tx, run: VmRun, hasher: Hasher, code: Bytes)
    requires CollisionFree(hasher) && Coherent(sys.node.store) && Published(sys.node, hasher, code)
    requires Honest(hasher, sys.node, SendTx(tx, run)) && SendTxStep(sys, tx, run).Done?
    ensures Published(SendTxStep(sys, tx, run).sys.node, hasher, code)
  {
    if Commits(sys.node, SendTx(tx, run)) {
      var hash := hasher(ToWords(code)).value;
      CommitStore(sys.node, tx, run);
      RunKeepsFork(sys.node.store, run.script);
      if hash in run.bytecodes {
        SameHashSameCode(hasher, code, run.bytecodes[hash]);
      }
    } else {
      UncommittedIsAside(sys, tx, run);
    }
  }

  lemma LocalKeepsPublished(n: Node, op: Op, hasher: Hasher, code: Bytes)
    requires Local(op) && CollisionFree(hasher) && Coherent(n.store) && Published(n, hasher, code)
    requires Honest(hasher, n, op)
    ensures Published(LocalStep(n, op).0, hasher, code)
  {
    match op
    case SetCode(_, _, other) =>
      if Usable(hasher, other) {
        CodeRoundTrip(other);
        if hasher(ToWords(code)) == hasher(ToWords(other)) {
          SameHashSameCode(hasher, code, other);
        }
      }
    case SetRich(address) => PerformRefines(Open(n.store), WriteSlot(BalanceKey(address), RICH_BALANCE));
    case Sandbox(script) => RunKeepsFork(n.store, script);
    case ReadStorage(k, block, online) => ReadKeepsContents(n, k, block, online);
    case ReadCode(address, online) => FetchCodeRefines(n.store, address, online);
    case _ =>
  }

  lemma StepKeepsPublished(sys: Sys, op: Op, hasher: Hasher, code: Bytes)
    requires CollisionFree(hasher) && Coherent(sys.node.store) && Published(sys.node, hasher, code)
    requires Honest(hasher, sys.node, op) && Step(sys, op).Done? && !op.EvmRevert? && !op.Reset?
    ensures Published(Step(sys, op).sys.node, hasher, code)
  {
    match op
    case SendTx(tx, run) => SendTxKeepsPublished(sys, tx, run, hasher, code);
    case MineBlocks(interval, scripts) => MineKeepsDeps(sys.node, true, interval, scripts);
    case EvmSnapshot =>
    case _ => LocalKeepsPublished(sys.node, op, hasher, code);
  }

  lemma {:induction false} RunKeepsPublished(sys: Sys, ops: seq<Op>, floor: nat, hasher: Hasher, code: Bytes)
    requires CollisionFree(hasher) && CoherentSys(sys) && Everywhere(n => Published(n, hasher, code), sys, floor)
    requires HonestRun(hasher, sys, ops) && KeepsAll(ops, floor) && Run(sys, ops).Some?
    ensures CoherentSys(Run(sys, ops).value) && Published(Run(sys, ops).value.node, hasher, code)
    decreases |ops|
  {
    if ops != [] {
      var op := ops[0];
      assert op in ops;
      if !op.EvmRevert? {
        StepKeepsPublished(sys, op, hasher, code);
      }
      StepKeepsCoherentSys(sys, op);
      Lift(n => Published(n, hasher, code), sys, op, floor);
      RunKeepsPublished(Step(sys, op).sys, ops[1..], floor, hasher, code);
    }
  }

  lemma SetCodeInstalls(sys: Sys, hasher: Hasher, address: Address, code: Bytes, coded: Sys)
    requires CollisionFree(hasher) && CoherentSys(sys) && Usable(hasher, code)
    requires Step(sys, SetCode(hasher, address, code)).sys == coded
    ensures Step(sys, SetCode(hasher, address, code)) == Done(coded, Accepted)
    ensures CoherentSys(coded) && coded.snapshots == sys.snapshots && Published(coded.node, hasher, code)
    ensures Overlay(coded.node.store.contents, CodeKey(address)) == hasher(ToWords(code)).value
  {
    CodeRoundTrip(code);
    StepKeepsCoherentSys(sys, SetCode(hasher, address, code));
  }

  lemma CodeIsRead(sys: Sys, hasher: Hasher, address: Address, code: Bytes)
    requires Coherent(sys.node.store) && Published(sys.node, hasher, code)
    requires Overlay(sys.node.store.contents, CodeKey(address)) == hasher(ToWords(code)).value
    ensures Step(sys, ReadCode(address, true)).reply == CodeRead(code)
  {
    FetchCodeRefines(sys.node.store, address, true);
  }

  /** Code that was set is the code that is read, byte for byte, after any calls that keep the history:
      transactions that publish code under its own hash, code set elsewhere, mining, reverts to their
      own snapshots. All that is asked is that the account's code slot was not changed in the end. */
  lemma SetCodeIsReadBackOverRuns(sys: Sys, hasher: Hasher, address: Address, code: Bytes, coded: Sys, ops: seq<Op>,
                                  later: Sys)
    requires CollisionFree(hasher) && CoherentSys(sys) && Usable(hasher, code)
    requires Step(sys, SetCode(hasher, address, code)).sys == coded
    requires HonestRun(hasher, coded, ops) && KeepsAll(ops, |sys.snapshots|) && Run(coded, ops) == Some(later)
    requires LeavesValue(coded.node.store.contents, CodeKey(address), RunWrites(coded, ops, CodeKey(address)))
    ensures Step(sys, SetCode(hasher, address, code)).reply == Accepted
    ensures Step(later, ReadCode(address, true)).reply == CodeRead(code)
  {
    SetCodeInstalls(sys, hasher, address, code, coded);
    RunKeepsPublished(coded, ops, |sys.snapshots|, hasher, code);
    SlotAfterCalls(coded, ops, CodeKey(address));
    CodeIsRead(later, hasher, address, code);
  }

  /** The code of an account is the one its slot in the code storage contract leads to, and empty if the slot
      leads nowhere. */
  lemma CodeIsWhatTheSlotLeadsTo(sys: Sys, address: Address)
    requires Coherent(sys.node.store)
    ensures var c := sys.node.store.contents;
            var code := OverlayCode(c, Overlay(c, StorageKey(0x8002, address)));
            Step(sys, ReadCode(address, true)).reply == CodeRead(if code.Some? then code.value else [])
  {
    FetchCodeRefines(sys.node.store, address, true);
  }

  /* ---------- code deployed by transactions ---------- */

  lemma CommitPublishes(n: Node, tx: Tx, run: VmRun, hash: Word)
    requires CommitTx(n, tx, run).Some? && hash in run.bytecodes
    ensures CommitTx(n, tx, run).value.store.contents.raw.LoadFactoryDep(hash) == Some(run.bytecodes[hash])
  {
    CommitStore(n, tx, run);
  }

  lemma CommitDeploys(sys: Sys, tx: Tx, run: VmRun, hasher: Hasher, address: Address, code: Bytes, deployed: Sys)
    requires CollisionFree(hasher) && CoherentSys(sys) && Usable(hasher, code)
    requires Commits(sys.node, SendTx(tx, run)) && Step(sys, SendTx(tx, run)) == Done(deployed, Accepted)
    requires LastWrite(run.script, CodeKey(address)) == hasher(ToWords(code))
    requires hasher(ToWords(code)).value in run.bytecodes && run.bytecodes[hasher(ToWords(code)).value] == code
    ensures CoherentSys(deployed) && deployed.snapshots == sys.snapshots && Published(deployed.node, hasher, code)
    ensures Overlay(deployed.node.store.contents, CodeKey(address)) == hasher(ToWords(code)).value
  {
    CommitPublishes(sys.node, tx, run, hasher(ToWords(code)).value);
    SlotAfterCommit(sys.node, tx, run, CodeKey(address));
    StepKeepsCoherentSys(sys, SendTx(tx, run));
  }

  /** Code that a committed transaction deployed, by publishing it under its hash and writing the hash to the
      account's code slot, is read back byte for byte after any calls that keep the history, as long as the
      slot was not changed in the end. */
  lemma DeployedCodeIsRead(sys: Sys, tx: Tx, run: VmRun, hasher: Hasher, address: Address, code: Bytes, deployed: Sys,
                           ops: seq<Op>, later: Sys)
    requires CollisionFree(hasher) && CoherentSys(sys) && Usable(hasher, code)
    requires Commits(sys.node, SendTx(tx, run)) && Step(sys, SendTx(tx, run)) == Done(deployed, Accepted)
    requires LastWrite(run.script, CodeKey(address)) == hasher(ToWords(code))
    requires hasher(ToWords(code)).value in run.bytecodes && run.bytecodes[hasher(ToWords(code)).value] == code
    requires HonestRun(hasher, deployed, ops) && KeepsAll(ops, |sys.snapshots|) && Run(deployed, ops) == Some(later)
    requires LeavesValue(deployed.node.store.contents, CodeKey(address), RunWrites(deployed, ops, CodeKey(address)))
    ensures Step(later, ReadCode(address, true)).reply == CodeRead(code)
  {
    CommitDeploys(sys, tx, run, hasher, address, code, deployed);
    RunKeepsPublished(deployed, ops, |sys.snapshots|, hasher, code);
    SlotAfterCalls(deployed, ops, CodeKey(address));
    CodeIsRead(later, hasher, address, code);
  }
}
