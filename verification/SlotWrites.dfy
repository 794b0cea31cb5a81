/** What one slot reads after any calls, in terms of what the calls wrote to it. */
module SlotWrites {
  import opened Base
  import opened ForkedStorage
  import opened Views
  import opened Bytecode
  import opened NodeModel
  import opened Coupling
  import opened Chain
  import opened Runs
  import opened Snapshots
  import opened CacheRuns
  import opened Ledgers

  /** What a slot reads after `value` is written to it: a zero does not hide the remote value. */
  function EffectiveValue(c: Contents, key: StorageKey, value: Word): Word {
    Overlay(c.(raw := c.raw.SetValue(key, value)), key)
  }

  /** What a slot reads once `written`, if anything, is its last write. */
  function ReadAfter(c: Contents, key: StorageKey, written: Option<Word>): Word {
    match written
    case None => Overlay(c, key)
    case Some(value) => EffectiveValue(c, key, value)
  }

  /** `written`, if anything, leaves the slot as it is. */
  predicate LeavesValue(c: Contents, key: StorageKey, written: Option<Word>) {
    match written
    case None => true
    case Some(value) => EffectiveValue(c, key, value) == Overlay(c, key)
  }

  function Newer(earlier: Option<Word>, later: Option<Word>): Option<Word> {
    if later.Some? then later else earlier
  }

  lemma ReadAfterBoth(c: Contents, c': Contents, key: StorageKey, earlier: Option<Word>, later: Option<Word>)
    requires c'.fork == c.fork && Overlay(c', key) == ReadAfter(c, key, earlier)
    ensures ReadAfter(c', key, later) == ReadAfter(c, key, Newer(earlier, later))
  {
  }

  /* ---------- one call ---------- */

  /** The last write to a slot by a list of scripts, one after the other. */
  function LastWriteOf(scripts: seq<seq<Access>>, key: StorageKey): Option<Word> {
    if scripts == [] then None else Newer(LastWrite(scripts[0], key), LastWriteOf(scripts[1..], key))
  }

  /** What a call writes to a slot last, if it writes it. Snapshots, reverts and resets write nothing of
      their own. */
  function WrittenBy(n: Node, op: Op, key: StorageKey): Option<Word> {
    match op
    case SendTx(_, run) => if Commits(n, op) then LastWrite(run.script, key) else None
    case MineBlocks(_, scripts) => LastWriteOf(scripts, key)
    case SetStorageAt(k, value) => if k == key then Some(value) else None
    case SetCode(hasher, address, code) =>
      if key == CodeKey(address) && Usable(hasher, code) then hasher(ToWords(code)) else None
    case SetRich(address) => if key == BalanceKey(address) then Some(RICH_BALANCE) else None
    case _ => None
  }

  lemma SlotAfterRun(store: Store, script: seq<Access>, key: StorageKey)
    requires Coherent(store)
    ensures var x := RunInView(store, script);
            Overlay(Flushed(x.store, x.view.modified).contents, key)
            == ReadAfter(store.contents, key, LastWrite(script, key))
  {
    ExecuteRefines(Open(store), ENV_READS + script);
    BufferIsLastWrites(map[], store.contents, ENV_READS + script, key);
    LastWriteAfterReads(script, key);
  }

  /** What every slot reads after a commit. */
  lemma SlotAfterCommit(n: Node, tx: Tx, run: VmRun, key: StorageKey)
    requires Coherent(n.store) && CommitTx(n, tx, run).Some?
    ensures Overlay(CommitTx(n, tx, run).value.store.contents, key)
         == ReadAfter(n.store.contents, key, LastWrite(run.script, key))
  {
    var x := RunInView(n.store, run.script);
    CommitStore(n, tx, run);
    SlotAfterRun(n.store, run.script, key);
    BytecodesKeepSlots(Flushed(x.store, x.view.modified), run.bytecodes, key);
  }

  lemma SlotAfterSendTx(sys: Sys, tx: Tx, run: VmRun, key: StorageKey)
    requires Coherent(sys.node.store) && SendTxStep(sys, tx, run).Done?
    ensures Overlay(SendTxStep(sys, tx, run).sys.node.store.contents, key)
         == ReadAfter(sys.node.store.contents, key, WrittenBy(sys.node, SendTx(tx, run), key))
  {
    if Commits(sys.node, SendTx(tx, run)) {
      SlotAfterCommit(sys.node, tx, run, key);
    } else {
      UncommittedIsAside(sys, tx, run);
    }
  }

  lemma SlotAfterMineOne(n: Node, first: bool, interval: U64, script: seq<Access>, key: StorageKey)
    requires Coherent(n.store)
    ensures var n' := MineOne(n, first, interval, script);
            && Coherent(n'.store) && n'.store.contents.fork == n.store.contents.fork
            && Overlay(n'.store.contents, key) == ReadAfter(n.store.contents, key, LastWrite(script, key))
  {
    MineOneCoherent(n, first, interval, script);
    RunKeepsFork(n.store, script);
    SlotAfterRun(n.store, script, key);
  }

  lemma {:induction false} SlotAfterMine(n: Node, first: bool, interval: U64, scripts: seq<seq<Access>>,
                                         key: StorageKey)
    requires Coherent(n.store)
    ensures var n' := Mine(n, first, interval, scripts);
            && n'.store.contents.fork == n.store.contents.fork
            && Overlay(n'.store.contents, key) == ReadAfter(n.store.contents, key, LastWriteOf(scripts, key))
    decreases |scripts|
  {
    if scripts != [] {
      var n' := MineOne(n, first, interval, scripts[0]);
      SlotAfterMineOne(n, first, interval, scripts[0], key);
      SlotAfterMine(n', false, interval, scripts[1..], key);
      ReadAfterBoth(n.store.contents, n'.store.contents, key, LastWrite(scripts[0], key),
                    LastWriteOf(scripts[1..], key));
    }
  }

  lemma SlotAfterEnrich(n: Node, address: Address, key: StorageKey)
    requires Coherent(n.store)
    ensures Overlay(Enrich(n, address).store.contents, key)
         == ReadAfter(n.store.contents, key, WrittenBy(n, SetRich(address), key))
  {
    PerformRefines(Open(n.store), WriteSlot(BalanceKey(address), RICH_BALANCE));
  }

  lemma SlotAfterLocal(n: Node, op: Op, key: StorageKey)
    requires Local(op) && Coherent(n.store)
    ensures Overlay(LocalStep(n, op).0.store.contents, key)
         == ReadAfter(n.store.contents, key, WrittenBy(n, op, key))
  {
    match op
    case Sandbox(script) => RunKeepsFork(n.store, script);
    case SetRich(address) => SlotAfterEnrich(n, address, key);
    case ReadStorage(k, block, online) => ReadKeepsContents(n, k, block, online);
    case ReadCode(address, online) => FetchCodeRefines(n.store, address, online);
    case _ =>
  }

  lemma SlotAfterStep(sys: Sys, op: Op, key: StorageKey)
    requires Coherent(sys.node.store) && Step(sys, op).Done? && !op.EvmRevert? && !op.Reset?
    ensures Overlay(Step(sys, op).sys.node.store.contents, key)
         == ReadAfter(sys.node.store.contents, key, WrittenBy(sys.node, op, key))
  {
    match op
    case SendTx(tx, run) => SlotAfterSendTx(sys, tx, run, key);
    case MineBlocks(interval, scripts) => SlotAfterMine(sys.node, true, interval, scripts, key);
    case EvmSnapshot =>
    case _ => SlotAfterLocal(sys.node, op, key);
  }

  /* ---------- any calls ---------- */

  function EnterAll(sys: Sys, ops: seq<Op>, key: StorageKey, l: Ledger<Option<Word>>): Ledger<Option<Word>>
    decreases |ops|
  {
    if ops == [] || Step(sys, ops[0]).Panic? then l
    else
      var next := Newer(l.now, WrittenBy(sys.node, ops[0], key));
      EnterAll(Step(sys, ops[0]).sys, ops[1..], key, Turn(sys, ops[0], l, next, None))
  }

  /** The last write to a slot by a list of calls, those undone by their own reverts left out. */
  function RunWrites(sys: Sys, ops: seq<Op>, key: StorageKey): Option<Word> {
    EnterAll(sys, ops, key, Ledger(None, [])).now
  }

  /** The slot reads as if `written` were all that was written to it since `c`. */
  ghost predicate Tells(n: Node, c: Contents, key: StorageKey, written: Option<Word>) {
    n.store.contents.fork == c.fork && Overlay(n.store.contents, key) == ReadAfter(c, key, written)
  }

  lemma WriteTells(sys: Sys, op: Op, c: Contents, key: StorageKey, written: Option<Word>)
    requires Coherent(sys.node.store) && Tells(sys.node, c, key, written)
    requires Step(sys, op).Done? && IsOrdinary(op)
    ensures Tells(Step(sys, op).sys.node, c, key, Newer(written, WrittenBy(sys.node, op, key)))
  {
    StepKeepsFork(sys, op);
    SlotAfterStep(sys, op, key);
    ReadAfterBoth(c, sys.node.store.contents, key, written, WrittenBy(sys.node, op, key));
  }

  lemma {:induction false} RunTells(sys: Sys, ops: seq<Op>, c: Contents, key: StorageKey, floor: nat,
                                    l: Ledger<Option<Word>>)
    requires CoherentSys(sys) && Kept((n, w) => Tells(n, c, key, w), sys, floor, l)
    requires KeepsAll(ops, floor) && Run(sys, ops).Some?
    ensures Kept((n, w) => Tells(n, c, key, w), Run(sys, ops).value, floor, EnterAll(sys, ops, key, l))
    decreases |ops|
  {
    if ops != [] {
      var op := ops[0];
      var next := Newer(l.now, WrittenBy(sys.node, op, key));
      assert op in ops;
      if IsOrdinary(op) {
        WriteTells(sys, op, c, key, l.now);
      }
      TurnKeeps((n, w) => Tells(n, c, key, w), sys, op, floor, l, next, None);
      StepKeepsCoherentSys(sys, op);
      RunTells(Step(sys, op).sys, ops[1..], c, key, floor, Turn(sys, op, l, next, None));
    }
  }

  /** After any calls that keep the history, reverts to their own snapshots included, a slot reads its
      last write that was not undone, with a zero over a fork reading the remote value, or else what it
      read before. */
  lemma SlotAfterCalls(sys: Sys, ops: seq<Op>, key: StorageKey)
    requires CoherentSys(sys) && KeepsAll(ops, |sys.snapshots|) && Run(sys, ops).Some?
    ensures Run(sys, ops).value.node.store.contents.fork == sys.node.store.contents.fork
    ensures Overlay(Run(sys, ops).value.node.store.contents, key)
         == ReadAfter(sys.node.store.contents, key, RunWrites(sys, ops, key))
  {
    RunTells(sys, ops, sys.node.store.contents, key, |sys.snapshots|, Ledger(None, []));
  }
}
