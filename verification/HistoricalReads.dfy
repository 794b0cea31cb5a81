/** Reads of past states: what the archive answers, and for how long it stays the same. */
module HistoricalReads {
  import opened Base
  import opened ForkedStorage
  import opened Views
  import opened Filters
  import opened NodeModel
  import opened Coupling
  import opened Chain
  import opened History
  import opened Runs
  import opened Snapshots
  import opened SlotWrites

  /* ---------- a history only extends the chain ---------- */

  ghost predicate KeepsHashes(c: Chain, c': Chain) {
    forall i :: i in c.hashes ==> i in c'.hashes && c'.hashes[i] == c.hashes[i]
  }

  ghost predicate KeepsTxs(c: Chain, c': Chain) {
    forall i: nat :: i <= c.height ==> (i in TxNumbers(c) <==> i in TxNumbers(c'))
  }

  /** Every block of `c` is still there in `c'`, and so is its standing: transaction block or not, and
      below the known head if it was. */
  ghost predicate Extends(c: Chain, c': Chain) {
    && c'.base == c.base && c.height <= c'.height && KnownHead(c) <= KnownHead(c')
    && KeepsHashes(c, c') && KeepsTxs(c, c')
  }

  lemma ExtendsTransitively(c: Chain, c1: Chain, c2: Chain)
    requires Extends(c, c1) && Extends(c1, c2)
    ensures Extends(c, c2)
  {
  }

  lemma GrowKeeps(c: Chain, b: Block)
    requires WellLinked(c) && Fits(c, b)
    ensures KeepsHashes(c, Grow(c, b)) && KeepsTxs(c, Grow(c, b))
  {
    TxNumbersGrow(c, b);
  }

  lemma CommitExtends(n: Node, tx: Tx, run: VmRun)
    requires Sealed(ChainOf(n)) && HasRoom(n) && CommitTx(n, tx, run).Some?
    ensures var c' := ChainOf(CommitTx(n, tx, run).value);
            && Extends(ChainOf(n), c') && KnownHead(c') == n.miniblock + 2
            && n.miniblock + 1 in TxNumbers(c')
  {
    var c := ChainOf(n);
    var b1 := TxBlock(n, tx.hash, NextContext(n));
    var b2 := TrailingBlock(NextContext(n), b1);
    CommitGrows(n, tx, run);
    CommitKeepsChain(n, tx, run);
    CommitCounters(n, tx, run);
    TwoBlocksExtend(c, b1, b2);
  }

  lemma TwoBlocksExtend(c: Chain, b1: Block, b2: Block)
    requires Sealed(c) && Fits(c, b1) && b1.transactions != []
    requires WellLinked(Grow(c, b1)) && Fits(Grow(c, b1), b2) && b2.transactions == []
    ensures var c2 := Grow(Grow(c, b1), b2);
            Extends(c, c2) && KnownHead(c2) == c2.height && b1.number in TxNumbers(c2)
  {
    GrowKeeps(c, b1);
    GrowKeeps(Grow(c, b1), b2);
    CommitNumbers(c, b1, b2);
    OldNumbers(c);
    TxNumbersGrow(c, b1);
  }

  lemma MineOneExtends(n: Node, first: bool, interval: U64, script: seq<Access>)
    requires Sealed(ChainOf(n)) && HasRoom(n) && NumbersAgree(n)
    ensures var c' := ChainOf(MineOne(n, first, interval, script));
            && Extends(ChainOf(n), c') && n.miniblock + 1 !in TxNumbers(c')
  {
    var c, c' := ChainOf(n), ChainOf(MineOne(n, first, interval, script));
    MineOneKeepsChain(n, first, interval, script);
    var b: Block :| b.transactions == [] && Fits(c, b) && c' == Grow(c, b);
    EmptyBlockNumbers(c, b);
    GrowKeeps(c, b);
    TxNumbersGrow(c, b);
  }

  lemma {:induction false} MineExtends(n: Node, first: bool, interval: U64, scripts: seq<seq<Access>>)
    requires Good(n) && MineOk(n, first, interval, scripts)
    ensures var n' := Mine(n, first, interval, scripts);
            && n'.miniblock == n.miniblock + |scripts|
            && Extends(ChainOf(n), ChainOf(n'))
            && forall i: nat :: n.miniblock < i <= n'.miniblock ==> i !in TxNumbers(ChainOf(n'))
    decreases |scripts|
  {
    if scripts != [] {
      var n' := MineOne(n, first, interval, scripts[0]);
      MineOneIsGood(n, first, interval, scripts[0]);
      MineOneExtends(n, first, interval, scripts[0]);
      MineExtends(n', false, interval, scripts[1..]);
      ExtendsTransitively(ChainOf(n), ChainOf(n'), ChainOf(Mine(n', false, interval, scripts[1..])));
    }
  }

  lemma SendTxExtends(sys: Sys, tx: Tx, run: VmRun)
    requires Good(sys.node) && Admissible(sys, SendTx(tx, run)) && SendTxStep(sys, tx, run).Done?
    ensures Extends(ChainOf(sys.node), ChainOf(SendTxStep(sys, tx, run).sys.node))
  {
    if Commits(sys.node, SendTx(tx, run)) {
      CommitExtends(sys.node, tx, run);
    } else {
      UncommittedIsAside(sys, tx, run);
    }
  }

  lemma StepExtends(sys: Sys, op: Op)
    requires Good(sys.node) && Admissible(sys, op) && Step(sys, op).Done? && !op.EvmRevert? && !op.Reset?
    ensures Extends(ChainOf(sys.node), ChainOf(Step(sys, op).sys.node))
  {
    match op
    case SendTx(tx, run) => SendTxExtends(sys, tx, run);
    case MineBlocks(interval, scripts) => MineExtends(sys.node, true, interval, scripts);
    case EvmSnapshot =>
    case _ => LocalIsAside(sys.node, op);
  }

  /** Whatever happens later in the same history, reverts to its own snapshots included, the chain is
      only extended. */
  lemma {:induction false} RunExtends(sys: Sys, ops: seq<Op>, floor: nat, c: Chain)
    requires GoodSys(sys) && Everywhere(n => Extends(c, ChainOf(n)), sys, floor)
    requires AdmissibleRun(sys, ops) && KeepsAll(ops, floor) && Run(sys, ops).Some?
    ensures GoodSys(Run(sys, ops).value) && Extends(c, ChainOf(Run(sys, ops).value.node))
    decreases |ops|
  {
    if ops != [] {
      var op := ops[0];
      assert op in ops;
      StepKeepsGoodSys(sys, op);
      if !op.EvmRevert? {
        StepExtends(sys, op);
        ExtendsTransitively(c, ChainOf(sys.node), ChainOf(Step(sys, op).sys.node));
      }
      Lift(n => Extends(c, ChainOf(n)), sys, op, floor);
      RunExtends(Step(sys, op).sys, ops[1..], floor, c);
    }
  }

  /* ---------- what the archive holds for one block ---------- */

  /** Block `number` is in the chain under `hash`, below the known head, and whatever the archive still
      holds for it is `state`. */
  ghost predicate Archives(n: Node, number: nat, hash: Hash, state: map<StorageKey, Word>) {
    && ChainOf(n).base <= number < KnownHead(ChainOf(n))
    && number in n.blockHashes && n.blockHashes[number] == hash
    && Records(n.archive, hash, state)
  }

  lemma PushKeepsRecord(archive: seq<Entry>, entry: Entry, hash: Hash, state: map<StorageKey, Word>)
    requires Records(archive, hash, state) && entry.hash != hash
    ensures Records(PushEntry(archive, entry), hash, state)
  {
    var kept := if |archive| > MAX_PREVIOUS_STATES then archive[1..] else archive;
    assert Records(kept, hash, state);
  }

  lemma CommitKeepsArchived(n: Node, tx: Tx, run: VmRun, number: nat, hash: Hash, state: map<StorageKey, Word>)
    requires Good(n) && HasRoom(n) && CommitTx(n, tx, run).Some?
    requires Archives(n, number, hash, state)
    ensures Archives(CommitTx(n, tx, run).value, number, hash, state)
  {
    var c, s := ChainOf(n), StateAfter(n, run);
    var b1 := TxBlock(n, tx.hash, NextContext(n));
    CommitExtends(n, tx, run);
    CommitPushes(n, tx, run);
    CommitKeepsChain(n, tx, run);
    OldNumbers(c);
    HashesDiffer(c, KnownHead(c), number);
    GrowFrame(c, b1, number);
    HashesDiffer(Grow(c, b1), b1.number, number);
    PushKeepsRecord(n.archive, Entry(n.headHash, s), hash, state);
    PushKeepsRecord(PushEntry(n.archive, Entry(n.headHash, s)), Entry(b1.hash, s), hash, state);
  }

  lemma {:induction false} MineKeepsArchive(n: Node, first: bool, interval: U64, scripts: seq<seq<Access>>)
    requires Good(n) && MineOk(n, first, interval, scripts)
    ensures Mine(n, first, interval, scripts).archive == n.archive
    decreases |scripts|
  {
    if scripts != [] {
      MineOneIsGood(n, first, interval, scripts[0]);
      MineKeepsArchive(MineOne(n, first, interval, scripts[0]), false, interval, scripts[1..]);
    }
  }

  lemma StepKeepsArchived(sys: Sys, op: Op, number: nat, hash: Hash, state: map<StorageKey, Word>)
    requires Good(sys.node) && Admissible(sys, op) && Step(sys, op).Done? && !op.EvmRevert? && !op.Reset?
    requires Archives(sys.node, number, hash, state)
    ensures Archives(Step(sys, op).sys.node, number, hash, state)
  {
    var n := sys.node;
    match op
    case SendTx(tx, run) =>
      if Commits(n, op) {
        CommitKeepsArchived(n, tx, run, number, hash, state);
      } else {
        UncommittedIsAside(sys, tx, run);
      }
    case MineBlocks(interval, scripts) =>
      OldNumbers(ChainOf(n));
      MineExtends(n, true, interval, scripts);
      MineKeepsArchive(n, true, interval, scripts);
    case EvmSnapshot =>
    case _ => LocalIsAside(n, op);
  }

  lemma {:induction false} RunKeepsArchived(sys: Sys, ops: seq<Op>, floor: nat, number: nat, hash: Hash,
                                            state: map<StorageKey, Word>)
    requires GoodSys(sys) && Everywhere(n => Archives(n, number, hash, state), sys, floor)
    requires AdmissibleRun(sys, ops) && KeepsAll(ops, floor) && Run(sys, ops).Some?
    ensures GoodSys(Run(sys, ops).value)
    ensures Archives(Run(sys, ops).value.node, number, hash, state)
    decreases |ops|
  {
    if ops != [] {
      var op := ops[0];
      assert op in ops;
      StepKeepsGoodSys(sys, op);
      if !op.EvmRevert? {
        StepKeepsArchived(sys, op, number, hash, state);
      }
      Lift(n => Archives(n, number, hash, state), sys, op, floor);
      RunKeepsArchived(Step(sys, op).sys, ops[1..], floor, number, hash, state);
    }
  }

  /* ---------- what a read answers ---------- */

  /** An entry is retained exactly while its block is among the last `WINDOW` archived ones. */
  lemma RetainedInWindow(n: Node, hash: Hash)
    requires Good(n)
    ensures LookupEntry(n.archive, hash).Some?
       <==> hash in Last(HashesAt(n.blockHashes, ArchivedNumbers(ChainOf(n))), WINDOW)
  {
    IndexOfFirst(n.archive, hash);
    var keys := Keys(n.archive);
    if hash in keys {
      var i :| 0 <= i < |keys| && keys[i] == hash;
      assert n.archive[i].hash == hash;
    }
    if IndexOf(n.archive, hash) < |n.archive| {
      assert keys[IndexOf(n.archive, hash)] == hash;
    }
  }

  /** Both ways to ask for one block. */
  ghost predicate Names(id: BlockId, number: nat, hash: Hash) {
    id == ByTag(BlockTag.Number(number)) || id == ByHash(hash)
  }

  /** A read of a slot at a block, by number or by hash, shows `state`: a non-zero slot as it was,
      anything else as it is now. */
  ghost predicate Shows(n: Node, number: nat, hash: Hash, state: map<StorageKey, Word>, key: StorageKey, online: bool) {
    forall id :: Names(id, number, hash) ==>
      GetStorage(n, key, Some(id), online)
      == if key in state && state[key] != 0 then (n, Ok(state[key])) else LiveRead(n, key, online)
  }

  /** A read of a slot at a block, by number or by hash, is a read of the present. */
  ghost predicate ShowsPresent(n: Node, number: nat, hash: Hash, key: StorageKey, online: bool) {
    forall id :: Names(id, number, hash) ==> GetStorage(n, key, Some(id), online) == LiveRead(n, key, online)
  }

  /** What a read at a block of the chain answers: an archived block that is still in the window shows
      its entry, every other block, the head included, shows the present. */
  lemma ReadAtBlock(n: Node, number: nat, key: StorageKey, online: bool)
    requires Good(n) && ChainOf(n).base <= number <= n.miniblock
    ensures number in n.blockHashes
    ensures var hash := n.blockHashes[number];
            if hash in Last(HashesAt(n.blockHashes, ArchivedNumbers(ChainOf(n))), WINDOW)
            then LookupEntry(n.archive, hash).Some? && number < n.miniblock
                 && Shows(n, number, hash, LookupEntry(n.archive, hash).value, key, online)
            else ShowsPresent(n, number, hash, key, online)
  {
    var c := ChainOf(n);
    assert Sound(c, number);
    var hash := c.hashes[number];
    RetainedInWindow(n, hash);
    if hash in Last(HashesAt(n.blockHashes, ArchivedNumbers(c)), WINDOW) {
      HeadIsNotArchived(n);
    }
  }

  /** The newest block is above everything archived. */
  lemma HeadIsNotArchived(n: Node)
    requires Good(n)
    ensures n.miniblock in n.blockHashes
    ensures n.blockHashes[n.miniblock] !in HashesAt(n.blockHashes, ArchivedNumbers(ChainOf(n)))
  {
    var c := ChainOf(n);
    OldNumbers(c);
    assert Sound(c, c.height);
    NotAmong(c, ArchivedNumbers(c), c.height);
  }

  /** What a read at a number outside the chain answers: the remote's value at that number, or an error
      if there is no fork or it cannot be reached. */
  lemma ReadOutsideChain(n: Node, number: nat, key: StorageKey, online: bool)
    requires Good(n) && !(ChainOf(n).base <= number <= n.miniblock)
    ensures GetStorage(n, key, Some(ByTag(BlockTag.Number(number))), online)
         == (n, if n.store.contents.fork.Some? && online then Ok(n.store.contents.fork.value.storageAt(key, number))
                else Err)
  {
  }

  lemma LiveValue(n: Node, key: StorageKey)
    requires Coherent(n.store)
    ensures LiveRead(n, key, true).1 == Ok(Overlay(n.store.contents, key))
  {
    StepRefines(n.store, Get(key, true));
  }

  /** No block is given, or a tag that follows the head. */
  predicate AsksLatest(id: Option<BlockId>) {
    match id
    case None => true
    case Some(ByTag(Number(_))) => false
    case Some(ByTag(Earliest)) => false
    case Some(ByTag(_)) => true
    case Some(ByHash(_)) => false
  }

  /** A read without a block, or at a tag that follows the head, is a read of the present. The earliest tag
      is number 0, and an unknown hash is refused. */
  lemma ReadAtTag(n: Node, key: StorageKey, id: Option<BlockId>, online: bool)
    ensures AsksLatest(id) ==> GetStorage(n, key, id, online) == LiveRead(n, key, online)
    ensures GetStorage(n, key, Some(ByTag(Earliest)), online)
         == GetStorage(n, key, Some(ByTag(BlockTag.Number(0))), online)
    ensures id.Some? && id.value.ByHash? && id.value.hash !in n.blocks ==>
              GetStorage(n, key, id, online) == (n, Err)
  {
  }

  /* ---------- transaction blocks and the heads before them ---------- */

  lemma CommitArchives(n: Node, tx: Tx, run: VmRun, number: nat)
    requires Good(n) && HasRoom(n) && TxContract(n, run.script) && CommitTx(n, tx, run).Some?
    requires number == n.miniblock + 1 || number == KnownHead(ChainOf(n))
    ensures var n' := CommitTx(n, tx, run).value;
            && number in n'.blockHashes
            && Archives(n', number, n'.blockHashes[number], StateAfter(n, run))
            && LookupEntry(n'.archive, n'.blockHashes[number]) == Some(StateAfter(n, run))
  {
    CommitExtends(n, tx, run);
    CommitSlides(n, tx, run);
    OldNumbers(ChainOf(n));
  }

  lemma LaterArchives(sys: Sys, tx: Tx, run: VmRun, ops: seq<Op>, number: nat)
    requires GoodSys(sys) && Admissible(sys, SendTx(tx, run))
    requires Commits(sys.node, SendTx(tx, run)) && CommitTx(sys.node, tx, run).Some?
    requires number == sys.node.miniblock + 1 || number == KnownHead(ChainOf(sys.node))
    requires AdmissibleRun(Step(sys, SendTx(tx, run)).sys, ops) && KeepsAll(ops, |sys.snapshots|)
    requires Run(Step(sys, SendTx(tx, run)).sys, ops).Some?
    ensures var sys1 := Step(sys, SendTx(tx, run)).sys;
            var later := Run(sys1, ops).value.node;
            && number in sys1.node.blockHashes && Good(later)
            && Archives(later, number, sys1.node.blockHashes[number], StateAfter(sys.node, run))
  {
    var sys1 := Step(sys, SendTx(tx, run)).sys;
    CommitArchives(sys.node, tx, run, number);
    StepKeepsGoodSys(sys, SendTx(tx, run));
    RunKeepsArchived(sys1, ops, |sys.snapshots|, number, sys1.node.blockHashes[number], StateAfter(sys.node, run));
  }

  /** Historical reads are stable. A commit archives two blocks, its transaction block and the head known
      before it, both with the local storage right after the transaction's writes. In every later state
      of the same history in which such an entry is retained, a read at that block, by number or by
      hash, gives each non-zero slot of the entry, whatever was written since; slots that were zero or
      absent are read from the present. Once the entry is gone everything is read from the present. */
  lemma HistoricalReadsAreStable(sys: Sys, tx: Tx, run: VmRun, ops: seq<Op>, number: nat, key: StorageKey, online: bool)
    requires GoodSys(sys) && Admissible(sys, SendTx(tx, run))
    requires Commits(sys.node, SendTx(tx, run)) && CommitTx(sys.node, tx, run).Some?
    requires number == sys.node.miniblock + 1 || number == KnownHead(ChainOf(sys.node))
    requires AdmissibleRun(Step(sys, SendTx(tx, run)).sys, ops) && KeepsAll(ops, |sys.snapshots|)
    requires Run(Step(sys, SendTx(tx, run)).sys, ops).Some?
    ensures var sys1 := Step(sys, SendTx(tx, run)).sys;
            var later := Run(sys1, ops).value.node;
            var hash := if number in sys1.node.blockHashes then sys1.node.blockHashes[number] else ZERO_HASH;
            && number in sys1.node.blockHashes
            && LookupEntry(sys1.node.archive, hash) == Some(StateAfter(sys.node, run))
            && if hash in Last(HashesAt(later.blockHashes, ArchivedNumbers(ChainOf(later))), WINDOW)
               then Shows(later, number, hash, StateAfter(sys.node, run), key, online)
               else ShowsPresent(later, number, hash, key, online)
  {
    var later := Run(Step(sys, SendTx(tx, run)).sys, ops).value.node;
    LaterArchives(sys, tx, run, ops, number);
    CommitArchives(sys.node, tx, run, number);
    OldNumbers(ChainOf(later));
    ReadAtBlock(later, number, key, online);
    IndexOfFirst(later.archive, later.blockHashes[number]);
  }

  lemma BatchNumberMoves(n: Node, tx: Tx, run: VmRun)
    requires Good(n) && HasRoom(n) && TxContract(n, run.script) && CommitTx(n, tx, run).Some?
    ensures Overlay(CommitTx(n, tx, run).value.store.contents, BATCH_INFO) != Overlay(n.store.contents, BATCH_INFO)
  {
    CommitCouples(n, tx, run);
    assert StoredBatch(CommitTx(n, tx, run).value.store.contents) != StoredBatch(n.store.contents);
  }

  /** The entry written for the head known before a transaction is never that head's own state: it is
      the state after the transaction, in which at least the batch number has moved on. */
  lemma HeadIsArchivedTooLate(n: Node, tx: Tx, run: VmRun)
    requires Good(n) && HasRoom(n) && TxContract(n, run.script) && CommitTx(n, tx, run).Some?
    ensures LookupEntry(CommitTx(n, tx, run).value.archive, n.headHash) == Some(StateAfter(n, run))
    ensures StateAfter(n, run) != n.store.contents.raw.state
  {
    CommitSlides(n, tx, run);
    CommitPushes(n, tx, run);
    CommitStore(n, tx, run);
    RunKeepsFork(n.store, run.script);
    BatchNumberMoves(n, tx, run);
  }

  lemma HeadShowsPresent(n: Node, tx: Tx, run: VmRun, key: StorageKey, id: BlockId)
    requires Good(n) && HasRoom(n) && TxContract(n, run.script) && CommitTx(n, tx, run).Some?
    requires Names(id, KnownHead(ChainOf(n)), n.headHash)
    ensures var n' := CommitTx(n, tx, run).value;
            GetStorage(n', key, Some(id), true).1 == Ok(Overlay(n'.store.contents, key))
  {
    var n' := CommitTx(n, tx, run).value;
    var head := KnownHead(ChainOf(n));
    CommitKeepsGood(n, tx, run);
    CommitExtends(n, tx, run);
    CommitArchives(n, tx, run, head);
    CommitPushes(n, tx, run);
    OldNumbers(ChainOf(n));
    RetainedInWindow(n', n.headHash);
    ReadAtBlock(n', head, key, true);
    LiveValue(n', key);
  }

  /** What a client reads at that head right after the commit: every slot as the transaction left it.
      For one slot this is what the head held before the transaction if and only if the transaction
      did not write the slot, or wrote what the slot read already. For the slot of the batch number
      it never is. */
  lemma HeadReadsAfterTx(n: Node, tx: Tx, run: VmRun, key: StorageKey, id: BlockId)
    requires Good(n) && HasRoom(n) && TxContract(n, run.script) && CommitTx(n, tx, run).Some?
    requires Names(id, KnownHead(ChainOf(n)), n.headHash)
    ensures var n' := CommitTx(n, tx, run).value;
            var c := n.store.contents;
            var answer := GetStorage(n', key, Some(id), true).1;
            && answer == Ok(Overlay(n'.store.contents, key))
            && (answer == Ok(Overlay(c, key))
                <==> match LastWrite(run.script, key)
                     case None => true
                     case Some(value) => EffectiveValue(c, key, value) == Overlay(c, key))
            && (key == BATCH_INFO ==> answer != Ok(Overlay(c, key)))
  {
    HeadShowsPresent(n, tx, run, key, id);
    SlotAfterCommit(n, tx, run, key);
    BatchNumberMoves(n, tx, run);
  }
}
