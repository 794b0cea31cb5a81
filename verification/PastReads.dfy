/** When a read at a past block gives the block's own value: mined blocks, which are never archived, and
    transaction blocks, whose archived entries lack the zero slots. */
module PastReads {
  import opened Base
  import opened ForkedStorage
  import opened Views
  import opened NodeModel
  import opened Coupling
  import opened Chain
  import opened History
  import opened Runs
  import opened Snapshots
  import opened CacheRuns
  import opened SlotWrites
  import opened HistoricalReads

  /* ---------- mined blocks are not archived ---------- */

  lemma {:induction false} OnlyTheseAreArchived(base: nat, txs: set<nat>, i: nat, number: nat)
    requires number in Archived(base, txs, i)
    ensures number == base || number in txs || (number > 0 && number - 1 in txs)
    decreases i
  {
    if i > base {
      if i in txs && number !in Archived(base, txs, i - 1) {
        assert number == i || number == HeadNumber(base, txs, i - 1);
        HeadFollowsTx(base, txs, i - 1);
      } else {
        OnlyTheseAreArchived(base, txs, i - 1, number);
      }
    }
  }

  lemma {:induction false} HeadFollowsTx(base: nat, txs: set<nat>, i: nat)
    ensures var head := HeadNumber(base, txs, i); head == base || (head > 0 && head - 1 in txs)
    decreases i
  {
    if i > base && i - 1 !in txs {
      HeadFollowsTx(base, txs, i - 1);
    }
  }

  /** Block `number` was mined, and stands in the chain under `hash`. */
  ghost predicate Mined(c: Chain, number: nat, hash: Hash) {
    && c.base < number <= c.height && number in c.hashes && c.hashes[number] == hash
    && number !in TxNumbers(c) && number - 1 !in TxNumbers(c)
  }

  /** A mined block is never archived, so a read at it shows the present. */
  lemma ReadAtMined(n: Node, number: nat, hash: Hash, key: StorageKey, online: bool)
    requires Good(n) && Mined(ChainOf(n), number, hash)
    ensures ShowsPresent(n, number, hash, key, online)
  {
    var c := ChainOf(n);
    var numbers := ArchivedNumbers(c);
    if number in numbers {
      OnlyTheseAreArchived(c.base, TxNumbers(c), c.height, number);
      assert false;
    }
    OldNumbers(c);
    NotAmong(c, numbers, number);
    ReadAtBlock(n, number, key, online);
  }

  lemma MinedByExtension(c: Chain, c': Chain, number: nat)
    requires Sealed(c) && WellLinked(c') && Extends(c, c') && c.height < number <= c'.height
    requires forall i: nat :: c.height < i <= c'.height ==> i !in TxNumbers(c')
    ensures number in c'.hashes && Mined(c', number, c'.hashes[number])
  {
    assert Sound(c', number);
    assert c.height !in TxNumbers(c);
  }

  /** Every block of a mining call is a mined block. */
  lemma MiningMines(n: Node, interval: U64, scripts: seq<seq<Access>>, number: nat)
    requires Good(n) && MineOk(n, true, interval, scripts)
    requires n.miniblock < number <= n.miniblock + |scripts|
    ensures var mined := Mine(n, true, interval, scripts);
            number in mined.blockHashes && Mined(ChainOf(mined), number, mined.blockHashes[number])
  {
    MineExtends(n, true, interval, scripts);
    MineKeepsGood(n, true, interval, scripts);
    MinedByExtension(ChainOf(n), ChainOf(Mine(n, true, interval, scripts)), number);
  }

  lemma ExtendsKeepsMined(c: Chain, c': Chain, number: nat, hash: Hash)
    requires Extends(c, c') && Mined(c, number, hash)
    ensures Mined(c', number, hash)
  {
  }

  lemma MinedAnswer(n: Node, number: nat, hash: Hash, key: StorageKey, id: BlockId)
    requires Good(n) && Mined(ChainOf(n), number, hash) && Names(id, number, hash)
    ensures GetStorage(n, key, Some(id), true).1 == Ok(Overlay(n.store.contents, key))
  {
    ReadAtMined(n, number, hash, key, true);
    LiveValue(n, key);
  }

  /** Reads at mined blocks are never historical: at any later time of the same history a read at a mined
      block, by number or by hash, shows the present. */
  lemma MinedReadsShowPresent(sys: Sys, number: nat, hash: Hash, ops: seq<Op>, later: Sys, key: StorageKey,
                              id: BlockId)
    requires GoodSys(sys) && Mined(ChainOf(sys.node), number, hash)
    requires AdmissibleRun(sys, ops) && KeepsAll(ops, |sys.snapshots|) && Run(sys, ops) == Some(later)
    requires Names(id, number, hash)
    ensures Mined(ChainOf(later.node), number, hash)
    ensures GetStorage(later.node, key, Some(id), true).1 == Ok(Overlay(later.node.store.contents, key))
  {
    RunExtends(sys, ops, |sys.snapshots|, ChainOf(sys.node));
    ExtendsKeepsMined(ChainOf(sys.node), ChainOf(later.node), number, hash);
    MinedAnswer(later.node, number, hash, key, id);
  }

  /* ---------- when they are right all the same ---------- */

  /** The system after a mining call has gone on from its newest block with the blocks in `rest`. */
  function MinedOn(sys: Sys, interval: U64, rest: seq<seq<Access>>): Sys {
    sys.(node := Mine(sys.node, false, interval, rest))
  }

  lemma MinedOnIsGood(sys: Sys, interval: U64, rest: seq<seq<Access>>, number: nat, hash: Hash)
    requires GoodSys(sys) && MineOk(sys.node, false, interval, rest) && Mined(ChainOf(sys.node), number, hash)
    ensures GoodSys(MinedOn(sys, interval, rest))
    ensures Mined(ChainOf(MinedOn(sys, interval, rest).node), number, hash)
  {
    MineKeepsGood(sys.node, false, interval, rest);
    MineKeepsFork(sys.node, false, interval, rest);
    MineExtends(sys.node, false, interval, rest);
    ExtendsKeepsMined(ChainOf(sys.node), ChainOf(MinedOn(sys, interval, rest).node), number, hash);
  }

  lemma SlotAfterMinedOn(sys: Sys, interval: U64, rest: seq<seq<Access>>, ops: seq<Op>, later: Sys, key: StorageKey)
    requires Coherent(sys.node.store) && CoherentSys(MinedOn(sys, interval, rest))
    requires KeepsAll(ops, |sys.snapshots|) && Run(MinedOn(sys, interval, rest), ops) == Some(later)
    ensures Overlay(later.node.store.contents, key)
         == ReadAfter(sys.node.store.contents, key,
                      Newer(LastWriteOf(rest, key), RunWrites(MinedOn(sys, interval, rest), ops, key)))
  {
    var mined := MinedOn(sys, interval, rest);
    SlotAfterMine(sys.node, false, interval, rest, key);
    SlotAfterCalls(mined, ops, key);
    ReadAfterBoth(sys.node.store.contents, mined.node.store.contents, key, LastWriteOf(rest, key),
                  RunWrites(mined, ops, key));
  }

  lemma RightExactly(c: Contents, key: StorageKey, written: Option<Word>, answer: Result<Word>)
    requires answer == Ok(ReadAfter(c, key, written))
    ensures answer == Ok(Overlay(c, key)) <==> LeavesValue(c, key, written)
  {
  }

  /** What was written to a slot since the newest block of `sys`. */
  function WrittenSince(sys: Sys, interval: U64, rest: seq<seq<Access>>, ops: seq<Op>, key: StorageKey): Option<Word> {
    Newer(LastWriteOf(rest, key), RunWrites(MinedOn(sys, interval, rest), ops, key))
  }

  lemma MinedAnswerIsLastWrite(sys: Sys, interval: U64, rest: seq<seq<Access>>, ops: seq<Op>, later: Sys,
                               key: StorageKey, number: nat, hash: Hash, id: BlockId)
    requires GoodSys(MinedOn(sys, interval, rest)) && Coherent(sys.node.store)
    requires Mined(ChainOf(MinedOn(sys, interval, rest).node), number, hash) && Names(id, number, hash)
    requires AdmissibleRun(MinedOn(sys, interval, rest), ops) && KeepsAll(ops, |sys.snapshots|)
    requires Run(MinedOn(sys, interval, rest), ops) == Some(later)
    ensures GetStorage(later.node, key, Some(id), true).1
         == Ok(ReadAfter(sys.node.store.contents, key, WrittenSince(sys, interval, rest, ops, key)))
  {
    MinedReadsShowPresent(MinedOn(sys, interval, rest), number, hash, ops, later, key, id);
    SlotAfterMinedOn(sys, interval, rest, ops, later, key);
  }

  /** Exactly when a read at a mined block is right. Let the block be the newest of `sys`, let its mining
      call go on with the blocks in `rest`, and let any calls follow that keep the history. A read at the
      block then gives the slot's last write since, and that is the value the slot had in the block if
      and only if nothing was written to the slot since, or the last write was of that value (a zero
      over a fork counting as the remote value). */
  lemma MinedReadsAreRightExactly(sys: Sys, interval: U64, rest: seq<seq<Access>>, ops: seq<Op>, later: Sys,
                                  key: StorageKey, hash: Hash, id: BlockId)
    requires GoodSys(sys) && Mined(ChainOf(sys.node), sys.node.miniblock, hash) && Names(id, sys.node.miniblock, hash)
    requires MineOk(sys.node, false, interval, rest)
    requires AdmissibleRun(MinedOn(sys, interval, rest), ops) && KeepsAll(ops, |sys.snapshots|)
    requires Run(MinedOn(sys, interval, rest), ops) == Some(later)
    ensures var c := sys.node.store.contents;
            var written := WrittenSince(sys, interval, rest, ops, key);
            var answer := GetStorage(later.node, key, Some(id), true).1;
            && answer == Ok(ReadAfter(c, key, written))
            && (answer == Ok(Overlay(c, key)) <==> LeavesValue(c, key, written))
  {
    MinedOnIsGood(sys, interval, rest, sys.node.miniblock, hash);
    MinedAnswerIsLastWrite(sys, interval, rest, ops, later, key, sys.node.miniblock, hash, id);
    RightExactly(sys.node.store.contents, key, WrittenSince(sys, interval, rest, ops, key),
                 GetStorage(later.node, key, Some(id), true).1);
  }

  lemma {:induction false} MineAppend(n: Node, first: bool, interval: U64, front: seq<seq<Access>>,
                                      rest: seq<seq<Access>>)
    ensures Mine(n, first, interval, front + rest)
         == Mine(Mine(n, first, interval, front), first && front == [], interval, rest)
    ensures MineOk(n, first, interval, front + rest)
       <==> MineOk(n, first, interval, front)
            && MineOk(Mine(n, first, interval, front), first && front == [], interval, rest)
    decreases |front|
  {
    if front == [] {
      assert front + rest == rest;
    } else {
      assert (front + rest)[1..] == front[1..] + rest;
      MineAppend(MineOne(n, first, interval, front[0]), false, interval, front[1..], rest);
    }
  }

  /** The system when a mining call has appended the blocks in `front`. */
  function MinedUpTo(sys: Sys, interval: U64, front: seq<seq<Access>>): Sys {
    sys.(node := Mine(sys.node, true, interval, front))
  }

  lemma FrontIsGood(sys: Sys, interval: U64, front: seq<seq<Access>>)
    requires GoodSys(sys) && MineOk(sys.node, true, interval, front)
    ensures GoodSys(MinedUpTo(sys, interval, front))
    ensures MinedUpTo(sys, interval, front).node.miniblock == sys.node.miniblock + |front|
  {
    MineKeepsGood(sys.node, true, interval, front);
    MineKeepsFork(sys.node, true, interval, front);
    MineExtends(sys.node, true, interval, front);
  }

  lemma FrontIsMined(n: Node, interval: U64, front: seq<seq<Access>>)
    requires Good(n) && MineOk(n, true, interval, front) && front != []
    ensures var n' := Mine(n, true, interval, front);
            n'.miniblock in n'.blockHashes && Mined(ChainOf(n'), n'.miniblock, n'.blockHashes[n'.miniblock])
  {
    MineExtends(n, true, interval, front);
    MiningMines(n, interval, front, n.miniblock + |front|);
  }

  /** Every block of every mining call is such a block: the call up to it leaves a good system in which it
      is the newest block and mined, and the call goes on from there. */
  lemma EveryMinedBlock(sys: Sys, interval: U64, front: seq<seq<Access>>, rest: seq<seq<Access>>)
    requires GoodSys(sys) && MineOk(sys.node, true, interval, front + rest) && front != []
    ensures GoodSys(MinedUpTo(sys, interval, front))
    ensures var n := MinedUpTo(sys, interval, front).node;
            && n.miniblock == sys.node.miniblock + |front|
            && n.miniblock in n.blockHashes && Mined(ChainOf(n), n.miniblock, n.blockHashes[n.miniblock])
            && MineOk(n, false, interval, rest)
    ensures MinedOn(MinedUpTo(sys, interval, front), interval, rest) == MinedUpTo(sys, interval, front + rest)
  {
    MineAppend(sys.node, true, interval, front, rest);
    FrontIsGood(sys, interval, front);
    FrontIsMined(sys.node, interval, front);
  }

  /* ---------- archived blocks ---------- */

  /** The archive still holds a non-zero value of the slot for the block. */
  ghost predicate Retains(n: Node, hash: Hash, state: map<StorageKey, Word>, key: StorageKey) {
    && hash in Last(HashesAt(n.blockHashes, ArchivedNumbers(ChainOf(n))), WINDOW)
    && key in state && state[key] != 0
  }

  lemma ArchivedAnswer(n: Node, number: nat, hash: Hash, state: map<StorageKey, Word>, key: StorageKey, id: BlockId)
    requires Good(n) && Archives(n, number, hash, state) && Names(id, number, hash)
    ensures GetStorage(n, key, Some(id), true).1
         == Ok(if Retains(n, hash, state, key) then state[key] else Overlay(n.store.contents, key))
  {
    OldNumbers(ChainOf(n));
    ReadAtBlock(n, number, key, true);
    IndexOfFirst(n.archive, hash);
    LiveValue(n, key);
  }

  /** Exactly when a read at an archived block is right. Let the entry of the block hold what the local
      storage of `sys` is, and let any calls follow that keep the history. A read at the block gives the
      value the slot had then if and only if the archive still holds a non-zero value of the slot for
      the block, or nothing was written to the slot since, or the last write was of that value. */
  lemma ArchivedReadsAreRightExactly(sys: Sys, number: nat, hash: Hash, ops: seq<Op>, later: Sys, key: StorageKey,
                                     id: BlockId)
    requires GoodSys(sys) && Archives(sys.node, number, hash, sys.node.store.contents.raw.state)
    requires AdmissibleRun(sys, ops) && KeepsAll(ops, |sys.snapshots|) && Run(sys, ops) == Some(later)
    requires Names(id, number, hash)
    ensures var c := sys.node.store.contents;
            GetStorage(later.node, key, Some(id), true).1 == Ok(Overlay(c, key))
            <==> Retains(later.node, hash, c.raw.state, key) || LeavesValue(c, key, RunWrites(sys, ops, key))
  {
    var state := sys.node.store.contents.raw.state;
    RunKeepsArchived(sys, ops, |sys.snapshots|, number, hash, state);
    ArchivedAnswer(later.node, number, hash, state, key, id);
    SlotAfterCalls(sys, ops, key);
  }

  lemma OwnEntry(n: Node, tx: Tx, run: VmRun)
    requires Good(n) && HasRoom(n) && TxContract(n, run.script) && CommitTx(n, tx, run).Some?
    ensures var n' := CommitTx(n, tx, run).value;
            Archives(n', n.miniblock + 1, TxBlock(n, tx.hash, NextContext(n)).hash, n'.store.contents.raw.state)
  {
    CommitArchives(n, tx, run, n.miniblock + 1);
    CommitSlides(n, tx, run);
    CommitPushes(n, tx, run);
  }

  /** Every transaction block is such a block right after its commit. */
  lemma EveryTxBlock(sys: Sys, tx: Tx, run: VmRun, n: Node)
    requires GoodSys(sys) && Admissible(sys, SendTx(tx, run)) && Commits(sys.node, SendTx(tx, run))
    requires CommitTx(sys.node, tx, run) == Some(n)
    ensures Step(sys, SendTx(tx, run)) == Done(sys.(node := n), Accepted)
    ensures GoodSys(sys.(node := n))
    ensures Archives(n, sys.node.miniblock + 1, TxBlock(sys.node, tx.hash, NextContext(sys.node)).hash,
                     n.store.contents.raw.state)
  {
    OwnEntry(sys.node, tx, run);
    StepKeepsGoodSys(sys, SendTx(tx, run));
  }

  /* ---------- the latest block ---------- */

  /** A read of the latest block, after any calls that keep the history, replies with the last write to the
      slot that was not undone, a zero over a fork reading the remote value, or else with what the slot
      read before. */
  lemma LatestReadsAreLastWrites(sys: Sys, ops: seq<Op>, later: Sys, key: StorageKey, id: Option<BlockId>)
    requires CoherentSys(sys) && KeepsAll(ops, |sys.snapshots|) && Run(sys, ops) == Some(later)
    requires AsksLatest(id)
    ensures Step(later, ReadStorage(key, id, true)).reply
         == Reply.Number(ReadAfter(sys.node.store.contents, key, RunWrites(sys, ops, key)))
  {
    CachesAlwaysAgreeWithFork(sys, ops);
    ReadAtTag(later.node, key, id, true);
    LiveValue(later.node, key);
    SlotAfterCalls(sys, ops, key);
  }
}
