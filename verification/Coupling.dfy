/** The node keeps its own counters and time; the VM leaves others in storage. A committed
    transaction panics when the two disagree. This module says when they agree. */
module Coupling {
  import opened Base
  import opened ForkedStorage
  import opened Views
  import opened NodeModel

  /* ---------- the VM contract ---------- */

  /** A batch with one transaction and the bootloader stores its own number and time, and for the L2
      block the number and time of the trailing block. */
  predicate TxContract(n: Node, script: seq<Access>) {
    var env := EnvOf(NextContext(n));
    && LastWrite(script, BATCH_INFO) == Some(PackInfo(BlockInfo(env.number, env.timestamp)))
    && LastWrite(script, L2_INFO) == Some(PackInfo(BlockInfo(env.firstBlock + 1, env.timestamp + 1)))
  }

  /** An empty batch has a single L2 block. */
  predicate EmptyContract(n: Node, script: seq<Access>) {
    var env := EnvOf(NextContext(n));
    && LastWrite(script, BATCH_INFO) == Some(PackInfo(BlockInfo(env.number, env.timestamp)))
    && LastWrite(script, L2_INFO) == Some(PackInfo(BlockInfo(env.firstBlock, env.timestamp)))
  }

  /** The contracts can be met: these are the writes they ask for, and nothing else. */
  function TxWrites(n: Node): seq<Access> {
    var env := EnvOf(NextContext(n));
    [WriteSlot(BATCH_INFO, PackInfo(BlockInfo(env.number, env.timestamp))),
     WriteSlot(L2_INFO, PackInfo(BlockInfo(env.firstBlock + 1, env.timestamp + 1)))]
  }

  function EmptyWrites(n: Node): seq<Access> {
    var env := EnvOf(NextContext(n));
    [WriteSlot(BATCH_INFO, PackInfo(BlockInfo(env.number, env.timestamp))),
     WriteSlot(L2_INFO, PackInfo(BlockInfo(env.firstBlock, env.timestamp)))]
  }

  lemma LastOfTwo(first: Access, second: Access)
    requires first.WriteSlot? && second.WriteSlot? && first.key != second.key
    ensures LastWrite([first, second], first.key) == Some(first.value)
    ensures LastWrite([first, second], second.key) == Some(second.value)
  {
    assert [first, second][..1] == [first];
  }

  lemma ContractsCanBeMet(n: Node)
    ensures TxContract(n, TxWrites(n)) && EmptyContract(n, EmptyWrites(n))
  {
    LastOfTwo(TxWrites(n)[0], TxWrites(n)[1]);
    LastOfTwo(EmptyWrites(n)[0], EmptyWrites(n)[1]);
  }

  /* ---------- agreement ---------- */

  predicate Agree(c: Contents, batch: nat, miniblock: nat) {
    && (StoredBatch(c).Some? ==> StoredBatch(c).value.number == batch)
    && (StoredL2(c).Some? ==> StoredL2(c).value.number == miniblock)
  }

  predicate Ahead(c: Contents, time: nat) {
    && (StoredBatch(c).Some? ==> StoredBatch(c).value.timestamp <= time)
    && (StoredL2(c).Some? ==> StoredL2(c).value.timestamp <= time)
  }

  predicate NumbersAgree(n: Node) {
    Agree(n.store.contents, n.batch, n.miniblock)
  }

  predicate TimeAhead(n: Node) {
    Ahead(n.store.contents, n.timestamp)
  }

  /** The counters are far enough from the end of their machine types for one more batch. */
  predicate HasRoom(n: Node) {
    n.batch + 1 < U32_MAX && n.miniblock + 2 <= U32_MAX && LatestTime(n) + 2 <= U64_MAX
  }

  /** The layout of a packed word: the number above 128 bits, cut to 32 bits, the time below; without a
      number nothing was stored. */
  lemma PackedLayout(number: nat, timestamp: nat)
    requires timestamp < TWO_128
    ensures PackInfo(BlockInfo(number, timestamp)) == number * 0x1_0000_0000_0000_0000_0000_0000_0000_0000 + timestamp
    ensures UnpackInfo(number * TWO_128 + timestamp)
         == if number % 0x1_0000_0000 == 0 then None else Some(BlockInfo(number % 0x1_0000_0000, timestamp))
  {
    assert (number * TWO_128 + timestamp) / TWO_128 == number;
    assert (number * TWO_128 + timestamp) % TWO_128 == timestamp;
  }

  lemma UnpackPacked(info: BlockInfo)
    requires 0 < info.number < TWO_32 && info.timestamp < TWO_128
    ensures UnpackInfo(PackInfo(info)) == Some(info)
    ensures PackInfo(info) != 0
  {
    assert PackInfo(info) / TWO_128 == info.number;
    assert PackInfo(info) % TWO_128 == info.timestamp;
  }

  lemma {:induction false} LastWriteAfterReads(script: seq<Access>, key: StorageKey)
    ensures LastWrite(ENV_READS + script, key) == LastWrite(script, key)
    decreases |script|
  {
    if script == [] {
      assert ENV_READS + script == ENV_READS;
      assert ENV_READS[..1] == [ReadSlot(BATCH_INFO)];
      assert [ReadSlot(BATCH_INFO)][..0] == [];
    } else {
      var front := script[..|script| - 1];
      assert (ENV_READS + script)[..|ENV_READS + script| - 1] == ENV_READS + front;
      LastWriteAfterReads(front, key);
    }
  }

  /** A non-zero last write of a VM run is what the flushed storage reads. */
  lemma WrittenIsStored(store: Store, script: seq<Access>, key: StorageKey, value: Word)
    requires Coherent(store)
    requires LastWrite(script, key) == Some(value) && value != 0
    ensures var x := RunInView(store, script);
            Overlay(Flushed(x.store, x.view.modified).contents, key) == value
  {
    ExecuteRefines(Open(store), ENV_READS + script);
    BufferIsLastWrites(map[], store.contents, ENV_READS + script, key);
    LastWriteAfterReads(script, key);
  }

  lemma RunIsCoherent(store: Store, script: seq<Access>)
    requires Coherent(store)
    ensures var x := RunInView(store, script);
            && x.store.contents == store.contents
            && Coherent(x.store)
            && Coherent(Flushed(x.store, x.view.modified))
  {
    ExecuteRefines(Open(store), ENV_READS + script);
  }

  lemma StoredAfterRun(store: Store, script: seq<Access>, batch: BlockInfo, l2: BlockInfo)
    requires Coherent(store)
    requires 0 < batch.number < TWO_32 && batch.timestamp < TWO_128
    requires 0 < l2.number < TWO_32 && l2.timestamp < TWO_128
    requires LastWrite(script, BATCH_INFO) == Some(PackInfo(batch))
    requires LastWrite(script, L2_INFO) == Some(PackInfo(l2))
    ensures var x := RunInView(store, script);
            var c := Flushed(x.store, x.view.modified).contents;
            StoredBatch(c) == Some(batch) && StoredL2(c) == Some(l2)
  {
    UnpackPacked(batch);
    UnpackPacked(l2);
    WrittenIsStored(store, script, BATCH_INFO, PackInfo(batch));
    WrittenIsStored(store, script, L2_INFO, PackInfo(l2));
  }

  /* ---------- transactions ---------- */

  lemma NextContextAgrees(n: Node)
    requires HasRoom(n)
    ensures NumbersAgree(n) ==> NextContext(n).batch == n.batch + 1 && NextContext(n).miniblock == n.miniblock + 1
    ensures NextContext(n).timestamp == LatestTime(n) + 1
    ensures LatestTime(n) == n.timestamp <==> TimeAhead(n)
  {
  }

  /** Where the next context comes from: the numbers are one above those the VM left in its two slots, or
      above the node's own where a slot has none, and the time is one above the latest of all three; each
      stops at the largest value it can hold. */
  lemma NextContextFromSlots(n: Node)
    ensures var w1 := Overlay(n.store.contents, StorageKey(0x800b, 7));
            var w2 := Overlay(n.store.contents, StorageKey(0x800b, 9));
            var batch, block := w1 / TWO_128 % 0x1_0000_0000, w2 / TWO_128 % 0x1_0000_0000;
            var t1 := if batch == 0 then n.timestamp else w1 % TWO_128;
            var t2 := if block == 0 then n.timestamp else w2 % TWO_128;
            && NextContext(n).batch == Min((if batch == 0 then n.batch else batch) + 1, 0xFFFF_FFFF)
            && NextContext(n).miniblock == (if block == 0 then n.miniblock % 0x1_0000_0000 else block) + 1
            && NextContext(n).timestamp == Min(Max(Max(t1, t2), n.timestamp) + 1, 0xFFFF_FFFF_FFFF_FFFF)
  {
  }

  /** The exact condition of the panics: committing panics if and only if the stored numbers differ
      from the node's, or the stored time is later than the node's. */
  lemma PanicIffOutOfStep(n: Node, tx: Tx, run: VmRun)
    requires HasRoom(n)
    ensures CommitTx(n, tx, run).None? <==> !(NumbersAgree(n) && TimeAhead(n))
  {
    NextContextAgrees(n);
    var ctx := NextContext(n);
    assert ctx == BlockContext(n.batch + 1, n.miniblock + 1, n.timestamp + 1) <==> NumbersAgree(n) && TimeAhead(n);
  }

  /** The storage a commit leaves. */
  lemma CommitStore(n: Node, tx: Tx, run: VmRun)
    requires CommitTx(n, tx, run).Some?
    ensures var x := RunInView(n.store, run.script);
            CommitTx(n, tx, run).value.store == WithBytecodes(Flushed(x.store, x.view.modified), run.bytecodes)
  {
  }

  /** The counters and the storage a commit leaves; the checks that did not panic fix the counters. */
  lemma CommitCounters(n: Node, tx: Tx, run: VmRun)
    requires HasRoom(n) && CommitTx(n, tx, run).Some?
    ensures var n' := CommitTx(n, tx, run).value;
            var x := RunInView(n.store, run.script);
            && n'.batch == n.batch + 1 && n'.miniblock == n.miniblock + 2 && n'.timestamp == n.timestamp + 2
            && n'.store == WithBytecodes(Flushed(x.store, x.view.modified), run.bytecodes)
    ensures NextContext(n) == BlockContext(n.batch + 1, n.miniblock + 1, n.timestamp + 1)
  {
    PanicIffOutOfStep(n, tx, run);
    NextContextAgrees(n);
  }

  lemma BytecodesKeepSlots(s: Store, bytecodes: map<Word, Bytes>, key: StorageKey)
    ensures Overlay(WithBytecodes(s, bytecodes).contents, key) == Overlay(s.contents, key)
    ensures Coherent(WithBytecodes(s, bytecodes)) <==> Coherent(s)
  {
  }

  /** After a commit the counters have moved by one batch and two blocks, and storage follows. */
  lemma CommitCouples(n: Node, tx: Tx, run: VmRun)
    requires Coherent(n.store) && HasRoom(n) && TxContract(n, run.script)
    requires CommitTx(n, tx, run).Some?
    ensures var n' := CommitTx(n, tx, run).value;
            && n'.batch == n.batch + 1 && n'.miniblock == n.miniblock + 2 && n'.timestamp == n.timestamp + 2
            && Coherent(n'.store) && NumbersAgree(n') && TimeAhead(n')
            && StoredBatch(n'.store.contents) == Some(BlockInfo(n.batch + 1, n.timestamp + 1))
  {
    CommitCounters(n, tx, run);
    var x := RunInView(n.store, run.script);
    var flushed := Flushed(x.store, x.view.modified);
    StoredAfterRun(n.store, run.script, BlockInfo(n.batch + 1, n.timestamp + 1),
                   BlockInfo(n.miniblock + 2, n.timestamp + 2));
    RunIsCoherent(n.store, run.script);
    BytecodesKeepSlots(flushed, run.bytecodes, BATCH_INFO);
    BytecodesKeepSlots(flushed, run.bytecodes, L2_INFO);
  }

  /* ---------- mining ---------- */

  lemma MineOneCouples(n: Node, first: bool, interval: U64, script: seq<Access>)
    requires Coherent(n.store) && NumbersAgree(n) && HasRoom(n) && EmptyContract(n, script)
    requires first || n.timestamp + interval <= U64_MAX
    ensures var n' := MineOne(n, first, interval, script);
            && n'.batch == n.batch + 1 && n'.miniblock == n.miniblock + 1
            && Coherent(n'.store) && NumbersAgree(n')
            && StoredBatch(n'.store.contents) == Some(BlockInfo(n.batch + 1, LatestTime(n) + 1))
            && StoredL2(n'.store.contents) == Some(BlockInfo(n.miniblock + 1, LatestTime(n) + 1))
            && (TimeAhead(n') <==> first || LatestTime(n) + 1 <= n.timestamp + interval)
  {
    NextContextAgrees(n);
    var batch := BlockInfo(n.batch + 1, LatestTime(n) + 1);
    var l2 := BlockInfo(n.miniblock + 1, LatestTime(n) + 1);
    StoredAfterRun(n.store, script, batch, l2);
    RunIsCoherent(n.store, script);
  }

  /** The VM keeps its contract for every block mined, and no counter runs out; the first block ignores
      the interval. */
  predicate MineOk(n: Node, first: bool, interval: U64, scripts: seq<seq<Access>>)
    decreases |scripts|
  {
    scripts == [] ||
    (&& HasRoom(n)
     && (first || n.timestamp + interval <= U64_MAX)
     && EmptyContract(n, scripts[0])
     && MineOk(MineOne(n, first, interval, scripts[0]), false, interval, scripts[1..]))
  }

  /** Blocks after the first keep the node ahead of storage exactly when the interval is not zero. */
  lemma {:induction false} MineRestCouples(n: Node, interval: U64, scripts: seq<seq<Access>>)
    requires Coherent(n.store) && NumbersAgree(n) && MineOk(n, false, interval, scripts)
    ensures var n' := Mine(n, false, interval, scripts);
            && Coherent(n'.store) && NumbersAgree(n')
            && n'.miniblock == n.miniblock + |scripts|
            && (interval > 0 && TimeAhead(n) ==> TimeAhead(n'))
            && (interval == 0 && scripts != [] ==> !TimeAhead(n'))
    decreases |scripts|
  {
    if scripts != [] {
      var n1 := MineOne(n, false, interval, scripts[0]);
      NextContextAgrees(n);
      MineOneCouples(n, false, interval, scripts[0]);
      MineRestCouples(n1, interval, scripts[1..]);
      if scripts[1..] == [] {
        assert Mine(n, false, interval, scripts) == n1;
      }
    }
  }

  /** A mining call always catches the node up with storage, unless it mines several blocks with
      interval zero, which always leaves it behind. */
  lemma MineCouples(n: Node, interval: U64, scripts: seq<seq<Access>>)
    requires Coherent(n.store) && NumbersAgree(n) && MineOk(n, true, interval, scripts) && scripts != []
    ensures var n' := Mine(n, true, interval, scripts);
            && Coherent(n'.store) && NumbersAgree(n')
            && n'.miniblock == n.miniblock + |scripts|
            && (TimeAhead(n') <==> |scripts| == 1 || interval > 0)
  {
    var n1 := MineOne(n, true, interval, scripts[0]);
    MineOneCouples(n, true, interval, scripts[0]);
    MineRestCouples(n1, interval, scripts[1..]);
    if scripts[1..] == [] {
      assert Mine(n, true, interval, scripts) == n1;
    }
  }
}
