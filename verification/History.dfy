/** The archive of historical states is a sliding window over the chain. */
module History {
  import opened Base
  import opened LocalStorage
  import opened ForkedStorage
  import opened Views
  import opened NodeModel
  import opened Coupling
  import opened Chain

  /** The archive test comes before the insertion, so one more than the nominal maximum is kept. */
  const WINDOW: nat := MAX_PREVIOUS_STATES + 1

  /* ---------- which blocks are archived ---------- */

  /** The newest block up to height `i` that the node knew as its head: a trailing block, which
      follows a transaction block, or the first block of all. Mined blocks are never the known head. */
  function HeadNumber(base: nat, txs: set<nat>, i: nat): nat
    decreases i
  {
    if i <= base then base
    else if i - 1 in txs then i
    else HeadNumber(base, txs, i - 1)
  }

  /** The blocks archived up to height `i`, oldest first: for each transaction block the head known
      before it, then the block itself. */
  function Archived(base: nat, txs: set<nat>, i: nat): seq<nat>
    decreases i
  {
    if i <= base then []
    else if i in txs then Archived(base, txs, i - 1) + [HeadNumber(base, txs, i - 1), i]
    else Archived(base, txs, i - 1)
  }

  ghost predicate Spaced(txs: set<nat>) {
    forall j, k :: j in txs && k in txs ==> k != j + 1
  }

  predicate Increasing(s: seq<nat>) {
    forall j, k :: 0 <= j < k < |s| ==> s[j] < s[k]
  }

  predicate Within(s: seq<nat>, low: nat, high: nat) {
    forall j :: 0 <= j < |s| ==> low <= s[j] < high
  }

  lemma IncreasingAppend(s: seq<nat>, low: nat, x: nat, y: nat)
    requires Increasing(s) && Within(s, low, x) && low <= x < y
    ensures Increasing(s + [x, y]) && Within(s + [x, y], low, y + 1)
  {
  }

  /** No block is archived twice: the archived numbers strictly increase, and after a block that is
      not a transaction block the known head is above all of them. */
  lemma {:induction false} NumbersIncrease(base: nat, txs: set<nat>, i: nat)
    requires Spaced(txs) && base <= i && base !in txs
    ensures Increasing(Archived(base, txs, i))
    ensures Within(Archived(base, txs, i), base, i + 1)
    ensures i !in txs ==> Within(Archived(base, txs, i), base, HeadNumber(base, txs, i))
    ensures base <= HeadNumber(base, txs, i) <= i
    decreases i
  {
    if i > base {
      NumbersIncrease(base, txs, i - 1);
      if i in txs {
        assert i - 1 !in txs;
        IncreasingAppend(Archived(base, txs, i - 1), base, HeadNumber(base, txs, i - 1), i);
      }
    }
  }

  lemma {:induction false} NumbersFrame(base: nat, txs: set<nat>, more: set<nat>, i: nat)
    requires forall k: nat :: k <= i ==> (k in txs <==> k in more)
    ensures Archived(base, txs, i) == Archived(base, more, i)
    ensures HeadNumber(base, txs, i) == HeadNumber(base, more, i)
    decreases i
  {
    if i > base {
      NumbersFrame(base, txs, more, i - 1);
    }
  }

  /** The numbers of a chain's transaction blocks. */
  function TxNumbers(c: Chain): set<nat> {
    set i | i in c.hashes && i > c.base && IsTx(c, i)
  }

  lemma ChainIsSpaced(c: Chain)
    requires WellLinked(c)
    ensures Spaced(TxNumbers(c)) && c.base !in TxNumbers(c)
  {
    forall j, k | j in TxNumbers(c) && k in TxNumbers(c)
      ensures k != j + 1
    {
      assert Sound(c, k);
    }
  }

  lemma TxNumbersGrow(c: Chain, b: Block)
    requires WellLinked(c) && Fits(c, b)
    ensures TxNumbers(Grow(c, b)) == TxNumbers(c) + if b.transactions != [] then {b.number} else {}
    ensures b.number !in TxNumbers(c)
  {
    GrowAddsSound(c, b);
    forall i | i in c.hashes
      ensures i in TxNumbers(Grow(c, b)) <==> i in TxNumbers(c)
    {
      GrowFrame(c, b, i);
    }
  }

  function ArchivedNumbers(c: Chain): seq<nat> {
    Archived(c.base, TxNumbers(c), c.height)
  }

  function KnownHead(c: Chain): nat {
    HeadNumber(c.base, TxNumbers(c), c.height)
  }

  /* ---------- the window ---------- */

  function Keys(archive: seq<Entry>): seq<Hash> {
    seq(|archive|, i requires 0 <= i < |archive| => archive[i].hash)
  }

  function HashesAt(hashes: map<nat, Hash>, numbers: seq<nat>): seq<Hash> {
    seq(|numbers|, i requires 0 <= i < |numbers| =>
      if numbers[i] in hashes then hashes[numbers[i]] else ZERO_HASH)
  }

  function Last(s: seq<Hash>, n: nat): seq<Hash> {
    if |s| <= n then s else s[|s| - n..]
  }

  lemma {:induction false} IndexOfFirst(archive: seq<Entry>, hash: Hash)
    ensures IndexOf(archive, hash) <= |archive|
    ensures IndexOf(archive, hash) < |archive| ==> archive[IndexOf(archive, hash)].hash == hash
    ensures forall j :: 0 <= j < IndexOf(archive, hash) ==> archive[j].hash != hash
  {
    if archive != [] {
      IndexOfFirst(archive[1..], hash);
    }
  }

  /** Whatever the archive holds under `hash` is `state`. */
  predicate Records(archive: seq<Entry>, hash: Hash, state: map<StorageKey, Word>) {
    forall j :: 0 <= j < |archive| && archive[j].hash == hash ==> archive[j].state == state
  }

  /** In an archive with distinct keys every entry is found under its key. */
  lemma EntryIsFound(archive: seq<Entry>, i: nat)
    requires i < |archive|
    requires forall j :: 0 <= j < |archive| && j != i ==> archive[j].hash != archive[i].hash
    ensures LookupEntry(archive, archive[i].hash) == Some(archive[i].state)
    ensures Records(archive, archive[i].hash, archive[i].state)
  {
    IndexOfFirst(archive, archive[i].hash);
  }

  /** Pushing a state under a hash never archived slides the window by one. */
  lemma PushSlides(archive: seq<Entry>, all: seq<Hash>, entry: Entry)
    requires Keys(archive) == Last(all, WINDOW) && entry.hash !in all
    ensures var kept := if |archive| > MAX_PREVIOUS_STATES then archive[1..] else archive;
            PushEntry(archive, entry) == kept + [entry]
    ensures Keys(PushEntry(archive, entry)) == Last(all + [entry.hash], WINDOW)
  {
    var kept := if |archive| > MAX_PREVIOUS_STATES then archive[1..] else archive;
    forall i | 0 <= i < |kept|
      ensures kept[i].hash != entry.hash
    {
      var j := if |archive| > MAX_PREVIOUS_STATES then i + 1 else i;
      assert Keys(archive)[j] == kept[i].hash;
    }
    IndexOfFirst(kept, entry.hash);
  }

  /** Two pushes of new and different hashes: the window slides by two and both states are found. */
  lemma TwoPushes(archive: seq<Entry>, all: seq<Hash>, first: Entry, second: Entry)
    requires Keys(archive) == Last(all, WINDOW)
    requires first.hash !in all && second.hash !in all && first.hash != second.hash
    ensures var twice := PushEntry(PushEntry(archive, first), second);
            && Keys(twice) == Last(all + [first.hash, second.hash], WINDOW)
            && LookupEntry(twice, first.hash) == Some(first.state)
            && LookupEntry(twice, second.hash) == Some(second.state)
            && Records(twice, first.hash, first.state) && Records(twice, second.hash, second.state)
  {
    PushSlides(archive, all, first);
    var once := PushEntry(archive, first);
    PushSlides(once, all + [first.hash], second);
    var twice := PushEntry(once, second);
    assert all + [first.hash] + [second.hash] == all + [first.hash, second.hash];
    assert twice[|twice| - 1] == second && twice[|twice| - 2] == first;
    AllButTwo(twice, all, first.hash, second.hash);
    TwoFound(twice, all);
  }

  lemma AllButTwo(archive: seq<Entry>, all: seq<Hash>, x: Hash, y: Hash)
    requires |archive| >= 2 && Keys(archive) == Last(all + [x, y], WINDOW)
    ensures forall j :: 0 <= j < |archive| - 2 ==> archive[j].hash in all
  {
    var longer := all + [x, y];
    forall j | 0 <= j < |archive| - 2
      ensures archive[j].hash in all
    {
      assert archive[j].hash == Keys(archive)[j] == longer[|longer| - |archive| + j];
      assert archive[j].hash == all[|longer| - |archive| + j];
    }
  }

  lemma TwoFound(archive: seq<Entry>, all: seq<Hash>)
    requires |archive| >= 2
    requires forall j :: 0 <= j < |archive| - 2 ==> archive[j].hash in all
    requires archive[|archive| - 1].hash !in all && archive[|archive| - 2].hash !in all
    requires archive[|archive| - 1].hash != archive[|archive| - 2].hash
    ensures LookupEntry(archive, archive[|archive| - 1].hash) == Some(archive[|archive| - 1].state)
    ensures Records(archive, archive[|archive| - 1].hash, archive[|archive| - 1].state)
    ensures LookupEntry(archive, archive[|archive| - 2].hash) == Some(archive[|archive| - 2].state)
    ensures Records(archive, archive[|archive| - 2].hash, archive[|archive| - 2].state)
  {
    EntryIsFound(archive, |archive| - 2);
    EntryIsFound(archive, |archive| - 1);
  }

  /** The window property of a node, computed from its own chain: the archived keys, in order, are the
      last `WINDOW` archived blocks of the current history. */
  ghost predicate WindowOk(n: Node) {
    var c := ChainOf(n);
    && Keys(n.archive) == Last(HashesAt(n.blockHashes, ArchivedNumbers(c)), WINDOW)
    && KnownHead(c) in n.blockHashes
    && n.headHash == n.blockHashes[KnownHead(c)]
  }

  lemma HashesDiffer(c: Chain, i: nat, j: nat)
    requires WellLinked(c) && i in c.hashes && j in c.hashes && i != j
    ensures c.hashes[i] != c.hashes[j]
  {
    assert Sound(c, i) && Sound(c, j);
  }

  lemma NotAmong(c: Chain, numbers: seq<nat>, x: nat)
    requires WellLinked(c) && x in c.hashes
    requires forall j :: 0 <= j < |numbers| ==> numbers[j] in c.hashes && numbers[j] != x
    ensures c.hashes[x] !in HashesAt(c.hashes, numbers)
  {
    forall j | 0 <= j < |numbers|
      ensures HashesAt(c.hashes, numbers)[j] != c.hashes[x]
    {
      HashesDiffer(c, numbers[j], x);
    }
  }

  lemma GrowKeepsHashes(c: Chain, b: Block, numbers: seq<nat>)
    requires WellLinked(c) && Fits(c, b)
    requires forall j :: 0 <= j < |numbers| ==> c.base <= numbers[j] <= c.height
    ensures HashesAt(Grow(c, b).hashes, numbers) == HashesAt(c.hashes, numbers)
  {
  }

  /* ---------- commits ---------- */

  /** The local storage as it stands right after a transaction's slots were written. */
  function StateAfter(n: Node, run: VmRun): map<StorageKey, Word> {
    var x := RunInView(n.store, run.script);
    Flushed(x.store, x.view.modified).contents.raw.state
  }

  lemma CommitPushes(n: Node, tx: Tx, run: VmRun)
    requires HasRoom(n) && CommitTx(n, tx, run).Some?
    ensures var s := StateAfter(n, run);
            var b1 := TxBlock(n, tx.hash, NextContext(n));
            && CommitTx(n, tx, run).value.archive
               == PushEntry(PushEntry(n.archive, Entry(n.headHash, s)), Entry(b1.hash, s))
            && CommitTx(n, tx, run).value.store.contents.raw.state == s
  {
    CommitCounters(n, tx, run);
  }

  /** What a transaction block and its trailing block add to the archived numbers. */
  lemma CommitNumbers(c: Chain, b1: Block, b2: Block)
    requires Sealed(c) && Fits(c, b1) && b1.transactions != []
    requires WellLinked(Grow(c, b1)) && Fits(Grow(c, b1), b2) && b2.transactions == []
    ensures var c2 := Grow(Grow(c, b1), b2);
            && ArchivedNumbers(c2) == ArchivedNumbers(c) + [KnownHead(c), b1.number]
            && KnownHead(c2) == c2.height
  {
    var c1, c2 := Grow(c, b1), Grow(Grow(c, b1), b2);
    TxNumbersGrow(c, b1);
    TxNumbersGrow(c1, b2);
    NumbersFrame(c.base, TxNumbers(c), TxNumbers(c2), c.height);
    assert b1.number in TxNumbers(c2) && b2.number !in TxNumbers(c2);
    assert Archived(c.base, TxNumbers(c2), b2.number) == Archived(c.base, TxNumbers(c2), b1.number);
  }

  lemma OldNumbers(c: Chain)
    requires Sealed(c)
    ensures Increasing(ArchivedNumbers(c)) && Within(ArchivedNumbers(c), c.base, KnownHead(c))
    ensures c.base <= KnownHead(c) <= c.height
  {
    ChainIsSpaced(c);
    assert c.height !in TxNumbers(c);
    NumbersIncrease(c.base, TxNumbers(c), c.height);
  }

  lemma HashesAtAppend(hashes: map<nat, Hash>, numbers: seq<nat>, more: seq<nat>)
    ensures HashesAt(hashes, numbers + more) == HashesAt(hashes, numbers) + HashesAt(hashes, more)
  {
  }

  /** A commit slides the window by two: over the head known so far and over the transaction block,
      both with the state right after the transaction's writes. */
  lemma CommitSlides(n: Node, tx: Tx, run: VmRun)
    requires Sealed(ChainOf(n)) && WindowOk(n) && HasRoom(n) && CommitTx(n, tx, run).Some?
    ensures WindowOk(CommitTx(n, tx, run).value)
    ensures var n' := CommitTx(n, tx, run).value;
            && n.miniblock + 1 in n'.blockHashes
            && n'.blockHashes[n.miniblock + 1] == TxBlock(n, tx.hash, NextContext(n)).hash
            && LookupEntry(n'.archive, n'.blockHashes[n.miniblock + 1]) == Some(StateAfter(n, run))
            && Records(n'.archive, n'.blockHashes[n.miniblock + 1], StateAfter(n, run))
            && LookupEntry(n'.archive, n.headHash) == Some(StateAfter(n, run))
            && Records(n'.archive, n.headHash, StateAfter(n, run))
  {
    var c, s := ChainOf(n), StateAfter(n, run);
    var b1 := TxBlock(n, tx.hash, NextContext(n));
    var b2 := TrailingBlock(NextContext(n), b1);
    CommitGrows(n, tx, run);
    CommitKeepsChain(n, tx, run);
    CommitPushes(n, tx, run);
    CommitNumbers(c, b1, b2);
    OldNumbers(c);
    ArchiveAfterCommit(c, b1, b2, n.archive, s);
  }

  lemma ArchiveAfterCommit(c: Chain, b1: Block, b2: Block, archive: seq<Entry>, s: map<StorageKey, Word>)
    requires Sealed(c) && Fits(c, b1) && b1.transactions != []
    requires WellLinked(Grow(c, b1)) && Fits(Grow(c, b1), b2) && b2.transactions == []
    requires Keys(archive) == Last(HashesAt(c.hashes, ArchivedNumbers(c)), WINDOW)
    requires KnownHead(c) in c.hashes
    ensures var c2 := Grow(Grow(c, b1), b2);
            var twice := PushEntry(PushEntry(archive, Entry(c.hashes[KnownHead(c)], s)), Entry(b1.hash, s));
            && Keys(twice) == Last(HashesAt(c2.hashes, ArchivedNumbers(c2)), WINDOW)
            && c2.hashes[b1.number] == b1.hash
            && LookupEntry(twice, c.hashes[KnownHead(c)]) == Some(s)
            && LookupEntry(twice, b1.hash) == Some(s)
            && Records(twice, c.hashes[KnownHead(c)], s) && Records(twice, b1.hash, s)
  {
    var c1, c2 := Grow(c, b1), Grow(Grow(c, b1), b2);
    var numbers, head := ArchivedNumbers(c), KnownHead(c);
    var all := HashesAt(c.hashes, numbers);
    OldNumbers(c);
    CommitNumbers(c, b1, b2);
    GrowKeepsHashes(c, b1, numbers);
    GrowKeepsHashes(c1, b2, numbers);
    GrowKeepsHashes(c1, b2, [head, b1.number]);
    assert forall j :: 0 <= j < |numbers| ==> Sound(c, numbers[j]);
    GrowFrame(c, b1, head);
    NotAmong(c, numbers, head);
    assert forall j :: 0 <= j < |numbers| ==> Sound(c1, numbers[j]);
    NotAmong(c1, numbers, b1.number);
    HashesDiffer(c1, head, b1.number);
    TwoPushes(archive, all, Entry(c.hashes[head], s), Entry(b1.hash, s));
    HashesAtAppend(c2.hashes, numbers, [head, b1.number]);
    assert HashesAt(c2.hashes, [head, b1.number]) == [c.hashes[head], b1.hash];
  }

  /* ---------- mining ---------- */

  /** Mining leaves the archive, the known head and the archived numbers alone. */
  lemma MineOneKeepsWindow(n: Node, first: bool, interval: U64, script: seq<Access>)
    requires Sealed(ChainOf(n)) && WindowOk(n) && HasRoom(n) && NumbersAgree(n)
    ensures WindowOk(MineOne(n, first, interval, script))
  {
    MineOneKeepsChain(n, first, interval, script);
    var c := ChainOf(n);
    var b: Block :| b.transactions == [] && Fits(c, b)
                    && ChainOf(MineOne(n, first, interval, script)) == Grow(c, b);
    OldNumbers(c);
    EmptyBlockNumbers(c, b);
    GrowKeepsHashes(c, b, ArchivedNumbers(c));
  }

  lemma EmptyBlockNumbers(c: Chain, b: Block)
    requires Sealed(c) && Fits(c, b) && b.transactions == []
    ensures ArchivedNumbers(Grow(c, b)) == ArchivedNumbers(c)
    ensures KnownHead(Grow(c, b)) == KnownHead(c)
  {
    TxNumbersGrow(c, b);
    assert TxNumbers(Grow(c, b)) == TxNumbers(c);
  }

  lemma NewNodeWindow(fork: Option<Fork>, genesis: InMemoryStorage, gasPrice: nat)
    requires ForkFits(fork)
    ensures WindowOk(NewNode(fork, genesis, gasPrice))
  {
  }
}
