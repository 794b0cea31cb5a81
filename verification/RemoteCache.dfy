/** The cache of data fetched from the remote chain: an index from numbers to hashes, separate stores
    of full and minimal blocks, and a copy of everything on disk. */
module RemoteCache {
  import opened Base

  datatype RemoteBlock = RemoteBlock(hash: Hash, number: nat, body: nat)

  type RawTx = nat

  /** The files of a cache directory, one map per sub-directory. */
  datatype Files = Files(
    blocksFull: map<Hash, RemoteBlock>,
    blocksMin: map<Hash, RemoteBlock>,
    rawTransactions: map<nat, seq<RawTx>>,
    transactions: map<Hash, RawTx>,
    selectors: map<string, string>,
    bridges: Option<Address>)

  const NO_FILES: Files := Files(map[], map[], map[], map[], map[], None)

  datatype CacheConfig = NoCache | Memory | Disk(reset: bool)

  /** A cache: the index, the maps it serves from, the tokens it never writes out, and its directory. */
  datatype CacheState = CacheState(
    config: CacheConfig,
    index: map<nat, Hash>,
    served: Files,
    tokens: map<(nat, nat), seq<nat>>,
    disk: Files)

  /* ---------- insertions and lookups ---------- */

  function OnDisk(s: CacheState, written: Files): Files {
    if s.config.Disk? then written else s.disk
  }

  function InsertBlock(s: CacheState, hash: Hash, full: bool, block: RemoteBlock): CacheState {
    if s.config.NoCache? then s
    else
      var s' := s.(index := s.index[block.number := block.hash]);
      if full then
        s'.(served := s.served.(blocksFull := s.served.blocksFull[hash := block]),
            disk := OnDisk(s, s.disk.(blocksFull := s.disk.blocksFull[hash := block])))
      else
        s'.(served := s.served.(blocksMin := s.served.blocksMin[hash := block]),
            disk := OnDisk(s, s.disk.(blocksMin := s.disk.blocksMin[hash := block])))
  }

  function InsertRawTransactions(s: CacheState, number: nat, txs: seq<RawTx>): CacheState {
    if s.config.NoCache? then s
    else
      s.(served := s.served.(rawTransactions := s.served.rawTransactions[number := txs]),
         disk := OnDisk(s, s.disk.(rawTransactions := s.disk.rawTransactions[number := txs])))
  }

  function InsertTransaction(s: CacheState, hash: Hash, tx: RawTx): CacheState {
    if s.config.NoCache? then s
    else
      s.(served := s.served.(transactions := s.served.transactions[hash := tx]),
         disk := OnDisk(s, s.disk.(transactions := s.disk.transactions[hash := tx])))
  }

  function InsertSelector(s: CacheState, selector: string, name: string): CacheState {
    if s.config.NoCache? then s
    else
      s.(served := s.served.(selectors := s.served.selectors[selector := name]),
         disk := OnDisk(s, s.disk.(selectors := s.disk.selectors[selector := name])))
  }

  function SetBridges(s: CacheState, bridges: Address): CacheState {
    if s.config.NoCache? then s
    else
      s.(served := s.served.(bridges := Some(bridges)), disk := OnDisk(s, s.disk.(bridges := Some(bridges))))
  }

  function SetTokens(s: CacheState, from: nat, limit: nat, tokens: seq<nat>): CacheState {
    if s.config.NoCache? then s else s.(tokens := s.tokens[(from, limit) := tokens])
  }

  function BlocksOf(f: Files, full: bool): map<Hash, RemoteBlock> {
    if full then f.blocksFull else f.blocksMin
  }

  function GetBlock(s: CacheState, hash: Hash, full: bool): Option<RemoteBlock> {
    if s.config.NoCache? || hash !in BlocksOf(s.served, full) then None else Some(BlocksOf(s.served, full)[hash])
  }

  function GetBlockHash(s: CacheState, number: nat): Option<Hash> {
    if s.config.NoCache? || number !in s.index then None else Some(s.index[number])
  }

  function GetTransaction(s: CacheState, hash: Hash): Option<RawTx> {
    if s.config.NoCache? || hash !in s.served.transactions then None else Some(s.served.transactions[hash])
  }

  function GetRawTransactions(s: CacheState, number: nat): Option<seq<RawTx>> {
    if s.config.NoCache? || number !in s.served.rawTransactions then None else Some(s.served.rawTransactions[number])
  }

  /* ---------- opening a directory ---------- */

  /** The index after reading block files in the given order. */
  function ReadIndex(index: map<nat, Hash>, files: map<Hash, RemoteBlock>, order: seq<Hash>): map<nat, Hash>
    requires forall h :: h in order ==> h in files
    decreases |order|
  {
    if order == [] then index
    else
      assert order[0] in order;
      ReadIndex(index[files[order[0]].number := files[order[0]].hash], files, order[1..])
  }

  /** A listing names every file exactly as often as it likes, but at least once. */
  predicate Lists(order: seq<Hash>, files: map<Hash, RemoteBlock>) {
    (forall h :: h in order ==> h in files) && (forall h :: h in files ==> h in order)
  }

  function RebuiltIndex(f: Files, fullOrder: seq<Hash>, minOrder: seq<Hash>): map<nat, Hash>
    requires Lists(fullOrder, f.blocksFull) && Lists(minOrder, f.blocksMin)
  {
    ReadIndex(ReadIndex(map[], f.blocksFull, fullOrder), f.blocksMin, minOrder)
  }

  /** A new cache over a directory; directories are listed in no particular order. */
  function OpenCache(config: CacheConfig, found: Files, fullOrder: seq<Hash>, minOrder: seq<Hash>): CacheState
    requires Lists(fullOrder, found.blocksFull) && Lists(minOrder, found.blocksMin)
  {
    if !config.Disk? then CacheState(config, map[], NO_FILES, map[], found)
    else if config.reset then CacheState(config, map[], NO_FILES, map[], NO_FILES)
    else CacheState(config, RebuiltIndex(found, fullOrder, minOrder), found, map[], found)
  }

  /** What is served is what is on disk. */
  predicate InSync(s: CacheState) {
    s.config.Disk? && s.served == s.disk
  }

  predicate NumberStored(f: Files, n: nat) {
    || (exists h :: h in f.blocksFull && f.blocksFull[h].number == n)
    || (exists h :: h in f.blocksMin && f.blocksMin[h].number == n)
  }

  /** The index has the numbers of the stored blocks, and for each the hash that every minimal block of
      that number carries, or, if there is none, that every full block of that number carries. */
  ghost predicate IndexIsUnambiguous(s: CacheState) {
    && (forall n :: n in s.index <==> NumberStored(s.served, n))
    && (forall h :: h in s.served.blocksMin ==> s.index[s.served.blocksMin[h].number] == s.served.blocksMin[h].hash)
    && (forall h :: h in s.served.blocksFull ==>
          || s.index[s.served.blocksFull[h].number] == s.served.blocksFull[h].hash
          || exists m :: m in s.served.blocksMin && s.served.blocksMin[m].number == s.served.blocksFull[h].number)
  }

  /* What reading files does to one number. */

  lemma {:induction false} ReadIndexAppend(index: map<nat, Hash>, files: map<Hash, RemoteBlock>, order: seq<Hash>,
                                           h: Hash)
    requires forall k :: k in order ==> k in files
    requires h in files
    ensures (forall k :: k in order + [h] ==> k in files)
    ensures ReadIndex(index, files, order + [h])
         == ReadIndex(index, files, order)[files[h].number := files[h].hash]
    decreases |order|
  {
    if order == [] {
      assert [] + [h] == [h];
      assert ReadIndex(index, files, [h]) == ReadIndex(index[files[h].number := files[h].hash], files, [h][1..]);
    } else {
      assert order[0] in order;
      assert (order + [h])[1..] == order[1..] + [h];
      ReadIndexAppend(index[files[order[0]].number := files[order[0]].hash], files, order[1..], h);
    }
  }

  /** Each number ends up with the hash of some file listed under it, or keeps what it had. */
  lemma {:induction false} ReadIndexAt(index: map<nat, Hash>, files: map<Hash, RemoteBlock>, order: seq<Hash>, n: nat)
    requires forall k :: k in order ==> k in files
    ensures var r := ReadIndex(index, files, order);
            if exists h :: h in order && files[h].number == n then
              n in r && exists h :: h in order && files[h].number == n && files[h].hash == r[n]
            else
              (n in r <==> n in index) && (n in index ==> r[n] == index[n])
    decreases |order|
  {
    if order != [] {
      var front, last := order[..|order| - 1], order[|order| - 1];
      assert order == front + [last];
      assert forall k :: k in order <==> k in front || k == last;
      ReadIndexAppend(index, files, front, last);
      ReadIndexAt(index, files, front, n);
    }
  }

  /** If the index is unambiguous, reopening the directory rebuilds it, however files are listed. */
  lemma UnambiguousIsRebuilt(s: CacheState, fullOrder: seq<Hash>, minOrder: seq<Hash>)
    requires IndexIsUnambiguous(s)
    requires Lists(fullOrder, s.served.blocksFull) && Lists(minOrder, s.served.blocksMin)
    ensures RebuiltIndex(s.served, fullOrder, minOrder) == s.index
  {
    var f := s.served;
    var half := ReadIndex(map[], f.blocksFull, fullOrder);
    forall n: nat
      ensures n in RebuiltIndex(f, fullOrder, minOrder) <==> n in s.index
      ensures n in s.index ==> RebuiltIndex(f, fullOrder, minOrder)[n] == s.index[n]
    {
      ReadIndexAt(map[], f.blocksFull, fullOrder, n);
      ReadIndexAt(half, f.blocksMin, minOrder, n);
    }
  }

  lemma {:induction false} Listing(keys: set<Hash>) returns (order: seq<Hash>)
    ensures forall h :: h in order <==> h in keys
    decreases |keys|
  {
    if keys == {} {
      order := [];
    } else {
      var h :| h in keys;
      var rest := Listing(keys - {h});
      order := [h] + rest;
    }
  }

  /** A listing that ends with a chosen file gives that file the last word on its number. */
  lemma LastFileWins(index: map<nat, Hash>, files: map<Hash, RemoteBlock>, h: Hash) returns (order: seq<Hash>)
    requires h in files
    ensures Lists(order, files)
    ensures var r := ReadIndex(index, files, order); files[h].number in r && r[files[h].number] == files[h].hash
  {
    var front := Listing(files.Keys);
    ReadIndexAppend(index, files, front, h);
    order := front + [h];
  }

  /** Reopening is exact: every possible listing of the directory rebuilds the index if and only if the
      index is unambiguous. */
  lemma RebuiltExactlyWhenUnambiguous(s: CacheState)
    ensures (forall fo, mo :: Lists(fo, s.served.blocksFull) && Lists(mo, s.served.blocksMin) ==>
               RebuiltIndex(s.served, fo, mo) == s.index)
       <==> IndexIsUnambiguous(s)
  {
    if IndexIsUnambiguous(s) {
      forall fo, mo | Lists(fo, s.served.blocksFull) && Lists(mo, s.served.blocksMin)
        ensures RebuiltIndex(s.served, fo, mo) == s.index
      {
        UnambiguousIsRebuilt(s, fo, mo);
      }
    }
    if forall fo, mo :: Lists(fo, s.served.blocksFull) && Lists(mo, s.served.blocksMin) ==>
      RebuiltIndex(s.served, fo, mo) == s.index
    {
      AlwaysRebuiltIsUnambiguous(s);
    }
  }

  lemma AlwaysRebuiltIsUnambiguous(s: CacheState)
    requires forall fo, mo :: Lists(fo, s.served.blocksFull) && Lists(mo, s.served.blocksMin) ==>
               RebuiltIndex(s.served, fo, mo) == s.index
    ensures IndexIsUnambiguous(s)
  {
    var f := s.served;
    var fo := Listing(f.blocksFull.Keys);
    var mo := Listing(f.blocksMin.Keys);
    var half := ReadIndex(map[], f.blocksFull, fo);
    forall n: nat
      ensures n in s.index <==> NumberStored(f, n)
    {
      assert RebuiltIndex(f, fo, mo) == s.index;
      ReadIndexAt(map[], f.blocksFull, fo, n);
      ReadIndexAt(half, f.blocksMin, mo, n);
    }
    forall h | h in f.blocksMin
      ensures s.index[f.blocksMin[h].number] == f.blocksMin[h].hash
    {
      var lastMin := LastFileWins(half, f.blocksMin, h);
      assert RebuiltIndex(f, fo, lastMin) == s.index;
    }
    forall h | h in f.blocksFull && !exists m :: m in f.blocksMin && f.blocksMin[m].number == f.blocksFull[h].number
      ensures f.blocksFull[h].number in s.index && s.index[f.blocksFull[h].number] == f.blocksFull[h].hash
    {
      var lastFull := LastFileWins(map[], f.blocksFull, h);
      assert RebuiltIndex(f, lastFull, mo) == s.index;
      ReadIndexAt(ReadIndex(map[], f.blocksFull, lastFull), f.blocksMin, mo, f.blocksFull[h].number);
    }
  }

  /** A block may be inserted without making the index ambiguous: its number is new or already stands
      for its hash, and it replaces no block of another number. */
  predicate FitsIndex(s: CacheState, hash: Hash, full: bool, block: RemoteBlock) {
    && (block.number in s.index ==> s.index[block.number] == block.hash)
    && (hash in BlocksOf(s.served, full) ==> BlocksOf(s.served, full)[hash].number == block.number)
  }

  lemma InsertStaysUnambiguous(s: CacheState, hash: Hash, full: bool, block: RemoteBlock)
    requires IndexIsUnambiguous(s) && FitsIndex(s, hash, full, block) && !s.config.NoCache?
    ensures IndexIsUnambiguous(InsertBlock(s, hash, full, block))
  {
    var s' := InsertBlock(s, hash, full, block);
    assert hash in BlocksOf(s'.served, full) && BlocksOf(s'.served, full)[hash] == block;
    forall n: nat
      ensures n in s'.index <==> NumberStored(s'.served, n)
    {
      NumberStoredAfter(s, hash, full, block, n);
    }
    forall h | h in s'.served.blocksFull
      ensures || s'.index[s'.served.blocksFull[h].number] == s'.served.blocksFull[h].hash
              || exists m :: m in s'.served.blocksMin && s'.served.blocksMin[m].number == s'.served.blocksFull[h].number
    {
      if h in s.served.blocksFull && s'.served.blocksFull[h] == s.served.blocksFull[h]
         && exists m :: m in s.served.blocksMin && s.served.blocksMin[m].number == s.served.blocksFull[h].number {
        var m :| m in s.served.blocksMin && s.served.blocksMin[m].number == s.served.blocksFull[h].number;
        assert m in s'.served.blocksMin && s'.served.blocksMin[m].number == s'.served.blocksFull[h].number;
      }
    }
  }

  lemma NumberStoredAfter(s: CacheState, hash: Hash, full: bool, block: RemoteBlock, n: nat)
    requires FitsIndex(s, hash, full, block) && !s.config.NoCache?
    ensures NumberStored(InsertBlock(s, hash, full, block).served, n)
       <==> NumberStored(s.served, n) || n == block.number
  {
    var f, f' := s.served, InsertBlock(s, hash, full, block).served;
    assert hash in BlocksOf(f', full) && BlocksOf(f', full)[hash] == block;
    if h :| h in f.blocksFull && f.blocksFull[h].number == n {
      assert h in f'.blocksFull && f'.blocksFull[h].number == n;
    }
    if h :| h in f.blocksMin && f.blocksMin[h].number == n {
      assert h in f'.blocksMin && f'.blocksMin[h].number == n;
    }
  }

  /* ---------- any sequence of insertions, then a restart ---------- */

  datatype Insert =
    | Blk(hash: Hash, full: bool, block: RemoteBlock)
    | Raw(number: nat, txs: seq<RawTx>)
    | Txn(hash: Hash, tx: RawTx)
    | Sel(selector: string, name: string)
    | Brg(bridges: Address)
    | Tok(from: nat, limit: nat, tokens: seq<nat>)

  function Put(s: CacheState, op: Insert): CacheState {
    match op
    case Blk(hash, full, block) => InsertBlock(s, hash, full, block)
    case Raw(number, txs) => InsertRawTransactions(s, number, txs)
    case Txn(hash, tx) => InsertTransaction(s, hash, tx)
    case Sel(selector, name) => InsertSelector(s, selector, name)
    case Brg(bridges) => SetBridges(s, bridges)
    case Tok(from, limit, tokens) => SetTokens(s, from, limit, tokens)
  }

  function PutAll(s: CacheState, ops: seq<Insert>): CacheState
    decreases |ops|
  {
    if ops == [] then s else PutAll(Put(s, ops[0]), ops[1..])
  }

  /** Every block inserted fits the index it meets. */
  predicate AllFit(s: CacheState, ops: seq<Insert>)
    decreases |ops|
  {
    ops == [] ||
    (&& (ops[0].Blk? ==> FitsIndex(s, ops[0].hash, ops[0].full, ops[0].block))
     && AllFit(Put(s, ops[0]), ops[1..]))
  }

  lemma PutInSync(s: CacheState, op: Insert)
    requires InSync(s)
    ensures InSync(Put(s, op)) && Put(s, op).config == s.config
  {
  }

  lemma SameBlocksUnambiguous(s: CacheState, s': CacheState)
    requires IndexIsUnambiguous(s) && s'.index == s.index
    requires s'.served.blocksFull == s.served.blocksFull && s'.served.blocksMin == s.served.blocksMin
    ensures IndexIsUnambiguous(s')
  {
    forall n: nat
      ensures NumberStored(s'.served, n) <==> NumberStored(s.served, n)
    {
    }
  }

  lemma PutUnambiguous(s: CacheState, op: Insert)
    requires InSync(s) && IndexIsUnambiguous(s)
    requires op.Blk? ==> FitsIndex(s, op.hash, op.full, op.block)
    ensures IndexIsUnambiguous(Put(s, op))
  {
    match op
    case Blk(hash, full, block) => InsertStaysUnambiguous(s, hash, full, block);
    case _ => SameBlocksUnambiguous(s, Put(s, op));
  }

  lemma {:induction false} PutAllKeeps(s: CacheState, ops: seq<Insert>)
    requires InSync(s)
    ensures InSync(PutAll(s, ops)) && PutAll(s, ops).config == s.config
    ensures IndexIsUnambiguous(s) && AllFit(s, ops) ==> IndexIsUnambiguous(PutAll(s, ops))
    decreases |ops|
  {
    if ops != [] {
      PutInSync(s, ops[0]);
      if IndexIsUnambiguous(s) && AllFit(s, ops) {
        PutUnambiguous(s, ops[0]);
      }
      PutAllKeeps(Put(s, ops[0]), ops[1..]);
    }
  }

  /** Restarting loses nothing but the tokens: after any insertions into a disk cache, reopening its
      directory without a reset serves the same blocks, transactions, raw transactions, selectors and
      bridges, and the same index for every listing exactly when the index is unambiguous, which it is
      when every inserted block fitted. */
  lemma RestartRestores(s: CacheState, ops: seq<Insert>)
    requires InSync(s) && !s.config.reset && IndexIsUnambiguous(s)
    ensures var last := PutAll(s, ops);
            && last.disk == last.served
            && (forall fo, mo {:trigger OpenCache(last.config, last.disk, fo, mo)} ::
                  Lists(fo, last.disk.blocksFull) && Lists(mo, last.disk.blocksMin) ==>
                    OpenCache(last.config, last.disk, fo, mo).served == last.served)
            && ((forall fo, mo :: Lists(fo, last.served.blocksFull) && Lists(mo, last.served.blocksMin) ==>
                  RebuiltIndex(last.served, fo, mo) == last.index)
                <==> IndexIsUnambiguous(last))
            && (AllFit(s, ops) ==> IndexIsUnambiguous(last))
  {
    PutAllKeeps(s, ops);
    RebuiltExactlyWhenUnambiguous(PutAll(s, ops));
  }

  /** Without the guard a restart can change the index: two full blocks of one number under different
      hashes, listed in the other order. */
  lemma AmbiguousRestart()
    ensures var one, two := Opaque(1), Opaque(2);
            var start := CacheState(Disk(false), map[], NO_FILES, map[], NO_FILES);
            var s := PutAll(start, [Blk(one, true, RemoteBlock(one, 7, 0)), Blk(two, true, RemoteBlock(two, 7, 0))]);
            && Lists([two, one], s.disk.blocksFull) && Lists([], s.disk.blocksMin)
            && s.index == map[7 := two]
            && OpenCache(s.config, s.disk, [two, one], []).index == map[7 := one]
  {
    var one, two := Opaque(1), Opaque(2);
    var start := CacheState(Disk(false), map[], NO_FILES, map[], NO_FILES);
    var first, second := Blk(one, true, RemoteBlock(one, 7, 0)), Blk(two, true, RemoteBlock(two, 7, 0));
    assert [first, second][1..] == [second];
    assert PutAll(start, [first, second]) == PutAll(Put(start, first), [second]);
    var s := PutAll(start, [first, second]);
    assert PutAll(Put(start, first), [second]) == PutAll(Put(Put(start, first), second), [second][1..]);
    assert s == Put(Put(start, first), second);
    var f := s.disk.blocksFull;
    assert f == map[one := RemoteBlock(one, 7, 0), two := RemoteBlock(two, 7, 0)];
    assert [two, one] == [two] + [one] && [two] == [] + [two];
    ReadIndexAppend(map[], f, [], two);
    ReadIndexAppend(map[], f, [two], one);
  }

  /* ---------- what was put is found ---------- */

  /** Everything a cache can be asked for. */
  datatype Item =
    | BlockItem(hash: Hash, full: bool)
    | NumberItem(number: nat)
    | RawItem(number: nat)
    | TxItem(hash: Hash)
    | SelectorItem(selector: string)
    | BridgeItem
    | TokenItem(from: nat, limit: nat)

  datatype Found =
    | FoundBlock(block: RemoteBlock)
    | FoundHash(hash: Hash)
    | FoundRaw(txs: seq<RawTx>)
    | FoundTx(tx: RawTx)
    | FoundName(name: string)
    | FoundBridges(bridges: Address)
    | FoundTokens(tokens: seq<nat>)
    | NotFound

  function Find(s: CacheState, item: Item): Found {
    if s.config.NoCache? then NotFound
    else
      match item
      case BlockItem(hash, true) =>
        if hash in s.served.blocksFull then FoundBlock(s.served.blocksFull[hash]) else NotFound
      case BlockItem(hash, false) =>
        if hash in s.served.blocksMin then FoundBlock(s.served.blocksMin[hash]) else NotFound
      case NumberItem(number) => if number in s.index then FoundHash(s.index[number]) else NotFound
      case RawItem(number) =>
        if number in s.served.rawTransactions then FoundRaw(s.served.rawTransactions[number]) else NotFound
      case TxItem(hash) => if hash in s.served.transactions then FoundTx(s.served.transactions[hash]) else NotFound
      case SelectorItem(selector) =>
        if selector in s.served.selectors then FoundName(s.served.selectors[selector]) else NotFound
      case BridgeItem => if s.served.bridges.Some? then FoundBridges(s.served.bridges.value) else NotFound
      case TokenItem(from, limit) =>
        if (from, limit) in s.tokens then FoundTokens(s.tokens[(from, limit)]) else NotFound
  }

  /** What an insertion says about an item, if anything. */
  function Says(op: Insert, item: Item): Option<Found> {
    match (op, item)
    case (Blk(h, f, block), BlockItem(hash, full)) => if h == hash && f == full then Some(FoundBlock(block)) else None
    case (Blk(_, _, block), NumberItem(number)) => if block.number == number then Some(FoundHash(block.hash)) else None
    case (Raw(m, txs), RawItem(number)) => if m == number then Some(FoundRaw(txs)) else None
    case (Txn(h, tx), TxItem(hash)) => if h == hash then Some(FoundTx(tx)) else None
    case (Sel(a, name), SelectorItem(selector)) => if a == selector then Some(FoundName(name)) else None
    case (Brg(bridges), BridgeItem) => Some(FoundBridges(bridges))
    case (Tok(a, b, tokens), TokenItem(from, limit)) =>
      if a == from && b == limit then Some(FoundTokens(tokens)) else None
    case _ => None
  }

  lemma BlockIsFound(s: CacheState, hash: Hash, full: bool, block: RemoteBlock, item: Item)
    requires !s.config.NoCache?
    ensures var said := Says(Blk(hash, full, block), item);
            Find(InsertBlock(s, hash, full, block), item) == if said.Some? then said.value else Find(s, item)
  {
  }

  lemma PutIsFound(s: CacheState, op: Insert, item: Item)
    requires !s.config.NoCache?
    ensures Put(s, op).config == s.config
    ensures Find(Put(s, op), item) == if Says(op, item).Some? then Says(op, item).value else Find(s, item)
  {
    match op
    case Blk(hash, full, block) => BlockIsFound(s, hash, full, block, item);
    case _ =>
  }

  function LastSaid(ops: seq<Insert>, item: Item): Option<Found> {
    if ops == [] then None
    else
      var last := ops[|ops| - 1];
      if Says(last, item).Some? then Says(last, item) else LastSaid(ops[..|ops| - 1], item)
  }

  lemma {:induction false} PutAllAppend(s: CacheState, ops: seq<Insert>, op: Insert)
    ensures PutAll(s, ops + [op]) == Put(PutAll(s, ops), op)
    decreases |ops|
  {
    if ops == [] {
      assert [] + [op] == [op] && [op][1..] == [];
      assert PutAll(s, [op]) == PutAll(Put(s, op), [op][1..]);
    } else {
      assert (ops + [op])[1..] == ops[1..] + [op];
      PutAllAppend(Put(s, ops[0]), ops[1..], op);
    }
  }

  /** A cache finds what was put last under the same key, or what it found before; without caching it finds
      nothing. */
  lemma {:induction false} LastPutIsFound(s: CacheState, ops: seq<Insert>, item: Item)
    ensures PutAll(s, ops).config == s.config
    ensures s.config.NoCache? ==> Find(PutAll(s, ops), item) == NotFound
    ensures !s.config.NoCache? ==>
              Find(PutAll(s, ops), item)
              == if LastSaid(ops, item).Some? then LastSaid(ops, item).value else Find(s, item)
    decreases |ops|
  {
    if ops != [] {
      var front, last := ops[..|ops| - 1], ops[|ops| - 1];
      assert ops == front + [last];
      PutAllAppend(s, front, last);
      LastPutIsFound(s, front, item);
      if !s.config.NoCache? {
        PutIsFound(PutAll(s, front), last, item);
      }
    }
  }

  /* ---------- the mutable object ---------- */

  /** The directory outlives the caches opened on it. */
  class CacheDirectory {
    var files: Files

    constructor ()
      ensures files == NO_FILES
    {
      files := NO_FILES;
    }
  }

  class Cache {
    const config: CacheConfig
    const dir: CacheDirectory
    var blockHashes: map<nat, Hash>
    var blocksFull: map<Hash, RemoteBlock>
    var blocksMin: map<Hash, RemoteBlock>
    var blockRawTransactions: map<nat, seq<RawTx>>
    var transactions: map<Hash, RawTx>
    var resolverSelectors: map<string, string>
    var bridgeAddresses: Option<Address>
    var confirmedTokens: map<(nat, nat), seq<nat>>

    ghost function State(): CacheState
      reads this, dir
    {
      CacheState(config, blockHashes,
                 Files(blocksFull, blocksMin, blockRawTransactions, transactions, resolverSelectors, bridgeAddresses),
                 confirmedTokens, dir.files)
    }

    /** An empty cache; a disk cache with the reset flag empties its directory first. */
    constructor (config: CacheConfig, dir: CacheDirectory)
      modifies dir
      ensures this.dir == dir
      ensures dir.files == if config == Disk(true) then NO_FILES else old(dir.files)
      ensures State() == CacheState(config, map[], NO_FILES, map[], dir.files)
    {
      this.config := config;
      this.dir := dir;
      blockHashes := map[];
      blocksFull := map[];
      blocksMin := map[];
      blockRawTransactions := map[];
      transactions := map[];
      resolverSelectors := map[];
      bridgeAddresses := None;
      confirmedTokens := map[];
      new;
      if config.Disk? && config.reset {
        dir.files := NO_FILES;
      }
    }

    /** Opens a cache and, on disk, reads the directory back. */
    static method Open(config: CacheConfig, dir: CacheDirectory)
      returns (cache: Cache, ghost fullOrder: seq<Hash>, ghost minOrder: seq<Hash>)
      modifies dir
      ensures fresh(cache) && cache.dir == dir
      ensures Lists(fullOrder, old(dir.files).blocksFull) && Lists(minOrder, old(dir.files).blocksMin)
      ensures cache.State() == OpenCache(config, old(dir.files), fullOrder, minOrder)
    {
      ghost var found := dir.files;
      cache := new Cache(config, dir);
      fullOrder := Listing(found.blocksFull.Keys);
      minOrder := Listing(found.blocksMin.Keys);
      if config.Disk? {
        if config.reset {
          var _, _ := cache.ReadAllFromDisk();
          assert cache.blockHashes == map[];
        } else {
          fullOrder, minOrder := cache.ReadAllFromDisk();
        }
      }
    }

    method ReadAllFromDisk() returns (ghost fullOrder: seq<Hash>, ghost minOrder: seq<Hash>)
      requires blockHashes == map[]
      modifies this
      ensures Lists(fullOrder, dir.files.blocksFull) && Lists(minOrder, dir.files.blocksMin)
      ensures State() == CacheState(config, RebuiltIndex(dir.files, fullOrder, minOrder), dir.files,
                                    old(confirmedTokens), dir.files)
    {
      fullOrder := ReadBlocks(dir.files.blocksFull);
      blocksFull := dir.files.blocksFull;
      minOrder := ReadBlocks(dir.files.blocksMin);
      blocksMin := dir.files.blocksMin;
      blockRawTransactions := dir.files.rawTransactions;
      transactions := dir.files.transactions;
      resolverSelectors := dir.files.selectors;
      bridgeAddresses := dir.files.bridges;
    }

    /** Indexes the blocks of one sub-directory, in whatever order it is listed. */
    method ReadBlocks(files: map<Hash, RemoteBlock>) returns (ghost order: seq<Hash>)
      modifies this`blockHashes
      ensures Lists(order, files)
      ensures blockHashes == ReadIndex(old(blockHashes), files, order)
    {
      order := [];
      var todo := files.Keys;
      while todo != {}
        invariant todo <= files.Keys
        invariant forall h :: h in order <==> h in files && h !in todo
        invariant blockHashes == ReadIndex(old(blockHashes), files, order)
        decreases |todo|
      {
        var h :| h in todo;
        ReadIndexAppend(old(blockHashes), files, order, h);
        blockHashes := blockHashes[files[h].number := files[h].hash];
        order := order + [h];
        todo := todo - {h};
      }
    }

    method WriteToDisk(written: Files)
      modifies dir
      ensures dir.files == OnDisk(old(State()), written)
    {
      if config.Disk? {
        dir.files := written;
      }
    }

    method Insert(hash: Hash, full: bool, block: RemoteBlock)
      modifies this, dir
      ensures State() == InsertBlock(old(State()), hash, full, block)
    {
      if config.NoCache? {
        return;
      }
      blockHashes := blockHashes[block.number := block.hash];
      if full {
        WriteToDisk(dir.files.(blocksFull := dir.files.blocksFull[hash := block]));
        blocksFull := blocksFull[hash := block];
      } else {
        WriteToDisk(dir.files.(blocksMin := dir.files.blocksMin[hash := block]));
        blocksMin := blocksMin[hash := block];
      }
    }

    method InsertBlockRawTransactions(number: nat, txs: seq<RawTx>)
      modifies this, dir
      ensures State() == InsertRawTransactions(old(State()), number, txs)
    {
      if config.NoCache? {
        return;
      }
      WriteToDisk(dir.files.(rawTransactions := dir.files.rawTransactions[number := txs]));
      blockRawTransactions := blockRawTransactions[number := txs];
    }

    method AddTransaction(hash: Hash, tx: RawTx)
      modifies this, dir
      ensures State() == InsertTransaction(old(State()), hash, tx)
    {
      if config.NoCache? {
        return;
      }
      WriteToDisk(dir.files.(transactions := dir.files.transactions[hash := tx]));
      transactions := transactions[hash := tx];
    }

    method InsertResolverSelector(selector: string, name: string)
      modifies this, dir
      ensures State() == InsertSelector(old(State()), selector, name)
    {
      if config.NoCache? {
        return;
      }
      WriteToDisk(dir.files.(selectors := dir.files.selectors[selector := name]));
      resolverSelectors := resolverSelectors[selector := name];
    }

    method SetBridgeAddresses(bridges: Address)
      modifies this, dir
      ensures State() == SetBridges(old(State()), bridges)
    {
      if config.NoCache? {
        return;
      }
      WriteToDisk(dir.files.(bridges := Some(bridges)));
      bridgeAddresses := Some(bridges);
    }

    method SetConfirmedTokens(from: nat, limit: nat, tokens: seq<nat>)
      modifies this`confirmedTokens
      ensures State() == SetTokens(old(State()), from, limit, tokens)
    {
      if config.NoCache? {
        return;
      }
      confirmedTokens := confirmedTokens[(from, limit) := tokens];
    }

    method Lookup(hash: Hash, full: bool) returns (block: Option<RemoteBlock>)
      ensures block == GetBlock(State(), hash, full)
    {
      if config.NoCache? {
        return None;
      }
      if full {
        block := if hash in blocksFull then Some(blocksFull[hash]) else None;
      } else {
        block := if hash in blocksMin then Some(blocksMin[hash]) else None;
      }
    }

    method LookupHash(number: nat) returns (hash: Option<Hash>)
      ensures hash == GetBlockHash(State(), number)
    {
      if config.NoCache? {
        return None;
      }
      hash := if number in blockHashes then Some(blockHashes[number]) else None;
    }

    method LookupTransaction(hash: Hash) returns (tx: Option<RawTx>)
      ensures tx == GetTransaction(State(), hash)
    {
      if config.NoCache? {
        return None;
      }
      tx := if hash in transactions then Some(transactions[hash]) else None;
    }

    method LookupRawTransactions(number: nat) returns (txs: Option<seq<RawTx>>)
      ensures txs == GetRawTransactions(State(), number)
    {
      if config.NoCache? {
        return None;
      }
      txs := if number in blockRawTransactions then Some(blockRawTransactions[number]) else None;
    }
  }
}
