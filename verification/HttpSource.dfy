/** Fetching from the remote chain through the cache. */
module HttpSource {
  import opened Base
  import opened Filters
  import opened RemoteCache

  /** The remote chain: it never changes, and its answers about one block agree with each other. */
  datatype Remote = Remote(
    byHash: (Hash, bool) -> Option<RemoteBlock>,
    byTag: (BlockTag, bool) -> Option<RemoteBlock>,
    transaction: Hash -> Option<RawTx>,
    rawTransactions: nat -> seq<RawTx>)

  /** A block carries the hash it was asked for by; its number leads, in both forms, to the answers its
      hash leads to; and whatever a number or a tag leads to can be asked for by hash. */
  ghost predicate Consistent(r: Remote) {
    && (forall h, full :: r.byHash(h, full).Some? ==>
          var b := r.byHash(h, full).value;
          b.hash == h && forall f :: r.byTag(BlockTag.Number(b.number), f) == r.byHash(h, f))
    && (forall tag, full :: r.byTag(tag, full).Some? ==>
          var b := r.byTag(tag, full).value;
          && r.byHash(b.hash, full) == Some(b)
          && (tag.Number? ==> b.number == tag.n))
  }

  /** Every number leads to the same answers as the hash it stands for. */
  ghost predicate FaithfulIndex(index: map<nat, Hash>, r: Remote) {
    forall n :: n in index ==> forall f :: r.byTag(BlockTag.Number(n), f) == r.byHash(index[n], f)
  }

  ghost predicate FaithfulFiles(files: Files, r: Remote) {
    && (forall h :: h in files.blocksFull ==> r.byHash(h, true) == Some(files.blocksFull[h]))
    && (forall h :: h in files.blocksMin ==> r.byHash(h, false) == Some(files.blocksMin[h]))
    && (forall h :: h in files.transactions ==> r.transaction(h) == Some(files.transactions[h]))
    && (forall n :: n in files.rawTransactions ==> r.rawTransactions(n) == files.rawTransactions[n])
  }

  /** Everything cached is the remote's: blocks and transactions under their hashes, and the index. */
  ghost predicate Faithful(s: CacheState, r: Remote) {
    FaithfulFiles(s.served, r) && FaithfulIndex(s.index, r)
  }

  /* ---------- the read-through calls ---------- */

  datatype Fetched<+T> = Fetched(cache: CacheState, result: Result<T>)

  function GetBlockByHash(s: CacheState, r: Remote, hash: Hash, full: bool, online: bool)
    : Fetched<Option<RemoteBlock>> {
    var cached := GetBlock(s, hash, full);
    if cached.Some? then Fetched(s, Ok(cached))
    else if !online then Fetched(s, Err)
    else
      var block := r.byHash(hash, full);
      Fetched(if block.Some? then InsertBlock(s, hash, full, block.value) else s, Ok(block))
  }

  function GetBlockByNumber(s: CacheState, r: Remote, tag: BlockTag, full: bool, online: bool)
    : Fetched<Option<RemoteBlock>> {
    var hash := if tag.Number? then GetBlockHash(s, tag.n) else None;
    var cached := if hash.Some? then GetBlock(s, hash.value, full) else None;
    if cached.Some? then Fetched(s, Ok(cached))
    else if !online then Fetched(s, Err)
    else
      var block := r.byTag(tag, full);
      Fetched(if block.Some? then InsertBlock(s, block.value.hash, full, block.value) else s, Ok(block))
  }

  function GetTransactionByHash(s: CacheState, r: Remote, hash: Hash, online: bool): Fetched<Option<RawTx>> {
    var cached := GetTransaction(s, hash);
    if cached.Some? then Fetched(s, Ok(cached))
    else if !online then Fetched(s, Err)
    else
      var tx := r.transaction(hash);
      Fetched(if tx.Some? then InsertTransaction(s, hash, tx.value) else s, Ok(tx))
  }

  function GetRawBlockTransactions(s: CacheState, r: Remote, number: nat, online: bool): Fetched<seq<RawTx>> {
    var cached := GetRawTransactions(s, number);
    if cached.Some? then Fetched(s, Ok(cached.value))
    else if !online then Fetched(s, Err)
    else
      var txs := r.rawTransactions(number);
      Fetched(if txs != [] then InsertRawTransactions(s, number, txs) else s, Ok(txs))
  }

  /* ---------- any run of calls and restarts ---------- */

  datatype Call =
    | ByHash(hash: Hash, full: bool, online: bool)
    | ByNumber(tag: BlockTag, full: bool, online: bool)
    | TxByHash(hash: Hash, online: bool)
    | RawByNumber(number: nat, online: bool)
    | Restart(fullOrder: seq<Hash>, minOrder: seq<Hash>)

  datatype Answer =
    | ABlock(block: Option<RemoteBlock>)
    | ATx(tx: Option<RawTx>)
    | ATxs(txs: seq<RawTx>)
    | Unreachable
    | Restarted

  /** The listing of a restart must be one of the directory it finds. */
  predicate Possible(s: CacheState, call: Call) {
    call.Restart? ==> Lists(call.fullOrder, s.disk.blocksFull) && Lists(call.minOrder, s.disk.blocksMin)
  }

  function Serve(s: CacheState, r: Remote, call: Call): (CacheState, Answer)
    requires Possible(s, call)
  {
    match call
    case ByHash(hash, full, online) =>
      var a := GetBlockByHash(s, r, hash, full, online);
      (a.cache, if a.result.Ok? then ABlock(a.result.value) else Unreachable)
    case ByNumber(tag, full, online) =>
      var a := GetBlockByNumber(s, r, tag, full, online);
      (a.cache, if a.result.Ok? then ABlock(a.result.value) else Unreachable)
    case TxByHash(hash, online) =>
      var a := GetTransactionByHash(s, r, hash, online);
      (a.cache, if a.result.Ok? then ATx(a.result.value) else Unreachable)
    case RawByNumber(number, online) =>
      var a := GetRawBlockTransactions(s, r, number, online);
      (a.cache, if a.result.Ok? then ATxs(a.result.value) else Unreachable)
    case Restart(fullOrder, minOrder) => (OpenCache(s.config, s.disk, fullOrder, minOrder), Restarted)
  }

  /** What the remote itself would say. */
  function Truth(r: Remote, call: Call): Answer {
    match call
    case ByHash(hash, full, _) => ABlock(r.byHash(hash, full))
    case ByNumber(tag, full, _) => ABlock(r.byTag(tag, full))
    case TxByHash(hash, _) => ATx(r.transaction(hash))
    case RawByNumber(number, _) => ATxs(r.rawTransactions(number))
    case Restart(_, _) => Restarted
  }

  predicate Offline(call: Call) {
    !call.Restart? && !call.online
  }

  /** A cache of the remote: faithful in memory, and faithful again after a restart. */
  ghost predicate Sound(s: CacheState, r: Remote) {
    Faithful(s, r) && FaithfulFiles(s.disk, r)
  }

  lemma {:induction false} RebuiltIsFaithful(index: map<nat, Hash>, files: map<Hash, RemoteBlock>, order: seq<Hash>,
                                             full: bool, r: Remote)
    requires Consistent(r)
    requires forall h :: h in order ==> h in files
    requires forall h :: h in files ==> r.byHash(h, full) == Some(files[h])
    requires FaithfulIndex(index, r)
    ensures FaithfulIndex(ReadIndex(index, files, order), r)
    decreases |order|
  {
    if order != [] {
      var h := order[0];
      assert h in order;
      assert r.byHash(h, full) == Some(files[h]);
      RebuiltIsFaithful(index[files[h].number := files[h].hash], files, order[1..], full, r);
    }
  }

  lemma InsertIsSound(s: CacheState, r: Remote, hash: Hash, full: bool, block: RemoteBlock)
    requires Consistent(r) && Sound(s, r) && r.byHash(hash, full) == Some(block)
    ensures Sound(InsertBlock(s, hash, full, block), r)
  {
  }

  lemma RestartIsSound(s: CacheState, r: Remote, fullOrder: seq<Hash>, minOrder: seq<Hash>)
    requires Consistent(r) && Sound(s, r)
    requires Lists(fullOrder, s.disk.blocksFull) && Lists(minOrder, s.disk.blocksMin)
    ensures Sound(OpenCache(s.config, s.disk, fullOrder, minOrder), r)
  {
    var half := ReadIndex(map[], s.disk.blocksFull, fullOrder);
    RebuiltIsFaithful(map[], s.disk.blocksFull, fullOrder, true, r);
    RebuiltIsFaithful(half, s.disk.blocksMin, minOrder, false, r);
  }

  lemma ByHashIsTruthful(s: CacheState, r: Remote, hash: Hash, full: bool, online: bool)
    requires Consistent(r) && Sound(s, r)
    ensures var a := GetBlockByHash(s, r, hash, full, online);
            Sound(a.cache, r) && (a.result == Ok(r.byHash(hash, full)) || (!online && a.result == Err))
  {
    if r.byHash(hash, full).Some? {
      InsertIsSound(s, r, hash, full, r.byHash(hash, full).value);
    }
  }

  lemma ByNumberIsTruthful(s: CacheState, r: Remote, tag: BlockTag, full: bool, online: bool)
    requires Consistent(r) && Sound(s, r)
    ensures var a := GetBlockByNumber(s, r, tag, full, online);
            Sound(a.cache, r) && (a.result == Ok(r.byTag(tag, full)) || (!online && a.result == Err))
  {
    if r.byTag(tag, full).Some? {
      InsertIsSound(s, r, r.byTag(tag, full).value.hash, full, r.byTag(tag, full).value);
    }
  }

  lemma TransactionIsTruthful(s: CacheState, r: Remote, hash: Hash, online: bool)
    requires Sound(s, r)
    ensures var a := GetTransactionByHash(s, r, hash, online);
            Sound(a.cache, r) && (a.result == Ok(r.transaction(hash)) || (!online && a.result == Err))
  {
  }

  lemma RawTransactionsAreTruthful(s: CacheState, r: Remote, number: nat, online: bool)
    requires Sound(s, r)
    ensures var a := GetRawBlockTransactions(s, r, number, online);
            Sound(a.cache, r) && (a.result == Ok(r.rawTransactions(number)) || (!online && a.result == Err))
  {
  }

  lemma ServeIsTruthful(s: CacheState, r: Remote, call: Call)
    requires Consistent(r) && Sound(s, r) && Possible(s, call)
    ensures Sound(Serve(s, r, call).0, r)
    ensures Serve(s, r, call).1 == Truth(r, call) || (Offline(call) && Serve(s, r, call).1 == Unreachable)
  {
    match call
    case ByHash(hash, full, online) => ByHashIsTruthful(s, r, hash, full, online);
    case ByNumber(tag, full, online) => ByNumberIsTruthful(s, r, tag, full, online);
    case TxByHash(hash, online) => TransactionIsTruthful(s, r, hash, online);
    case RawByNumber(number, online) => RawTransactionsAreTruthful(s, r, number, online);
    case Restart(fullOrder, minOrder) => RestartIsSound(s, r, fullOrder, minOrder);
  }

  ghost predicate PossibleRun(s: CacheState, r: Remote, calls: seq<Call>)
    decreases |calls|
  {
    calls == [] || (Possible(s, calls[0]) && PossibleRun(Serve(s, r, calls[0]).0, r, calls[1..]))
  }

  ghost function ServeAll(s: CacheState, r: Remote, calls: seq<Call>): seq<Answer>
    requires PossibleRun(s, r, calls)
    decreases |calls|
  {
    if calls == [] then [] else [Serve(s, r, calls[0]).1] + ServeAll(Serve(s, r, calls[0]).0, r, calls[1..])
  }

  /** The cache refines the remote: for every order of calls by hash, by number and by tag, for full and
      minimal blocks, under any cache configuration and with restarts anywhere in between, each answer
      is the remote's own, or an explicit failure of an offline call. */
  lemma {:induction false} EveryAnswerIsTheRemotes(s: CacheState, r: Remote, calls: seq<Call>)
    requires Consistent(r) && Sound(s, r) && PossibleRun(s, r, calls)
    ensures |ServeAll(s, r, calls)| == |calls|
    ensures forall i :: 0 <= i < |calls| ==>
              || ServeAll(s, r, calls)[i] == Truth(r, calls[i])
              || (Offline(calls[i]) && ServeAll(s, r, calls)[i] == Unreachable)
    decreases |calls|
  {
    if calls != [] {
      ServeIsTruthful(s, r, calls[0]);
      EveryAnswerIsTheRemotes(Serve(s, r, calls[0]).0, r, calls[1..]);
    }
  }

  /** Blocks fetched from a consistent remote always fit the index, so a restart restores it. */
  lemma FetchedBlocksFit(s: CacheState, r: Remote, hash: Hash, full: bool, block: RemoteBlock)
    requires Consistent(r) && Faithful(s, r) && r.byHash(hash, full) == Some(block)
    ensures FitsIndex(s, hash, full, block)
  {
    if block.number in s.index {
      assert r.byTag(BlockTag.Number(block.number), full) == r.byHash(s.index[block.number], full);
    }
  }

  /* ---------- restarts ---------- */

  /** The state of the cache after a run of calls and restarts. */
  ghost function After(s: CacheState, r: Remote, calls: seq<Call>): CacheState
    requires PossibleRun(s, r, calls)
    decreases |calls|
  {
    if calls == [] then s else After(Serve(s, r, calls[0]).0, r, calls[1..])
  }

  /** A disk cache of the remote from which any restart would rebuild the index. */
  ghost predicate Rebuildable(s: CacheState, r: Remote) {
    Sound(s, r) && InSync(s) && IndexIsUnambiguous(s)
  }

  lemma InsertIsRebuildable(s: CacheState, r: Remote, hash: Hash, full: bool, block: RemoteBlock)
    requires Consistent(r) && Rebuildable(s, r) && r.byHash(hash, full) == Some(block)
    ensures Rebuildable(InsertBlock(s, hash, full, block), r)
  {
    InsertIsSound(s, r, hash, full, block);
    FetchedBlocksFit(s, r, hash, full, block);
    InsertStaysUnambiguous(s, hash, full, block);
  }

  lemma RestartIsRebuildable(s: CacheState, r: Remote, fullOrder: seq<Hash>, minOrder: seq<Hash>)
    requires Consistent(r) && Rebuildable(s, r)
    requires Lists(fullOrder, s.disk.blocksFull) && Lists(minOrder, s.disk.blocksMin)
    ensures Rebuildable(OpenCache(s.config, s.disk, fullOrder, minOrder), r)
  {
    RestartIsSound(s, r, fullOrder, minOrder);
    if !s.config.reset {
      UnambiguousIsRebuilt(s, fullOrder, minOrder);
      SameBlocksUnambiguous(s, OpenCache(s.config, s.disk, fullOrder, minOrder));
    }
  }

  lemma BlocksAreRebuildable(s: CacheState, r: Remote, hash: Hash, tag: BlockTag, full: bool, online: bool)
    requires Consistent(r) && Rebuildable(s, r)
    ensures Rebuildable(GetBlockByHash(s, r, hash, full, online).cache, r)
    ensures Rebuildable(GetBlockByNumber(s, r, tag, full, online).cache, r)
  {
    if r.byHash(hash, full).Some? {
      InsertIsRebuildable(s, r, hash, full, r.byHash(hash, full).value);
    }
    if r.byTag(tag, full).Some? {
      InsertIsRebuildable(s, r, r.byTag(tag, full).value.hash, full, r.byTag(tag, full).value);
    }
  }

  lemma TransactionIsRebuildable(s: CacheState, r: Remote, hash: Hash, online: bool)
    requires Rebuildable(s, r)
    ensures Rebuildable(GetTransactionByHash(s, r, hash, online).cache, r)
  {
    TransactionIsTruthful(s, r, hash, online);
    SameBlocksUnambiguous(s, GetTransactionByHash(s, r, hash, online).cache);
  }

  lemma RawTransactionsAreRebuildable(s: CacheState, r: Remote, number: nat, online: bool)
    requires Rebuildable(s, r)
    ensures Rebuildable(GetRawBlockTransactions(s, r, number, online).cache, r)
  {
    RawTransactionsAreTruthful(s, r, number, online);
    SameBlocksUnambiguous(s, GetRawBlockTransactions(s, r, number, online).cache);
  }

  lemma ServeIsRebuildable(s: CacheState, r: Remote, call: Call)
    requires Consistent(r) && Rebuildable(s, r) && Possible(s, call)
    ensures Rebuildable(Serve(s, r, call).0, r)
  {
    match call
    case ByHash(hash, full, online) => BlocksAreRebuildable(s, r, hash, BlockTag.Latest, full, online);
    case ByNumber(tag, full, online) => BlocksAreRebuildable(s, r, ZERO_HASH, tag, full, online);
    case TxByHash(hash, online) => TransactionIsRebuildable(s, r, hash, online);
    case RawByNumber(number, online) => RawTransactionsAreRebuildable(s, r, number, online);
    case Restart(fullOrder, minOrder) => RestartIsRebuildable(s, r, fullOrder, minOrder);
  }

  lemma {:induction false} RunIsRebuildable(s: CacheState, r: Remote, calls: seq<Call>)
    requires Consistent(r) && Rebuildable(s, r) && PossibleRun(s, r, calls)
    ensures Rebuildable(After(s, r, calls), r)
    decreases |calls|
  {
    if calls != [] {
      ServeIsRebuildable(s, r, calls[0]);
      RunIsRebuildable(Serve(s, r, calls[0]).0, r, calls[1..]);
    }
  }

  /** A restart without a reset never changes the index: after any calls and restarts against a consistent
      remote, in whatever order the directory is listed, a disk cache rebuilds from it the very index it
      has. */
  lemma EveryRestartRebuildsTheIndex(s: CacheState, r: Remote, calls: seq<Call>, fullOrder: seq<Hash>,
                                     minOrder: seq<Hash>)
    requires Consistent(r) && Rebuildable(s, r) && PossibleRun(s, r, calls)
    requires var s' := After(s, r, calls);
             Lists(fullOrder, s'.disk.blocksFull) && Lists(minOrder, s'.disk.blocksMin)
    ensures var s' := After(s, r, calls);
            && RebuiltIndex(s'.disk, fullOrder, minOrder) == s'.index
            && IndexIsUnambiguous(s')
  {
    RunIsRebuildable(s, r, calls);
    UnambiguousIsRebuilt(After(s, r, calls), fullOrder, minOrder);
  }

  /** A new disk cache over an empty directory is such a cache. */
  lemma EmptyIsRebuildable(r: Remote, reset: bool)
    ensures Rebuildable(OpenCache(Disk(reset), NO_FILES, [], []), r)
  {
  }

  /* ---------- which calls fail ---------- */

  /** What was fetched and kept: blocks by hash and form, numbers whose hash is known, transactions, and
      lists of raw transactions. */
  datatype Kept = Kept(blocks: set<(Hash, bool)>, numbers: set<nat>, txs: set<Hash>, raws: set<nat>)

  const NOTHING_KEPT: Kept := Kept({}, {}, {}, {})

  /** What the cache has at hand. */
  ghost predicate Has(s: CacheState, k: Kept) {
    && (forall h, full :: (h, full) in k.blocks <==> !s.config.NoCache? && h in BlocksOf(s.served, full))
    && (forall n :: n in k.numbers <==> !s.config.NoCache? && n in s.index)
    && (forall h :: h in k.txs <==> !s.config.NoCache? && h in s.served.transactions)
    && (forall n :: n in k.raws <==> !s.config.NoCache? && n in s.served.rawTransactions)
  }

  /** The remote's hash for a number in one form. */
  function HashAt(r: Remote, n: nat, full: bool): Option<Hash> {
    var block := r.byTag(BlockTag.Number(n), full);
    if block.Some? then Some(block.value.hash) else None
  }

  /** The answer is at hand: a block by hash, a block by a known number, a transaction, or a list. */
  predicate AtHand(r: Remote, k: Kept, call: Call) {
    match call
    case ByHash(hash, full, _) => (hash, full) in k.blocks
    case ByNumber(Number(n), full, _) =>
      n in k.numbers && HashAt(r, n, full).Some? && (HashAt(r, n, full).value, full) in k.blocks
    case ByNumber(_, _, _) => false
    case TxByHash(hash, _) => hash in k.txs
    case RawByNumber(n, _) => n in k.raws
    case Restart(_, _) => true
  }

  function KeepBlock(k: Kept, hash: Hash, full: bool, block: Option<RemoteBlock>): Kept {
    if block.None? then k else k.(blocks := k.blocks + {(hash, full)}, numbers := k.numbers + {block.value.number})
  }

  /** What a call adds: what it fetches, unless nothing is kept at all; empty answers are not kept. */
  function KeepAnswer(r: Remote, config: CacheConfig, k: Kept, call: Call): Kept {
    if call.Restart? then (if config == Disk(false) then k else NOTHING_KEPT)
    else if config.NoCache? || !call.online || AtHand(r, k, call) then k
    else
      match call
      case ByHash(hash, full, _) => KeepBlock(k, hash, full, r.byHash(hash, full))
      case ByNumber(tag, full, _) =>
        var block := r.byTag(tag, full);
        KeepBlock(k, if block.Some? then block.value.hash else ZERO_HASH, full, block)
      case TxByHash(hash, _) => if r.transaction(hash).Some? then k.(txs := k.txs + {hash}) else k
      case RawByNumber(n, _) => if r.rawTransactions(n) != [] then k.(raws := k.raws + {n}) else k
      case _ => k
  }

  /** A cache of the remote, of any kind; a disk cache is one that restarts rebuild. */
  ghost predicate Proper(s: CacheState, r: Remote) {
    Sound(s, r) && (s.config.Disk? ==> Rebuildable(s, r))
  }

  lemma NumberAtHand(s: CacheState, r: Remote, k: Kept, n: nat, full: bool)
    requires Consistent(r) && Faithful(s, r) && Has(s, k) && !s.config.NoCache?
    ensures var hash := GetBlockHash(s, n);
            (hash.Some? && GetBlock(s, hash.value, full).Some?)
            <==> n in k.numbers && HashAt(r, n, full).Some? && (HashAt(r, n, full).value, full) in k.blocks
  {
    if n in s.index {
      assert r.byTag(BlockTag.Number(n), full) == r.byHash(s.index[n], full);
      if s.index[n] in BlocksOf(s.served, full) {
        assert r.byHash(s.index[n], full) == Some(BlocksOf(s.served, full)[s.index[n]]);
      }
    }
  }

  lemma BlockKept(s: CacheState, k: Kept, hash: Hash, full: bool, block: RemoteBlock)
    requires Has(s, k) && !s.config.NoCache?
    ensures Has(InsertBlock(s, hash, full, block), KeepBlock(k, hash, full, Some(block)))
  {
  }

  lemma ByHashExactly(s: CacheState, r: Remote, k: Kept, hash: Hash, full: bool, online: bool)
    requires Consistent(r) && Sound(s, r) && Has(s, k)
    ensures var a := GetBlockByHash(s, r, hash, full, online);
            && a.result == (if online || (hash, full) in k.blocks then Ok(r.byHash(hash, full)) else Err)
            && a.cache.config == s.config
            && Has(a.cache, KeepAnswer(r, s.config, k, ByHash(hash, full, online)))
  {
    ByHashIsTruthful(s, r, hash, full, online);
    if r.byHash(hash, full).Some? && !s.config.NoCache? {
      BlockKept(s, k, hash, full, r.byHash(hash, full).value);
    }
  }

  /** The cached block under a number, found in two steps. */
  function CachedByNumber(s: CacheState, tag: BlockTag, full: bool): Option<RemoteBlock> {
    var hash := if tag.Number? then GetBlockHash(s, tag.n) else None;
    if hash.Some? then GetBlock(s, hash.value, full) else None
  }

  lemma AtHandIsCached(s: CacheState, r: Remote, k: Kept, tag: BlockTag, full: bool, online: bool)
    requires Consistent(r) && Sound(s, r) && Has(s, k)
    ensures AtHand(r, k, ByNumber(tag, full, online)) <==> CachedByNumber(s, tag, full).Some?
  {
    if tag.Number? && !s.config.NoCache? {
      NumberAtHand(s, r, k, tag.n, full);
    }
  }

  lemma FetchKeeps(s: CacheState, k: Kept, full: bool, block: Option<RemoteBlock>)
    requires Has(s, k)
    ensures var hash := if block.Some? then block.value.hash else ZERO_HASH;
            var s' := if block.Some? then InsertBlock(s, hash, full, block.value) else s;
            Has(s', if s.config.NoCache? then k else KeepBlock(k, hash, full, block))
  {
    if block.Some? && !s.config.NoCache? {
      BlockKept(s, k, block.value.hash, full, block.value);
    }
  }

  lemma ByNumberExactly(s: CacheState, r: Remote, k: Kept, tag: BlockTag, full: bool, online: bool)
    requires Consistent(r) && Sound(s, r) && Has(s, k)
    ensures var a := GetBlockByNumber(s, r, tag, full, online);
            && a.result == (if online || AtHand(r, k, ByNumber(tag, full, online)) then Ok(r.byTag(tag, full)) else Err)
            && a.cache.config == s.config
            && Has(a.cache, KeepAnswer(r, s.config, k, ByNumber(tag, full, online)))
  {
    ByNumberIsTruthful(s, r, tag, full, online);
    AtHandIsCached(s, r, k, tag, full, online);
    FetchKeeps(s, k, full, r.byTag(tag, full));
  }

  lemma TxExactly(s: CacheState, r: Remote, k: Kept, hash: Hash, online: bool)
    requires Sound(s, r) && Has(s, k)
    ensures var a := GetTransactionByHash(s, r, hash, online);
            && a.result == (if online || hash in k.txs then Ok(r.transaction(hash)) else Err)
            && a.cache.config == s.config
            && Has(a.cache, KeepAnswer(r, s.config, k, TxByHash(hash, online)))
  {
  }

  lemma RawExactly(s: CacheState, r: Remote, k: Kept, n: nat, online: bool)
    requires Sound(s, r) && Has(s, k)
    ensures var a := GetRawBlockTransactions(s, r, n, online);
            && a.result == (if online || n in k.raws then Ok(r.rawTransactions(n)) else Err)
            && a.cache.config == s.config
            && Has(a.cache, KeepAnswer(r, s.config, k, RawByNumber(n, online)))
  {
  }

  lemma RestartExactly(s: CacheState, r: Remote, k: Kept, fullOrder: seq<Hash>, minOrder: seq<Hash>)
    requires Proper(s, r) && Has(s, k)
    requires Lists(fullOrder, s.disk.blocksFull) && Lists(minOrder, s.disk.blocksMin)
    ensures var s' := OpenCache(s.config, s.disk, fullOrder, minOrder);
            s'.config == s.config && Has(s', if s.config == Disk(false) then k else NOTHING_KEPT)
  {
    if s.config == Disk(false) {
      UnambiguousIsRebuilt(s, fullOrder, minOrder);
    }
  }

  lemma ServeExactly(s: CacheState, r: Remote, k: Kept, call: Call)
    requires Consistent(r) && Proper(s, r) && Possible(s, call) && Has(s, k)
    ensures Serve(s, r, call).1 == if Offline(call) && !AtHand(r, k, call) then Unreachable else Truth(r, call)
    ensures Serve(s, r, call).0.config == s.config
    ensures Has(Serve(s, r, call).0, KeepAnswer(r, s.config, k, call))
  {
    match call
    case ByHash(hash, full, online) => ByHashExactly(s, r, k, hash, full, online);
    case ByNumber(tag, full, online) => ByNumberExactly(s, r, k, tag, full, online);
    case TxByHash(hash, online) => TxExactly(s, r, k, hash, online);
    case RawByNumber(number, online) => RawExactly(s, r, k, number, online);
    case Restart(fullOrder, minOrder) => RestartExactly(s, r, k, fullOrder, minOrder);
  }

  lemma ServeStaysProper(s: CacheState, r: Remote, call: Call)
    requires Consistent(r) && Proper(s, r) && Possible(s, call)
    ensures Proper(Serve(s, r, call).0, r)
  {
    ServeIsTruthful(s, r, call);
    if s.config.Disk? {
      ServeIsRebuildable(s, r, call);
    }
  }

  /** All answers of a run, told without a cache: only what was kept so far is remembered. */
  function ExactAnswers(r: Remote, config: CacheConfig, k: Kept, calls: seq<Call>): seq<Answer>
    decreases |calls|
  {
    if calls == [] then []
    else
      [if Offline(calls[0]) && !AtHand(r, k, calls[0]) then Unreachable else Truth(r, calls[0])]
      + ExactAnswers(r, config, KeepAnswer(r, config, k, calls[0]), calls[1..])
  }

  /** The cache serves exactly what was fetched: over every order of calls, with restarts in between, a call
      that cannot reach the remote fails if and only if no earlier call fetched its answer, or it was lost
      in a restart that keeps no files; a number is known once any block under it was fetched. */
  lemma {:induction false} CallsFailExactly(s: CacheState, r: Remote, k: Kept, calls: seq<Call>)
    requires Consistent(r) && Proper(s, r) && Has(s, k) && PossibleRun(s, r, calls)
    ensures ServeAll(s, r, calls) == ExactAnswers(r, s.config, k, calls)
    decreases |calls|
  {
    if calls != [] {
      ServeExactly(s, r, k, calls[0]);
      ServeStaysProper(s, r, calls[0]);
      CallsFailExactly(Serve(s, r, calls[0]).0, r, KeepAnswer(r, s.config, k, calls[0]), calls[1..]);
    }
  }

  /** A new cache of any kind over an empty directory is such a cache, and has nothing. */
  lemma EmptyIsProper(r: Remote, config: CacheConfig)
    ensures var s := OpenCache(config, NO_FILES, [], []);
            Proper(s, r) && Has(s, NOTHING_KEPT)
  {
  }

  /* ---------- the mutable object ---------- */

  class HttpForkSource {
    const remote: Remote
    const cache: Cache

    constructor (remote: Remote, cache: Cache)
      ensures this.remote == remote && this.cache == cache
    {
      this.remote := remote;
      this.cache := cache;
    }

    method FetchBlockByHash(hash: Hash, full: bool, online: bool) returns (result: Result<Option<RemoteBlock>>)
      modifies cache, cache.dir
      ensures Fetched(cache.State(), result) == GetBlockByHash(old(cache.State()), remote, hash, full, online)
    {
      var cached := cache.Lookup(hash, full);
      if cached.Some? {
        return Ok(cached);
      }
      if !online {
        return Err;
      }
      var block := remote.byHash(hash, full);
      if block.Some? {
        cache.Insert(hash, full, block.value);
      }
      return Ok(block);
    }

    method FetchBlockByNumber(tag: BlockTag, full: bool, online: bool) returns (result: Result<Option<RemoteBlock>>)
      modifies cache, cache.dir
      ensures Fetched(cache.State(), result) == GetBlockByNumber(old(cache.State()), remote, tag, full, online)
    {
      if tag.Number? {
        var hash := cache.LookupHash(tag.n);
        if hash.Some? {
          var cached := cache.Lookup(hash.value, full);
          if cached.Some? {
            return Ok(cached);
          }
        }
      }
      if !online {
        return Err;
      }
      var block := remote.byTag(tag, full);
      if block.Some? {
        cache.Insert(block.value.hash, full, block.value);
      }
      return Ok(block);
    }

    method FetchTransactionByHash(hash: Hash, online: bool) returns (result: Result<Option<RawTx>>)
      modifies cache, cache.dir
      ensures Fetched(cache.State(), result) == GetTransactionByHash(old(cache.State()), remote, hash, online)
    {
      var cached := cache.LookupTransaction(hash);
      if cached.Some? {
        return Ok(cached);
      }
      if !online {
        return Err;
      }
      var tx := remote.transaction(hash);
      if tx.Some? {
        cache.AddTransaction(hash, tx.value);
      }
      return Ok(tx);
    }

    method FetchRawBlockTransactions(number: nat, online: bool) returns (result: Result<seq<RawTx>>)
      modifies cache, cache.dir
      ensures Fetched(cache.State(), result) == GetRawBlockTransactions(old(cache.State()), remote, number, online)
    {
      var cached := cache.LookupRawTransactions(number);
      if cached.Some? {
        return Ok(cached.value);
      }
      if !online {
        return Err;
      }
      var txs := remote.rawTransactions(number);
      if txs != [] {
        cache.InsertBlockRawTransactions(number, txs);
      }
      return Ok(txs);
    }
  }
}
