/** Storage that falls back to a remote chain: a local layer, a remote source pinned at the fork
    block, and caches of what was fetched from it. */
module ForkedStorage {
  import opened Base
  import opened LocalStorage

  /** The remote chain. Its answers never change; fetching one may fail. */
  datatype Fork = Fork(
    storageAt: (StorageKey, nat) -> Word,
    codeOf: Word -> Option<Bytes>,
    batch: U32,
    miniblock: U64,
    miniblockHash: Hash,
    block: Block,
    timestamp: U64)

  /** What a store holds, apart from its caches. */
  datatype Contents = Contents(raw: InMemoryStorage, fork: Option<Fork>)

  datatype Store = Store(
    contents: Contents,
    readCache: map<StorageKey, Word>,
    depCache: map<Word, Option<Bytes>>)

  function RemoteValue(fork: Fork, key: StorageKey): Word {
    fork.storageAt(key, fork.miniblock)
  }

  /* ---------- the cache-free meaning ---------- */

  /** The value of a slot: the local one unless it is zero and a fork is installed. */
  function Overlay(c: Contents, key: StorageKey): Word {
    var local := c.raw.ReadValue(key);
    if c.fork.None? || local != 0 then local else RemoteValue(c.fork.value, key)
  }

  function OverlayCode(c: Contents, hash: Word): Option<Bytes> {
    var local := c.raw.LoadFactoryDep(hash);
    if c.fork.None? || local.Some? then local else c.fork.value.codeOf(hash)
  }

  /** Whether a write to the slot counts as its first one. */
  predicate FirstWrite(c: Contents, key: StorageKey) {
    Overlay(c, key) == 0 && c.raw.IsWriteInitial(key)
  }

  /** The remote value hides behind a local zero. */
  predicate Shadowed(c: Contents, key: StorageKey) {
    c.fork.Some? && RemoteValue(c.fork.value, key) != 0
  }

  /** Every cached answer is the installed fork's answer. */
  ghost predicate Coherent(s: Store) {
    && (forall k :: k in s.readCache ==>
          s.contents.fork.Some? && s.readCache[k] == RemoteValue(s.contents.fork.value, k))
    && (forall h :: h in s.depCache ==>
          s.contents.fork.Some? && s.depCache[h] == s.contents.fork.value.codeOf(h))
  }

  /* ---------- the caching operations ---------- */

  datatype Answered<+T> = Answered(store: Store, result: Result<T>)

  /** `online` says whether the remote source can be reached during this call. */
  function ReadValue(s: Store, key: StorageKey, online: bool): (r: Answered<Word>)
    ensures online ==> r.result.Ok?
  {
    var local := s.contents.raw.ReadValue(key);
    if s.contents.fork.None? || local != 0 then Answered(s, Ok(local))
    else if key in s.readCache then Answered(s, Ok(s.readCache[key]))
    else if !online then Answered(s, Err)
    else
      var fetched := RemoteValue(s.contents.fork.value, key);
      Answered(s.(readCache := s.readCache[key := fetched]), Ok(fetched))
  }

  function LoadFactoryDep(s: Store, hash: Word, online: bool): (r: Answered<Option<Bytes>>)
    ensures online ==> r.result.Ok?
  {
    var local := s.contents.raw.LoadFactoryDep(hash);
    if s.contents.fork.None? || local.Some? then Answered(s, Ok(local))
    else if hash in s.depCache then Answered(s, Ok(s.depCache[hash]))
    else if !online then Answered(s, Err)
    else
      var fetched := s.contents.fork.value.codeOf(hash);
      Answered(s.(depCache := s.depCache[hash := fetched]), Ok(fetched))
  }

  function IsWriteInitial(s: Store, key: StorageKey, online: bool): (r: Answered<bool>)
    ensures online ==> r.result.Ok?
  {
    var read := ReadValue(s, key, online);
    match read.result
    case Err => Answered(read.store, Err)
    case Ok(value) =>
      if value != 0 then Answered(read.store, Ok(false))
      else Answered(read.store, Ok(read.store.contents.raw.IsWriteInitial(key)))
  }

  function WithValue(s: Store, key: StorageKey, value: Word): Store {
    s.(contents := s.contents.(raw := s.contents.raw.SetValue(key, value)))
  }

  function WithCode(s: Store, hash: Word, code: Bytes): Store {
    s.(contents := s.contents.(raw := s.contents.raw.StoreFactoryDep(hash, code)))
  }

  /** A write is read back exactly when it is not a zero over a non-zero remote value, and it
      disturbs no other slot. */
  lemma WriteIsReadBack(s: Store, key: StorageKey, value: Word, other: StorageKey)
    requires Coherent(s)
    ensures ReadValue(WithValue(s, key, value), key, true).result == Ok(value)
       <==> value != 0 || !Shadowed(s.contents, key)
    ensures other != key ==>
              ReadValue(WithValue(s, key, value), other, true).result == ReadValue(s, other, true).result
  {
  }

  /* ---------- any run of operations ---------- */

  datatype StoreOp =
    | Get(key: StorageKey, online: bool)
    | Initial(key: StorageKey, online: bool)
    | GetCode(hash: Word, online: bool)
    | Put(key: StorageKey, value: Word)
    | PutCode(hash: Word, code: Bytes)

  datatype StoreReply = Value(word: Word) | Flag(flag: bool) | Code(code: Option<Bytes>) | Stored | Unavailable

  function StepStore(s: Store, op: StoreOp): (Store, StoreReply) {
    match op
    case Get(key, online) =>
      var a := ReadValue(s, key, online);
      (a.store, if a.result.Ok? then Value(a.result.value) else Unavailable)
    case Initial(key, online) =>
      var a := IsWriteInitial(s, key, online);
      (a.store, if a.result.Ok? then Flag(a.result.value) else Unavailable)
    case GetCode(hash, online) =>
      var a := LoadFactoryDep(s, hash, online);
      (a.store, if a.result.Ok? then Code(a.result.value) else Unavailable)
    case Put(key, value) => (WithValue(s, key, value), Stored)
    case PutCode(hash, code) => (WithCode(s, hash, code), Stored)
  }

  /** The reference: no caches, and a remote that always answers. */
  function PlainStep(c: Contents, op: StoreOp): (Contents, StoreReply) {
    match op
    case Get(key, _) => (c, Value(Overlay(c, key)))
    case Initial(key, _) => (c, Flag(FirstWrite(c, key)))
    case GetCode(hash, _) => (c, Code(OverlayCode(c, hash)))
    case Put(key, value) => (c.(raw := c.raw.SetValue(key, value)), Stored)
    case PutCode(hash, code) => (c.(raw := c.raw.StoreFactoryDep(hash, code)), Stored)
  }

  function RunStore(s: Store, ops: seq<StoreOp>): (Store, seq<StoreReply>)
    decreases |ops|
  {
    if ops == [] then (s, [])
    else
      var (s', reply) := StepStore(s, ops[0]);
      var (s'', replies) := RunStore(s', ops[1..]);
      (s'', [reply] + replies)
  }

  function PlainRun(c: Contents, ops: seq<StoreOp>): (Contents, seq<StoreReply>)
    decreases |ops|
  {
    if ops == [] then (c, [])
    else
      var (c', reply) := PlainStep(c, ops[0]);
      var (c'', replies) := PlainRun(c', ops[1..]);
      (c'', [reply] + replies)
  }

  predicate Offline(op: StoreOp) {
    (op.Get? || op.Initial? || op.GetCode?) && !op.online
  }

  /** One step agrees with the reference, or reports that the remote could not be reached. */
  lemma StepRefines(s: Store, op: StoreOp)
    requires Coherent(s)
    ensures Coherent(StepStore(s, op).0)
    ensures StepStore(s, op).0.contents == PlainStep(s.contents, op).0
    ensures StepStore(s, op).1 == PlainStep(s.contents, op).1 || (Offline(op) && StepStore(s, op).1 == Unavailable)
  {
  }

  /** Refinement over every run: whatever was read, cached, written or unreachable before, each
      answer is the cache-free one or an explicit failure of an offline call. */
  lemma {:induction false} RunRefines(s: Store, ops: seq<StoreOp>)
    requires Coherent(s)
    ensures Coherent(RunStore(s, ops).0)
    ensures RunStore(s, ops).0.contents == PlainRun(s.contents, ops).0
    ensures |RunStore(s, ops).1| == |PlainRun(s.contents, ops).1| == |ops|
    ensures forall i :: 0 <= i < |ops| ==>
              || RunStore(s, ops).1[i] == PlainRun(s.contents, ops).1[i]
              || (Offline(ops[i]) && RunStore(s, ops).1[i] == Unavailable)
    decreases |ops|
  {
    if ops != [] {
      StepRefines(s, ops[0]);
      RunRefines(StepStore(s, ops[0]).0, ops[1..]);
    }
  }

  predicate IsQuery(op: StoreOp) {
    op.Get? || op.Initial? || op.GetCode?
  }

  /** Queries are invisible: any number of them, answered or failed, changes no later answer. */
  lemma {:induction false} QueriesAreInvisible(s: Store, queries: seq<StoreOp>, op: StoreOp)
    requires Coherent(s)
    requires forall q :: q in queries ==> IsQuery(q)
    requires !Offline(op)
    ensures RunStore(s, queries).0.contents == s.contents
    ensures StepStore(RunStore(s, queries).0, op).1 == StepStore(s, op).1
  {
    RunRefines(s, queries);
    StepRefines(s, op);
    StepRefines(RunStore(s, queries).0, op);
    PlainQueries(s.contents, queries);
  }

  lemma {:induction false} PlainQueries(c: Contents, queries: seq<StoreOp>)
    requires forall q :: q in queries ==> IsQuery(q)
    ensures PlainRun(c, queries).0 == c
  {
    if queries != [] {
      assert queries[0] in queries;
      PlainQueries(c, queries[1..]);
    }
  }

  /** The run writes the slot, with whatever value. */
  predicate Writes(ops: seq<StoreOp>, key: StorageKey) {
    exists i :: 0 <= i < |ops| && ops[i].Put? && ops[i].key == key
  }

  lemma {:induction false} WrittenIsLocal(c: Contents, ops: seq<StoreOp>, key: StorageKey)
    ensures key in PlainRun(c, ops).0.raw.state <==> key in c.raw.state || Writes(ops, key)
    decreases |ops|
  {
    if ops != [] {
      var c1 := PlainStep(c, ops[0]).0;
      WrittenIsLocal(c1, ops[1..], key);
      if Writes(ops, key) {
        var i :| 0 <= i < |ops| && ops[i].Put? && ops[i].key == key;
        if i > 0 {
          assert ops[1..][i - 1] == ops[i];
        }
      }
      if Writes(ops[1..], key) {
        var i :| 0 <= i < |ops[1..]| && ops[1..][i].Put? && ops[1..][i].key == key;
        assert ops[i + 1] == ops[1..][i];
      }
    }
  }

  /** After any run a write to a slot counts as its first one exactly if the slot reads zero, was not there
      at the start, and was not written since: once written, even with zero, it is never initial again. */
  lemma FirstWriteIsOnce(s: Store, ops: seq<StoreOp>, key: StorageKey)
    requires Coherent(s)
    ensures var s' := RunStore(s, ops).0;
            StepStore(s', Initial(key, true)).1
            == Flag(Overlay(s'.contents, key) == 0 && key !in s.contents.raw.state && !Writes(ops, key))
  {
    RunRefines(s, ops);
    StepRefines(RunStore(s, ops).0, Initial(key, true));
    WrittenIsLocal(s.contents, ops, key);
  }

  /* ---------- which calls fail ---------- */

  /** The slots and bytecodes that were fetched from the remote. */
  datatype Fetched = Fetched(slots: set<StorageKey>, codes: set<Word>)

  const NOTHING: Fetched := Fetched({}, {})

  function Both(f: Fetched, g: Fetched): Fetched {
    Fetched(f.slots + g.slots, f.codes + g.codes)
  }

  /** The local layer has no say on the slot, so the remote is asked. */
  predicate IsSilent(c: Contents, key: StorageKey) {
    c.fork.Some? && c.raw.ReadValue(key) == 0
  }

  predicate IsSilentOnCode(c: Contents, hash: Word) {
    c.fork.Some? && c.raw.LoadFactoryDep(hash).None?
  }

  /** What an operation fetches that reaches the remote. */
  function FetchedBy(c: Contents, op: StoreOp): Fetched {
    match op
    case Get(key, true) => if IsSilent(c, key) then Fetched({key}, {}) else NOTHING
    case Initial(key, true) => if IsSilent(c, key) then Fetched({key}, {}) else NOTHING
    case GetCode(hash, true) => if IsSilentOnCode(c, hash) then Fetched({}, {hash}) else NOTHING
    case _ => NOTHING
  }

  /** An operation fails if it cannot reach the remote and needs something that was never fetched. */
  predicate Fails(c: Contents, f: Fetched, op: StoreOp) {
    match op
    case Get(key, false) => IsSilent(c, key) && key !in f.slots
    case Initial(key, false) => IsSilent(c, key) && key !in f.slots
    case GetCode(hash, false) => IsSilentOnCode(c, hash) && hash !in f.codes
    case _ => false
  }

  function FetchedIn(s: Store): Fetched {
    Fetched(s.readCache.Keys, s.depCache.Keys)
  }

  lemma StepFailsExactly(s: Store, op: StoreOp)
    requires Coherent(s)
    ensures StepStore(s, op).1
         == if Fails(s.contents, FetchedIn(s), op) then Unavailable else PlainStep(s.contents, op).1
    ensures FetchedIn(StepStore(s, op).0) == Both(FetchedIn(s), FetchedBy(s.contents, op))
  {
  }

  /** All replies of a run, told without caches: only what was fetched so far is remembered. */
  function ExactReplies(c: Contents, f: Fetched, ops: seq<StoreOp>): seq<StoreReply>
    decreases |ops|
  {
    if ops == [] then []
    else
      [if Fails(c, f, ops[0]) then Unavailable else PlainStep(c, ops[0]).1]
      + ExactReplies(PlainStep(c, ops[0]).0, Both(f, FetchedBy(c, ops[0])), ops[1..])
  }

  /** The caches serve exactly what was fetched: over every run, an operation that cannot reach the remote
      fails if and only if the local layer is silent and no earlier operation fetched the slot or the
      bytecode; every other operation answers with the cache-free value. */
  lemma {:induction false} RunFailsExactly(s: Store, ops: seq<StoreOp>)
    requires Coherent(s)
    ensures RunStore(s, ops).1 == ExactReplies(s.contents, FetchedIn(s), ops)
    decreases |ops|
  {
    if ops != [] {
      StepRefines(s, ops[0]);
      StepFailsExactly(s, ops[0]);
      RunFailsExactly(StepStore(s, ops[0]).0, ops[1..]);
    }
  }

  lemma {:induction false} RunKeepsFetched(s: Store, ops: seq<StoreOp>)
    requires Coherent(s)
    ensures Coherent(RunStore(s, ops).0)
    ensures RunStore(s, ops).0.contents == PlainRun(s.contents, ops).0
    ensures FetchedIn(s).slots <= FetchedIn(RunStore(s, ops).0).slots
    ensures FetchedIn(s).codes <= FetchedIn(RunStore(s, ops).0).codes
    decreases |ops|
  {
    if ops != [] {
      StepRefines(s, ops[0]);
      StepFailsExactly(s, ops[0]);
      RunKeepsFetched(StepStore(s, ops[0]).0, ops[1..]);
    }
  }

  /** Once a slot or a bytecode was fetched it is never out of reach again, whatever happens in between. */
  lemma FetchedStaysInReach(s: Store, op: StoreOp, ops: seq<StoreOp>, key: StorageKey, hash: Word)
    requires Coherent(s)
    ensures var s' := RunStore(StepStore(s, op).0, ops).0;
            && (key in FetchedBy(s.contents, op).slots ==>
                  StepStore(s', Get(key, false)).1 == Value(Overlay(s'.contents, key)))
            && (hash in FetchedBy(s.contents, op).codes ==>
                  StepStore(s', GetCode(hash, false)).1 == Code(OverlayCode(s'.contents, hash)))
  {
    var s1 := StepStore(s, op).0;
    StepRefines(s, op);
    StepFailsExactly(s, op);
    RunKeepsFetched(s1, ops);
    StepFailsExactly(RunStore(s1, ops).0, Get(key, false));
    StepFailsExactly(RunStore(s1, ops).0, GetCode(hash, false));
  }

  /** What is fetched is the remote's value at the fork block, and the remote's bytecode. */
  lemma FetchIsAtForkBlock(s: Store, key: StorageKey, hash: Word)
    requires Coherent(s) && s.contents.fork.Some?
    ensures var fork := s.contents.fork.value;
            && (IsSilent(s.contents, key) ==>
                  StepStore(s, Get(key, true)).1 == Value(fork.storageAt(key, fork.miniblock)))
            && (IsSilentOnCode(s.contents, hash) ==> StepStore(s, GetCode(hash, true)).1 == Code(fork.codeOf(hash)))
  {
  }

  /* ---------- the mutable object ---------- */

  class ForkStorage {
    var raw: InMemoryStorage
    var valueReadCache: map<StorageKey, Word>
    var factoryDepCache: map<Word, Option<Bytes>>
    var fork: Option<Fork>

    ghost function State(): Store
      reads this
    {
      Store(Contents(raw, fork), valueReadCache, factoryDepCache)
    }

    constructor (fork: Option<Fork>, genesis: InMemoryStorage)
      ensures State() == Store(Contents(genesis, fork), map[], map[])
      ensures Coherent(State())
    {
      this.raw := genesis;
      this.fork := fork;
      this.valueReadCache := map[];
      this.factoryDepCache := map[];
    }

    /** Replaces everything but the fork. */
    method Load(raw: InMemoryStorage, readCache: map<StorageKey, Word>, depCache: map<Word, Option<Bytes>>)
      modifies this
      ensures State() == Store(Contents(raw, old(fork)), readCache, depCache)
    {
      this.raw := raw;
      valueReadCache := readCache;
      factoryDepCache := depCache;
    }

    method ReadValueInternal(key: StorageKey, online: bool) returns (r: Result<Word>)
      requires Coherent(State())
      modifies this`valueReadCache
      ensures Answered(State(), r) == ReadValue(old(State()), key, online)
      ensures Coherent(State())
      ensures r.Ok? ==> r.value == Overlay(State().contents, key)
      ensures r.Err? <==> !online && IsSilent(old(State().contents), key) && key !in old(valueReadCache)
      ensures r.Ok? && IsSilent(old(State().contents), key) ==> key in valueReadCache
    {
      var local := raw.ReadValue(key);
      if fork.None? {
        return Ok(local);
      }
      if local != 0 {
        return Ok(local);
      }
      if key in valueReadCache {
        return Ok(valueReadCache[key]);
      }
      if !online {
        return Err;
      }
      var fetched := fork.value.storageAt(key, fork.value.miniblock);
      valueReadCache := valueReadCache[key := fetched];
      return Ok(fetched);
    }

    method LoadFactoryDepInternal(hash: Word, online: bool) returns (r: Result<Option<Bytes>>)
      requires Coherent(State())
      modifies this`factoryDepCache
      ensures Answered(State(), r) == LoadFactoryDep(old(State()), hash, online)
      ensures Coherent(State())
      ensures r.Ok? ==> r.value == OverlayCode(State().contents, hash)
      ensures r.Err? <==> !online && IsSilentOnCode(old(State().contents), hash) && hash !in old(factoryDepCache)
      ensures r.Ok? && IsSilentOnCode(old(State().contents), hash) ==> hash in factoryDepCache
    {
      var local := raw.LoadFactoryDep(hash);
      if fork.None? {
        return Ok(local);
      }
      if local.Some? {
        return Ok(local);
      }
      if hash in factoryDepCache {
        return Ok(factoryDepCache[hash]);
      }
      if !online {
        return Err;
      }
      var fetched := fork.value.codeOf(hash);
      factoryDepCache := factoryDepCache[hash := fetched];
      return Ok(fetched);
    }

    method IsWriteInitialInternal(key: StorageKey, online: bool) returns (r: Result<bool>)
      requires Coherent(State())
      modifies this`valueReadCache
      ensures Answered(State(), r) == IsWriteInitial(old(State()), key, online)
      ensures Coherent(State())
      ensures r.Ok? ==> r.value == FirstWrite(State().contents, key)
    {
      var read := ReadValueInternal(key, online);
      if read.Err? {
        return Err;
      }
      if read.value != 0 {
        return Ok(false);
      }
      return Ok(raw.IsWriteInitial(key));
    }

    method SetValue(key: StorageKey, value: Word)
      modifies this`raw
      ensures State() == WithValue(old(State()), key, value)
    {
      raw := raw.SetValue(key, value);
    }

    method StoreFactoryDep(hash: Word, code: Bytes)
      modifies this`raw
      ensures State() == WithCode(old(State()), hash, code)
    {
      raw := raw.StoreFactoryDep(hash, code);
    }
  }
}
