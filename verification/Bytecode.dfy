/** Contract code: chunked, hashed, stored under its hash, and found again through the code slot. */
module Bytecode {
  import opened Base
  import opened ForkedStorage

  const WORD_SIZE: nat := 32

  /** The bytecode hash: undefined for some lengths, otherwise collision-free and never zero. */
  type Hasher = seq<Word> -> Option<Word>

  ghost predicate CollisionFree(hasher: Hasher) {
    && (forall a, b :: hasher(a).Some? && hasher(a) == hasher(b) ==> a == b)
    && (forall a :: hasher(a).Some? ==> hasher(a).value != 0)
  }

  /* ---------- bytes and words ---------- */

  /** Big-endian value of a byte string. */
  function ToWord(bytes: Bytes): Word {
    if bytes == [] then 0 else ToWord(bytes[..|bytes| - 1]) * 256 + bytes[|bytes| - 1]
  }

  /** The `size` low bytes of a word, big-endian. */
  function FromWord(word: Word, size: nat): (bytes: Bytes)
    ensures |bytes| == size
  {
    if size == 0 then [] else FromWord(word / 256, size - 1) + [word % 256]
  }

  lemma {:induction false} WordRoundTrip(bytes: Bytes)
    ensures FromWord(ToWord(bytes), |bytes|) == bytes
  {
    if bytes != [] {
      var front, last := bytes[..|bytes| - 1], bytes[|bytes| - 1];
      WordRoundTrip(front);
      assert ToWord(bytes) / 256 == ToWord(front) && ToWord(bytes) % 256 == last;
      assert bytes == front + [last];
    }
  }

  /** Words are big-endian: the first byte weighs most. */
  lemma {:induction false} FirstByteWeighsMost(first: Byte, rest: Bytes)
    ensures ToWord([first] + rest) == first * Weight(|rest|) + ToWord(rest)
  {
    if rest == [] {
      assert [first] + rest == [first];
      assert ToWord([first][..0]) == 0;
    } else {
      var front, last := rest[..|rest| - 1], rest[|rest| - 1];
      assert ([first] + rest)[..|rest|] == [first] + front;
      FirstByteWeighsMost(first, front);
    }
  }

  function Weight(bytes: nat): nat {
    if bytes == 0 then 1 else 256 * Weight(bytes - 1)
  }

  function ToWords(bytes: Bytes): seq<Word>
    requires |bytes| % WORD_SIZE == 0
  {
    if bytes == [] then [] else [ToWord(bytes[..WORD_SIZE])] + ToWords(bytes[WORD_SIZE..])
  }

  function FromWords(words: seq<Word>): Bytes {
    if words == [] then [] else FromWord(words[0], WORD_SIZE) + FromWords(words[1..])
  }

  lemma {:induction false} CodeRoundTrip(bytes: Bytes)
    requires |bytes| % WORD_SIZE == 0
    ensures FromWords(ToWords(bytes)) == bytes
    ensures |ToWords(bytes)| * 32 == |bytes|
  {
    if bytes != [] {
      WordRoundTrip(bytes[..WORD_SIZE]);
      CodeRoundTrip(bytes[WORD_SIZE..]);
      assert ToWords(bytes)[1..] == ToWords(bytes[WORD_SIZE..]);
      assert bytes == bytes[..WORD_SIZE] + bytes[WORD_SIZE..];
    }
  }

  /* ---------- setting and getting code ---------- */

  const ACCOUNT_CODE_STORAGE: Address := 0x8002

  function CodeKey(address: Address): StorageKey {
    StorageKey(ACCOUNT_CODE_STORAGE, address)
  }

  /** Hash and words of a bytecode; an error unless its length is a multiple of the word size and the
      hash is defined. */
  function ToFactoryDep(hasher: Hasher, code: Bytes): Result<(Word, seq<Word>)> {
    if |code| % WORD_SIZE != 0 then Err
    else if hasher(ToWords(code)).None? then Err
    else Ok((hasher(ToWords(code)).value, ToWords(code)))
  }

  predicate Usable(hasher: Hasher, code: Bytes) {
    |code| % WORD_SIZE == 0 && hasher(ToWords(code)).Some?
  }

  /** Bytecode is refused exactly if it is not made of whole 32-byte words or has no hash. */
  lemma UsableExactly(hasher: Hasher, code: Bytes)
    ensures ToFactoryDep(hasher, code).Ok? <==> |code| % 32 == 0 && hasher(ToWords(code)).Some?
  {
  }

  /** Stores a bytecode under its hash and the hash in the account's code slot. */
  function PublishCode(s: Store, hasher: Hasher, address: Address, code: Bytes): (Store, bool) {
    var dep := ToFactoryDep(hasher, code);
    if dep.Err? then (s, false)
    else (WithValue(WithCode(s, dep.value.0, FromWords(dep.value.1)), CodeKey(address), dep.value.0), true)
  }

  /** Follows the code slot to the code; an account without code has the empty one. */
  function FetchCode(s: Store, address: Address, online: bool): Answered<Bytes> {
    var hash := ReadValue(s, CodeKey(address), online);
    if hash.result.Err? then Answered(hash.store, Err)
    else
      var code := LoadFactoryDep(hash.store, hash.result.value, online);
      if code.result.Err? then Answered(code.store, Err)
      else Answered(code.store, Ok(if code.result.value.Some? then code.result.value.value else []))
  }

  /** What a code slot leads to, without caches. */
  function CodeAt(c: Contents, address: Address): Bytes {
    var code := OverlayCode(c, Overlay(c, CodeKey(address)));
    if code.Some? then code.value else []
  }

  /** Reading code changes caches only, and a success is the cache-free answer. */
  lemma FetchCodeRefines(s: Store, address: Address, online: bool)
    requires Coherent(s)
    ensures var a := FetchCode(s, address, online);
            && Coherent(a.store) && a.store.contents == s.contents
            && (a.result == Ok(CodeAt(s.contents, address)) || (!online && a.result == Err))
  {
  }

  datatype CodeOp =
    | Publish(address: Address, code: Bytes)
    | Other(op: StoreOp)

  /** Other operations write no code slots; code they add is stored under its own hash. */
  predicate Unrelated(hasher: Hasher, op: StoreOp) {
    && (op.PutCode? ==> Usable(hasher, op.code) && hasher(ToWords(op.code)).value == op.hash)
    && (op.Put? ==> op.key.account != ACCOUNT_CODE_STORAGE)
  }

  predicate LeavesAlone(hasher: Hasher, address: Address, op: CodeOp) {
    match op
    case Publish(other, _) => other != address
    case Other(op) => Unrelated(hasher, op)
  }

  function StepCode(s: Store, hasher: Hasher, op: CodeOp): Store {
    match op
    case Publish(address, code) => PublishCode(s, hasher, address, code).0
    case Other(op) => StepStore(s, op).0
  }

  function RunCode(s: Store, hasher: Hasher, ops: seq<CodeOp>): Store
    decreases |ops|
  {
    if ops == [] then s else RunCode(StepCode(s, hasher, ops[0]), hasher, ops[1..])
  }

  /** The account's code is installed locally. */
  predicate Installed(s: Store, hasher: Hasher, address: Address, code: Bytes) {
    && Usable(hasher, code)
    && s.contents.raw.ReadValue(CodeKey(address)) == hasher(ToWords(code)).value
    && s.contents.raw.LoadFactoryDep(hasher(ToWords(code)).value) == Some(code)
  }

  /** Two codes under one hash are one code. */
  lemma SameHashSameCode(hasher: Hasher, code: Bytes, other: Bytes)
    requires CollisionFree(hasher) && Usable(hasher, code) && Usable(hasher, other)
    requires hasher(ToWords(code)) == hasher(ToWords(other))
    ensures code == other
  {
    CodeRoundTrip(code);
    CodeRoundTrip(other);
  }

  lemma StepKeepsInstalled(s: Store, hasher: Hasher, address: Address, code: Bytes, op: CodeOp)
    requires CollisionFree(hasher) && Coherent(s) && Installed(s, hasher, address, code)
    requires LeavesAlone(hasher, address, op)
    ensures Coherent(StepCode(s, hasher, op)) && Installed(StepCode(s, hasher, op), hasher, address, code)
  {
    match op
    case Publish(_, other) =>
      if Usable(hasher, other) {
        CodeRoundTrip(other);
        if hasher(ToWords(code)) == hasher(ToWords(other)) {
          SameHashSameCode(hasher, code, other);
        }
      }
    case Other(inner) =>
      StepRefines(s, inner);
      if inner.PutCode? && hasher(ToWords(code)) == hasher(ToWords(inner.code)) {
        SameHashSameCode(hasher, code, inner.code);
      }
  }

  lemma {:induction false} RunKeepsInstalled(s: Store, hasher: Hasher, address: Address, code: Bytes, ops: seq<CodeOp>)
    requires CollisionFree(hasher) && Coherent(s) && Installed(s, hasher, address, code)
    requires forall op :: op in ops ==> LeavesAlone(hasher, address, op)
    ensures Coherent(RunCode(s, hasher, ops)) && Installed(RunCode(s, hasher, ops), hasher, address, code)
    decreases |ops|
  {
    if ops != [] {
      assert ops[0] in ops;
      StepKeepsInstalled(s, hasher, address, code, ops[0]);
      RunKeepsInstalled(StepCode(s, hasher, ops[0]), hasher, address, code, ops[1..]);
    }
  }

  /** Code that was set is the code that is read, byte for byte, after any later storage operations,
      code published by others under its own hash included; setting is refused, and changes nothing,
      exactly for bytecode that cannot be hashed. */
  lemma SetCodeIsReadBack(s: Store, hasher: Hasher, address: Address, code: Bytes, ops: seq<CodeOp>)
    requires CollisionFree(hasher) && Coherent(s)
    requires forall op :: op in ops ==> LeavesAlone(hasher, address, op)
    ensures PublishCode(s, hasher, address, code).1 <==> Usable(hasher, code)
    ensures !Usable(hasher, code) ==> PublishCode(s, hasher, address, code).0 == s
    ensures Usable(hasher, code) ==>
              FetchCode(RunCode(PublishCode(s, hasher, address, code).0, hasher, ops), address, true).result == Ok(code)
  {
    if Usable(hasher, code) {
      CodeRoundTrip(code);
      var s1 := PublishCode(s, hasher, address, code).0;
      RunKeepsInstalled(s1, hasher, address, code, ops);
      FetchCodeRefines(RunCode(s1, hasher, ops), address, true);
    }
  }

  /* ---------- on the mutable storage ---------- */

  method SetCodeCall(storage: ForkStorage, hasher: Hasher, address: Address, code: Bytes) returns (ok: bool)
    modifies storage
    ensures (storage.State(), ok) == PublishCode(old(storage.State()), hasher, address, code)
  {
    var dep := ToFactoryDep(hasher, code);
    if dep.Err? {
      return false;
    }
    storage.StoreFactoryDep(dep.value.0, FromWords(dep.value.1));
    storage.SetValue(CodeKey(address), dep.value.0);
    return true;
  }

  method GetCodeCall(storage: ForkStorage, address: Address, online: bool) returns (r: Result<Bytes>)
    requires Coherent(storage.State())
    modifies storage
    ensures Coherent(storage.State()) && storage.State().contents == old(storage.State().contents)
    ensures Answered(storage.State(), r) == FetchCode(old(storage.State()), address, online)
    ensures r == Ok(CodeAt(storage.State().contents, address)) || (!online && r == Err)
  {
    var hash := storage.ReadValueInternal(CodeKey(address), online);
    if hash.Err? {
      return Err;
    }
    var code := storage.LoadFactoryDepInternal(hash.value, online);
    if code.Err? {
      return Err;
    }
    return Ok(if code.value.Some? then code.value.value else []);
  }
}
