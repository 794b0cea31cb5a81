/** A write buffer over the forked storage, as the VM sees it: reads go through three caches, writes
    stay in the buffer until the node flushes them. */
module Views {
  import opened Base
  import opened ForkedStorage

  datatype View = View(
    modified: map<StorageKey, Word>,
    seen: map<StorageKey, Word>,
    initialWrites: map<StorageKey, bool>)

  const EMPTY: View := View(map[], map[], map[])

  /** A view together with the storage underneath it. */
  datatype Session = Session(view: View, store: Store)

  function Open(store: Store): Session {
    Session(EMPTY, store)
  }

  datatype Access =
    | ReadSlot(key: StorageKey)
    | WriteSlot(key: StorageKey, value: Word)
    | AskInitial(key: StorageKey)
    | LoadCode(hash: Word)

  datatype Answer = AWord(word: Word) | AFlag(flag: bool) | ACode(code: Option<Bytes>)

  /* ---------- the caching view ---------- */

  function GetValueNoLog(x: Session, key: StorageKey): (Session, Word) {
    if key in x.view.modified then (x, x.view.modified[key])
    else if key in x.view.seen then (x, x.view.seen[key])
    else
      var a := ReadValue(x.store, key, true);
      var value := a.result.value;
      (Session(x.view.(seen := x.view.seen[key := value]), a.store), value)
  }

  function IsFirstWrite(x: Session, key: StorageKey): (Session, bool) {
    if key in x.view.initialWrites then (x, x.view.initialWrites[key])
    else
      var a := IsWriteInitial(x.store, key, true);
      var flag := a.result.value;
      (Session(x.view.(initialWrites := x.view.initialWrites[key := flag]), a.store), flag)
  }

  function Perform(x: Session, a: Access): (Session, Answer) {
    match a
    case ReadSlot(key) =>
      var (x', value) := GetValueNoLog(x, key);
      (x', AWord(value))
    case WriteSlot(key, value) =>
      var (x', original) := GetValueNoLog(x, key);
      (Session(x'.view.(modified := x'.view.modified[key := value]), x'.store), AWord(original))
    case AskInitial(key) =>
      var (x', flag) := IsFirstWrite(x, key);
      (x', AFlag(flag))
    case LoadCode(hash) =>
      var loaded := LoadFactoryDep(x.store, hash, true);
      (x.(store := loaded.store), ACode(loaded.result.value))
  }

  function Execute(x: Session, script: seq<Access>): (Session, seq<Answer>)
    decreases |script|
  {
    if script == [] then (x, [])
    else
      var (x', answer) := Perform(x, script[0]);
      var (x'', answers) := Execute(x', script[1..]);
      (x'', [answer] + answers)
  }

  /* ---------- the reference: a buffer over the cache-free overlay ---------- */

  function Peek(pending: map<StorageKey, Word>, c: Contents, key: StorageKey): Word {
    if key in pending then pending[key] else Overlay(c, key)
  }

  function PlainPerform(pending: map<StorageKey, Word>, c: Contents, a: Access): (map<StorageKey, Word>, Answer) {
    match a
    case ReadSlot(key) => (pending, AWord(Peek(pending, c, key)))
    case WriteSlot(key, value) => (pending[key := value], AWord(Peek(pending, c, key)))
    case AskInitial(key) => (pending, AFlag(FirstWrite(c, key)))
    case LoadCode(hash) => (pending, ACode(OverlayCode(c, hash)))
  }

  function PlainExecute(pending: map<StorageKey, Word>, c: Contents, script: seq<Access>)
    : (map<StorageKey, Word>, seq<Answer>)
    decreases |script|
  {
    if script == [] then (pending, [])
    else
      var (pending', answer) := PlainPerform(pending, c, script[0]);
      var (pending'', answers) := PlainExecute(pending', c, script[1..]);
      (pending'', [answer] + answers)
  }

  /** The last value a script writes to a slot. */
  function LastWrite(script: seq<Access>, key: StorageKey): Option<Word> {
    if script == [] then None
    else
      var last := script[|script| - 1];
      if last.WriteSlot? && last.key == key then Some(last.value)
      else LastWrite(script[..|script| - 1], key)
  }

  /** The caches of a view tell the truth about the storage underneath. */
  ghost predicate Truthful(x: Session) {
    && Coherent(x.store)
    && (forall k :: k in x.view.seen ==> x.view.seen[k] == Overlay(x.store.contents, k))
    && (forall k :: k in x.view.initialWrites ==> x.view.initialWrites[k] == FirstWrite(x.store.contents, k))
  }

  lemma LookupRefines(x: Session, key: StorageKey)
    requires Truthful(x)
    ensures var (x', value) := GetValueNoLog(x, key);
            && Truthful(x') && x'.store.contents == x.store.contents
            && x'.view.modified == x.view.modified && value == Peek(x.view.modified, x.store.contents, key)
  {
  }

  lemma PerformRefines(x: Session, a: Access)
    requires Truthful(x)
    ensures Truthful(Perform(x, a).0)
    ensures Perform(x, a).0.store.contents == x.store.contents
    ensures Perform(x, a).0.view.modified == PlainPerform(x.view.modified, x.store.contents, a).0
    ensures Perform(x, a).1 == PlainPerform(x.view.modified, x.store.contents, a).1
  {
    match a
    case ReadSlot(key) => LookupRefines(x, key);
    case WriteSlot(key, _) => LookupRefines(x, key);
    case _ =>
  }

  /** What a view has looked up it answers by itself from then on, whatever is below. */
  lemma ViewAnswersByItself(x: Session, key: StorageKey, below: Store)
    ensures var (x', value) := GetValueNoLog(x, key);
            GetValueNoLog(Session(x'.view, below), key) == (Session(x'.view, below), value)
    ensures var (x', flag) := IsFirstWrite(x, key);
            IsFirstWrite(Session(x'.view, below), key) == (Session(x'.view, below), flag)
  {
  }

  /** Every answer of every script is the reference answer, and the storage contents are untouched. */
  lemma {:induction false} ExecuteRefines(x: Session, script: seq<Access>)
    requires Truthful(x)
    ensures Truthful(Execute(x, script).0)
    ensures Execute(x, script).0.store.contents == x.store.contents
    ensures Execute(x, script).0.view.modified == PlainExecute(x.view.modified, x.store.contents, script).0
    ensures Execute(x, script).1 == PlainExecute(x.view.modified, x.store.contents, script).1
    decreases |script|
  {
    if script != [] {
      PerformRefines(x, script[0]);
      ExecuteRefines(Perform(x, script[0]).0, script[1..]);
    }
  }

  lemma {:induction false} PlainExecuteAppend(pending: map<StorageKey, Word>, c: Contents, s: seq<Access>, a: Access)
    ensures PlainExecute(pending, c, s + [a]).0
         == PlainPerform(PlainExecute(pending, c, s).0, c, a).0
    decreases |s|
  {
    if s == [] {
      assert [] + [a] == [a];
    } else {
      assert (s + [a])[1..] == s[1..] + [a];
      PlainExecuteAppend(PlainPerform(pending, c, s[0]).0, c, s[1..], a);
    }
  }

  /** The buffer holds exactly the last write to each slot. */
  lemma {:induction false} BufferIsLastWrites(pending: map<StorageKey, Word>, c: Contents, script: seq<Access>,
                                              key: StorageKey)
    ensures var final := PlainExecute(pending, c, script).0;
            match LastWrite(script, key)
            case Some(v) => key in final && final[key] == v
            case None => (key in final <==> key in pending) && (key in pending ==> final[key] == pending[key])
    decreases |script|
  {
    if script != [] {
      var front, last := script[..|script| - 1], script[|script| - 1];
      assert script == front + [last];
      PlainExecuteAppend(pending, c, front, last);
      BufferIsLastWrites(pending, c, front, key);
    }
  }

  /* ---------- flushing ---------- */

  /** Writes the buffered slots to the storage in the order given. */
  function Flush(s: Store, modified: map<StorageKey, Word>, order: seq<StorageKey>): Store
    requires forall k :: k in order ==> k in modified
    decreases |order|
  {
    if order == [] then s
    else
      assert order[0] in order;
      Flush(WithValue(s, order[0], modified[order[0]]), modified, order[1..])
  }

  function Flushed(s: Store, modified: map<StorageKey, Word>): Store {
    s.(contents := s.contents.(raw := s.contents.raw.(state := s.contents.raw.state + modified)))
  }

  function Restrict(m: map<StorageKey, Word>, keys: seq<StorageKey>): map<StorageKey, Word> {
    map k | k in m && k in keys :: m[k]
  }

  lemma RestrictCons(state: map<StorageKey, Word>, modified: map<StorageKey, Word>, order: seq<StorageKey>)
    requires order != [] && order[0] in modified
    ensures state[order[0] := modified[order[0]]] + Restrict(modified, order[1..]) == state + Restrict(modified, order)
  {
    assert forall k :: k in order <==> k == order[0] || k in order[1..];
  }

  lemma {:induction false} FlushWritesRestriction(s: Store, modified: map<StorageKey, Word>, order: seq<StorageKey>)
    requires forall k :: k in order ==> k in modified
    ensures Flush(s, modified, order) == Flushed(s, Restrict(modified, order))
    decreases |order|
  {
    if order == [] {
      assert Restrict(modified, order) == map[];
      assert s.contents.raw.state + map[] == s.contents.raw.state;
    } else {
      var k := order[0];
      assert k in order;
      var s' := WithValue(s, k, modified[k]);
      FlushWritesRestriction(s', modified, order[1..]);
      RestrictCons(s.contents.raw.state, modified, order);
    }
  }

  /** A hash map is iterated in no particular order, and the order does not matter. */
  lemma FlushInAnyOrder(s: Store, modified: map<StorageKey, Word>, order: seq<StorageKey>)
    requires forall k :: k in order <==> k in modified
    ensures Flush(s, modified, order) == Flushed(s, modified)
  {
    FlushWritesRestriction(s, modified, order);
    assert Restrict(modified, order) == modified;
  }

  /** Flushing refines the view: after any script and in any flush order, the storage reads what the
      view reads at every slot, except exactly the slots last written zero over a non-zero remote
      value. */
  lemma {:induction false} FlushRefinesView(store: Store, script: seq<Access>, order: seq<StorageKey>, key: StorageKey)
    requires Coherent(store)
    requires var x := Execute(Open(store), script).0;
             forall k :: k in order <==> k in x.view.modified
    ensures var x := Execute(Open(store), script).0;
            var flushed := Flush(x.store, x.view.modified, order);
            && Coherent(flushed)
            && (ReadValue(flushed, key, true).result == Ok(GetValueNoLog(x, key).1)
                <==> !(LastWrite(script, key) == Some(0) && Shadowed(store.contents, key)))
  {
    var x := Execute(Open(store), script).0;
    ExecuteRefines(Open(store), script);
    FlushInAnyOrder(x.store, x.view.modified, order);
    var flushed := Flush(x.store, x.view.modified, order);
    BufferIsLastWrites(map[], store.contents, script, key);
    PerformRefines(x, ReadSlot(key));
    StepRefines(flushed, Get(key, true));
    assert StepStore(flushed, Get(key, true)).1 == Value(Overlay(flushed.contents, key));
  }

  /* ---------- the mutable object ---------- */

  class StorageView {
    const storage: ForkStorage
    var modifiedStorageKeys: map<StorageKey, Word>
    var readStorageKeys: map<StorageKey, Word>
    var initialWritesCache: map<StorageKey, bool>

    ghost function State(): Session
      reads this, storage
    {
      Session(View(modifiedStorageKeys, readStorageKeys, initialWritesCache), storage.State())
    }

    constructor (storage: ForkStorage)
      ensures this.storage == storage
      ensures State() == Open(storage.State())
    {
      this.storage := storage;
      modifiedStorageKeys := map[];
      readStorageKeys := map[];
      initialWritesCache := map[];
    }

    method Lookup(key: StorageKey) returns (value: Word)
      requires Truthful(State())
      modifies this`readStorageKeys, storage`valueReadCache
      ensures (State(), value) == GetValueNoLog(old(State()), key)
      ensures Truthful(State())
      ensures value == Peek(modifiedStorageKeys, storage.State().contents, key)
    {
      if key in modifiedStorageKeys {
        return modifiedStorageKeys[key];
      }
      if key in readStorageKeys {
        return readStorageKeys[key];
      }
      var r := storage.ReadValueInternal(key, true);
      value := r.value;
      readStorageKeys := readStorageKeys[key := value];
    }

    method SetValue(key: StorageKey, value: Word) returns (original: Word)
      requires Truthful(State())
      modifies this`readStorageKeys, this`modifiedStorageKeys, storage`valueReadCache
      ensures (State(), AWord(original)) == Perform(old(State()), WriteSlot(key, value))
      ensures Truthful(State())
    {
      original := Lookup(key);
      modifiedStorageKeys := modifiedStorageKeys[key := value];
    }

    method IsInitialWrite(key: StorageKey) returns (flag: bool)
      requires Truthful(State())
      modifies this`initialWritesCache, storage`valueReadCache
      ensures (State(), flag) == IsFirstWrite(old(State()), key)
      ensures Truthful(State())
      ensures flag == FirstWrite(storage.State().contents, key)
    {
      if key in initialWritesCache {
        return initialWritesCache[key];
      }
      var r := storage.IsWriteInitialInternal(key, true);
      flag := r.value;
      initialWritesCache := initialWritesCache[key := flag];
    }

    /** One storage access of the VM. */
    method Serve(a: Access) returns (answer: Answer)
      requires Truthful(State())
      modifies this, storage
      ensures (State(), answer) == Perform(old(State()), a)
      ensures Truthful(State())
    {
      match a
      case ReadSlot(key) =>
        var value := Lookup(key);
        answer := AWord(value);
      case WriteSlot(key, value) =>
        var original := SetValue(key, value);
        answer := AWord(original);
      case AskInitial(key) =>
        var flag := IsInitialWrite(key);
        answer := AFlag(flag);
      case LoadCode(hash) =>
        var r := storage.LoadFactoryDepInternal(hash, true);
        answer := ACode(r.value);
    }

    /** The accesses of one VM execution, in order. */
    method ServeAll(script: seq<Access>) returns (answers: seq<Answer>)
      requires Truthful(State())
      modifies this, storage
      ensures (State(), answers) == Execute(old(State()), script)
      ensures Truthful(State())
    {
      answers := [];
      for i := 0 to |script|
        invariant Truthful(State())
        invariant Execute(State(), script[i..]).0 == Execute(old(State()), script).0
        invariant answers + Execute(State(), script[i..]).1 == Execute(old(State()), script).1
      {
        assert script[i..][1..] == script[i + 1..];
        var answer := Serve(script[i]);
        answers := answers + [answer];
      }
      assert script[|script|..] == [];
      assert answers + [] == answers;
    }
  }
}
