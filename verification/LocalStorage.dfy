/** The base storage layer: two dictionaries held in memory. */
module LocalStorage {
  import opened Base

  datatype InMemoryStorage = InMemoryStorage(state: map<StorageKey, Word>, factoryDeps: map<Word, Bytes>)
  {
    function ReadValue(key: StorageKey): Word {
      if key in state then state[key] else 0
    }

    predicate IsWriteInitial(key: StorageKey) {
      key !in state
    }

    function LoadFactoryDep(hash: Word): Option<Bytes> {
      if hash in factoryDeps then Some(factoryDeps[hash]) else None
    }

    function SetValue(key: StorageKey, value: Word): InMemoryStorage {
      this.(state := state[key := value])
    }

    function StoreFactoryDep(hash: Word, code: Bytes): InMemoryStorage {
      this.(factoryDeps := factoryDeps[hash := code])
    }
  }
}
