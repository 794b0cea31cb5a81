/** What the node can still answer when the remote is out of reach: exactly what was fetched before. */
module OfflineReads {
  import opened Base
  import opened LocalStorage
  import opened ForkedStorage
  import opened Views
  import opened Bytecode
  import opened NodeModel
  import opened Coupling
  import opened CacheRuns
  import opened HistoricalReads
  import opened Ledgers

  /* ---------- what a VM run fetches ---------- */

  function FetchedBySlot(c: Contents, key: StorageKey): Fetched {
    if IsSilent(c, key) then Fetched({key}, {}) else NOTHING
  }

  function FetchedByCode(c: Contents, hash: Word): Fetched {
    if IsSilentOnCode(c, hash) then Fetched({}, {hash}) else NOTHING
  }

  /** Whatever an access touches, by reading, writing or asking for a first write, is looked up below. */
  function FetchedByAccess(c: Contents, a: Access): Fetched {
    if a.LoadCode? then FetchedByCode(c, a.hash) else FetchedBySlot(c, a.key)
  }

  function FetchedByScript(c: Contents, script: seq<Access>): Fetched {
    if script == [] then NOTHING else Both(FetchedByAccess(c, script[0]), FetchedByScript(c, script[1..]))
  }

  ghost predicate AreLookedUp(s: Store, keys: set<StorageKey>) {
    forall k :: k in keys && IsSilent(s.contents, k) ==> k in s.readCache
  }

  /** What a view remembers was looked up below before. */
  ghost predicate LookedUp(x: Session) {
    && AreLookedUp(x.store, x.view.modified.Keys)
    && AreLookedUp(x.store, x.view.seen.Keys)
    && AreLookedUp(x.store, x.view.initialWrites.Keys)
  }

  lemma LookupFetches(x: Session, key: StorageKey)
    requires Truthful(x) && LookedUp(x)
    ensures var x' := GetValueNoLog(x, key).0;
            && LookedUp(x') && (IsSilent(x'.store.contents, key) ==> key in x'.store.readCache)
            && FetchedIn(x'.store) == Both(FetchedIn(x.store), FetchedBySlot(x.store.contents, key))
  {
    LookupRefines(x, key);
    StepFailsExactly(x.store, Get(key, true));
  }

  lemma PerformFetches(x: Session, a: Access)
    requires Truthful(x) && LookedUp(x)
    ensures var x' := Perform(x, a).0;
            && LookedUp(x')
            && FetchedIn(x'.store) == Both(FetchedIn(x.store), FetchedByAccess(x.store.contents, a))
  {
    match a
    case ReadSlot(key) => LookupFetches(x, key);
    case WriteSlot(key, _) => LookupFetches(x, key);
    case AskInitial(key) => StepFailsExactly(x.store, Initial(key, true));
    case LoadCode(hash) => StepFailsExactly(x.store, GetCode(hash, true));
  }

  lemma BothAssociates(f: Fetched, g: Fetched, h: Fetched)
    ensures Both(Both(f, g), h) == Both(f, Both(g, h)) && Both(f, NOTHING) == f
  {
  }

  lemma {:induction false} ExecuteFetches(x: Session, script: seq<Access>)
    requires Truthful(x) && LookedUp(x)
    ensures FetchedIn(Execute(x, script).0.store)
         == Both(FetchedIn(x.store), FetchedByScript(x.store.contents, script))
    decreases |script|
  {
    if script == [] {
      BothAssociates(FetchedIn(x.store), NOTHING, NOTHING);
    } else {
      PerformFetches(x, script[0]);
      PerformRefines(x, script[0]);
      ExecuteFetches(Perform(x, script[0]).0, script[1..]);
      BothAssociates(FetchedIn(x.store), FetchedByAccess(x.store.contents, script[0]),
                     FetchedByScript(x.store.contents, script[1..]));
    }
  }

  lemma RunFetches(store: Store, script: seq<Access>)
    requires Coherent(store)
    ensures FetchedIn(RunInView(store, script).store)
         == Both(FetchedIn(store), FetchedByScript(store.contents, ENV_READS + script))
  {
    ExecuteFetches(Open(store), ENV_READS + script);
  }

  /* ---------- what a call fetches ---------- */

  /** The read is answered from the present, not from the archive and not from the remote's past. */
  predicate ReadsPresent(n: Node, key: StorageKey, id: Option<BlockId>) {
    var number := ResolveBlock(n, id);
    && number.Ok?
    && (number.value == n.miniblock
        || (number.value in n.blockHashes
            && var state := LookupEntry(n.archive, n.blockHashes[number.value]);
               !(state.Some? && key in state.value && state.value[key] != 0)))
  }

  function FetchedByMining(n: Node, first: bool, interval: U64, scripts: seq<seq<Access>>): Fetched
    decreases |scripts|
  {
    if scripts == [] then NOTHING
    else
      Both(FetchedByScript(n.store.contents, ENV_READS + scripts[0]),
           FetchedByMining(MineOne(n, first, interval, scripts[0]), false, interval, scripts[1..]))
  }

  function FetchedByWallets(n: Node, wallets: seq<Address>): Fetched
    decreases |wallets|
  {
    if wallets == [] then NOTHING
    else
      Both(FetchedBySlot(n.store.contents, BalanceKey(wallets[0])),
           FetchedByWallets(Enrich(n, wallets[0]), wallets[1..]))
  }

  function FetchedByCall(n: Node, op: Op): Fetched {
    var c := n.store.contents;
    match op
    case SendTx(tx, run) => if Acceptable(n, tx) then FetchedByScript(c, ENV_READS + run.script) else NOTHING
    case MineBlocks(interval, scripts) => FetchedByMining(n, true, interval, scripts)
    case Sandbox(script) => FetchedByScript(c, ENV_READS + script)
    case SetRich(address) => FetchedBySlot(c, BalanceKey(address))
    case ReadStorage(key, id, true) => if ReadsPresent(n, key, id) then FetchedBySlot(c, key) else NOTHING
    case ReadCode(address, true) =>
      Both(FetchedBySlot(c, CodeKey(address)), FetchedByCode(c, Overlay(c, CodeKey(address))))
    case _ => NOTHING
  }

  lemma EnrichFetches(n: Node, address: Address)
    requires Coherent(n.store)
    ensures Coherent(Enrich(n, address).store)
    ensures FetchedIn(Enrich(n, address).store)
         == Both(FetchedIn(n.store), FetchedBySlot(n.store.contents, BalanceKey(address)))
  {
    PerformRefines(Open(n.store), WriteSlot(BalanceKey(address), RICH_BALANCE));
  }

  lemma {:induction false} WalletsFetch(n: Node, wallets: seq<Address>)
    requires Coherent(n.store)
    ensures FetchedIn(EnrichAll(n, wallets).store) == Both(FetchedIn(n.store), FetchedByWallets(n, wallets))
    decreases |wallets|
  {
    if wallets == [] {
      BothAssociates(FetchedIn(n.store), NOTHING, NOTHING);
    } else {
      EnrichFetches(n, wallets[0]);
      WalletsFetch(Enrich(n, wallets[0]), wallets[1..]);
      BothAssociates(FetchedIn(n.store), FetchedBySlot(n.store.contents, BalanceKey(wallets[0])),
                     FetchedByWallets(Enrich(n, wallets[0]), wallets[1..]));
    }
  }

  lemma MineOneFetches(n: Node, first: bool, interval: U64, script: seq<Access>)
    requires Coherent(n.store)
    ensures FetchedIn(MineOne(n, first, interval, script).store)
         == Both(FetchedIn(n.store), FetchedByScript(n.store.contents, ENV_READS + script))
  {
    RunFetches(n.store, script);
  }

  lemma {:induction false} MineFetches(n: Node, first: bool, interval: U64, scripts: seq<seq<Access>>)
    requires Coherent(n.store)
    ensures FetchedIn(Mine(n, first, interval, scripts).store)
         == Both(FetchedIn(n.store), FetchedByMining(n, first, interval, scripts))
    decreases |scripts|
  {
    if scripts == [] {
      BothAssociates(FetchedIn(n.store), NOTHING, NOTHING);
    } else {
      var n' := MineOne(n, first, interval, scripts[0]);
      MineOneFetches(n, first, interval, scripts[0]);
      MineOneCoherent(n, first, interval, scripts[0]);
      MineFetches(n', false, interval, scripts[1..]);
      BothAssociates(FetchedIn(n.store), FetchedByScript(n.store.contents, ENV_READS + scripts[0]),
                     FetchedByMining(n', false, interval, scripts[1..]));
    }
  }

  lemma SendTxFetches(sys: Sys, tx: Tx, run: VmRun)
    requires Coherent(sys.node.store) && SendTxStep(sys, tx, run).Done?
    ensures FetchedIn(SendTxStep(sys, tx, run).sys.node.store)
         == Both(FetchedIn(sys.node.store), FetchedByCall(sys.node, SendTx(tx, run)))
  {
    RunFetches(sys.node.store, run.script);
    BothAssociates(FetchedIn(sys.node.store), NOTHING, NOTHING);
    if Commits(sys.node, SendTx(tx, run)) {
      CommitStore(sys.node, tx, run);
    }
  }

  lemma ReadFetches(n: Node, key: StorageKey, id: Option<BlockId>, online: bool)
    requires Coherent(n.store)
    ensures FetchedIn(GetStorage(n, key, id, online).0.store)
         == Both(FetchedIn(n.store), FetchedByCall(n, ReadStorage(key, id, online)))
  {
    StepFailsExactly(n.store, Get(key, online));
    BothAssociates(FetchedIn(n.store), NOTHING, NOTHING);
  }

  lemma ReadCodeFetches(n: Node, address: Address, online: bool)
    requires Coherent(n.store)
    ensures FetchedIn(FetchCode(n.store, address, online).store)
         == Both(FetchedIn(n.store), FetchedByCall(n, ReadCode(address, online)))
  {
    var s := n.store;
    var s1 := ReadValue(s, CodeKey(address), online).store;
    StepRefines(s, Get(CodeKey(address), online));
    StepFailsExactly(s, Get(CodeKey(address), online));
    StepFailsExactly(s1, GetCode(Overlay(s.contents, CodeKey(address)), online));
    BothAssociates(FetchedIn(s), NOTHING, NOTHING);
    BothAssociates(FetchedIn(s), FetchedBySlot(s.contents, CodeKey(address)),
                   FetchedByCode(s.contents, Overlay(s.contents, CodeKey(address))));
  }

  lemma LocalFetches(n: Node, op: Op)
    requires Local(op) && Coherent(n.store)
    ensures FetchedIn(LocalStep(n, op).0.store) == Both(FetchedIn(n.store), FetchedByCall(n, op))
  {
    BothAssociates(FetchedIn(n.store), NOTHING, NOTHING);
    match op
    case Sandbox(script) => RunFetches(n.store, script);
    case SetRich(address) => EnrichFetches(n, address);
    case ReadStorage(key, id, online) => ReadFetches(n, key, id, online);
    case ReadCode(address, online) => ReadCodeFetches(n, address, online);
    case _ =>
  }

  lemma StepFetches(sys: Sys, op: Op)
    requires Coherent(sys.node.store) && Step(sys, op).Done? && IsOrdinary(op)
    ensures FetchedIn(Step(sys, op).sys.node.store) == Both(FetchedIn(sys.node.store), FetchedByCall(sys.node, op))
  {
    match op
    case SendTx(tx, run) => SendTxFetches(sys, tx, run);
    case MineBlocks(interval, scripts) =>
      MineFetches(sys.node, true, interval, scripts);
      BothAssociates(FetchedIn(sys.node.store), NOTHING, NOTHING);
    case _ => LocalFetches(sys.node, op);
  }

  /* ---------- over whole runs ---------- */

  ghost predicate Holds(n: Node, f: Fetched) {
    FetchedIn(n.store) == f
  }

  function AfterReset(sys: Sys, op: Op): Fetched {
    if op.Reset? then FetchedByWallets(NewNode(op.fork, op.genesis, sys.node.gasPrice), op.wallets) else NOTHING
  }

  /** All that was fetched by a list of calls and not forgotten by a revert or a reset. */
  function FetchedByRun(sys: Sys, ops: seq<Op>, l: Ledger<Fetched>): Ledger<Fetched>
    decreases |ops|
  {
    if ops == [] || Step(sys, ops[0]).Panic? then l
    else
      var next := Both(l.now, FetchedByCall(sys.node, ops[0]));
      FetchedByRun(Step(sys, ops[0]).sys, ops[1..], Turn(sys, ops[0], l, next, AfterReset(sys, ops[0])))
  }

  lemma ResetHolds(sys: Sys, op: Op)
    requires op.Reset?
    ensures Holds(Step(sys, op).sys.node, AfterReset(sys, op))
  {
    WalletsFetch(NewNode(op.fork, op.genesis, sys.node.gasPrice), op.wallets);
    BothAssociates(NOTHING, AfterReset(sys, op), NOTHING);
  }

  lemma OrdinaryHolds(sys: Sys, op: Op, f: Fetched)
    requires Coherent(sys.node.store) && Holds(sys.node, f) && Step(sys, op).Done? && IsOrdinary(op)
    ensures Holds(Step(sys, op).sys.node, Both(f, FetchedByCall(sys.node, op)))
  {
    StepFetches(sys, op);
  }

  lemma CallHolds(sys: Sys, op: Op, l: Ledger<Fetched>)
    requires CoherentSys(sys) && Kept((n, f) => Holds(n, f), sys, 0, l) && Step(sys, op).Done?
    ensures Kept((n, f) => Holds(n, f), Step(sys, op).sys, 0,
                 Turn(sys, op, l, Both(l.now, FetchedByCall(sys.node, op)), AfterReset(sys, op)))
  {
    if IsOrdinary(op) {
      OrdinaryHolds(sys, op, l.now);
    } else if op.Reset? {
      ResetHolds(sys, op);
    }
    TurnKeeps((n, f) => Holds(n, f), sys, op, 0, l, Both(l.now, FetchedByCall(sys.node, op)), AfterReset(sys, op));
  }

  /** The caches of the node, and of every snapshot, hold exactly what the calls fetched: every slot and
      bytecode that a transaction, a mined block, a sandboxed run or a query asked the remote for. A
      revert brings back what was held at the snapshot, a reset forgets everything. */
  lemma {:induction false} CachesHoldWhatWasFetched(sys: Sys, ops: seq<Op>, l: Ledger<Fetched>)
    requires CoherentSys(sys) && Kept((n, f) => Holds(n, f), sys, 0, l) && Run(sys, ops).Some?
    ensures CoherentSys(Run(sys, ops).value)
    ensures Kept((n, f) => Holds(n, f), Run(sys, ops).value, 0, FetchedByRun(sys, ops, l))
    decreases |ops|
  {
    if ops != [] {
      var op := ops[0];
      CallHolds(sys, op, l);
      StepKeepsCoherentSys(sys, op);
      CachesHoldWhatWasFetched(Step(sys, op).sys, ops[1..],
                               Turn(sys, op, l, Both(l.now, FetchedByCall(sys.node, op)), AfterReset(sys, op)));
    }
  }

  /* ---------- what is answered without the remote ---------- */

  lemma OfflineReply(sys: Sys, key: StorageKey, id: Option<BlockId>)
    requires Coherent(sys.node.store) && AsksLatest(id)
    ensures var c := sys.node.store.contents;
            Step(sys, ReadStorage(key, id, false)).reply
            == if IsSilent(c, key) && key !in FetchedIn(sys.node.store).slots then Refused
               else Reply.Number(Overlay(c, key))
  {
    ReadAtTag(sys.node, key, id, false);
    StepFailsExactly(sys.node.store, Get(key, false));
  }

  lemma OfflineCodeReply(sys: Sys, address: Address)
    requires Coherent(sys.node.store)
    ensures var c := sys.node.store.contents;
            var f := FetchedIn(sys.node.store);
            var hash := Overlay(c, CodeKey(address));
            Step(sys, ReadCode(address, false)).reply
            == if (IsSilent(c, CodeKey(address)) && CodeKey(address) !in f.slots)
                  || (IsSilentOnCode(c, hash) && hash !in f.codes) then Refused
               else CodeRead(CodeAt(c, address))
  {
    var s := sys.node.store;
    StepRefines(s, Get(CodeKey(address), false));
    StepFailsExactly(s, Get(CodeKey(address), false));
    var s1 := ReadValue(s, CodeKey(address), false).store;
    StepFailsExactly(s1, GetCode(Overlay(s.contents, CodeKey(address)), false));
  }

  /** Exactly which reads fail when the remote is out of reach. After any calls on a fresh node a slot is
      refused if and only if the local layer is silent on it and no call since, reverts aside, asked the
      remote for it; otherwise it is answered as if the remote were there. The same for code. */
  lemma OfflineReadsFailExactly(fork: Option<Fork>, genesis: InMemoryStorage, gasPrice: nat, ops: seq<Op>, last: Sys,
                                key: StorageKey, id: Option<BlockId>, address: Address)
    requires Run(Start(fork, genesis, gasPrice), ops) == Some(last) && AsksLatest(id)
    ensures var c := last.node.store.contents;
            var f := FetchedByRun(Start(fork, genesis, gasPrice), ops, Ledger(NOTHING, [])).now;
            var hash := Overlay(c, CodeKey(address));
            && Step(last, ReadStorage(key, id, false)).reply
               == (if IsSilent(c, key) && key !in f.slots then Refused else Reply.Number(Overlay(c, key)))
            && Step(last, ReadCode(address, false)).reply
               == if (IsSilent(c, CodeKey(address)) && CodeKey(address) !in f.slots)
                     || (IsSilentOnCode(c, hash) && hash !in f.codes) then Refused
                  else CodeRead(CodeAt(c, address))
  {
    CachesHoldWhatWasFetched(Start(fork, genesis, gasPrice), ops, Ledger(NOTHING, []));
    OfflineReply(last, key, id);
    OfflineCodeReply(last, address);
  }
}
