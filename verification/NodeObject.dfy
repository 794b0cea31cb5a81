/** The node as an object whose calls update its fields in place; each call is proved to be the
    corresponding step of the state machine. */
module NodeObject {
  import opened Base
  import opened LocalStorage
  import opened ForkedStorage
  import opened Views
  import opened Bytecode
  import opened Filters
  import opened NodeModel
  import opened Runs
  import opened CacheRuns
  import opened HistoricalReads
  import opened Receipts
  import opened LogQueries

  method MatchingLogs(q: LogQuery, logs: seq<Log>, latest: nat) returns (matching: seq<Log>)
    ensures matching == Matching(q, logs, latest)
    ensures forall l :: l in matching <==> l in logs && Matches(q, l, latest)
  {
    matching := [];
    for i := 0 to |logs|
      invariant matching == Matching(q, logs[..i], latest)
    {
      var matched := MatchLog(q, logs[i], latest);
      if matched {
        matching := matching + [logs[i]];
      }
      assert logs[..i + 1][..i] == logs[..i];
    }
    assert logs[..|logs|] == logs;
    forall l
      ensures l in matching <==> l in logs && Matches(q, l, latest)
    {
      MatchingMembers(q, logs, latest, l);
    }
  }

  lemma TwoReads(x: Session, first: StorageKey, second: StorageKey)
    ensures Execute(x, [ReadSlot(first), ReadSlot(second)]).0
         == GetValueNoLog(GetValueNoLog(x, first).0, second).0
  {
    var script := [ReadSlot(first), ReadSlot(second)];
    var x1 := GetValueNoLog(x, first).0;
    assert script[1..] == [ReadSlot(second)] && [ReadSlot(second)][1..] == [];
    assert Execute(x, script).0 == Execute(x1, [ReadSlot(second)]).0;
    assert Execute(x1, [ReadSlot(second)]).0 == Execute(Perform(x1, ReadSlot(second)).0, []).0;
  }

  lemma MineNext(n: Node, first: bool, interval: U64, scripts: seq<seq<Access>>, i: nat)
    requires i < |scripts|
    ensures Mine(n, first, interval, scripts[i..])
         == Mine(MineOne(n, first, interval, scripts[i]), false, interval, scripts[i + 1..])
  {
    assert scripts[i..][1..] == scripts[i + 1..];
  }

  /** One turn of a loop that copies a map entry by entry. */
  lemma OneMore<K, V>(target: map<K, V>, source: map<K, V>, todo: set<K>, k: K)
    requires k in todo && todo <= source.Keys
    ensures (target + (source - todo))[k := source[k]] == target + (source - (todo - {k}))
  {
  }

  /** Executing two scripts one after the other is executing their concatenation. */
  lemma {:induction false} ExecuteAppend(x: Session, first: seq<Access>, second: seq<Access>)
    ensures Execute(Execute(x, first).0, second).0 == Execute(x, first + second).0
    decreases |first|
  {
    if first == [] {
      assert [] + second == second;
    } else {
      assert (first + second)[1..] == first[1..] + second;
      ExecuteAppend(Perform(x, first[0]).0, first[1..], second);
    }
  }

  class InMemoryNode {
    var currentTimestamp: U64
    var currentBatch: U32
    var currentMiniblock: U64
    var currentMiniblockHash: Hash
    var l2GasPrice: nat
    var txResults: map<Hash, TxResult>
    var blocks: map<Hash, Block>
    var blockHashes: map<nat, Hash>
    var filters: EthFilters
    var impersonatedAccounts: set<Address>
    var richAccounts: set<Address>
    var previousStates: seq<Entry>
    var storage: ForkStorage
    var snapshots: seq<Snapshot>

    ghost function Now(): Node
      reads this, storage, filters
    {
      Node(currentTimestamp, currentBatch, currentMiniblock, currentMiniblockHash, l2GasPrice, txResults, blocks,
           blockHashes, filters.State(), impersonatedAccounts, richAccounts, previousStates, storage.State())
    }

    ghost function State(): Sys
      reads this, storage, filters
    {
      Sys(Now(), snapshots)
    }

    /** The caches, live and in snapshots, agree with the installed fork. */
    ghost predicate Valid()
      reads this, storage, filters
    {
      CoherentSys(State())
    }

    constructor (fork: Option<Fork>, genesis: InMemoryStorage, gasPrice: nat)
      ensures State() == Start(fork, genesis, gasPrice)
      ensures Valid() && fresh(storage) && fresh(filters)
    {
      storage := new ForkStorage(fork, genesis);
      filters := new EthFilters();
      l2GasPrice := gasPrice;
      txResults := map[];
      impersonatedAccounts := {};
      richAccounts := {};
      previousStates := [];
      snapshots := [];
      if fork.Some? {
        var f := fork.value;
        currentTimestamp := f.timestamp;
        currentBatch := f.batch;
        currentMiniblock := f.miniblock;
        currentMiniblockHash := f.miniblockHash;
        blocks := map[f.block.hash := f.block];
        blockHashes := map[f.block.number := f.block.hash];
      } else {
        var hash := ComputeHash(0, ZERO_HASH);
        currentTimestamp := NON_FORK_FIRST_BLOCK_TIMESTAMP;
        currentBatch := 0;
        currentMiniblock := 0;
        currentMiniblockHash := hash;
        blocks := map[hash := CreateEmptyBlock(0, NON_FORK_FIRST_BLOCK_TIMESTAMP, 0, None)];
        blockHashes := map[0 := hash];
      }
    }

    /* ---------- batches ---------- */

    /** Reads the last batch and L2 block through the view and prepares the next context. */
    method CreateL1BatchEnv(view: StorageView) returns (env: BatchEnv, ctx: BlockContext)
      requires view.storage == storage && Truthful(view.State())
      requires BATCH_INFO !in view.modifiedStorageKeys && L2_INFO !in view.modifiedStorageKeys
      modifies view, storage
      ensures view.State() == Execute(old(view.State()), ENV_READS).0 && Truthful(view.State())
      ensures ctx == NextContext(old(Now())) && env == EnvOf(ctx)
      ensures storage.State().contents == old(storage.State().contents)
    {
      ExecuteRefines(view.State(), ENV_READS);
      var batchWord := view.Lookup(BATCH_INFO);
      var l2Word := view.Lookup(L2_INFO);
      TwoReads(old(view.State()), BATCH_INFO, L2_INFO);
      var lastBatch := UnpackInfo(batchWord);
      var lastL2 := UnpackInfo(l2Word);
      var batch := if lastBatch.Some? then lastBatch.value.number else currentBatch;
      var batchTime := if lastBatch.Some? then lastBatch.value.timestamp else currentTimestamp;
      var miniblock := if lastL2.Some? then lastL2.value.number else currentMiniblock % TWO_32;
      var l2Time := if lastL2.Some? then lastL2.value.timestamp else currentTimestamp;
      var latest := Max(Max(batchTime, l2Time), currentTimestamp);
      ctx := BlockContext(SatAdd(batch, 1, U32_MAX), SatAdd(miniblock, 1, U64_MAX), SatAdd(latest, 1, U64_MAX));
      env := BatchEnv(ctx.batch, ctx.timestamp, ctx.miniblock % TWO_32);
    }

    /** A VM run in a fresh view over the node's storage. */
    method RunVm(script: seq<Access>) returns (view: StorageView, env: BatchEnv, ctx: BlockContext)
      requires Coherent(storage.State())
      modifies storage
      ensures fresh(view) && view.storage == storage
      ensures view.State() == RunInView(old(storage.State()), script) && Truthful(view.State())
      ensures storage.State().contents == old(storage.State().contents)
      ensures ctx == NextContext(old(Now())) && env == EnvOf(ctx)
    {
      ghost var start := storage.State();
      ExecuteRefines(Open(start), ENV_READS + script);
      view := new StorageView(storage);
      env, ctx := CreateL1BatchEnv(view);
      ExecuteAppend(Open(start), ENV_READS, script);
      var _ := view.ServeAll(script);
    }

    /** Writes the buffered slots of a view to storage, in whatever order the map is visited. */
    method FlushView(view: StorageView)
      requires view.storage == storage
      modifies storage`raw
      ensures storage.State() == Flushed(old(storage.State()), view.modifiedStorageKeys)
    {
      var modified := view.modifiedStorageKeys;
      var todo := modified.Keys;
      ghost var slots := storage.raw.state;
      while todo != {}
        invariant todo <= modified.Keys
        invariant storage.raw.factoryDeps == old(storage.raw.factoryDeps)
        invariant storage.raw.state == slots + (modified - todo)
        decreases |todo|
      {
        var k :| k in todo;
        storage.SetValue(k, modified[k]);
        OneMore(slots, modified, todo, k);
        todo := todo - {k};
      }
      assert modified - {} == modified;
    }

    method StoreBytecodes(bytecodes: map<Word, Bytes>)
      modifies storage`raw
      ensures storage.State() == WithBytecodes(old(storage.State()), bytecodes)
    {
      var todo := bytecodes.Keys;
      ghost var deps := storage.raw.factoryDeps;
      while todo != {}
        invariant todo <= bytecodes.Keys
        invariant storage.raw.state == old(storage.raw.state)
        invariant storage.raw.factoryDeps == deps + (bytecodes - todo)
        decreases |todo|
      {
        var h :| h in todo;
        storage.StoreFactoryDep(h, bytecodes[h]);
        OneMore(deps, bytecodes, todo, h);
        todo := todo - {h};
      }
      assert bytecodes - {} == bytecodes;
    }

    method AnnounceLogs(logs: seq<Log>, latest: nat)
      modifies filters
      ensures filters.State() == NotifyAll(old(filters.State()), LogEvents(logs, latest))
    {
      for i := 0 to |logs|
        invariant filters.State() == NotifyAll(old(filters.State()), LogEvents(logs[..i], latest))
      {
        NotifyAllAppend(old(filters.State()), LogEvents(logs[..i], latest), NewLog(logs[i], latest));
        assert LogEvents(logs[..i + 1], latest) == LogEvents(logs[..i], latest) + [NewLog(logs[i], latest)];
        filters.Broadcast(NewLog(logs[i], latest));
      }
      assert logs[..|logs|] == logs;
    }

    method ArchiveCurrentState()
      modifies this`previousStates
      ensures Now() == ArchiveState(old(Now()))
    {
      var kept := previousStates;
      if |kept| > MAX_PREVIOUS_STATES {
        kept := kept[1..];
      }
      previousStates := InsertEntry(kept, Entry(currentMiniblockHash, storage.raw.state));
    }

    /** Archives, moves the counters and appends a block; false means that a check panicked. */
    method Append(block: Block) returns (ok: bool)
      modifies this`previousStates, this`currentMiniblock, this`currentTimestamp,
               this`currentMiniblockHash, this`blockHashes, this`blocks, filters
      ensures ok <==> AppendBlock(old(Now()), block).Some?
      ensures ok ==> Now() == AppendBlock(old(Now()), block).value
    {
      ArchiveCurrentState();
      currentMiniblock := SatAdd(currentMiniblock, 1, U64_MAX);
      currentTimestamp := SatAdd(currentTimestamp, 1, U64_MAX);
      if block.batch != currentBatch {
        return false;
      }
      if block.number != currentMiniblock {
        return false;
      }
      if block.timestamp != currentTimestamp {
        return false;
      }
      Link(block);
      return true;
    }

    /** Makes a block the head of the chain and announces it. */
    method Link(block: Block)
      modifies this`currentMiniblockHash, this`blockHashes, this`blocks, filters
      ensures Now() == old(Now()).(headHash := block.hash,
                                   blockHashes := old(blockHashes)[block.number := block.hash],
                                   blocks := old(blocks)[block.hash := block],
                                   filters := Notify(old(filters.State()), NewBlock(block.hash)))
    {
      currentMiniblockHash := block.hash;
      blockHashes := blockHashes[block.number := block.hash];
      blocks := blocks[block.hash := block];
      filters.Broadcast(NewBlock(block.hash));
    }

    /* ---------- transactions ---------- */

    method ValidateTx(tx: Tx) returns (ok: bool)
      ensures ok == Acceptable(Now(), tx)
      ensures ok <==> && tx.gasLimit < 0x1_0000_0000_0000_0000 && tx.gasPerPubdata < 0x1_0000_0000_0000_0000
                      && l2GasPrice <= tx.maxFee && tx.maxPriorityFee <= tx.maxFee
    {
      if tx.gasLimit > U64_MAX || tx.gasPerPubdata > U64_MAX {
        return false;
      }
      if tx.maxFee < l2GasPrice {
        return false;
      }
      return tx.maxFee >= tx.maxPriorityFee;
    }

    /** Applies the effects of a VM run that did not halt, up to the point where blocks are appended. */
    method Apply(tx: Tx, run: VmRun, view: StorageView, block: Block, ghost before: Node)
      requires view.storage == storage && view.State() == RunInView(before.store, run.script)
      requires Now() == Attempted(before, tx, run)
      requires block == TxBlock(before, tx.hash, NextContext(before))
      modifies this, storage, filters
      ensures filters == old(filters) && storage == old(storage) && snapshots == old(snapshots)
      ensures Now() == Applied(before, tx, run)
    {
      FlushView(view);
      StoreBytecodes(run.bytecodes);
      var logs := MakeLogs(run.events, block, tx.hash);
      AnnounceLogs(logs, block.number);
      txResults := txResults[tx.hash := TxResult(block.batch, block.number, run.result.Success?, logs)];
      currentBatch := SatAdd(currentBatch, 1, U32_MAX);
    }

    /** The loop that appends a transaction's block and the trailing block. */
    method AppendBoth(block: Block, ctx: BlockContext) returns (ok: bool)
      modifies this, filters
      ensures filters == old(filters) && storage == old(storage) && snapshots == old(snapshots)
      ensures var first := AppendBlock(old(Now()), block);
              && (ok <==> first.Some? && AppendBlock(first.value, TrailingBlock(ctx, block)).Some?)
              && (ok ==> Now() == AppendBlock(first.value, TrailingBlock(ctx, block)).value)
    {
      ok := Append(block);
      if ok {
        var last := ctx.NewBlock();
        ok := Append(CreateEmptyBlock(last.miniblock, last.timestamp, last.batch, Some(block.hash)));
      }
    }

    /** Commits a run: its effects, its block and the trailing block. False means that a check panicked. */
    method CommitRun(tx: Tx, run: VmRun, view: StorageView, ctx: BlockContext, env: BatchEnv, ghost before: Node)
      returns (ok: bool)
      requires view.storage == storage && view.State() == RunInView(before.store, run.script)
      requires Now() == Attempted(before, tx, run)
      requires ctx == NextContext(before) && env == EnvOf(ctx)
      modifies this, storage, filters
      ensures filters == old(filters) && storage == old(storage) && snapshots == old(snapshots)
      ensures ok <==> CommitTx(before, tx, run).Some?
      ensures ok ==> Now() == CommitTx(before, tx, run).value
      ensures ok ==> tx.hash in txResults && Reports(txResults[tx.hash], run)
    {
      var parent := if ctx.miniblock - 1 in blockHashes then blockHashes[ctx.miniblock - 1] else ZERO_HASH;
      var block :=
        Block(ComputeHash(ctx.miniblock, tx.hash), parent, ctx.miniblock, env.timestamp, env.number, [tx.hash]);
      Apply(tx, run, view, block, before);
      ok := AppendBoth(block, ctx);
      if ok {
        CommittedReports(before, tx, run, Now());
      }
    }

    /** Runs a transaction and commits it to a new block, with a trailing block after it. */
    method RunL2Tx(tx: Tx, run: VmRun) returns (reply: Reply, panicked: bool)
      requires Valid()
      modifies this, storage, filters
      ensures filters == old(filters) && storage == old(storage)
      ensures panicked <==> Step(old(State()), SendTx(tx, run)).Panic?
      ensures !panicked ==> Valid() && Done(State(), reply) == Step(old(State()), SendTx(tx, run))
    {
      ghost var before := Now();
      ghost var start := State();
      var acceptable := ValidateTx(tx);
      if !acceptable {
        return Refused, false;
      }
      filters.Broadcast(NewPending(tx.hash));
      var view, env, ctx := RunVm(run.script);
      assert ctx == NextContext(before);
      assert Now() == Attempted(before, tx, run);
      if run.result.Halt? || run.result.Failure? {
        StepKeepsCoherentSys(start, SendTx(tx, run));
        return Refused, false;
      }
      var ok := CommitRun(tx, run, view, ctx, env, before);
      if !ok {
        return Refused, true;
      }
      StepKeepsCoherentSys(start, SendTx(tx, run));
      return Accepted, false;
    }

    /* ---------- mining ---------- */

    /** The newest block carries the node's own number, batch and time, and no transaction. */
    predicate HeadIsStamped()
      reads this
    {
      && currentMiniblock in blockHashes && blockHashes[currentMiniblock] in blocks
      && var b := blocks[blockHashes[currentMiniblock]];
         && b.number == currentMiniblock && b.batch == currentBatch && b.timestamp == currentTimestamp
         && b.transactions == []
    }

    method MineEmptyBlocks(interval: U64, scripts: seq<seq<Access>>)
      requires Coherent(storage.State())
      modifies this`blockHashes, this`blocks, this`currentBatch, this`currentMiniblock, this`currentTimestamp, storage
      ensures Now() == Mine(old(Now()), true, interval, scripts) && Coherent(storage.State())
      ensures scripts != [] ==> HeadIsStamped()
    {
      for i := 0 to |scripts|
        invariant i > 0 ==> HeadIsStamped()
        invariant Coherent(storage.State())
        invariant Mine(Now(), i == 0, interval, scripts[i..]) == Mine(old(Now()), true, interval, scripts)
      {
        MineNext(Now(), i == 0, interval, scripts, i);
        MineOneBlock(i == 0, interval, scripts[i]);
      }
      assert scripts[|scripts|..] == [];
    }

    method MineOneBlock(first: bool, interval: U64, script: seq<Access>)
      requires Coherent(storage.State())
      modifies this`blockHashes, this`blocks, this`currentBatch, this`currentMiniblock, this`currentTimestamp, storage
      ensures Now() == MineOne(old(Now()), first, interval, script) && Coherent(storage.State())
      ensures HeadIsStamped()
    {
      MineOneCoherent(Now(), first, interval, script);
      var view, _, ctx := RunVm(script);
      if !first {
        ctx := ctx.(timestamp := SatAdd(currentTimestamp, interval, U64_MAX));
      }
      FlushView(view);
      PutEmptyBlock(ctx);
    }

    /** Appends an empty block without touching the known head, the archive or the filters. */
    method PutEmptyBlock(ctx: BlockContext)
      modifies this`blockHashes, this`blocks, this`currentBatch, this`currentMiniblock, this`currentTimestamp
      ensures var block := CreateEmptyBlock(ctx.miniblock, ctx.timestamp, ctx.batch, None);
              Now() == old(Now()).(blockHashes := old(blockHashes)[block.number := block.hash],
                                   blocks := old(blocks)[block.hash := block],
                                   batch := ctx.batch, miniblock := ctx.miniblock, timestamp := ctx.timestamp)
      ensures HeadIsStamped()
    {
      var block := CreateEmptyBlock(ctx.miniblock, ctx.timestamp, ctx.batch, None);
      blockHashes := blockHashes[block.number := block.hash];
      blocks := blocks[block.hash := block];
      currentBatch := ctx.batch;
      currentMiniblock := ctx.miniblock;
      currentTimestamp := ctx.timestamp;
    }

    method MineBlocksCall(interval: U64, scripts: seq<seq<Access>>) returns (reply: Reply)
      requires Valid()
      modifies this, storage
      ensures Valid() && Done(State(), reply) == Step(old(State()), MineBlocks(interval, scripts))
    {
      ghost var start := State();
      if scripts == [] {
        return Refused;
      }
      MineEmptyBlocks(interval, scripts);
      StepKeepsCoherentSys(start, MineBlocks(interval, scripts));
      return Accepted;
    }

    /* ---------- time ---------- */

    method IncreaseTimeCall(delta: U64) returns (applied: U64)
      modifies this`currentTimestamp
      ensures Done(State(), Accepted) == Step(old(State()), IncreaseTime(delta)) && applied == delta
    {
      if delta == 0 {
        return delta;
      }
      currentTimestamp := SatAdd(currentTimestamp, SatMul(delta, 1000, U64_MAX), U64_MAX);
      return delta;
    }

    method SetNextBlockTimestampCall(time: U64) returns (reply: Reply)
      modifies this`currentTimestamp
      ensures Done(State(), reply) == Step(old(State()), SetNextBlockTimestamp(time))
    {
      if time <= currentTimestamp {
        return Refused;
      }
      currentTimestamp := time - 1;
      return Accepted;
    }

    /** Answers with the signed distance moved. */
    method SetTimeCall(time: U64) returns (moved: int)
      modifies this`currentTimestamp
      ensures Done(State(), Accepted) == Step(old(State()), SetTime(time))
      ensures old(currentTimestamp) + moved == currentTimestamp
    {
      moved := time - currentTimestamp;
      currentTimestamp := time;
    }

    /* ---------- snapshots ---------- */

    method SnapshotCall() returns (reply: Reply)
      requires Valid()
      modifies this`snapshots
      ensures Valid() && Done(State(), reply) == Step(old(State()), EvmSnapshot)
    {
      ghost var start := State();
      if |snapshots| >= MAX_SNAPSHOTS {
        return Refused;
      }
      var taken := Snapshot(currentTimestamp, currentBatch, currentMiniblock, currentMiniblockHash, l2GasPrice,
                            txResults, blocks, blockHashes, FilterSet(filters.idCounter, filters.filters),
                            impersonatedAccounts, richAccounts, previousStates,
                            storage.raw, storage.valueReadCache, storage.factoryDepCache);
      snapshots := snapshots + [taken];
      StepKeepsCoherentSys(start, EvmSnapshot);
      return Reply.Number(|snapshots|);
    }

    method SetCounters(timestamp: U64, batch: U32, miniblock: U64, headHash: Hash, gasPrice: nat)
      modifies this`currentTimestamp, this`currentBatch, this`currentMiniblock, this`currentMiniblockHash,
               this`l2GasPrice
      ensures currentTimestamp == timestamp && currentBatch == batch && currentMiniblock == miniblock
      ensures currentMiniblockHash == headHash && l2GasPrice == gasPrice
    {
      currentTimestamp := timestamp;
      currentBatch := batch;
      currentMiniblock := miniblock;
      currentMiniblockHash := headHash;
      l2GasPrice := gasPrice;
    }

    method SetRecords(results: map<Hash, TxResult>, byHash: map<Hash, Block>, byNumber: map<nat, Hash>,
                      impersonated: set<Address>, rich: set<Address>, archive: seq<Entry>)
      modifies this`txResults, this`blocks, this`blockHashes, this`impersonatedAccounts, this`richAccounts,
               this`previousStates
      ensures txResults == results && blocks == byHash && blockHashes == byNumber
      ensures impersonatedAccounts == impersonated && richAccounts == rich && previousStates == archive
    {
      txResults := results;
      blocks := byHash;
      blockHashes := byNumber;
      impersonatedAccounts := impersonated;
      richAccounts := rich;
      previousStates := archive;
    }

    /** Overwrites every snapshotted field; the fork stays. */
    method Restore(selected: Snapshot)
      modifies this, storage, filters
      ensures filters == old(filters) && storage == old(storage) && snapshots == old(snapshots)
      ensures Now() == RestoreSnapshot(old(Now()), selected)
    {
      SetCounters(selected.timestamp, selected.batch, selected.miniblock, selected.headHash, selected.gasPrice);
      SetRecords(selected.txResults, selected.blocks, selected.blockHashes, selected.impersonated, selected.rich,
                 selected.archive);
      filters.Load(selected.filters);
      storage.Load(selected.raw, selected.readCache, selected.depCache);
    }

    method RevertCall(id: nat) returns (reply: Reply)
      requires Valid()
      modifies this, storage, filters
      ensures Valid() && Done(State(), reply) == Step(old(State()), EvmRevert(id))
    {
      ghost var start := State();
      var index := if id == 0 then 0 else id - 1;
      if index >= |snapshots| {
        return Refused;
      }
      var selected := snapshots[index];
      snapshots := snapshots[..index];
      Restore(selected);
      StepKeepsCoherentSys(start, EvmRevert(id));
      return Accepted;
    }

    /** Takes over everything another node holds. */
    method Adopt(inner: InMemoryNode)
      requires inner != this
      modifies this
      ensures filters == inner.filters && storage == inner.storage && snapshots == old(snapshots)
      ensures Now() == inner.Now()
    {
      SetCounters(inner.currentTimestamp, inner.currentBatch, inner.currentMiniblock, inner.currentMiniblockHash,
                  inner.l2GasPrice);
      SetRecords(inner.txResults, inner.blocks, inner.blockHashes, inner.impersonatedAccounts, inner.richAccounts,
                 inner.previousStates);
      filters := inner.filters;
      storage := inner.storage;
    }

    /* ---------- storage ---------- */

    method SetStorageAtCall(key: StorageKey, value: Word)
      requires Valid()
      modifies storage
      ensures Valid() && Done(State(), Accepted) == Step(old(State()), SetStorageAt(key, value))
    {
      ghost var start := State();
      storage.SetValue(key, value);
      StepKeepsCoherentSys(start, SetStorageAt(key, value));
    }

    /** Writes one slot through a view of its own. */
    method SetThroughView(key: StorageKey, value: Word)
      requires Coherent(storage.State())
      modifies storage
      ensures var x := Perform(Open(old(storage.State())), WriteSlot(key, value)).0;
              storage.State() == Flushed(x.store, x.view.modified)
    {
      var view := new StorageView(storage);
      var _ := view.SetValue(key, value);
      FlushView(view);
    }

    /** Writes the balance and remembers the account. */
    method SetRichAccount(address: Address)
      requires Coherent(storage.State())
      modifies this`richAccounts, storage
      ensures Now() == Enrich(old(Now()), address) && Coherent(storage.State())
      ensures Done(State(), Accepted) == Step(old(State()), SetRich(address))
    {
      EnrichAside(Now(), address);
      SetThroughView(BalanceKey(address), RICH_BALANCE);
      richAccounts := richAccounts + {address};
    }

    method EnrichWallets(wallets: seq<Address>)
      requires Coherent(storage.State())
      modifies this`richAccounts, storage
      ensures Now() == EnrichAll(old(Now()), wallets) && Coherent(storage.State())
    {
      for i := 0 to |wallets|
        invariant Coherent(storage.State())
        invariant EnrichAll(Now(), wallets[i..]) == EnrichAll(old(Now()), wallets)
      {
        assert wallets[i..][1..] == wallets[i + 1..];
        SetRichAccount(wallets[i]);
      }
      assert wallets[|wallets|..] == [];
    }

    /** A fresh node takes the place of this one, with its gas price, and all snapshots are forgotten. */
    method Replace(fork: Option<Fork>, genesis: InMemoryStorage)
      modifies this
      ensures State() == Start(fork, genesis, old(l2GasPrice)) && Coherent(storage.State())
      ensures fresh(storage) && fresh(filters)
    {
      var inner := new InMemoryNode(fork, genesis, l2GasPrice);
      snapshots := [];
      Adopt(inner);
    }

    /** Replaces the whole node and makes the well-known wallets rich again. */
    method ResetCall(fork: Option<Fork>, genesis: InMemoryStorage, wallets: seq<Address>)
      requires Valid()
      modifies this
      ensures Valid() && Done(State(), Accepted) == Step(old(State()), Reset(fork, genesis, wallets))
      ensures fresh(storage) && fresh(filters)
    {
      ghost var started := Start(fork, genesis, l2GasPrice);
      Replace(fork, genesis);
      EnrichWallets(wallets);
      assert State() == Sys(EnrichAll(started.node, wallets), []);
    }

    method SetCodeOf(hasher: Hasher, address: Address, code: Bytes) returns (reply: Reply)
      requires Valid()
      modifies storage
      ensures Valid() && Done(State(), reply) == Step(old(State()), SetCode(hasher, address, code))
    {
      StepKeepsCoherentSys(State(), SetCode(hasher, address, code));
      var ok := SetCodeCall(storage, hasher, address, code);
      return if ok then Accepted else Refused;
    }

    method GetCodeOf(address: Address, online: bool) returns (reply: Reply)
      requires Valid()
      modifies storage
      ensures Valid() && Done(State(), reply) == Step(old(State()), ReadCode(address, online))
    {
      StepKeepsCoherentSys(State(), ReadCode(address, online));
      var r := GetCodeCall(storage, address, online);
      return if r.Ok? then CodeRead(r.value) else Refused;
    }

    method GetStorageCall(key: StorageKey, block: Option<BlockId>, online: bool) returns (r: Result<Word>)
      requires Valid()
      modifies storage
      ensures (Now(), r) == GetStorage(old(Now()), key, block, online) && Valid()
      ensures AsksLatest(block) ==>
                r == Ok(Overlay(storage.State().contents, key)) || (!online && r == Err)
    {
      ghost var start := State();
      StepKeepsCoherentSys(start, ReadStorage(key, block, online));
      var number: nat := currentMiniblock;
      match block {
        case None =>
        case Some(ByTag(tag)) =>
          number := ToRealBlockNumber(tag, currentMiniblock);
        case Some(ByHash(hash)) =>
          if hash !in blocks {
            return Err;
          }
          number := blocks[hash].number;
      }
      if number == currentMiniblock {
        r := storage.ReadValueInternal(key, online);
        return;
      }
      if number in blockHashes {
        var state := LookupEntry(previousStates, blockHashes[number]);
        var value := if state.Some? && key in state.value then state.value[key] else 0;
        if value == 0 {
          r := storage.ReadValueInternal(key, online);
          return;
        }
        return Ok(value);
      }
      if storage.fork.None? || !online {
        return Err;
      }
      return Ok(storage.fork.value.storageAt(key, number));
    }

    /* ---------- logs ---------- */

    /** All recorded logs that match, collected receipt by receipt in no particular order. */
    method CollectLogs(q: LogQuery) returns (logs: seq<Log>)
      ensures exists order :: Visits(order, txResults.Keys) && logs == Collected(q, txResults, order, currentMiniblock)
      ensures forall l :: l in logs <==> l in QueryLogs(Now(), q)
      ensures ReceiptsMatch(Now()) ==> multiset(logs) == multiset(QueryLogs(Now(), q))
    {
      logs := [];
      var todo := txResults.Keys;
      ghost var order: seq<Hash> := [];
      while todo != {}
        invariant todo <= txResults.Keys
        invariant Visits(order, txResults.Keys - todo)
        invariant logs == Collected(q, txResults, order, currentMiniblock)
        decreases |todo|
      {
        var h :| h in todo;
        var matching := MatchingLogs(q, txResults[h].logs, currentMiniblock);
        logs := logs + matching;
        VisitOne(order, txResults.Keys, todo, h);
        order := order + [h];
        todo := todo - {h};
      }
      CollectedExactly(Now(), q, order);
    }

    /** `eth_newFilter`: without a from-bound the filter follows the head. The filter waits for exactly the
        logs asked for. */
    method NewFilterCall(req: FilterRequest) returns (r: Result<nat>)
      requires Valid()
      modifies filters
      ensures Valid()
      ensures Done(State(), if r.Ok? then Reply.Number(r.value) else Refused)
           == Step(old(State()), NewFilter(LogFilter(MakeQuery(req, Latest), [])))
      ensures r.Err? ==> filters.filters == old(filters.filters)
      ensures r.Ok? ==>
                && r.value in filters.filters && filters.filters - {r.value} == old(filters.filters) - {r.value}
                && filters.filters[r.value].LogFilter? && filters.filters[r.value].logs == []
                && forall log, latest ::
                     Matches(filters.filters[r.value].query, log, latest) <==> AskedFor(req, Latest, log, latest)
    {
      ghost var start := State();
      r := filters.AddLogFilter(MakeQuery(req, Latest));
      StepKeepsCoherentSys(start, NewFilter(LogFilter(MakeQuery(req, Latest), [])));
      forall log, latest
        ensures Matches(MakeQuery(req, Latest), log, latest) <==> AskedFor(req, Latest, log, latest)
      {
        QueryMeansRequest(req, Latest, log, latest);
      }
    }

    /** `eth_uninstallFilter`. */
    method UninstallFilterCall(id: nat) returns (existed: bool)
      requires Valid()
      modifies filters
      ensures Valid()
      ensures Done(State(), Removed(existed)) == Step(old(State()), UninstallFilter(id))
    {
      ghost var start := State();
      existed := filters.RemoveFilter(id);
      StepKeepsCoherentSys(start, UninstallFilter(id));
    }

    /** `eth_getFilterChanges`. */
    method GetFilterChangesCall(id: nat) returns (r: Result<Changes>)
      requires Valid()
      modifies filters
      ensures Valid()
      ensures Done(State(), if r.Ok? then Polled(r.value) else Refused) == Step(old(State()), FilterChanges(id))
    {
      ghost var start := State();
      r := filters.GetNewChanges(id);
      StepKeepsCoherentSys(start, FilterChanges(id));
    }

    /** `eth_getLogs`: without a from-bound the whole history is searched. The recorded logs asked for are
        returned, each once, and no others. */
    method GetLogs(req: FilterRequest) returns (logs: seq<Log>)
      ensures forall l :: l in logs
                 <==> exists h :: h in txResults && l in txResults[h].logs
                                  && AskedFor(req, Earliest, l, currentMiniblock)
      ensures ReceiptsMatch(Now()) ==> multiset(logs) == multiset(QueryLogs(Now(), MakeQuery(req, Earliest)))
      ensures ReceiptsMatch(Now()) ==> forall l :: multiset(logs)[l] <= 1
    {
      logs := CollectLogs(MakeQuery(req, Earliest));
      forall l
        ensures Matches(MakeQuery(req, Earliest), l, currentMiniblock) <==> AskedFor(req, Earliest, l, currentMiniblock)
      {
        QueryMeansRequest(req, Earliest, l, currentMiniblock);
      }
    }

    /** `eth_getFilterLogs`: a query with the filter's own conditions; other filters are refused. */
    method GetFilterLogs(id: nat) returns (r: Result<seq<Log>>)
      ensures r.Ok? <==> id in filters.filters && filters.filters[id].LogFilter?
      ensures r.Ok? ==>
                forall l :: l in r.value
                  <==> exists h :: h in txResults && l in txResults[h].logs
                                   && Matches(filters.filters[id].query, l, currentMiniblock)
      ensures r.Ok? && ReceiptsMatch(Now()) ==>
                multiset(r.value) == multiset(QueryLogs(Now(), filters.filters[id].query))
    {
      if id in filters.filters && filters.filters[id].LogFilter? {
        var logs := CollectLogs(filters.filters[id].query);
        return Ok(logs);
      }
      return Err;
    }
  }
}
