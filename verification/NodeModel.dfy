/** The node as a sequential state machine: every modelled RPC call is one step from one state of the
    system (the node and its snapshot stack) to the next. */
module NodeModel {
  import opened Base
  import opened LocalStorage
  import opened ForkedStorage
  import opened Views
  import opened Bytecode
  import opened Filters

  const MAX_PREVIOUS_STATES: nat := 128
  const MAX_SNAPSHOTS: nat := 100
  const NON_FORK_FIRST_BLOCK_TIMESTAMP: nat := 1_000
  const RICH_BALANCE: nat := 1_000_000_000_000_000_000_000_000_000_000

  /* Two slots of the SystemContext contract, where the VM leaves the last batch and the last L2 block. */
  const SYSTEM_CONTEXT: Address := 0x800b
  const BATCH_INFO: StorageKey := StorageKey(SYSTEM_CONTEXT, 7)
  const L2_INFO: StorageKey := StorageKey(SYSTEM_CONTEXT, 9)
  const BASE_TOKEN: Address := 0x800a

  predicate InfoSlot(key: StorageKey) {
    key == BATCH_INFO || key == L2_INFO
  }

  function BalanceKey(address: Address): StorageKey {
    StorageKey(BASE_TOKEN, address)
  }

  /* ---------- packed block info ---------- */

  datatype BlockInfo = BlockInfo(number: nat, timestamp: nat)

  function PackInfo(info: BlockInfo): Word {
    info.number * TWO_128 + info.timestamp
  }

  /** The number is cut to 32 bits; a zero number means that nothing was stored yet. */
  function UnpackInfo(word: Word): Option<BlockInfo> {
    var number := word / TWO_128 % TWO_32;
    if number == 0 then None else Some(BlockInfo(number, word % TWO_128))
  }

  /* ---------- block contexts ---------- */

  datatype BlockContext = BlockContext(batch: U32, miniblock: U64, timestamp: U64)
  {
    function NewBlock(): BlockContext {
      BlockContext(batch, SatAdd(miniblock, 1, U64_MAX), SatAdd(timestamp, 1, U64_MAX))
    }
  }

  /** What the VM is told about the batch it runs. */
  datatype BatchEnv = BatchEnv(number: nat, timestamp: nat, firstBlock: nat)

  function CreateEmptyBlock(number: nat, timestamp: nat, batch: nat, parent: Option<Hash>): Block {
    var parentHash :=
      if parent.Some? then parent.value
      else if number == 0 then ZERO_HASH
      else ComputeHash(number - 1, ZERO_HASH);
    Block(ComputeHash(number, ZERO_HASH), parentHash, number, timestamp, batch, [])
  }

  /* ---------- the node ---------- */

  datatype TxResult = TxResult(batch: nat, miniblock: nat, succeeded: bool, logs: seq<Log>)

  /** One historical state. */
  datatype Entry = Entry(hash: Hash, state: map<StorageKey, Word>)

  datatype Node = Node(
    timestamp: U64,
    batch: U32,
    miniblock: U64,
    headHash: Hash,
    gasPrice: nat,
    txResults: map<Hash, TxResult>,
    blocks: map<Hash, Block>,
    blockHashes: map<nat, Hash>,
    filters: FilterSet,
    impersonated: set<Address>,
    rich: set<Address>,
    archive: seq<Entry>,
    store: Store)

  function NewNode(fork: Option<Fork>, genesis: InMemoryStorage, gasPrice: nat): Node {
    var store := Store(Contents(genesis, fork), map[], map[]);
    match fork
    case Some(f) =>
      Node(f.timestamp, f.batch, f.miniblock, f.miniblockHash, gasPrice, map[],
           map[f.block.hash := f.block], map[f.block.number := f.block.hash],
           NO_FILTERS, {}, {}, [], store)
    case None =>
      var hash := ComputeHash(0, ZERO_HASH);
      Node(NON_FORK_FIRST_BLOCK_TIMESTAMP, 0, 0, hash, gasPrice, map[],
           map[hash := CreateEmptyBlock(0, NON_FORK_FIRST_BLOCK_TIMESTAMP, 0, None)], map[0 := hash],
           NO_FILTERS, {}, {}, [], store)
  }

  function StoredBatch(c: Contents): Option<BlockInfo> {
    UnpackInfo(Overlay(c, BATCH_INFO))
  }

  function StoredL2(c: Contents): Option<BlockInfo> {
    UnpackInfo(Overlay(c, L2_INFO))
  }

  /** The latest time known to the node or left in storage by the VM. */
  function LatestTime(n: Node): nat {
    var l1, l2 := StoredBatch(n.store.contents), StoredL2(n.store.contents);
    Max(Max(if l1.Some? then l1.value.timestamp else n.timestamp,
            if l2.Some? then l2.value.timestamp else n.timestamp),
        n.timestamp)
  }

  /** Context of the next batch: numbers from storage where it has them, time the latest of all. */
  function NextContext(n: Node): BlockContext {
    var l1, l2 := StoredBatch(n.store.contents), StoredL2(n.store.contents);
    BlockContext(SatAdd(if l1.Some? then l1.value.number else n.batch, 1, U32_MAX),
                 SatAdd(if l2.Some? then l2.value.number else n.miniblock % TWO_32, 1, U64_MAX),
                 SatAdd(LatestTime(n), 1, U64_MAX))
  }

  function EnvOf(ctx: BlockContext): BatchEnv {
    BatchEnv(ctx.batch, ctx.timestamp, ctx.miniblock % TWO_32)
  }

  /* ---------- the archive of historical states ---------- */

  function IndexOf(archive: seq<Entry>, hash: Hash): nat {
    if archive == [] then 0
    else if archive[0].hash == hash then 0
    else 1 + IndexOf(archive[1..], hash)
  }

  /** Insertion into an index map: an existing key keeps its position. */
  function InsertEntry(archive: seq<Entry>, entry: Entry): seq<Entry> {
    var i := IndexOf(archive, entry.hash);
    if i < |archive| then archive[i := entry] else archive + [entry]
  }

  function LookupEntry(archive: seq<Entry>, hash: Hash): Option<map<StorageKey, Word>> {
    var i := IndexOf(archive, hash);
    if i < |archive| then Some(archive[i].state) else None
  }

  /** Drops the oldest entry of an overfull archive, then inserts. */
  function PushEntry(archive: seq<Entry>, entry: Entry): seq<Entry> {
    InsertEntry(if |archive| > MAX_PREVIOUS_STATES then archive[1..] else archive, entry)
  }

  function ArchiveState(n: Node): Node {
    n.(archive := PushEntry(n.archive, Entry(n.headHash, n.store.contents.raw.state)))
  }

  /* ---------- transactions ---------- */

  datatype Tx = Tx(hash: Hash, gasLimit: nat, gasPerPubdata: nat, maxFee: nat, maxPriorityFee: nat)

  /** How a VM run ended; `Failure` is an error before the VM result could be used. */
  datatype VmResult = Success | Revert | Halt | Failure

  datatype RawEvent = RawEvent(address: Address, topics: seq<Word>, data: Bytes)

  /** The oracle's account of one VM run: its storage accesses and what it produced. */
  datatype VmRun = VmRun(script: seq<Access>, result: VmResult, bytecodes: map<Word, Bytes>, events: seq<RawEvent>)

  predicate Acceptable(n: Node, tx: Tx) {
    && tx.gasLimit <= U64_MAX
    && tx.gasPerPubdata <= U64_MAX
    && n.gasPrice <= tx.maxFee
    && tx.maxPriorityFee <= tx.maxFee
  }

  const ENV_READS: seq<Access> := [ReadSlot(BATCH_INFO), ReadSlot(L2_INFO)]

  /** A VM run in a fresh view; the batch environment is read through the same view. */
  function RunInView(store: Store, script: seq<Access>): Session {
    Execute(Open(store), ENV_READS + script).0
  }

  function MakeLog(e: RawEvent, index: nat, block: Block, txHash: Hash): Log {
    Log(e.address, e.topics, e.data, block.hash, block.number, block.batch, txHash, index, block.timestamp)
  }

  function MakeLogs(events: seq<RawEvent>, block: Block, txHash: Hash): seq<Log> {
    seq(|events|, i requires 0 <= i < |events| => MakeLog(events[i], i, block, txHash))
  }

  function LogEvents(logs: seq<Log>, latest: nat): seq<Event> {
    seq(|logs|, i requires 0 <= i < |logs| => NewLog(logs[i], latest))
  }

  function TxBlock(n: Node, txHash: Hash, ctx: BlockContext): Block {
    var parent := if ctx.miniblock - 1 in n.blockHashes then n.blockHashes[ctx.miniblock - 1] else ZERO_HASH;
    Block(ComputeHash(ctx.miniblock, txHash), parent, ctx.miniblock, EnvOf(ctx).timestamp, EnvOf(ctx).number, [txHash])
  }

  function TrailingBlock(ctx: BlockContext, txBlock: Block): Block {
    var last := ctx.NewBlock();
    CreateEmptyBlock(last.miniblock, last.timestamp, last.batch, Some(txBlock.hash))
  }

  function WithBytecodes(s: Store, bytecodes: map<Word, Bytes>): Store {
    s.(contents := s.contents.(raw := s.contents.raw.(factoryDeps := s.contents.raw.factoryDeps + bytecodes)))
  }

  /** The node after the pending notification and the VM run, with nothing committed. */
  function Attempted(n: Node, tx: Tx, run: VmRun): Node {
    n.(filters := Notify(n.filters, NewPending(tx.hash)), store := RunInView(n.store, run.script).store)
  }

  /** Writes the VM's slots and bytecodes, announces its logs and records its receipt. */
  function Applied(n: Node, tx: Tx, run: VmRun): Node {
    var block := TxBlock(n, tx.hash, NextContext(n));
    var logs := MakeLogs(run.events, block, tx.hash);
    var x := RunInView(n.store, run.script);
    Attempted(n, tx, run).(
      store := WithBytecodes(Flushed(x.store, x.view.modified), run.bytecodes),
      filters := NotifyAll(Attempted(n, tx, run).filters, LogEvents(logs, block.number)),
      txResults := n.txResults[tx.hash := TxResult(block.batch, block.number, run.result.Success?, logs)],
      batch := SatAdd(n.batch, 1, U32_MAX))
  }

  /** One turn of the loop that appends blocks; `None` is a panic of the consistency checks. */
  function AppendBlock(n: Node, block: Block): Option<Node> {
    var archived := ArchiveState(n);
    var miniblock := SatAdd(n.miniblock, 1, U64_MAX);
    var timestamp := SatAdd(n.timestamp, 1, U64_MAX);
    if block.batch != n.batch || block.number != miniblock || block.timestamp != timestamp then None
    else
      Some(archived.(
           miniblock := miniblock,
           timestamp := timestamp,
           headHash := block.hash,
           blockHashes := n.blockHashes[block.number := block.hash],
           blocks := n.blocks[block.hash := block],
           filters := Notify(n.filters, NewBlock(block.hash))))
  }

  function CommitTx(n: Node, tx: Tx, run: VmRun): Option<Node> {
    var ctx := NextContext(n);
    var block := TxBlock(n, tx.hash, ctx);
    var first := AppendBlock(Applied(n, tx, run), block);
    if first.None? then None else AppendBlock(first.value, TrailingBlock(ctx, block))
  }

  /* ---------- mining ---------- */

  function MineOne(n: Node, first: bool, interval: U64, script: seq<Access>): Node {
    var next := NextContext(n);
    var ctx := if first then next else next.(timestamp := SatAdd(n.timestamp, interval, U64_MAX));
    var x := RunInView(n.store, script);
    var block := CreateEmptyBlock(ctx.miniblock, ctx.timestamp, ctx.batch, None);
    n.(store := Flushed(x.store, x.view.modified),
       blockHashes := n.blockHashes[block.number := block.hash],
       blocks := n.blocks[block.hash := block],
       batch := ctx.batch,
       miniblock := ctx.miniblock,
       timestamp := ctx.timestamp)
  }

  /** Mines one block per script. */
  function Mine(n: Node, first: bool, interval: U64, scripts: seq<seq<Access>>): Node
    decreases |scripts|
  {
    if scripts == [] then n
    else Mine(MineOne(n, first, interval, scripts[0]), false, interval, scripts[1..])
  }

  /* ---------- snapshots ---------- */

  datatype Snapshot = Snapshot(
    timestamp: U64,
    batch: U32,
    miniblock: U64,
    headHash: Hash,
    gasPrice: nat,
    txResults: map<Hash, TxResult>,
    blocks: map<Hash, Block>,
    blockHashes: map<nat, Hash>,
    filters: FilterSet,
    impersonated: set<Address>,
    rich: set<Address>,
    archive: seq<Entry>,
    raw: InMemoryStorage,
    readCache: map<StorageKey, Word>,
    depCache: map<Word, Option<Bytes>>)

  function TakeSnapshot(n: Node): Snapshot {
    Snapshot(n.timestamp, n.batch, n.miniblock, n.headHash, n.gasPrice, n.txResults, n.blocks, n.blockHashes,
             n.filters, n.impersonated, n.rich, n.archive,
             n.store.contents.raw, n.store.readCache, n.store.depCache)
  }

  /** The node a snapshot turns into under a given fork; the fork itself is not part of a snapshot. */
  function Thaw(s: Snapshot, fork: Option<Fork>): Node {
    Node(s.timestamp, s.batch, s.miniblock, s.headHash, s.gasPrice, s.txResults, s.blocks, s.blockHashes,
         s.filters, s.impersonated, s.rich, s.archive,
         Store(Contents(s.raw, fork), s.readCache, s.depCache))
  }

  function RestoreSnapshot(n: Node, s: Snapshot): Node {
    Thaw(s, n.store.contents.fork)
  }

  /* ---------- queries ---------- */

  datatype BlockId = ByTag(tag: BlockTag) | ByHash(hash: Hash)

  function ResolveBlock(n: Node, id: Option<BlockId>): Result<nat> {
    match id
    case None => Ok(n.miniblock)
    case Some(ByTag(tag)) => Ok(ToRealBlockNumber(tag, n.miniblock))
    case Some(ByHash(hash)) => if hash in n.blocks then Ok(n.blocks[hash].number) else Err
  }

  function LiveRead(n: Node, key: StorageKey, online: bool): (Node, Result<Word>) {
    var a := ReadValue(n.store, key, online);
    (n.(store := a.store), a.result)
  }

  function ReadAtNumber(n: Node, key: StorageKey, number: nat, online: bool): (Node, Result<Word>) {
    if number == n.miniblock then LiveRead(n, key, online)
    else if number in n.blockHashes then
      var state := LookupEntry(n.archive, n.blockHashes[number]);
      var value := if state.Some? && key in state.value then state.value[key] else 0;
      if value == 0 then LiveRead(n, key, online) else (n, Ok(value))
    else if n.store.contents.fork.None? || !online then (n, Err)
    else (n, Ok(n.store.contents.fork.value.storageAt(key, number)))
  }

  function GetStorage(n: Node, key: StorageKey, id: Option<BlockId>, online: bool): (Node, Result<Word>) {
    var number := ResolveBlock(n, id);
    if number.Err? then (n, Err) else ReadAtNumber(n, key, number.value, online)
  }

  /** All recorded logs that a query matches at the current head. */
  function QueryLogs(n: Node, q: LogQuery): set<Log> {
    set h, l | h in n.txResults && l in n.txResults[h].logs && Matches(q, l, n.miniblock) :: l
  }

  /** Gives an account its balance through a view of its own. */
  function Enrich(n: Node, address: Address): Node {
    var x := Perform(Open(n.store), WriteSlot(BalanceKey(address), RICH_BALANCE)).0;
    n.(store := Flushed(x.store, x.view.modified), rich := n.rich + {address})
  }

  function EnrichAll(n: Node, wallets: seq<Address>): Node
    decreases |wallets|
  {
    if wallets == [] then n else EnrichAll(Enrich(n, wallets[0]), wallets[1..])
  }

  /* ---------- the state machine ---------- */

  datatype Sys = Sys(node: Node, snapshots: seq<Snapshot>)

  datatype Op =
    | SendTx(tx: Tx, run: VmRun)
    | MineBlocks(interval: U64, scripts: seq<seq<Access>>)
    | IncreaseTime(delta: U64)
    | SetNextBlockTimestamp(time: U64)
    | SetTime(time: U64)
    | EvmSnapshot
    | EvmRevert(id: nat)
    | Reset(fork: Option<Fork>, genesis: InMemoryStorage, wallets: seq<Address>)
    | SetStorageAt(key: StorageKey, value: Word)
    | SetCode(hasher: Hasher, address: Address, code: Bytes)
    | SetRich(address: Address)
    | Sandbox(script: seq<Access>)
    | ReadStorage(key: StorageKey, block: Option<BlockId>, online: bool)
    | ReadCode(address: Address, online: bool)
    | NewFilter(filter: Filter)
    | UninstallFilter(id: nat)
    | FilterChanges(id: nat)
    | Impersonate(address: Address)
    | StopImpersonating(address: Address)

  datatype Reply =
    | Accepted
    | Refused
    | Number(n: nat)
    | Polled(changes: Changes)
    | CodeRead(code: Bytes)
    | Removed(existed: bool)

  datatype Outcome = Done(sys: Sys, reply: Reply) | Panic

  /** The call runs a transaction that is neither rejected nor halted, so it is committed. */
  predicate Commits(n: Node, op: Op) {
    op.SendTx? && Acceptable(n, op.tx) && !op.run.result.Halt? && !op.run.result.Failure?
  }

  function SendTxStep(sys: Sys, tx: Tx, run: VmRun): Outcome {
    var n := sys.node;
    if !Acceptable(n, tx) then Done(sys, Refused)
    else if run.result.Halt? || run.result.Failure? then Done(sys.(node := Attempted(n, tx, run)), Refused)
    else
      var committed := CommitTx(n, tx, run);
      if committed.None? then Panic else Done(sys.(node := committed.value), Accepted)
  }

  function SnapshotStep(sys: Sys): Outcome {
    if |sys.snapshots| >= MAX_SNAPSHOTS then Done(sys, Refused)
    else Done(sys.(snapshots := sys.snapshots + [TakeSnapshot(sys.node)]), Reply.Number(|sys.snapshots| + 1))
  }

  function RevertStep(sys: Sys, id: nat): Outcome {
    var index := if id == 0 then 0 else id - 1;
    if index >= |sys.snapshots| then Done(sys, Refused)
    else Done(Sys(RestoreSnapshot(sys.node, sys.snapshots[index]), sys.snapshots[..index]), Accepted)
  }

  /** Replaces the node and forgets all snapshots; the well-known wallets become rich again. */
  function ResetStep(sys: Sys, fork: Option<Fork>, genesis: InMemoryStorage, wallets: seq<Address>): Outcome {
    Done(Sys(EnrichAll(NewNode(fork, genesis, sys.node.gasPrice), wallets), []), Accepted)
  }

  /** Calls that append no block and touch no snapshot. */
  predicate Local(op: Op) {
    !op.SendTx? && !op.MineBlocks? && !op.EvmSnapshot? && !op.EvmRevert? && !op.Reset?
  }

  function LocalStep(n: Node, op: Op): (Node, Reply)
    requires Local(op)
  {
    match op
    case IncreaseTime(delta) => (n.(timestamp := SatAdd(n.timestamp, SatMul(delta, 1000, U64_MAX), U64_MAX)), Accepted)
    case SetNextBlockTimestamp(time) =>
      if time <= n.timestamp then (n, Refused) else (n.(timestamp := time - 1), Accepted)
    case SetTime(time) => (n.(timestamp := time), Accepted)
    case SetStorageAt(key, value) => (n.(store := WithValue(n.store, key, value)), Accepted)
    case SetCode(hasher, address, code) =>
      var (store, ok) := PublishCode(n.store, hasher, address, code);
      (n.(store := store), if ok then Accepted else Refused)
    case SetRich(address) => (Enrich(n, address), Accepted)
    case Sandbox(script) => (n.(store := RunInView(n.store, script).store), Accepted)
    case ReadStorage(key, block, online) =>
      var (n', r) := GetStorage(n, key, block, online);
      (n', if r.Ok? then Reply.Number(r.value) else Refused)
    case ReadCode(address, online) =>
      var a := FetchCode(n.store, address, online);
      (n.(store := a.store), if a.result.Ok? then CodeRead(a.result.value) else Refused)
    case NewFilter(filter) =>
      var (fs, id) := Install(n.filters, Drained(filter));
      (n.(filters := fs), if id.Ok? then Reply.Number(id.value) else Refused)
    case UninstallFilter(id) =>
      var (fs, existed) := Remove(n.filters, id);
      (n.(filters := fs), Removed(existed))
    case FilterChanges(id) =>
      var (fs, r) := Poll(n.filters, id);
      (n.(filters := fs), if r.Ok? then Polled(r.value) else Refused)
    case Impersonate(address) => (n.(impersonated := n.impersonated + {address}), Accepted)
    case StopImpersonating(address) => (n.(impersonated := n.impersonated - {address}), Accepted)
  }

  function Step(sys: Sys, op: Op): Outcome {
    match op
    case SendTx(tx, run) => SendTxStep(sys, tx, run)
    case MineBlocks(interval, scripts) =>
      if scripts == [] then Done(sys, Refused)
      else Done(sys.(node := Mine(sys.node, true, interval, scripts)), Accepted)
    case EvmSnapshot => SnapshotStep(sys)
    case EvmRevert(id) => RevertStep(sys, id)
    case Reset(fork, genesis, wallets) => ResetStep(sys, fork, genesis, wallets)
    case _ =>
      var (n, reply) := LocalStep(sys.node, op);
      Done(sys.(node := n), reply)
  }

  function Start(fork: Option<Fork>, genesis: InMemoryStorage, gasPrice: nat): Sys {
    Sys(NewNode(fork, genesis, gasPrice), [])
  }

  /** The state after a run of operations, unless one of them panics. */
  function Run(sys: Sys, ops: seq<Op>): Option<Sys>
    decreases |ops|
  {
    if ops == [] then Some(sys)
    else
      match Step(sys, ops[0])
      case Panic => None
      case Done(sys', _) => Run(sys', ops[1..])
  }
}
