/** What holds in every state that admissible operations reach, and concrete runs that end badly. */
module Reachable {
  import opened Base
  import opened LocalStorage
  import opened ForkedStorage
  import opened Views
  import opened Filters
  import opened NodeModel
  import opened Coupling
  import opened Chain
  import opened History
  import opened Runs
  import opened CacheRuns
  import opened SlotWrites
  import opened HistoricalReads
  import opened PastReads
  import opened Delivery
  import opened Receipts

  /** Every invariant that the theorems over runs assume of their start holds of a fresh node. */
  lemma StartHasTheInvariants(fork: Option<Fork>, genesis: InMemoryStorage, gasPrice: nat)
    requires StartFits(fork, genesis)
    ensures var start := Start(fork, genesis, gasPrice);
            && GoodSys(start) && CoherentSys(start)
            && Everywhere(n => TimeAhead(n), start, 0)
            && Everywhere(n => ReceiptsMatch(n), start, 0)
            && Everywhere(n => WaitingLogsQueryable(n), start, 0)
            && Everywhere(n => ReceiptsBelowHead(n), start, 0)
  {
    StartIsGood(fork, genesis, gasPrice);
  }

  /** The stored chain of every reachable node: each number from the base to the head has a block under
      its own hash that names its predecessor, and nothing else is stored. Over a fork the one link
      that can be broken is the first, and exactly when that block was mined and mining's guess of the
      fork block's hash is wrong. */
  lemma ReachableChainIsSound(sys: Sys, ops: seq<Op>, i: nat)
    requires GoodSys(sys) && AdmissibleRun(sys, ops) && Run(sys, ops).Some?
    requires var n := Run(sys, ops).value.node; ChainOf(n).base <= i <= n.miniblock
    ensures var n := Run(sys, ops).value.node;
            var c := ChainOf(n);
            && i in n.blockHashes && n.blockHashes[i] in n.blocks
            && n.blocks[n.blockHashes[i]].number == i && n.blocks[n.blockHashes[i]].hash == n.blockHashes[i]
            && (forall h :: h in n.blocks ==>
                  n.blocks[h].number in n.blockHashes && n.blockHashes[n.blocks[h].number] == h)
            && (i > c.base ==>
                  && i - 1 in n.blockHashes
                  && (n.blocks[n.blockHashes[i]].parentHash != n.blockHashes[i - 1]
                      <==> && i == c.base + 1
                           && n.blocks[n.blockHashes[i]].transactions == []
                           && c.baseHash != ComputeHash(c.base, ZERO_HASH)))
  {
    RunKeepsGood(sys, ops);
    var n := Run(sys, ops).value.node;
    assert Good(n);
    assert Sound(ChainOf(n), i);
    if i > ChainOf(n).base {
      BrokenLinkOverFork(n, i);
    }
  }

  /** Without a fork no link is ever broken. */
  lemma ReachableChainWithoutFork(sys: Sys, ops: seq<Op>, i: nat)
    requires GoodSys(sys) && AdmissibleRun(sys, ops) && Run(sys, ops).Some?
    requires var n := Run(sys, ops).value.node; n.store.contents.fork.None? && i < n.miniblock
    ensures var n := Run(sys, ops).value.node;
            && i in n.blockHashes && n.blockHashes[i] in n.blocks
            && i + 1 in n.blockHashes && n.blockHashes[i + 1] in n.blocks
            && n.blocks[n.blockHashes[i + 1]].parentHash == n.blocks[n.blockHashes[i]].hash
  {
    RunKeepsGood(sys, ops);
    var n := Run(sys, ops).value.node;
    assert Good(n);
    IntegrityWithoutFork(n, i);
    IntegrityWithoutFork(n, i + 1);
  }

  /** The archive of every reachable node: its keys, in order, are the hashes of the last 129 (or of
      all, if fewer) archived blocks of the current chain, and no hash is there twice. */
  lemma ReachableArchiveIsWindow(sys: Sys, ops: seq<Op>)
    requires GoodSys(sys) && AdmissibleRun(sys, ops) && Run(sys, ops).Some?
    ensures var n := Run(sys, ops).value.node;
            var all := HashesAt(n.blockHashes, ArchivedNumbers(ChainOf(n)));
            && Keys(n.archive) == Last(all, 129)
            && |n.archive| == (if |all| < 129 then |all| else 129)
            && (forall i, j :: 0 <= i < j < |all| ==> all[i] != all[j])
  {
    RunKeepsGood(sys, ops);
    var n := Run(sys, ops).value.node;
    assert Good(n);
    var c := ChainOf(n);
    OldNumbers(c);
    var numbers := ArchivedNumbers(c);
    forall i, j | 0 <= i < j < |numbers|
      ensures HashesAt(n.blockHashes, numbers)[i] != HashesAt(n.blockHashes, numbers)[j]
    {
      HashesDiffer(c, numbers[i], numbers[j]);
    }
    assert |Keys(n.archive)| == |n.archive|;
  }

  /* ---------- admissible calls that end badly ---------- */

  lemma LateCommitPanics(sys: Sys, op: Op, tx: Tx, run: VmRun)
    requires Step(sys, op).Done?
    requires var behind := Step(sys, op).sys;
             Good(behind.node) && !TimeAhead(behind.node) && Admissible(behind, SendTx(tx, run))
             && Commits(behind.node, SendTx(tx, run))
    ensures Run(sys, [op, SendTx(tx, run)]).None?
  {
    var ops := [op, SendTx(tx, run)];
    PanicExactly(Step(sys, op).sys, SendTx(tx, run));
    assert ops[1..][0] == SendTx(tx, run);
    assert Run(sys, ops) == Run(Step(sys, op).sys, ops[1..]);
  }

  /** Two blocks mined with interval zero leave the node behind its storage: the next transaction that
      is committed panics, although every single operation was admissible. */
  lemma IntervalZeroPanics(sys: Sys, scripts: seq<seq<Access>>, tx: Tx, run: VmRun)
    requires Good(sys.node) && |scripts| >= 2 && MineOk(sys.node, true, 0, scripts)
    requires var mined := Step(sys, MineBlocks(0, scripts)).sys;
             && Commits(mined.node, SendTx(tx, run))
             && HasRoom(mined.node) && TxContract(mined.node, run.script)
    ensures Run(sys, [MineBlocks(0, scripts), SendTx(tx, run)]).None?
  {
    MineCouples(sys.node, 0, scripts);
    StepKeepsGood(sys, MineBlocks(0, scripts));
    LateCommitPanics(sys, MineBlocks(0, scripts), tx, run);
  }

  /** So does a transaction committed after the clock was set below the stored time. */
  lemma SetTimePanics(sys: Sys, time: U64, tx: Tx, run: VmRun)
    requires Good(sys.node) && !Ahead(sys.node.store.contents, time)
    requires var moved := Step(sys, SetTime(time)).sys;
             && Commits(moved.node, SendTx(tx, run))
             && HasRoom(moved.node) && TxContract(moved.node, run.script)
    ensures Run(sys, [SetTime(time), SendTx(tx, run)]).None?
  {
    StepKeepsGood(sys, SetTime(time));
    LateCommitPanics(sys, SetTime(time), tx, run);
  }

  const EMPTY_GENESIS: InMemoryStorage := InMemoryStorage(map[], map[])

  const FRESH: Sys := Start(None, EMPTY_GENESIS, 0)

  const SOME_TX: Tx := Tx(Opaque(1), 0, 0, 0, 0)

  function Succeeding(n: Node): VmRun {
    VmRun(TxWrites(n), Success, map[], [])
  }

  lemma FreshIsGood()
    ensures GoodSys(FRESH) && HasRoom(FRESH.node) && TimeAhead(FRESH.node)
    ensures LatestTime(FRESH.node) == NON_FORK_FIRST_BLOCK_TIMESTAMP
  {
    GenesisFits(EMPTY_GENESIS);
    StartIsGood(None, EMPTY_GENESIS, 0);
  }

  lemma TwoCalls(sys: Sys, first: Op, second: Op)
    requires Admissible(sys, first) && Step(sys, first).Done? && Admissible(Step(sys, first).sys, second)
    ensures AdmissibleRun(sys, [first, second])
  {
    var ops := [first, second];
    assert ops[1..] == [second] && [second][1..] == [];
    assert AdmissibleRun(Step(sys, first).sys, [second]);
  }

  /** One empty block mined by a fresh node. */
  function FirstMined(): Node {
    MineOne(FRESH.node, true, 0, EmptyWrites(FRESH.node))
  }

  lemma FirstMinedIsGood()
    ensures Good(FirstMined()) && HasRoom(FirstMined()) && FirstMined().timestamp == LatestTime(FirstMined()) == 1_001
    ensures StoredBatch(FirstMined().store.contents) == Some(BlockInfo(1, 1_001))
    ensures FirstMined().batch == 1 && FirstMined().miniblock == 1
  {
    FreshIsGood();
    ContractsCanBeMet(FRESH.node);
    NextContextAgrees(FRESH.node);
    MineOneCouples(FRESH.node, true, 0, EmptyWrites(FRESH.node));
    MineOneIsGood(FRESH.node, true, 0, EmptyWrites(FRESH.node));
  }

  /** Two empty blocks at interval zero. */
  function TwoEmptyBlocks(): seq<seq<Access>> {
    [EmptyWrites(FRESH.node), EmptyWrites(FirstMined())]
  }

  lemma TwoEmptyBlocksAreOk()
    ensures MineOk(FRESH.node, true, 0, TwoEmptyBlocks())
    ensures HasRoom(Mine(FRESH.node, true, 0, TwoEmptyBlocks()))
  {
    FreshIsGood();
    FirstMinedIsGood();
    ContractsCanBeMet(FRESH.node);
    ContractsCanBeMet(FirstMined());
    MineOneCouples(FirstMined(), false, 0, EmptyWrites(FirstMined()));
    var scripts := TwoEmptyBlocks();
    assert scripts[1..] == [EmptyWrites(FirstMined())] && scripts[1..][1..] == [];
    assert MineOk(FirstMined(), false, 0, scripts[1..]);
    assert Mine(FirstMined(), false, 0, scripts[1..])
        == MineOne(FirstMined(), false, 0, EmptyWrites(FirstMined()));
  }

  lemma {:induction false} MiningKeepsGasPrice(n: Node, first: bool, interval: U64, scripts: seq<seq<Access>>)
    ensures Mine(n, first, interval, scripts).gasPrice == n.gasPrice
    decreases |scripts|
  {
    if scripts != [] {
      MiningKeepsGasPrice(MineOne(n, first, interval, scripts[0]), false, interval, scripts[1..]);
    }
  }

  /** A concrete run from a fresh node: two empty blocks at interval zero, then one transaction. Every
      call is admissible, and the transaction panics. */
  lemma FreshNodePanicsAfterIntervalZero()
    ensures var mined := Mine(FRESH.node, true, 0, TwoEmptyBlocks());
            var ops := [MineBlocks(0, TwoEmptyBlocks()), SendTx(SOME_TX, Succeeding(mined))];
            GoodSys(FRESH) && AdmissibleRun(FRESH, ops) && Run(FRESH, ops).None?
  {
    var mined := Mine(FRESH.node, true, 0, TwoEmptyBlocks());
    FreshIsGood();
    TwoEmptyBlocksAreOk();
    ContractsCanBeMet(mined);
    MiningKeepsGasPrice(FRESH.node, true, 0, TwoEmptyBlocks());
    IntervalZeroPanics(FRESH, TwoEmptyBlocks(), SOME_TX, Succeeding(mined));
    TwoCalls(FRESH, MineBlocks(0, TwoEmptyBlocks()), SendTx(SOME_TX, Succeeding(mined)));
  }

  lemma FirstMinedIsReached()
    ensures Step(FRESH, MineBlocks(0, [EmptyWrites(FRESH.node)])) == Done(Sys(FirstMined(), []), Accepted)
  {
    var scripts := [EmptyWrites(FRESH.node)];
    assert scripts[1..] == [];
    assert Mine(FRESH.node, true, 0, scripts) == Mine(FirstMined(), false, 0, []);
  }

  /** Another: after one mined block the clock is set to zero; the next transaction panics. */
  lemma MinedNodePanicsAfterSetTime()
    ensures var sys := Sys(FirstMined(), []);
            var ops := [SetTime(0), SendTx(SOME_TX, Succeeding(FirstMined().(timestamp := 0)))];
            && Step(FRESH, MineBlocks(0, [EmptyWrites(FRESH.node)])) == Done(sys, Accepted)
            && GoodSys(sys) && AdmissibleRun(sys, ops) && Run(sys, ops).None?
  {
    var sys := Sys(FirstMined(), []);
    var moved := FirstMined().(timestamp := 0);
    FirstMinedIsReached();
    FirstMinedIsGood();
    ContractsCanBeMet(moved);
    SetTimePanics(sys, 0, SOME_TX, Succeeding(moved));
    TwoCalls(sys, SetTime(0), SendTx(SOME_TX, Succeeding(moved)));
  }

  /** A fork of an empty remote at block 5, whose hash is no guess of mining's. */
  const SOME_FORK: Fork :=
    Fork((_, _) => 0, _ => None, 1, 5, Opaque(7), Block(Opaque(7), ZERO_HASH, 5, 1_000, 1, []), 1_000)

  /** A concrete broken link: the first block mined over that fork does not name the fork block. */
  lemma MinedOverForkBreaksLink()
    ensures var sys := Start(Some(SOME_FORK), EMPTY_GENESIS, 0);
            var op := MineBlocks(0, [EmptyWrites(sys.node)]);
            && StartFits(Some(SOME_FORK), EMPTY_GENESIS) && Admissible(sys, op) && Step(sys, op).Done?
            && var n := Step(sys, op).sys.node;
               && n.miniblock == 6 && 5 in n.blockHashes && 6 in n.blockHashes && n.blockHashes[6] in n.blocks
               && n.blocks[n.blockHashes[6]].parentHash != n.blockHashes[5]
  {
    var sys := Start(Some(SOME_FORK), EMPTY_GENESIS, 0);
    var scripts := [EmptyWrites(sys.node)];
    assert scripts[1..] == [];
    StartIsGood(Some(SOME_FORK), EMPTY_GENESIS, 0);
    ContractsCanBeMet(sys.node);
    NextContextAgrees(sys.node);
    RunKeepsFork(sys.node.store, scripts[0]);
    assert Mine(sys.node, true, 0, scripts) == MineOne(sys.node, true, 0, scripts[0]);
  }

  /* ---------- reads and filters that mislead ---------- */

  const SOME_KEY: StorageKey := StorageKey(1, 1)

  /** A fresh node on which two empty blocks were mined. */
  function TwiceMined(): Node {
    Mine(FRESH.node, true, 0, TwoEmptyBlocks())
  }

  lemma FirstBlockIsMined()
    ensures Good(TwiceMined()) && 1 in TwiceMined().blockHashes
    ensures Mined(ChainOf(TwiceMined()), 1, TwiceMined().blockHashes[1])
    ensures TwiceMined().miniblock == 2
  {
    FreshIsGood();
    TwoEmptyBlocksAreOk();
    MineKeepsGood(FRESH.node, true, 0, TwoEmptyBlocks());
    MineExtends(FRESH.node, true, 0, TwoEmptyBlocks());
    MiningMines(FRESH.node, 0, TwoEmptyBlocks(), 1);
  }

  lemma EmptyWritesLeaveSlot(n: Node)
    ensures LastWrite(EmptyWrites(n), SOME_KEY).None?
  {
    var script := EmptyWrites(n);
    assert script[..1] == [script[0]] && script[..1][..0] == [];
    assert LastWrite(script[..1], SOME_KEY).None?;
  }

  lemma SlotIsZero()
    ensures Overlay(TwiceMined().store.contents, SOME_KEY) == 0
  {
    var scripts := TwoEmptyBlocks();
    EmptyWritesLeaveSlot(FRESH.node);
    EmptyWritesLeaveSlot(FirstMined());
    assert scripts[1..] == [EmptyWrites(FirstMined())] && scripts[1..][1..] == [];
    assert LastWriteOf(scripts[1..], SOME_KEY).None?;
    SlotAfterMine(FRESH.node, true, 0, scripts, SOME_KEY);
  }

  /** A concrete read of a past block that changes: two empty blocks are mined, and a slot reads 0 at the
      first of them. Then the slot is set, and at the same block it reads 1. */
  lemma ReadAtMinedBlockChanges()
    ensures var sys := Sys(TwiceMined(), []);
            var after := Step(sys, SetStorageAt(SOME_KEY, 1)).sys;
            var first := Some(ByTag(BlockTag.Number(1)));
            && GoodSys(sys) && Admissible(sys, SetStorageAt(SOME_KEY, 1)) && sys.node.miniblock == 2
            && GetStorage(sys.node, SOME_KEY, first, true).1 == Ok(0)
            && GetStorage(after.node, SOME_KEY, first, true).1 == Ok(1)
  {
    var n := TwiceMined();
    var n' := LocalStep(n, SetStorageAt(SOME_KEY, 1)).0;
    FirstBlockIsMined();
    SlotIsZero();
    LocalKeepsGood(n, SetStorageAt(SOME_KEY, 1));
    LocalIsAside(n, SetStorageAt(SOME_KEY, 1));
    MinedAnswer(n, 1, n.blockHashes[1], SOME_KEY, ByTag(BlockTag.Number(1)));
    MinedAnswer(n', 1, n.blockHashes[1], SOME_KEY, ByTag(BlockTag.Number(1)));
  }

  /** The query of a filter that a client installs without any conditions. */
  const DEFAULT_QUERY: LogQuery := MakeQuery(FilterRequest(None, None, None, None), BlockTag.Latest)

  const SOME_EVENT: RawEvent := RawEvent(1, [], [])

  /** A fresh node with that filter installed, under id 1. */
  function Listening(): Node {
    FRESH.node.(filters := FilterSet(1, map[1 := LogFilter(DEFAULT_QUERY, [])]))
  }

  function Emitting(): VmRun {
    Succeeding(Listening()).(events := [SOME_EVENT])
  }

  /** Installing the filter is the first call. */
  lemma ListeningIsReached()
    ensures Step(FRESH, NewFilter(LogFilter(DEFAULT_QUERY, []))) == Done(Sys(Listening(), []), Reply.Number(1))
    ensures Good(Listening()) && HasRoom(Listening()) && TimeAhead(Listening())
    ensures NextContext(Listening()).miniblock == 1
  {
    FreshIsGood();
    LocalKeepsGood(FRESH.node, NewFilter(LogFilter(DEFAULT_QUERY, [])));
    NextContextAgrees(Listening());
  }

  /** What a log filter under id 1 holds after the notices of a transaction with one matching log. */
  lemma OneLogIsHeard(fs: FilterSet, q: LogQuery, log: Log, latest: nat, tx: Hash, block: Hash, trailing: Hash)
    requires 1 in fs.filters && fs.filters[1] == LogFilter(q, []) && Matches(q, log, latest)
    ensures var heard := NotifyAll(Notify(fs, NewPending(tx)), [NewLog(log, latest)]);
            var f := Notify(Notify(heard, NewBlock(block)), NewBlock(trailing)).filters;
            1 in f && f[1] == LogFilter(q, [log])
  {
    var pending := Notify(fs, NewPending(tx));
    assert [NewLog(log, latest)][1..] == [];
    assert NotifyAll(pending, [NewLog(log, latest)]) == NotifyAll(Notify(pending, NewLog(log, latest)), []);
  }

  /** The node after a transaction with one event. */
  function Heard(): Option<Node> {
    CommitTx(Listening(), SOME_TX, Emitting())
  }

  function HeardLog(): Log {
    MakeLog(SOME_EVENT, 0, TxBlock(Listening(), SOME_TX.hash, NextContext(Listening())), SOME_TX.hash)
  }

  lemma CommitIsHeard()
    requires Heard().Some?
    ensures var fs := Heard().value.filters.filters;
            1 in fs && fs[1] == LogFilter(DEFAULT_QUERY, [HeardLog()])
  {
    var b1 := TxBlock(Listening(), SOME_TX.hash, NextContext(Listening()));
    var b2 := TrailingBlock(NextContext(Listening()), b1);
    CommitFilters(Listening(), SOME_TX, Emitting());
    assert LogEvents(MakeLogs(Emitting().events, b1, SOME_TX.hash), b1.number) == [NewLog(HeardLog(), b1.number)];
    OneLogIsHeard(Listening().filters, DEFAULT_QUERY, HeardLog(), b1.number, SOME_TX.hash, b1.hash, b2.hash);
  }

  /** Sending the transaction is the second call. */
  lemma CommitIsDone()
    ensures Admissible(Sys(Listening(), []), SendTx(SOME_TX, Emitting())) && Heard().Some?
    ensures Step(Sys(Listening(), []), SendTx(SOME_TX, Emitting())) == Done(Sys(Heard().value, []), Accepted)
  {
    ListeningIsReached();
    ContractsCanBeMet(Listening());
    PanicExactly(Sys(Listening(), []), SendTx(SOME_TX, Emitting()));
  }

  lemma NothingBelowHead(n: Node)
    requires ReceiptsBelowHead(n)
    ensures QueryLogs(n, DEFAULT_QUERY) == {}
  {
  }

  lemma HeardQueriesNothing()
    requires Heard().Some?
    ensures QueryLogs(Heard().value, DEFAULT_QUERY) == {}
  {
    CommitIsDone();
    SendTxKeepsReceiptsBelow(Sys(Listening(), []), SOME_TX, Emitting());
    NothingBelowHead(Heard().value);
  }

  lemma PollOfOneLog(n: Node, q: LogQuery, log: Log)
    requires 1 in n.filters.filters && n.filters.filters[1] == LogFilter(q, [log])
    ensures Step(Sys(n, []), FilterChanges(1)).reply == Polled(Logs([log]))
  {
  }

  /** A concrete filter whose poll returns a log that a query of the same filter does not: it is installed
      without conditions on a fresh node (`ListeningIsReached`), and one transaction emits one event
      (`CommitIsDone`). */
  lemma DefaultFilterPollsWhatItCannotQuery()
    ensures Heard().Some?
    ensures Step(Sys(Heard().value, []), FilterChanges(1)).reply == Polled(Logs([HeardLog()]))
    ensures QueryLogs(Heard().value, DEFAULT_QUERY) == {}
  {
    CommitIsDone();
    CommitIsHeard();
    PollOfOneLog(Heard().value, DEFAULT_QUERY, HeardLog());
    HeardQueriesNothing();
  }
}
