/** What every stored block says: its number, hash, batch, time and transaction are those of the moment
    it became the head. */
module Blocks {
  import opened Base
  import opened LocalStorage
  import opened ForkedStorage
  import opened Views
  import opened NodeModel
  import opened Coupling
  import opened Chain
  import opened Runs
  import opened Ledgers

  /** The moment a block became the head: the node's batch and time, and the transaction it was for. */
  datatype Stamp = Stamp(batch: nat, time: nat, tx: Option<Hash>)

  /** The block under `number` carries the stamp. */
  predicate Carries(c: Chain, number: nat, s: Stamp) {
    && number in c.hashes
    && c.hashes[number] == ComputeHash(number, if s.tx.Some? then s.tx.value else ZERO_HASH)
    && c.hashes[number] in c.blocks
    && var b := c.blocks[c.hashes[number]];
       && b.hash == c.hashes[number] && b.number == number
       && b.batch == s.batch && b.timestamp == s.time
       && b.transactions == if s.tx.Some? then [s.tx.value] else []
  }

  predicate CarriesAt(c: Chain, stamps: seq<Stamp>, i: nat)
    requires i < |stamps|
  {
    Carries(c, c.base + 1 + i, stamps[i])
  }

  /** The blocks after the first one carry the stamps, in order, and there are no others. */
  ghost predicate Stamped(c: Chain, stamps: seq<Stamp>) {
    && c.height == c.base + |stamps|
    && forall i {:trigger CarriesAt(c, stamps, i)} :: 0 <= i < |stamps| ==> CarriesAt(c, stamps, i)
  }

  /** A trailing block shares the batch of the transaction block before it, any other block opens the next
      batch. */
  predicate Follows(stamps: seq<Stamp>, i: nat)
    requires 0 < i < |stamps|
  {
    stamps[i].batch == stamps[i - 1].batch + if stamps[i - 1].tx.Some? then 0 else 1
  }

  /** Batches are numbered without gaps, and the newest batch is the node's. */
  ghost predicate InOrder(first: nat, stamps: seq<Stamp>, batch: nat) {
    && (stamps == [] ==> batch == first)
    && (stamps != [] ==>
          && stamps[0].batch == first + 1
          && batch == stamps[|stamps| - 1].batch && stamps[|stamps| - 1].tx.None?)
    && forall i {:trigger Follows(stamps, i)} :: 0 < i < |stamps| ==> Follows(stamps, i)
  }

  function FirstBatch(n: Node): nat {
    if n.store.contents.fork.Some? then n.store.contents.fork.value.batch else 0
  }

  /** The chain is as the stamps tell, and its batches lead up to the node's. */
  ghost predicate Chronicled(n: Node, stamps: seq<Stamp>) {
    Stamped(ChainOf(n), stamps) && InOrder(FirstBatch(n), stamps, n.batch)
  }

  /* ---------- what the calls add ---------- */

  /** `count` empty blocks, each in a batch of its own, `interval` apart. */
  function MinedStamps(batch: nat, time: nat, interval: nat, count: nat): seq<Stamp>
    decreases count
  {
    if count == 0 then []
    else [Stamp(batch, time, None)] + MinedStamps(batch + 1, time + interval, interval, count - 1)
  }

  /** The stamps of a committed transaction: the next two seconds of the node's clock. */
  function TxStamps(n: Node, tx: Hash): seq<Stamp> {
    [Stamp(n.batch + 1, n.timestamp + 1, Some(tx)), Stamp(n.batch + 1, n.timestamp + 2, None)]
  }

  /** The stamps of the blocks that a call appends; mining starts right after the latest time known. */
  function NewStamps(n: Node, op: Op): seq<Stamp> {
    match op
    case SendTx(tx, _) =>
      if Commits(n, op) then TxStamps(n, tx.hash) else []
    case MineBlocks(interval, scripts) => MinedStamps(n.batch + 1, LatestTime(n) + 1, interval, |scripts|)
    case _ => []
  }

  lemma GrowStamps(c: Chain, b: Block, stamps: seq<Stamp>, s: Stamp)
    requires WellLinked(c) && Fits(c, b) && Stamped(c, stamps)
    requires b.hash == ComputeHash(b.number, if s.tx.Some? then s.tx.value else ZERO_HASH)
    requires b.batch == s.batch && b.timestamp == s.time
    requires b.transactions == if s.tx.Some? then [s.tx.value] else []
    ensures Stamped(Grow(c, b), stamps + [s])
  {
    var more := stamps + [s];
    forall i | 0 <= i < |more|
      ensures CarriesAt(Grow(c, b), more, i)
    {
      if i < |stamps| {
        assert CarriesAt(c, stamps, i);
        GrowFrame(c, b, c.base + 1 + i);
      }
    }
  }

  lemma TwoStamps(c: Chain, b1: Block, b2: Block, stamps: seq<Stamp>, tx: Hash)
    requires WellLinked(c) && Fits(c, b1) && WellLinked(Grow(c, b1)) && Fits(Grow(c, b1), b2) && Stamped(c, stamps)
    requires b1.hash == ComputeHash(b1.number, tx) && b1.transactions == [tx]
    requires b2.hash == ComputeHash(b2.number, ZERO_HASH) && b2.transactions == []
    ensures Stamped(Grow(Grow(c, b1), b2),
                    stamps + [Stamp(b1.batch, b1.timestamp, Some(tx)), Stamp(b2.batch, b2.timestamp, None)])
  {
    var s1, s2 := Stamp(b1.batch, b1.timestamp, Some(tx)), Stamp(b2.batch, b2.timestamp, None);
    GrowStamps(c, b1, stamps, s1);
    GrowStamps(Grow(c, b1), b2, stamps + [s1], s2);
    assert stamps + [s1] + [s2] == stamps + [s1, s2];
  }

  /** The two blocks of a commit, field by field. */
  lemma BlocksOfCommit(n: Node, tx: Tx, run: VmRun)
    requires HasRoom(n) && CommitTx(n, tx, run).Some?
    ensures var b1 := TxBlock(n, tx.hash, NextContext(n));
            var b2 := TrailingBlock(NextContext(n), b1);
            && b1.hash == ComputeHash(b1.number, tx.hash) && b1.transactions == [tx.hash]
            && b2.hash == ComputeHash(b2.number, ZERO_HASH) && b2.transactions == []
            && [Stamp(b1.batch, b1.timestamp, Some(tx.hash)), Stamp(b2.batch, b2.timestamp, None)]
               == TxStamps(n, tx.hash)
  {
    CommitCounters(n, tx, run);
  }

  lemma CommitStamps(n: Node, tx: Tx, run: VmRun, stamps: seq<Stamp>)
    requires Sealed(ChainOf(n)) && HasRoom(n) && CommitTx(n, tx, run).Some? && Stamped(ChainOf(n), stamps)
    ensures Stamped(ChainOf(CommitTx(n, tx, run).value), stamps + TxStamps(n, tx.hash))
  {
    var c := ChainOf(n);
    var b1 := TxBlock(n, tx.hash, NextContext(n));
    CommitGrows(n, tx, run);
    CommitKeepsChain(n, tx, run);
    BlocksOfCommit(n, tx, run);
    assert Fits(c, b1) && WellLinked(Grow(c, b1));
    TwoStamps(c, b1, TrailingBlock(NextContext(n), b1), stamps, tx.hash);
  }

  /** The newest block after one mined block carries the node's own batch and time. */
  lemma MineOneStamps(n: Node, first: bool, interval: U64, script: seq<Access>, stamps: seq<Stamp>)
    requires Sealed(ChainOf(n)) && NumbersAgree(n) && HasRoom(n) && Stamped(ChainOf(n), stamps)
    ensures var n' := MineOne(n, first, interval, script);
            Stamped(ChainOf(n'), stamps + [Stamp(n'.batch, n'.timestamp, None)])
  {
    var n' := MineOne(n, first, interval, script);
    NextContextAgrees(n);
    MineOneKeepsChain(n, first, interval, script);
    var b: Block :| b.transactions == [] && Fits(ChainOf(n), b) && ChainOf(n') == Grow(ChainOf(n), b);
    assert b == n'.blocks[n'.blockHashes[n'.miniblock]];
    GrowStamps(ChainOf(n), b, stamps, Stamp(n'.batch, n'.timestamp, None));
  }

  /** A mined block opens the next batch; the first one of a call comes right after the latest time known,
      any other one an interval after the clock. */
  lemma MineOneMoment(n: Node, first: bool, interval: U64, script: seq<Access>)
    requires Coherent(n.store) && NumbersAgree(n) && HasRoom(n) && EmptyContract(n, script)
    requires first || n.timestamp + interval <= U64_MAX
    ensures var n' := MineOne(n, first, interval, script);
            && Coherent(n'.store) && NumbersAgree(n') && n'.batch == n.batch + 1
            && n'.timestamp == if first then LatestTime(n) + 1 else n.timestamp + interval
  {
    NextContextAgrees(n);
    MineOneCouples(n, first, interval, script);
  }

  lemma AppendOne<T>(done: seq<T>, next: T, rest: seq<T>)
    ensures (done + [next]) + rest == done + ([next] + rest)
    ensures done + [] == done
  {
  }

  lemma OneInOrder(first: nat, stamps: seq<Stamp>, batch: nat, s: Stamp)
    requires InOrder(first, stamps, batch) && s.batch == batch + 1 && s.tx.None?
    ensures InOrder(first, stamps + [s], s.batch)
  {
    var more := stamps + [s];
    forall i | 0 < i < |more|
      ensures Follows(more, i)
    {
      if i < |stamps| {
        assert Follows(stamps, i);
      }
    }
  }

  lemma CommitInOrder(first: nat, stamps: seq<Stamp>, n: Node, tx: Hash)
    requires InOrder(first, stamps, n.batch)
    ensures InOrder(first, stamps + TxStamps(n, tx), n.batch + 1)
  {
    var more := stamps + TxStamps(n, tx);
    forall i | 0 < i < |more|
      ensures Follows(more, i)
    {
      if i < |stamps| {
        assert Follows(stamps, i);
      }
    }
  }

  lemma CommitChronicles(n: Node, tx: Tx, run: VmRun, stamps: seq<Stamp>)
    requires Sealed(ChainOf(n)) && HasRoom(n) && CommitTx(n, tx, run).Some? && Chronicled(n, stamps)
    ensures Chronicled(CommitTx(n, tx, run).value, stamps + TxStamps(n, tx.hash))
  {
    CommitStamps(n, tx, run, stamps);
    CommitBatch(n, tx, run);
    CommitInOrder(FirstBatch(n), stamps, n, tx.hash);
  }

  lemma CommitBatch(n: Node, tx: Tx, run: VmRun)
    requires HasRoom(n) && CommitTx(n, tx, run).Some?
    ensures CommitTx(n, tx, run).value.batch == n.batch + 1
    ensures FirstBatch(CommitTx(n, tx, run).value) == FirstBatch(n)
  {
    RunKeepsFork(n.store, run.script);
    CommitCounters(n, tx, run);
  }

  lemma AsideChronicles(n: Node, n': Node, stamps: seq<Stamp>)
    requires Chronicled(n, stamps) && SameRecords(n, n')
    ensures Chronicled(n', stamps + [])
  {
    AppendOne(stamps, Stamp(0, 0, None), []);
  }

  lemma SendTxChronicles(sys: Sys, tx: Tx, run: VmRun, stamps: seq<Stamp>)
    requires Good(sys.node) && Admissible(sys, SendTx(tx, run)) && SendTxStep(sys, tx, run).Done?
    requires Chronicled(sys.node, stamps)
    ensures Chronicled(SendTxStep(sys, tx, run).sys.node, stamps + NewStamps(sys.node, SendTx(tx, run)))
  {
    if Commits(sys.node, SendTx(tx, run)) {
      CommitChronicles(sys.node, tx, run, stamps);
    } else {
      UncommittedIsAside(sys, tx, run);
      AsideChronicles(sys.node, SendTxStep(sys, tx, run).sys.node, stamps);
    }
  }

  lemma MineOneChronicles(n: Node, first: bool, interval: U64, script: seq<Access>, stamps: seq<Stamp>, n': Node)
    requires Good(n) && Chronicled(n, stamps) && HasRoom(n) && EmptyContract(n, script)
    requires n' == MineOne(n, first, interval, script)
    requires first || n.timestamp + interval <= U64_MAX
    ensures Chronicled(n', stamps + [Stamp(n'.batch, n'.timestamp, None)])
  {
    assert n'.batch == n.batch + 1 by {
      MineOneMoment(n, first, interval, script);
    }
    assert FirstBatch(n') == FirstBatch(n) by {
      RunKeepsFork(n.store, script);
    }
    OneInOrder(FirstBatch(n), stamps, n.batch, Stamp(n'.batch, n'.timestamp, None));
    MineOneStamps(n, first, interval, script, stamps);
  }

  /** What the node itself has as batch and time after each block of a mining call. */
  function MiningStamps(n: Node, first: bool, interval: U64, scripts: seq<seq<Access>>): seq<Stamp>
    decreases |scripts|
  {
    if scripts == [] then []
    else
      var n' := MineOne(n, first, interval, scripts[0]);
      [Stamp(n'.batch, n'.timestamp, None)] + MiningStamps(n', false, interval, scripts[1..])
  }

  lemma {:induction false} MineChronicles(n: Node, first: bool, interval: U64, scripts: seq<seq<Access>>,
                                          stamps: seq<Stamp>)
    requires Good(n) && Chronicled(n, stamps) && MineOk(n, first, interval, scripts)
    ensures Chronicled(Mine(n, first, interval, scripts), stamps + MiningStamps(n, first, interval, scripts))
    decreases |scripts|
  {
    if scripts == [] {
      AppendOne(stamps, Stamp(0, 0, None), []);
    } else {
      var n' := MineOne(n, first, interval, scripts[0]);
      var s := Stamp(n'.batch, n'.timestamp, None);
      MineOneIsGood(n, first, interval, scripts[0]);
      MineOneChronicles(n, first, interval, scripts[0], stamps, n');
      MineChronicles(n', false, interval, scripts[1..], stamps + [s]);
      AppendOne(stamps, s, MiningStamps(n', false, interval, scripts[1..]));
    }
  }

  /** One stamp for each next batch, an interval apart. */
  predicate Spaced(stamps: seq<Stamp>, batch: nat, time: nat, interval: nat) {
    stamps != [] ==> stamps[0] == Stamp(batch, time, None) && Spaced(stamps[1..], batch + 1, time + interval, interval)
  }

  lemma ConsSpaced(batch: nat, time: nat, interval: nat, rest: seq<Stamp>)
    requires Spaced(rest, batch + 1, time + interval, interval)
    ensures Spaced([Stamp(batch, time, None)] + rest, batch, time, interval)
  {
    assert ([Stamp(batch, time, None)] + rest)[1..] == rest;
  }

  lemma {:induction false} SpacedExactly(stamps: seq<Stamp>, batch: nat, time: nat, interval: nat)
    requires Spaced(stamps, batch, time, interval)
    ensures stamps == MinedStamps(batch, time, interval, |stamps|)
    decreases |stamps|
  {
    if stamps != [] {
      SpacedExactly(stamps[1..], batch + 1, time + interval, interval);
    }
  }

  lemma {:induction false} MiningIsSpaced(n: Node, first: bool, interval: U64, scripts: seq<seq<Access>>,
                                          batch: nat, time: nat)
    requires Good(n) && MineOk(n, first, interval, scripts)
    requires batch == n.batch + 1 && time == if first then LatestTime(n) + 1 else n.timestamp + interval
    ensures Spaced(MiningStamps(n, first, interval, scripts), batch, time, interval)
    ensures |MiningStamps(n, first, interval, scripts)| == |scripts|
    decreases |scripts|
  {
    if scripts != [] {
      var n' := MineOne(n, first, interval, scripts[0]);
      MineOneIsGood(n, first, interval, scripts[0]);
      MineOneMoment(n, first, interval, scripts[0]);
      MiningIsSpaced(n', false, interval, scripts[1..], batch + 1, time + interval);
      ConsSpaced(batch, time, interval, MiningStamps(n', false, interval, scripts[1..]));
    }
  }

  /** The stored blocks of a mining call open one batch each, start right after the latest time known and
      are an interval apart. */
  lemma MinedAreSpaced(n: Node, interval: U64, scripts: seq<seq<Access>>, stamps: seq<Stamp>)
    requires Good(n) && Chronicled(n, stamps) && MineOk(n, true, interval, scripts)
    ensures Chronicled(Mine(n, true, interval, scripts),
                       stamps + MinedStamps(n.batch + 1, LatestTime(n) + 1, interval, |scripts|))
  {
    MineChronicles(n, true, interval, scripts, stamps);
    MiningIsSpaced(n, true, interval, scripts, n.batch + 1, LatestTime(n) + 1);
    SpacedExactly(MiningStamps(n, true, interval, scripts), n.batch + 1, LatestTime(n) + 1, interval);
  }

  lemma MineBlocksChronicles(sys: Sys, op: Op, stamps: seq<Stamp>)
    requires Good(sys.node) && Admissible(sys, op) && Step(sys, op).Done? && op.MineBlocks?
    requires Chronicled(sys.node, stamps)
    ensures Chronicled(Step(sys, op).sys.node, stamps + NewStamps(sys.node, op))
  {
    MinedAreSpaced(sys.node, op.interval, op.scripts, stamps);
  }

  lemma LocalChronicles(n: Node, op: Op, stamps: seq<Stamp>)
    requires Local(op) && Coherent(n.store) && Chronicled(n, stamps)
    ensures Chronicled(LocalStep(n, op).0, stamps + NewStamps(n, op))
  {
    LocalIsAside(n, op);
    AsideChronicles(n, LocalStep(n, op).0, stamps);
  }

  lemma StepChronicles(sys: Sys, op: Op, stamps: seq<Stamp>)
    requires Good(sys.node) && Admissible(sys, op) && Step(sys, op).Done? && IsOrdinary(op)
    requires Chronicled(sys.node, stamps)
    ensures Chronicled(Step(sys, op).sys.node, stamps + NewStamps(sys.node, op))
  {
    match op
    case SendTx(tx, run) => SendTxChronicles(sys, tx, run, stamps);
    case MineBlocks(_, _) => MineBlocksChronicles(sys, op, stamps);
    case _ => LocalChronicles(sys.node, op, stamps);
  }

  lemma NewNodeIsChronicled(fork: Option<Fork>, genesis: InMemoryStorage, gasPrice: nat, wallets: seq<Address>)
    ensures Chronicled(EnrichAll(NewNode(fork, genesis, gasPrice), wallets), [])
  {
    EnrichAllAside(NewNode(fork, genesis, gasPrice), wallets);
  }

  /* ---------- over whole runs ---------- */

  /** The stamps of all blocks of the present chain after a list of calls. */
  function Chronicle(sys: Sys, ops: seq<Op>, l: Ledger<seq<Stamp>>): Ledger<seq<Stamp>>
    decreases |ops|
  {
    if ops == [] || Step(sys, ops[0]).Panic? then l
    else
      Chronicle(Step(sys, ops[0]).sys, ops[1..], Turn(sys, ops[0], l, l.now + NewStamps(sys.node, ops[0]), []))
  }

  lemma CallChronicles(sys: Sys, op: Op, l: Ledger<seq<Stamp>>)
    requires GoodSys(sys) && Kept((n, s) => Chronicled(n, s), sys, 0, l)
    requires Admissible(sys, op) && Step(sys, op).Done?
    ensures Kept((n, s) => Chronicled(n, s), Step(sys, op).sys, 0,
                 Turn(sys, op, l, l.now + NewStamps(sys.node, op), []))
  {
    if IsOrdinary(op) {
      StepChronicles(sys, op, l.now);
    } else if op.Reset? {
      NewNodeIsChronicled(op.fork, op.genesis, sys.node.gasPrice, op.wallets);
    }
    TurnKeeps((n, s) => Chronicled(n, s), sys, op, 0, l, l.now + NewStamps(sys.node, op), []);
  }

  lemma {:induction false} RunChronicles(sys: Sys, ops: seq<Op>, l: Ledger<seq<Stamp>>)
    requires GoodSys(sys) && Kept((n, s) => Chronicled(n, s), sys, 0, l)
    requires AdmissibleRun(sys, ops) && Run(sys, ops).Some?
    ensures Kept((n, s) => Chronicled(n, s), Run(sys, ops).value, 0, Chronicle(sys, ops, l))
    decreases |ops|
  {
    if ops != [] {
      CallChronicles(sys, ops[0], l);
      StepKeepsGoodSys(sys, ops[0]);
      RunChronicles(Step(sys, ops[0]).sys, ops[1..],
                    Turn(sys, ops[0], l, l.now + NewStamps(sys.node, ops[0]), []));
    }
  }

  /** Every block tells its own story. After any calls on a fresh node the stored blocks after the first
      one are those of the calls that were not undone, in order: the block of a transaction has its hash,
      and batch and time one above the node's own at that moment; its trailing block shares the batch and
      comes a second later; mined blocks count batches on, start right after the latest time known and
      go on in steps of the interval. */
  lemma EveryBlockTellsItsStory(fork: Option<Fork>, genesis: InMemoryStorage, gasPrice: nat, ops: seq<Op>, last: Sys)
    requires StartFits(fork, genesis) && AdmissibleRun(Start(fork, genesis, gasPrice), ops)
    requires Run(Start(fork, genesis, gasPrice), ops) == Some(last)
    ensures Stamped(ChainOf(last.node), Chronicle(Start(fork, genesis, gasPrice), ops, Ledger([], [])).now)
    ensures InOrder(FirstBatch(last.node), Chronicle(Start(fork, genesis, gasPrice), ops, Ledger([], [])).now,
                    last.node.batch)
  {
    StartIsGood(fork, genesis, gasPrice);
    RunChronicles(Start(fork, genesis, gasPrice), ops, Ledger([], []));
  }

  /** So batch numbers never fall along a chain: they grow by one except at a trailing block. */
  lemma BatchesNeverFall(n: Node, stamps: seq<Stamp>, number: nat)
    requires Chronicled(n, stamps) && ChainOf(n).base < number <= n.miniblock
    ensures number in n.blockHashes && n.blockHashes[number] in n.blocks
    ensures number == ChainOf(n).base + 1 ==> n.blocks[n.blockHashes[number]].batch == FirstBatch(n) + 1
    ensures number > ChainOf(n).base + 1 ==>
              && number - 1 in n.blockHashes && n.blockHashes[number - 1] in n.blocks
              && var before, b := n.blocks[n.blockHashes[number - 1]], n.blocks[n.blockHashes[number]];
                 b.batch == before.batch + if before.transactions != [] then 0 else 1
    ensures n.miniblock in n.blockHashes && n.blockHashes[n.miniblock] in n.blocks
    ensures n.blocks[n.blockHashes[n.miniblock]].batch == n.batch
  {
    var base := ChainOf(n).base;
    assert CarriesAt(ChainOf(n), stamps, number - base - 1);
    assert CarriesAt(ChainOf(n), stamps, |stamps| - 1);
    if number > base + 1 {
      assert CarriesAt(ChainOf(n), stamps, number - base - 2);
      assert Follows(stamps, number - base - 1);
    }
  }

  /** Where the chain starts: without a fork at an empty block 0 of time 1000, over a fork at the remote
      block. */
  lemma StartOfChain(fork: Option<Fork>, genesis: InMemoryStorage, gasPrice: nat)
    requires ForkFits(fork)
    ensures var n := NewNode(fork, genesis, gasPrice);
            match fork
            case Some(f) =>
              && n.miniblock == f.miniblock && n.batch == f.batch && n.timestamp == f.timestamp
              && n.blockHashes == map[f.miniblock := f.miniblockHash] && n.blocks == map[f.miniblockHash := f.block]
            case None =>
              && n.miniblock == 0 && n.batch == 0 && n.timestamp == 1_000 && n.blockHashes.Keys == {0}
              && n.blockHashes[0] in n.blocks
              && var b := n.blocks[n.blockHashes[0]];
                 && b.number == 0 && b.batch == 0 && b.timestamp == 1_000 && b.transactions == []
                 && b.hash == n.blockHashes[0] && b.parentHash == Opaque(0)
  {
  }

  lemma TxBlockIsStored(n: Node, tx: Tx, run: VmRun)
    requires Sealed(ChainOf(n)) && HasRoom(n) && CommitTx(n, tx, run).Some?
    ensures var n' := CommitTx(n, tx, run).value;
            && n.miniblock in n.blockHashes && n.miniblock in n'.blockHashes && n.miniblock + 1 in n'.blockHashes
            && n'.blockHashes[n.miniblock] == n.blockHashes[n.miniblock]
            && n'.blockHashes[n.miniblock + 1] in n'.blocks
            && n'.blocks[n'.blockHashes[n.miniblock + 1]] == TxBlock(n, tx.hash, NextContext(n))
  {
    var c, b1 := ChainOf(n), TxBlock(n, tx.hash, NextContext(n));
    CommitGrows(n, tx, run);
    CommitKeepsChain(n, tx, run);
    CommitCounters(n, tx, run);
    GrowFrame(c, b1, c.height);
    GrowFrame(Grow(c, b1), TrailingBlock(NextContext(n), b1), c.height);
    GrowFrame(Grow(c, b1), TrailingBlock(NextContext(n), b1), b1.number);
  }

  /** The first transaction continues it. */
  lemma FirstTxContinuesTheStart(fork: Option<Fork>, genesis: InMemoryStorage, gasPrice: nat, tx: Tx, run: VmRun,
                                 n: Node, number: nat)
    requires ForkFits(fork) && HasRoom(NewNode(fork, genesis, gasPrice))
    requires CommitTx(NewNode(fork, genesis, gasPrice), tx, run) == Some(n)
    requires number == NewNode(fork, genesis, gasPrice).miniblock
    ensures n.miniblock == number + 2 && number in n.blockHashes
    ensures number + 1 in n.blockHashes && n.blockHashes[number + 1] in n.blocks
    ensures n.blocks[n.blockHashes[number + 1]].parentHash == n.blockHashes[number]
    ensures n.blocks[n.blockHashes[number + 1]].batch == FirstBatch(NewNode(fork, genesis, gasPrice)) + 1
    ensures n.blocks[n.blockHashes[number + 1]].timestamp == (if fork.Some? then fork.value.timestamp else 1_000) + 1
  {
    var start := NewNode(fork, genesis, gasPrice);
    NewNodeIsSealed(fork, genesis, gasPrice);
    StartOfChain(fork, genesis, gasPrice);
    TxBlockIsStored(start, tx, run);
    CommitCounters(start, tx, run);
  }
}
