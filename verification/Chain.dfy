/** The stored chain: one block per number, each under its own hash and linked to its predecessor. */
module Chain {
  import opened Base
  import opened LocalStorage
  import opened ForkedStorage
  import opened Views
  import opened NodeModel
  import opened Coupling

  /** The part of a node that makes up its chain, with the block it started from. */
  datatype Chain = Chain(base: nat, baseHash: Hash, height: nat, hashes: map<nat, Hash>, blocks: map<Hash, Block>)

  function ChainOf(n: Node): Chain {
    var fork := n.store.contents.fork;
    Chain(if fork.Some? then fork.value.miniblock else 0,
          if fork.Some? then fork.value.block.hash else ComputeHash(0, ZERO_HASH),
          n.miniblock, n.blockHashes, n.blocks)
  }

  predicate Holds(c: Chain, i: nat) {
    && i in c.hashes
    && c.hashes[i] in c.blocks
    && c.blocks[c.hashes[i]].number == i
    && c.blocks[c.hashes[i]].hash == c.hashes[i]
  }

  predicate IsTx(c: Chain, i: nat) {
    Holds(c, i) && c.blocks[c.hashes[i]].transactions != []
  }

  /** The parent hash that block `i` must carry. Mining guesses its parent; over a fork the first
      guess names a block the remote chain need not have. */
  function ParentOf(c: Chain, i: nat): Hash
    requires i > 0 && i - 1 in c.hashes
  {
    if i == c.base + 1 && !IsTx(c, i) then ComputeHash(c.base, ZERO_HASH) else c.hashes[i - 1]
  }

  /** Block `i` is in place: stored under its own hash, linked, and not a second transaction block in
      a row. */
  ghost predicate Sound(c: Chain, i: nat) {
    && Holds(c, i)
    && (i == c.base ==> c.hashes[i] == c.baseHash)
    && (i > c.base ==>
          && c.hashes[i].Digest? && c.hashes[i].number == i
          && i - 1 in c.hashes
          && c.blocks[c.hashes[i]].parentHash == ParentOf(c, i))
    && (i > c.base + 1 && IsTx(c, i) ==> !IsTx(c, i - 1))
  }

  /** Every number from the base to the head is in place, and nothing else is stored. */
  ghost predicate WellLinked(c: Chain) {
    && c.base <= c.height
    && (c.baseHash.Digest? ==> c.baseHash.number <= c.base)
    && (forall i: nat {:trigger Sound(c, i)} :: c.base <= i <= c.height ==> Sound(c, i))
    && (forall i: nat :: i in c.hashes <==> c.base <= i <= c.height)
    && (forall h :: h in c.blocks ==> c.blocks[h].number in c.hashes && c.hashes[c.blocks[h].number] == h)
  }

  /** Between operations the newest block is an empty one, so its hash can be guessed. */
  ghost predicate Sealed(c: Chain) {
    && WellLinked(c)
    && (c.height > c.base ==> c.hashes[c.height] == ComputeHash(c.height, ZERO_HASH) && !IsTx(c, c.height))
  }

  function Grow(c: Chain, b: Block): Chain {
    c.(height := b.number, hashes := c.hashes[b.number := b.hash], blocks := c.blocks[b.hash := b])
  }

  /** `b` may follow the newest block of `c`. */
  ghost predicate Fits(c: Chain, b: Block) {
    && b.number == c.height + 1
    && b.hash.Digest? && b.hash.number == b.number
    && (b.transactions != [] ==> c.height == c.base || !IsTx(c, c.height))
    && c.height in c.hashes
    && b.parentHash == if b.number == c.base + 1 && b.transactions == [] then ComputeHash(c.base, ZERO_HASH)
                       else c.hashes[c.height]
  }

  /** A new block disturbs no older one: its hash is of a number nobody else has. */
  lemma GrowFrame(c: Chain, b: Block, i: nat)
    requires WellLinked(c) && Fits(c, b) && c.base <= i <= c.height
    ensures var c' := Grow(c, b);
            && Sound(c, i) && Holds(c', i)
            && c'.hashes[i] == c.hashes[i] && c'.blocks[c.hashes[i]] == c.blocks[c.hashes[i]]
            && (IsTx(c', i) <==> IsTx(c, i))
  {
    assert Sound(c, i);
    assert c.hashes[i] != b.hash;
  }

  lemma GrowKeepsSound(c: Chain, b: Block, i: nat)
    requires WellLinked(c) && Fits(c, b) && c.base <= i <= c.height
    ensures Sound(Grow(c, b), i)
  {
    GrowFrame(c, b, i);
    if i > c.base {
      GrowFrame(c, b, i - 1);
    }
  }

  lemma GrowAddsSound(c: Chain, b: Block)
    requires WellLinked(c) && Fits(c, b)
    ensures Sound(Grow(c, b), b.number)
    ensures IsTx(Grow(c, b), b.number) <==> b.transactions != []
  {
    var c' := Grow(c, b);
    GrowFrame(c, b, c.height);
    assert Holds(c', b.number);
    assert ParentOf(c', b.number) == b.parentHash;
  }

  lemma GrowKeepsLinks(c: Chain, b: Block)
    requires WellLinked(c) && Fits(c, b)
    ensures WellLinked(Grow(c, b))
    ensures IsTx(Grow(c, b), b.number) <==> b.transactions != []
  {
    var c' := Grow(c, b);
    GrowAddsSound(c, b);
    forall i: nat | c'.base <= i <= c'.height
      ensures Sound(c', i)
    {
      if i <= c.height {
        GrowKeepsSound(c, b, i);
      }
    }
    forall h | h in c'.blocks
      ensures c'.blocks[h].number in c'.hashes && c'.hashes[c'.blocks[h].number] == h
    {
      if h != b.hash {
        assert c.blocks[h].number in c.hashes && c.hashes[c.blocks[h].number] == h;
      }
    }
  }

  /* ---------- what the operations append ---------- */

  function MinedBlock(ctx: BlockContext): Block {
    CreateEmptyBlock(ctx.miniblock, ctx.timestamp, ctx.batch, None)
  }

  lemma CommitGrows(n: Node, tx: Tx, run: VmRun)
    requires HasRoom(n) && CommitTx(n, tx, run).Some?
    ensures var b1 := TxBlock(n, tx.hash, NextContext(n));
            var b2 := TrailingBlock(NextContext(n), b1);
            && ChainOf(CommitTx(n, tx, run).value) == Grow(Grow(ChainOf(n), b1), b2)
            && CommitTx(n, tx, run).value.headHash == b2.hash
  {
    RunKeepsFork(n.store, run.script);
    CommitCounters(n, tx, run);
  }

  /** No VM run and no flush installs or drops a fork. */
  lemma RunKeepsFork(store: Store, script: seq<Access>)
    ensures RunInView(store, script).store.contents == store.contents
  {
    ExecuteKeepsContents(Open(store), ENV_READS + script);
  }

  lemma {:induction false} ExecuteKeepsContents(x: Session, script: seq<Access>)
    ensures Execute(x, script).0.store.contents == x.store.contents
    decreases |script|
  {
    if script != [] {
      ExecuteKeepsContents(Perform(x, script[0]).0, script[1..]);
    }
  }

  lemma CommitKeepsChain(n: Node, tx: Tx, run: VmRun)
    requires Sealed(ChainOf(n)) && HasRoom(n) && CommitTx(n, tx, run).Some?
    ensures var c := ChainOf(n);
            var b1 := TxBlock(n, tx.hash, NextContext(n));
            var b2 := TrailingBlock(NextContext(n), b1);
            && Fits(c, b1) && WellLinked(Grow(c, b1)) && IsTx(Grow(c, b1), b1.number)
            && Fits(Grow(c, b1), b2)
            && Sealed(ChainOf(CommitTx(n, tx, run).value))
  {
    var c := ChainOf(n);
    var b1 := TxBlock(n, tx.hash, NextContext(n));
    var b2 := TrailingBlock(NextContext(n), b1);
    CommitGrows(n, tx, run);
    CommitCounters(n, tx, run);
    assert Sound(c, c.height);
    GrowKeepsLinks(c, b1);
    GrowKeepsLinks(Grow(c, b1), b2);
  }

  lemma MineOneKeepsChain(n: Node, first: bool, interval: U64, script: seq<Access>)
    requires Sealed(ChainOf(n)) && HasRoom(n) && NumbersAgree(n)
    ensures exists b: Block :: b.transactions == [] && Fits(ChainOf(n), b)
                        && ChainOf(MineOne(n, first, interval, script)) == Grow(ChainOf(n), b)
    ensures Sealed(ChainOf(MineOne(n, first, interval, script)))
    ensures MineOne(n, first, interval, script).headHash == n.headHash
    ensures MineOne(n, first, interval, script).archive == n.archive
  {
    NextContextAgrees(n);
    RunKeepsFork(n.store, script);
    var next := NextContext(n);
    var b := MinedBlock(if first then next else next.(timestamp := SatAdd(n.timestamp, interval, U64_MAX)));
    assert Sound(ChainOf(n), ChainOf(n).height);
    assert ChainOf(MineOne(n, first, interval, script)) == Grow(ChainOf(n), b);
    assert Fits(ChainOf(n), b);
    GrowKeepsLinks(ChainOf(n), b);
  }

  /* ---------- the start ---------- */

  /** The fork details describe one block. */
  predicate ForkFits(fork: Option<Fork>) {
    fork.Some? ==>
      && fork.value.block.number == fork.value.miniblock
      && fork.value.block.hash == fork.value.miniblockHash
      && (fork.value.block.hash.Digest? ==> fork.value.block.hash.number <= fork.value.miniblock)
  }

  lemma NewNodeIsSealed(fork: Option<Fork>, genesis: InMemoryStorage, gasPrice: nat)
    requires ForkFits(fork)
    ensures Sealed(ChainOf(NewNode(fork, genesis, gasPrice)))
  {
  }

  /* ---------- what a reader of the chain may rely on ---------- */

  /** Without a fork every block from the first to the head is stored under its own hash and names its
      predecessor. */
  lemma IntegrityWithoutFork(n: Node, i: nat)
    requires Sealed(ChainOf(n)) && n.store.contents.fork.None? && i <= n.miniblock
    ensures i in n.blockHashes && n.blockHashes[i] in n.blocks
    ensures n.blocks[n.blockHashes[i]].number == i && n.blocks[n.blockHashes[i]].hash == n.blockHashes[i]
    ensures i > 0 ==>
              && i - 1 in n.blockHashes && n.blockHashes[i - 1] in n.blocks
              && n.blocks[n.blockHashes[i]].parentHash == n.blocks[n.blockHashes[i - 1]].hash
  {
    var c := ChainOf(n);
    assert Sound(c, i);
    if i > 0 {
      assert Sound(c, i - 1);
    }
  }

  /** Over a fork a link is broken exactly when the first local block was mined and the fork block's
      hash is not the one that mining guesses. */
  lemma BrokenLinkOverFork(n: Node, i: nat)
    requires Sealed(ChainOf(n)) && ChainOf(n).base < i <= n.miniblock
    ensures i in n.blockHashes && n.blockHashes[i] in n.blocks && i - 1 in n.blockHashes
    ensures n.blocks[n.blockHashes[i]].parentHash != n.blockHashes[i - 1]
       <==> && i == ChainOf(n).base + 1
            && n.blocks[n.blockHashes[i]].transactions == []
            && ChainOf(n).baseHash != ComputeHash(ChainOf(n).base, ZERO_HASH)
  {
    var c := ChainOf(n);
    assert Sound(c, i) && Sound(c, i - 1);
  }
}
