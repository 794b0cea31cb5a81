/** What single calls give their clients: validation, resets, rich accounts, clock, filters, snapshots. */
module Calls {
  import opened Base
  import opened LocalStorage
  import opened ForkedStorage
  import opened Views
  import opened Filters
  import opened NodeModel
  import opened Coupling
  import opened Chain
  import opened Runs
  import opened SlotWrites
  import opened Ledgers
  import opened Blocks

  /* ---------- transactions ---------- */

  /** Limits within 64 bits, a fee that covers the gas price, and no more priority fee than fee. */
  predicate IsPayable(tx: Tx, gasPrice: nat) {
    && tx.gasLimit < 0x1_0000_0000_0000_0000 && tx.gasPerPubdata < 0x1_0000_0000_0000_0000
    && gasPrice <= tx.maxFee && tx.maxPriorityFee <= tx.maxFee
  }

  /** How a transaction is answered: refused without a trace if it is not payable, refused if its run halts
      or fails, and otherwise accepted and recorded, unless the node panics. */
  lemma TxIsAnswered(sys: Sys, tx: Tx, run: VmRun)
    ensures !IsPayable(tx, sys.node.gasPrice) ==> Step(sys, SendTx(tx, run)) == Done(sys, Refused)
    ensures IsPayable(tx, sys.node.gasPrice) && (run.result.Halt? || run.result.Failure?) ==>
              && Step(sys, SendTx(tx, run)).Done? && Step(sys, SendTx(tx, run)).reply == Refused
              && Step(sys, SendTx(tx, run)).sys.node.txResults == sys.node.txResults
              && Step(sys, SendTx(tx, run)).sys.node.blocks == sys.node.blocks
    ensures IsPayable(tx, sys.node.gasPrice) && (run.result.Success? || run.result.Revert?) ==>
              || Step(sys, SendTx(tx, run)).Panic?
              || (&& Step(sys, SendTx(tx, run)).reply == Accepted
                  && tx.hash in Step(sys, SendTx(tx, run)).sys.node.txResults)
  {
  }

  ghost predicate SameAccounts(n: Node, n': Node) {
    n'.gasPrice == n.gasPrice && n'.rich == n.rich && n'.impersonated == n.impersonated
  }

  lemma {:induction false} MineKeepsAccounts(n: Node, first: bool, interval: U64, scripts: seq<seq<Access>>)
    ensures SameAccounts(n, Mine(n, first, interval, scripts))
    decreases |scripts|
  {
    if scripts != [] {
      MineKeepsAccounts(MineOne(n, first, interval, scripts[0]), false, interval, scripts[1..]);
    }
  }

  /** Accounts that may act without a key, and accounts that were made rich. */
  datatype Accounts = Accounts(impersonated: set<Address>, rich: set<Address>)

  function WithCall(a: Accounts, op: Op): Accounts {
    match op
    case Impersonate(address) => a.(impersonated := a.impersonated + {address})
    case StopImpersonating(address) => a.(impersonated := a.impersonated - {address})
    case SetRich(address) => a.(rich := a.rich + {address})
    case _ => a
  }

  ghost predicate HasAccounts(n: Node, a: Accounts, gasPrice: nat) {
    n.impersonated == a.impersonated && n.rich == a.rich && n.gasPrice == gasPrice
  }

  lemma SendTxKeepsAccounts(sys: Sys, tx: Tx, run: VmRun)
    requires SendTxStep(sys, tx, run).Done?
    ensures SameAccounts(sys.node, SendTxStep(sys, tx, run).sys.node)
  {
  }

  lemma StepKeepsAccounts(sys: Sys, op: Op, a: Accounts, gasPrice: nat)
    requires Step(sys, op).Done? && IsOrdinary(op) && HasAccounts(sys.node, a, gasPrice)
    ensures HasAccounts(Step(sys, op).sys.node, WithCall(a, op), gasPrice)
  {
    match op
    case SendTx(tx, run) => SendTxKeepsAccounts(sys, tx, run);
    case MineBlocks(interval, scripts) => MineKeepsAccounts(sys.node, true, interval, scripts);
    case _ =>
  }

  function Addresses(wallets: seq<Address>): set<Address> {
    set w | w in wallets
  }

  function AfterReset(op: Op): Accounts {
    Accounts({}, if op.Reset? then Addresses(op.wallets) else {})
  }

  lemma {:induction false} WalletsAreRich(n: Node, wallets: seq<Address>)
    ensures var n' := EnrichAll(n, wallets);
            && n'.rich == n.rich + Addresses(wallets)
            && n'.impersonated == n.impersonated && n'.gasPrice == n.gasPrice
    decreases |wallets|
  {
    if wallets != [] {
      WalletsAreRich(Enrich(n, wallets[0]), wallets[1..]);
      assert forall w :: w in wallets <==> w == wallets[0] || w in wallets[1..];
    }
  }

  lemma CallKeepsAccounts(sys: Sys, op: Op, gasPrice: nat, l: Ledger<Accounts>)
    requires Kept((n, a) => HasAccounts(n, a, gasPrice), sys, 0, l) && Step(sys, op).Done?
    ensures Kept((n, a) => HasAccounts(n, a, gasPrice), Step(sys, op).sys, 0,
                 Turn(sys, op, l, WithCall(l.now, op), AfterReset(op)))
  {
    if IsOrdinary(op) {
      StepKeepsAccounts(sys, op, l.now, gasPrice);
    } else if op.Reset? {
      WalletsAreRich(NewNode(op.fork, op.genesis, sys.node.gasPrice), op.wallets);
      assert {} + Addresses(op.wallets) == Addresses(op.wallets);
    }
    TurnKeeps((n, a) => HasAccounts(n, a, gasPrice), sys, op, 0, l, WithCall(l.now, op), AfterReset(op));
  }

  function AccountsAfter(sys: Sys, ops: seq<Op>, l: Ledger<Accounts>): Ledger<Accounts>
    decreases |ops|
  {
    if ops == [] || Step(sys, ops[0]).Panic? then l
    else
      AccountsAfter(Step(sys, ops[0]).sys, ops[1..],
                    Turn(sys, ops[0], l, WithCall(l.now, ops[0]), AfterReset(ops[0])))
  }

  /** In every state, and in every snapshot, exactly those accounts are impersonated that were and were not
      stopped since, exactly those are rich that were made so, and the gas price is the one the node was
      started with, resets included. */
  lemma {:induction false} AccountsFollowTheCalls(sys: Sys, ops: seq<Op>, gasPrice: nat, l: Ledger<Accounts>)
    requires Kept((n, a) => HasAccounts(n, a, gasPrice), sys, 0, l) && Run(sys, ops).Some?
    ensures Kept((n, a) => HasAccounts(n, a, gasPrice), Run(sys, ops).value, 0, AccountsAfter(sys, ops, l))
    decreases |ops|
  {
    if ops != [] {
      var op := ops[0];
      CallKeepsAccounts(sys, op, gasPrice, l);
      AccountsFollowTheCalls(Step(sys, op).sys, ops[1..], gasPrice,
                             Turn(sys, op, l, WithCall(l.now, op), AfterReset(op)));
    }
  }

  /* ---------- rich accounts and resets ---------- */

  /** The slot of an account's balance, in the contract of the base token. */
  function BalanceSlot(address: Address): StorageKey {
    StorageKey(0x800a, address)
  }

  const TEN_TO_30: Word := 1_000_000_000_000_000_000_000_000_000_000

  /** A rich account has 10^30, and no other slot changes. */
  lemma RichAccountIsRich(sys: Sys, address: Address, key: StorageKey)
    requires Coherent(sys.node.store)
    ensures var n' := Step(sys, SetRich(address)).sys.node;
            && Overlay(n'.store.contents, BalanceSlot(address)) == TEN_TO_30
            && (key != BalanceSlot(address) ==>
                  Overlay(n'.store.contents, key) == Overlay(sys.node.store.contents, key))
  {
    SlotAfterEnrich(sys.node, address, BalanceSlot(address));
    SlotAfterEnrich(sys.node, address, key);
  }

  predicate IsBalanceOf(wallets: seq<Address>, key: StorageKey) {
    exists w :: w in wallets && key == BalanceSlot(w)
  }

  lemma {:induction false} WalletsHaveBalance(n: Node, wallets: seq<Address>, key: StorageKey)
    requires Coherent(n.store)
    ensures Overlay(EnrichAll(n, wallets).store.contents, key)
         == if IsBalanceOf(wallets, key) then TEN_TO_30 else Overlay(n.store.contents, key)
    decreases |wallets|
  {
    if wallets != [] {
      SlotAfterEnrich(n, wallets[0], key);
      EnrichAside(n, wallets[0]);
      WalletsHaveBalance(Enrich(n, wallets[0]), wallets[1..], key);
      assert forall w :: w in wallets <==> w == wallets[0] || w in wallets[1..];
      assert IsBalanceOf(wallets, key) <==> key == BalanceSlot(wallets[0]) || IsBalanceOf(wallets[1..], key);
    }
  }

  lemma ResetSlots(sys: Sys, fork: Option<Fork>, genesis: InMemoryStorage, wallets: seq<Address>, key: StorageKey)
    ensures var n := ResetStep(sys, fork, genesis, wallets).sys.node;
            && n.store.contents.fork == fork
            && Overlay(n.store.contents, key)
               == if IsBalanceOf(wallets, key) then TEN_TO_30 else Overlay(Contents(genesis, fork), key)
  {
    var start := NewNode(fork, genesis, sys.node.gasPrice);
    WalletsHaveBalance(start, wallets, key);
    EnrichAllAside(start, wallets);
  }

  lemma ResetRecords(sys: Sys, fork: Option<Fork>, genesis: InMemoryStorage, wallets: seq<Address>)
    ensures var n := ResetStep(sys, fork, genesis, wallets).sys.node;
            var start := NewNode(fork, genesis, sys.node.gasPrice);
            && ChainOf(n) == ChainOf(start) && n.batch == start.batch && n.timestamp == start.timestamp
            && n.txResults == map[] && n.filters == NO_FILTERS && n.archive == []
  {
    EnrichAllAside(NewNode(fork, genesis, sys.node.gasPrice), wallets);
  }

  /** What a reset leaves: the fork or genesis given, with 10^30 on each wallet and every other slot as
      there; the chain, batch and time of a fresh start; no receipts, filters, archived states or
      snapshots. */
  lemma ResetStartsOver(sys: Sys, fork: Option<Fork>, genesis: InMemoryStorage, wallets: seq<Address>, key: StorageKey,
                        n: Node)
    requires Step(sys, Reset(fork, genesis, wallets)).sys.node == n
    ensures Step(sys, Reset(fork, genesis, wallets)) == Done(Sys(n, []), Accepted)
    ensures n.store.contents.fork == fork
    ensures Overlay(n.store.contents, key)
         == if IsBalanceOf(wallets, key) then TEN_TO_30 else Overlay(Contents(genesis, fork), key)
    ensures var start := NewNode(fork, genesis, sys.node.gasPrice);
            ChainOf(n) == ChainOf(start) && n.batch == start.batch && n.timestamp == start.timestamp
    ensures n.txResults == map[] && n.filters == NO_FILTERS && n.archive == []
  {
    ResetSlots(sys, fork, genesis, wallets, key);
    ResetRecords(sys, fork, genesis, wallets);
  }

  /* ---------- the clock ---------- */

  /** Increasing the time by `delta` moves the clock by a thousand times as much, up to the last value it
      can hold; setting the next block's time only works for a later one; nothing else changes. */
  lemma ClockIsSet(sys: Sys, delta: U64, time: U64)
    ensures var n, moved := sys.node, Step(sys, IncreaseTime(delta)).sys;
            moved == sys.(node := n.(timestamp :=
              if n.timestamp + 1_000 * delta <= 0xFFFF_FFFF_FFFF_FFFF then n.timestamp + 1_000 * delta
              else 0xFFFF_FFFF_FFFF_FFFF))
    ensures Step(sys, SetNextBlockTimestamp(time))
         == if time <= sys.node.timestamp then Done(sys, Refused)
            else Done(sys.(node := sys.node.(timestamp := time - 1)), Accepted)
    ensures Step(sys, SetTime(time)) == Done(sys.(node := sys.node.(timestamp := time)), Accepted)
  {
  }

  /** The next block does get the time it was set to, on a node that is not behind its storage: the first
      block of the next mining call. */
  lemma NextMinedBlockHasTheTime(n: Node, time: U64, interval: U64, script: seq<Access>)
    requires Good(n) && TimeAhead(n) && n.timestamp < time && HasRoom(n.(timestamp := time - 1))
    ensures Step(Sys(n, []), SetNextBlockTimestamp(time)).sys.node == n.(timestamp := time - 1)
    ensures var mined := MineOne(n.(timestamp := time - 1), true, interval, script);
            && mined.miniblock == n.miniblock + 1 && mined.miniblock in mined.blockHashes
            && mined.blockHashes[mined.miniblock] in mined.blocks
            && mined.blocks[mined.blockHashes[mined.miniblock]].timestamp == time
  {
    NextContextAgrees(n.(timestamp := time - 1));
  }

  /** Or the block of the next transaction. */
  lemma NextTxBlockHasTheTime(n: Node, time: U64, tx: Tx, run: VmRun, n': Node)
    requires Good(n) && TimeAhead(n) && n.timestamp < time && HasRoom(n.(timestamp := time - 1))
    requires CommitTx(n.(timestamp := time - 1), tx, run) == Some(n')
    ensures Step(Sys(n, []), SetNextBlockTimestamp(time)).sys.node == n.(timestamp := time - 1)
    ensures && n.miniblock + 1 in n'.blockHashes && n'.blockHashes[n.miniblock + 1] in n'.blocks
            && n'.blocks[n'.blockHashes[n.miniblock + 1]].timestamp == time
  {
    var n1 := n.(timestamp := time - 1);
    LocalKeepsGood(n, SetNextBlockTimestamp(time));
    TxBlockIsStored(n1, tx, run);
    CommitCounters(n1, tx, run);
  }

  /* ---------- snapshots, mining and filters ---------- */

  /** At most a hundred snapshots are held; a mining call needs at least one block. */
  lemma LimitsAreKept(sys: Sys, interval: U64, scripts: seq<seq<Access>>)
    ensures |sys.snapshots| < 100 ==>
              && Step(sys, EvmSnapshot).reply == Reply.Number(|sys.snapshots| + 1)
              && Step(sys, EvmSnapshot).sys == sys.(snapshots := sys.snapshots + [TakeSnapshot(sys.node)])
    ensures |sys.snapshots| >= 100 ==> Step(sys, EvmSnapshot) == Done(sys, Refused)
    ensures Step(sys, MineBlocks(interval, scripts)).reply == if |scripts| == 0 then Refused else Accepted
    ensures |scripts| == 0 ==> Step(sys, MineBlocks(interval, scripts)).sys == sys
  {
  }

  /** What the filter calls answer: a new filter is empty and has the next id, a poll hands out what waits
      and leaves the filter empty, an unknown id is refused, and uninstalling tells whether it existed. */
  lemma FilterCallsAnswer(sys: Sys, filter: Filter, id: nat)
    ensures var fs := sys.node.filters;
            var installed, polled := Step(sys, NewFilter(filter)), Step(sys, FilterChanges(id));
            var removed := Step(sys, UninstallFilter(id));
            && (fs.idCounter < U256_MAX ==>
                  && installed.reply == Reply.Number(fs.idCounter + 1)
                  && fs.idCounter + 1 in installed.sys.node.filters.filters
                  && Waiting(installed.sys.node.filters.filters[fs.idCounter + 1]) == []
                  && SameKind(installed.sys.node.filters.filters[fs.idCounter + 1], filter))
            && (id !in fs.filters ==> polled == Done(sys, Refused))
            && (id in fs.filters ==>
                  && polled.reply.Polled? && Items(polled.reply.changes) == Waiting(fs.filters[id])
                  && polled.sys.node.filters.filters.Keys == fs.filters.Keys
                  && Waiting(polled.sys.node.filters.filters[id]) == [])
            && removed.reply == Removed(id in fs.filters)
            && removed.sys.node.filters.filters == fs.filters - {id}
  {
  }
}
