/** Pubdata accounting: what each storage write is shown to cost, given what its slot paid before. */
module Pubdata {
  import opened Base
  import opened NodeModel

  datatype LogKind = ReadLog | InitialWrite | RepeatedWrite

  datatype StorageLog = StorageLog(key: StorageKey, kind: LogKind, previous: Word, value: Word)

  /** The price list: how well a change of value compresses, and how many bytes name the slot. */
  datatype Tariff = Tariff(compressed: (Word, Word) -> nat, initialKeyBytes: nat, repeatedKeyBytes: nat)

  datatype BytesInfo = FreeSlot | Paid(cost: nat) | AdditionalPayment(extra: nat, total: nat) | PaidAlready

  const BOOTLOADER: Address := 0x8001

  predicate IsFree(key: StorageKey) {
    key.account == SYSTEM_CONTEXT || key == BalanceKey(BOOTLOADER)
  }

  predicate IsWrite(log: StorageLog) {
    !log.kind.ReadLog?
  }

  function Cost(t: Tariff, log: StorageLog): nat {
    (if log.kind.InitialWrite? then t.initialKeyBytes else t.repeatedKeyBytes) + t.compressed(log.previous, log.value)
  }

  /** Charges a write for what it costs beyond the last cost of its slot, and remembers its cost. */
  function Charge(t: Tariff, paid: map<StorageKey, nat>, log: StorageLog): (map<StorageKey, nat>, BytesInfo) {
    if IsFree(log.key) then (paid, FreeSlot)
    else
      var cost := Cost(t, log);
      var info :=
        if log.key !in paid then Paid(cost)
        else if cost > paid[log.key] then AdditionalPayment(cost - paid[log.key], cost)
        else PaidAlready;
      (paid[log.key := cost], info)
  }

  function ChargeAll(t: Tariff, paid: map<StorageKey, nat>, logs: seq<StorageLog>): seq<Option<BytesInfo>>
    decreases |logs|
  {
    if logs == [] then []
    else if IsWrite(logs[0]) then
      var (paid', info) := Charge(t, paid, logs[0]);
      [Some(info)] + ChargeAll(t, paid', logs[1..])
    else [None] + ChargeAll(t, paid, logs[1..])
  }

  method ComputeAndUpdatePubdataCost(t: Tariff, paid: map<StorageKey, nat>, log: StorageLog)
    returns (paid': map<StorageKey, nat>, info: BytesInfo)
    ensures (paid', info) == Charge(t, paid, log)
  {
    if IsFree(log.key) {
      return paid, FreeSlot;
    }
    var cost := Cost(t, log);
    if log.key in paid {
      var toPay := if cost >= paid[log.key] then cost - paid[log.key] else 0;
      info := if toPay > 0 then AdditionalPayment(toPay, cost) else PaidAlready;
    } else {
      info := Paid(cost);
    }
    paid' := paid[log.key := cost];
  }

  lemma Shift(done: seq<Option<BytesInfo>>, next: Option<BytesInfo>, rest: seq<Option<BytesInfo>>)
    ensures done + ([next] + rest) == (done + [next]) + rest
  {
  }

  /** The loop over the logs of one transaction; reads get no pubdata line. */
  method StorageLogsDetails(t: Tariff, logs: seq<StorageLog>) returns (infos: seq<Option<BytesInfo>>)
    ensures infos == ChargeAll(t, map[], logs)
  {
    var paid: map<StorageKey, nat> := map[];
    infos := [];
    for i := 0 to |logs|
      invariant infos + ChargeAll(t, paid, logs[i..]) == ChargeAll(t, map[], logs)
    {
      assert logs[i..][1..] == logs[i + 1..];
      if IsWrite(logs[i]) {
        var info;
        paid, info := ComputeAndUpdatePubdataCost(t, paid, logs[i]);
        Shift(infos, Some(info), ChargeAll(t, paid, logs[i + 1..]));
        infos := infos + [Some(info)];
      } else {
        Shift(infos, None, ChargeAll(t, paid, logs[i + 1..]));
        infos := infos + [None];
      }
    }
    assert logs[|logs|..] == [];
  }

  /* ---------- totals ---------- */

  function Amount(info: Option<BytesInfo>): nat {
    match info
    case Some(Paid(cost)) => cost
    case Some(AdditionalPayment(extra, _)) => extra
    case _ => 0
  }

  /** The sum of what the lines of one slot charge. */
  function Total(logs: seq<StorageLog>, infos: seq<Option<BytesInfo>>, key: StorageKey): nat
    requires |logs| == |infos|
  {
    if logs == [] then 0
    else (if logs[0].key == key then Amount(infos[0]) else 0) + Total(logs[1..], infos[1..], key)
  }

  /** The costs of the writes to one slot, in order. */
  function Costs(t: Tariff, logs: seq<StorageLog>, key: StorageKey): seq<nat> {
    if logs == [] then []
    else (if IsWrite(logs[0]) && logs[0].key == key then [Cost(t, logs[0])] else []) + Costs(t, logs[1..], key)
  }

  /** The sum of all decreases from one cost to the next. */
  function Drops(costs: seq<nat>): nat {
    if |costs| < 2 then 0
    else (if costs[0] > costs[1] then costs[0] - costs[1] else 0) + Drops(costs[1..])
  }

  lemma {:induction false} ChargeAllLength(t: Tariff, paid: map<StorageKey, nat>, logs: seq<StorageLog>)
    ensures |ChargeAll(t, paid, logs)| == |logs|
    decreases |logs|
  {
    if logs != [] {
      ChargeAllLength(t, if IsWrite(logs[0]) then Charge(t, paid, logs[0]).0 else paid, logs[1..]);
    }
  }

  function TotalFrom(t: Tariff, paid: map<StorageKey, nat>, logs: seq<StorageLog>, key: StorageKey): nat {
    ChargeAllLength(t, paid, logs);
    Total(logs, ChargeAll(t, paid, logs), key)
  }

  /** What one log adds to a slot's total. */
  lemma TotalCons(t: Tariff, paid: map<StorageKey, nat>, logs: seq<StorageLog>, key: StorageKey)
    requires logs != []
    ensures var paid' := if IsWrite(logs[0]) then Charge(t, paid, logs[0]).0 else paid;
            var now := if IsWrite(logs[0]) && logs[0].key == key then Amount(Some(Charge(t, paid, logs[0]).1)) else 0;
            TotalFrom(t, paid, logs, key) == now + TotalFrom(t, paid', logs[1..], key)
  {
    var paid' := if IsWrite(logs[0]) then Charge(t, paid, logs[0]).0 else paid;
    ChargeAllLength(t, paid, logs);
    ChargeAllLength(t, paid', logs[1..]);
    assert ChargeAll(t, paid, logs)[1..] == ChargeAll(t, paid', logs[1..]);
  }

  /** From a state in which the slot has paid, the total telescopes. */
  lemma {:induction false} TelescopeAfterFirst(t: Tariff, paid: map<StorageKey, nat>, logs: seq<StorageLog>,
                                               key: StorageKey)
    requires !IsFree(key) && key in paid
    ensures var costs := [paid[key]] + Costs(t, logs, key);
            paid[key] + TotalFrom(t, paid, logs, key) == costs[|costs| - 1] + Drops(costs)
    decreases |logs|
  {
    if logs != [] {
      var log := logs[0];
      var paid' := if IsWrite(log) then Charge(t, paid, log).0 else paid;
      TotalCons(t, paid, logs, key);
      TelescopeAfterFirst(t, paid', logs[1..], key);
      var rest := Costs(t, logs[1..], key);
      if IsWrite(log) && log.key == key {
        assert Costs(t, logs, key) == [Cost(t, log)] + rest;
        assert ([paid[key]] + Costs(t, logs, key))[1..] == [Cost(t, log)] + rest;
      } else {
        assert Costs(t, logs, key) == rest;
      }
    }
  }

  /** Accounting telescopes: over all writes of a transaction, whatever else is written in between, a
      slot is charged its last cost plus every drop from one cost to the next. */
  lemma {:induction false} ChargesTelescope(t: Tariff, paid: map<StorageKey, nat>, logs: seq<StorageLog>,
                                            key: StorageKey)
    requires !IsFree(key) && key !in paid
    ensures var costs := Costs(t, logs, key);
            TotalFrom(t, paid, logs, key) == if costs == [] then 0 else costs[|costs| - 1] + Drops(costs)
    decreases |logs|
  {
    if logs != [] {
      var log := logs[0];
      TotalCons(t, paid, logs, key);
      var rest := Costs(t, logs[1..], key);
      if IsWrite(log) && log.key == key {
        TelescopeAfterFirst(t, Charge(t, paid, log).0, logs[1..], key);
        assert Costs(t, logs, key) == [Cost(t, log)] + rest;
      } else {
        ChargesTelescope(t, if IsWrite(log) then Charge(t, paid, log).0 else paid, logs[1..], key);
        assert Costs(t, logs, key) == rest;
      }
    }
  }

  lemma {:induction false} LastPlusDropsIsAnUpperBound(costs: seq<nat>, i: nat)
    requires i < |costs|
    ensures costs[i] <= costs[|costs| - 1] + Drops(costs)
  {
    if |costs| > 1 {
      LastPlusDropsIsAnUpperBound(costs[1..], if i == 0 then 0 else i - 1);
    }
  }

  /** So a slot is charged at least its dearest write. */
  lemma DearestWriteIsCovered(t: Tariff, logs: seq<StorageLog>, key: StorageKey, i: nat)
    requires !IsFree(key) && i < |Costs(t, logs, key)|
    ensures Costs(t, logs, key)[i] <= TotalFrom(t, map[], logs, key)
  {
    ChargesTelescope(t, map[], logs, key);
    LastPlusDropsIsAnUpperBound(Costs(t, logs, key), i);
  }

  /** Free slots are never charged. */
  lemma {:induction false} FreeSlotsAreFree(t: Tariff, paid: map<StorageKey, nat>, logs: seq<StorageLog>,
                                            key: StorageKey)
    requires IsFree(key)
    ensures TotalFrom(t, paid, logs, key) == 0
    decreases |logs|
  {
    if logs != [] {
      TotalCons(t, paid, logs, key);
      FreeSlotsAreFree(t, if IsWrite(logs[0]) then Charge(t, paid, logs[0]).0 else paid, logs[1..], key);
    }
  }

  /** Logs of other slots, and reads, change nothing for a slot. */
  lemma InterleavingIsIrrelevant(t: Tariff, logs: seq<StorageLog>, others: seq<StorageLog>, key: StorageKey)
    requires Costs(t, logs, key) == Costs(t, others, key)
    ensures TotalFrom(t, map[], logs, key) == TotalFrom(t, map[], others, key)
  {
    if IsFree(key) {
      FreeSlotsAreFree(t, map[], logs, key);
      FreeSlotsAreFree(t, map[], others, key);
    } else {
      ChargesTelescope(t, map[], logs, key);
      ChargesTelescope(t, map[], others, key);
    }
  }

  /* ---------- single lines ---------- */

  lemma {:induction false} LineAfter(t: Tariff, paid: map<StorageKey, nat>, logs: seq<StorageLog>, i: nat)
    requires i < |logs|
    ensures |ChargeAll(t, paid, logs)| == |logs|
    ensures ChargeAll(t, paid, logs)[i] == ChargeAll(t, PaidAfter(t, paid, logs[..i]), [logs[i]])[0]
    decreases i
  {
    ChargeAllLength(t, paid, logs);
    if i == 0 {
      assert logs[..0] == [];
    } else {
      var paid' := PaidAfter(t, paid, [logs[0]]);
      assert [logs[0]][1..] == [];
      assert PaidAfter(t, paid', [logs[0]][1..]) == paid';
      assert logs[..i][1..] == logs[1..][..i - 1];
      LineAfter(t, if IsWrite(logs[0]) then Charge(t, paid, logs[0]).0 else paid, logs[1..], i - 1);
    }
  }

  function PaidAfter(t: Tariff, paid: map<StorageKey, nat>, logs: seq<StorageLog>): map<StorageKey, nat>
    decreases |logs|
  {
    if logs == [] then paid
    else PaidAfter(t, if IsWrite(logs[0]) then Charge(t, paid, logs[0]).0 else paid, logs[1..])
  }

  /** The last price of a slot, as the tariff puts it: naming a slot for the first time costs the initial
      key bytes, again the repeated ones, and on top comes the compressed change. */
  function LastPrice(t: Tariff, logs: seq<StorageLog>, key: StorageKey): Option<nat> {
    if logs == [] then None
    else
      var last := logs[|logs| - 1];
      if last.key != key || last.kind.ReadLog? then LastPrice(t, logs[..|logs| - 1], key)
      else if last.kind.InitialWrite? then Some(t.initialKeyBytes + t.compressed(last.previous, last.value))
      else Some(t.repeatedKeyBytes + t.compressed(last.previous, last.value))
  }

  lemma {:induction false} PaidAppend(t: Tariff, paid: map<StorageKey, nat>, logs: seq<StorageLog>, log: StorageLog)
    ensures PaidAfter(t, paid, logs + [log])
         == if IsWrite(log) then Charge(t, PaidAfter(t, paid, logs), log).0 else PaidAfter(t, paid, logs)
    decreases |logs|
  {
    if logs == [] {
      assert [] + [log] == [log] && [log][1..] == [];
      assert PaidAfter(t, if IsWrite(log) then Charge(t, paid, log).0 else paid, [log][1..])
          == if IsWrite(log) then Charge(t, paid, log).0 else paid;
    } else {
      assert (logs + [log])[1..] == logs[1..] + [log];
      PaidAppend(t, if IsWrite(logs[0]) then Charge(t, paid, logs[0]).0 else paid, logs[1..], log);
    }
  }

  lemma {:induction false} PaidIsLastPrice(t: Tariff, logs: seq<StorageLog>, key: StorageKey)
    requires !IsFree(key)
    ensures var paid := PaidAfter(t, map[], logs);
            if key in paid then LastPrice(t, logs, key) == Some(paid[key]) else LastPrice(t, logs, key).None?
    decreases |logs|
  {
    if logs != [] {
      var front, last := logs[..|logs| - 1], logs[|logs| - 1];
      assert logs == front + [last];
      PaidAppend(t, map[], front, last);
      PaidIsLastPrice(t, front, key);
    }
  }

  /** Every line of a transaction: reads have none; free slots are marked; the first write to a slot pays
      its price; a later one pays what its price exceeds the slot's last price by, or nothing. */
  lemma EachLine(t: Tariff, logs: seq<StorageLog>, i: nat)
    requires i < |logs|
    ensures |ChargeAll(t, map[], logs)| == |logs|
    ensures var log, line := logs[i], ChargeAll(t, map[], logs)[i];
            var before, now := LastPrice(t, logs[..i], log.key), LastPrice(t, logs[..i + 1], log.key);
            if log.kind.ReadLog? then line.None?
            else if log.key.account == 0x800b || log.key == StorageKey(0x800a, 0x8001) then line == Some(FreeSlot)
            else
              && now.Some?
              && line == Some(if before.None? then Paid(now.value)
                              else if now.value > before.value
                              then AdditionalPayment(now.value - before.value, now.value)
                              else PaidAlready)
  {
    LineAfter(t, map[], logs, i);
    assert logs[..i + 1] == logs[..i] + [logs[i]];
    if !IsFree(logs[i].key) {
      PaidIsLastPrice(t, logs[..i], logs[i].key);
    }
  }
}
