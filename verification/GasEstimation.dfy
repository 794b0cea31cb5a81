/** Gas estimation: a binary search over gas limits, each limit tried in a sandboxed VM run over the
    node's own storage. */
module GasEstimation {
  import opened Base
  import opened ForkedStorage
  import opened Views

  const ACCEPTABLE_OVERESTIMATION: nat := 1_000

  datatype Verdict = Verdict(failed: bool, pubdata: nat)

  /** A deterministic VM chooses its next move from the answers it has received so far. */
  datatype Move = Do(access: Access) | Finish(verdict: Verdict)

  type Vm = seq<Answer> -> Move

  /** The verdict on a run that its budget cut short. */
  const UNFINISHED: Verdict := Verdict(true, 0)

  /** A VM run over a caching view, cut short when its budget of storage accesses is used up. */
  function RunVm(vm: Vm, x: Session, heard: seq<Answer>, budget: nat): (Session, Verdict)
    decreases budget
  {
    match vm(heard)
    case Finish(verdict) => (x, verdict)
    case Do(access) =>
      if budget == 0 then (x, UNFINISHED)
      else
        var (x', answer) := Perform(x, access);
        RunVm(vm, x', heard + [answer], budget - 1)
  }

  /** The same run over the cache-free reference. */
  function PlainVm(vm: Vm, pending: map<StorageKey, Word>, c: Contents, heard: seq<Answer>, budget: nat): Verdict
    decreases budget
  {
    match vm(heard)
    case Finish(verdict) => verdict
    case Do(access) =>
      if budget == 0 then UNFINISHED
      else
        var (pending', answer) := PlainPerform(pending, c, access);
        PlainVm(vm, pending', c, heard + [answer], budget - 1)
  }

  /** The VM comes to its own verdict within the budget. */
  predicate Finishes(vm: Vm, pending: map<StorageKey, Word>, c: Contents, heard: seq<Answer>, budget: nat)
    decreases budget
  {
    match vm(heard)
    case Finish(_) => true
    case Do(access) =>
      && budget > 0
      && var (pending', answer) := PlainPerform(pending, c, access);
         Finishes(vm, pending', c, heard + [answer], budget - 1)
  }

  /** A budget only matters to runs that use it up: a run that finishes gives the same verdict under
      every larger one. */
  lemma {:induction false} LargerBudget(vm: Vm, pending: map<StorageKey, Word>, c: Contents, heard: seq<Answer>,
                                        budget: nat, larger: nat)
    requires budget <= larger && Finishes(vm, pending, c, heard, budget)
    ensures Finishes(vm, pending, c, heard, larger)
    ensures PlainVm(vm, pending, c, heard, larger) == PlainVm(vm, pending, c, heard, budget)
    decreases budget
  {
    match vm(heard)
    case Finish(_) =>
    case Do(access) =>
      var (pending', answer) := PlainPerform(pending, c, access);
      LargerBudget(vm, pending', c, heard + [answer], budget - 1, larger - 1);
  }

  lemma {:induction false} RunVmRefines(vm: Vm, x: Session, heard: seq<Answer>, budget: nat)
    requires Truthful(x)
    ensures Truthful(RunVm(vm, x, heard, budget).0)
    ensures RunVm(vm, x, heard, budget).0.store.contents == x.store.contents
    ensures RunVm(vm, x, heard, budget).1 == PlainVm(vm, x.view.modified, x.store.contents, heard, budget)
    decreases budget
  {
    match vm(heard)
    case Finish(_) =>
    case Do(access) =>
      if budget > 0 {
        PerformRefines(x, access);
        var (x', answer) := Perform(x, access);
        RunVmRefines(vm, x', heard + [answer], budget - 1);
      }
  }

  /** What a request fixes for all its probes. `overhead` and `scale` stand for fee formulas that are
      not modelled; `vm(limit)` is the VM loaded with the transaction at that gas limit, and
      `budget(limit)` bounds the storage accesses of its run. */
  datatype Request = Request(
    vm: nat -> Vm,
    budget: nat -> nat,
    overhead: nat -> nat,
    nonceKey: StorageKey,
    nonce: nat,
    balanceKey: StorageKey,
    feePerGas: nat)

  /** The account nonce is replaced, the deployment nonce above it is kept. */
  function EnforcedNonce(full: Word, nonce: nat): Word {
    full / TWO_128 * TWO_128 + nonce
  }

  function WithNonce(x: Session, key: StorageKey, nonce: nat): Session {
    var (x', full) := GetValueNoLog(x, key);
    Perform(x', WriteSlot(key, EnforcedNonce(full, nonce))).0
  }

  function WithBalance(x: Session, key: StorageKey, added: nat): Session {
    var (x', balance) := GetValueNoLog(x, key);
    Perform(x', WriteSlot(key, balance + added)).0
  }

  /** A fresh view in which the nonce is enforced and the payer can afford the gas. */
  function Prepare(store: Store, req: Request, gas: nat): Session {
    WithBalance(WithNonce(Open(store), req.nonceKey, req.nonce), req.balanceKey, gas * req.feePerGas)
  }

  function PlainPrepare(c: Contents, req: Request, gas: nat): map<StorageKey, Word> {
    var patched := map[req.nonceKey := EnforcedNonce(Overlay(c, req.nonceKey), req.nonce)];
    patched[req.balanceKey := Peek(patched, c, req.balanceKey) + gas * req.feePerGas]
  }

  lemma WithNonceRefines(x: Session, key: StorageKey, nonce: nat)
    requires Truthful(x)
    ensures var x' := WithNonce(x, key, nonce);
            && Truthful(x') && x'.store.contents == x.store.contents
            && x'.view.modified
               == x.view.modified[key := EnforcedNonce(Peek(x.view.modified, x.store.contents, key), nonce)]
  {
    var (x1, full) := GetValueNoLog(x, key);
    LookupRefines(x, key);
    PerformRefines(x1, WriteSlot(key, EnforcedNonce(full, nonce)));
  }

  lemma WithBalanceRefines(x: Session, key: StorageKey, added: nat)
    requires Truthful(x)
    ensures var x' := WithBalance(x, key, added);
            && Truthful(x') && x'.store.contents == x.store.contents
            && x'.view.modified == x.view.modified[key := Peek(x.view.modified, x.store.contents, key) + added]
  {
    var (x1, balance) := GetValueNoLog(x, key);
    LookupRefines(x, key);
    PerformRefines(x1, WriteSlot(key, balance + added));
  }

  lemma PrepareRefines(store: Store, req: Request, gas: nat)
    requires Coherent(store)
    ensures Truthful(Prepare(store, req, gas))
    ensures Prepare(store, req, gas).store.contents == store.contents
    ensures Prepare(store, req, gas).view.modified == PlainPrepare(store.contents, req, gas)
  {
    WithNonceRefines(Open(store), req.nonceKey, req.nonce);
    WithBalanceRefines(WithNonce(Open(store), req.nonceKey, req.nonce), req.balanceKey, gas * req.feePerGas);
  }

  /** What the transaction finds in the prepared view: its own nonce under the kept deployment nonce,
      enough balance for all the gas, and every other slot as in the node. */
  lemma PreparedAccount(c: Contents, req: Request, gas: nat, key: StorageKey)
    requires req.nonceKey != req.balanceKey && req.nonce < TWO_128
    ensures var pending := PlainPrepare(c, req, gas);
            && Peek(pending, c, req.nonceKey) % TWO_128 == req.nonce
            && Peek(pending, c, req.nonceKey) / TWO_128 == Overlay(c, req.nonceKey) / TWO_128
            && Peek(pending, c, req.balanceKey) >= gas * req.feePerGas
            && Peek(pending, c, req.balanceKey) - gas * req.feePerGas == Overlay(c, req.balanceKey)
            && (key != req.nonceKey && key != req.balanceKey ==> Peek(pending, c, key) == Overlay(c, key))
  {
    SplitNonce(Overlay(c, req.nonceKey), req.nonce);
  }

  lemma SplitNonce(full: Word, nonce: nat)
    requires nonce < TWO_128
    ensures EnforcedNonce(full, nonce) % TWO_128 == nonce
    ensures EnforcedNonce(full, nonce) / TWO_128 == full / TWO_128
  {
    var high := full / TWO_128;
    assert (high * TWO_128 + nonce) / TWO_128 == high;
  }

  /** One probe: prepare a view, then run the VM in it. */
  function Probe(store: Store, req: Request, limit: nat): (Store, Verdict) {
    var gas := limit + req.overhead(limit);
    var (x, verdict) := RunVm(req.vm(limit), Prepare(store, req, gas), [], req.budget(limit));
    (x.store, verdict)
  }

  /** The verdict as a function of the storage contents alone. */
  function PlainProbe(c: Contents, req: Request, limit: nat): Verdict {
    var gas := limit + req.overhead(limit);
    PlainVm(req.vm(limit), PlainPrepare(c, req, gas), c, [], req.budget(limit))
  }

  predicate ProbeFinishes(c: Contents, req: Request, limit: nat) {
    var gas := limit + req.overhead(limit);
    Finishes(req.vm(limit), PlainPrepare(c, req, gas), c, [], req.budget(limit))
  }

  /** Once a probe finishes, a larger budget does not change its verdict. */
  lemma BudgetIsIrrelevant(c: Contents, req: Request, larger: nat -> nat, limit: nat)
    requires req.budget(limit) <= larger(limit) && ProbeFinishes(c, req, limit)
    ensures ProbeFinishes(c, req.(budget := larger), limit)
    ensures PlainProbe(c, req.(budget := larger), limit) == PlainProbe(c, req, limit)
  {
    var pending := PlainPrepare(c, req, limit + req.overhead(limit));
    assert PlainPrepare(c, req.(budget := larger), limit + req.overhead(limit)) == pending;
    LargerBudget(req.vm(limit), pending, c, [], req.budget(limit), larger(limit));
  }

  /** What a slot holds for the transaction of a probe: its nonce under the kept deployment nonce, enough
      on top of the balance for the limit and its overhead at the fee, and otherwise what the node has. */
  function HeldForProbe(c: Contents, req: Request, limit: nat, key: StorageKey): Word {
    if key == req.nonceKey then Overlay(c, key) / TWO_128 * TWO_128 + req.nonce
    else if key == req.balanceKey then Overlay(c, key) + (limit + req.overhead(limit)) * req.feePerGas
    else Overlay(c, key)
  }

  /** Every first read of the VM in a probe finds that: a VM that reads a slot and then finishes gives the
      verdict it gives on that value. */
  lemma ProbeSees(c: Contents, req: Request, limit: nat, key: StorageKey)
    requires req.nonceKey != req.balanceKey && req.budget(limit) > 0
    requires req.vm(limit)([]) == Do(ReadSlot(key))
    requires req.vm(limit)([AWord(HeldForProbe(c, req, limit, key))]).Finish?
    ensures PlainProbe(c, req, limit) == req.vm(limit)([AWord(HeldForProbe(c, req, limit, key))]).verdict
  {
    var answer := AWord(HeldForProbe(c, req, limit, key));
    var pending := PlainPrepare(c, req, limit + req.overhead(limit));
    assert Peek(pending, c, key) == HeldForProbe(c, req, limit, key);
    assert [] + [answer] == [answer];
    assert PlainVm(req.vm(limit), pending, c, [answer], req.budget(limit) - 1)
        == req.vm(limit)([answer]).verdict;
  }

  lemma ProbeRefines(store: Store, req: Request, limit: nat)
    requires Coherent(store)
    ensures Coherent(Probe(store, req, limit).0)
    ensures Probe(store, req, limit).0.contents == store.contents
    ensures Probe(store, req, limit).1 == PlainProbe(store.contents, req, limit)
  {
    var gas := limit + req.overhead(limit);
    PrepareRefines(store, req, gas);
    RunVmRefines(req.vm(limit), Prepare(store, req, gas), [], req.budget(limit));
  }

  function Probes(store: Store, req: Request, limits: seq<nat>): Store
    decreases |limits|
  {
    if limits == [] then store else Probes(Probe(store, req, limits[0]).0, req, limits[1..])
  }

  /** Sandboxed runs are invisible and repeatable: after any number of probes of any requests' limits
      every storage query and every further probe answers as it would have before. */
  lemma {:induction false} ProbesAreInvisible(store: Store, req: Request, limits: seq<nat>,
                                              other: Request, limit: nat, op: StoreOp)
    requires Coherent(store)
    requires !Offline(op)
    ensures Probes(store, req, limits).contents == store.contents
    ensures Coherent(Probes(store, req, limits))
    ensures StepStore(Probes(store, req, limits), op).1 == StepStore(store, op).1
    ensures Probe(Probes(store, req, limits), other, limit).1 == Probe(store, other, limit).1
    decreases |limits|
  {
    if limits == [] {
    } else {
      var store' := Probe(store, req, limits[0]).0;
      ProbeRefines(store, req, limits[0]);
      ProbesAreInvisible(store', req, limits[1..], other, limit, op);
      StepRefines(store, op);
      StepRefines(store', op);
      ProbeRefines(store, other, limit);
      ProbeRefines(store', other, limit);
    }
  }

  /* ---------- the search ---------- */

  ghost function Pow2(k: nat): nat {
    if k == 0 then 1 else 2 * Pow2(k - 1)
  }

  /** Whether the transaction succeeds when `mid` gas is added to the gas set aside for pubdata. */
  predicate Succeeds(c: Contents, req: Request, extra: nat, mid: nat) {
    !PlainProbe(c, req, extra + mid).failed
  }

  ghost predicate Monotone(c: Contents, req: Request, extra: nat) {
    forall a: nat, b: nat :: a <= b && Succeeds(c, req, extra, a) ==> Succeeds(c, req, extra, b)
  }

  /** What the search promises about the limit it settles on. */
  ghost predicate NearLeast(c: Contents, req: Request, extra: nat, max: nat, upper: nat) {
    && (upper == max || (upper < max && Succeeds(c, req, extra, upper)))
    && (Monotone(c, req, extra) ==>
          forall g: nat :: Succeeds(c, req, extra, g) ==> upper <= g + 1_000)
  }

  method EnforceNonce(view: StorageView, key: StorageKey, nonce: nat)
    requires Truthful(view.State())
    modifies view, view.storage
    ensures view.State() == WithNonce(old(view.State()), key, nonce) && Truthful(view.State())
  {
    var full := view.Lookup(key);
    var _ := view.SetValue(key, EnforcedNonce(full, nonce));
  }

  method AddBalance(view: StorageView, key: StorageKey, added: nat)
    requires Truthful(view.State())
    modifies view, view.storage
    ensures view.State() == WithBalance(old(view.State()), key, added) && Truthful(view.State())
  {
    var balance := view.Lookup(key);
    var _ := view.SetValue(key, balance + added);
  }

  method PrepareView(storage: ForkStorage, req: Request, gas: nat) returns (view: StorageView)
    requires Coherent(storage.State())
    modifies storage
    ensures fresh(view) && view.storage == storage
    ensures view.State() == Prepare(old(storage.State()), req, gas) && Truthful(view.State())
  {
    view := new StorageView(storage);
    EnforceNonce(view, req.nonceKey, req.nonce);
    AddBalance(view, req.balanceKey, gas * req.feePerGas);
  }

  method EstimateGasStep(storage: ForkStorage, req: Request, limit: nat) returns (verdict: Verdict)
    requires Coherent(storage.State())
    modifies storage
    ensures Coherent(storage.State()) && storage.State().contents == old(storage.State().contents)
    ensures verdict == PlainProbe(storage.State().contents, req, limit)
    ensures (storage.State(), verdict) == Probe(old(storage.State()), req, limit)
  {
    ProbeRefines(storage.State(), req, limit);
    var gas := limit + req.overhead(limit);
    var view := PrepareView(storage, req, gas);
    verdict := ExecuteVm(view, req.vm(limit), req.budget(limit));
  }

  method ExecuteVm(view: StorageView, vm: Vm, budget: nat) returns (verdict: Verdict)
    requires Truthful(view.State())
    modifies view, view.storage
    ensures Truthful(view.State())
    ensures (view.State(), verdict) == RunVm(vm, old(view.State()), [], budget)
  {
    var heard: seq<Answer> := [];
    var left := budget;
    while true
      invariant Truthful(view.State())
      invariant RunVm(vm, view.State(), heard, left) == RunVm(vm, old(view.State()), [], budget)
      decreases left
    {
      match vm(heard)
      case Finish(v) => return v;
      case Do(access) =>
        if left == 0 {
          return UNFINISHED;
        }
        var answer := view.Serve(access);
        heard := heard + [answer];
        left := left - 1;
    }
  }

  /** After `probes` halvings of a range of `max` limits, `width` limits are left. */
  ghost predicate Halved(max: nat, probes: nat, width: int) {
    forall k: nat :: max < (ACCEPTABLE_OVERESTIMATION + 1) * Pow2(k) ==>
      probes <= k && width < (ACCEPTABLE_OVERESTIMATION + 1) * Pow2(k - probes)
  }

  lemma HalveOnce(max: nat, probes: nat, width: int, half: int)
    requires Halved(max, probes, width)
    requires ACCEPTABLE_OVERESTIMATION < width && 2 * half <= width
    ensures Halved(max, probes + 1, half)
  {
    forall k: nat | max < (ACCEPTABLE_OVERESTIMATION + 1) * Pow2(k)
      ensures probes + 1 <= k && half < (ACCEPTABLE_OVERESTIMATION + 1) * Pow2(k - probes - 1)
    {
      assert width < (ACCEPTABLE_OVERESTIMATION + 1) * Pow2(k - probes);
    }
  }

  lemma SearchIsNearLeast(c: Contents, req: Request, extra: nat, max: nat, lower: nat, upper: nat)
    requires upper == max || (upper < max && Succeeds(c, req, extra, upper))
    requires lower == 0 || !Succeeds(c, req, extra, lower - 1)
    requires upper <= lower + ACCEPTABLE_OVERESTIMATION
    ensures NearLeast(c, req, extra, max, upper)
  {
  }

  method TryLimit(storage: ForkStorage, req: Request, extra: nat, mid: nat) returns (succeeded: bool)
    requires Coherent(storage.State())
    modifies storage
    ensures Coherent(storage.State()) && storage.State().contents == old(storage.State().contents)
    ensures succeeded == Succeeds(old(storage.State().contents), req, extra, mid)
  {
    var verdict := EstimateGasStep(storage, req, extra + mid);
    succeeded := !verdict.failed;
  }

  /** The search loop. For any VM the result is the maximum or a limit seen to succeed, and the number
      of probes is logarithmic; if success is monotone, the result overshoots the least successful
      limit by at most the acceptable overestimation. */
  method SearchGasLimit(storage: ForkStorage, req: Request, extra: nat, max: nat) returns (upper: nat, probes: nat)
    requires Coherent(storage.State())
    modifies storage
    ensures Coherent(storage.State()) && storage.State().contents == old(storage.State().contents)
    ensures NearLeast(storage.State().contents, req, extra, max, upper)
    ensures forall k: nat :: max < 1_001 * Pow2(k) ==> probes <= k
  {
    ghost var c := storage.State().contents;
    var lower: nat := 0;
    upper := max;
    probes := 0;
    while lower + ACCEPTABLE_OVERESTIMATION < upper
      invariant Coherent(storage.State()) && storage.State().contents == c
      invariant upper == max || (upper < max && Succeeds(c, req, extra, upper))
      invariant lower == 0 || !Succeeds(c, req, extra, lower - 1)
      invariant Halved(max, probes, upper - lower)
      decreases upper - lower
    {
      var mid := (lower + upper) / 2;
      ghost var width := upper - lower;
      var succeeded := TryLimit(storage, req, extra, mid);
      if !succeeded {
        lower := mid + 1;
      } else {
        upper := mid;
      }
      HalveOnce(max, probes, width, upper - lower);
      probes := probes + 1;
    }
    SearchIsNearLeast(c, req, extra, max, lower, upper);
  }

  datatype Estimate = GasLimit(limit: nat) | TooMuchPubdata | Unexecutable | Overflow

  /** The suggestion was tried, and its verdict and its sum with the overhead decided. */
  ghost predicate Confirmed(c: Contents, req: Request, suggested: nat, estimate: Estimate) {
    var failed := PlainProbe(c, req, suggested).failed;
    var full := suggested + req.overhead(suggested);
    match estimate
    case GasLimit(limit) => !failed && limit == full <= U64_MAX
    case Overflow => !failed && full > U64_MAX
    case Unexecutable => failed
    case TooMuchPubdata => false
  }

  method Confirm(storage: ForkStorage, req: Request, suggested: nat) returns (estimate: Estimate)
    requires Coherent(storage.State())
    modifies storage
    ensures Coherent(storage.State()) && storage.State().contents == old(storage.State().contents)
    ensures Confirmed(old(storage.State().contents), req, suggested, estimate)
  {
    var final := EstimateGasStep(storage, req, suggested);
    if final.failed {
      return Unexecutable;
    }
    var full := suggested + req.overhead(suggested);
    return if full > U64_MAX then Overflow else GasLimit(full);
  }

  method SearchAndConfirm(storage: ForkStorage, req: Request, extra: nat, max: nat, scale: nat -> nat)
    returns (estimate: Estimate, body: nat)
    requires Coherent(storage.State())
    modifies storage
    ensures Coherent(storage.State()) && storage.State().contents == old(storage.State().contents)
    ensures NearLeast(old(storage.State().contents), req, extra, max, body)
    ensures Confirmed(old(storage.State().contents), req, scale(body + extra), estimate)
  {
    var probes;
    body, probes := SearchGasLimit(storage, req, extra, max);
    estimate := Confirm(storage, req, scale(body + extra));
  }

  /** The pubdata that the transaction publishes when it may use all the gas of a batch. */
  function Pubdata(c: Contents, req: Request, batchLimit: nat): nat {
    PlainProbe(c, req, batchLimit).pubdata
  }

  method MeasurePubdata(storage: ForkStorage, req: Request, batchLimit: nat) returns (pubdata: nat)
    requires Coherent(storage.State())
    modifies storage
    ensures Coherent(storage.State()) && storage.State().contents == old(storage.State().contents)
    ensures pubdata == Pubdata(storage.State().contents, req, batchLimit)
  {
    var verdict := EstimateGasStep(storage, req, batchLimit);
    pubdata := verdict.pubdata;
  }

  /** Estimation as a whole: measure the pubdata with the batch limit, search, then confirm the scaled
      suggestion with one more run. `body` is the limit the search settled on. */
  method EstimateGas(storage: ForkStorage, req: Request, batchLimit: nat, maxPubdata: nat, gasPerPubdata: nat,
                     max: nat, scale: nat -> nat)
    returns (estimate: Estimate, body: nat)
    requires Coherent(storage.State())
    modifies storage
    ensures Coherent(storage.State()) && storage.State().contents == old(storage.State().contents)
    ensures var c := old(storage.State().contents);
            var pubdata := Pubdata(c, req, batchLimit);
            var extra := pubdata * gasPerPubdata;
            && (estimate.TooMuchPubdata? <==> pubdata > maxPubdata)
            && (!estimate.TooMuchPubdata? ==>
                  NearLeast(c, req, extra, max, body) && Confirmed(c, req, scale(body + extra), estimate))
  {
    var pubdata := MeasurePubdata(storage, req, batchLimit);
    if pubdata > maxPubdata {
      return TooMuchPubdata, 0;
    }
    estimate, body := SearchAndConfirm(storage, req, pubdata * gasPerPubdata, max, scale);
  }
}
