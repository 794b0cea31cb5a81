/** Event filters: installation, notification and polling. */
module Filters {
  import opened Base

  datatype BlockTag = Finalized | Pending | Committed | L1Committed | Latest | Earliest | Number(n: nat)

  function ToRealBlockNumber(tag: BlockTag, latest: nat): nat {
    match tag
    case Earliest => 0
    case Number(n) => n
    case _ => latest
  }

  /** The tag follows the head of the chain. */
  predicate LatestLike(tag: BlockTag) {
    !tag.Earliest? && !tag.Number?
  }

  datatype Log = Log(address: Address, topics: seq<Word>, data: Bytes, blockHash: Hash, blockNumber: nat,
                     batch: nat, txHash: Hash, logIndex: nat, timestamp: nat)

  type Topics = t: seq<Option<set<Word>>> | |t| == 4 witness [None, None, None, None]

  datatype LogQuery = LogQuery(from: BlockTag, to: BlockTag, addresses: seq<Address>, topics: Topics)

  predicate TopicMatches(wanted: Option<set<Word>>, topic: Word) {
    wanted.None? || wanted.value == {} || topic in wanted.value
  }

  /** A log matches when its block is in range, its address is listed (or none is), and each of its
      first four topics is allowed at its position. Positions the log lacks are not checked. */
  predicate Matches(q: LogQuery, log: Log, latest: nat) {
    && ToRealBlockNumber(q.from, latest) <= log.blockNumber <= ToRealBlockNumber(q.to, latest)
    && (q.addresses == [] || log.address in q.addresses)
    && (forall i :: 0 <= i < 4 && i < |log.topics| ==> TopicMatches(q.topics[i], log.topics[i]))
  }

  method MatchLog(q: LogQuery, log: Log, latest: nat) returns (matched: bool)
    ensures matched == Matches(q, log, latest)
  {
    var from := ToRealBlockNumber(q.from, latest);
    var to := ToRealBlockNumber(q.to, latest);
    if log.blockNumber < from || log.blockNumber > to {
      return false;
    }
    if q.addresses != [] {
      var listed := false;
      for i := 0 to |q.addresses|
        invariant listed <==> log.address in q.addresses[..i]
      {
        if q.addresses[i] == log.address {
          listed := true;
        }
        assert q.addresses[..i + 1] == q.addresses[..i] + [q.addresses[i]];
      }
      assert q.addresses[..|q.addresses|] == q.addresses;
      if !listed {
        return false;
      }
    }
    var matchedTopic := new bool[4](_ => true);
    var n := if |log.topics| < 4 then |log.topics| else 4;
    for i := 0 to n
      invariant forall j :: 0 <= j < i ==> matchedTopic[j] == TopicMatches(q.topics[j], log.topics[j])
      invariant forall j :: i <= j < 4 ==> matchedTopic[j]
    {
      var wanted := q.topics[i];
      if wanted.Some? {
        if wanted.value != {} && log.topics[i] !in wanted.value {
          matchedTopic[i] := false;
        }
      }
    }
    matched := matchedTopic[0] && matchedTopic[1] && matchedTopic[2] && matchedTopic[3];
    assert matched == (forall j :: 0 <= j < 4 ==> matchedTopic[j]);
  }

  /** If the from-bound does not follow the head, the verdict on a log at the block that produced it
      is the verdict at every later block. If it does, a matching log stops matching as soon as the
      chain moves on. */
  lemma VerdictIsStable(q: LogQuery, log: Log, later: nat)
    requires log.blockNumber <= later
    ensures Matches(q, log, log.blockNumber) ==>
              (Matches(q, log, later) <==> !LatestLike(q.from) || later == log.blockNumber)
    ensures !LatestLike(q.from) ==>
              (Matches(q, log, log.blockNumber) <==> Matches(q, log, later))
  {
  }

  /* ---------- requests ---------- */

  /** A filter as a client sends it; everything may be missing. */
  datatype FilterRequest = FilterRequest(
    from: Option<BlockTag>,
    to: Option<BlockTag>,
    addresses: Option<seq<Address>>,
    topics: Option<seq<Option<set<Word>>>>)

  /** The query a request stands for; the two calls that take requests differ in the from-bound they
      assume. Topics after the fourth are dropped. */
  function MakeQuery(req: FilterRequest, assumedFrom: BlockTag): LogQuery {
    LogQuery(if req.from.Some? then req.from.value else assumedFrom,
             if req.to.Some? then req.to.value else Latest,
             if req.addresses.Some? then req.addresses.value else [],
             seq(4, i requires 0 <= i < 4 =>
               if req.topics.Some? && i < |req.topics.value| then req.topics.value[i] else None))
  }

  predicate AtOrAbove(bound: BlockTag, number: nat, latest: nat) {
    match bound
    case Earliest => true
    case Number(n) => n <= number
    case _ => latest <= number
  }

  predicate AtOrBelow(bound: BlockTag, number: nat, latest: nat) {
    match bound
    case Earliest => number == 0
    case Number(n) => number <= n
    case _ => number <= latest
  }

  /** The client asked for this log: its block lies between the bounds of the request, the from-bound being
      `assumedFrom` and the to-bound the latest block where none is given, its address is listed if any
      is, and each of its first four topics is allowed where the request restricts that position. */
  predicate AskedFor(req: FilterRequest, assumedFrom: BlockTag, log: Log, latest: nat) {
    && AtOrAbove(if req.from.Some? then req.from.value else assumedFrom, log.blockNumber, latest)
    && (req.to.Some? ==> AtOrBelow(req.to.value, log.blockNumber, latest))
    && (req.to.None? ==> log.blockNumber <= latest)
    && (req.addresses.Some? && req.addresses.value != [] ==> log.address in req.addresses.value)
    && (req.topics.Some? ==>
          forall i :: 0 <= i < 4 && i < |req.topics.value| && i < |log.topics| ==>
            var wanted := req.topics.value[i];
            wanted.Some? && wanted.value != {} ==> log.topics[i] in wanted.value)
  }

  /** The query that a request is turned into matches exactly the logs asked for. */
  lemma QueryMeansRequest(req: FilterRequest, assumedFrom: BlockTag, log: Log, latest: nat)
    ensures Matches(MakeQuery(req, assumedFrom), log, latest) <==> AskedFor(req, assumedFrom, log, latest)
  {
    var q := MakeQuery(req, assumedFrom);
    if req.topics.Some? {
      forall i | 0 <= i < 4 && i < |log.topics|
        ensures TopicMatches(q.topics[i], log.topics[i])
           <==> !(i < |req.topics.value| && req.topics.value[i].Some? && req.topics.value[i].value != {})
                || log.topics[i] in req.topics.value[i].value
      {
      }
    }
  }

  /** A request without a from-bound means different things to `eth_newFilter` and to `eth_getLogs`:
      a log that the installed filter announced stays visible to `eth_getLogs` for good, but leaves the
      filter's own range as soon as the chain moves on. */
  lemma UnboundedRequest(req: FilterRequest, log: Log, later: nat)
    requires req.from.None? && log.blockNumber < later
    requires Matches(MakeQuery(req, Latest), log, log.blockNumber)
    ensures Matches(MakeQuery(req, Earliest), log, later)
    ensures !Matches(MakeQuery(req, Latest), log, later)
  {
    var live, query := MakeQuery(req, Latest), MakeQuery(req, Earliest);
    assert live.topics == query.topics && live.addresses == query.addresses && live.to == query.to;
  }

  /* ---------- the filter set ---------- */

  datatype Filter =
    | BlockFilter(hashes: seq<Hash>)
    | LogFilter(query: LogQuery, logs: seq<Log>)
    | PendingFilter(hashes: seq<Hash>)

  datatype FilterSet = FilterSet(idCounter: nat, filters: map<nat, Filter>)

  const NO_FILTERS: FilterSet := FilterSet(0, map[])

  datatype Changes = Empty | Hashes(hashes: seq<Hash>) | Logs(logs: seq<Log>)

  /** A fresh filter, of any kind, under the next id. */
  function Install(fs: FilterSet, f: Filter): (FilterSet, Result<nat>) {
    if fs.idCounter + 1 > U256_MAX then (fs, Err)
    else
      var id := fs.idCounter + 1;
      (FilterSet(id, fs.filters[id := f]), Ok(id))
  }

  function Remove(fs: FilterSet, id: nat): (FilterSet, bool) {
    (fs.(filters := fs.filters - {id}), id in fs.filters)
  }

  function Drained(f: Filter): Filter {
    match f
    case BlockFilter(_) => BlockFilter([])
    case LogFilter(q, _) => LogFilter(q, [])
    case PendingFilter(_) => PendingFilter([])
  }

  function ChangesOf(f: Filter): Changes {
    match f
    case BlockFilter(hashes) => if hashes == [] then Empty else Hashes(hashes)
    case LogFilter(_, logs) => if logs == [] then Empty else Logs(logs)
    case PendingFilter(hashes) => if hashes == [] then Empty else Hashes(hashes)
  }

  function Poll(fs: FilterSet, id: nat): (FilterSet, Result<Changes>) {
    if id !in fs.filters then (fs, Err)
    else (fs.(filters := fs.filters[id := Drained(fs.filters[id])]), Ok(ChangesOf(fs.filters[id])))
  }

  datatype Event = NewBlock(hash: Hash) | NewPending(hash: Hash) | NewLog(log: Log, latest: nat)

  function Hear(f: Filter, e: Event): Filter {
    match (f, e)
    case (BlockFilter(hashes), NewBlock(hash)) => BlockFilter(hashes + [hash])
    case (PendingFilter(hashes), NewPending(hash)) => PendingFilter(hashes + [hash])
    case (LogFilter(q, logs), NewLog(log, latest)) =>
      if Matches(q, log, latest) then LogFilter(q, logs + [log]) else f
    case _ => f
  }

  function Notify(fs: FilterSet, e: Event): FilterSet {
    fs.(filters := map id | id in fs.filters :: Hear(fs.filters[id], e))
  }

  function NotifyAll(fs: FilterSet, events: seq<Event>): FilterSet
    decreases |events|
  {
    if events == [] then fs else NotifyAll(Notify(fs, events[0]), events[1..])
  }

  /* ---------- exactly-once delivery ---------- */

  datatype FilterOp =
    | OpInstall(filter: Filter)
    | OpRemove(id: nat)
    | OpPoll(id: nat)
    | OpNotify(event: Event)

  function StepFilters(fs: FilterSet, op: FilterOp): FilterSet {
    match op
    case OpInstall(f) => Install(fs, f).0
    case OpRemove(id) => Remove(fs, id).0
    case OpPoll(id) => Poll(fs, id).0
    case OpNotify(e) => Notify(fs, e)
  }

  function RunFilters(fs: FilterSet, ops: seq<FilterOp>): FilterSet
    decreases |ops|
  {
    if ops == [] then fs else RunFilters(StepFilters(fs, ops[0]), ops[1..])
  }

  /** What an event is worth to a filter: nothing, or one item. */
  datatype Item = ItemHash(hash: Hash) | ItemLog(log: Log)

  function Relevant(f: Filter, e: Event): seq<Item> {
    match (f, e)
    case (BlockFilter(_), NewBlock(hash)) => [ItemHash(hash)]
    case (PendingFilter(_), NewPending(hash)) => [ItemHash(hash)]
    case (LogFilter(q, _), NewLog(log, latest)) => if Matches(q, log, latest) then [ItemLog(log)] else []
    case _ => []
  }

  /** The items a filter should see in a run: those of its kind (and match), in order. */
  function Owed(f: Filter, ops: seq<FilterOp>): seq<Item>
    decreases |ops|
  {
    if ops == [] then []
    else (if ops[0].OpNotify? then Relevant(f, ops[0].event) else []) + Owed(f, ops[1..])
  }

  function HashItems(hashes: seq<Hash>): seq<Item> {
    seq(|hashes|, i requires 0 <= i < |hashes| => ItemHash(hashes[i]))
  }

  function LogItems(logs: seq<Log>): seq<Item> {
    seq(|logs|, i requires 0 <= i < |logs| => ItemLog(logs[i]))
  }

  function Waiting(f: Filter): seq<Item> {
    match f
    case BlockFilter(hashes) => HashItems(hashes)
    case LogFilter(_, logs) => LogItems(logs)
    case PendingFilter(hashes) => HashItems(hashes)
  }

  function Items(c: Changes): seq<Item> {
    match c
    case Empty => []
    case Hashes(hashes) => HashItems(hashes)
    case Logs(logs) => LogItems(logs)
  }

  /** Everything the polls of one filter return in a run, concatenated. */
  function Delivered(fs: FilterSet, id: nat, ops: seq<FilterOp>): seq<Item>
    decreases |ops|
  {
    if ops == [] then []
    else
      var now := if ops[0] == OpPoll(id) && id in fs.filters then Items(Poll(fs, id).1.value) else [];
      now + Delivered(StepFilters(fs, ops[0]), id, ops[1..])
  }

  /** Ids in use never exceed the counter, so the next id is new. */
  ghost predicate IdsBelowCounter(fs: FilterSet) {
    forall id :: id in fs.filters ==> 1 <= id <= fs.idCounter
  }

  predicate SameKind(f: Filter, g: Filter) {
    match f
    case BlockFilter(_) => g.BlockFilter?
    case LogFilter(q, _) => g.LogFilter? && g.query == q
    case PendingFilter(_) => g.PendingFilter?
  }

  lemma OwedBySameKind(f: Filter, g: Filter, e: Event)
    requires SameKind(f, g)
    ensures Relevant(f, e) == Relevant(g, e)
  {
  }

  /** One operation that does not remove the filter keeps its kind, and what it delivers followed by
      what then waits is what waited before followed by what the operation owes. */
  lemma StepDelivers(fs: FilterSet, id: nat, op: FilterOp)
    requires IdsBelowCounter(fs) && id in fs.filters && op != OpRemove(id)
    ensures IdsBelowCounter(StepFilters(fs, op))
    ensures id in StepFilters(fs, op).filters
    ensures SameKind(fs.filters[id], StepFilters(fs, op).filters[id])
    ensures Delivered(fs, id, [op]) + Waiting(StepFilters(fs, op).filters[id])
         == Waiting(fs.filters[id]) + Owed(fs.filters[id], [op])
  {
    var f, f' := fs.filters[id], StepFilters(fs, op).filters[id];
    assert [op][1..] == [];
    assert Delivered(StepFilters(fs, op), id, []) == [] && Owed(f, []) == [];
    match op
    case OpNotify(e) =>
      assert Waiting(f') == Waiting(f) + Relevant(f, e);
    case OpPoll(other) =>
      if other == id {
        assert Waiting(f') == [] && Items(ChangesOf(f)) == Waiting(f);
      }
    case _ =>
  }

  lemma {:induction false} OwedSameKind(f: Filter, g: Filter, ops: seq<FilterOp>)
    requires SameKind(f, g)
    ensures Owed(f, ops) == Owed(g, ops)
    decreases |ops|
  {
    if ops != [] {
      if ops[0].OpNotify? {
        OwedBySameKind(f, g, ops[0].event);
      }
      OwedSameKind(f, g, ops[1..]);
    }
  }

  lemma DeliveredCons(fs: FilterSet, id: nat, ops: seq<FilterOp>)
    requires ops != []
    ensures Delivered(fs, id, ops) == Delivered(fs, id, [ops[0]]) + Delivered(StepFilters(fs, ops[0]), id, ops[1..])
  {
    assert [ops[0]][1..] == [] && Delivered(StepFilters(fs, ops[0]), id, []) == [];
  }

  lemma OwedCons(f: Filter, ops: seq<FilterOp>)
    requires ops != []
    ensures Owed(f, ops) == Owed(f, [ops[0]]) + Owed(f, ops[1..])
  {
    assert [ops[0]][1..] == [] && Owed(f, []) == [];
  }

  /** Splices the account of the first step into the account of the rest. */
  lemma Regroup(now: seq<Item>, later: seq<Item>, final: seq<Item>,
                before: seq<Item>, owed: seq<Item>, owedLater: seq<Item>, between: seq<Item>)
    requires now + between == before + owed
    requires later + final == between + owedLater
    ensures (now + later) + final == before + (owed + owedLater)
  {
    assert (now + later) + final == now + (later + final);
    assert now + (between + owedLater) == (now + between) + owedLater;
    assert (before + owed) + owedLater == before + (owed + owedLater);
  }

  /** Exactly-once, in-order delivery over every run: all change lists a filter's polls returned,
      followed by what is still waiting, are what waited at the start followed by the events of its
      kind since, whatever happens to the other filters. */
  lemma {:induction false} ExactlyOnceInOrder(fs: FilterSet, id: nat, ops: seq<FilterOp>)
    requires IdsBelowCounter(fs) && id in fs.filters && OpRemove(id) !in ops
    ensures id in RunFilters(fs, ops).filters
    ensures Delivered(fs, id, ops) + Waiting(RunFilters(fs, ops).filters[id])
         == Waiting(fs.filters[id]) + Owed(fs.filters[id], ops)
    decreases |ops|
  {
    if ops != [] {
      var op, rest := ops[0], ops[1..];
      var fs' := StepFilters(fs, op);
      StepDelivers(fs, id, op);
      ExactlyOnceInOrder(fs', id, rest);
      OwedSameKind(fs.filters[id], fs'.filters[id], rest);
      DeliveredCons(fs, id, ops);
      OwedCons(fs.filters[id], ops);
      Regroup(Delivered(fs, id, [op]), Delivered(fs', id, rest), Waiting(RunFilters(fs, ops).filters[id]),
              Waiting(fs.filters[id]), Owed(fs.filters[id], [op]), Owed(fs.filters[id], rest),
              Waiting(fs'.filters[id]));
    }
  }

  /** The ids a run hands out. */
  function Issued(fs: FilterSet, ops: seq<FilterOp>): seq<nat>
    decreases |ops|
  {
    if ops == [] then []
    else
      var id := if ops[0].OpInstall? then Install(fs, ops[0].filter).1 else Err;
      (if id.Ok? then [id.value] else []) + Issued(StepFilters(fs, ops[0]), ops[1..])
  }

  /** Ids strictly increase over every run and start above every id in use, so none is ever reused,
      not even after its filter was removed. */
  lemma {:induction false} IdsAreNeverReused(fs: FilterSet, ops: seq<FilterOp>)
    requires IdsBelowCounter(fs)
    ensures forall i :: 0 <= i < |Issued(fs, ops)| ==>
              fs.idCounter < Issued(fs, ops)[i] <= RunFilters(fs, ops).idCounter
    ensures forall i, j :: 0 <= i < j < |Issued(fs, ops)| ==> Issued(fs, ops)[i] < Issued(fs, ops)[j]
    ensures fs.idCounter <= RunFilters(fs, ops).idCounter
    ensures IdsBelowCounter(RunFilters(fs, ops))
    decreases |ops|
  {
    if ops != [] {
      IdsAreNeverReused(StepFilters(fs, ops[0]), ops[1..]);
    }
  }

  function Notices(events: seq<Event>): seq<FilterOp> {
    seq(|events|, i requires 0 <= i < |events| => OpNotify(events[i]))
  }

  lemma {:induction false} NotifyAllIsRun(fs: FilterSet, events: seq<Event>)
    ensures NotifyAll(fs, events) == RunFilters(fs, Notices(events))
    decreases |events|
  {
    if events != [] {
      assert Notices(events)[1..] == Notices(events[1..]);
      NotifyAllIsRun(Notify(fs, events[0]), events[1..]);
    }
  }

  lemma {:induction false} NotifyAllAppend(fs: FilterSet, events: seq<Event>, e: Event)
    ensures NotifyAll(fs, events + [e]) == Notify(NotifyAll(fs, events), e)
    decreases |events|
  {
    if events == [] {
      assert [] + [e] == [e];
    } else {
      assert (events + [e])[1..] == events[1..] + [e];
      NotifyAllAppend(Notify(fs, events[0]), events[1..], e);
    }
  }

  lemma {:induction false} RunFiltersAppend(fs: FilterSet, first: seq<FilterOp>, second: seq<FilterOp>)
    ensures RunFilters(fs, first + second) == RunFilters(RunFilters(fs, first), second)
    decreases |first|
  {
    if first == [] {
      assert [] + second == second;
    } else {
      assert (first + second)[1..] == first[1..] + second;
      RunFiltersAppend(StepFilters(fs, first[0]), first[1..], second);
    }
  }

  /* ---------- the mutable object ---------- */

  class EthFilters {
    var idCounter: nat
    var filters: map<nat, Filter>

    ghost function State(): FilterSet
      reads this
    {
      FilterSet(idCounter, filters)
    }

    constructor ()
      ensures State() == NO_FILTERS
    {
      idCounter := 0;
      filters := map[];
    }

    method Load(saved: FilterSet)
      modifies this
      ensures State() == saved
    {
      idCounter := saved.idCounter;
      filters := saved.filters;
    }

    method Add(f: Filter) returns (r: Result<nat>)
      modifies this
      ensures (State(), r) == Install(old(State()), f)
    {
      if idCounter + 1 > U256_MAX {
        return Err;
      }
      idCounter := idCounter + 1;
      filters := filters[idCounter := f];
      return Ok(idCounter);
    }

    method AddBlockFilter() returns (r: Result<nat>)
      modifies this
      ensures (State(), r) == Install(old(State()), BlockFilter([]))
    {
      r := Add(BlockFilter([]));
    }

    method AddLogFilter(q: LogQuery) returns (r: Result<nat>)
      modifies this
      ensures (State(), r) == Install(old(State()), LogFilter(q, []))
    {
      r := Add(LogFilter(q, []));
    }

    method AddPendingTransactionFilter() returns (r: Result<nat>)
      modifies this
      ensures (State(), r) == Install(old(State()), PendingFilter([]))
    {
      r := Add(PendingFilter([]));
    }

    method RemoveFilter(id: nat) returns (existed: bool)
      modifies this`filters
      ensures (State(), existed) == Remove(old(State()), id)
    {
      existed := id in filters;
      filters := filters - {id};
    }

    method GetNewChanges(id: nat) returns (r: Result<Changes>)
      modifies this`filters
      ensures (State(), r) == Poll(old(State()), id)
    {
      if id !in filters {
        return Err;
      }
      var f := filters[id];
      match f
      case BlockFilter(hashes) =>
        if hashes == [] {
          assert filters == filters[id := f];
          return Ok(Empty);
        }
        filters := filters[id := BlockFilter([])];
        return Ok(Hashes(hashes));
      case LogFilter(q, logs) =>
        if logs == [] {
          assert filters == filters[id := f];
          return Ok(Empty);
        }
        filters := filters[id := LogFilter(q, [])];
        return Ok(Logs(logs));
      case PendingFilter(hashes) =>
        if hashes == [] {
          assert filters == filters[id := f];
          return Ok(Empty);
        }
        filters := filters[id := PendingFilter([])];
        return Ok(Hashes(hashes));
    }

    /** Offers one event to every filter; the map is visited in no particular order. */
    method Broadcast(e: Event)
      modifies this`filters
      ensures State() == Notify(old(State()), e)
    {
      var todo := filters.Keys;
      while todo != {}
        invariant todo <= filters.Keys == old(filters).Keys
        invariant forall id :: id in filters ==>
                    filters[id] == if id in todo then old(filters)[id] else Hear(old(filters)[id], e)
        decreases |todo|
      {
        var id :| id in todo;
        match filters[id] {
          case BlockFilter(hashes) =>
            if e.NewBlock? {
              filters := filters[id := BlockFilter(hashes + [e.hash])];
            }
          case LogFilter(q, logs) =>
            if e.NewLog? {
              var matched := MatchLog(q, e.log, e.latest);
              if matched {
                filters := filters[id := LogFilter(q, logs + [e.log])];
              }
            }
          case PendingFilter(hashes) =>
            if e.NewPending? {
              filters := filters[id := PendingFilter(hashes + [e.hash])];
            }
        }
        todo := todo - {id};
      }
      assert filters == Notify(old(State()), e).filters;
    }
  }
}
