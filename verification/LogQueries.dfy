/** What a log query returns: the matching logs receipt by receipt, each exactly once. */
module LogQueries {
  import opened Base
  import opened Filters
  import opened NodeModel
  import opened Coupling
  import opened Chain
  import opened Runs
  import opened Delivery
  import opened Receipts

  predicate Distinct<T(==)>(s: seq<T>) {
    forall i, j :: 0 <= i < j < |s| ==> s[i] != s[j]
  }

  /** `order` visits every key once. */
  ghost predicate Visits(order: seq<Hash>, keys: set<Hash>) {
    Distinct(order) && forall k :: k in order <==> k in keys
  }

  /** The logs that match, in their order. */
  function Matching(q: LogQuery, logs: seq<Log>, latest: nat): seq<Log> {
    if logs == [] then []
    else
      var front, last := logs[..|logs| - 1], logs[|logs| - 1];
      Matching(q, front, latest) + if Matches(q, last, latest) then [last] else []
  }

  /** The matching logs of the receipts in the order visited; a hash map has no order of its own. */
  function Collected(q: LogQuery, results: map<Hash, TxResult>, order: seq<Hash>, latest: nat): seq<Log> {
    if order == [] then []
    else
      var front, last := order[..|order| - 1], order[|order| - 1];
      Collected(q, results, front, latest) + if last in results then Matching(q, results[last].logs, latest) else []
  }

  lemma {:induction false} MatchingMembers(q: LogQuery, logs: seq<Log>, latest: nat, log: Log)
    ensures log in Matching(q, logs, latest) <==> log in logs && Matches(q, log, latest)
  {
    if logs != [] {
      var front, last := logs[..|logs| - 1], logs[|logs| - 1];
      MatchingMembers(q, front, latest, log);
      assert logs == front + [last];
    }
  }

  lemma {:induction false} CollectedMembers(q: LogQuery, results: map<Hash, TxResult>, order: seq<Hash>, latest: nat,
                                            log: Log)
    ensures log in Collected(q, results, order, latest)
       <==> exists h :: h in order && h in results && log in results[h].logs && Matches(q, log, latest)
  {
    if order != [] {
      var front, last := order[..|order| - 1], order[|order| - 1];
      CollectedMembers(q, results, front, latest, log);
      if last in results {
        MatchingMembers(q, results[last].logs, latest, log);
      }
      assert order == front + [last];
    }
  }

  lemma {:induction false} MatchingIsDistinct(q: LogQuery, logs: seq<Log>, latest: nat)
    requires Distinct(logs)
    ensures Distinct(Matching(q, logs, latest))
  {
    if logs != [] {
      var front, last := logs[..|logs| - 1], logs[|logs| - 1];
      MatchingIsDistinct(q, front, latest);
      MatchingMembers(q, front, latest, last);
    }
  }

  /** No log is in two receipts, or twice in one. */
  ghost predicate Separate(results: map<Hash, TxResult>) {
    && (forall h :: h in results ==> Distinct(results[h].logs))
    && (forall h, k, l :: h in results && k in results && l in results[h].logs && l in results[k].logs ==> h == k)
  }

  lemma ReceiptsAreSeparate(n: Node)
    requires ReceiptsMatch(n)
    ensures Separate(n.txResults)
  {
  }

  lemma {:induction false} CollectedIsDistinct(q: LogQuery, results: map<Hash, TxResult>, order: seq<Hash>, latest: nat)
    requires Separate(results) && Distinct(order)
    ensures Distinct(Collected(q, results, order, latest))
  {
    if order != [] {
      var front, last := order[..|order| - 1], order[|order| - 1];
      CollectedIsDistinct(q, results, front, latest);
      if last in results {
        var head, tail := Collected(q, results, front, latest), Matching(q, results[last].logs, latest);
        MatchingIsDistinct(q, results[last].logs, latest);
        forall i, j | 0 <= i < |head| && 0 <= j < |tail|
          ensures head[i] != tail[j]
        {
          CollectedMembers(q, results, front, latest, head[i]);
          MatchingMembers(q, results[last].logs, latest, tail[j]);
        }
      }
    }
  }

  lemma {:induction false} DistinctOnce<T>(s: seq<T>, x: T)
    requires Distinct(s)
    ensures multiset(s)[x] == if x in s then 1 else 0
  {
    if s != [] {
      var front, last := s[..|s| - 1], s[|s| - 1];
      assert s == front + [last];
      DistinctOnce(front, x);
    }
  }

  /** Whatever the order of the visit, every recorded log that matches at the head is returned exactly
      once, and nothing else is. */
  lemma EachLogOnce(n: Node, q: LogQuery, order: seq<Hash>)
    requires ReceiptsMatch(n) && Visits(order, n.txResults.Keys)
    ensures multiset(Collected(q, n.txResults, order, n.miniblock)) == multiset(QueryLogs(n, q))
  {
    var logs := Collected(q, n.txResults, order, n.miniblock);
    ReceiptsAreSeparate(n);
    CollectedIsDistinct(q, n.txResults, order, n.miniblock);
    forall log
      ensures multiset(logs)[log] == multiset(QueryLogs(n, q))[log]
    {
      CollectedMembers(q, n.txResults, order, n.miniblock, log);
      DistinctOnce(logs, log);
    }
  }

  /** The members, whether or not the receipts match the chain. */
  lemma CollectedExactly(n: Node, q: LogQuery, order: seq<Hash>)
    requires Visits(order, n.txResults.Keys)
    ensures var logs := Collected(q, n.txResults, order, n.miniblock);
            && (forall l :: l in logs <==> l in QueryLogs(n, q))
            && (ReceiptsMatch(n) ==> multiset(logs) == multiset(QueryLogs(n, q)))
  {
    var logs := Collected(q, n.txResults, order, n.miniblock);
    forall l
      ensures l in logs <==> l in QueryLogs(n, q)
    {
      CollectedMembers(q, n.txResults, order, n.miniblock, l);
    }
    if ReceiptsMatch(n) {
      EachLogOnce(n, q, order);
    }
  }

  lemma VisitOne(order: seq<Hash>, keys: set<Hash>, todo: set<Hash>, h: Hash)
    requires Visits(order, keys - todo) && h in todo && todo <= keys
    ensures Visits(order + [h], keys - (todo - {h}))
    ensures (order + [h])[..|order|] == order
  {
    assert forall k :: k in order + [h] <==> k in order || k == h;
  }

  /** The same in every reachable state. */
  lemma EachLogOnceInEveryState(sys: Sys, ops: seq<Op>, q: LogQuery, order: seq<Hash>)
    requires GoodSys(sys) && Everywhere(n => ReceiptsMatch(n), sys, 0)
    requires AdmissibleRun(sys, ops) && Run(sys, ops).Some?
    requires Visits(order, Run(sys, ops).value.node.txResults.Keys)
    ensures var n := Run(sys, ops).value.node;
            multiset(Collected(q, n.txResults, order, n.miniblock)) == multiset(QueryLogs(n, q))
  {
    ReceiptsAlwaysMatch(sys, ops);
    EachLogOnce(Run(sys, ops).value.node, q, order);
  }

  /* ---------- what a commit announces ---------- */

  lemma {:induction false} LogsAreHeard(fs: FilterSet, logs: seq<Log>, latest: nat, id: nat)
    requires id in fs.filters
    ensures var fs' := NotifyAll(fs, LogEvents(logs, latest));
            && id in fs'.filters
            && fs'.filters[id] == (match fs.filters[id]
                                   case LogFilter(q, waiting) => LogFilter(q, waiting + Matching(q, logs, latest))
                                   case other => other)
    decreases |logs|
  {
    if logs != [] {
      var front, last := logs[..|logs| - 1], logs[|logs| - 1];
      LogsAreHeard(fs, front, latest, id);
      NotifyAllAppend(fs, LogEvents(front, latest), NewLog(last, latest));
      assert LogEvents(logs, latest) == LogEvents(front, latest) + [NewLog(last, latest)];
    }
  }

  /** What a commit adds to each filter: to a pending filter the transaction's hash, to a block filter the
      hashes of the transaction block and of the trailing block, and to a log filter those logs of the
      recorded receipt that it matches at the transaction block, in the order of the receipt. */
  lemma CommitIsAnnounced(n: Node, tx: Tx, run: VmRun, id: nat)
    requires Good(n) && HasRoom(n) && CommitTx(n, tx, run).Some? && id in n.filters.filters
    ensures var n' := CommitTx(n, tx, run).value;
            && id in n'.filters.filters && tx.hash in n'.txResults
            && n.miniblock + 1 in n'.blockHashes && n.miniblock + 2 in n'.blockHashes
            && n'.filters.filters[id] == (match n.filters.filters[id]
                 case PendingFilter(hashes) => PendingFilter(hashes + [tx.hash])
                 case BlockFilter(hashes) =>
                   BlockFilter(hashes + [n'.blockHashes[n.miniblock + 1], n'.blockHashes[n.miniblock + 2]])
                 case LogFilter(q, logs) =>
                   LogFilter(q, logs + Matching(q, n'.txResults[tx.hash].logs, n.miniblock + 1)))
  {
    var b1 := TxBlock(n, tx.hash, NextContext(n));
    CommitFilters(n, tx, run);
    CommitResults(n, tx, run);
    CommitGrows(n, tx, run);
    CommitCounters(n, tx, run);
    LogsAreHeard(Notify(n.filters, NewPending(tx.hash)), MakeLogs(run.events, b1, tx.hash), b1.number, id);
    if n.filters.filters[id].BlockFilter? {
      var hashes := n.filters.filters[id].hashes;
      var b2 := TrailingBlock(NextContext(n), b1);
      assert hashes + [b1.hash] + [b2.hash] == hashes + [b1.hash, b2.hash];
    }
  }
}
