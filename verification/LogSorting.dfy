// Sorting of fetched logs, and how sorted consecutive ranges make up the chain.
module LogSorting {
  import opened Events

  predicate KeyAtMost<E>(a: Log<E>, b: Log<E>) {
    if a.block != b.block then a.block < b.block
    else if a.transactionIndex != b.transactionIndex then a.transactionIndex < b.transactionIndex
    else a.logIndex <= b.logIndex
  }

  predicate KeyBefore<E>(a: Log<E>, b: Log<E>) {
    KeyAtMost(a, b) && !KeyAtMost(b, a)
  }

  // Block first, then transaction, then log index.
  lemma KeyOrder<E>(a: Log<E>, b: Log<E>)
    ensures a.block < b.block ==> KeyBefore(a, b)
    ensures a.block == b.block && a.transactionIndex < b.transactionIndex ==> KeyBefore(a, b)
    ensures a.block == b.block && a.transactionIndex == b.transactionIndex && a.logIndex < b.logIndex ==>
              KeyBefore(a, b)
    ensures KeyAtMost(a, b) && KeyAtMost(b, a) <==>
            a.block == b.block && a.transactionIndex == b.transactionIndex && a.logIndex == b.logIndex
  {
  }

  ghost predicate KeySorted<E>(logs: seq<Log<E>>) {
    forall i, j | 0 <= i < j < |logs| :: KeyAtMost(logs[i], logs[j])
  }

  // No two logs share a key.
  ghost predicate StrictlySorted<E>(logs: seq<Log<E>>) {
    forall i, j | 0 <= i < j < |logs| :: KeyBefore(logs[i], logs[j])
  }

  // Log indexes run on through the transactions of a block.
  ghost predicate IndexesRunOn<E>(logs: seq<Log<E>>) {
    forall i, j | 0 <= i < |logs| && 0 <= j < |logs| && logs[i].block == logs[j].block ::
      logs[i].transactionIndex < logs[j].transactionIndex ==> logs[i].logIndex < logs[j].logIndex
  }

  // Then logs are in the order of their keys exactly when their positions increase.
  lemma {:induction false} SortedByPosition<E>(logs: seq<Log<E>>)
    requires IndexesRunOn(logs)
    ensures StrictlySorted(logs) <==> Increasing(logs)
  {
    forall i, j | 0 <= i < j < |logs|
      ensures KeyBefore(logs[i], logs[j]) <==> logs[i].At().Before(logs[j].At())
    {
      KeyOrder(logs[i], logs[j]);
      KeyOrder(logs[j], logs[i]);
    }
  }

  // A log takes its place after every log with a key no larger.
  function InsertLog<E>(sorted: seq<Log<E>>, log: Log<E>): seq<Log<E>> {
    if sorted == [] then [log]
    else
      var n := |sorted| - 1;
      if KeyAtMost(sorted[n], log) then sorted + [log] else InsertLog(sorted[..n], log) + [sorted[n]]
  }

  function SortLogs<E>(logs: seq<Log<E>>): seq<Log<E>> {
    if logs == [] then [] else InsertLog(SortLogs(logs[..|logs| - 1]), logs[|logs| - 1])
  }

  lemma {:induction false} InsertKeeps<E>(sorted: seq<Log<E>>, log: Log<E>)
    ensures multiset(InsertLog(sorted, log)) == multiset(sorted) + multiset{log}
    ensures |InsertLog(sorted, log)| == |sorted| + 1
  {
    if sorted != [] {
      var n := |sorted| - 1;
      assert sorted == sorted[..n] + [sorted[n]];
      InsertKeeps(sorted[..n], log);
    }
  }

  lemma {:induction false} InsertFrom<E>(sorted: seq<Log<E>>, log: Log<E>, i: nat)
    requires i < |InsertLog(sorted, log)|
    ensures InsertLog(sorted, log)[i] == log || InsertLog(sorted, log)[i] in sorted
  {
    if sorted != [] {
      var n := |sorted| - 1;
      InsertKeeps(sorted[..n], log);
      if i < n + 1 && !KeyAtMost(sorted[n], log) {
        InsertFrom(sorted[..n], log, i);
      }
    }
  }

  lemma LastIsLargest<E>(logs: seq<Log<E>>, i: nat)
    requires KeySorted(logs) && i < |logs|
    ensures KeyAtMost(logs[i], logs[|logs| - 1])
  {
  }

  lemma {:induction false} InsertSorted<E>(sorted: seq<Log<E>>, log: Log<E>)
    requires KeySorted(sorted)
    ensures KeySorted(InsertLog(sorted, log))
  {
    if sorted != [] {
      var n := |sorted| - 1;
      if KeyAtMost(sorted[n], log) {
        forall i | 0 <= i < |sorted|
          ensures KeyAtMost(sorted[i], log)
        {
          LastIsLargest(sorted, i);
        }
      } else {
        var rest := InsertLog(sorted[..n], log);
        InsertSorted(sorted[..n], log);
        forall i | 0 <= i < |rest|
          ensures KeyAtMost(rest[i], sorted[n])
        {
          InsertFrom(sorted[..n], log, i);
        }
      }
    }
  }

  // The result is the same logs, in order.
  lemma {:induction false} SortLogsSorts<E>(logs: seq<Log<E>>)
    ensures KeySorted(SortLogs(logs)) && multiset(SortLogs(logs)) == multiset(logs)
  {
    if logs != [] {
      var n := |logs| - 1;
      assert logs == logs[..n] + [logs[n]];
      SortLogsSorts(logs[..n]);
      InsertSorted(SortLogs(logs[..n]), logs[n]);
      InsertKeeps(SortLogs(logs[..n]), logs[n]);
    }
  }

  lemma {:induction false} LastAgrees<E>(a: seq<Log<E>>, b: seq<Log<E>>)
    requires KeySorted(a) && StrictlySorted(b) && multiset(a) == multiset(b) && a != [] && b != []
    ensures a[|a| - 1] == b[|b| - 1]
  {
    var x, y := a[|a| - 1], b[|b| - 1];
    assert x in multiset(b) && y in multiset(a);
    var i :| 0 <= i < |a| && a[i] == y;
    var j :| 0 <= j < |b| && b[j] == x;
    LastIsLargest(a, i);
    if j < |b| - 1 {
      assert false;
    }
  }

  lemma {:induction false} WithoutLast<E>(a: seq<Log<E>>)
    requires a != []
    ensures multiset(a[..|a| - 1]) == multiset(a) - multiset{a[|a| - 1]}
  {
    assert a == a[..|a| - 1] + [a[|a| - 1]];
  }

  // A strictly sorted sequence is the only sorted arrangement of its logs.
  lemma {:induction false} SortedIsUnique<E>(a: seq<Log<E>>, b: seq<Log<E>>)
    requires KeySorted(a) && StrictlySorted(b) && multiset(a) == multiset(b)
    ensures a == b
  {
    assert |a| == |multiset(a)| && |b| == |multiset(b)|;
    if b != [] {
      var n := |b| - 1;
      LastAgrees(a, b);
      WithoutLast(a);
      WithoutLast(b);
      SortedIsUnique(a[..n], b[..n]);
      SameEnds(a, b);
    }
  }

  lemma SameEnds<T>(a: seq<T>, b: seq<T>)
    requires |a| == |b| >= 1 && a[..|a| - 1] == b[..|b| - 1] && a[|a| - 1] == b[|b| - 1]
    ensures a == b
  {
  }

  // ---------- ranges of blocks ----------

  function Range<E>(chain: seq<Log<E>>, from: nat, to: int): seq<Log<E>> {
    if chain == [] then []
    else
      var n := |chain| - 1;
      Range(chain[..n], from, to) + if from <= chain[n].block <= to then [chain[n]] else []
  }

  // The logs of the range, each as often as the chain holds it, and no others.
  lemma {:induction false} RangeIs<E>(chain: seq<Log<E>>, from: nat, to: int, log: Log<E>)
    ensures multiset(Range(chain, from, to))[log] == if from <= log.block <= to then multiset(chain)[log] else 0
  {
    if chain != [] {
      var n := |chain| - 1;
      assert chain == chain[..n] + [chain[n]];
      RangeIs(chain[..n], from, to, log);
    }
  }

  lemma {:induction false} RangeFrom<E>(chain: seq<Log<E>>, from: nat, to: int, i: nat)
    requires i < |Range(chain, from, to)|
    ensures Range(chain, from, to)[i] in chain && from <= Range(chain, from, to)[i].block <= to
  {
    var n := |chain| - 1;
    assert chain == chain[..n] + [chain[n]];
    if i < |Range(chain[..n], from, to)| {
      RangeFrom(chain[..n], from, to, i);
    }
  }

  lemma {:induction false} RangeSorted<E>(chain: seq<Log<E>>, from: nat, to: int)
    requires StrictlySorted(chain)
    ensures StrictlySorted(Range(chain, from, to))
  {
    if chain != [] {
      var n := |chain| - 1;
      var r := Range(chain[..n], from, to);
      RangeSorted(chain[..n], from, to);
      forall i | 0 <= i < |r|
        ensures KeyBefore(r[i], chain[n])
      {
        RangeFrom(chain[..n], from, to, i);
      }
    }
  }

  lemma {:induction false} RangeIncreasing<E>(chain: seq<Log<E>>, from: nat, to: int)
    requires Increasing(chain)
    ensures Increasing(Range(chain, from, to))
  {
    if chain != [] {
      var n := |chain| - 1;
      var r := Range(chain[..n], from, to);
      RangeIncreasing(chain[..n], from, to);
      forall i | 0 <= i < |r|
        ensures r[i].At().Before(chain[n].At())
      {
        RangeFrom(chain[..n], from, to, i);
      }
    }
  }

  lemma {:induction false} RangeEmpty<E>(chain: seq<Log<E>>, from: nat, to: int)
    requires to < from
    ensures Range(chain, from, to) == []
  {
    if chain != [] {
      RangeEmpty(chain[..|chain| - 1], from, to);
    }
  }

  lemma {:induction false} EarlierBlocks<E>(chain: seq<Log<E>>)
    requires StrictlySorted(chain) && chain != []
    ensures forall i | 0 <= i < |chain| - 1 :: chain[i].block <= chain[|chain| - 1].block
  {
    forall i | 0 <= i < |chain| - 1
      ensures chain[i].block <= chain[|chain| - 1].block
    {
      assert KeyBefore(chain[i], chain[|chain| - 1]);
    }
  }

  // Consecutive ranges concatenate.
  lemma {:induction false} RangesJoin<E>(chain: seq<Log<E>>, from: nat, mid: int, to: int)
    requires StrictlySorted(chain) && from <= mid + 1 && mid <= to
    ensures Range(chain, from, mid) + Range(chain, mid + 1, to) == Range(chain, from, to)
  {
    if chain != [] {
      var n := |chain| - 1;
      RangesJoin(chain[..n], from, mid, to);
      if from <= chain[n].block <= mid {
        EarlierBlocks(chain);
        NothingAfter(chain[..n], mid + 1, to);
        NothingFollows(Range(chain[..n], from, mid), Range(chain[..n], mid + 1, to), chain[n]);
      } else {
        OneFollows(Range(chain[..n], from, mid), Range(chain[..n], mid + 1, to), chain[n]);
      }
    }
  }

  lemma NothingFollows<T>(early: seq<T>, late: seq<T>, x: T)
    requires late == []
    ensures early + [x] + late == early + late + [x]
  {
  }

  lemma OneFollows<T>(early: seq<T>, late: seq<T>, x: T)
    ensures early + (late + [x]) == early + late + [x]
    ensures early + [] == early && late + [] == late && early + late + [] == early + late
  {
  }

  lemma {:induction false} NothingAfter<E>(chain: seq<Log<E>>, from: nat, to: int)
    requires forall i | 0 <= i < |chain| :: chain[i].block < from
    ensures Range(chain, from, to) == []
  {
    if chain != [] {
      NothingAfter(chain[..|chain| - 1], from, to);
    }
  }

  // Sorting what a node returns for a range, in whatever order, restores the chain's order.
  lemma {:induction false} SortRestores<E>(chain: seq<Log<E>>, from: nat, to: int, logs: seq<Log<E>>)
    requires StrictlySorted(chain) && multiset(logs) == multiset(Range(chain, from, to))
    ensures SortLogs(logs) == Range(chain, from, to)
  {
    SortLogsSorts(logs);
    RangeSorted(chain, from, to);
    SortedIsUnique(SortLogs(logs), Range(chain, from, to));
  }
}
