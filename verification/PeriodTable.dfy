// The rows of the price-period view: they rise in position, carry the quarter they lie in, and tell
// which count each iteration carried.
module PeriodTable {
  import opened Wrappers
  import opened Positions
  import opened Calendars
  import opened Ledger
  import opened SeedMedian
  import opened PricePeriods
  import opened PrefixStability

  ghost predicate Rising(ps: seq<Period>) {
    forall i, j | 0 <= i < j < |ps| :: ps[i].at.Before(ps[j].at)
  }

  ghost predicate Dated(c: Calendar, ps: seq<Period>) {
    forall i | 0 <= i < |ps| :: ps[i].quarter >= 1 && ps[i].quarter == QuarterOf(c, ps[i].at.epoch)
  }

  ghost predicate InQuarter(ps: seq<Period>, q: nat) {
    forall i | 0 <= i < |ps| :: ps[i].quarter == q
  }

  ghost predicate NotAfter(ps: seq<Period>, at: Position) {
    forall i | 0 <= i < |ps| :: ps[i].at.AtMost(at)
  }

  // ---------- rows are filtered in order ----------

  ghost predicate Thinned(a: seq<Period>, b: seq<Period>) {
    if b == [] then a == []
    else
      || Thinned(a, b[..|b| - 1])
      || (a != [] && a[|a| - 1] == b[|b| - 1] && Thinned(a[..|a| - 1], b[..|b| - 1]))
  }

  lemma {:induction false} ThinnedFrom(a: seq<Period>, b: seq<Period>, i: nat)
    requires Thinned(a, b) && i < |a|
    ensures a[i] in b
  {
    if b != [] {
      var m := |b| - 1;
      assert b == b[..m] + [b[m]];
      if Thinned(a, b[..m]) {
        ThinnedFrom(a, b[..m], i);
      } else if i < |a| - 1 {
        ThinnedFrom(a[..|a| - 1], b[..m], i);
      }
    }
  }

  lemma {:induction false} ThinnedRising(a: seq<Period>, b: seq<Period>)
    requires Thinned(a, b) && Rising(b)
    ensures Rising(a)
  {
    if b != [] {
      var m := |b| - 1;
      if Thinned(a, b[..m]) {
        ThinnedRising(a, b[..m]);
      } else {
        var n := |a| - 1;
        ThinnedRising(a[..n], b[..m]);
        forall i | 0 <= i < n
          ensures a[i].at.Before(a[n].at)
        {
          ThinnedFrom(a[..n], b[..m], i);
        }
      }
    }
  }

  // A choice that keeps the position of the auction and dates the period by it.
  ghost predicate Dates(c: Calendar, pick: Auction -> Option<Period>) {
    forall a: Auction :: pick(a).Some? ==>
      pick(a).value.at == a.at && pick(a).value.quarter >= 1 && pick(a).value.quarter == QuarterOf(c, a.at.epoch)
  }

  lemma {:induction false} CollectRising(c: Calendar, pick: Auction -> Option<Period>, auctions: seq<Auction>)
    requires Sorted(auctions) && Dates(c, pick)
    ensures Rising(Collect(pick, auctions)) && Dated(c, Collect(pick, auctions))
    ensures auctions == [] ==> Collect(pick, auctions) == []
    ensures auctions != [] ==> NotAfter(Collect(pick, auctions), auctions[|auctions| - 1].at)
  {
    if auctions != [] {
      var n := |auctions| - 1;
      CollectRising(c, pick, auctions[..n]);
      assert n > 0 ==> auctions[n - 1].at.Before(auctions[n].at);
    }
  }

  lemma {:induction false} SubstantialRising(c: Calendar, t: Tables, count: nat, auctions: seq<Auction>)
    requires Sorted(auctions)
    ensures Rising(Substantial(c, t, count, auctions)) && Dated(c, Substantial(c, t, count, auctions))
  {
    forall a: Auction | Picker(c, t, count)(a).Some?
      ensures Picker(c, t, count)(a).value.at == a.at && Picker(c, t, count)(a).value.quarter >= 1
              && Picker(c, t, count)(a).value.quarter == QuarterOf(c, a.at.epoch)
    {
      PickerDates(c, t, count, a);
    }
    CollectRising(c, Picker(c, t, count), auctions);
  }

  lemma PickerDates(c: Calendar, t: Tables, count: nat, a: Auction)
    requires Picker(c, t, count)(a).Some?
    ensures var p := Picker(c, t, count)(a).value;
            p.at == a.at && p.quarter >= 1 && p.quarter == QuarterOf(c, a.at.epoch)
  {
  }

  lemma {:induction false} ThinnedNothing(b: seq<Period>)
    ensures Thinned([], b)
  {
    if b != [] {
      ThinnedNothing(b[..|b| - 1]);
    }
  }

  lemma {:induction false} ThinnedLast(a: seq<Period>, b: seq<Period>, p: Period)
    requires Thinned(a, b)
    ensures Thinned(a, b + [p]) && Thinned(a + [p], b + [p])
  {
    assert (b + [p])[..|b|] == b && (a + [p])[..|a|] == a;
  }

  lemma {:induction false} BeyondSeedsThinned(keep: Period -> bool, rows: seq<Period>)
    ensures Thinned(BeyondSeeds(keep, rows), rows)
  {
    if |rows| <= SEEDS {
      ThinnedNothing(rows);
    } else {
      var n := |rows| - 1;
      var kept := BeyondSeeds(keep, rows[..n]);
      BeyondSeedsThinned(keep, rows[..n]);
      ThinnedLast(kept, rows[..n], rows[n]);
      assert rows == rows[..n] + [rows[n]];
      assert kept + [] == kept;
    }
  }

  lemma {:induction false} BeyondSeedsKept(keep: Period -> bool, rows: seq<Period>, i: nat)
    requires i < |BeyondSeeds(keep, rows)|
    ensures keep(BeyondSeeds(keep, rows)[i])
  {
    var n := |rows| - 1;
    if i < |BeyondSeeds(keep, rows[..n])| {
      BeyondSeedsKept(keep, rows[..n], i);
    }
  }

  lemma {:induction false} CandidatesQuarter(c: Calendar, t: Tables, substantial: seq<Period>, q: nat)
    ensures InQuarter(Candidates(c, t, substantial, q), q)
  {
    var cs := Candidates(c, t, substantial, q);
    forall i | 0 <= i < |cs|
      ensures cs[i].quarter == q
    {
      BeyondSeedsKept(Keeper(c, t, q), substantial, i);
    }
  }

  lemma {:induction false} FlagThinned(test: Test, anchor: Price, candidates: seq<Period>)
    ensures Thinned(Flag(test, anchor, candidates).emitted, candidates)
  {
    if candidates != [] {
      var n := |candidates| - 1;
      FlagThinned(test, anchor, candidates[..n]);
      ThinnedLast(Flag(test, anchor, candidates[..n]).emitted, candidates[..n], candidates[n]);
      assert candidates == candidates[..n] + [candidates[n]];
    }
  }

  // Rows of one quarter, in order.
  ghost predicate QuarterRows(c: Calendar, ps: seq<Period>, q: nat) {
    Rising(ps) && Dated(c, ps) && InQuarter(ps, q)
  }

  lemma {:induction false} ThinnedRows(c: Calendar, a: seq<Period>, b: seq<Period>, q: nat)
    requires Thinned(a, b) && QuarterRows(c, b, q)
    ensures QuarterRows(c, a, q)
  {
    ThinnedRising(a, b);
    forall i | 0 <= i < |a|
      ensures a[i].quarter == q && a[i].quarter >= 1 && a[i].quarter == QuarterOf(c, a[i].at.epoch)
    {
      ThinnedFrom(a, b, i);
    }
  }

  lemma {:induction false} CandidateRows(c: Calendar, t: Tables, substantial: seq<Period>, q: nat)
    requires Rising(substantial) && Dated(c, substantial)
    ensures QuarterRows(c, Candidates(c, t, substantial, q), q)
  {
    var cs := Candidates(c, t, substantial, q);
    BeyondSeedsThinned(Keeper(c, t, q), substantial);
    CandidatesQuarter(c, t, substantial, q);
    ThinnedRising(cs, substantial);
    forall i | 0 <= i < |cs|
      ensures cs[i].quarter >= 1 && cs[i].quarter == QuarterOf(c, cs[i].at.epoch)
    {
      ThinnedFrom(cs, substantial, i);
    }
  }

  // The rows of one iteration rise and lie in its quarter.
  lemma {:induction false} ResultRows(c: Calendar, t: Tables, auctions: seq<Auction>, last: Option<Price>, count: nat,
                                      q: nat)
    requires Sorted(auctions)
    ensures QuarterRows(c, Results(c, t, auctions, last, count, q), q)
  {
    var substantial := Substantial(c, t, count, auctions);
    var candidates := Candidates(c, t, substantial, q);
    SubstantialRising(c, t, count, auctions);
    CandidateRows(c, t, substantial, q);
    if candidates != [] {
      FlagThinned(BandTest(c, t), OrElse(last, SeedAnchor(substantial)), candidates);
      ThinnedRows(c, Results(c, t, auctions, last, count, q), candidates, q);
    }
  }

  // ---------- the whole table ----------

  function CountIn(ps: seq<Period>, q: nat): nat {
    if ps == [] then 0
    else CountIn(ps[..|ps| - 1], q) + if ps[|ps| - 1].quarter == q then 1 else 0
  }

  lemma {:induction false} CountAppend(a: seq<Period>, b: seq<Period>, q: nat)
    ensures CountIn(a + b, q) == CountIn(a, q) + CountIn(b, q)
  {
    if b == [] {
      assert a + b == a;
    } else {
      var n := |b| - 1;
      assert (a + b)[..|a + b| - 1] == a + b[..n];
      CountAppend(a, b[..n], q);
    }
  }

  lemma {:induction false} CountUniform(ps: seq<Period>, quarter: nat, q: nat)
    requires InQuarter(ps, quarter)
    ensures CountIn(ps, q) == if q == quarter then |ps| else 0
  {
    if ps != [] {
      CountUniform(ps[..|ps| - 1], quarter, q);
    }
  }

  // Later quarters hold later positions.
  lemma {:induction false} RisingAppend(c: Calendar, ps: seq<Period>, rs: seq<Period>, q: nat)
    requires Rising(ps) && Dated(c, ps) && QuarterRows(c, rs, q)
    requires forall i | 0 <= i < |ps| :: ps[i].quarter < q
    ensures Rising(ps + rs) && Dated(c, ps + rs)
  {
    forall i, j | 0 <= i < |ps| && 0 <= j < |rs|
      ensures ps[i].at.Before(rs[j].at)
    {
      if rs[j].at.epoch <= ps[i].at.epoch {
        QuarterMonotone(c, rs[j].at.epoch, ps[i].at.epoch);
      }
    }
  }

  // What holds after the loop has visited some quarters: the rows rise, lie in visited quarters, and
  // the carried count is that of the quarter visited last.
  ghost predicate LoopKeeps(c: Calendar, quarters: seq<nat>, s: LoopState) {
    && Rising(s.periods) && Dated(c, s.periods)
    && (forall i | 0 <= i < |s.periods| :: s.periods[i].quarter in quarters)
    && s.count == (if quarters == [] then 0 else CountIn(s.periods, quarters[|quarters| - 1]))
  }

  ghost predicate AllBelow(qs: seq<nat>, q: nat) {
    forall i | 0 <= i < |qs| :: qs[i] < q
  }

  lemma {:induction false} IterationKeeps(c: Calendar, t: Tables, auctions: seq<Auction>, quarters: seq<nat>,
                                          s: LoopState, q: nat)
    requires Sorted(auctions) && AllBelow(quarters, q) && LoopKeeps(c, quarters, s)
    ensures LoopKeeps(c, quarters + [q], Iterate(c, t, auctions, s, q))
  {
    var rs := Results(c, t, auctions, s.last, s.count, q);
    var s' := Iterate(c, t, auctions, s, q);
    ResultRows(c, t, auctions, s.last, s.count, q);
    assert s'.periods == s.periods + rs;
    RisingAppend(c, s.periods, rs, q);
    CountAppend(s.periods, rs, q);
    CountUniform(rs, q, q);
    NoneCounted(s.periods, q);
    forall i | 0 <= i < |s'.periods|
      ensures s'.periods[i].quarter in quarters + [q]
    {
      if i < |s.periods| {
        assert s'.periods[i] == s.periods[i];
      }
    }
  }

  lemma {:induction false} NoneCounted(ps: seq<Period>, q: nat)
    requires forall i | 0 <= i < |ps| :: ps[i].quarter != q
    ensures CountIn(ps, q) == 0
  {
    if ps != [] {
      NoneCounted(ps[..|ps| - 1], q);
    }
  }

  lemma AscendingLast(qs: seq<nat>)
    requires Ascending(qs) && qs != []
    ensures Ascending(qs[..|qs| - 1]) && AllBelow(qs[..|qs| - 1], qs[|qs| - 1])
  {
  }

  lemma {:induction false} NextKept(c: Calendar, t: Tables, auctions: seq<Auction>, quarters: seq<nat>)
    requires Sorted(auctions) && quarters != [] && AllBelow(quarters[..|quarters| - 1], quarters[|quarters| - 1])
    requires LoopKeeps(c, quarters[..|quarters| - 1], Loop(c, t, auctions, quarters[..|quarters| - 1]))
    ensures LoopKeeps(c, quarters, Loop(c, t, auctions, quarters))
  {
    var n := |quarters| - 1;
    assert quarters == quarters[..n] + [quarters[n]];
    IterationKeeps(c, t, auctions, quarters[..n], Loop(c, t, auctions, quarters[..n]), quarters[n]);
  }

  lemma {:induction false} LoopKept(c: Calendar, t: Tables, auctions: seq<Auction>, quarters: seq<nat>)
    requires Sorted(auctions) && Ascending(quarters)
    ensures LoopKeeps(c, quarters, Loop(c, t, auctions, quarters))
  {
    if quarters != [] {
      var n := |quarters| - 1;
      AscendingLast(quarters);
      LoopKept(c, t, auctions, quarters[..n]);
      NextKept(c, t, auctions, quarters);
    }
  }

  // Periods rise strictly in position, so the view's unique index holds and a payment has one first
  // later period.
  lemma {:induction false} QualifyingRises(c: Calendar, t: Tables, auctions: seq<Auction>)
    requires Sorted(auctions)
    ensures Rising(QualifyingPeriods(c, t, auctions)) && Dated(c, QualifyingPeriods(c, t, auctions))
  {
    QuartersAscend(c, auctions);
    LoopKept(c, t, auctions, Quarters(c, auctions));
  }

  // ---------- where rows come from ----------

  // The auction at the row's position: of its quarter, with its lot and claim, measured against thresholds.
  ghost predicate TellsOf(c: Calendar, t: Tables, a: Auction, p: Period) {
    && p.at == a.at && p.quarter >= 1 && p.quarter == QuarterOf(c, a.at.epoch)
    && LotOf(c, t, a) == Some(p.price.lot) && p.price.claim == a.burned
    && ThresholdsOf(c, t, p.quarter).Some?
  }

  ghost predicate HasAuction(c: Calendar, t: Tables, auctions: seq<Auction>, p: Period) {
    exists i :: 0 <= i < |auctions| && TellsOf(c, t, auctions[i], p)
  }

  ghost predicate AllHaveAuctions(c: Calendar, t: Tables, auctions: seq<Auction>, ps: seq<Period>) {
    forall i | 0 <= i < |ps| :: HasAuction(c, t, auctions, ps[i])
  }

  lemma {:induction false} CollectFrom(pick: Auction -> Option<Period>, auctions: seq<Auction>, i: nat)
    requires i < |Collect(pick, auctions)|
    ensures exists j :: 0 <= j < |auctions| && pick(auctions[j]) == Some(Collect(pick, auctions)[i])
  {
    var n := |auctions| - 1;
    if i < |Collect(pick, auctions[..n])| {
      CollectFrom(pick, auctions[..n], i);
      var j :| 0 <= j < n && pick(auctions[..n][j]) == Some(Collect(pick, auctions)[i]);
      assert pick(auctions[j]) == Some(Collect(pick, auctions)[i]);
    } else {
      assert pick(auctions[n]) == Some(Collect(pick, auctions)[i]);
    }
  }

  lemma PickedHasLot(c: Calendar, t: Tables, count: nat, a: Auction)
    requires Picker(c, t, count)(a).Some?
    ensures TellsOf(c, t, a, Picker(c, t, count)(a).value)
  {
  }

  lemma {:induction false} SubstantialHaveAuctions(c: Calendar, t: Tables, count: nat, auctions: seq<Auction>)
    ensures AllHaveAuctions(c, t, auctions, Substantial(c, t, count, auctions))
  {
    var pick := Picker(c, t, count);
    var rows := Collect(pick, auctions);
    forall i | 0 <= i < |rows|
      ensures HasAuction(c, t, auctions, rows[i])
    {
      CollectFrom(pick, auctions, i);
      var j :| 0 <= j < |auctions| && pick(auctions[j]) == Some(rows[i]);
      PickedHasLot(c, t, count, auctions[j]);
    }
  }

  lemma {:induction false} ThinnedHaveAuctions(c: Calendar, t: Tables, auctions: seq<Auction>, a: seq<Period>,
                                               b: seq<Period>)
    requires Thinned(a, b) && AllHaveAuctions(c, t, auctions, b)
    ensures AllHaveAuctions(c, t, auctions, a)
  {
    forall i | 0 <= i < |a|
      ensures HasAuction(c, t, auctions, a[i])
    {
      ThinnedFrom(a, b, i);
    }
  }

  lemma {:induction false} ResultsHaveAuctions(c: Calendar, t: Tables, auctions: seq<Auction>, last: Option<Price>,
                                               count: nat, q: nat)
    ensures AllHaveAuctions(c, t, auctions, Results(c, t, auctions, last, count, q))
  {
    var substantial := Substantial(c, t, count, auctions);
    var candidates := Candidates(c, t, substantial, q);
    if candidates != [] {
      SubstantialHaveAuctions(c, t, count, auctions);
      BeyondSeedsThinned(Keeper(c, t, q), substantial);
      ThinnedHaveAuctions(c, t, auctions, candidates, substantial);
      FlagThinned(BandTest(c, t), OrElse(last, SeedAnchor(substantial)), candidates);
      ThinnedHaveAuctions(c, t, auctions, Results(c, t, auctions, last, count, q), candidates);
    }
  }

  lemma {:induction false} LoopHasAuctions(c: Calendar, t: Tables, auctions: seq<Auction>, quarters: seq<nat>)
    ensures AllHaveAuctions(c, t, auctions, Loop(c, t, auctions, quarters).periods)
  {
    if quarters != [] {
      var n := |quarters| - 1;
      var s := Loop(c, t, auctions, quarters[..n]);
      LoopHasAuctions(c, t, auctions, quarters[..n]);
      ResultsHaveAuctions(c, t, auctions, s.last, s.count, quarters[n]);
    }
  }

  // Every row stems from a quarter with an auction that has a lot.
  lemma {:induction false} RowHasAuction(c: Calendar, t: Tables, auctions: seq<Auction>, i: nat)
    requires i < |QualifyingPeriods(c, t, auctions)|
    ensures HasAuction(c, t, auctions, QualifyingPeriods(c, t, auctions)[i])
  {
    LoopHasAuctions(c, t, auctions, Quarters(c, auctions));
  }

  // ---------- the carried count ----------

  lemma {:induction false} IterationCounts(c: Calendar, t: Tables, auctions: seq<Auction>, s: LoopState, q: nat, r: nat)
    requires Sorted(auctions) && r != q
    ensures CountIn(Iterate(c, t, auctions, s, q).periods, r) == CountIn(s.periods, r)
  {
    var rs := Results(c, t, auctions, s.last, s.count, q);
    ResultRows(c, t, auctions, s.last, s.count, q);
    assert Iterate(c, t, auctions, s, q).periods == s.periods + rs;
    CountAppend(s.periods, rs, r);
    CountUniform(rs, q, r);
  }

  lemma {:induction false} LastIterationCounts(c: Calendar, t: Tables, auctions: seq<Auction>, quarters: seq<nat>,
                                               r: nat)
    requires Sorted(auctions) && quarters != [] && r != quarters[|quarters| - 1]
    ensures CountIn(Loop(c, t, auctions, quarters).periods, r) ==
            CountIn(Loop(c, t, auctions, quarters[..|quarters| - 1]).periods, r)
  {
    var m := |quarters| - 1;
    IterationCounts(c, t, auctions, Loop(c, t, auctions, quarters[..m]), quarters[m], r);
  }

  // Rows of quarter r once a list of quarters has been visited.
  function Counter(c: Calendar, t: Tables, auctions: seq<Auction>, r: nat): seq<nat> -> nat {
    (quarters: seq<nat>) => CountIn(Loop(c, t, auctions, quarters).periods, r)
  }

  ghost predicate StillFrom(count: seq<nat> -> nat, quarters: seq<nat>, n: nat) {
    forall k | n <= k < |quarters| :: count(quarters[..k + 1]) == count(quarters[..k])
  }

  lemma {:induction false} UnchangedFrom(count: seq<nat> -> nat, quarters: seq<nat>, n: nat)
    requires n <= |quarters| && StillFrom(count, quarters, n)
    ensures count(quarters) == count(quarters[..n])
    decreases |quarters| - n
  {
    if n == |quarters| {
      assert quarters[..n] == quarters;
    } else {
      UnchangedFrom(count, quarters, n + 1);
    }
  }

  lemma CounterIs(c: Calendar, t: Tables, auctions: seq<Auction>, quarters: seq<nat>, r: nat)
    ensures Counter(c, t, auctions, r)(quarters) == CountIn(Loop(c, t, auctions, quarters).periods, r)
  {
  }

  lemma {:induction false} VisitCounts(c: Calendar, t: Tables, auctions: seq<Auction>, quarters: seq<nat>, k: nat,
                                       r: nat)
    requires Sorted(auctions) && k < |quarters| && r != quarters[k]
    ensures Counter(c, t, auctions, r)(quarters[..k + 1]) == Counter(c, t, auctions, r)(quarters[..k])
  {
    var visited := quarters[..k + 1];
    assert visited[..k] == quarters[..k];
    CounterIs(c, t, auctions, visited, r);
    CounterIs(c, t, auctions, quarters[..k], r);
    LastIterationCounts(c, t, auctions, visited, r);
  }

  lemma {:induction false} StillCounted(c: Calendar, t: Tables, auctions: seq<Auction>, quarters: seq<nat>, n: nat,
                                        r: nat)
    requires Sorted(auctions) && Ascending(quarters) && n < |quarters| && r < quarters[n]
    ensures StillFrom(Counter(c, t, auctions, r), quarters, n)
  {
    forall k | n <= k < |quarters|
      ensures Counter(c, t, auctions, r)(quarters[..k + 1]) == Counter(c, t, auctions, r)(quarters[..k])
    {
      assert n < k ==> quarters[n] < quarters[k];
      VisitCounts(c, t, auctions, quarters, k, r);
    }
  }

  // Later iterations add no rows to an earlier quarter.
  lemma {:induction false} EarlierCountFixed(c: Calendar, t: Tables, auctions: seq<Auction>, quarters: seq<nat>, n: nat,
                                             r: nat)
    requires Sorted(auctions) && Ascending(quarters) && n < |quarters| && r < quarters[n]
    ensures CountIn(Loop(c, t, auctions, quarters).periods, r) ==
            CountIn(Loop(c, t, auctions, quarters[..n]).periods, r)
  {
    StillCounted(c, t, auctions, quarters, n, r);
    UnchangedFrom(Counter(c, t, auctions, r), quarters, n);
    CounterIs(c, t, auctions, quarters, r);
    CounterIs(c, t, auctions, quarters[..n], r);
  }

  // Quarters outside the loop hold no rows.
  lemma {:induction false} UnvisitedCount(c: Calendar, t: Tables, auctions: seq<Auction>, quarters: seq<nat>, r: nat)
    requires Sorted(auctions) && Ascending(quarters) && r !in quarters
    ensures CountIn(Loop(c, t, auctions, quarters).periods, r) == 0
  {
    LoopKept(c, t, auctions, quarters);
    NoneCounted(Loop(c, t, auctions, quarters).periods, r);
  }

  function Previous(q: nat): nat {
    if q >= 1 then q - 1 else 0
  }

  lemma {:induction false} PredecessorIndex(qs: seq<nat>, k: nat, i: nat)
    requires Ascending(qs) && k < |qs| && i < |qs| && qs[k] + 1 == qs[i]
    ensures k == i - 1
  {
    var next := if k + 1 < |qs| then qs[k + 1] else 0;
  }

  lemma {:induction false} LoopCount(c: Calendar, t: Tables, auctions: seq<Auction>, quarters: seq<nat>)
    requires Sorted(auctions) && Ascending(quarters)
    ensures Loop(c, t, auctions, quarters).count ==
            if quarters == [] then 0 else CountIn(Loop(c, t, auctions, quarters).periods, quarters[|quarters| - 1])
  {
    LoopKept(c, t, auctions, quarters);
  }

  // The count carried into an iteration is that of the quarter visited before it,
  lemma {:induction false} CarriedCount(c: Calendar, t: Tables, auctions: seq<Auction>, i: nat)
    requires Sorted(auctions) && i < |Quarters(c, auctions)|
    ensures var qs := Quarters(c, auctions);
            Loop(c, t, auctions, qs[..i]).count ==
            if i == 0 then 0 else CountIn(QualifyingPeriods(c, t, auctions), qs[i - 1])
  {
    var qs := Quarters(c, auctions);
    QuartersAscend(c, auctions);
    LoopCount(c, t, auctions, qs[..i]);
    if i > 0 {
      EarlierCountFixed(c, t, auctions, qs, i, qs[i - 1]);
    }
  }

  // A previous quarter that is visited is visited right before.
  lemma {:induction false} VisitedBefore(c: Calendar, auctions: seq<Auction>, i: nat)
    requires Sorted(auctions) && i < |Quarters(c, auctions)|
    requires Previous(Quarters(c, auctions)[i]) in Quarters(c, auctions)
    ensures i > 0 && Quarters(c, auctions)[i - 1] == Previous(Quarters(c, auctions)[i])
  {
    var qs := Quarters(c, auctions);
    QuartersAscend(c, auctions);
    QuartersAre(c, auctions, qs[i]);
    var k :| 0 <= k < |qs| && qs[k] == Previous(qs[i]);
    PredecessorIndex(qs, k, i);
  }

  lemma {:induction false} CarriedCountVisited(c: Calendar, t: Tables, auctions: seq<Auction>, i: nat)
    requires Sorted(auctions) && i < |Quarters(c, auctions)|
    requires Previous(Quarters(c, auctions)[i]) in Quarters(c, auctions)
    ensures var qs := Quarters(c, auctions);
            Loop(c, t, auctions, qs[..i]).count == CountIn(QualifyingPeriods(c, t, auctions), Previous(qs[i]))
  {
    VisitedBefore(c, auctions, i);
    CarriedCount(c, t, auctions, i);
  }

  // which is the count the quarters service reads for the previous quarter exactly when that quarter,
  // from the first on, held an auction, or there is no quarter visited before, or it has no rows.
  lemma {:induction false} CarriedCountAgrees(c: Calendar, t: Tables, auctions: seq<Auction>, i: nat)
    requires Sorted(auctions) && i < |Quarters(c, auctions)|
    ensures var qs, ps := Quarters(c, auctions), QualifyingPeriods(c, t, auctions);
            Loop(c, t, auctions, qs[..i]).count == CountIn(ps, Previous(qs[i])) <==> CountsAgree(c, auctions, qs, ps, i)
  {
    var qs := Quarters(c, auctions);
    var previous := Previous(qs[i]);
    QuartersAre(c, auctions, previous);
    CarriedCount(c, t, auctions, i);
    if previous in qs {
      CarriedCountVisited(c, t, auctions, i);
    } else {
      QuartersAscend(c, auctions);
      UnvisitedCount(c, t, auctions, qs, previous);
    }
  }

  ghost predicate CountsAgree(c: Calendar, auctions: seq<Auction>, qs: seq<nat>, ps: seq<Period>, i: nat)
    requires i < |qs|
  {
    || (Previous(qs[i]) >= 1 && HoldsAuction(c, auctions, Previous(qs[i])))
    || i == 0
    || CountIn(ps, qs[i - 1]) == 0
  }
}
