// Later auctions only ever extend the list of price periods, although every iteration renumbers the
// auctions, recomputes the seeds and applies the carried count to all quarters.
module PrefixStability {
  import opened Wrappers
  import opened Calendars
  import opened Ledger
  import opened SeedMedian
  import opened PricePeriods

  function QuarterOfAuction(c: Calendar, a: Auction): nat {
    QuarterOf(c, a.at.epoch)
  }

  // ---------- quarters of a sorted table ----------

  ghost predicate Ascending(qs: seq<nat>) {
    forall i, j | 0 <= i < j < |qs| :: qs[i] < qs[j]
  }

  lemma SortedPrefix(auctions: seq<Auction>, n: nat)
    requires Sorted(auctions) && n <= |auctions|
    ensures Sorted(auctions[..n])
  {
  }

  ghost predicate HoldsAuction(c: Calendar, auctions: seq<Auction>, q: nat) {
    exists a :: a in auctions && QuarterOfAuction(c, a) == q
  }

  lemma {:induction false} HoldsAppend(c: Calendar, auctions: seq<Auction>, x: Auction, q: nat)
    ensures HoldsAuction(c, auctions + [x], q) <==> HoldsAuction(c, auctions, q) || QuarterOfAuction(c, x) == q
  {
    assert x in auctions + [x];
    if HoldsAuction(c, auctions, q) {
      var a :| a in auctions && QuarterOfAuction(c, a) == q;
      assert a in auctions + [x];
    }
  }

  // How the visited quarters grow with a later auction.
  lemma {:induction false} QuartersAppend(c: Calendar, auctions: seq<Auction>, x: Auction)
    ensures var qs, q := Quarters(c, auctions), QuarterOfAuction(c, x);
            Quarters(c, auctions + [x]) == if q == 0 || (qs != [] && qs[|qs| - 1] == q) then qs else qs + [q]
  {
    assert (auctions + [x])[..|auctions|] == auctions;
  }

  ghost predicate Within(qs: seq<nat>, cap: nat) {
    forall i | 0 <= i < |qs| :: 1 <= qs[i] <= cap
  }

  lemma {:induction false} QuartersCapped(c: Calendar, auctions: seq<Auction>, cap: nat)
    requires forall i | 0 <= i < |auctions| :: QuarterOfAuction(c, auctions[i]) <= cap
    ensures Within(Quarters(c, auctions), cap)
  {
    if auctions != [] {
      var n := |auctions| - 1;
      var init, x := auctions[..n], auctions[n];
      assert auctions == init + [x] && QuarterOfAuction(c, x) <= cap;
      QuartersCapped(c, init, cap);
      QuartersAppend(c, init, x);
    }
  }

  lemma {:induction false} EarlierQuarters(c: Calendar, auctions: seq<Auction>, x: Auction)
    requires Sorted(auctions + [x])
    ensures forall i | 0 <= i < |auctions| :: QuarterOfAuction(c, auctions[i]) <= QuarterOfAuction(c, x)
  {
    var all := auctions + [x];
    forall i | 0 <= i < |auctions|
      ensures QuarterOfAuction(c, auctions[i]) <= QuarterOfAuction(c, x)
    {
      assert all[i].at.Before(all[|auctions|].at);
      QuarterMonotone(c, auctions[i].at.epoch, x.at.epoch);
    }
  }

  // The loop visits its quarters in ascending order,
  lemma {:induction false} QuartersAscend(c: Calendar, auctions: seq<Auction>)
    requires Sorted(auctions)
    ensures Ascending(Quarters(c, auctions))
  {
    if auctions != [] {
      var n := |auctions| - 1;
      var init, x := auctions[..n], auctions[n];
      assert auctions == init + [x];
      QuartersAscend(c, init);
      EarlierQuarters(c, init, x);
      QuartersCapped(c, init, QuarterOfAuction(c, x));
      QuartersAppend(c, init, x);
      var qs, q := Quarters(c, init), QuarterOfAuction(c, x);
      if qs == [] || qs[|qs| - 1] != q {
        LastIsNotNew(qs, q);
      }
    }
  }

  // and they are exactly the quarters, from the first on, that hold an auction.
  lemma {:induction false} QuartersAre(c: Calendar, auctions: seq<Auction>, q: nat)
    ensures q in Quarters(c, auctions) <==> q >= 1 && HoldsAuction(c, auctions, q)
  {
    if auctions != [] {
      var n := |auctions| - 1;
      var init, x := auctions[..n], auctions[n];
      assert auctions == init + [x];
      QuartersAre(c, init, q);
      HoldsAppend(c, init, x, q);
      QuartersAppend(c, init, x);
    }
  }

  // ---------- one more auction ----------

  function Opt(p: Option<Period>): seq<Period> {
    match p case None => [] case Some(x) => [x]
  }

  lemma {:induction false} CollectAppend(pick: Auction -> Option<Period>, auctions: seq<Auction>, x: Auction)
    ensures Collect(pick, auctions + [x]) == Collect(pick, auctions) + Opt(pick(x))
  {
    assert (auctions + [x])[..|auctions|] == auctions;
  }

  lemma {:induction false} BeyondSeedsAppend(keep: Period -> bool, rows: seq<Period>, p: Period)
    ensures BeyondSeeds(keep, rows + [p]) == BeyondSeeds(keep, rows) + if |rows| >= SEEDS && keep(p) then [p] else []
  {
    assert (rows + [p])[..|rows|] == rows;
  }

  // Rows gain at most one, and once a row beyond the seeds is kept the seeds are settled.
  lemma {:induction false} OneMoreRow(pick: Auction -> Option<Period>, keep: Period -> bool, auctions: seq<Auction>,
                                      x: Auction)
    ensures var before, after := Collect(pick, auctions), Collect(pick, auctions + [x]);
            var cs, cs' := BeyondSeeds(keep, before), BeyondSeeds(keep, after);
            && (cs' == cs || (pick(x).Some? && keep(pick(x).value) && cs' == cs + [pick(x).value]))
            && (cs' != [] ==> |before| >= SEEDS && SeedAnchor(after) == SeedAnchor(before))
  {
    var before, after := Collect(pick, auctions), Collect(pick, auctions + [x]);
    CollectAppend(pick, auctions, x);
    match pick(x)
    case None =>
      assert after == before;
    case Some(p) =>
      assert after == before + [p];
      BeyondSeedsAppend(keep, before, p);
      assert |before| >= SEEDS ==> after[..SEEDS] == before[..SEEDS];
  }

  lemma {:induction false} PickedQuarter(c: Calendar, t: Tables, count: nat, x: Auction, q: nat)
    requires Picker(c, t, count)(x).Some? && Keeper(c, t, q)(Picker(c, t, count)(x).value)
    ensures QuarterOfAuction(c, x) == q
  {
    assert Substantiate(c, t, count, x).value.quarter == QuarterOf(c, x.at.epoch);
  }

  // The candidates of an iteration gain at most the new auction, and its seeds are settled.
  lemma {:induction false} OneMoreCandidate(c: Calendar, t: Tables, count: nat, auctions: seq<Auction>, x: Auction,
                                            q: nat)
    ensures var before, after := Substantial(c, t, count, auctions), Substantial(c, t, count, auctions + [x]);
            var cs, cs' := Candidates(c, t, before, q), Candidates(c, t, after, q);
            && (cs' == cs || (QuarterOfAuction(c, x) == q && exists p :: cs' == cs + [p]))
            && (cs' != [] ==> |before| >= SEEDS && SeedAnchor(after) == SeedAnchor(before))
  {
    OneMoreRow(Picker(c, t, count), Keeper(c, t, q), auctions, x);
    if Candidates(c, t, Substantial(c, t, count, auctions + [x]), q)
       != Candidates(c, t, Substantial(c, t, count, auctions), q) {
      PickedQuarter(c, t, count, x, q);
    }
  }

  lemma {:induction false} FlagAppend(test: Test, anchor: Price, candidates: seq<Period>, p: Period)
    ensures var before := Flag(test, anchor, candidates);
            Flag(test, anchor, candidates + [p]) ==
            if test(p, before.last) then Flagged(before.emitted + [p], p.price) else before
  {
    assert (candidates + [p])[..|candidates|] == candidates;
  }

  ghost predicate AtMostOneMore(before: seq<Period>, after: seq<Period>) {
    after == before || exists p :: after == before + [p]
  }

  lemma {:induction false} OneMoreResult(c: Calendar, t: Tables, auctions: seq<Auction>, x: Auction,
                                         last: Option<Price>, count: nat, q: nat)
    ensures var before, after := Results(c, t, auctions, last, count, q), Results(c, t, auctions + [x], last, count, q);
            AtMostOneMore(before, after) && (QuarterOfAuction(c, x) != q ==> after == before)
  {
    OneMoreCandidate(c, t, count, auctions, x, q);
    var before, after := Substantial(c, t, count, auctions), Substantial(c, t, count, auctions + [x]);
    var cs, cs' := Candidates(c, t, before, q), Candidates(c, t, after, q);
    if cs' != cs {
      var p :| cs' == cs + [p];
      FlagAppend(BandTest(c, t), OrElse(last, SeedAnchor(before)), cs, p);
    }
  }

  lemma {:induction false} IteratePeriods(c: Calendar, t: Tables, auctions: seq<Auction>, s: LoopState, q: nat)
    ensures Iterate(c, t, auctions, s, q).periods == s.periods + Results(c, t, auctions, s.last, s.count, q)
  {
    var results := Results(c, t, auctions, s.last, s.count, q);
    assert results == [] ==> s.periods + results == s.periods;
  }

  lemma {:induction false} IterateElsewhere(c: Calendar, t: Tables, auctions: seq<Auction>, x: Auction, s: LoopState,
                                            q: nat)
    requires QuarterOfAuction(c, x) != q
    ensures Iterate(c, t, auctions + [x], s, q) == Iterate(c, t, auctions, s, q)
  {
    OneMoreResult(c, t, auctions, x, s.last, s.count, q);
  }

  lemma {:induction false} AppendOneMore(ps: seq<Period>, before: seq<Period>, after: seq<Period>)
    requires AtMostOneMore(before, after)
    ensures AtMostOneMore(ps + before, ps + after)
  {
    if after != before {
      var p :| after == before + [p];
      assert ps + after == (ps + before) + [p];
    }
  }

  lemma {:induction false} OneMoreIteration(c: Calendar, t: Tables, auctions: seq<Auction>, x: Auction, s: LoopState,
                                            q: nat)
    ensures AtMostOneMore(Iterate(c, t, auctions, s, q).periods, Iterate(c, t, auctions + [x], s, q).periods)
  {
    OneMoreResult(c, t, auctions, x, s.last, s.count, q);
    IteratePeriods(c, t, auctions, s, q);
    IteratePeriods(c, t, auctions + [x], s, q);
    AppendOneMore(s.periods, Results(c, t, auctions, s.last, s.count, q),
                  Results(c, t, auctions + [x], s.last, s.count, q));
  }

  lemma {:induction false} OneMoreElsewhere(c: Calendar, t: Tables, auctions: seq<Auction>, x: Auction,
                                            quarters: seq<nat>)
    requires forall i | 0 <= i < |quarters| :: quarters[i] != QuarterOfAuction(c, x)
    ensures Loop(c, t, auctions + [x], quarters) == Loop(c, t, auctions, quarters)
  {
    if quarters != [] {
      var n := |quarters| - 1;
      OneMoreElsewhere(c, t, auctions, x, quarters[..n]);
      IterateElsewhere(c, t, auctions, x, Loop(c, t, auctions, quarters[..n]), quarters[n]);
    }
  }

  lemma {:induction false} LastIsNotNew(qs: seq<nat>, q: nat)
    requires Ascending(qs) && Within(qs, q) && (qs == [] || qs[|qs| - 1] != q)
    ensures forall i | 0 <= i < |qs| :: qs[i] < q
  {
    forall i | 0 <= i < |qs|
      ensures qs[i] < q
    {
      assert i < |qs| - 1 ==> qs[i] < qs[|qs| - 1];
    }
  }

  lemma {:induction false} OneMoreInLastQuarter(c: Calendar, t: Tables, auctions: seq<Auction>, x: Auction,
                                                qs: seq<nat>)
    requires Ascending(qs) && qs != [] && qs[|qs| - 1] == QuarterOfAuction(c, x)
    ensures AtMostOneMore(Loop(c, t, auctions, qs).periods, Loop(c, t, auctions + [x], qs).periods)
  {
    var n := |qs| - 1;
    OneMoreElsewhere(c, t, auctions, x, qs[..n]);
    OneMoreIteration(c, t, auctions, x, Loop(c, t, auctions, qs[..n]), qs[n]);
  }

  lemma {:induction false} OneMoreInNewQuarter(c: Calendar, t: Tables, auctions: seq<Auction>, x: Auction, qs: seq<nat>)
    requires forall i | 0 <= i < |qs| :: qs[i] != QuarterOfAuction(c, x)
    requires !HoldsAuction(c, auctions, QuarterOfAuction(c, x))
    ensures AtMostOneMore(Loop(c, t, auctions, qs).periods,
                          Loop(c, t, auctions + [x], qs + [QuarterOfAuction(c, x)]).periods)
  {
    var q := QuarterOfAuction(c, x);
    assert (qs + [q])[..|qs|] == qs;
    OneMoreElsewhere(c, t, auctions, x, qs);
    NothingNew(c, t, auctions, Loop(c, t, auctions, qs), q);
    OneMoreIteration(c, t, auctions, x, Loop(c, t, auctions, qs), q);
  }

  // One later auction extends the list by at most one period.
  lemma {:induction false} OneMoreAuction(c: Calendar, t: Tables, auctions: seq<Auction>, x: Auction)
    requires Sorted(auctions + [x])
    ensures AtMostOneMore(QualifyingPeriods(c, t, auctions), QualifyingPeriods(c, t, auctions + [x]))
  {
    var qs, q := Quarters(c, auctions), QuarterOfAuction(c, x);
    assert (auctions + [x])[..|auctions|] == auctions;
    SortedPrefix(auctions + [x], |auctions|);
    QuartersAscend(c, auctions);
    EarlierQuarters(c, auctions, x);
    QuartersCapped(c, auctions, q);
    QuartersAppend(c, auctions, x);
    if qs != [] && qs[|qs| - 1] == q {
      OneMoreInLastQuarter(c, t, auctions, x, qs);
    } else {
      LastIsNotNew(qs, q);
      if q == 0 {
        OneMoreElsewhere(c, t, auctions, x, qs);
      } else {
        QuartersAre(c, auctions, q);
        OneMoreInNewQuarter(c, t, auctions, x, qs);
      }
    }
  }

  // An iteration for a quarter without auctions emits nothing.
  lemma {:induction false} NothingNew(c: Calendar, t: Tables, auctions: seq<Auction>, s: LoopState, q: nat)
    requires !HoldsAuction(c, auctions, q)
    ensures Iterate(c, t, auctions, s, q).periods == s.periods
  {
    NoCandidates(c, t, s.count, auctions, q);
  }

  lemma {:induction false} NoCandidates(c: Calendar, t: Tables, count: nat, auctions: seq<Auction>, q: nat)
    requires !HoldsAuction(c, auctions, q)
    ensures Candidates(c, t, Substantial(c, t, count, auctions), q) == []
  {
    if auctions != [] {
      var n := |auctions| - 1;
      var init, x := auctions[..n], auctions[n];
      assert auctions == init + [x];
      HoldsAppend(c, init, x, q);
      NoCandidates(c, t, count, init, q);
      OneMoreCandidate(c, t, count, init, x, q);
    }
  }

  // Prefix stability: any number of later auctions extends the list, by no more than their number.
  lemma {:induction false} LaterAuctionsExtend(c: Calendar, t: Tables, auctions: seq<Auction>, later: seq<Auction>)
    requires Sorted(auctions + later)
    ensures QualifyingPeriods(c, t, auctions) <= QualifyingPeriods(c, t, auctions + later)
    ensures |QualifyingPeriods(c, t, auctions + later)| <= |QualifyingPeriods(c, t, auctions)| + |later|
  {
    if later == [] {
      assert auctions + later == auctions;
    } else {
      var n := |later| - 1;
      var most, x := auctions + later[..n], later[n];
      assert auctions + later == most + [x];
      assert (most + [x])[..|most|] == most;
      SortedPrefix(auctions + later, |most|);
      LaterAuctionsExtend(c, t, auctions, later[..n]);
      OneMoreAuction(c, t, most, x);
    }
  }
}
