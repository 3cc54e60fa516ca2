// The minimum lot the quarters service reports for a quarter, against the test the price-period function
// applies to the auctions of that quarter.
module ReportedMinimum {
  import opened Wrappers
  import opened Calendars
  import opened Ledger
  import opened PricePeriods
  import opened PrefixStability
  import opened PeriodTable
  import MinLot

  // The count carried into an iteration, read off the rows of the view.
  function CountCarried(qs: seq<nat>, ps: seq<Period>, i: nat): nat
    requires i < |qs|
  {
    if i == 0 then 0 else CountIn(ps, qs[i - 1])
  }

  function Required(th: Thresholds, n: nat): Option<nat> {
    MinLot.Minimum(th.floor, th.volume, n, th.num, th.den)
  }

  // minLotAttoUsd of a quarter, from the rows of the view in the quarter before.
  function ReportedFor(th: Thresholds, ps: seq<Period>, q: nat): nat {
    MinLot.Reported(th.floor, th.volume, CountIn(ps, Previous(q)), th.num, th.den)
  }

  // An auction is substantial in the iteration of its quarter exactly when its lot reaches what the
  // view and the thresholds of the quarter require.
  lemma {:induction false} TestIsRequired(c: Calendar, t: Tables, auctions: seq<Auction>, i: nat, a: Auction,
                                          th: Thresholds)
    requires Sorted(auctions) && i < |Quarters(c, auctions)|
    requires QuarterOfAuction(c, a) == Quarters(c, auctions)[i] && LotOf(c, t, a).Some?
    requires ThresholdsOf(c, t, Quarters(c, auctions)[i]) == Some(th)
    ensures var qs, ps := Quarters(c, auctions), QualifyingPeriods(c, t, auctions);
            var required := Required(th, CountCarried(qs, ps, i));
            Substantiate(c, t, Loop(c, t, auctions, qs[..i]).count, a).Some? <==>
            required.Some? && LotOf(c, t, a).value >= required.value
  {
    var qs := Quarters(c, auctions);
    var count := Loop(c, t, auctions, qs[..i]).count;
    QuartersAre(c, auctions, qs[i]);
    CarriedCount(c, t, auctions, i);
    SubstantialIs(c, t, count, a, th);
    MinLot.PassesFrom(LotOf(c, t, a).value, th.floor, th.volume, count, th.num, th.den);
  }

  lemma SubstantialIs(c: Calendar, t: Tables, count: nat, a: Auction, th: Thresholds)
    requires QuarterOfAuction(c, a) >= 1 && LotOf(c, t, a).Some?
    requires ThresholdsOf(c, t, QuarterOfAuction(c, a)) == Some(th)
    ensures Substantiate(c, t, count, a).Some? <==>
            MinLot.Passes(LotOf(c, t, a).value, th.floor, th.volume, count, th.num, th.den)
  {
  }

  // The reported minimum is what the function requires whenever the two counts agree and the floor does
  // not bind; an auction of the quarter then passes exactly when its lot reaches the reported minimum.
  lemma {:induction false} ReportDecides(c: Calendar, t: Tables, auctions: seq<Auction>, i: nat, a: Auction,
                                         th: Thresholds)
    requires Sorted(auctions) && i < |Quarters(c, auctions)|
    requires QuarterOfAuction(c, a) == Quarters(c, auctions)[i] && LotOf(c, t, a).Some?
    requires ThresholdsOf(c, t, Quarters(c, auctions)[i]) == Some(th)
    requires var qs, ps := Quarters(c, auctions), QualifyingPeriods(c, t, auctions);
             CountsAgree(c, auctions, qs, ps, i) && FloorIsSlack(th, CountCarried(qs, ps, i))
    ensures var qs, ps := Quarters(c, auctions), QualifyingPeriods(c, t, auctions);
            Substantiate(c, t, Loop(c, t, auctions, qs[..i]).count, a).Some? <==>
            LotOf(c, t, a).value >= ReportedFor(th, ps, qs[i])
  {
    var qs, ps := Quarters(c, auctions), QualifyingPeriods(c, t, auctions);
    TestIsRequired(c, t, auctions, i, a, th);
    CarriedCount(c, t, auctions, i);
    CarriedCountAgrees(c, t, auctions, i);
    SlackAgrees(th, CountCarried(qs, ps, i));
  }

  function Quotient(th: Thresholds, n: nat): nat
    requires th.den > 0 && n > 0
  {
    MinLot.Quotient(th.num, th.volume, th.den, n)
  }

  // With the count carried, the quotient reaches the floor, or plays no part.
  predicate FloorIsSlack(th: Thresholds, n: nat) {
    th.volume == 0 || n == 0 || (th.den > 0 && Quotient(th, n) >= th.floor)
  }

  lemma {:induction false} SlackAgrees(th: Thresholds, n: nat)
    requires FloorIsSlack(th, n)
    ensures Required(th, n) == Some(MinLot.Reported(th.floor, th.volume, n, th.num, th.den))
  {
    if th.volume == 0 && n > 0 && th.den > 0 {
      assert th.num * th.volume == 0;
      MinLot.ZeroQuotient(MinLot.Product(th.den, n));
    }
  }

  // For a carried count n and a reported count m.
  predicate Agree(th: Thresholds, n: nat, m: nat) {
    // nothing was posted,
    || th.volume == 0
    // or the function asks for the floor, and the report too,
    || (n == 0 && (th.den == 0 || m == 0 || Quotient(th, m) <= th.floor))
    // or it asks for its quotient, and the report for the same.
    || (n > 0 && th.den > 0
        && Quotient(th, n) == if m > 0 && Quotient(th, m) > th.floor then Quotient(th, m) else th.floor)
  }

  lemma {:induction false} RequiredIsReported(th: Thresholds, n: nat, m: nat)
    ensures Required(th, n) == Some(MinLot.Reported(th.floor, th.volume, m, th.num, th.den)) <==> Agree(th, n, m)
  {
    if th.volume == 0 && th.den > 0 && m > 0 {
      assert th.num * th.volume == 0;
      MinLot.ZeroQuotient(MinLot.Product(th.den, m));
    }
  }

  // In general the two decide every lot alike exactly as told by the volume posted, the two counts, the
  // denominator, the quotients and the floor.
  lemma {:induction false} ReportAgreesExactly(th: Thresholds, ps: seq<Period>, q: nat, n: nat)
    ensures (forall lot: nat ::
               MinLot.Passes(lot, th.floor, th.volume, n, th.num, th.den) <==> lot >= ReportedFor(th, ps, q))
            <==> Agree(th, n, CountIn(ps, Previous(q)))
  {
    var reported, required := ReportedFor(th, ps, q), Required(th, n);
    RequiredIsReported(th, n, CountIn(ps, Previous(q)));
    forall lot: nat
      ensures MinLot.Passes(lot, th.floor, th.volume, n, th.num, th.den) <==> required.Some? && lot >= required.value
    {
      MinLot.PassesFrom(lot, th.floor, th.volume, n, th.num, th.den);
    }
    if required.Some? && required.value != reported {
      var lot := if required.value < reported then required.value else reported;
      assert !(MinLot.Passes(lot, th.floor, th.volume, n, th.num, th.den) <==> lot >= reported);
    } else if required.None? {
      assert !MinLot.Passes(reported, th.floor, th.volume, n, th.num, th.den);
    }
  }
}
