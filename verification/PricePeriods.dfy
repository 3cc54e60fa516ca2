// Fee auctions that qualify as price periods: the loop over quarters with its carried anchor and
// count, and the queries inside it.
module PricePeriods {
  import opened Wrappers
  import opened Positions
  import opened Calendars
  import opened Events
  import opened Parameters
  import opened AdmittedLists
  import opened Ledger
  import opened SeedMedian
  import MinLot

  type Positive = n: nat | n >= 1 witness 1

  datatype Auction = Auction(contract: Address, token: Address, amount: nat, burned: Positive, at: Position)

  datatype Period = Period(quarter: nat, at: Position, price: Price)

  // The auction table in the order of its window functions; positions are distinct.
  ghost predicate Sorted(auctions: seq<Auction>) {
    forall i, j | 0 <= i < j < |auctions| :: auctions[i].at.Before(auctions[j].at)
  }

  // ---------- whitelisted and substantial auctions ----------

  function Pow10(n: nat): nat {
    if n == 0 then 1 else 10 * Pow10(n - 1)
  }

  lemma {:induction false} Pow10Sum(m: nat, n: nat)
    ensures Pow10(m + n) == Pow10(m) * Pow10(n)
  {
    if m > 0 {
      Pow10Sum(m - 1, n);
      assert Pow10(m + n) == 10 * (Pow10(m - 1) * Pow10(n));
    }
  }

  // Scaling makes one whole token a whole dollar of 10^18 atto-USD, whatever its decimals.
  lemma {:induction false} WholeToken(decimals: Decimals)
    ensures Pow10(decimals) * Pow10(18 - decimals) == 1_000_000_000_000_000_000
    ensures Pow10(18) == 1_000_000_000_000_000_000 && Pow10(0) == 1
  {
    Pow10Sum(decimals, 18 - decimals);
    assert Pow10(6) == 1_000_000;
    Pow10Sum(6, 6);
    Pow10Sum(12, 6);
  }

  // The lot in atto-USD of an auction held on an admitted contract for an admitted token.
  function LotOf(c: Calendar, t: Tables, a: Auction): Option<nat> {
    var q := QuarterOf(c, a.at.epoch);
    if !SqlAdmits(c, t.contracts, a.contract, q) then None
    else
      match SqlData(c, t.tokens, a.token, q)
      case None => None
      case Some(decimals) => Some(a.amount * Pow10(18 - decimals))
  }

  datatype Thresholds = Thresholds(floor: nat, num: nat, den: nat, volume: nat)

  function ThresholdsOf(c: Calendar, t: Tables, q: nat): Option<Thresholds> {
    match (QuarterQuery(c, t.parameters, MinLotFloor, q), QuarterQuery(c, t.parameters, MinLotAlphaNumerator, q),
           QuarterQuery(c, t.parameters, MinLotAlphaDenominator, q))
    case (Some(floor), Some(num), Some(den)) =>
      Some(Thresholds(floor, num, den, if q >= 1 && q - 1 in t.boundVolumes then t.boundVolumes[q - 1] else 0))
    case _ => None
  }

  // A substantial auction, given the count of periods carried by the loop.
  function Substantiate(c: Calendar, t: Tables, count: nat, a: Auction): Option<Period> {
    var q := QuarterOf(c, a.at.epoch);
    if q == 0 then None
    else
      match (LotOf(c, t, a), ThresholdsOf(c, t, q))
      case (Some(lot), Some(th)) =>
        if MinLot.Passes(lot, th.floor, th.volume, count, th.num, th.den)
        then Some(Period(q, a.at, Price(lot, a.burned))) else None
      case _ => None
  }

  // The periods a choice makes of a table of auctions, in its order.
  function Collect(pick: Auction -> Option<Period>, auctions: seq<Auction>): seq<Period> {
    if auctions == [] then []
    else
      var n := |auctions| - 1;
      Collect(pick, auctions[..n]) + match pick(auctions[n]) case None => [] case Some(p) => [p]
  }

  function Picker(c: Calendar, t: Tables, count: nat): Auction -> Option<Period> {
    (a: Auction) => Substantiate(c, t, count, a)
  }

  function Substantial(c: Calendar, t: Tables, count: nat, auctions: seq<Auction>): seq<Period> {
    Collect(Picker(c, t, count), auctions)
  }

  // ---------- one quarter ----------

  function BandOf(c: Calendar, t: Tables, q: nat): Option<nat> {
    QuarterQuery(c, t.parameters, PriceBandBps, q)
  }

  // The rows after the first five that a condition keeps.
  function BeyondSeeds(keep: Period -> bool, rows: seq<Period>): seq<Period> {
    if |rows| <= SEEDS then []
    else
      var n := |rows| - 1;
      BeyondSeeds(keep, rows[..n]) + if keep(rows[n]) then [rows[n]] else []
  }

  function Keeper(c: Calendar, t: Tables, q: nat): Period -> bool {
    (p: Period) => p.quarter == q && BandOf(c, t, q).Some?
  }

  // Auctions of the quarter beyond the seeds, where a price band is known.
  function Candidates(c: Calendar, t: Tables, substantial: seq<Period>, q: nat): seq<Period> {
    BeyondSeeds(Keeper(c, t, q), substantial)
  }

  function Distance(x: int, y: int): nat {
    if x >= y then x - y else y - x
  }

  // auction_passes_price_band
  predicate InBand(price: Price, anchor: Price, band: nat) {
    Distance(price.lot * anchor.claim, anchor.lot * price.claim) * 10000 <= band * anchor.lot * price.claim
  }

  predicate Qualifies(c: Calendar, t: Tables, p: Period, anchor: Price) {
    var band := BandOf(c, t, p.quarter);
    band.Some? && InBand(p.price, anchor, band.value)
  }

  // Whether a period qualifies against the price before it.
  type Test = (Period, Price) -> bool

  function BandTest(c: Calendar, t: Tables): Test {
    (p: Period, anchor: Price) => Qualifies(c, t, p, anchor)
  }

  datatype Flagged = Flagged(emitted: seq<Period>, last: Price)

  // Each candidate is compared with the last one that qualified.
  function Flag(test: Test, anchor: Price, candidates: seq<Period>): Flagged {
    if candidates == [] then Flagged([], anchor)
    else
      var n := |candidates| - 1;
      var before := Flag(test, anchor, candidates[..n]);
      if test(candidates[n], before.last)
      then Flagged(before.emitted + [candidates[n]], candidates[n].price)
      else before
  }

  // COALESCE of the carried price and the seed median.
  function OrElse(last: Option<Price>, seed: Price): Price {
    match last case Some(p) => p case None => seed
  }

  function Prices(periods: seq<Period>): seq<Price> {
    seq(|periods|, i requires 0 <= i < |periods| => periods[i].price)
  }

  // The median of the first five substantial auctions.
  function SeedAnchor(substantial: seq<Period>): Price
    requires |substantial| >= SEEDS
  {
    Median(Prices(substantial[..SEEDS]))
  }

  // ---------- the loop over quarters ----------

  datatype LoopState = LoopState(last: Option<Price>, count: nat, periods: seq<Period>)

  lemma BeyondSeedsNeedsSeeds(keep: Period -> bool, rows: seq<Period>)
    ensures BeyondSeeds(keep, rows) != [] ==> |rows| > SEEDS
  {
  }

  // The rows one iteration qualifies.
  function Results(c: Calendar, t: Tables, auctions: seq<Auction>, last: Option<Price>, count: nat,
                   q: nat): seq<Period> {
    var substantial := Substantial(c, t, count, auctions);
    var candidates := Candidates(c, t, substantial, q);
    if candidates == [] then []
    else
      BeyondSeedsNeedsSeeds(Keeper(c, t, q), substantial);
      Flag(BandTest(c, t), OrElse(last, SeedAnchor(substantial)), candidates).emitted
  }

  function Iterate(c: Calendar, t: Tables, auctions: seq<Auction>, s: LoopState, q: nat): LoopState {
    var results := Results(c, t, auctions, s.last, s.count, q);
    if results == [] then s.(count := 0)
    else LoopState(Some(results[|results| - 1].price), |results|, s.periods + results)
  }

  const START := LoopState(None, 0, [])

  function Loop(c: Calendar, t: Tables, auctions: seq<Auction>, quarters: seq<nat>): LoopState {
    if quarters == [] then START
    else
      var n := |quarters| - 1;
      Iterate(c, t, auctions, Loop(c, t, auctions, quarters[..n]), quarters[n])
  }

  // Quarters that hold an auction, from activation on, in ascending order.
  function Quarters(c: Calendar, auctions: seq<Auction>): seq<nat> {
    if auctions == [] then []
    else
      var n := |auctions| - 1;
      var qs, q := Quarters(c, auctions[..n]), QuarterOf(c, auctions[n].at.epoch);
      if q == 0 || (qs != [] && qs[|qs| - 1] == q) then qs else qs + [q]
  }

  // get_qualifying_price_periods
  function QualifyingPeriods(c: Calendar, t: Tables, auctions: seq<Auction>): seq<Period> {
    Loop(c, t, auctions, Quarters(c, auctions)).periods
  }

  // The function as the loop that runs it, emitting its rows one by one.
  method GetQualifyingPricePeriods(c: Calendar, t: Tables, auctions: seq<Auction>) returns (periods: seq<Period>)
    ensures periods == QualifyingPeriods(c, t, auctions)
  {
    var quarters := Quarters(c, auctions);
    var last: Option<Price> := None;
    var count: nat := 0;
    periods := [];
    for i := 0 to |quarters|
      invariant LoopState(last, count, periods) == Loop(c, t, auctions, quarters[..i])
    {
      LoopNext(c, t, auctions, quarters, i);
      var results := Results(c, t, auctions, last, count, quarters[i]);
      count := |results|;
      periods := EmitRows(periods, results);
      if results != [] {
        last := Some(results[|results| - 1].price);
      }
    }
    assert quarters[..|quarters|] == quarters;
  }

  lemma {:induction false} LoopNext(c: Calendar, t: Tables, auctions: seq<Auction>, quarters: seq<nat>, i: nat)
    requires i < |quarters|
    ensures Loop(c, t, auctions, quarters[..i + 1]) ==
            Iterate(c, t, auctions, Loop(c, t, auctions, quarters[..i]), quarters[i])
  {
    assert quarters[..i + 1][..i] == quarters[..i];
  }

  // The inner loop that returns the rows of an iteration.
  method EmitRows(emitted: seq<Period>, results: seq<Period>) returns (periods: seq<Period>)
    ensures periods == emitted + results
  {
    periods := emitted;
    for k := 0 to |results|
      invariant periods == emitted + results[..k]
    {
      periods := periods + [results[k]];
    }
  }
}
