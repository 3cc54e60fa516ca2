// What the queries read from the tables, told by the log alone: who a payment is attributed to, what
// it is worth, and what an auction is measured against.
module VolumeFromLog {
  import opened Wrappers
  import opened Positions
  import opened Calendars
  import opened Events
  import opened Parameters
  import Lists = AdmittedLists
  import opened Bindings
  import opened PairTables
  import opened OwnershipSpec
  import opened Ledger
  import opened Ownership
  import SeedMedian
  import opened PricePeriods
  import opened PrefixStability
  import opened PeriodFreshness
  import opened PeriodView
  import opened Sums
  import opened Volume
  import opened VolumeConservation

  // ---------- attribution ----------

  ghost predicate OwnedBy(w: World, logs: seq<Log<Event>>, p: Payment, filter: Option<Address>) {
    var owner := SpecOwner(w.calendar, p.pair, logs, p.at);
    owner.Some? && (filter.None? || owner == filter)
  }

  // A payment is attributed to an orchestrator exactly when the log makes it the owner of the
  // payment's position.
  lemma {:induction false} AttributedFromLog(w: World, logs: seq<Log<Event>>, p: Payment, filter: Option<Address>)
    requires Increasing(logs) && Run(w, EMPTY, logs).Success?
    ensures Attributed(Run(w, EMPTY, logs).value.pairs, p, filter) <==> OwnedBy(w, logs, p, filter)
  {
    var t := Run(w, EMPTY, logs).value.pairs;
    var h := View(t, p.pair);
    RunOwner(w, logs, p.pair, p.at);
    PairDisjoint(w, logs, p.pair);
    if k :| k in t && k.pair == p.pair && t[k].Covers(k.from, p.at) {
      OwnerIs(h, k.from, p.at);
      forall l | l in t && l.pair == p.pair && t[l].Covers(l.from, p.at)
        ensures t[l].orchestrator == t[k].orchestrator
      {
        OwnerIs(h, l.from, p.at);
      }
    } else {
      assert forall f | f in h :: !h[f].Covers(f, p.at) by {
        assert forall f | f in h :: PairKey(p.pair, f) in t;
      }
    }
  }

  // ---------- the value of a stablecoin payment ----------

  lemma {:induction false} SpanIsQuarter(c: Calendar, q: nat, at: Position)
    requires q >= 1
    ensures InQuarterSpan(c, q, at) <==> QuarterOf(c, at.epoch) == q
  {
    QuarterBefore(c, at.epoch, q);
    QuarterBefore(c, at.epoch, q + 1);
    assert c.epochsPerQuarter * q == c.epochsPerQuarter * (q - 1) + c.epochsPerQuarter;
  }

  // Both lists of the quarter hold for the payment, it falls in the quarter, and its token is still on
  // the list where it is made.
  ghost predicate StableCounts(w: World, logs: seq<Log<Event>>, q: nat, p: Payment) {
    var start := QuarterStart(w.calendar, q);
    && p.contract in Lists.ListBefore(ContractUpdates(logs), start)
    && p.token in Lists.ListBefore(TokenUpdates(logs), start)
    && p.token in w.decimals
    && QuarterOf(w.calendar, p.at.epoch) == q
    && Lists.ListedAt(TokenUpdates(logs), p.token, p.at)
  }

  ghost function StableValue(w: World, logs: seq<Log<Event>>, q: nat, filter: Option<Address>): Payment -> nat {
    (p: Payment) =>
      if OwnedBy(w, logs, p, filter) && StableCounts(w, logs, q, p)
      then p.amount * Pow10(18 - w.decimals[p.token]) else 0
  }

  lemma {:induction false} RowsFromLog(w: World, logs: seq<Log<Event>>, p: Payment)
    requires Increasing(logs) && Run(w, EMPTY, logs).Success?
    ensures TokenRows(Run(w, EMPTY, logs).value.tokens, p) != {} <==>
            Lists.ListedAt(TokenUpdates(logs), p.token, p.at) && p.token in w.decimals
  {
    var t := Run(w, EMPTY, logs).value.tokens;
    RunTokens(w, logs);
    UpdatesOrdered(logs);
    Lists.SnapshotAtPosition(TokenUpdates(logs), Lists.Known(w.decimals), p.token, p.at);
    if k :| k in t && k.address == p.token && Lists.Covers(k, t[k], p.at) {
      assert k in TokenRows(t, p);
    }
  }

  lemma {:induction false} StableAmountFromLog(w: World, logs: seq<Log<Event>>, q: nat, p: Payment)
    requires Increasing(logs) && Run(w, EMPTY, logs).Success? && q >= 1
    ensures StableAmount(w.calendar, Run(w, EMPTY, logs).value, q)(p) ==
            if StableCounts(w, logs, q, p) then p.amount * Pow10(18 - w.decimals[p.token]) else 0
  {
    ContractSnapshot(w, logs, p.contract, q);
    TokenSnapshot(w, logs, p.token, q);
    SpanIsQuarter(w.calendar, q, p.at);
    RowsFromLog(w, logs, p);
    TokenCountedOnce(w, logs, p);
  }

  // The stablecoin volume of a quarter, for one orchestrator or all, is what the log says: the
  // payments of the quarter that the filter owns, in contracts and tokens on the lists published
  // before the quarter and tokens not yet taken off, each scaled once.
  lemma {:induction false} StableVolumeFromLog(w: World, logs: seq<Log<Event>>, q: nat, payments: seq<Payment>,
                                               filter: Option<Address>)
    requires Increasing(logs) && Run(w, EMPTY, logs).Success? && q >= 1
    ensures StableVolume(w.calendar, Run(w, EMPTY, logs).value, q, payments, filter) ==
            SumBy(payments, StableValue(w, logs, q, filter))
  {
    var t := Run(w, EMPTY, logs).value;
    var amount := Attribute(t.pairs, filter, StableAmount(w.calendar, t, q));
    forall i | 0 <= i < |payments|
      ensures amount(payments[i]) == StableValue(w, logs, q, filter)(payments[i])
    {
      AttributedFromLog(w, logs, payments[i], filter);
      StableAmountFromLog(w, logs, q, payments[i]);
    }
    SumEqual(payments, amount, StableValue(w, logs, q, filter));
  }

  // ---------- the FIL matched to a period ----------

  ghost function FilPaid(w: World, logs: seq<Log<Event>>, q: nat, periods: seq<Period>, i: nat,
                         filter: Option<Address>): Payment -> nat
    requires i < |periods|
  {
    (p: Payment) =>
      if && OwnedBy(w, logs, p, filter) && p.token == ZERO_ADDRESS
         && p.contract in Lists.ListBefore(ContractUpdates(logs), QuarterStart(w.calendar, q))
         && QuarterOf(w.calendar, p.at.epoch) >= 1 && FirstLater(periods, p.at, 0) == Some(i)
      then p.amount else 0
  }

  // The FIL collected by a price period is what the filter's payments paid since activation, before that
  // period and not before the one preceding it, in contracts on the list published before the quarter
  // asked for.
  lemma {:induction false} MatchedFilFromLog(w: World, logs: seq<Log<Event>>, q: nat, periods: seq<Period>, i: nat,
                                             payments: seq<Payment>, filter: Option<Address>)
    requires Increasing(logs) && Run(w, EMPTY, logs).Success? && q >= 1
    requires PeriodTable.Rising(periods) && i < |periods|
    ensures MatchedFil(w.calendar, Run(w, EMPTY, logs).value, q, periods, i, payments, filter) ==
            SumBy(payments, FilPaid(w, logs, q, periods, i, filter))
  {
    var t := Run(w, EMPTY, logs).value;
    var amount := Attribute(t.pairs, filter, FilAmount(w.calendar, t, q, periods, i));
    forall j | 0 <= j < |payments|
      ensures amount(payments[j]) == FilPaid(w, logs, q, periods, i, filter)(payments[j])
    {
      var p := payments[j];
      AttributedFromLog(w, logs, p, filter);
      ContractSnapshot(w, logs, p.contract, q);
      QuarterBounds(w.calendar, p.at.epoch);
      FormsAgree(periods, p.at, i);
    }
    SumEqual(payments, amount, FilPaid(w, logs, q, periods, i, filter));
  }

  // ---------- what an auction is measured against ----------

  // The bound volume posted for a quarter.
  ghost function Posted(logs: seq<Log<Event>>, q: nat): Option<nat> {
    if logs == [] then None
    else
      var e := logs[|logs| - 1].event;
      if e.SharesSubmitted? && e.quarter == q then Some(e.totalUsd) else Posted(logs[..|logs| - 1], q)
  }

  lemma StepPosts(w: World, t: Tables, log: Log<Event>)
    requires Step(w, t, log).Success?
    ensures Step(w, t, log).value.boundVolumes ==
            if log.event.SharesSubmitted?
            then t.boundVolumes[log.event.quarter := log.event.totalUsd] else t.boundVolumes
  {
  }

  lemma {:induction false} RunPosts(w: World, logs: seq<Log<Event>>, q: nat)
    requires Run(w, EMPTY, logs).Success?
    ensures var volumes := Run(w, EMPTY, logs).value.boundVolumes;
            Posted(logs, q) == if q in volumes then Some(volumes[q]) else None
  {
    if logs != [] {
      var n := |logs| - 1;
      RunPosts(w, logs[..n], q);
      StepPosts(w, Run(w, EMPTY, logs[..n]).value, logs[n]);
    }
  }

  function Made(floor: Option<nat>, num: Option<nat>, den: Option<nat>, volume: Option<nat>): Option<Thresholds> {
    if floor.Some? && num.Some? && den.Some?
    then Some(Thresholds(floor.value, num.value, den.value, if volume.Some? then volume.value else 0)) else None
  }

  lemma ThresholdsAre(c: Calendar, t: Tables, q: nat, volume: Option<nat>)
    requires q >= 1 && volume == if q - 1 in t.boundVolumes then Some(t.boundVolumes[q - 1]) else None
    ensures ThresholdsOf(c, t, q) == Made(QuarterQuery(c, t.parameters, MinLotFloor, q),
                                          QuarterQuery(c, t.parameters, MinLotAlphaNumerator, q),
                                          QuarterQuery(c, t.parameters, MinLotAlphaDenominator, q), volume)
  {
  }

  lemma {:induction false} ParameterFromLog(w: World, logs: seq<Log<Event>>, kind: ParameterType, q: nat)
    requires Increasing(logs) && Run(w, EMPTY, logs).Success? && q >= 1
    ensures QuarterQuery(w.calendar, Run(w, EMPTY, logs).value.parameters, kind, q) ==
            ParamAt(logs, kind, QuarterStart(w.calendar, q))
  {
    QuarterQueryIs(w.calendar, Run(w, EMPTY, logs).value.parameters, kind, q);
    RunParameters(w, logs, kind, QuarterStart(w.calendar, q));
  }

  // The price band of a quarter is the one last set before it begins,
  lemma {:induction false} BandFromLog(w: World, logs: seq<Log<Event>>, q: nat)
    requires Increasing(logs) && Run(w, EMPTY, logs).Success? && q >= 1
    ensures BandOf(w.calendar, Run(w, EMPTY, logs).value, q) ==
            match LastParams(logs, QuarterStart(w.calendar, q))
            case None => None
            case Some(params) => Some(params.priceBand)
  {
    ParamsAre(logs, QuarterStart(w.calendar, q));
    ParameterFromLog(w, logs, PriceBandBps, q);
  }

  // and so are the thresholds of its minimum lot, with the volume posted for the quarter before.
  lemma {:induction false} ThresholdsFromLog(w: World, logs: seq<Log<Event>>, q: nat)
    requires Increasing(logs) && Run(w, EMPTY, logs).Success? && q >= 1
    ensures var start := QuarterStart(w.calendar, q);
            ThresholdsOf(w.calendar, Run(w, EMPTY, logs).value, q) ==
            match LastParams(logs, start)
            case None => None
            case Some(params) =>
              Some(Thresholds(params.minLotFloor, params.minLotAlphaNum, params.minLotAlphaDen,
                              if Posted(logs, q - 1).Some? then Posted(logs, q - 1).value else 0))
  {
    ParamsAre(logs, QuarterStart(w.calendar, q));
    RunPosts(w, logs, q - 1);
    ThresholdsAre(w.calendar, Run(w, EMPTY, logs).value, q, Posted(logs, q - 1));
    ParameterFromLog(w, logs, MinLotFloor, q);
    ParameterFromLog(w, logs, MinLotAlphaNumerator, q);
    ParameterFromLog(w, logs, MinLotAlphaDenominator, q);
  }

  lemma LotIs(c: Calendar, t: Tables, a: Auction, decimals: Option<Decimals>)
    requires Lists.SqlData(c, t.tokens, a.token, QuarterOfAuction(c, a)) == decimals
    ensures LotOf(c, t, a) ==
            if Lists.SqlAdmits(c, t.contracts, a.contract, QuarterOfAuction(c, a)) && decimals.Some?
            then Some(a.amount * Pow10(18 - decimals.value)) else None
  {
  }

  ghost function ListedDecimals(w: World, logs: seq<Log<Event>>, token: Address, start: nat): Option<Decimals> {
    if token in Lists.ListBefore(TokenUpdates(logs), start) && token in w.decimals
    then Some(w.decimals[token]) else None
  }

  // An auction counts when its contract and token are on the lists published before its quarter.
  lemma {:induction false} LotFromLog(w: World, logs: seq<Log<Event>>, a: Auction)
    requires Increasing(logs) && Run(w, EMPTY, logs).Success? && QuarterOfAuction(w.calendar, a) >= 1
    ensures var start := QuarterStart(w.calendar, QuarterOfAuction(w.calendar, a));
            var decimals := ListedDecimals(w, logs, a.token, start);
            LotOf(w.calendar, Run(w, EMPTY, logs).value, a) ==
            if a.contract in Lists.ListBefore(ContractUpdates(logs), start) && decimals.Some?
            then Some(a.amount * Pow10(18 - decimals.value)) else None
  {
    var q := QuarterOfAuction(w.calendar, a);
    ContractSnapshot(w, logs, a.contract, q);
    TokenSnapshot(w, logs, a.token, q);
    LotIs(w.calendar, Run(w, EMPTY, logs).value, a, ListedDecimals(w, logs, a.token, QuarterStart(w.calendar, q)));
  }

  // ---------- the whole query ----------

  lemma {:induction false} NoLotWithoutLists(c: Calendar, t: Tables, a: Auction)
    requires NothingToCount(c, t, QuarterOfAuction(c, a))
    ensures LotOf(c, t, a).None?
  {
    var q := QuarterOfAuction(c, a);
    if NothingAdmitted(c, t.contracts, q) {
      assert Lists.SqlRows(c, t.contracts, a.contract, q) == {};
    } else {
      assert Lists.SqlRows(c, t.tokens, a.token, q) == {};
    }
  }

  // A quarter without contracts or without tokens has no price periods,
  lemma {:induction false} NoRowsWithoutLists(c: Calendar, t: Tables, auctions: seq<Auction>, q: nat, i: nat)
    requires NothingToCount(c, t, q) && i < |QualifyingPeriods(c, t, auctions)|
    ensures QualifyingPeriods(c, t, auctions)[i].quarter != q
  {
    if QualifyingPeriods(c, t, auctions)[i].quarter == q {
      PeriodTable.RowHasAuction(c, t, auctions, i);
      var j :| 0 <= j < |auctions| && LotOf(c, t, auctions[j]).Some? && QuarterOfAuction(c, auctions[j]) == q;
      NoLotWithoutLists(c, t, auctions[j]);
      assert false;
    }
  }

  lemma {:induction false} NoPeriodsNoFil(c: Calendar, t: Tables, q: nat, periods: seq<Period>, n: nat,
                                          payments: seq<Payment>, filter: Option<Address>)
    requires n <= |periods| && forall i | 0 <= i < n :: periods[i].quarter != q
    ensures FilVolume(c, t, q, periods, n, payments, filter) == 0
  {
    if n > 0 {
      NoPeriodsNoFil(c, t, q, periods, n - 1, payments, filter);
    }
  }

  lemma {:induction false} NoListsNoStable(c: Calendar, t: Tables, q: nat, payments: seq<Payment>,
                                           filter: Option<Address>)
    requires NothingToCount(c, t, q)
    ensures StableVolume(c, t, q, payments, filter) == 0
  {
    SumZero(payments, Attribute(t.pairs, filter, StableAmount(c, t, q)));
  }

  // so the early return of the query gives what the sums would.
  lemma {:induction false} EarlyReturnAgrees(c: Calendar, t: Tables, auctions: seq<Auction>, payments: seq<Payment>,
                                             q: nat, filter: Option<Address>)
    requires q >= 1 && FirstMissing(c, t, q).None?
    ensures var periods := QualifyingPeriods(c, t, auctions);
            VolumeOf(c, t, periods, payments, q, filter) ==
            Success(QuarterlyVolume(StableVolume(c, t, q, payments, filter),
                                    FilVolume(c, t, q, periods, |periods|, payments, filter)))
  {
    var periods := QualifyingPeriods(c, t, auctions);
    if NothingToCount(c, t, q) {
      NoListsNoStable(c, t, q, payments, filter);
      forall i | 0 <= i < |periods|
        ensures periods[i].quarter != q
      {
        NoRowsWithoutLists(c, t, auctions, q, i);
      }
      NoPeriodsNoFil(c, t, q, periods, |periods|, payments, filter);
    }
  }

  lemma {:induction false} MissingFromLog(w: World, logs: seq<Log<Event>>, kind: ParameterType, q: nat)
    requires Increasing(logs) && Run(w, EMPTY, logs).Success? && q >= 1
    ensures ServicePick(w.calendar, Run(w, EMPTY, logs).value.parameters, kind, q).None? <==>
            ParamAt(logs, kind, QuarterStart(w.calendar, q)).None?
  {
    ServiceAgrees(w.calendar, Run(w, EMPTY, logs).value.parameters, kind, q);
    RunParameters(w, logs, kind, QuarterStart(w.calendar, q));
  }

  // The first parameter not set before the quarter, in the order in which they are looked for.
  ghost function FirstUnset(w: World, logs: seq<Log<Event>>, q: nat): Option<ParameterType> {
    var start := QuarterStart(w.calendar, q);
    if ParamAt(logs, PriceBandBps, start).None? then Some(PriceBandBps)
    else if ParamAt(logs, MinLotFloor, start).None? then Some(MinLotFloor)
    else if ParamAt(logs, MinLotAlphaNumerator, start).None? then Some(MinLotAlphaNumerator)
    else if ParamAt(logs, MinLotAlphaDenominator, start).None? then Some(MinLotAlphaDenominator)
    else None
  }

  // Parameters are set together: of the four errors only the first can be met.
  lemma {:induction false} UnsetTogether(w: World, logs: seq<Log<Event>>, q: nat)
    ensures FirstUnset(w, logs, q) ==
            if LastParams(logs, QuarterStart(w.calendar, q)).None? then Some(PriceBandBps) else None
  {
    ParamsAre(logs, QuarterStart(w.calendar, q));
  }

  // The whole units an amount is worth at a price.
  ghost function WorthAt(amount: nat, price: SeedMedian.Price): (value: nat)
    ensures price.claim * value <= amount * price.lot < price.claim * (value + 1)
  {
    FlooredIsWorth(amount, price.lot, price.claim);
    var value :| Worth(value, amount, price.lot, price.claim);
    value
  }

  // The value of the owned FIL payments collected by the periods of the quarter, each period rounded down.
  ghost function FilTold(w: World, logs: seq<Log<Event>>, q: nat, periods: seq<Period>, n: nat, payments: seq<Payment>,
                         filter: Option<Address>): nat
    requires n <= |periods|
  {
    if n == 0 then 0
    else
      var i := n - 1;
      FilTold(w, logs, q, periods, i, payments, filter) +
      if periods[i].quarter == q
      then WorthAt(SumBy(payments, FilPaid(w, logs, q, periods, i, filter)), periods[i].price)
      else 0
  }

  lemma {:induction false} ValueIsTold(w: World, logs: seq<Log<Event>>, q: nat, periods: seq<Period>, i: nat,
                                       payments: seq<Payment>, filter: Option<Address>)
    requires Increasing(logs) && Run(w, EMPTY, logs).Success? && q >= 1
    requires PeriodTable.Rising(periods) && i < |periods| && periods[i].quarter == q
    ensures PeriodValue(w.calendar, Run(w, EMPTY, logs).value, q, periods, i, payments, filter) ==
            WorthAt(SumBy(payments, FilPaid(w, logs, q, periods, i, filter)), periods[i].price)
  {
    var t, price := Run(w, EMPTY, logs).value, periods[i].price;
    MatchedFilFromLog(w, logs, q, periods, i, payments, filter);
    PeriodWorth(w.calendar, t, q, periods, i, payments, filter);
    var fil := SumBy(payments, FilPaid(w, logs, q, periods, i, filter));
    WorthIsUnique(PeriodValue(w.calendar, t, q, periods, i, payments, filter), WorthAt(fil, price), fil, price.lot,
                  price.claim);
  }

  lemma {:induction false} FilFromLog(w: World, logs: seq<Log<Event>>, q: nat, periods: seq<Period>, n: nat,
                                      payments: seq<Payment>, filter: Option<Address>)
    requires Increasing(logs) && Run(w, EMPTY, logs).Success? && q >= 1
    requires PeriodTable.Rising(periods) && n <= |periods|
    ensures FilVolume(w.calendar, Run(w, EMPTY, logs).value, q, periods, n, payments, filter) ==
            FilTold(w, logs, q, periods, n, payments, filter)
  {
    if n > 0 {
      FilFromLog(w, logs, q, periods, n - 1, payments, filter);
      MatchedFilFromLog(w, logs, q, periods, n - 1, payments, filter);
      if periods[n - 1].quarter == q {
        ValueIsTold(w, logs, q, periods, n - 1, payments, filter);
      }
    }
  }

  // The whole answer, told by the log, the payments and the price periods: which parameter is missing,
  // or the stablecoin and FIL volume of the quarter.
  lemma {:induction false} VolumeFromLog(w: World, logs: seq<Log<Event>>, auctions: seq<Auction>,
                                         payments: seq<Payment>,
                                         q: nat, filter: Option<Address>)
    requires Increasing(logs) && Run(w, EMPTY, logs).Success? && Sorted(auctions)
    ensures var c, t := w.calendar, Run(w, EMPTY, logs).value;
            var periods := QualifyingPeriods(c, t, auctions);
            VolumeOf(c, t, periods, payments, q, filter) ==
            if q == 0 then Failure(NoSuchQuarter)
            else if FirstUnset(w, logs, q).Some? then Failure(MissingParameter(FirstUnset(w, logs, q).value))
            else Success(QuarterlyVolume(SumBy(payments, StableValue(w, logs, q, filter)),
                                         FilTold(w, logs, q, periods, |periods|, payments, filter)))
  {
    if q >= 1 {
      var c, t := w.calendar, Run(w, EMPTY, logs).value;
      var periods := QualifyingPeriods(c, t, auctions);
      UnsetFromLog(w, logs, q);
      if FirstUnset(w, logs, q).None? {
        EarlyReturnAgrees(c, t, auctions, payments, q, filter);
        StableVolumeFromLog(w, logs, q, payments, filter);
        PeriodTable.QualifyingRises(c, t, auctions);
        FilFromLog(w, logs, q, periods, |periods|, payments, filter);
      }
    }
  }

  lemma {:induction false} UnsetFromLog(w: World, logs: seq<Log<Event>>, q: nat)
    requires Increasing(logs) && Run(w, EMPTY, logs).Success? && q >= 1
    ensures FirstMissing(w.calendar, Run(w, EMPTY, logs).value, q) == FirstUnset(w, logs, q)
  {
    MissingFromLog(w, logs, PriceBandBps, q);
    MissingFromLog(w, logs, MinLotFloor, q);
    MissingFromLog(w, logs, MinLotAlphaNumerator, q);
    MissingFromLog(w, logs, MinLotAlphaDenominator, q);
  }

  // In every database reached, the service answers this from the stored view.
  lemma {:induction false} StoredVolumeFromLog(w: World, changes: seq<Change>, payments: seq<Payment>, q: nat,
                                               filter: Option<Address>)
    requires After(w, changes).Success? && Increasing(LogsOf(changes)) && InStep(w, changes)
    requires Sorted(AuctionsOf(changes))
    ensures var d, logs := After(w, changes).value, LogsOf(changes);
            VolumeOf(w.calendar, d.tables, d.view, payments, q, filter) ==
            if q == 0 then Failure(NoSuchQuarter)
            else if FirstUnset(w, logs, q).Some? then Failure(MissingParameter(FirstUnset(w, logs, q).value))
            else Success(QuarterlyVolume(SumBy(payments, StableValue(w, logs, q, filter)),
                                         FilTold(w, logs, q, d.view, |d.view|, payments, filter)))
  {
    AfterRuns(w, changes);
    ViewIsFresh(w, changes);
    VolumeFromLog(w, LogsOf(changes), AuctionsOf(changes), payments, q, filter);
  }
}
