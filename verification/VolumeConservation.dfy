// What the orchestrators' volumes add up to, and which FIL payments each price period collects.
module VolumeConservation {
  import opened Wrappers
  import Products
  import opened Positions
  import opened Calendars
  import opened Events
  import Lists = AdmittedLists
  import opened PairTables
  import opened Ledger
  import opened Ownership
  import opened PricePeriods
  import opened PeriodTable
  import opened PeriodFreshness
  import opened Sums
  import opened Volume

  // ---------- every payment has at most one orchestrator ----------

  ghost predicate AllListed(t: PairTable, os: seq<Address>) {
    Distinct(os) && forall k | k in t :: t[k].orchestrator in os
  }

  function Shares(t: PairTable, p: Payment, x: nat): Address -> nat {
    (o: Address) => if Attributed(t, p, Some(o)) then x else 0
  }

  // The orchestrators' shares of a payment add up to the payment, or to nothing.
  lemma {:induction false} OneOwner(t: PairTable, os: seq<Address>, p: Payment, x: nat)
    requires TableDisjoint(t) && AllListed(t, os)
    ensures SumBy(os, Shares(t, p, x)) == if Attributed(t, p, None) then x else 0
  {
    if k :| k in t && k.pair == p.pair && t[k].Covers(k.from, p.at) {
      var owner := t[k].orchestrator;
      forall i | 0 <= i < |os| && os[i] != owner
        ensures !Attributed(t, p, Some(os[i]))
      {
        if l :| l in t && l.pair == p.pair && t[l].Covers(l.from, p.at) && t[l].orchestrator == os[i] {
          assert false;
        }
      }
      SumSingle(os, Shares(t, p, x), owner);
      assert Attributed(t, p, Some(owner));
    } else {
      SumZero(os, Shares(t, p, x));
    }
  }

  function PerOwner(t: PairTable, payments: seq<Payment>, amount: Payment -> nat): Address -> nat {
    (o: Address) => SumBy(payments, Attribute(t, Some(o), amount))
  }

  // Whatever amount payments are given, summing it over orchestrators is summing it without a filter.
  lemma {:induction false} Conserved(t: PairTable, os: seq<Address>, payments: seq<Payment>, amount: Payment -> nat)
    requires TableDisjoint(t) && AllListed(t, os)
    ensures SumBy(os, PerOwner(t, payments, amount)) == SumBy(payments, Attribute(t, None, amount))
  {
    if payments == [] {
      SumZero(os, PerOwner(t, payments, amount));
    } else {
      var n := |payments| - 1;
      var init, p := payments[..n], payments[n];
      Conserved(t, os, init, amount);
      OneOwner(t, os, p, amount(p));
      SumPlus(os, PerOwner(t, init, amount), Shares(t, p, amount(p)), PerOwner(t, payments, amount));
    }
  }

  // ---------- rounding over periods ----------

  ghost function ValuePerOwner(c: Calendar, t: Tables, q: nat, periods: seq<Period>, i: nat,
                               payments: seq<Payment>): Address -> nat
    requires i < |periods|
  {
    (o: Address) => PeriodValue(c, t, q, periods, i, payments, Some(o))
  }

  // The USD value of a period's FIL: the whole units it is worth at the period's price.
  lemma {:induction false} PeriodWorth(c: Calendar, t: Tables, q: nat, periods: seq<Period>, i: nat,
                                       payments: seq<Payment>, filter: Option<Address>)
    requires i < |periods| && periods[i].quarter == q
    ensures var value, fil := PeriodValue(c, t, q, periods, i, payments, filter),
                              MatchedFil(c, t, q, periods, i, payments, filter);
            periods[i].price.claim * value <= fil * periods[i].price.lot < periods[i].price.claim * (value + 1)
  {
    FlooredIsWorth(MatchedFil(c, t, q, periods, i, payments, filter), periods[i].price.lot, periods[i].price.claim);
  }

  // In each period of the quarter, k orchestrators together lose at most k - 1 units to rounding.
  lemma {:induction false} PeriodRounding(c: Calendar, t: Tables, os: seq<Address>, q: nat, periods: seq<Period>,
                                          i: nat, payments: seq<Payment>)
    requires TableDisjoint(t.pairs) && AllListed(t.pairs, os) && os != [] && i < |periods|
    ensures var parts := SumBy(os, ValuePerOwner(c, t, q, periods, i, payments));
            parts <= PeriodValue(c, t, q, periods, i, payments, None)
                  <= parts + if periods[i].quarter == q then |os| - 1 else 0
  {
    var value := ValuePerOwner(c, t, q, periods, i, payments);
    if periods[i].quarter == q {
      var amount := FilAmount(c, t, q, periods, i);
      Conserved(t.pairs, os, payments, amount);
      FloorSum(os, PerOwner(t.pairs, payments, amount), periods[i].price.lot, periods[i].price.claim, value);
    } else {
      SumZero(os, value);
    }
  }

  ghost function FilPerOwner(c: Calendar, t: Tables, q: nat, periods: seq<Period>, n: nat,
                             payments: seq<Payment>): Address -> nat
    requires n <= |periods|
  {
    (o: Address) => FilVolume(c, t, q, periods, n, payments, Some(o))
  }

  // Bounds on two parts, the second of one period or none, bound their sum.
  lemma {:induction false} BoundsAdd(low: nat, all: nat, part: nat, more: nat, m: nat, one: bool, k: nat)
    requires low <= all <= low + m * k && part <= more <= part + if one then k else 0
    ensures low + part <= all + more <= low + part + (m + if one then 1 else 0) * k
  {
    assert (m + 1) * k == m * k + k;
  }

  ghost predicate RoundsWithin(c: Calendar, t: Tables, os: seq<Address>, q: nat, periods: seq<Period>, n: nat,
                               payments: seq<Payment>)
    requires os != [] && n <= |periods|
  {
    var parts := SumBy(os, FilPerOwner(c, t, q, periods, n, payments));
    parts <= FilVolume(c, t, q, periods, n, payments, None) <= parts + CountIn(periods[..n], q) * (|os| - 1)
  }

  lemma {:induction false} OnePeriodMore(c: Calendar, t: Tables, os: seq<Address>, q: nat, periods: seq<Period>, n: nat,
                                         payments: seq<Payment>)
    requires TableDisjoint(t.pairs) && AllListed(t.pairs, os) && os != [] && 1 <= n <= |periods|
    requires RoundsWithin(c, t, os, q, periods, n - 1, payments)
    ensures RoundsWithin(c, t, os, q, periods, n, payments)
  {
    var before := FilPerOwner(c, t, q, periods, n - 1, payments);
    var value := ValuePerOwner(c, t, q, periods, n - 1, payments);
    PeriodRounding(c, t, os, q, periods, n - 1, payments);
    SumPlus(os, before, value, FilPerOwner(c, t, q, periods, n, payments));
    assert periods[..n][..n - 1] == periods[..n - 1];
    BoundsAdd(SumBy(os, before), FilVolume(c, t, q, periods, n - 1, payments, None), SumBy(os, value),
              PeriodValue(c, t, q, periods, n - 1, payments, None), CountIn(periods[..n - 1], q),
              periods[n - 1].quarter == q, |os| - 1);
  }

  // Over m periods of the quarter, at most m * (k - 1).
  lemma {:induction false} FilRounding(c: Calendar, t: Tables, os: seq<Address>, q: nat, periods: seq<Period>, n: nat,
                                       payments: seq<Payment>)
    requires TableDisjoint(t.pairs) && AllListed(t.pairs, os) && os != [] && n <= |periods|
    ensures RoundsWithin(c, t, os, q, periods, n, payments)
  {
    if n == 0 {
      SumZero(os, FilPerOwner(c, t, q, periods, n, payments));
      assert periods[..0] == [];
    } else {
      FilRounding(c, t, os, q, periods, n - 1, payments);
      OnePeriodMore(c, t, os, q, periods, n, payments);
    }
  }

  // ---------- partition ----------

  // `ORDER BY epoch, log_index LIMIT 1` over the rows of the view in that order.
  function FirstLater(periods: seq<Period>, at: Position, i: nat): Option<nat>
    requires i <= |periods|
    decreases |periods| - i
  {
    if i == |periods| then None
    else if at.Before(periods[i].at) then Some(i)
    else FirstLater(periods, at, i + 1)
  }

  lemma {:induction false} FirstLaterIs(periods: seq<Period>, at: Position, i: nat)
    requires i <= |periods|
    ensures var r := FirstLater(periods, at, i);
            && (r.Some? ==> i <= r.value < |periods| && at.Before(periods[r.value].at)
                            && forall j | i <= j < r.value :: !at.Before(periods[j].at))
            && (r.None? ==> forall j | i <= j < |periods| :: !at.Before(periods[j].at))
    decreases |periods| - i
  {
    if i < |periods| && !at.Before(periods[i].at) {
      FirstLaterIs(periods, at, i + 1);
    }
  }

  lemma {:induction false} RisingOrder(periods: seq<Period>, i: nat, j: nat)
    requires Rising(periods) && i < |periods| && j < |periods|
    ensures periods[i].at.Before(periods[j].at) <==> i < j
  {
    if j < i {
    }
  }

  // Both forms of matching pick the same period, so a payment has at most one.
  lemma {:induction false} FormsAgree(periods: seq<Period>, at: Position, i: nat)
    requires Rising(periods) && i < |periods|
    ensures MatchedTo(periods, i, at) <==> FirstLater(periods, at, 0) == Some(i)
  {
    FirstLaterIs(periods, at, 0);
    forall j | 0 <= j < |periods|
      ensures periods[j].at.Before(periods[i].at) <==> j < i
    {
      RisingOrder(periods, j, i);
    }
  }

  // ---------- conservation over periods ----------

  // FIL matched to the first k periods, for the contracts of one quarter.
  ghost function MatchedUpTo(c: Calendar, t: Tables, q: nat, periods: seq<Period>, k: nat, payments: seq<Payment>,
                             filter: Option<Address>): nat
    requires k <= |periods|
  {
    if k == 0 then 0
    else MatchedUpTo(c, t, q, periods, k - 1, payments, filter) + MatchedFil(c, t, q, periods, k - 1, payments, filter)
  }

  // FIL paid since activation and before a position.
  ghost function FilBefore(c: Calendar, t: Tables, q: nat, end: Position): Payment -> nat {
    (p: Payment) => if FilEligible(c, t, q, p) && p.at.Before(end) then p.amount else 0
  }

  lemma {:induction false} EarlierOrMatched(periods: seq<Period>, k: nat, at: Position)
    requires Rising(periods) && 1 <= k <= |periods|
    ensures at.Before(periods[k - 1].at) <==>
            (k >= 2 && at.Before(periods[k - 2].at)) || MatchedTo(periods, k - 1, at)
    ensures !(k >= 2 && at.Before(periods[k - 2].at) && MatchedTo(periods, k - 1, at))
  {
    forall j | 0 <= j < |periods|
      ensures periods[j].at.Before(periods[k - 1].at) <==> j < k - 1
      ensures k >= 2 && j < k - 1 ==> periods[j].at.AtMost(periods[k - 2].at)
    {
      RisingOrder(periods, j, k - 1);
      if k >= 2 {
        RisingOrder(periods, j, k - 2);
      }
    }
  }

  // Telescoping: the FIL matched to the first k periods is all attributed FIL paid since activation and
  // before the k-th period.
  lemma {:induction false} MatchedTelescopes(c: Calendar, t: Tables, q: nat, periods: seq<Period>, k: nat,
                                             payments: seq<Payment>, filter: Option<Address>)
    requires Rising(periods) && 1 <= k <= |periods|
    ensures MatchedUpTo(c, t, q, periods, k, payments, filter) ==
            SumBy(payments, Attribute(t.pairs, filter, FilBefore(c, t, q, periods[k - 1].at)))
  {
    var upTo := Attribute(t.pairs, filter, FilBefore(c, t, q, periods[k - 1].at));
    var last := Attribute(t.pairs, filter, FilAmount(c, t, q, periods, k - 1));
    forall i | 0 <= i < |payments|
      ensures upTo(payments[i]) ==
              (if k >= 2 then Attribute(t.pairs, filter, FilBefore(c, t, q, periods[k - 2].at))(payments[i]) else 0)
                                   + last(payments[i])
    {
      EarlierOrMatched(periods, k, payments[i].at);
    }
    if k == 1 {
      SumEqual(payments, upTo, last);
      assert MatchedUpTo(c, t, q, periods, 0, payments, filter) == 0;
    } else {
      MatchedTelescopes(c, t, q, periods, k - 1, payments, filter);
      SumPlus(payments, Attribute(t.pairs, filter, FilBefore(c, t, q, periods[k - 2].at)), last, upTo);
    }
  }

  // The price periods the function returns meet what both results ask of a list of periods.
  lemma {:induction false} QualifyingMatch(c: Calendar, t: Tables, auctions: seq<Auction>, payments: seq<Payment>,
                                           filter: Option<Address>, q: nat, k: nat, at: Position)
    requires Sorted(auctions) && 1 <= k <= |QualifyingPeriods(c, t, auctions)|
    ensures var periods := QualifyingPeriods(c, t, auctions);
            && (MatchedTo(periods, k - 1, at) <==> FirstLater(periods, at, 0) == Some(k - 1))
            && MatchedUpTo(c, t, q, periods, k, payments, filter) ==
               SumBy(payments, Attribute(t.pairs, filter, FilBefore(c, t, q, periods[k - 1].at)))
  {
    QualifyingRises(c, t, auctions);
    FormsAgree(QualifyingPeriods(c, t, auctions), at, k - 1);
    MatchedTelescopes(c, t, q, QualifyingPeriods(c, t, auctions), k, payments, filter);
  }

  // ---------- the join with admitted tokens ----------

  // It is a sum: whichever element is added first.
  lemma {:induction false} SumKeysPick(s: set<Lists.ListKey>, f: Lists.ListKey -> nat, k: Lists.ListKey)
    requires k in s
    ensures SumKeys(s, f) == f(k) + SumKeys(s - {k}, f)
  {
    var l :| l in s && SumKeys(s, f) == f(l) + SumKeys(s - {l}, f);
    if l != k {
      SumKeysPick(s - {l}, f, k);
      SumKeysPick(s - {k}, f, l);
      assert s - {l} - {k} == s - {k} - {l};
    }
  }

  lemma {:induction false} SumKeysOne(s: set<Lists.ListKey>, f: Lists.ListKey -> nat, k: Lists.ListKey)
    requires s == {k}
    ensures SumKeys(s, f) == f(k)
  {
    assert s - {k} == {};
  }

  lemma {:induction false} TokenRowsOne(w: World, logs: seq<Log<Event>>, p: Payment, k: Lists.ListKey)
    requires Increasing(logs) && Run(w, EMPTY, logs).Success?
    requires k in TokenRows(Run(w, EMPTY, logs).value.tokens, p)
    ensures TokenRows(Run(w, EMPTY, logs).value.tokens, p) == {k}
    ensures p.token in w.decimals && Run(w, EMPTY, logs).value.tokens[k].data == w.decimals[p.token]
  {
    var us := TokenUpdates(logs);
    RunTokens(w, logs);
    UpdatesOrdered(logs);
    Lists.RunSound(us, Lists.Known(w.decimals));
    forall l | l in TokenRows(Run(w, EMPTY, logs).value.tokens, p)
      ensures l == k
    {
      Lists.JoinFindsOne(us, Lists.Known(w.decimals), l, k, p.at);
    }
  }

  lemma {:induction false} RowScaled(t: TokenTable, p: Payment, k: Lists.ListKey)
    requires TokenRows(t, p) == {k} && k in t
    ensures SumKeys(TokenRows(t, p), ScaledBy(t, p)) == p.amount * Pow10(18 - t[k].data)
  {
    SumKeysOne(TokenRows(t, p), ScaledBy(t, p), k);
  }

  // In every table of a run a payment is joined with at most one row of the token list, so its amount
  // is counted once, at the token's decimals.
  lemma {:induction false} TokenCountedOnce(w: World, logs: seq<Log<Event>>, p: Payment)
    requires Increasing(logs) && Run(w, EMPTY, logs).Success?
    ensures var t := Run(w, EMPTY, logs).value.tokens;
            && (TokenRows(t, p) != {} ==> p.token in w.decimals)
            && SumKeys(TokenRows(t, p), ScaledBy(t, p)) ==
               if TokenRows(t, p) == {} then 0 else p.amount * Pow10(18 - w.decimals[p.token])
  {
    var t := Run(w, EMPTY, logs).value.tokens;
    if k :| k in TokenRows(t, p) {
      TokenRowsOne(w, logs, p, k);
      RowScaled(t, p, k);
    }
  }

  // ---------- the whole query, over every run ----------

  ghost predicate Referential(t: PairTable, orchestrators: set<Address>) {
    forall k | k in t :: t[k].orchestrator in orchestrators
  }

  lemma ReassignReferential(t: PairTable, orchestrators: set<Address>, pair: Pair, orch: Address, inherit: bool,
                            start: nat, at: Position)
    requires Referential(t, orchestrators) && orch in orchestrators
    ensures var r := ReassignTable(t, pair, orch, inherit, start, at); r.Some? ==> Referential(r.value, orchestrators)
  {
  }

  lemma ReleaseReferential(t: PairTable, orchestrators: set<Address>, pair: Pair, orch: Address, at: Position)
    requires Referential(t, orchestrators)
    ensures Referential(CancelRows(t, pair, orch, at), orchestrators)
    ensures Referential(RemoveRows(t, orch, at), orchestrators)
  {
  }

  lemma {:induction false} StepReferential(w: World, t: Tables, log: Log<Event>)
    requires Step(w, t, log).Success? && Referential(t.pairs, t.orchestrators)
    ensures Referential(Step(w, t, log).value.pairs, Step(w, t, log).value.orchestrators)
  {
    match log.event
    case BindingReassigned(pair, o, inherit) =>
      if o in t.orchestrators {
        ReassignReferential(t.pairs, t.orchestrators, pair, o, inherit,
                            QuarterStart(w.calendar, QuarterOf(w.calendar, log.block)), log.At());
      }
    case BindingCanceled(pair, o) => ReleaseReferential(t.pairs, t.orchestrators, pair, o, log.At());
    case OrchestratorRemoved(o) => ReleaseReferential(t.pairs, t.orchestrators, Pair("", ""), o, log.At());
    case _ =>
  }

  // Every row refers to an admitted orchestrator.
  lemma {:induction false} RunReferential(w: World, logs: seq<Log<Event>>)
    requires Run(w, EMPTY, logs).Success?
    ensures Referential(Run(w, EMPTY, logs).value.pairs, Run(w, EMPTY, logs).value.orchestrators)
  {
    if logs != [] {
      RunReferential(w, logs[..|logs| - 1]);
      StepReferential(w, Run(w, EMPTY, logs[..|logs| - 1]).value, logs[|logs| - 1]);
    }
  }

  ghost function StablePerOwner(c: Calendar, t: Tables, periods: seq<Period>, payments: seq<Payment>,
                                q: nat): Address -> nat {
    (o: Address) =>
      match VolumeOf(c, t, periods, payments, q, Some(o)) case Success(v) => v.stablecoin case Failure(_) => 0
  }

  ghost function FilVolumePerOwner(c: Calendar, t: Tables, periods: seq<Period>, payments: seq<Payment>,
                                   q: nat): Address -> nat {
    (o: Address) =>
      match VolumeOf(c, t, periods, payments, q, Some(o)) case Success(v) => v.fil case Failure(_) => 0
  }

  // The filter never decides whether the query succeeds.
  lemma FilterKeepsOutcome(c: Calendar, t: Tables, periods: seq<Period>, payments: seq<Payment>, q: nat,
                           filter: Option<Address>)
    ensures VolumeOf(c, t, periods, payments, q, filter).Success? <==> q >= 1 && FirstMissing(c, t, q).None?
    ensures VolumeOf(c, t, periods, payments, q, filter).Failure? ==>
            VolumeOf(c, t, periods, payments, q, filter) == VolumeOf(c, t, periods, payments, q, None)
  {
  }

  lemma {:induction false} StableConserved(c: Calendar, t: Tables, os: seq<Address>, periods: seq<Period>,
                                           payments: seq<Payment>, q: nat)
    requires TableDisjoint(t.pairs) && AllListed(t.pairs, os) && VolumeOf(c, t, periods, payments, q, None).Success?
    ensures SumBy(os, StablePerOwner(c, t, periods, payments, q)) ==
            VolumeOf(c, t, periods, payments, q, None).value.stablecoin
  {
    var stable := StablePerOwner(c, t, periods, payments, q);
    if NothingAdmitted(c, t.contracts, q) || NothingAdmitted(c, t.tokens, q) {
      SumZero(os, stable);
    } else {
      Conserved(t.pairs, os, payments, StableAmount(c, t, q));
      SumEqual(os, stable, PerOwner(t.pairs, payments, StableAmount(c, t, q)));
    }
  }

  lemma FilShare(c: Calendar, t: Tables, periods: seq<Period>, payments: seq<Payment>, q: nat, filter: Option<Address>)
    requires VolumeOf(c, t, periods, payments, q, filter).Success?
    ensures VolumeOf(c, t, periods, payments, q, filter).value.fil ==
            if NothingToCount(c, t, q) then 0
            else FilVolume(c, t, q, periods, |periods|, payments, filter)
  {
  }

  predicate NothingToCount(c: Calendar, t: Tables, q: nat) {
    NothingAdmitted(c, t.contracts, q) || NothingAdmitted(c, t.tokens, q)
  }

  // The orchestrators' FIL volumes add up as the values of the periods do, or to nothing.
  lemma {:induction false} FilShares(c: Calendar, t: Tables, os: seq<Address>, periods: seq<Period>,
                                     payments: seq<Payment>, q: nat)
    requires VolumeOf(c, t, periods, payments, q, None).Success?
    ensures SumBy(os, FilVolumePerOwner(c, t, periods, payments, q)) ==
            if NothingToCount(c, t, q) then 0 else SumBy(os, FilPerOwner(c, t, q, periods, |periods|, payments))
  {
    var fil := FilVolumePerOwner(c, t, periods, payments, q);
    forall i | 0 <= i < |os|
      ensures fil(os[i]) ==
              if NothingToCount(c, t, q) then 0 else FilVolume(c, t, q, periods, |periods|, payments, Some(os[i]))
    {
      FilterKeepsOutcome(c, t, periods, payments, q, Some(os[i]));
      FilShare(c, t, periods, payments, q, Some(os[i]));
    }
    if NothingToCount(c, t, q) {
      SumZero(os, fil);
    } else {
      SumEqual(os, fil, FilPerOwner(c, t, q, periods, |periods|, payments));
    }
  }

  lemma {:induction false} FilConserved(c: Calendar, t: Tables, os: seq<Address>, periods: seq<Period>,
                                        payments: seq<Payment>, q: nat)
    requires TableDisjoint(t.pairs) && AllListed(t.pairs, os) && VolumeOf(c, t, periods, payments, q, None).Success?
    requires os != []
    ensures var parts := SumBy(os, FilVolumePerOwner(c, t, periods, payments, q));
            parts <= VolumeOf(c, t, periods, payments, q, None).value.fil <= parts + CountIn(periods, q) * (|os| - 1)
  {
    FilShare(c, t, periods, payments, q, None);
    FilShares(c, t, os, periods, payments, q);
    if NothingToCount(c, t, q) {
      Products.MulMonotone(CountIn(periods, q), 0, |os| - 1);
    } else {
      FilRounding(c, t, os, q, periods, |periods|, payments);
      assert periods[..|periods|] == periods;
    }
  }

  // After any run, for any payments, price periods and quarter: the orchestrators' stablecoin volumes
  // add up exactly to the unfiltered one, and their FIL volumes fall short of it by at most one unit
  // less than their number in each price period of the quarter.
  lemma {:induction false} QuarterConserved(w: World, logs: seq<Log<Event>>, os: seq<Address>, periods: seq<Period>,
                                            payments: seq<Payment>, q: nat)
    requires Increasing(logs) && Run(w, EMPTY, logs).Success?
    requires Distinct(os) && os != [] && forall o | o in Run(w, EMPTY, logs).value.orchestrators :: o in os
    requires VolumeOf(w.calendar, Run(w, EMPTY, logs).value, periods, payments, q, None).Success?
    ensures var c, t := w.calendar, Run(w, EMPTY, logs).value;
            var total := VolumeOf(c, t, periods, payments, q, None).value;
            var fil := SumBy(os, FilVolumePerOwner(c, t, periods, payments, q));
            && SumBy(os, StablePerOwner(c, t, periods, payments, q)) == total.stablecoin
            && fil <= total.fil <= fil + CountIn(periods, q) * (|os| - 1)
            && 0 <= total.Total() - SumBy(os, StablePerOwner(c, t, periods, payments, q)) - fil
               <= CountIn(periods, q) * (|os| - 1)
  {
    var c, t := w.calendar, Run(w, EMPTY, logs).value;
    RunDisjoint(w, logs);
    RunReferential(w, logs);
    StableConserved(c, t, os, periods, payments, q);
    FilConserved(c, t, os, periods, payments, q);
  }
}
