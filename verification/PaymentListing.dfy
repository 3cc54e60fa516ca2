// The listing of payments: its join with bindings, and its flag for payments that count towards volume
// against what the quarterly volume sums.
module PaymentListing {
  import opened Wrappers
  import opened Positions
  import opened Calendars
  import opened Events
  import Lists = AdmittedLists
  import opened PairTables
  import OwnershipSpec
  import opened Ledger
  import opened Ownership
  import opened PricePeriods
  import opened PeriodTable
  import opened PeriodFreshness
  import opened Volume
  import opened VolumeConservation
  import opened VolumeFromLog

  // ---------- the left join with bindings ----------

  function JoinedRows(t: PairTable, p: Payment): set<PairKey> {
    set k | k in t && k.pair == p.pair && t[k].Covers(k.from, p.at)
  }

  // Rows of the listing for one payment: one for each binding joined, or one without.
  function RowsListed(t: PairTable, p: Payment): nat {
    if JoinedRows(t, p) == {} then 1 else |JoinedRows(t, p)|
  }

  lemma {:induction false} AtMostOneRow(t: PairTable, p: Payment)
    requires TableDisjoint(t)
    ensures |JoinedRows(t, p)| <= 1
  {
    if k :| k in JoinedRows(t, p) {
      assert JoinedRows(t, p) == {k};
    }
  }

  // After any run a payment is listed once, with the orchestrator that owns its position by the log.
  lemma {:induction false} ListedOnce(w: World, logs: seq<Log<Event>>, p: Payment)
    requires Increasing(logs) && Run(w, EMPTY, logs).Success?
    ensures var t := Run(w, EMPTY, logs).value.pairs;
            && RowsListed(t, p) == 1
            && (JoinedRows(t, p) == {} <==> OwnershipSpec.SpecOwner(w.calendar, p.pair, logs, p.at).None?)
            && forall k | k in JoinedRows(t, p) ::
                 Some(t[k].orchestrator) == OwnershipSpec.SpecOwner(w.calendar, p.pair, logs, p.at)
  {
    var t := Run(w, EMPTY, logs).value.pairs;
    RunDisjoint(w, logs);
    AtMostOneRow(t, p);
    AttributedFromLog(w, logs, p, None);
    if JoinedRows(t, p) != {} {
      var k :| k in JoinedRows(t, p);
      assert Attributed(t, p, None);
      assert |JoinedRows(t, p)| == 1 by { assert JoinedRows(t, p) == {k}; }
    }
    forall k | k in JoinedRows(t, p)
      ensures Some(t[k].orchestrator) == OwnershipSpec.SpecOwner(w.calendar, p.pair, logs, p.at)
    {
      assert Attributed(t, p, Some(t[k].orchestrator));
      AttributedFromLog(w, logs, p, Some(t[k].orchestrator));
    }
  }

  // ---------- the flag ----------

  // Bound, and its contract and token on the lists where the payment is made; FIL needs no list.
  ghost predicate CountsTowardsVolume(t: Tables, p: Payment) {
    && Attributed(t.pairs, p, None)
    && Lists.JoinsAt(t.contracts, p.contract, p.at)
    && (p.token == ZERO_ADDRESS || Lists.JoinsAt(t.tokens, p.token, p.at))
  }

  ghost predicate ContractThere(logs: seq<Log<Event>>, p: Payment) {
    Lists.ListedAt(ContractUpdates(logs), p.contract, p.at)
  }

  ghost predicate TokenThere(w: World, logs: seq<Log<Event>>, p: Payment) {
    Lists.ListedAt(TokenUpdates(logs), p.token, p.at) && p.token in w.decimals
  }

  lemma {:induction false} FlagFromLog(w: World, logs: seq<Log<Event>>, p: Payment)
    requires Increasing(logs) && Run(w, EMPTY, logs).Success?
    ensures CountsTowardsVolume(Run(w, EMPTY, logs).value, p) <==>
            && OwnedBy(w, logs, p, None) && ContractThere(logs, p)
            && (p.token == ZERO_ADDRESS || TokenThere(w, logs, p))
  {
    AttributedFromLog(w, logs, p, None);
    RunContracts(w, logs);
    RunTokens(w, logs);
    UpdatesOrdered(logs);
    Lists.SnapshotAtPosition(ContractUpdates(logs), Lists.Everywhere(()), p.contract, p.at);
    Lists.SnapshotAtPosition(TokenUpdates(logs), Lists.Known(w.decimals), p.token, p.at);
  }

  // ---------- stablecoins ----------

  // The stablecoin sum of quarter q takes the payment.
  ghost predicate StableSelected(c: Calendar, t: Tables, q: nat, p: Payment) {
    && Attributed(t.pairs, p, None)
    && Lists.ServiceAdmits(c, t.contracts, p.contract, q) && Lists.ServiceAdmits(c, t.tokens, p.token, q)
    && InQuarterSpan(c, q, p.at) && TokenRows(t.tokens, p) != {}
  }

  // What it takes is what it adds up.
  lemma {:induction false} SelectedIsSummed(w: World, logs: seq<Log<Event>>, q: nat, p: Payment)
    requires Increasing(logs) && Run(w, EMPTY, logs).Success?
    ensures var t := Run(w, EMPTY, logs).value;
            && (StableSelected(w.calendar, t, q, p) ==> p.token in w.decimals)
            && Attribute(t.pairs, None, StableAmount(w.calendar, t, q))(p) ==
               if StableSelected(w.calendar, t, q, p) then p.amount * Pow10(18 - w.decimals[p.token]) else 0
  {
    TokenCountedOnce(w, logs, p);
  }

  lemma {:induction false} SelectedFromLog(w: World, logs: seq<Log<Event>>, q: nat, p: Payment)
    requires Increasing(logs) && Run(w, EMPTY, logs).Success? && q >= 1
    ensures StableSelected(w.calendar, Run(w, EMPTY, logs).value, q, p) <==>
            OwnedBy(w, logs, p, None) && StableCounts(w, logs, q, p)
  {
    AttributedFromLog(w, logs, p, None);
    ContractSnapshot(w, logs, p.contract, q);
    TokenSnapshot(w, logs, p.token, q);
    SpanIsQuarter(w.calendar, q, p.at);
    RowsFromLog(w, logs, p);
  }

  // The lists published before the quarter of the payment hold both contract and token.
  ghost predicate ListedBefore(logs: seq<Log<Event>>, start: nat, p: Payment) {
    && p.contract in Lists.ListBefore(ContractUpdates(logs), start)
    && p.token in Lists.ListBefore(TokenUpdates(logs), start)
  }

  // The flag and the sum of the payment's quarter agree on a stablecoin payment exactly when it is
  // unowned, or its token is not listed where it is made, or its contract is listed there just when both
  // were listed before the quarter.
  lemma {:induction false} StableFlagAgrees(w: World, logs: seq<Log<Event>>, p: Payment)
    requires Increasing(logs) && Run(w, EMPTY, logs).Success?
    requires QuarterOf(w.calendar, p.at.epoch) >= 1 && p.token != ZERO_ADDRESS
    ensures var t, q := Run(w, EMPTY, logs).value, QuarterOf(w.calendar, p.at.epoch);
            (CountsTowardsVolume(t, p) <==> StableSelected(w.calendar, t, q, p)) <==>
            || !OwnedBy(w, logs, p, None) || !TokenThere(w, logs, p)
            || (ContractThere(logs, p) <==> ListedBefore(logs, QuarterStart(w.calendar, q), p))
  {
    FlagFromLog(w, logs, p);
    SelectedFromLog(w, logs, QuarterOf(w.calendar, p.at.epoch), p);
  }

  // ---------- FIL ----------

  // A period's quarter takes the payment at that period.
  ghost predicate FilSelected(c: Calendar, t: Tables, periods: seq<Period>, i: nat, p: Payment)
    requires i < |periods|
  {
    Attributed(t.pairs, p, None) && FilEligible(c, t, periods[i].quarter, p) && MatchedTo(periods, i, p.at)
  }

  // Contract listed before the quarter of the first later period.
  ghost predicate ListedForPeriod(c: Calendar, logs: seq<Log<Event>>, periods: seq<Period>, p: Payment) {
    var r := FirstLater(periods, p.at, 0);
    && r.Some? && r.value < |periods|
    && p.contract in Lists.ListBefore(ContractUpdates(logs), QuarterStart(c, periods[r.value].quarter))
  }

  lemma {:induction false} FilSelectedFromLog(w: World, logs: seq<Log<Event>>, periods: seq<Period>, i: nat, p: Payment)
    requires Increasing(logs) && Run(w, EMPTY, logs).Success? && i < |periods|
    requires Rising(periods) && Dated(w.calendar, periods) && p.token == ZERO_ADDRESS
    ensures FilSelected(w.calendar, Run(w, EMPTY, logs).value, periods, i, p) <==>
            && OwnedBy(w, logs, p, None) && QuarterOf(w.calendar, p.at.epoch) >= 1
            && FirstLater(periods, p.at, 0) == Some(i) && ListedForPeriod(w.calendar, logs, periods, p)
  {
    AttributedFromLog(w, logs, p, None);
    ContractSnapshot(w, logs, p.contract, periods[i].quarter);
    QuarterBounds(w.calendar, p.at.epoch);
    FormsAgree(periods, p.at, i);
  }

  ghost predicate FilTaken(c: Calendar, t: Tables, periods: seq<Period>, p: Payment) {
    exists i :: 0 <= i < |periods| && FilSelected(c, t, periods, i, p)
  }

  // The flag and the sums agree on a FIL payment exactly when it is unowned, or its contract is listed
  // where it is made just when it has a first later period, was made from activation on, and was listed
  // before that period's quarter.
  lemma {:induction false} FilFlagAgrees(w: World, logs: seq<Log<Event>>, periods: seq<Period>, p: Payment)
    requires Increasing(logs) && Run(w, EMPTY, logs).Success?
    requires Rising(periods) && Dated(w.calendar, periods) && p.token == ZERO_ADDRESS
    ensures var t := Run(w, EMPTY, logs).value;
            (CountsTowardsVolume(t, p) <==> FilTaken(w.calendar, t, periods, p)) <==>
            || !OwnedBy(w, logs, p, None)
            || (ContractThere(logs, p) <==>
                QuarterOf(w.calendar, p.at.epoch) >= 1 && ListedForPeriod(w.calendar, logs, periods, p))
  {
    var t := Run(w, EMPTY, logs).value;
    FlagFromLog(w, logs, p);
    forall i | 0 <= i < |periods|
      ensures FilSelected(w.calendar, t, periods, i, p) <==>
              && OwnedBy(w, logs, p, None) && QuarterOf(w.calendar, p.at.epoch) >= 1
              && FirstLater(periods, p.at, 0) == Some(i) && ListedForPeriod(w.calendar, logs, periods, p)
    {
      FilSelectedFromLog(w, logs, periods, i, p);
    }
  }
}
