// Price periods depend only on logs before the quarters of their auctions: a later update of the
// admitted lists or the pricing parameters leaves them as they are, so a view that is not refreshed
// by such an update still shows what the function would return.
module PeriodFreshness {
  import opened Wrappers
  import opened Positions
  import opened Calendars
  import opened Events
  import opened Parameters
  import opened AdmittedLists
  import opened Ledger
  import opened Ownership
  import opened SeedMedian
  import opened PricePeriods
  import opened PrefixStability
  import opened PeriodTable

  // ---------- the same readings give the same periods ----------

  // The tables read alike for every auction listed, from activation on.
  ghost predicate ReadsAlike(c: Calendar, t: Tables, u: Tables, auctions: seq<Auction>) {
    forall i | 0 <= i < |auctions| && QuarterOfAuction(c, auctions[i]) >= 1 ::
      && LotOf(c, t, auctions[i]) == LotOf(c, u, auctions[i])
      && ThresholdsOf(c, t, QuarterOfAuction(c, auctions[i])) == ThresholdsOf(c, u, QuarterOfAuction(c, auctions[i]))
      && BandOf(c, t, QuarterOfAuction(c, auctions[i])) == BandOf(c, u, QuarterOfAuction(c, auctions[i]))
  }

  lemma {:induction false} SameCollection(pick: Auction -> Option<Period>, other: Auction -> Option<Period>,
                                          auctions: seq<Auction>)
    requires forall i | 0 <= i < |auctions| :: pick(auctions[i]) == other(auctions[i])
    ensures Collect(pick, auctions) == Collect(other, auctions)
  {
    if auctions != [] {
      SameCollection(pick, other, auctions[..|auctions| - 1]);
    }
  }

  lemma SamePick(c: Calendar, t: Tables, u: Tables, count: nat, a: Auction)
    requires QuarterOfAuction(c, a) >= 1 ==>
      LotOf(c, t, a) == LotOf(c, u, a)
      && ThresholdsOf(c, t, QuarterOfAuction(c, a)) == ThresholdsOf(c, u, QuarterOfAuction(c, a))
    ensures Picker(c, t, count)(a) == Picker(c, u, count)(a)
  {
  }

  lemma {:induction false} SameSubstantial(c: Calendar, t: Tables, u: Tables, count: nat, auctions: seq<Auction>)
    requires ReadsAlike(c, t, u, auctions)
    ensures Substantial(c, t, count, auctions) == Substantial(c, u, count, auctions)
  {
    forall i | 0 <= i < |auctions|
      ensures Picker(c, t, count)(auctions[i]) == Picker(c, u, count)(auctions[i])
    {
      SamePick(c, t, u, count, auctions[i]);
    }
    SameCollection(Picker(c, t, count), Picker(c, u, count), auctions);
  }

  lemma {:induction false} SameBeyondSeeds(keep: Period -> bool, other: Period -> bool, rows: seq<Period>)
    requires forall i | 0 <= i < |rows| :: keep(rows[i]) == other(rows[i])
    ensures BeyondSeeds(keep, rows) == BeyondSeeds(other, rows)
  {
    if |rows| > SEEDS {
      SameBeyondSeeds(keep, other, rows[..|rows| - 1]);
    }
  }

  lemma {:induction false} SameCandidates(c: Calendar, t: Tables, u: Tables, substantial: seq<Period>, q: nat)
    requires BandOf(c, t, q) == BandOf(c, u, q)
    ensures Candidates(c, t, substantial, q) == Candidates(c, u, substantial, q)
  {
    SameBeyondSeeds(Keeper(c, t, q), Keeper(c, u, q), substantial);
  }

  lemma {:induction false} SameFlags(test: Test, other: Test, anchor: Price, candidates: seq<Period>)
    requires forall i, price | 0 <= i < |candidates| :: test(candidates[i], price) == other(candidates[i], price)
    ensures Flag(test, anchor, candidates) == Flag(other, anchor, candidates)
  {
    if candidates != [] {
      SameFlags(test, other, anchor, candidates[..|candidates| - 1]);
    }
  }

  lemma SameTest(c: Calendar, t: Tables, u: Tables, p: Period, price: Price)
    requires BandOf(c, t, p.quarter) == BandOf(c, u, p.quarter)
    ensures BandTest(c, t)(p, price) == BandTest(c, u)(p, price)
  {
  }

  lemma {:induction false} SameIteration(c: Calendar, t: Tables, u: Tables, auctions: seq<Auction>, s: LoopState,
                                         q: nat)
    requires ReadsAlike(c, t, u, auctions) && BandOf(c, t, q) == BandOf(c, u, q)
    ensures Iterate(c, t, auctions, s, q) == Iterate(c, u, auctions, s, q)
  {
    SameSubstantial(c, t, u, s.count, auctions);
    var substantial := Substantial(c, t, s.count, auctions);
    SameCandidates(c, t, u, substantial, q);
    var candidates := Candidates(c, t, substantial, q);
    if candidates != [] {
      CandidatesQuarter(c, t, substantial, q);
      forall i, price | 0 <= i < |candidates|
        ensures BandTest(c, t)(candidates[i], price) == BandTest(c, u)(candidates[i], price)
      {
        SameTest(c, t, u, candidates[i], price);
      }
      SameFlags(BandTest(c, t), BandTest(c, u), OrElse(s.last, SeedAnchor(substantial)), candidates);
    }
  }

  lemma {:induction false} SameLoop(c: Calendar, t: Tables, u: Tables, auctions: seq<Auction>, quarters: seq<nat>)
    requires ReadsAlike(c, t, u, auctions)
    requires forall i | 0 <= i < |quarters| :: BandOf(c, t, quarters[i]) == BandOf(c, u, quarters[i])
    ensures Loop(c, t, auctions, quarters) == Loop(c, u, auctions, quarters)
  {
    if quarters != [] {
      var n := |quarters| - 1;
      SameLoop(c, t, u, auctions, quarters[..n]);
      SameIteration(c, t, u, auctions, Loop(c, t, auctions, quarters[..n]), quarters[n]);
    }
  }

  lemma {:induction false} SamePeriods(c: Calendar, t: Tables, u: Tables, auctions: seq<Auction>)
    requires ReadsAlike(c, t, u, auctions)
    ensures QualifyingPeriods(c, t, auctions) == QualifyingPeriods(c, u, auctions)
  {
    var qs := Quarters(c, auctions);
    forall i | 0 <= i < |qs|
      ensures BandOf(c, t, qs[i]) == BandOf(c, u, qs[i])
    {
      QuartersAre(c, auctions, qs[i]);
      var k :| 0 <= k < |auctions| && QuarterOfAuction(c, auctions[k]) == qs[i];
    }
    SameLoop(c, t, u, auctions, qs);
  }

  // ---------- list updates in the log ----------

  function ContractUpdates(logs: seq<Log<Event>>): seq<Update> {
    if logs == [] then []
    else
      var n := |logs| - 1;
      ContractUpdates(logs[..n]) +
      if logs[n].event.AdmittedListsUpdated? then [Update(logs[n].At(), logs[n].event.contracts)] else []
  }

  function TokenUpdates(logs: seq<Log<Event>>): seq<Update> {
    if logs == [] then []
    else
      var n := |logs| - 1;
      TokenUpdates(logs[..n]) +
      if logs[n].event.AdmittedListsUpdated? then [Update(logs[n].At(), logs[n].event.stablecoins)] else []
  }

  lemma {:induction false} AppendUpdate<M>(us: seq<Update>, u: Update, data: Source<M>)
    ensures RunUpdates(us + [u], data) ==
            match RunUpdates(us, data) case None => None case Some(t) => UpdateList(t, u.list, data, u.at)
  {
    assert (us + [u])[..|us|] == us;
  }

  lemma StepContracts(w: World, t: Tables, log: Log<Event>)
    requires Step(w, t, log).Success?
    ensures Some(Step(w, t, log).value.contracts) ==
            if log.event.AdmittedListsUpdated?
            then UpdateList(t.contracts, log.event.contracts, Everywhere(()), log.At())
            else Some(t.contracts)
  {
  }

  lemma StepTokens(w: World, t: Tables, log: Log<Event>)
    requires Step(w, t, log).Success?
    ensures Some(Step(w, t, log).value.tokens) ==
            if log.event.AdmittedListsUpdated?
            then UpdateList(t.tokens, log.event.stablecoins, Known(w.decimals), log.At())
            else Some(t.tokens)
  {
  }

  ghost predicate AllBefore(us: seq<Update>, bound: Position) {
    forall i | 0 <= i < |us| :: us[i].at.Before(bound)
  }

  lemma {:induction false} UpdatesOrdered(logs: seq<Log<Event>>)
    requires Increasing(logs)
    ensures Ordered(ContractUpdates(logs)) && Ordered(TokenUpdates(logs))
    ensures AllBefore(ContractUpdates(logs), Ownership.BoundOf(logs))
    ensures AllBefore(TokenUpdates(logs), Ownership.BoundOf(logs))
  {
    if logs != [] {
      var n := |logs| - 1;
      UpdatesOrdered(logs[..n]);
      assert n > 0 ==> logs[n - 1].At().Before(logs[n].At());
    }
  }

  // The list tables at the end of a run are those of the list updates in its log.
  lemma {:induction false} RunContracts(w: World, logs: seq<Log<Event>>)
    requires Run(w, EMPTY, logs).Success?
    ensures RunUpdates(ContractUpdates(logs), Everywhere(())) == Some(Run(w, EMPTY, logs).value.contracts)
  {
    if logs != [] {
      var n := |logs| - 1;
      RunContracts(w, logs[..n]);
      StepContracts(w, Run(w, EMPTY, logs[..n]).value, logs[n]);
      if logs[n].event.AdmittedListsUpdated? {
        AppendUpdate(ContractUpdates(logs[..n]), Update(logs[n].At(), logs[n].event.contracts), Everywhere(()));
      } else {
        assert ContractUpdates(logs) == ContractUpdates(logs[..n]);
      }
    }
  }

  lemma {:induction false} RunTokens(w: World, logs: seq<Log<Event>>)
    requires Run(w, EMPTY, logs).Success?
    ensures RunUpdates(TokenUpdates(logs), Known(w.decimals)) == Some(Run(w, EMPTY, logs).value.tokens)
  {
    if logs != [] {
      var n := |logs| - 1;
      RunTokens(w, logs[..n]);
      StepTokens(w, Run(w, EMPTY, logs[..n]).value, logs[n]);
      if logs[n].event.AdmittedListsUpdated? {
        AppendUpdate(TokenUpdates(logs[..n]), Update(logs[n].At(), logs[n].event.stablecoins), Known(w.decimals));
      } else {
        assert TokenUpdates(logs) == TokenUpdates(logs[..n]);
      }
    }
  }

  // The lists in force for a quarter, read from the tables at the end of a run, are the last ones
  // published in the log before the quarter begins.
  lemma {:induction false} ContractSnapshot(w: World, logs: seq<Log<Event>>, a: Address, q: nat)
    requires Increasing(logs) && Run(w, EMPTY, logs).Success? && q >= 1
    ensures var t := Run(w, EMPTY, logs).value.contracts;
            && (SqlAdmits(w.calendar, t, a, q) <==> a in ListBefore(ContractUpdates(logs), QuarterStart(w.calendar, q)))
            && (ServiceAdmits(w.calendar, t, a, q) <==>
                a in ListBefore(ContractUpdates(logs), QuarterStart(w.calendar, q)))
  {
    RunContracts(w, logs);
    UpdatesOrdered(logs);
    SqlReadsSnapshot(w.calendar, ContractUpdates(logs), Everywhere(()), a, q);
    ServiceReadsSnapshot(w.calendar, ContractUpdates(logs), Everywhere(()), a, q);
  }

  lemma {:induction false} TokenSnapshot(w: World, logs: seq<Log<Event>>, a: Address, q: nat)
    requires Increasing(logs) && Run(w, EMPTY, logs).Success? && q >= 1
    ensures var t := Run(w, EMPTY, logs).value.tokens;
            var listed := a in ListBefore(TokenUpdates(logs), QuarterStart(w.calendar, q)) && a in w.decimals;
            && SqlData(w.calendar, t, a, q) == (if listed then Some(w.decimals[a]) else None)
            && (ServiceAdmits(w.calendar, t, a, q) <==> listed)
  {
    RunTokens(w, logs);
    UpdatesOrdered(logs);
    SqlReadsSnapshot(w.calendar, TokenUpdates(logs), Known(w.decimals), a, q);
    ServiceReadsSnapshot(w.calendar, TokenUpdates(logs), Known(w.decimals), a, q);
  }

  // ---------- late logs change nothing ----------

  lemma {:induction false} LateLogLists(logs: seq<Log<Event>>, log: Log<Event>, epoch: nat)
    requires log.block >= epoch
    ensures ListBefore(ContractUpdates(logs + [log]), epoch) == ListBefore(ContractUpdates(logs), epoch)
    ensures ListBefore(TokenUpdates(logs + [log]), epoch) == ListBefore(TokenUpdates(logs), epoch)
  {
    assert (logs + [log])[..|logs|] == logs;
    var cs, ts := ContractUpdates(logs), TokenUpdates(logs);
    if log.event.AdmittedListsUpdated? {
      assert (cs + [Update(log.At(), log.event.contracts)])[..|cs|] == cs;
      assert (ts + [Update(log.At(), log.event.stablecoins)])[..|ts|] == ts;
    } else {
      assert cs + [] == cs && ts + [] == ts;
    }
  }

  // A parameter read for a quarter up to that of a log is the same before and after it.
  lemma {:induction false} SameParameter(w: World, logs: seq<Log<Event>>, log: Log<Event>, kind: ParameterType, q: nat)
    requires Increasing(logs + [log]) && Increasing(logs) && q >= 1 && QuarterStart(w.calendar, q) <= log.block
    requires Run(w, EMPTY, logs).Success? && Run(w, EMPTY, logs + [log]).Success?
    ensures QuarterQuery(w.calendar, Run(w, EMPTY, logs).value.parameters, kind, q) ==
            QuarterQuery(w.calendar, Run(w, EMPTY, logs + [log]).value.parameters, kind, q)
  {
    var epoch := QuarterStart(w.calendar, q);
    QuarterQueryIs(w.calendar, Run(w, EMPTY, logs).value.parameters, kind, q);
    QuarterQueryIs(w.calendar, Run(w, EMPTY, logs + [log]).value.parameters, kind, q);
    RunParameters(w, logs, kind, epoch);
    RunParameters(w, logs + [log], kind, epoch);
    assert (logs + [log])[..|logs|] == logs;
  }

  lemma {:induction false} SameBoundVolumes(w: World, logs: seq<Log<Event>>, log: Log<Event>)
    requires Run(w, EMPTY, logs + [log]).Success? && !log.event.SharesSubmitted?
    ensures Run(w, EMPTY, logs).Success?
    ensures Run(w, EMPTY, logs + [log]).value.boundVolumes == Run(w, EMPTY, logs).value.boundVolumes
  {
    RunOne(w, EMPTY, logs, log);
  }

  // A list or parameter update in quarter k changes no reading for quarters up to k.
  lemma {:induction false} LateLogThresholds(w: World, logs: seq<Log<Event>>, log: Log<Event>, q: nat)
    requires Increasing(logs + [log]) && Increasing(logs) && Run(w, EMPTY, logs + [log]).Success?
    requires !log.event.SharesSubmitted? && Run(w, EMPTY, logs).Success?
    requires q >= 1 && QuarterStart(w.calendar, q) <= log.block
    ensures ThresholdsOf(w.calendar, Run(w, EMPTY, logs).value, q) ==
            ThresholdsOf(w.calendar, Run(w, EMPTY, logs + [log]).value, q)
  {
    SameBoundVolumes(w, logs, log);
    SameParameter(w, logs, log, MinLotFloor, q);
    SameParameter(w, logs, log, MinLotAlphaNumerator, q);
    SameParameter(w, logs, log, MinLotAlphaDenominator, q);
    SameThresholds(w.calendar, Run(w, EMPTY, logs).value, Run(w, EMPTY, logs + [log]).value, q);
  }

  lemma SameThresholds(c: Calendar, t: Tables, u: Tables, q: nat)
    requires t.boundVolumes == u.boundVolumes
    requires forall kind | kind in {MinLotFloor, MinLotAlphaNumerator, MinLotAlphaDenominator} ::
      QuarterQuery(c, t.parameters, kind, q) == QuarterQuery(c, u.parameters, kind, q)
    ensures ThresholdsOf(c, t, q) == ThresholdsOf(c, u, q)
  {
  }

  lemma SameLot(c: Calendar, t: Tables, u: Tables, a: Auction)
    requires var q := QuarterOfAuction(c, a);
             && (SqlAdmits(c, t.contracts, a.contract, q) <==> SqlAdmits(c, u.contracts, a.contract, q))
             && SqlData(c, t.tokens, a.token, q) == SqlData(c, u.tokens, a.token, q)
    ensures LotOf(c, t, a) == LotOf(c, u, a)
  {
  }

  lemma {:induction false} LateLogLot(w: World, logs: seq<Log<Event>>, log: Log<Event>, a: Auction)
    requires Increasing(logs + [log]) && Increasing(logs) && Run(w, EMPTY, logs + [log]).Success?
    requires Run(w, EMPTY, logs).Success?
    requires var q := QuarterOfAuction(w.calendar, a); q >= 1 && QuarterStart(w.calendar, q) <= log.block
    ensures LotOf(w.calendar, Run(w, EMPTY, logs).value, a) == LotOf(w.calendar, Run(w, EMPTY, logs + [log]).value, a)
  {
    var q := QuarterOfAuction(w.calendar, a);
    LateLogLists(logs, log, QuarterStart(w.calendar, q));
    ContractSnapshot(w, logs, a.contract, q);
    ContractSnapshot(w, logs + [log], a.contract, q);
    TokenSnapshot(w, logs, a.token, q);
    TokenSnapshot(w, logs + [log], a.token, q);
    SameLot(w.calendar, Run(w, EMPTY, logs).value, Run(w, EMPTY, logs + [log]).value, a);
  }

  // View freshness: a log of quarter k, other than a posting of bound volume, leaves the price periods
  // of the auctions indexed up to quarter k as they were. No trigger on contracts is needed for it.
  lemma {:induction false} LateLogKeepsPeriods(w: World, logs: seq<Log<Event>>, log: Log<Event>, auctions: seq<Auction>)
    requires Increasing(logs + [log]) && Run(w, EMPTY, logs + [log]).Success?
    requires !log.event.SharesSubmitted?
    requires forall i | 0 <= i < |auctions| ::
      QuarterOfAuction(w.calendar, auctions[i]) <= QuarterOf(w.calendar, log.block)
    ensures Run(w, EMPTY, logs).Success?
    ensures QualifyingPeriods(w.calendar, Run(w, EMPTY, logs).value, auctions) ==
            QualifyingPeriods(w.calendar, Run(w, EMPTY, logs + [log]).value, auctions)
  {
    SameBoundVolumes(w, logs, log);
    assert Increasing(logs) by {
      assert forall i, j | 0 <= i < j < |logs| :: (logs + [log])[i].At().Before((logs + [log])[j].At());
    }
    var t, u := Run(w, EMPTY, logs).value, Run(w, EMPTY, logs + [log]).value;
    forall i | 0 <= i < |auctions| && QuarterOfAuction(w.calendar, auctions[i]) >= 1
      ensures LotOf(w.calendar, t, auctions[i]) == LotOf(w.calendar, u, auctions[i])
      ensures ThresholdsOf(w.calendar, t, QuarterOfAuction(w.calendar, auctions[i])) ==
              ThresholdsOf(w.calendar, u, QuarterOfAuction(w.calendar, auctions[i]))
      ensures BandOf(w.calendar, t, QuarterOfAuction(w.calendar, auctions[i])) ==
              BandOf(w.calendar, u, QuarterOfAuction(w.calendar, auctions[i]))
    {
      var q := QuarterOfAuction(w.calendar, auctions[i]);
      QuarterBefore(w.calendar, log.block, q);
      LateLogLot(w, logs, log, auctions[i]);
      LateLogThresholds(w, logs, log, q);
      SameParameter(w, logs, log, PriceBandBps, q);
    }
    SamePeriods(w.calendar, t, u, auctions);
  }
}
