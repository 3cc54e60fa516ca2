// Exactly when the triggers can leave the view stale: a list update after whose last refresh contracts
// change, while a token with metadata is listed and parameters have been set.
module StaleView {
  import opened Wrappers
  import opened Positions
  import opened Calendars
  import opened Events
  import opened Parameters
  import Lists = AdmittedLists
  import opened Ledger
  import opened PricePeriods
  import opened PrefixStability
  import opened PeriodTable
  import opened PeriodFreshness
  import opened PeriodView
  import opened SixAuctions
  import opened VolumeFromLog

  // ---------- parameters ----------

  ghost predicate HasParameters(logs: seq<Log<Event>>) {
    exists i :: 0 <= i < |logs| && logs[i].event.PricingParamsUpdated?
  }

  lemma {:induction false} ParametersUnset(logs: seq<Log<Event>>, epoch: nat)
    requires !HasParameters(logs)
    ensures LastParams(logs, epoch).None?
  {
    if logs != [] {
      ParametersUnset(logs[..|logs| - 1], epoch);
    }
  }

  lemma {:induction false} ParametersSet(logs: seq<Log<Event>>, epoch: nat)
    requires HasParameters(logs) && forall i | 0 <= i < |logs| :: logs[i].block < epoch
    ensures LastParams(logs, epoch).Some?
  {
    var n := |logs| - 1;
    if !logs[n].event.PricingParamsUpdated? {
      var i :| 0 <= i < |logs| && logs[i].event.PricingParamsUpdated?;
      assert logs[..n][i].event.PricingParamsUpdated?;
      ParametersSet(logs[..n], epoch);
    }
  }

  // Without parameters nothing qualifies.
  lemma {:induction false} NothingWithoutParameters(w: World, logs: seq<Log<Event>>, u: Tables, auctions: seq<Auction>)
    requires Increasing(logs) && Run(w, EMPTY, logs).Success? && !HasParameters(logs)
    requires u.parameters == Run(w, EMPTY, logs).value.parameters
    ensures QualifyingPeriods(w.calendar, u, auctions) == []
  {
    if QualifyingPeriods(w.calendar, u, auctions) != [] {
      RowHasAuction(w.calendar, u, auctions, 0);
      var q := QualifyingPeriods(w.calendar, u, auctions)[0].quarter;
      assert ThresholdsOf(w.calendar, u, q).Some?;
      ParameterFromLog(w, logs, MinLotFloor, q);
      ParametersUnset(logs, QuarterStart(w.calendar, q));
      ParamsAre(logs, QuarterStart(w.calendar, q));
      assert false;
    }
  }

  // ---------- who is listed once every log lies before the quarter ----------

  ghost predicate AllBefore(logs: seq<Log<Event>>, epoch: nat) {
    forall i | 0 <= i < |logs| :: logs[i].block < epoch
  }

  lemma {:induction false} AllBeforeNext(c: Calendar, logs: seq<Log<Event>>, log: Log<Event>)
    requires Increasing(logs + [log])
    ensures Increasing(logs) && AllBefore(logs + [log], QuarterStart(c, QuarterOf(c, log.block) + 1))
  {
    var all := logs + [log];
    QuarterBounds(c, log.block);
    forall i | 0 <= i < |all|
      ensures all[i].block <= log.block
    {
      assert i < |logs| ==> all[i].At().Before(all[|logs|].At());
    }
    forall i, j | 0 <= i < j < |logs|
      ensures logs[i].At().Before(logs[j].At())
    {
      assert all[i] == logs[i] && all[j] == logs[j];
    }
  }

  lemma {:induction false} LastListTold(logs: seq<Log<Event>>, epoch: nat)
    requires AllBefore(logs, epoch)
    ensures Lists.ListBefore(ContractUpdates(logs), epoch) == Lists.LastList(ContractUpdates(logs))
    ensures Lists.ListBefore(TokenUpdates(logs), epoch) == Lists.LastList(TokenUpdates(logs))
  {
    if logs != [] {
      var n := |logs| - 1;
      LastListTold(logs[..n], epoch);
      if logs[n].event.AdmittedListsUpdated? {
        LastIsBefore(ContractUpdates(logs[..n]), Lists.Update(logs[n].At(), logs[n].event.contracts), epoch);
        LastIsBefore(TokenUpdates(logs[..n]), Lists.Update(logs[n].At(), logs[n].event.stablecoins), epoch);
      } else {
        assert ContractUpdates(logs) == ContractUpdates(logs[..n]) && TokenUpdates(logs) == TokenUpdates(logs[..n]);
      }
    }
  }

  lemma LastIsBefore(us: seq<Lists.Update>, u: Lists.Update, epoch: nat)
    requires u.at.epoch < epoch
    ensures Lists.ListBefore(us + [u], epoch) == u.list == Lists.LastList(us + [u])
  {
  }

  // A contract is admitted for such a quarter exactly when its row is open.
  lemma {:induction false} AdmittedIsListed(w: World, logs: seq<Log<Event>>, a: Address, q: nat)
    requires Increasing(logs) && Run(w, EMPTY, logs).Success? && q >= 1 && AllBefore(logs, QuarterStart(w.calendar, q))
    ensures var contracts := Run(w, EMPTY, logs).value.contracts;
            Lists.SqlAdmits(w.calendar, contracts, a, q) <==> a in Lists.Listed(contracts)
  {
    ContractSnapshot(w, logs, a, q);
    LastListTold(logs, QuarterStart(w.calendar, q));
    RunContracts(w, logs);
    UpdatesOrdered(logs);
    Lists.RunSound(ContractUpdates(logs), Lists.Everywhere(()));
  }

  // ---------- somebody moves ----------

  lemma {:induction false} SomeoneChanges(t: ContractTable, list: seq<Address>, at: Position)
    requires Lists.UpdateList(t, list, Lists.Everywhere(()), at).Some?
    requires Lists.UpdateList(t, list, Lists.Everywhere(()), at).value != t
    ensures exists a :: a in Lists.Listed(t) <==> a !in list
  {
    if forall a :: a in Lists.Listed(t) <==> a in list {
      Lists.UpdateStays(t, list, Lists.Everywhere(()), at);
      assert false;
    }
  }

  lemma {:induction false} SomeoneInserted(t: ContractTable, list: seq<Address>, at: Position)
    requires Lists.UpdateList(t, list, Lists.Everywhere(()), at).Some?
    requires Lists.UpdateList(t, list, Lists.Everywhere(()), at).value != Lists.CloseMissing(t, list, at)
    ensures exists a :: a in list && a !in Lists.Listed(t)
  {
    if forall a :: a in list ==> a in Lists.Listed(t) {
      var added := Lists.Added(t, list);
      if added != [] {
        Lists.AddedIs(t, list, added[0]);
        assert false;
      }
    }
  }

  // The log, and the tables before it, as the last refresh it causes reads them, and after it.
  ghost predicate Misses(w: World, logs: seq<Log<Event>>, log: Log<Event>) {
    && Increasing(logs + [log]) && Run(w, EMPTY, logs).Success? && Run(w, EMPTY, logs + [log]).Success?
    && Missed(Run(w, EMPTY, logs).value, Run(w, EMPTY, logs + [log]).value, log)
  }

  ghost function Before(w: World, logs: seq<Log<Event>>): Tables
    requires Run(w, EMPTY, logs).Success?
  {
    Run(w, EMPTY, logs).value
  }

  ghost function Read(w: World, logs: seq<Log<Event>>, log: Log<Event>): Tables
    requires Misses(w, logs, log)
  {
    TablesRead(Before(w, logs), Before(w, logs + [log]), log.event.contracts, log.At())
  }

  function NextQuarter(c: Calendar, log: Log<Event>): nat {
    QuarterOf(c, log.block) + 1
  }

  // The refresh reads the contract's admission for the next quarter otherwise than the function would.
  ghost predicate Moves(w: World, logs: seq<Log<Event>>, log: Log<Event>, a: Address)
    requires Misses(w, logs, log)
  {
    var q := NextQuarter(w.calendar, log);
    Lists.SqlAdmits(w.calendar, Read(w, logs, log).contracts, a, q)
    <==> !Lists.SqlAdmits(w.calendar, Before(w, logs + [log]).contracts, a, q)
  }

  lemma {:induction false} AfterUpdate(w: World, logs: seq<Log<Event>>, log: Log<Event>, a: Address)
    requires Misses(w, logs, log)
    ensures var q, t := NextQuarter(w.calendar, log), Before(w, logs);
            && Lists.UpdateList(t.contracts, log.event.contracts, Lists.Everywhere(()), log.At()) ==
               Some(Before(w, logs + [log]).contracts)
            && (Lists.SqlAdmits(w.calendar, Before(w, logs + [log]).contracts, a, q) <==> a in log.event.contracts)
  {
    AllBeforeNext(w.calendar, logs, log);
    AdmittedIsListed(w, logs + [log], a, NextQuarter(w.calendar, log));
    RunOne(w, EMPTY, logs, log);
    StepContracts(w, Before(w, logs), log);
    Lists.UpdateListed(Before(w, logs).contracts, log.event.contracts, Lists.Everywhere(()), log.At(), a);
  }

  // Without a refresh the old contracts are read,
  lemma {:induction false} UnreadMoves(w: World, logs: seq<Log<Event>>, log: Log<Event>)
    requires Misses(w, logs, log) && Before(w, logs + [log]).tokens == Before(w, logs).tokens
    ensures exists a :: Moves(w, logs, log, a)
  {
    var t, cs := Before(w, logs).contracts, log.event.contracts;
    AfterUpdate(w, logs, log, "");
    SomeoneChanges(t, cs, log.At());
    var a :| a in Lists.Listed(t) <==> a !in cs;
    AfterUpdate(w, logs, log, a);
    OldReading(w, logs, log, a);
    assert Moves(w, logs, log, a);
  }

  lemma {:induction false} OldReading(w: World, logs: seq<Log<Event>>, log: Log<Event>, a: Address)
    requires Increasing(logs + [log]) && Run(w, EMPTY, logs).Success?
    ensures Lists.SqlAdmits(w.calendar, Before(w, logs).contracts, a, NextQuarter(w.calendar, log)) <==>
            a in Lists.Listed(Before(w, logs).contracts)
  {
    AllBeforeNext(w.calendar, logs, log);
    AllBeforePrefix(logs, log, QuarterStart(w.calendar, NextQuarter(w.calendar, log)));
    AdmittedIsListed(w, logs, a, NextQuarter(w.calendar, log));
  }

  lemma {:induction false} AllBeforePrefix(logs: seq<Log<Event>>, log: Log<Event>, epoch: nat)
    requires AllBefore(logs + [log], epoch)
    ensures AllBefore(logs, epoch) && log.block < epoch
  {
    assert forall i | 0 <= i < |logs| :: (logs + [log])[i] == logs[i];
    assert (logs + [log])[|logs|] == log;
  }

  // and with one those that are left when tokens have been closed.
  lemma {:induction false} CutShortMoves(w: World, logs: seq<Log<Event>>, log: Log<Event>)
    requires Misses(w, logs, log) && Before(w, logs + [log]).tokens != Before(w, logs).tokens
    ensures exists a :: Moves(w, logs, log, a)
  {
    var t, cs := Before(w, logs), log.event.contracts;
    AfterUpdate(w, logs, log, "");
    SomeoneInserted(t.contracts, cs, log.At());
    var a :| a in cs && a !in Lists.Listed(t.contracts);
    AfterUpdate(w, logs, log, a);
    CutShortReading(w, logs, log, a);
    ClosedUnlisted(t.contracts, cs, log.At(), a);
    assert Moves(w, logs, log, a);
  }

  lemma {:induction false} CutShortReading(w: World, logs: seq<Log<Event>>, log: Log<Event>, a: Address)
    requires Misses(w, logs, log)
    ensures var contracts := Lists.CloseMissing(Before(w, logs).contracts, log.event.contracts, log.At());
            Lists.SqlAdmits(w.calendar, contracts, a, NextQuarter(w.calendar, log)) <==> a in Lists.Listed(contracts)
  {
    StepOfRun(w, logs, log);
    CutShortRun(w, logs, log);
    NewReading(w, logs, CutShort(Before(w, logs), log), a);
  }

  lemma {:induction false} StepOfRun(w: World, logs: seq<Log<Event>>, log: Log<Event>)
    requires Run(w, EMPTY, logs).Success? && Run(w, EMPTY, logs + [log]).Success?
    ensures Step(w, Before(w, logs), log) == Success(Before(w, logs + [log]))
  {
    RunOne(w, EMPTY, logs, log);
  }

  lemma {:induction false} NewReading(w: World, logs: seq<Log<Event>>, log: Log<Event>, a: Address)
    requires Increasing(logs + [log]) && Run(w, EMPTY, logs + [log]).Success?
    ensures Lists.SqlAdmits(w.calendar, Before(w, logs + [log]).contracts, a, NextQuarter(w.calendar, log)) <==>
            a in Lists.Listed(Before(w, logs + [log]).contracts)
  {
    AllBeforeNext(w.calendar, logs, log);
    AdmittedIsListed(w, logs + [log], a, NextQuarter(w.calendar, log));
  }

  lemma ClosedUnlisted(t: ContractTable, list: seq<Address>, at: Position, a: Address)
    requires a !in Lists.Listed(t)
    ensures a !in Lists.Listed(Lists.CloseMissing(t, list, at))
  {
  }

  lemma {:induction false} SomeoneMoves(w: World, logs: seq<Log<Event>>, log: Log<Event>)
    requires Misses(w, logs, log)
    ensures exists a :: Moves(w, logs, log, a)
  {
    if Before(w, logs + [log]).tokens == Before(w, logs).tokens {
      UnreadMoves(w, logs, log);
    } else {
      CutShortMoves(w, logs, log);
    }
  }

  // ---------- auctions of the next quarter tell the two apart ----------

  // A token with metadata stays on the list.
  predicate TokenLeft(w: World, log: Log<Event>, token: Address)
    requires log.event.AdmittedListsUpdated?
  {
    token in log.event.stablecoins && token in w.decimals
  }

  lemma {:induction false} TokenData(w: World, logs: seq<Log<Event>>, log: Log<Event>, token: Address, q: nat)
    requires Misses(w, logs, log) && q >= NextQuarter(w.calendar, log)
    ensures Lists.SqlData(w.calendar, Before(w, logs + [log]).tokens, token, q) ==
            if TokenLeft(w, log, token) then Some(w.decimals[token]) else None
  {
    TokenSnapshot(w, logs + [log], token, q);
    TokensTold(w.calendar, logs, log, q);
  }

  lemma {:induction false} TokensTold(c: Calendar, logs: seq<Log<Event>>, log: Log<Event>, q: nat)
    requires Increasing(logs + [log]) && log.event.AdmittedListsUpdated? && q >= NextQuarter(c, log)
    ensures Lists.ListBefore(TokenUpdates(logs + [log]), QuarterStart(c, q)) == log.event.stablecoins
  {
    AllBeforeNext(c, logs, log);
    QuarterStartMonotone(c, NextQuarter(c, log), q);
    AllBeforePrefix(logs, log, QuarterStart(c, NextQuarter(c, log)));
    assert (logs + [log])[..|logs|] == logs;
    LastIsBefore(TokenUpdates(logs), Lists.Update(log.At(), log.event.stablecoins), QuarterStart(c, q));
  }

  // Parameters and volumes are the same in the tables before, as read, and after.
  lemma {:induction false} SameMeasures(w: World, logs: seq<Log<Event>>, log: Log<Event>, u: Tables, q: nat)
    requires Misses(w, logs, log) && (u == Read(w, logs, log) || u == Before(w, logs + [log]))
    ensures u.parameters == Before(w, logs).parameters && u.tokens == Before(w, logs + [log]).tokens
    ensures ThresholdsOf(w.calendar, u, q) == ThresholdsOf(w.calendar, Before(w, logs), q)
    ensures BandOf(w.calendar, u, q) == BandOf(w.calendar, Before(w, logs), q)
  {
    RunOne(w, EMPTY, logs, log);
    StepLists(w, Before(w, logs), log);
    SameThresholds(w.calendar, u, Before(w, logs), q);
  }

  lemma {:induction false} MeasuresSet(w: World, logs: seq<Log<Event>>, q: nat)
    requires Increasing(logs) && Run(w, EMPTY, logs).Success? && HasParameters(logs)
    requires q >= 1 && AllBefore(logs, QuarterStart(w.calendar, q))
    ensures ThresholdsOf(w.calendar, Before(w, logs), q).Some? && BandOf(w.calendar, Before(w, logs), q).Some?
  {
    ParametersSet(logs, QuarterStart(w.calendar, q));
    ThresholdsFromLog(w, logs, q);
    BandFromLog(w, logs, q);
  }

  lemma {:induction false} Scaled(amount: nat, n: nat)
    ensures amount * Pow10(n) >= amount
  {
    if n > 0 {
      Scaled(amount, n - 1);
      assert amount * Pow10(n) == 10 * (amount * Pow10(n - 1));
    }
  }

  // With the contract they qualify,
  lemma {:induction false} AdmittedQualifies(w: World, logs: seq<Log<Event>>, log: Log<Event>, u: Tables,
                                             a: Address, token: Address, th: Thresholds)
    requires Misses(w, logs, log) && (u == Read(w, logs, log) || u == Before(w, logs + [log]))
    requires TokenLeft(w, log, token)
    requires var q := NextQuarter(w.calendar, log);
             && Lists.SqlAdmits(w.calendar, u.contracts, a, q)
             && ThresholdsOf(w.calendar, u, q) == Some(th) && BandOf(w.calendar, u, q).Some?
    ensures var start := QuarterStart(w.calendar, NextQuarter(w.calendar, log));
            QualifyingPeriods(w.calendar, u, Six(a, token, th.floor, start)) != []
  {
    var q := NextQuarter(w.calendar, log);
    NextStart(w.calendar, q);
    SameMeasures(w, logs, log, u, q);
    TokenData(w, logs, log, token, q);
    ListedQualifies(w.calendar, u, a, token, w.decimals[token], th, q);
  }

  lemma {:induction false} ListedQualifies(c: Calendar, u: Tables, a: Address, token: Address, decimals: Decimals,
                                           th: Thresholds, q: nat)
    requires q >= 1 && QuarterOf(c, QuarterStart(c, q)) == q
    requires Lists.SqlAdmits(c, u.contracts, a, q) && Lists.SqlData(c, u.tokens, token, q) == Some(decimals)
    requires ThresholdsOf(c, u, q) == Some(th) && BandOf(c, u, q).Some?
    ensures QualifyingPeriods(c, u, Six(a, token, th.floor, QuarterStart(c, q))) != []
  {
    ListedLot(c, u, a, token, th.floor, decimals, q);
    Scaled(th.floor, 18 - decimals);
    SixQualify(c, u, a, token, th.floor, QuarterStart(c, q), th.floor * Pow10(18 - decimals));
  }

  lemma {:induction false} ListedLot(c: Calendar, u: Tables, a: Address, token: Address, amount: nat,
                                     decimals: Decimals, q: nat)
    requires QuarterOf(c, QuarterStart(c, q)) == q
    requires Lists.SqlAdmits(c, u.contracts, a, q) && Lists.SqlData(c, u.tokens, token, q) == Some(decimals)
    ensures LotOf(c, u, One(a, token, amount, Position(QuarterStart(c, q), 0))) == Some(amount * Pow10(18 - decimals))
  {
    LotIs(c, u, One(a, token, amount, Position(QuarterStart(c, q), 0)), Some(decimals));
  }

  lemma {:induction false} NextStart(c: Calendar, q: nat)
    requires q >= 1
    ensures QuarterOf(c, QuarterStart(c, q)) == q
  {
    QuarterBefore(c, QuarterStart(c, q), q);
    QuarterBefore(c, QuarterStart(c, q), q + 1);
    assert c.epochsPerQuarter * q == c.epochsPerQuarter * (q - 1) + c.epochsPerQuarter;
  }

  // and without it they do not.
  lemma {:induction false} UnadmittedDoesNot(c: Calendar, u: Tables, a: Address, token: Address, amount: nat, q: nat)
    requires q >= 1 && !Lists.SqlAdmits(c, u.contracts, a, q)
    ensures QualifyingPeriods(c, u, Six(a, token, amount, QuarterStart(c, q))) == []
  {
    var auctions := Six(a, token, amount, QuarterStart(c, q));
    NextStart(c, q);
    assert forall i | 0 <= i < 6 :: LotOf(c, u, auctions[i]).None?;
    if QualifyingPeriods(c, u, auctions) != [] {
      RowHasAuction(c, u, auctions, 0);
      assert false;
    }
  }

  lemma {:induction false} MovedTellsApart(w: World, logs: seq<Log<Event>>, log: Log<Event>, a: Address, token: Address)
    requires Misses(w, logs, log) && HasParameters(logs) && TokenLeft(w, log, token) && Moves(w, logs, log, a)
    ensures exists auctions :: Sorted(auctions) &&
                               !LeavesFresh(w.calendar, Before(w, logs), Before(w, logs + [log]), log, auctions)
  {
    var c, q := w.calendar, NextQuarter(w.calendar, log);
    var start := QuarterStart(c, q);
    AllBeforeNext(c, logs, log);
    AllBeforePrefix(logs, log, start);
    MeasuresSet(w, logs, q);
    var th := ThresholdsOf(c, Before(w, logs), q).value;
    var floor := th.floor;
    var auctions := Six(a, token, floor, start);
    NextStart(c, q);
    SixQuarters(c, a, token, floor, start);
    SameMeasures(w, logs, log, Read(w, logs, log), q);
    SameMeasures(w, logs, log, Before(w, logs + [log]), q);
    if Lists.SqlAdmits(c, Read(w, logs, log).contracts, a, q) {
      AdmittedQualifies(w, logs, log, Read(w, logs, log), a, token, th);
      UnadmittedDoesNot(c, Before(w, logs + [log]), a, token, floor, q);
    } else {
      AdmittedQualifies(w, logs, log, Before(w, logs + [log]), a, token, th);
      UnadmittedDoesNot(c, Read(w, logs, log), a, token, floor, q);
    }
    ReadLeavesFresh(c, Before(w, logs), Before(w, logs + [log]), log, auctions);
  }

  // ---------- without parameters, or without tokens, nothing tells them apart ----------

  // No auction has another lot in the tables as read than after the log.
  lemma {:induction false} SameLots(w: World, logs: seq<Log<Event>>, log: Log<Event>, a: Auction)
    requires Misses(w, logs, log) && QuarterOfAuction(w.calendar, a) >= 1
    requires forall token :: !TokenLeft(w, log, token)
    ensures LotOf(w.calendar, Read(w, logs, log), a) == LotOf(w.calendar, Before(w, logs + [log]), a)
  {
    var c, q := w.calendar, QuarterOfAuction(w.calendar, a);
    AllBeforeNext(c, logs, log);
    if q < NextQuarter(c, log) {
      QuarterBefore(c, log.block, q);
      LateLogLot(w, logs, log, a);
      if Before(w, logs + [log]).tokens != Before(w, logs).tokens {
        RunOne(w, EMPTY, logs, log);
        CutShortRun(w, logs, log);
        LateLogLot(w, logs, CutShort(Before(w, logs), log), a);
      }
    } else {
      TokenData(w, logs, log, a.token, q);
      SameMeasures(w, logs, log, Read(w, logs, log), q);
      LotIs(c, Read(w, logs, log), a, None);
      LotIs(c, Before(w, logs + [log]), a, None);
    }
  }

  lemma {:induction false} NoTokenLeavesFresh(w: World, logs: seq<Log<Event>>, log: Log<Event>, auctions: seq<Auction>)
    requires Misses(w, logs, log) && forall token :: !TokenLeft(w, log, token)
    ensures QualifyingPeriods(w.calendar, Read(w, logs, log), auctions) ==
            QualifyingPeriods(w.calendar, Before(w, logs + [log]), auctions)
  {
    var c, t, u := w.calendar, Read(w, logs, log), Before(w, logs + [log]);
    forall i | 0 <= i < |auctions| && QuarterOfAuction(c, auctions[i]) >= 1
      ensures LotOf(c, t, auctions[i]) == LotOf(c, u, auctions[i])
      ensures ThresholdsOf(c, t, QuarterOfAuction(c, auctions[i])) ==
              ThresholdsOf(c, u, QuarterOfAuction(c, auctions[i]))
      ensures BandOf(c, t, QuarterOfAuction(c, auctions[i])) == BandOf(c, u, QuarterOfAuction(c, auctions[i]))
    {
      SameLots(w, logs, log, auctions[i]);
      SameMeasures(w, logs, log, t, QuarterOfAuction(c, auctions[i]));
      SameMeasures(w, logs, log, u, QuarterOfAuction(c, auctions[i]));
    }
    SamePeriods(c, t, u, auctions);
  }

  // The log can leave the view stale.
  ghost predicate CanStale(w: World, logs: seq<Log<Event>>, log: Log<Event>)
    requires Run(w, EMPTY, logs).Success? && Run(w, EMPTY, logs + [log]).Success?
  {
    && Missed(Before(w, logs), Before(w, logs + [log]), log)
    && (exists token :: TokenLeft(w, log, token)) && HasParameters(logs)
  }

  // The triggers leave every fresh view fresh, whatever auctions are indexed, exactly unless the log
  // changes contracts after its last refresh, a token with metadata stays listed, and parameters are set.
  lemma {:induction false} StaleExactly(w: World, logs: seq<Log<Event>>, log: Log<Event>)
    requires Increasing(logs + [log]) && Run(w, EMPTY, logs).Success? && Run(w, EMPTY, logs + [log]).Success?
    ensures (forall auctions | Sorted(auctions) ::
               LeavesFresh(w.calendar, Before(w, logs), Before(w, logs + [log]), log, auctions))
            <==> !CanStale(w, logs, log)
  {
    if CanStale(w, logs, log) {
      SomeoneMoves(w, logs, log);
      var a :| Moves(w, logs, log, a);
      var token :| TokenLeft(w, log, token);
      MovedTellsApart(w, logs, log, a, token);
    } else {
      forall auctions | Sorted(auctions)
        ensures LeavesFresh(w.calendar, Before(w, logs), Before(w, logs + [log]), log, auctions)
      {
        CannotStale(w, logs, log, auctions);
      }
    }
  }

  lemma {:induction false} CannotStale(w: World, logs: seq<Log<Event>>, log: Log<Event>, auctions: seq<Auction>)
    requires Increasing(logs + [log]) && Run(w, EMPTY, logs).Success? && Run(w, EMPTY, logs + [log]).Success?
    requires !CanStale(w, logs, log)
    ensures LeavesFresh(w.calendar, Before(w, logs), Before(w, logs + [log]), log, auctions)
  {
    AllBeforeNext(w.calendar, logs, log);
    RunOne(w, EMPTY, logs, log);
    if !Missed(Before(w, logs), Before(w, logs + [log]), log) {
      UnmissedLeavesFresh(w, Before(w, logs), log, auctions);
    } else {
      ReadLeavesFresh(w.calendar, Before(w, logs), Before(w, logs + [log]), log, auctions);
      if HasParameters(logs) {
        NoTokenLeavesFresh(w, logs, log, auctions);
      } else {
        SameMeasures(w, logs, log, Read(w, logs, log), 1);
        SameMeasures(w, logs, log, Before(w, logs + [log]), 1);
        NothingWithoutParameters(w, logs, Read(w, logs, log), auctions);
        NothingWithoutParameters(w, logs, Before(w, logs + [log]), auctions);
      }
    }
  }
}
