// The stored view of price periods and the triggers that refresh it: on every source of the function
// except the contracts.
module PeriodView {
  import opened Wrappers
  import opened Positions
  import opened Calendars
  import opened Events
  import opened AdmittedLists
  import opened Ledger
  import opened PricePeriods
  import opened PrefixStability
  import opened PeriodFreshness

  // ---------- one log ----------

  // Contracts as the last refresh within a list update reads them, if it inserts no token: tokens are
  // closed before contracts are inserted. Without a change of tokens there is no refresh.
  function ContractsRead(t: Tables, t': Tables, contracts: seq<Address>, at: Position): ContractTable {
    if t'.tokens != t.tokens then CloseMissing(t.contracts, contracts, at) else t.contracts
  }

  function TablesRead(t: Tables, t': Tables, contracts: seq<Address>, at: Position): Tables {
    t.(contracts := ContractsRead(t, t', contracts, at), tokens := t'.tokens)
  }

  // An inserted token is the last statement of all, and refreshes the view.
  function RefreshedByLists(c: Calendar, t: Tables, t': Tables, contracts: seq<Address>, at: Position,
                            auctions: seq<Auction>, view: seq<Period>): seq<Period>
  {
    if t'.tokens.Keys != t.tokens.Keys then QualifyingPeriods(c, t', auctions)
    else if t'.tokens != t.tokens then QualifyingPeriods(c, TablesRead(t, t', contracts, at), auctions)
    else view
  }

  // The triggers miss a log when contracts change after the last refresh it causes.
  predicate Missed(t: Tables, t': Tables, log: Log<Event>) {
    && log.event.AdmittedListsUpdated? && t'.tokens.Keys == t.tokens.Keys
    && t'.contracts != ContractsRead(t, t', log.event.contracts, log.At())
  }

  // The view after a log has changed the tables from t to t'.
  function Refreshed(c: Calendar, t: Tables, t': Tables, log: Log<Event>, auctions: seq<Auction>,
                     view: seq<Period>): seq<Period> {
    match log.event
    case PricingParamsUpdated(_) => QualifyingPeriods(c, t', auctions)
    case SharesSubmitted(_, _) => QualifyingPeriods(c, t', auctions)
    case AdmittedListsUpdated(contracts, _) => RefreshedByLists(c, t, t', contracts, log.At(), auctions, view)
    case _ => view
  }

  // ---------- an update cut short after its rows are closed is itself an update ----------

  function StillListed<M>(t: ListTable<M>, list: seq<Address>): seq<Address> {
    if list == [] then []
    else
      var n := |list| - 1;
      StillListed(t, list[..n]) + if list[n] in Listed(t) then [list[n]] else []
  }

  lemma {:induction false} StillListedIs<M>(t: ListTable<M>, list: seq<Address>, a: Address)
    ensures a in StillListed(t, list) <==> a in list && a in Listed(t)
  {
    if list != [] {
      var n := |list| - 1;
      assert list == list[..n] + [list[n]];
      StillListedIs(t, list[..n], a);
    }
  }

  lemma {:induction false} NothingAdded<M>(t: ListTable<M>, list: seq<Address>)
    ensures Added(t, StillListed(t, list)) == []
  {
    var added := Added(t, StillListed(t, list));
    if added != [] {
      AddedIs(t, StillListed(t, list), added[0]);
      StillListedIs(t, list, added[0]);
      assert false;
    }
  }

  lemma {:induction false} CloseOnly<M>(t: ListTable<M>, list: seq<Address>, data: Source<M>, at: Position)
    ensures UpdateList(t, StillListed(t, list), data, at) == Some(CloseMissing(t, list, at))
  {
    NothingAdded(t, list);
    forall k | k in t && t[k].removed.None?
      ensures k.address in StillListed(t, list) <==> k.address in list
    {
      StillListedIs(t, list, k.address);
    }
    assert CloseMissing(t, StillListed(t, list), at) == CloseMissing(t, list, at);
  }

  lemma {:induction false} NothingInserted<M>(t: ListTable<M>, list: seq<Address>, data: Source<M>, at: Position)
    requires UpdateList(t, list, data, at).Some? && UpdateList(t, list, data, at).value.Keys == t.Keys
    ensures UpdateList(t, list, data, at).value == CloseMissing(t, list, at)
  {
    var t' := UpdateList(t, list, data, at).value;
    forall k | k in t
      ensures k in t' && t'[k] == CloseMissing(t, list, at)[k]
    {
      UpdateIs(t, list, data, at, k);
    }
    assert t'.Keys == CloseMissing(t, list, at).Keys;
  }

  // The log that leaves the tables as they are between closing tokens and inserting contracts.
  function CutShort(t: Tables, log: Log<Event>): Log<Event>
    requires log.event.AdmittedListsUpdated?
  {
    log.(event := AdmittedListsUpdated(StillListed(t.contracts, log.event.contracts),
                                       StillListed(t.tokens, log.event.stablecoins)))
  }

  lemma {:induction false} CutShortStep(w: World, t: Tables, log: Log<Event>)
    requires log.event.AdmittedListsUpdated? && Step(w, t, log).Success?
    requires Step(w, t, log).value.tokens.Keys == t.tokens.Keys
    ensures Step(w, t, CutShort(t, log)) ==
            Success(t.(contracts := CloseMissing(t.contracts, log.event.contracts, log.At()),
                       tokens := Step(w, t, log).value.tokens))
  {
    CloseOnly(t.contracts, log.event.contracts, Everywhere(()), log.At());
    CloseOnly(t.tokens, log.event.stablecoins, Known(w.decimals), log.At());
    NothingInserted(t.tokens, log.event.stablecoins, Known(w.decimals), log.At());
  }

  ghost predicate NoneAhead(c: Calendar, auctions: seq<Auction>, log: Log<Event>) {
    forall i | 0 <= i < |auctions| :: QuarterOfAuction(c, auctions[i]) <= QuarterOf(c, log.block)
  }

  // Periods depend on four of the tables.
  predicate SameSources(t: Tables, u: Tables) {
    && t.contracts == u.contracts && t.tokens == u.tokens
    && t.parameters == u.parameters && t.boundVolumes == u.boundVolumes
  }

  lemma {:induction false} SameReadings(c: Calendar, t: Tables, u: Tables, a: Auction)
    requires SameSources(t, u)
    ensures LotOf(c, t, a) == LotOf(c, u, a)
    ensures ThresholdsOf(c, t, QuarterOfAuction(c, a)) == ThresholdsOf(c, u, QuarterOfAuction(c, a))
    ensures BandOf(c, t, QuarterOfAuction(c, a)) == BandOf(c, u, QuarterOfAuction(c, a))
  {
    SameLot(c, t, u, a);
    SameThresholds(c, t, u, QuarterOfAuction(c, a));
  }

  lemma {:induction false} SourcesSuffice(c: Calendar, t: Tables, u: Tables, auctions: seq<Auction>)
    requires SameSources(t, u)
    ensures QualifyingPeriods(c, t, auctions) == QualifyingPeriods(c, u, auctions)
  {
    forall i | 0 <= i < |auctions|
      ensures LotOf(c, t, auctions[i]) == LotOf(c, u, auctions[i])
      ensures ThresholdsOf(c, t, QuarterOfAuction(c, auctions[i])) ==
              ThresholdsOf(c, u, QuarterOfAuction(c, auctions[i]))
      ensures BandOf(c, t, QuarterOfAuction(c, auctions[i])) == BandOf(c, u, QuarterOfAuction(c, auctions[i]))
    {
      SameReadings(c, t, u, auctions[i]);
    }
    SamePeriods(c, t, u, auctions);
  }

  // Binding logs and the like change none of them,
  lemma {:induction false} StepSources(w: World, t: Tables, log: Log<Event>)
    requires Step(w, t, log).Success?
    requires !log.event.PricingParamsUpdated? && !log.event.SharesSubmitted? && !log.event.AdmittedListsUpdated?
    ensures SameSources(t, Step(w, t, log).value)
  {
    var t' := Step(w, t, log).value;
    if log.event.OrchestratorAdmitted? || log.event.OtherEvent? {
      assert t' == t.(orchestrators := t'.orchestrators);
    } else {
      assert t' == t.(pairs := t'.pairs);
    }
  }

  // and list updates two.
  lemma StepLists(w: World, t: Tables, log: Log<Event>)
    requires Step(w, t, log).Success? && log.event.AdmittedListsUpdated?
    ensures var t' := Step(w, t, log).value; t' == t.(contracts := t'.contracts, tokens := t'.tokens)
  {
  }

  // What the triggers make of a view that was fresh, against the function.
  ghost predicate LeavesFresh(c: Calendar, t: Tables, t': Tables, log: Log<Event>, auctions: seq<Auction>) {
    Refreshed(c, t, t', log, auctions, QualifyingPeriods(c, t, auctions)) == QualifyingPeriods(c, t', auctions)
  }

  lemma {:induction false} UnmissedLeavesFresh(w: World, t: Tables, log: Log<Event>, auctions: seq<Auction>)
    requires Step(w, t, log).Success? && !Missed(t, Step(w, t, log).value, log)
    ensures LeavesFresh(w.calendar, t, Step(w, t, log).value, log, auctions)
  {
    var t', e := Step(w, t, log).value, log.event;
    if e.AdmittedListsUpdated? {
      StepLists(w, t, log);
    } else if !e.PricingParamsUpdated? && !e.SharesSubmitted? {
      StepSources(w, t, log);
      SourcesSuffice(w.calendar, t, t', auctions);
    }
  }

  // A refresh in the middle of a list update reads what the function returns for.
  lemma ReadLeavesFresh(c: Calendar, t: Tables, t': Tables, log: Log<Event>, auctions: seq<Auction>)
    requires Missed(t, t', log)
    ensures LeavesFresh(c, t, t', log, auctions) <==>
            QualifyingPeriods(c, TablesRead(t, t', log.event.contracts, log.At()), auctions) ==
            QualifyingPeriods(c, t', auctions)
  {
  }

  // The view the triggers leave equals the function, if it did before and no auction lies ahead of a
  // log they miss.
  lemma {:induction false} LogKeepsView(w: World, logs: seq<Log<Event>>, log: Log<Event>, auctions: seq<Auction>)
    requires Increasing(logs + [log])
    requires Run(w, EMPTY, logs).Success? && Run(w, EMPTY, logs + [log]).Success?
    requires Missed(Run(w, EMPTY, logs).value, Run(w, EMPTY, logs + [log]).value, log) ==>
               NoneAhead(w.calendar, auctions, log)
    ensures LeavesFresh(w.calendar, Run(w, EMPTY, logs).value, Run(w, EMPTY, logs + [log]).value, log, auctions)
  {
    var t, t' := Run(w, EMPTY, logs).value, Run(w, EMPTY, logs + [log]).value;
    RunOne(w, EMPTY, logs, log);
    if Missed(t, t', log) {
      LateLogKeepsPeriods(w, logs, log, auctions);
      ReadLeavesFresh(w.calendar, t, t', log, auctions);
      if t'.tokens != t.tokens {
        CutShortKeeps(w, logs, log, auctions);
      }
    } else {
      UnmissedLeavesFresh(w, t, log, auctions);
    }
  }

  // The run that stops between closing tokens and inserting contracts.
  lemma {:induction false} CutShortRun(w: World, logs: seq<Log<Event>>, log: Log<Event>)
    requires Increasing(logs + [log]) && log.event.AdmittedListsUpdated?
    requires Run(w, EMPTY, logs).Success? && Step(w, Run(w, EMPTY, logs).value, log).Success?
    requires Step(w, Run(w, EMPTY, logs).value, log).value.tokens.Keys == Run(w, EMPTY, logs).value.tokens.Keys
    ensures var t := Run(w, EMPTY, logs).value;
            Run(w, EMPTY, logs + [CutShort(t, log)]) ==
            Success(t.(contracts := CloseMissing(t.contracts, log.event.contracts, log.At()),
                       tokens := Step(w, t, log).value.tokens))
    ensures Increasing(logs + [CutShort(Run(w, EMPTY, logs).value, log)])
  {
    var t := Run(w, EMPTY, logs).value;
    var short := CutShort(t, log);
    CutShortStep(w, t, log);
    RunOne(w, EMPTY, logs, short);
    assert forall i | 0 <= i <= |logs| :: (logs + [short])[i].At() == (logs + [log])[i].At();
  }

  lemma {:induction false} CutShortKeeps(w: World, logs: seq<Log<Event>>, log: Log<Event>, auctions: seq<Auction>)
    requires Increasing(logs + [log]) && NoneAhead(w.calendar, auctions, log) && log.event.AdmittedListsUpdated?
    requires Run(w, EMPTY, logs).Success? && Step(w, Run(w, EMPTY, logs).value, log).Success?
    requires Step(w, Run(w, EMPTY, logs).value, log).value.tokens.Keys == Run(w, EMPTY, logs).value.tokens.Keys
    ensures var t := Run(w, EMPTY, logs).value;
            var cut := t.(contracts := CloseMissing(t.contracts, log.event.contracts, log.At()),
                          tokens := Step(w, t, log).value.tokens);
            QualifyingPeriods(w.calendar, cut, auctions) == QualifyingPeriods(w.calendar, t, auctions)
  {
    CutShortRun(w, logs, log);
    LateLogKeepsPeriods(w, logs, CutShort(Run(w, EMPTY, logs).value, log), auctions);
  }

  // ---------- every run of logs and auctions ----------

  // A log is indexed, or the table of auctions is filled further.
  datatype Change = LogIndexed(log: Log<Event>) | AuctionsIndexed(auctions: seq<Auction>)

  datatype Database = Database(tables: Tables, auctions: seq<Auction>, view: seq<Period>)

  function After(w: World, changes: seq<Change>): Result<Database, Rejection> {
    if changes == [] then Success(Database(EMPTY, [], []))
    else
      var n := |changes| - 1;
      match After(w, changes[..n])
      case Failure(e) => Failure(e)
      case Success(d) =>
        match changes[n]
        case AuctionsIndexed(auctions) =>
          Success(Database(d.tables, auctions, QualifyingPeriods(w.calendar, d.tables, auctions)))
        case LogIndexed(log) =>
          match Step(w, d.tables, log)
          case Failure(e) => Failure(e)
          case Success(t') =>
            Success(Database(t', d.auctions, Refreshed(w.calendar, d.tables, t', log, d.auctions, d.view)))
  }

  lemma {:induction false} AuctionsNext(w: World, changes: seq<Change>, auctions: seq<Auction>)
    requires After(w, changes).Success?
    ensures After(w, changes + [AuctionsIndexed(auctions)]) ==
            var t := After(w, changes).value.tables;
            Success(Database(t, auctions, QualifyingPeriods(w.calendar, t, auctions)))
    ensures LogsOf(changes + [AuctionsIndexed(auctions)]) == LogsOf(changes)
  {
    assert (changes + [AuctionsIndexed(auctions)])[..|changes|] == changes;
  }

  lemma {:induction false} LogNext(w: World, changes: seq<Change>, log: Log<Event>)
    requires After(w, changes).Success? && Step(w, After(w, changes).value.tables, log).Success?
    ensures var d := After(w, changes).value;
            var t' := Step(w, d.tables, log).value;
            After(w, changes + [LogIndexed(log)]) ==
            Success(Database(t', d.auctions, Refreshed(w.calendar, d.tables, t', log, d.auctions, d.view)))
    ensures LogsOf(changes + [LogIndexed(log)]) == LogsOf(changes) + [log]
  {
    assert (changes + [LogIndexed(log)])[..|changes|] == changes;
  }

  function LogsOf(changes: seq<Change>): seq<Log<Event>> {
    if changes == [] then []
    else
      var n := |changes| - 1;
      LogsOf(changes[..n]) + if changes[n].LogIndexed? then [changes[n].log] else []
  }

  // The auctions indexed so far.
  function AuctionsOf(changes: seq<Change>): seq<Auction> {
    if changes == [] then []
    else
      var n := |changes| - 1;
      if changes[n].AuctionsIndexed? then changes[n].auctions else AuctionsOf(changes[..n])
  }

  // The triggers miss the log of the i-th change.
  ghost predicate MissedAt(w: World, changes: seq<Change>, i: nat)
    requires i < |changes|
  {
    var d := After(w, changes[..i]);
    && d.Success? && changes[i].LogIndexed?
    && var r := Step(w, d.value.tables, changes[i].log); r.Success? && Missed(d.value.tables, r.value, changes[i].log)
  }

  // No log they miss is indexed behind an auction of a later quarter.
  ghost predicate InStep(w: World, changes: seq<Change>) {
    forall i | 0 <= i < |changes| && MissedAt(w, changes, i) ::
      NoneAhead(w.calendar, AuctionsOf(changes[..i]), changes[i].log)
  }

  lemma {:induction false} AfterRuns(w: World, changes: seq<Change>)
    requires After(w, changes).Success?
    ensures Run(w, EMPTY, LogsOf(changes)) == Success(After(w, changes).value.tables)
    ensures After(w, changes).value.auctions == AuctionsOf(changes)
  {
    if changes != [] {
      var n := |changes| - 1;
      AfterRuns(w, changes[..n]);
      if changes[n].LogIndexed? {
        RunOne(w, EMPTY, LogsOf(changes[..n]), changes[n].log);
      } else {
        assert LogsOf(changes) == LogsOf(changes[..n]);
      }
    }
  }

  lemma {:induction false} NoAuctions(c: Calendar, t: Tables)
    ensures QualifyingPeriods(c, t, []) == []
  {
    assert Quarters(c, []) == [];
  }

  // View freshness: in every database reached, the stored view is what the function would return.
  lemma {:induction false} ViewIsFresh(w: World, changes: seq<Change>)
    requires After(w, changes).Success? && Increasing(LogsOf(changes)) && InStep(w, changes)
    ensures var d := After(w, changes).value; d.view == QualifyingPeriods(w.calendar, d.tables, d.auctions)
  {
    if changes == [] {
      NoAuctions(w.calendar, EMPTY);
    } else {
      var n := |changes| - 1;
      InStepPrefix(w, changes, n);
      LogsPrefix(changes);
      ViewIsFresh(w, changes[..n]);
      if changes[n].LogIndexed? {
        NextLogFresh(w, changes);
      }
    }
  }

  lemma {:induction false} NextLogFresh(w: World, changes: seq<Change>)
    requires changes != [] && changes[|changes| - 1].LogIndexed?
    requires After(w, changes).Success? && Increasing(LogsOf(changes)) && InStep(w, changes)
    requires var d := After(w, changes[..|changes| - 1]);
             d.Success? ==> d.value.view == QualifyingPeriods(w.calendar, d.value.tables, d.value.auctions)
    ensures var d := After(w, changes).value; d.view == QualifyingPeriods(w.calendar, d.tables, d.auctions)
  {
    var n := |changes| - 1;
    var init, log := changes[..n], changes[n].log;
    AfterRuns(w, init);
    AfterRuns(w, changes);
    assert MissedAt(w, changes, n) ==> NoneAhead(w.calendar, AuctionsOf(init), log);
    LogKeepsView(w, LogsOf(init), log, AuctionsOf(init));
  }

  lemma {:induction false} InStepPrefix(w: World, changes: seq<Change>, n: nat)
    requires InStep(w, changes) && n <= |changes|
    ensures InStep(w, changes[..n])
  {
    forall i | 0 <= i < n && MissedAt(w, changes[..n], i)
      ensures NoneAhead(w.calendar, AuctionsOf(changes[..n][..i]), changes[..n][i].log)
    {
      assert changes[..n][..i] == changes[..i];
      assert MissedAt(w, changes, i);
    }
  }

  lemma {:induction false} LogsPrefix(changes: seq<Change>)
    requires changes != [] && Increasing(LogsOf(changes))
    ensures Increasing(LogsOf(changes[..|changes| - 1]))
  {
    var before, all := LogsOf(changes[..|changes| - 1]), LogsOf(changes);
    assert forall i | 0 <= i < |before| :: before[i] == all[i];
  }
}
