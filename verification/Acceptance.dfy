// Which logs are rejected and why, for every kind of event, told by the log alone: so when a batch is
// accepted.
module Acceptance {
  import opened Wrappers
  import opened Positions
  import opened Calendars
  import opened Events
  import opened Parameters
  import Lists = AdmittedLists
  import opened Bindings
  import opened PairTables
  import opened OwnershipSpec
  import opened BindingRefinement
  import opened Ledger
  import opened Ownership
  import opened PeriodFreshness
  import VolumeFromLog

  // ---------- why a log is rejected ----------

  ghost function DeclarationTold(w: World, logs: seq<Log<Event>>, pair: Pair, orch: Address, at: Position)
    : Option<Rejection>
  {
    var c, q, s := w.calendar, QuarterOf(w.calendar, at.epoch), SpecStanding(w.calendar, pair, logs);
    var cutoff := CutoffAt(logs, QuarterStart(c, q));
    if s.tenure.Held? then Some(Declined(AlreadyBound))
    else if q >= 1 && cutoff.None? then Some(Declined(NoRegistrationCutoff))
    else if q >= 1 && cutoff.value > c.epochsPerQuarter then Some(Declined(CutoffTooLong))
    else if MisfiredAt(c, pair, logs, DeclaredStart(c, cutoff, s.lastRelease, at)) then Some(DuplicateKey)
    else if !Admitted(logs, orch) then Some(UnknownOrchestrator)
    else None
  }

  // The list holds twice an address that was not on it before.
  ghost predicate ListsTwice(list: seq<Address>, before: seq<Address>) {
    exists i, j :: 0 <= i < j < |list| && list[i] == list[j] && list[i] !in before
  }

  // The same of a token with metadata.
  ghost predicate ListsTokenTwice(w: World, list: seq<Address>, before: seq<Address>) {
    exists i, j :: 0 <= i < j < |list| && list[i] == list[j] && list[i] in w.decimals && list[i] !in before
  }

  ghost predicate PostedBefore(logs: seq<Log<Event>>, q: nat) {
    exists i :: 0 <= i < |logs| && logs[i].event.SharesSubmitted? && logs[i].event.quarter == q
  }

  // The last lists published in the log.
  ghost function LastContracts(logs: seq<Log<Event>>): seq<Address> {
    if logs == [] then []
    else
      var e := logs[|logs| - 1].event;
      if e.AdmittedListsUpdated? then e.contracts else LastContracts(logs[..|logs| - 1])
  }

  ghost function LastTokens(logs: seq<Log<Event>>): seq<Address> {
    if logs == [] then []
    else
      var e := logs[|logs| - 1].event;
      if e.AdmittedListsUpdated? then e.stablecoins else LastTokens(logs[..|logs| - 1])
  }

  // None: the log is accepted.
  ghost function RejectionTold(w: World, logs: seq<Log<Event>>, log: Log<Event>): Option<Rejection> {
    match log.event
    case OrchestratorAdmitted(_) => None
    case OrchestratorRemoved(_) => None
    case BindingDeclared(pair, orch) => DeclarationTold(w, logs, pair, orch, log.At())
    case BindingReassigned(_, orch, _) => if Admitted(logs, orch) then None else Some(UnknownOrchestrator)
    case BindingCanceled(_, _) => None
    case AdmittedListsUpdated(contracts, tokens) =>
      if ListsTwice(contracts, LastContracts(logs)) || ListsTokenTwice(w, tokens, LastTokens(logs))
      then Some(DuplicateKey) else None
    case PricingParamsUpdated(_) => None
    case SharesSubmitted(q, _) => if PostedBefore(logs, q) then Some(DuplicateKey) else None
    case OtherEvent => None
  }

  // ---------- bindings ----------

  lemma {:induction false} DeclarationIs(w: World, logs: seq<Log<Event>>, pair: Pair, orch: Address, at: Position)
    requires Increasing(logs) && Run(w, EMPTY, logs).Success? && BoundOf(logs).AtMost(at)
    ensures var r := DeclarePair(w, Run(w, EMPTY, logs).value, pair, orch, at);
            DeclarationTold(w, logs, pair, orch, at) == if r.Failure? then Some(r.error) else None
  {
    var c, t := w.calendar, Run(w, EMPTY, logs).value;
    var s, h, cutoff := SpecStanding(c, pair, logs), View(t.pairs, pair), CutoffFor(c, t.parameters, at);
    RunRealises(w, logs, pair);
    RunOrchestrators(w, logs, orch);
    RunParameters(w, logs, RegistrationCutoffEpochs, QuarterStart(c, QuarterOf(c, at.epoch)));
    StartMeetsSpec(c, h, s, BoundOf(logs), cutoff, at);
    if s.tenure.Vacant? {
      var start := DeclaredStart(c, cutoff, s.lastRelease, at);
      RunInverts(w, logs, pair, start);
      DeclareCollides(c, h, s, BoundOf(logs), cutoff, at);
      ViewInsert(t.pairs, pair, start, orch, at, pair);
    }
  }

  lemma {:induction false} ReassignmentIs(w: World, logs: seq<Log<Event>>, pair: Pair, orch: Address, inherit: bool,
                                          at: Position)
    requires Increasing(logs) && Run(w, EMPTY, logs).Success? && BoundOf(logs).AtMost(at)
    ensures var r := ReassignPair(w, Run(w, EMPTY, logs).value, pair, orch, inherit, at);
            && (r.Success? <==> Admitted(logs, orch)) && (r.Failure? ==> r.error == UnknownOrchestrator)
  {
    var c, t := w.calendar, Run(w, EMPTY, logs).value;
    var h := View(t.pairs, pair);
    RunRealises(w, logs, pair);
    RunOrchestrators(w, logs, orch);
    ReassignRealises(c, h, SpecStanding(c, pair, logs), BoundOf(logs), orch, inherit, at);
    ViewReassign(t.pairs, pair, orch, inherit, QuarterStart(c, QuarterOf(c, at.epoch)), at, pair);
  }

  // ---------- lists ----------

  lemma {:induction false} LastListIs(logs: seq<Log<Event>>)
    ensures Lists.LastList(ContractUpdates(logs)) == LastContracts(logs)
    ensures Lists.LastList(TokenUpdates(logs)) == LastTokens(logs)
  {
    if logs != [] {
      var n := |logs| - 1;
      LastListIs(logs[..n]);
      if !logs[n].event.AdmittedListsUpdated? {
        assert ContractUpdates(logs) == ContractUpdates(logs[..n]) && TokenUpdates(logs) == TokenUpdates(logs[..n]);
      }
    }
  }

  lemma {:induction false} UpdateTold<M>(t: Lists.ListTable<M>, us: seq<Lists.Update>, data: Lists.Source<M>,
                                         list: seq<Address>, at: Position)
    requires Lists.Ordered(us) && Lists.RunUpdates(us, data) == Some(t)
    requires Lists.BoundOf(us).AtMost(at)
    ensures Lists.UpdateList(t, list, data, at).None? <==>
            exists i, j :: 0 <= i < j < |list| && list[i] == list[j] && data.Has(list[i])
                           && list[i] !in Lists.LastList(us)
  {
    Lists.RunSound(us, data);
    Lists.UpdateRejected(t, Lists.LastList(us), data, Lists.BoundOf(us), list, at);
  }

  lemma {:induction false} UpdatesBounded(logs: seq<Log<Event>>, at: Position)
    requires Increasing(logs) && BoundOf(logs).AtMost(at)
    ensures Lists.BoundOf(ContractUpdates(logs)).AtMost(at) && Lists.BoundOf(TokenUpdates(logs)).AtMost(at)
  {
    UpdatesOrdered(logs);
  }

  lemma {:induction false} ListsAre(w: World, logs: seq<Log<Event>>, contracts: seq<Address>, tokens: seq<Address>,
                                    at: Position)
    requires Increasing(logs) && Run(w, EMPTY, logs).Success? && BoundOf(logs).AtMost(at)
    ensures var r := UpdateLists(w, Run(w, EMPTY, logs).value, contracts, tokens, at);
            && (r.Failure? <==>
                ListsTwice(contracts, LastContracts(logs)) || ListsTokenTwice(w, tokens, LastTokens(logs)))
            && (r.Failure? ==> r.error == DuplicateKey)
  {
    RunContracts(w, logs);
    RunTokens(w, logs);
    UpdatesOrdered(logs);
    UpdatesBounded(logs, at);
    LastListIs(logs);
    var t := Run(w, EMPTY, logs).value;
    UpdateTold(t.contracts, ContractUpdates(logs), Lists.Everywhere(()), contracts, at);
    UpdateTold(t.tokens, TokenUpdates(logs), Lists.Known(w.decimals), tokens, at);
  }

  // ---------- postings and parameters ----------

  lemma {:induction false} PostedIs(logs: seq<Log<Event>>, q: nat)
    ensures VolumeFromLog.Posted(logs, q).Some? <==> PostedBefore(logs, q)
  {
    if logs != [] {
      var n := |logs| - 1;
      PostedIs(logs[..n], q);
      if PostedBefore(logs[..n], q) {
        var i :| 0 <= i < n && logs[..n][i].event.SharesSubmitted? && logs[..n][i].event.quarter == q;
        assert logs[i].event.SharesSubmitted?;
      }
      if PostedBefore(logs, q) {
        var i :| 0 <= i < |logs| && logs[i].event.SharesSubmitted? && logs[i].event.quarter == q;
        assert i < n ==> logs[..n][i] == logs[i];
      }
    }
  }

  lemma {:induction false} ParametersAccepted(w: World, logs: seq<Log<Event>>, params: PricingParams, at: Position)
    requires Increasing(logs) && Run(w, EMPTY, logs).Success? && BoundOf(logs).AtMost(at)
    ensures InsertParams(Run(w, EMPTY, logs).value.parameters, params, at).Some?
  {
    RunParameters(w, logs, MinLotFloor, 0);
    InsertParamsStep(Run(w, EMPTY, logs).value.parameters, params, BoundOf(logs), at);
  }

  // ---------- every event ----------

  // After any accepted log, exactly when and why the next entry is rejected.
  lemma {:induction false} NextLog(w: World, logs: seq<Log<Event>>, log: Log<Event>)
    requires Increasing(logs) && Run(w, EMPTY, logs).Success? && BoundOf(logs).AtMost(log.At())
    ensures var r := Step(w, Run(w, EMPTY, logs).value, log);
            RejectionTold(w, logs, log) == if r.Failure? then Some(r.error) else None
  {
    match log.event
    case BindingDeclared(pair, orch) => DeclarationIs(w, logs, pair, orch, log.At());
    case BindingReassigned(pair, orch, inherit) => ReassignmentIs(w, logs, pair, orch, inherit, log.At());
    case AdmittedListsUpdated(contracts, tokens) => ListsAre(w, logs, contracts, tokens, log.At());
    case PricingParamsUpdated(params) => ParametersAccepted(w, logs, params, log.At());
    case SharesSubmitted(q, _) =>
      VolumeFromLog.RunPosts(w, logs, q);
      PostedIs(logs, q);
    case _ =>
  }

  ghost predicate NoneRejected(w: World, logs: seq<Log<Event>>) {
    forall i | 0 <= i < |logs| :: RejectionTold(w, logs[..i], logs[i]).None?
  }

  // The log is rejected at its i-th entry, for this reason.
  ghost predicate RejectedAt(w: World, logs: seq<Log<Event>>, i: nat, e: Rejection)
    requires i < |logs|
  {
    NoneRejected(w, logs[..i]) && RejectionTold(w, logs[..i], logs[i]) == Some(e)
  }

  // A log is accepted exactly when no entry is rejected, and otherwise fails with its first rejection.
  lemma {:induction false} RunTold(w: World, logs: seq<Log<Event>>)
    requires Increasing(logs)
    ensures Run(w, EMPTY, logs).Success? <==> NoneRejected(w, logs)
    ensures Run(w, EMPTY, logs).Failure? ==>
              exists i :: 0 <= i < |logs| && RejectedAt(w, logs, i, Run(w, EMPTY, logs).error)
  {
    if logs != [] {
      var n := |logs| - 1;
      var init := logs[..n];
      RunTold(w, init);
      assert n > 0 ==> logs[n - 1].At().Before(logs[n].At());
      if Run(w, EMPTY, init).Success? {
        NextLog(w, init, logs[n]);
        RejectionsNext(w, logs);
        if Run(w, EMPTY, logs).Failure? {
          assert RejectedAt(w, logs, n, Run(w, EMPTY, logs).error);
        }
      } else {
        RejectionsNext(w, logs);
        var i :| 0 <= i < n && RejectedAt(w, init, i, Run(w, EMPTY, init).error);
        assert init[..i] == logs[..i];
        assert RejectedAt(w, logs, i, Run(w, EMPTY, logs).error);
      }
    }
  }

  lemma {:induction false} RejectionsNext(w: World, logs: seq<Log<Event>>)
    requires logs != []
    ensures var n := |logs| - 1;
            NoneRejected(w, logs) <==> NoneRejected(w, logs[..n]) && RejectionTold(w, logs[..n], logs[n]).None?
  {
    var n := |logs| - 1;
    forall i | 0 <= i < n
      ensures RejectionTold(w, logs[..n][..i], logs[..n][i]) == RejectionTold(w, logs[..i], logs[i])
    {
      assert logs[..n][..i] == logs[..i];
    }
    if NoneRejected(w, logs[..n]) {
      forall i | 0 <= i < n
        ensures RejectionTold(w, logs[..i], logs[i]).None?
      {
        assert RejectionTold(w, logs[..n][..i], logs[..n][i]).None?;
      }
    }
  }
}
