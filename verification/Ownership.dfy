// Over every run of the log: the binding table owns each position as the log specification says,
// never twice; when its keys collide; and when it leaves no gap.
module Ownership {
  import opened Wrappers
  import opened Positions
  import opened Calendars
  import opened Events
  import opened Parameters
  import opened Bindings
  import opened PairTables
  import opened OwnershipSpec
  import opened BindingRefinement
  import opened Ledger

  // A position beyond every log processed.
  function BoundOf(logs: seq<Log<Event>>): Position {
    if logs == [] then Position(0, 0) else logs[|logs| - 1].At().Next()
  }

  // ---------- parameters ----------

  lemma StepParameters(w: World, t: Tables, log: Log<Event>)
    requires Step(w, t, log).Success?
    ensures Step(w, t, log).value.parameters ==
            if log.event.PricingParamsUpdated? then InsertParams(t.parameters, log.event.params, log.At()).value
            else t.parameters
  {
  }

  // At the end of a run every parameter query reads the last update in the log.
  lemma {:induction false} RunParameters(w: World, logs: seq<Log<Event>>, kind: ParameterType, epoch: nat)
    requires Increasing(logs) && Run(w, EMPTY, logs).Success?
    ensures var t := Run(w, EMPTY, logs).value.parameters;
            Bounded(t, BoundOf(logs)) && EpochQuery(t, kind, epoch) == ParamAt(logs, kind, epoch)
  {
    if logs == [] {
      assert UpdatesBefore(EMPTY.parameters, kind, epoch) == {};
    } else {
      var init, last := logs[..|logs| - 1], logs[|logs| - 1];
      var t := Run(w, EMPTY, init).value;
      RunParameters(w, init, kind, epoch);
      StepParameters(w, t, last);
      if last.event.PricingParamsUpdated? {
        InsertParamsStep(t.parameters, last.event.params, BoundOf(init), last.At());
        InsertedQuery(t.parameters, last.event.params, BoundOf(init), last.At(), kind, epoch);
      }
    }
  }

  // ---------- one log acts on each pair as on its rows ----------

  lemma {:induction false} DeclareView(w: World, t: Tables, log: Log<Event>, pair: Pair)
    requires log.event.BindingDeclared? && Step(w, t, log).Success?
    ensures StepHistory(w.calendar, View(t.pairs, pair), pair, CutoffFor(w.calendar, t.parameters, log.At()),
                        log.event, log.At()) == Some(View(Step(w, t, log).value.pairs, pair))
  {
    var at, p, o := log.At(), log.event.pair, log.event.orchestrator;
    var start := BindingStart(w.calendar, View(t.pairs, p), CutoffFor(w.calendar, t.parameters, at), at).value;
    ViewInsert(t.pairs, p, start, o, at, pair);
  }

  lemma ReassignStep(w: World, t: Tables, log: Log<Event>)
    requires log.event.BindingReassigned? && Step(w, t, log).Success?
    ensures var at, e := log.At(), log.event;
            ReassignTable(t.pairs, e.pair, e.orchestrator, e.inherit,
                          QuarterStart(w.calendar, QuarterOf(w.calendar, at.epoch)), at) ==
            Some(Step(w, t, log).value.pairs)
  {
  }

  lemma {:induction false} ReassignView(w: World, t: Tables, log: Log<Event>, pair: Pair)
    requires log.event.BindingReassigned? && Step(w, t, log).Success?
    ensures StepHistory(w.calendar, View(t.pairs, pair), pair, CutoffFor(w.calendar, t.parameters, log.At()),
                        log.event, log.At()) == Some(View(Step(w, t, log).value.pairs, pair))
  {
    ReassignStep(w, t, log);
    ReassignHistory(w.calendar, t.pairs, Step(w, t, log).value.pairs, CutoffFor(w.calendar, t.parameters, log.At()),
                    log, pair);
  }

  lemma {:induction false} ReassignHistory(c: Calendar, t: PairTable, t': PairTable, cutoff: Option<nat>,
                                           log: Log<Event>, pair: Pair)
    requires log.event.BindingReassigned?
    requires var at, e := log.At(), log.event;
             ReassignTable(t, e.pair, e.orchestrator, e.inherit, QuarterStart(c, QuarterOf(c, at.epoch)), at) ==
             Some(t')
    ensures StepHistory(c, View(t, pair), pair, cutoff, log.event, log.At()) == Some(View(t', pair))
  {
    var at, e := log.At(), log.event;
    ViewReassign(t, e.pair, e.orchestrator, e.inherit, QuarterStart(c, QuarterOf(c, at.epoch)), at, pair);
  }

  lemma {:induction false} StepView(w: World, t: Tables, log: Log<Event>, pair: Pair)
    requires Step(w, t, log).Success?
    ensures StepHistory(w.calendar, View(t.pairs, pair), pair, CutoffFor(w.calendar, t.parameters, log.At()),
                        log.event, log.At()) == Some(View(Step(w, t, log).value.pairs, pair))
  {
    match log.event
    case BindingDeclared(p, o) => DeclareView(w, t, log, pair);
    case BindingReassigned(p, o, inherit) => ReassignView(w, t, log, pair);
    case BindingCanceled(p, o) => ViewCancel(t.pairs, p, o, log.At(), pair);
    case OrchestratorRemoved(o) => ViewRemove(t.pairs, o, log.At(), pair);
    case _ =>
  }

  // ---------- refinement over runs ----------

  // The rows of every pair realise its standing in the log.
  lemma {:induction false} RunRealises(w: World, logs: seq<Log<Event>>, pair: Pair)
    requires Increasing(logs) && Run(w, EMPTY, logs).Success?
    ensures Realises(w.calendar, View(Run(w, EMPTY, logs).value.pairs, pair), SpecStanding(w.calendar, pair, logs),
                     BoundOf(logs))
  {
    if logs == [] {
      assert Releases(View(EMPTY.pairs, pair)) == {};
      assert Orderly(View(EMPTY.pairs, pair));
    } else {
      var init, last := logs[..|logs| - 1], logs[|logs| - 1];
      var t := Run(w, EMPTY, init).value;
      RunRealises(w, init, pair);
      StepView(w, t, last, pair);
      RunParameters(w, init, RegistrationCutoffEpochs, QuarterStart(w.calendar, QuarterOf(w.calendar, last.block)));
      StepRealises(w.calendar, View(t.pairs, pair), SpecStanding(w.calendar, pair, init), BoundOf(init), pair,
                   CutoffFor(w.calendar, t.parameters, last.At()), last.event, last.At());
    }
  }

  // Refinement: reading the table with the payment predicate gives the owner the log specifies.
  lemma {:induction false} RunOwner(w: World, logs: seq<Log<Event>>, pair: Pair, p: Position)
    requires Increasing(logs) && Run(w, EMPTY, logs).Success?
    ensures Owner(View(Run(w, EMPTY, logs).value.pairs, pair), p) == SpecOwner(w.calendar, pair, logs, p)
  {
    if logs != [] {
      var init, last := logs[..|logs| - 1], logs[|logs| - 1];
      var t := Run(w, EMPTY, init).value;
      RunRealises(w, init, pair);
      RunOwner(w, init, pair, p);
      StepView(w, t, last, pair);
      RunParameters(w, init, RegistrationCutoffEpochs, QuarterStart(w.calendar, QuarterOf(w.calendar, last.block)));
      StepPaints(w.calendar, View(t.pairs, pair), SpecStanding(w.calendar, pair, init), BoundOf(init), pair,
                 CutoffFor(w.calendar, t.parameters, last.At()), last.event, last.At(), p);
    }
  }

  // ---------- disjointness ----------

  ghost predicate TableDisjoint(t: PairTable) {
    forall k, l, p | k in t && l in t && k.pair == l.pair && t[k].Covers(k.from, p) && t[l].Covers(l.from, p) :: k == l
  }

  // No position is owned twice, and no pair has two open bindings.
  lemma {:induction false} RunDisjoint(w: World, logs: seq<Log<Event>>)
    requires Increasing(logs) && Run(w, EMPTY, logs).Success?
    ensures TableDisjoint(Run(w, EMPTY, logs).value.pairs)
    ensures var t := Run(w, EMPTY, logs).value.pairs;
            forall k, l | k in t && l in t && k.pair == l.pair && t[k].Open() && t[l].Open() :: k == l
  {
    var t := Run(w, EMPTY, logs).value.pairs;
    forall k, l, p | k in t && l in t && k.pair == l.pair && t[k].Covers(k.from, p) && t[l].Covers(l.from, p)
      ensures k == l
    {
      PairDisjoint(w, logs, k.pair);
      var h := View(t, k.pair);
      assert k.from in h && l.from in h && h[k.from].Covers(k.from, p) && h[l.from].Covers(l.from, p);
    }
    forall k, l | k in t && l in t && k.pair == l.pair && t[k].Open() && t[l].Open()
      ensures k == l
    {
      var p := if k.from.Before(l.from) then l.from else k.from;
      assert t[k].Covers(k.from, p) && t[l].Covers(l.from, p);
    }
  }

  lemma {:induction false} PairDisjoint(w: World, logs: seq<Log<Event>>, pair: Pair)
    requires Increasing(logs) && Run(w, EMPTY, logs).Success?
    ensures Disjoint(View(Run(w, EMPTY, logs).value.pairs, pair))
  {
    RunRealises(w, logs, pair);
    RealisesDisjoint(w.calendar, View(Run(w, EMPTY, logs).value.pairs, pair), SpecStanding(w.calendar, pair, logs),
                     BoundOf(logs));
  }

  // ---------- rejection, collisions and inverted rows ----------

  // The log at index i reassigns, without inheritance, a binding of the pair that is yet to begin at f.
  ghost predicate Misfires(c: Calendar, pair: Pair, logs: seq<Log<Event>>, i: nat, f: Position)
    requires i < |logs|
  {
    HitsUnstarted(pair, SpecStanding(c, pair, logs[..i]), logs[i].event, logs[i].At(), f)
  }

  ghost predicate MisfiredAt(c: Calendar, pair: Pair, logs: seq<Log<Event>>, f: Position) {
    exists i :: 0 <= i < |logs| && Misfires(c, pair, logs, i, f)
  }

  lemma {:induction false} MisfiredNext(c: Calendar, pair: Pair, logs: seq<Log<Event>>, f: Position)
    requires logs != []
    ensures var n := |logs| - 1;
            MisfiredAt(c, pair, logs, f) <==> MisfiredAt(c, pair, logs[..n], f) || Misfires(c, pair, logs, n, f)
  {
    var n := |logs| - 1;
    forall i | 0 <= i < n
      ensures Misfires(c, pair, logs[..n], i, f) <==> Misfires(c, pair, logs, i, f)
    {
      assert logs[..n][..i] == logs[..i];
    }
    if MisfiredAt(c, pair, logs[..n], f) {
      var i :| 0 <= i < n && Misfires(c, pair, logs[..n], i, f);
      assert Misfires(c, pair, logs, i, f);
    }
  }

  // The table holds an inverted row of a pair at f exactly when some log misfired there.
  lemma {:induction false} RunInverts(w: World, logs: seq<Log<Event>>, pair: Pair, f: Position)
    requires Increasing(logs) && Run(w, EMPTY, logs).Success?
    ensures InvertedAt(View(Run(w, EMPTY, logs).value.pairs, pair), f) <==> MisfiredAt(w.calendar, pair, logs, f)
  {
    if logs != [] {
      var n := |logs| - 1;
      var init, last := logs[..n], logs[n];
      var t := Run(w, EMPTY, init).value;
      RunInverts(w, init, pair, f);
      RunRealises(w, init, pair);
      StepView(w, t, last, pair);
      StepInverts(w.calendar, View(t.pairs, pair), SpecStanding(w.calendar, pair, init), BoundOf(init), pair,
                  CutoffFor(w.calendar, t.parameters, last.At()), last.event, last.At(), f);
      MisfiredNext(w.calendar, pair, logs, f);
    }
  }

  // An orchestrator was admitted in the log. Removal does not take it out of the table.
  ghost predicate Admitted(logs: seq<Log<Event>>, orch: Address) {
    exists i :: 0 <= i < |logs| && logs[i].event == OrchestratorAdmitted(orch)
  }

  lemma StepOrchestrators(w: World, t: Tables, log: Log<Event>)
    requires Step(w, t, log).Success?
    ensures Step(w, t, log).value.orchestrators ==
            t.orchestrators + if log.event.OrchestratorAdmitted? then {log.event.admitted} else {}
  {
  }

  // The orchestrators a binding can refer to are those admitted in the log.
  lemma {:induction false} RunOrchestrators(w: World, logs: seq<Log<Event>>, orch: Address)
    requires Run(w, EMPTY, logs).Success?
    ensures orch in Run(w, EMPTY, logs).value.orchestrators <==> Admitted(logs, orch)
  {
    if logs != [] {
      var n := |logs| - 1;
      var init := logs[..n];
      RunOrchestrators(w, init, orch);
      StepOrchestrators(w, Run(w, EMPTY, init).value, logs[n]);
      if Admitted(init, orch) {
        var i :| 0 <= i < n && init[i].event == OrchestratorAdmitted(orch);
        assert logs[i].event == OrchestratorAdmitted(orch);
      }
      if i :| 0 <= i < |logs| && logs[i].event == OrchestratorAdmitted(orch) {
        assert i < n ==> init[i].event == OrchestratorAdmitted(orch);
      }
    }
  }

  // A declaration finds its pair unbound and a usable registration cutoff.
  predicate Declarable(c: Calendar, s: Standing, cutoff: Option<nat>, at: Position) {
    s.tenure.Vacant? && (QuarterOf(c, at.epoch) >= 1 ==> cutoff.Some? && cutoff.value <= c.epochsPerQuarter)
  }

  // Exactly when the next log about a pair is rejected, and exactly when its key is taken, told by the
  // log alone: a declaration whose binding would begin where an earlier log misfired.
  lemma {:induction false} NextPairLog(w: World, logs: seq<Log<Event>>, log: Log<Event>)
    requires Increasing(logs) && Run(w, EMPTY, logs).Success? && BoundOf(logs).AtMost(log.At())
    requires log.event.BindingDeclared? || log.event.BindingReassigned?
    ensures var c, pair, at := w.calendar, log.event.pair, log.At();
            var t := Run(w, EMPTY, logs).value;
            var s := SpecStanding(c, pair, logs);
            var cutoff := CutoffAt(logs, QuarterStart(c, QuarterOf(c, log.block)));
            var misfired := MisfiredAt(c, pair, logs, DeclaredStart(c, cutoff, s.lastRelease, at));
            && (Step(w, t, log).Failure? <==>
                  || !Admitted(logs, log.event.orchestrator)
                  || (log.event.BindingDeclared? && (!Declarable(c, s, cutoff, at) || misfired)))
            && (Step(w, t, log) == Failure(DuplicateKey) <==>
                  log.event.BindingDeclared? && Declarable(c, s, cutoff, at) && misfired)
  {
    var c, pair, at, o := w.calendar, log.event.pair, log.At(), log.event.orchestrator;
    var t := Run(w, EMPTY, logs).value;
    var s, h := SpecStanding(c, pair, logs), View(t.pairs, pair);
    var cutoff := CutoffFor(c, t.parameters, at);
    RunRealises(w, logs, pair);
    RunOrchestrators(w, logs, o);
    RunParameters(w, logs, RegistrationCutoffEpochs, QuarterStart(c, QuarterOf(c, log.block)));
    if log.event.BindingDeclared? {
      var start := DeclaredStart(c, cutoff, s.lastRelease, at);
      StartMeetsSpec(c, h, s, BoundOf(logs), cutoff, at);
      RunInverts(w, logs, pair, start);
      if s.tenure.Vacant? {
        DeclareCollides(c, h, s, BoundOf(logs), cutoff, at);
        ViewInsert(t.pairs, pair, start, o, at, pair);
      }
    } else {
      ReassignRealises(c, h, s, BoundOf(logs), o, log.event.inherit, at);
      ViewReassign(t.pairs, pair, o, log.event.inherit, QuarterStart(c, QuarterOf(c, at.epoch)), at, pair);
    }
  }

  // Key freshness: while no log misfires on a pair, no insertion for it meets a taken key and none of
  // its rows is inverted.
  lemma {:induction false} KeysStayFresh(w: World, logs: seq<Log<Event>>, log: Log<Event>)
    requires Increasing(logs) && Run(w, EMPTY, logs).Success? && BoundOf(logs).AtMost(log.At())
    requires log.event.BindingDeclared? || log.event.BindingReassigned?
    requires forall f :: !MisfiredAt(w.calendar, log.event.pair, logs, f)
    ensures Step(w, Run(w, EMPTY, logs).value, log) != Failure(DuplicateKey)
    ensures forall f :: !InvertedAt(View(Run(w, EMPTY, logs).value.pairs, log.event.pair), f)
  {
    NextPairLog(w, logs, log);
    forall f
      ensures !InvertedAt(View(Run(w, EMPTY, logs).value.pairs, log.event.pair), f)
    {
      RunInverts(w, logs, log.event.pair, f);
    }
  }
}
