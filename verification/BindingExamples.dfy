// A run whose last declaration is rejected because an inverted row holds its key.
module BindingExamples {
  import opened Wrappers
  import opened Positions
  import opened Calendars
  import opened Events
  import opened Parameters
  import opened Bindings
  import opened PairTables
  import opened Ledger

  // Quarter 1 is epochs 10 to 19; its last five epochs are the registration cutoff.
  const EXAMPLE_WORLD := World(Calendar(10, 10), map[])
  const SERVICE := Events.Pair("payer", "operator")
  const PARAMS := PricingParams(0, 0, 1, 0, 5)

  const ADMITTED := Log(0, 0, 0, OrchestratorAdmitted("o"))
  const CONFIGURED := Log(1, 0, 0, PricingParamsUpdated(PARAMS))
  const DECLARED := Log(16, 0, 0, BindingDeclared(SERVICE, "o"))
  const REASSIGNED := Log(17, 0, 0, BindingReassigned(SERVICE, "o", false))
  const CANCELED := Log(18, 0, 0, BindingCanceled(SERVICE, "o"))
  const REDECLARED := Log(21, 0, 0, BindingDeclared(SERVICE, "o"))

  const WAITING := PairKey(SERVICE, Position(20, 0))
  const REPLACING := PairKey(SERVICE, Position(17, 1))

  // Declared in the cutoff, so from the start of quarter 2.
  const PAIRS_DECLARED: PairTable := map[WAITING := Binding("o", None, 16, None)]
  // Closed before it began.
  const INVERTED := Binding("o", Some(Position(17, 0)), 16, Some(17))
  const PAIRS_REASSIGNED: PairTable := map[WAITING := INVERTED, REPLACING := Binding("o", None, 17, None)]
  const PAIRS_CANCELED: PairTable :=
    map[WAITING := INVERTED, REPLACING := Binding("o", Some(Position(18, 0)), 17, Some(18))]

  const PARAMETERS: ParameterTable := InsertParams(map[], PARAMS, Position(1, 0)).value

  function With(pairs: PairTable): Tables {
    Tables({"o"}, pairs, PARAMETERS, map[], map[], map[])
  }

  lemma {:induction false} CutoffIsFive(epoch: nat)
    requires epoch > 1
    ensures EpochQuery(PARAMETERS, RegistrationCutoffEpochs, epoch) == Some(5)
  {
    InsertedQuery(map[], PARAMS, Position(0, 0), Position(1, 0), RegistrationCutoffEpochs, epoch);
  }

  lemma {:induction false} CutoffFive(at: Position)
    requires at.epoch in {16, 21}
    ensures CutoffFor(EXAMPLE_WORLD.calendar, PARAMETERS, at) == Some(5)
  {
    CutoffIsFive(10);
    CutoffIsFive(20);
    assert QuarterOf(EXAMPLE_WORLD.calendar, 16) == 1 && QuarterOf(EXAMPLE_WORLD.calendar, 21) == 2;
    assert QuarterStart(EXAMPLE_WORLD.calendar, 1) == 10 && QuarterStart(EXAMPLE_WORLD.calendar, 2) == 20;
  }

  lemma Declaration(w: World, t: Tables, log: Log<Event>, start: Position)
    requires log.event.BindingDeclared?
    requires BindingStart(w.calendar, View(t.pairs, log.event.pair), CutoffFor(w.calendar, t.parameters, log.At()),
                          log.At())
             == Success(start)
    ensures Step(w, t, log) ==
            if PairKey(log.event.pair, start) in t.pairs then Failure(DuplicateKey)
            else if log.event.orchestrator !in t.orchestrators then Failure(UnknownOrchestrator)
            else Success(t.(pairs := t.pairs[PairKey(log.event.pair, start) :=
                                             Binding(log.event.orchestrator, None, log.block, None)]))
  {
  }

  lemma {:induction false} FirstDeclaration()
    ensures Step(EXAMPLE_WORLD, With(map[]), DECLARED) == Success(With(PAIRS_DECLARED))
  {
    CutoffFive(Position(16, 0));
    FirstStart();
    ViewOfNothing(SERVICE);
    Declaration(EXAMPLE_WORLD, With(map[]), DECLARED, WAITING.from);
  }

  lemma ViewOfNothing(pair: Pair)
    ensures View(map[], pair) == map[]
  {
  }

  lemma {:induction false} FirstStart()
    ensures BindingStart(EXAMPLE_WORLD.calendar, map[], Some(5), Position(16, 0)) == Success(WAITING.from)
  {
    assert Releases(map[]) == {};
    assert QuarterOf(EXAMPLE_WORLD.calendar, 16) == 1;
  }

  lemma {:induction false} Reassignment()
    ensures Step(EXAMPLE_WORLD, With(PAIRS_DECLARED), REASSIGNED) == Success(With(PAIRS_REASSIGNED))
  {
    var closed := CloseRows(PAIRS_DECLARED, SERVICE, false, 10, Position(17, 0));
    assert closed == map[WAITING := INVERTED];
  }

  lemma {:induction false} Cancellation()
    ensures Step(EXAMPLE_WORLD, With(PAIRS_REASSIGNED), CANCELED) == Success(With(PAIRS_CANCELED))
  {
    var t := PAIRS_REASSIGNED;
    assert t[WAITING] == INVERTED && t[REPLACING] == Binding("o", None, 17, None);
    var t' := CancelRows(t, SERVICE, "o", Position(18, 0));
    assert t'.Keys == {WAITING, REPLACING};
    assert t' == PAIRS_CANCELED;
  }

  lemma {:induction false} SecondStart(h: History)
    requires h == map[Position(20, 0) := INVERTED, Position(17, 1) := Binding("o", Some(Position(18, 0)), 17, Some(18))]
    ensures BindingStart(EXAMPLE_WORLD.calendar, h, Some(5), Position(21, 0)) == Success(WAITING.from)
  {
    assert Releases(h) == {Position(17, 0), Position(18, 0)} by {
      assert h[Position(20, 0)].to == Some(Position(17, 0)) && h[Position(17, 1)].to == Some(Position(18, 0));
    }
    LatestIs(Releases(h), Position(18, 0));
    assert QuarterOf(EXAMPLE_WORLD.calendar, 18) == 1 && QuarterOf(EXAMPLE_WORLD.calendar, 21) == 2;
  }

  lemma {:induction false} SecondDeclaration()
    ensures Step(EXAMPLE_WORLD, With(PAIRS_CANCELED), REDECLARED) == Failure(DuplicateKey)
  {
    CutoffFive(Position(21, 0));
    var h := View(PAIRS_CANCELED, SERVICE);
    assert h == map[Position(20, 0) := INVERTED, Position(17, 1) := Binding("o", Some(Position(18, 0)), 17, Some(18))];
    SecondStart(h);
    Declaration(EXAMPLE_WORLD, With(PAIRS_CANCELED), REDECLARED, WAITING.from);
  }

  const ACCEPTED := [ADMITTED] + [CONFIGURED] + [DECLARED] + [REASSIGNED] + [CANCELED]

  lemma {:induction false} Chain(logs: seq<Log<Event>>, t: Tables, log: Log<Event>, r: Result<Tables, Rejection>)
    requires Run(EXAMPLE_WORLD, EMPTY, logs) == Success(t) && Step(EXAMPLE_WORLD, t, log) == r
    ensures Run(EXAMPLE_WORLD, EMPTY, logs + [log]) == r
  {
    RunOne(EXAMPLE_WORLD, EMPTY, logs, log);
  }

  lemma {:induction false} RunConfigured()
    ensures Run(EXAMPLE_WORLD, EMPTY, [ADMITTED] + [CONFIGURED]) == Success(With(map[]))
  {
    var admitted := EMPTY.(orchestrators := {"o"});
    assert [] + [ADMITTED] == [ADMITTED];
    assert {} + {"o"} == {"o"};
    Chain([], EMPTY, ADMITTED, Success(admitted));
    InsertParamsStep(map[], PARAMS, Position(0, 0), Position(1, 0));
    Chain([ADMITTED], admitted, CONFIGURED, Success(With(map[])));
  }

  lemma {:induction false} RunAccepts()
    ensures Run(EXAMPLE_WORLD, EMPTY, ACCEPTED) == Success(With(PAIRS_CANCELED))
  {
    var two := [ADMITTED] + [CONFIGURED];
    RunConfigured();
    FirstDeclaration();
    Chain(two, With(map[]), DECLARED, Success(With(PAIRS_DECLARED)));
    Reassignment();
    Chain(two + [DECLARED], With(PAIRS_DECLARED), REASSIGNED, Success(With(PAIRS_REASSIGNED)));
    Cancellation();
    Chain(two + [DECLARED] + [REASSIGNED], With(PAIRS_REASSIGNED), CANCELED, Success(With(PAIRS_CANCELED)));
  }

  lemma LogsIncrease()
    ensures Increasing(ACCEPTED + [REDECLARED])
  {
  }

  // Five logs are accepted; the sixth, a declaration for an unbound pair, is not.
  lemma {:induction false} RunGetsStuck()
    ensures Increasing(ACCEPTED + [REDECLARED])
    ensures Run(EXAMPLE_WORLD, EMPTY, ACCEPTED).Success?
    ensures Run(EXAMPLE_WORLD, EMPTY, ACCEPTED + [REDECLARED]) == Failure(DuplicateKey)
  {
    LogsIncrease();
    RunAccepts();
    LastRejected();
  }

  lemma {:induction false} LastRejected()
    ensures Run(EXAMPLE_WORLD, EMPTY, ACCEPTED + [REDECLARED]) == Failure(DuplicateKey)
  {
    RunAccepts();
    SecondDeclaration();
    Chain(ACCEPTED, With(PAIRS_CANCELED), REDECLARED, Failure(DuplicateKey));
  }
}
