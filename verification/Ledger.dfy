// The tables kept by the Service Rewards Actor indexer and the effect of each log on them.
module Ledger {
  import opened Wrappers
  import opened Positions
  import opened Calendars
  import opened Events
  import opened Bindings
  import opened PairTables
  import opened Parameters
  import opened AdmittedLists

  // POWER(10, 18 - decimals) is an integer.
  type Decimals = d: nat | d <= 18

  type ContractTable = ListTable<()>

  type TokenTable = ListTable<Decimals>

  datatype Tables = Tables(
    orchestrators: set<Address>,
    pairs: PairTable,
    parameters: ParameterTable,
    contracts: ContractTable,
    tokens: TokenTable,
    boundVolumes: map<nat, nat>)

  const EMPTY := Tables({}, map[], map[], map[], map[], map[])

  datatype Rejection = Declined(reason: DeclareError) | DuplicateKey | UnknownOrchestrator

  // What is known from outside: the quarters, and the decimals of every valid ERC-20 token.
  datatype World = World(calendar: Calendar, decimals: map<Address, Decimals>)

  function CutoffFor(c: Calendar, t: ParameterTable, at: Position): Option<nat> {
    EpochQuery(t, RegistrationCutoffEpochs, QuarterStart(c, QuarterOf(c, at.epoch)))
  }

  // The foreign key from a pair to its orchestrator, checked after the row is in place.
  function Referring(r: Option<PairTable>, orchestrators: set<Address>, orch: Address): Result<PairTable, Rejection> {
    match r
    case None => Failure(DuplicateKey)
    case Some(pairs) => if orch in orchestrators then Success(pairs) else Failure(UnknownOrchestrator)
  }

  function DeclarePair(w: World, t: Tables, pair: Pair, orch: Address, at: Position): Result<PairTable, Rejection> {
    match BindingStart(w.calendar, View(t.pairs, pair), CutoffFor(w.calendar, t.parameters, at), at)
    case Failure(reason) => Failure(Declined(reason))
    case Success(start) => Referring(InsertRow(t.pairs, pair, start, orch, at), t.orchestrators, orch)
  }

  function ReassignPair(w: World, t: Tables, pair: Pair, orch: Address, inherit: bool,
                        at: Position): Result<PairTable, Rejection> {
    var quarterStart := QuarterStart(w.calendar, QuarterOf(w.calendar, at.epoch));
    Referring(ReassignTable(t.pairs, pair, orch, inherit, quarterStart, at), t.orchestrators, orch)
  }

  function UpdateLists(w: World, t: Tables, contracts: seq<Address>, stablecoins: seq<Address>,
                       at: Position): Result<Tables, Rejection> {
    match (UpdateList(t.contracts, contracts, Everywhere(()), at),
           UpdateList(t.tokens, stablecoins, Known(w.decimals), at))
    case (Some(cs), Some(ts)) => Success(t.(contracts := cs, tokens := ts))
    case _ => Failure(DuplicateKey)
  }

  function Step(w: World, t: Tables, log: Log<Event>): Result<Tables, Rejection> {
    var at := log.At();
    match log.event
    case OrchestratorAdmitted(o) => Success(t.(orchestrators := t.orchestrators + {o}))
    case OrchestratorRemoved(o) => Success(t.(pairs := RemoveRows(t.pairs, o, at)))
    case BindingDeclared(pair, o) =>
      (match DeclarePair(w, t, pair, o, at)
       case Failure(e) => Failure(e)
       case Success(pairs) => Success(t.(pairs := pairs)))
    case BindingReassigned(pair, o, inherit) =>
      (match ReassignPair(w, t, pair, o, inherit, at)
       case Failure(e) => Failure(e)
       case Success(pairs) => Success(t.(pairs := pairs)))
    case BindingCanceled(pair, o) => Success(t.(pairs := CancelRows(t.pairs, pair, o, at)))
    case AdmittedListsUpdated(contracts, stablecoins) => UpdateLists(w, t, contracts, stablecoins, at)
    case PricingParamsUpdated(params) =>
      (match InsertParams(t.parameters, params, at)
       case None => Failure(DuplicateKey)
       case Some(parameters) => Success(t.(parameters := parameters)))
    case SharesSubmitted(q, total) =>
      if q in t.boundVolumes then Failure(DuplicateKey) else Success(t.(boundVolumes := t.boundVolumes[q := total]))
    case OtherEvent => Success(t)
  }

  function Run(w: World, t: Tables, logs: seq<Log<Event>>): Result<Tables, Rejection> {
    if logs == [] then Success(t)
    else
      match Run(w, t, logs[..|logs| - 1])
      case Failure(e) => Failure(e)
      case Success(t') => Step(w, t', logs[|logs| - 1])
  }

  lemma {:induction false} RunOne(w: World, t: Tables, logs: seq<Log<Event>>, log: Log<Event>)
    ensures Run(w, t, logs + [log]) ==
            match Run(w, t, logs) case Failure(e) => Failure(e) case Success(t') => Step(w, t', log)
  {
    assert (logs + [log])[..|logs|] == logs;
  }

  // The run of a prefix succeeds with the run.
  lemma {:induction false} RunPrefix(w: World, t: Tables, logs: seq<Log<Event>>, n: nat)
    requires n <= |logs| && Run(w, t, logs).Success?
    ensures Run(w, t, logs[..n]).Success?
  {
    if n < |logs| {
      RunPrefix(w, t, logs[..|logs| - 1], n);
      assert logs[..|logs| - 1][..n] == logs[..n];
    } else {
      assert logs[..n] == logs;
    }
  }

  lemma {:induction false} RunAppend(w: World, t: Tables, a: seq<Log<Event>>, b: seq<Log<Event>>)
    ensures Run(w, t, a + b) ==
            match Run(w, t, a) case Failure(e) => Failure(e) case Success(t') => Run(w, t', b)
  {
    if b == [] {
      assert a + b == a;
    } else {
      assert (a + b)[..|a + b| - 1] == a + b[..|b| - 1];
      RunAppend(w, t, a, b[..|b| - 1]);
    }
  }
}
