// The Service Rewards Actor indexer: a handler for each event, editing the tables in place, and the
// loop that applies a batch of logs.
module ServiceRewardsIndexer {
  import opened Wrappers
  import opened Positions
  import opened Calendars
  import opened Events
  import opened Bindings
  import opened PairTables
  import opened Parameters
  import opened AdmittedLists
  import opened Ledger

  class Store {
    const world: World
    var orchestrators: set<Address>
    var pairs: PairTable
    var parameters: ParameterTable
    var contracts: ContractTable
    var tokens: TokenTable
    var boundVolumes: map<nat, nat>

    constructor (world: World)
      ensures this.world == world && State() == EMPTY
    {
      this.world := world;
      orchestrators, pairs, parameters, contracts, tokens, boundVolumes := {}, map[], map[], map[], map[], map[];
    }

    function State(): Tables
      reads this
    {
      Tables(orchestrators, pairs, parameters, contracts, tokens, boundVolumes)
    }

    // ---------- bindings ----------

    method RemoveOrchestrator(orch: Address, at: Position)
      modifies this`pairs
      ensures pairs == RemoveRows(old(pairs), orch, at)
    {
      // delete bindings that have not begun
      pairs := map k | k in pairs && !(pairs[k].HeldBy(orch) && at.Before(k.from)) :: pairs[k];
      // release the others
      pairs := map k | k in pairs :: if pairs[k].HeldBy(orch) then pairs[k].Close(at) else pairs[k];
    }

    method CancelBinding(pair: Pair, orch: Address, at: Position)
      modifies this`pairs
      ensures pairs == CancelRows(old(pairs), pair, orch, at)
    {
      pairs := map k | k in pairs && !(k.pair == pair && pairs[k].HeldBy(orch) && at.Before(k.from)) :: pairs[k];
      pairs := map k | k in pairs :: if k.pair == pair && pairs[k].HeldBy(orch) then pairs[k].Close(at) else pairs[k];
    }

    // Insert a row: first the primary key is checked, then the reference to the orchestrator.
    method InsertPair(pair: Pair, from: Position, orch: Address, at: Position) returns (rejection: Option<Rejection>)
      modifies this`pairs
      ensures var r := Referring(InsertRow(old(pairs), pair, from, orch, at), orchestrators, orch);
              && (rejection == None <==> r.Success?)
              && (rejection == None ==> pairs == r.value)
              && (rejection != None ==> pairs == old(pairs) && r == Failure(rejection.value))
    {
      if PairKey(pair, from) in pairs {
        return Some(DuplicateKey);
      }
      if orch !in orchestrators {
        return Some(UnknownOrchestrator);
      }
      pairs := pairs[PairKey(pair, from) := Binding(orch, None, at.epoch, None)];
      rejection := None;
    }

    method CreateBinding(pair: Pair, orch: Address, at: Position) returns (rejection: Option<Rejection>)
      modifies this`pairs
      ensures var r := DeclarePair(world, old(State()), pair, orch, at);
              && (rejection == None <==> r.Success?)
              && (rejection == None ==> pairs == r.value)
              && (rejection != None ==> pairs == old(pairs) && r == Failure(rejection.value))
    {
      var c := world.calendar;
      var logQuarter := QuarterOf(c, at.epoch);
      var rows := View(pairs, pair);
      if exists f :: f in rows && rows[f].Open() {
        return Some(Declined(AlreadyBound));
      }
      var release := LastRelease(rows);
      var releasedInFutureEpoch := release.Some? && release.value.epoch > at.epoch;
      var releasedInFutureLogIndex :=
        release.Some? && release.value.epoch == at.epoch && release.value.logIndex >= at.logIndex;
      if releasedInFutureEpoch || releasedInFutureLogIndex {
        return Some(Declined(ReleasedInFuture));
      }
      var quarterStart := QuarterStart(c, logQuarter);
      var quarterEnd := quarterStart + c.epochsPerQuarter - 1;
      var cutoffStart := quarterEnd + 1;
      // the registration cutoff applies from the first quarter on
      if logQuarter >= 1 {
        var cutoff := EpochQuery(parameters, RegistrationCutoffEpochs, quarterStart);
        if cutoff.None? {
          return Some(Declined(NoRegistrationCutoff));
        }
        if cutoff.value > c.epochsPerQuarter {
          return Some(Declined(CutoffTooLong));
        }
        cutoffStart := quarterEnd - cutoff.value + 1;
      }
      var from: Position;
      if at.epoch >= cutoffStart {
        from := Position(quarterEnd + 1, 0);
      } else if release.None? || QuarterOf(c, release.value.epoch) != logQuarter {
        from := Position(quarterStart, 0);
      } else {
        from := release.value.Next();
      }
      rejection := InsertPair(pair, from, orch, at);
    }

    method ReassignBinding(pair: Pair, orch: Address, inherit: bool,
                           at: Position) returns (rejection: Option<Rejection>)
      modifies this`pairs
      ensures var r := ReassignPair(world, old(State()), pair, orch, inherit, at);
              && (rejection == None <==> r.Success?)
              && (rejection == None ==> pairs == r.value)
              && (rejection != None ==> r == Failure(rejection.value))
    {
      var c := world.calendar;
      var quarterStart := QuarterStart(c, QuarterOf(c, at.epoch));
      if inherit {
        var updated := AnyInheritable(pairs, pair, quarterStart);
        if updated {
          pairs := TakeOver(pairs, pair, orch, quarterStart);
          if orch !in orchestrators {
            return Some(UnknownOrchestrator);
          }
          return None;
        }
        // the binding applies from before the quarter: unbind it at the event and register anew
        pairs := map k | k in pairs ::
          if k.pair == pair && pairs[k].Open() && k.from.epoch < quarterStart then pairs[k].Close(at) else pairs[k];
        assert pairs == CloseRows(old(pairs), pair, inherit, quarterStart, at);
        rejection := InsertPair(pair, at.Next(), orch, at);
      } else {
        pairs := map k | k in pairs :: if k.pair == pair && pairs[k].Open() then pairs[k].Close(at) else pairs[k];
        assert pairs == CloseRows(old(pairs), pair, inherit, quarterStart, at);
        rejection := InsertPair(pair, at.Next(), orch, at);
      }
    }

    // ---------- lists and parameters ----------

    method UpdateAdmittedLists(admittedContracts: seq<Address>, admittedTokens: seq<Address>, at: Position)
      returns (rejection: Option<Rejection>)
      modifies this`contracts, this`tokens
      ensures var r := UpdateLists(world, old(State()), admittedContracts, admittedTokens, at);
              && (rejection == None <==> r.Success?)
              && (rejection == None ==> State() == r.value)
              && (rejection != None ==> r == Failure(rejection.value))
    {
      var addedContracts := Added(contracts, admittedContracts);
      var addedTokens := Added(tokens, admittedTokens);
      contracts := CloseMissing(contracts, admittedContracts, at);
      tokens := CloseMissing(tokens, admittedTokens, at);
      var inserted := InsertAll(contracts, addedContracts, Everywhere(()), at);
      if inserted.None? {
        return Some(DuplicateKey);
      }
      contracts := inserted.value;
      ghost var closed := tokens;
      for i := 0 to |addedTokens|
        invariant contracts == inserted.value
        invariant InsertAll(closed, addedTokens[..i], Known(world.decimals), at) == Some(tokens)
      {
        InsertAllNext(closed, addedTokens, Known(world.decimals), at, i);
        var token := addedTokens[i];
        if token !in world.decimals {
          // no metadata: skipped
          continue;
        }
        if ListKey(token, at) in tokens {
          InsertAllStops(closed, addedTokens, Known(world.decimals), at, i + 1);
          return Some(DuplicateKey);
        }
        tokens := tokens[ListKey(token, at) := Admission(world.decimals[token], None)];
      }
      assert addedTokens[..|addedTokens|] == addedTokens;
      rejection := None;
    }

    // One row for each pair of a parameter type and its value.
    method UpdatePricingParams(params: PricingParams, at: Position) returns (rejection: Option<Rejection>)
      modifies this`parameters
      ensures rejection == None <==> forall kind :: ParameterKey(kind, at) !in old(parameters)
      ensures rejection == None ==>
                && (forall kind :: ParameterKey(kind, at) in parameters
                                   && parameters[ParameterKey(kind, at)] == ValueOf(params, kind))
                && (forall k: ParameterKey | k.at != at :: k in parameters <==> k in old(parameters))
                && (forall k: ParameterKey | k.at != at && k in parameters :: parameters[k] == old(parameters)[k])
      ensures rejection != None ==> rejection == Some(DuplicateKey)
    {
      var pairs := [
        (MinLotFloor, params.minLotFloor),
        (MinLotAlphaNumerator, params.minLotAlphaNum),
        (MinLotAlphaDenominator, params.minLotAlphaDen),
        (PriceBandBps, params.priceBand),
        (RegistrationCutoffEpochs, params.registrationCutoff)];
      ghost var before := parameters;
      for i := 0 to |pairs|
        invariant forall j | 0 <= j < i :: ParameterKey(pairs[j].0, at) !in before
        invariant parameters.Keys == before.Keys + set j | 0 <= j < i :: ParameterKey(pairs[j].0, at)
        invariant forall k | k in before :: parameters[k] == before[k]
        invariant forall j | 0 <= j < i :: parameters[ParameterKey(pairs[j].0, at)] == pairs[j].1
      {
        var key := ParameterKey(pairs[i].0, at);
        if key in parameters {
          assert key in before;
          return Some(DuplicateKey);
        }
        parameters := parameters[key := pairs[i].1];
      }
      forall kind
        ensures ParameterKey(kind, at) in parameters && ParameterKey(kind, at) !in before
                && parameters[ParameterKey(kind, at)] == ValueOf(params, kind)
      {
        var j := match kind
          case MinLotFloor => 0
          case MinLotAlphaNumerator => 1
          case MinLotAlphaDenominator => 2
          case PriceBandBps => 3
          case RegistrationCutoffEpochs => 4;
        assert pairs[j].0 == kind;
      }
      rejection := None;
    }

    // ---------- the batch ----------

    method Apply(log: Log<Event>) returns (rejection: Option<Rejection>)
      modifies this
      ensures var r := Step(world, old(State()), log);
              && (rejection == None <==> r.Success?)
              && (rejection == None ==> State() == r.value)
              && (rejection != None ==> r == Failure(rejection.value))
    {
      var at := log.At();
      rejection := None;
      match log.event
      case OrchestratorAdmitted(o) => orchestrators := orchestrators + {o};
      case OrchestratorRemoved(o) => RemoveOrchestrator(o, at);
      case BindingDeclared(pair, o) => rejection := CreateBinding(pair, o, at);
      case BindingReassigned(pair, o, inherit) => rejection := ReassignBinding(pair, o, inherit, at);
      case BindingCanceled(pair, o) => CancelBinding(pair, o, at);
      case AdmittedListsUpdated(cs, ts) => rejection := UpdateAdmittedLists(cs, ts, at);
      case PricingParamsUpdated(params) =>
        ghost var before := parameters;
        rejection := UpdatePricingParams(params, at);
        InsertParamsIs(before, params, at, parameters);
      case SharesSubmitted(q, total) =>
        if q in boundVolumes {
          rejection := Some(DuplicateKey);
        } else {
          boundVolumes := boundVolumes[q := total];
        }
      case OtherEvent =>
    }

    // A batch is accepted exactly when the run of its logs is, and leaves the tables of that run. A
    // rejected batch is rolled back by the transaction around it.
    method UpdateDb(logs: seq<Log<Event>>) returns (rejection: Option<Rejection>)
      modifies this
      ensures var r := Run(world, old(State()), logs);
              && (rejection == None <==> r.Success?)
              && (rejection == None ==> State() == r.value)
              && (rejection != None ==> r == Failure(rejection.value))
    {
      ghost var before := State();
      for i := 0 to |logs|
        invariant Run(world, before, logs[..i]) == Success(State())
      {
        assert logs[..i + 1] == logs[..i] + [logs[i]];
        RunOne(world, before, logs[..i], logs[i]);
        rejection := Apply(logs[i]);
        if rejection != None {
          RunFails(world, before, logs, i + 1);
          return;
        }
      }
      assert logs[..|logs|] == logs;
      rejection := None;
    }
  }

  lemma {:induction false} InsertAllNext<M>(t: ListTable<M>, added: seq<Address>, data: Source<M>, at: Position, i: nat)
    requires i < |added|
    ensures InsertAll(t, added[..i + 1], data, at) ==
            match InsertAll(t, added[..i], data, at)
            case None => None
            case Some(t') =>
              if !data.Has(added[i]) then Some(t')
              else if ListKey(added[i], at) in t' then None
              else Some(t'[ListKey(added[i], at) := Admission(data.Get(added[i]), None)])
  {
    assert added[..i + 1][..i] == added[..i];
  }

  lemma {:induction false} InsertAllStops<M>(t: ListTable<M>, added: seq<Address>, data: Source<M>, at: Position,
                                             n: nat)
    requires n <= |added| && InsertAll(t, added[..n], data, at).None?
    ensures InsertAll(t, added, data, at).None?
  {
    if n < |added| {
      assert added[..|added| - 1][..n] == added[..n];
      InsertAllStops(t, added[..|added| - 1], data, at, n);
    } else {
      assert added[..n] == added;
    }
  }

  lemma {:induction false} RunFails(w: World, t: Tables, logs: seq<Log<Event>>, n: nat)
    requires n <= |logs| && Run(w, t, logs[..n]).Failure?
    ensures Run(w, t, logs) == Failure(Run(w, t, logs[..n]).error)
  {
    if n < |logs| {
      assert logs[..|logs| - 1][..n] == logs[..n];
      RunFails(w, t, logs[..|logs| - 1], n);
    } else {
      assert logs[..n] == logs;
    }
  }
}
