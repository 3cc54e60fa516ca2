// The epochs a binding carries: when it was declared or reassigned, and when it was released.
module BindingEpochs {
  import opened Wrappers
  import opened Positions
  import opened Calendars
  import opened Events
  import opened Bindings
  import opened PairTables
  import opened Ledger

  // The log declares or reassigns the pair in this epoch.
  ghost predicate BoundAt(logs: seq<Log<Event>>, pair: Pair, epoch: nat) {
    exists i :: 0 <= i < |logs| && Binds(logs[i], pair) && logs[i].block == epoch
  }

  predicate Binds(log: Log<Event>, pair: Pair) {
    match log.event
    case BindingDeclared(p, _) => p == pair
    case BindingReassigned(p, _, _) => p == pair
    case _ => false
  }

  // A row is released in the epoch of its end, and was bound by a log about its pair.
  ghost predicate RowDated(logs: seq<Log<Event>>, k: PairKey, b: Binding) {
    && (b.to.None? ==> b.unbindingEpoch.None?)
    && (b.to.Some? ==> b.unbindingEpoch == Some(b.to.value.epoch))
    && BoundAt(logs, k.pair, b.bindingEpoch)
  }

  ghost predicate RowsDated(logs: seq<Log<Event>>, t: PairTable) {
    forall k | k in t :: RowDated(logs, k, t[k])
  }

  lemma {:induction false} BoundLater(logs: seq<Log<Event>>, log: Log<Event>, pair: Pair, epoch: nat)
    requires BoundAt(logs, pair, epoch) || (Binds(log, pair) && log.block == epoch)
    ensures BoundAt(logs + [log], pair, epoch)
  {
    var longer := logs + [log];
    if BoundAt(logs, pair, epoch) {
      var i :| 0 <= i < |logs| && Binds(logs[i], pair) && logs[i].block == epoch;
      assert longer[i] == logs[i];
    } else {
      assert longer[|logs|] == log;
    }
  }

  lemma {:induction false} DatedLater(logs: seq<Log<Event>>, log: Log<Event>, t: PairTable)
    requires RowsDated(logs, t)
    ensures RowsDated(logs + [log], t)
  {
    forall k | k in t
      ensures RowDated(logs + [log], k, t[k])
    {
      BoundLater(logs, log, k.pair, t[k].bindingEpoch);
    }
  }

  lemma {:induction false} ReassignDated(logs: seq<Log<Event>>, log: Log<Event>, t: PairTable, pair: Pair,
                                         orch: Address, inherit: bool, quarterStart: nat)
    requires RowsDated(logs, t) && Binds(log, pair)
    ensures var r := ReassignTable(t, pair, orch, inherit, quarterStart, log.At());
            r.Some? ==> RowsDated(logs + [log], r.value)
  {
    DatedLater(logs, log, t);
    BoundLater(logs, log, pair, log.block);
  }

  lemma ReleaseDated(logs: seq<Log<Event>>, t: PairTable, pair: Pair, orch: Address, at: Position)
    requires RowsDated(logs, t)
    ensures RowsDated(logs, CancelRows(t, pair, orch, at)) && RowsDated(logs, RemoveRows(t, orch, at))
  {
  }

  lemma {:induction false} StepDated(w: World, t: Tables, logs: seq<Log<Event>>, log: Log<Event>)
    requires RowsDated(logs, t.pairs) && Step(w, t, log).Success?
    ensures RowsDated(logs + [log], Step(w, t, log).value.pairs)
  {
    DatedLater(logs, log, t.pairs);
    match log.event
    case BindingDeclared(pair, orch) =>
      BoundLater(logs, log, pair, log.block);
    case BindingReassigned(pair, orch, inherit) =>
      ReassignDated(logs, log, t.pairs, pair, orch, inherit,
                    QuarterStart(w.calendar, QuarterOf(w.calendar, log.block)));
    case BindingCanceled(pair, orch) => ReleaseDated(logs + [log], t.pairs, pair, orch, log.At());
    case OrchestratorRemoved(orch) => ReleaseDated(logs + [log], t.pairs, Pair("", ""), orch, log.At());
    case _ =>
  }

  // After any run every row carries the epochs of the logs that bound and released it.
  lemma {:induction false} RunDated(w: World, logs: seq<Log<Event>>)
    requires Run(w, EMPTY, logs).Success?
    ensures RowsDated(logs, Run(w, EMPTY, logs).value.pairs)
  {
    if logs != [] {
      var n := |logs| - 1;
      assert logs == logs[..n] + [logs[n]];
      RunDated(w, logs[..n]);
      StepDated(w, Run(w, EMPTY, logs[..n]).value, logs[..n], logs[n]);
    }
  }
}
