// The Filecoin Pay indexer: rails and payments of one contract, a batch inserted rails first.
module FilecoinPay {
  import opened Wrappers
  import opened Positions
  import opened Events
  import opened LogSorting
  import opened BatchIndexer

  datatype Rail = Rail(payer: Address, payee: Address, operator: Address, validator: Address, token: Address)

  datatype PayEvent =
    | RailCreated(createdRail: nat, rail: Rail)
    | OneTimePayment(paidRail: nat, netPayee: nat, commission: nat, fee: nat)
    | RailSettled(settledRail: nat, totalSettled: nat, totalNetPayee: nat, settledCommission: nat, settledFee: nat)

  datatype PaymentRow = PaymentRow(
    railId: nat, at: Position, totalAmount: nat, netPayee: nat, commission: nat, fee: nat, oneTime: bool)

  // Rails by id, and the payments with their multiplicities: a payment row has a generated key, so
  // applying a log twice would store it twice.
  datatype PayTables = PayTables(rails: map<nat, Rail>, payments: multiset<PaymentRow>)

  const NO_PAYMENTS := PayTables(map[], multiset{})

  function RailInputs(logs: seq<Log<PayEvent>>): seq<(nat, Rail)> {
    if logs == [] then []
    else
      var log := logs[|logs| - 1];
      RailInputs(logs[..|logs| - 1]) + if log.event.RailCreated? then [(log.event.createdRail, log.event.rail)] else []
  }

  // The gross amount: what the payee, the network and the operator receive together.
  function PaymentOf(log: Log<PayEvent>): Option<PaymentRow> {
    match log.event
    case RailCreated(_, _) => None
    case OneTimePayment(rail, net, commission, fee) =>
      Some(PaymentRow(rail, log.At(), net + fee + commission, net, commission, fee, true))
    case RailSettled(rail, total, net, commission, fee) =>
      Some(PaymentRow(rail, log.At(), total, net, commission, fee, false))
  }

  function PaymentInputs(logs: seq<Log<PayEvent>>): seq<PaymentRow> {
    if logs == [] then []
    else
      PaymentInputs(logs[..|logs| - 1]) +
      match PaymentOf(logs[|logs| - 1]) case None => [] case Some(p) => [p]
  }

  // None when a rail id is already taken.
  function InsertRails(rails: map<nat, Rail>, inputs: seq<(nat, Rail)>): Option<map<nat, Rail>> {
    if inputs == [] then Some(rails)
    else
      var last := inputs[|inputs| - 1];
      match InsertRails(rails, inputs[..|inputs| - 1])
      case None => None
      case Some(rs) => if last.0 in rs then None else Some(rs[last.0 := last.1])
  }

  // Payments refer to stored rails.
  predicate AllReferred(rails: map<nat, Rail>, inputs: seq<PaymentRow>) {
    forall i | 0 <= i < |inputs| :: inputs[i].railId in rails
  }

  function UpdateDb(t: PayTables, logs: seq<Log<PayEvent>>): Option<PayTables> {
    match InsertRails(t.rails, RailInputs(logs))
    case None => None
    case Some(rails) =>
      var payments := PaymentInputs(logs);
      if AllReferred(rails, payments) then Some(PayTables(rails, t.payments + multiset(payments))) else None
  }

  lemma {:induction false} InputsAppend(a: seq<Log<PayEvent>>, b: seq<Log<PayEvent>>)
    ensures RailInputs(a + b) == RailInputs(a) + RailInputs(b)
    ensures PaymentInputs(a + b) == PaymentInputs(a) + PaymentInputs(b)
  {
    if b == [] {
      assert a + b == a;
    } else {
      var n := |b| - 1;
      assert (a + b)[..|a + b| - 1] == a + b[..n];
      InputsAppend(a, b[..n]);
    }
  }

  lemma {:induction false} InsertRailsAppend(rails: map<nat, Rail>, a: seq<(nat, Rail)>, b: seq<(nat, Rail)>)
    ensures InsertRails(rails, a + b) ==
            match InsertRails(rails, a) case None => None case Some(rs) => InsertRails(rs, b)
  {
    if b == [] {
      assert a + b == a;
    } else {
      var n := |b| - 1;
      assert (a + b)[..|a + b| - 1] == a + b[..n];
      InsertRailsAppend(rails, a, b[..n]);
    }
  }

  lemma {:induction false} RailsGrow(rails: map<nat, Rail>, inputs: seq<(nat, Rail)>)
    requires InsertRails(rails, inputs).Some?
    ensures rails.Keys <= InsertRails(rails, inputs).value.Keys
  {
    if inputs != [] {
      RailsGrow(rails, inputs[..|inputs| - 1]);
    }
  }

  lemma {:induction false} ReferredAppend(rails: map<nat, Rail>, more: map<nat, Rail>, a: seq<PaymentRow>,
                                          b: seq<PaymentRow>)
    requires AllReferred(rails, a) && rails.Keys <= more.Keys && AllReferred(more, b)
    ensures AllReferred(more, a + b)
    ensures multiset(a + b) == multiset(a) + multiset(b)
  {
    forall i | 0 <= i < |a|
      ensures a[i].railId in more
    {
      assert a[i].railId in rails.Keys;
    }
  }

  // Accepted batches compose.
  lemma {:induction false} BatchesCompose(t: PayTables, a: seq<Log<PayEvent>>, b: seq<Log<PayEvent>>)
    requires UpdateDb(t, a).Some? && UpdateDb(UpdateDb(t, a).value, b).Some?
    ensures UpdateDb(t, a + b) == UpdateDb(UpdateDb(t, a).value, b)
  {
    var t1 := UpdateDb(t, a).value;
    var t2 := UpdateDb(t1, b).value;
    InputsAppend(a, b);
    InsertRailsAppend(t.rails, RailInputs(a), RailInputs(b));
    RailsGrow(t1.rails, RailInputs(b));
    ReferredAppend(t1.rails, t2.rails, PaymentInputs(a), PaymentInputs(b));
    assert t2.payments == t.payments + multiset(PaymentInputs(a + b));
  }

  lemma {:induction false} ReferredSuffix(rails: map<nat, Rail>, a: seq<PaymentRow>, b: seq<PaymentRow>)
    requires AllReferred(rails, a + b)
    ensures AllReferred(rails, b)
  {
    forall i | 0 <= i < |b|
      ensures b[i].railId in rails
    {
      assert b[i] == (a + b)[|a| + i];
    }
  }

  lemma AcceptedIs(t: PayTables, logs: seq<Log<PayEvent>>)
    ensures var rails := InsertRails(t.rails, RailInputs(logs));
            UpdateDb(t, logs).Some? <==> rails.Some? && AllReferred(rails.value, PaymentInputs(logs))
    ensures UpdateDb(t, logs).Some? ==> Some(UpdateDb(t, logs).value.rails) == InsertRails(t.rails, RailInputs(logs))
  {
  }

  // On any chain, a batch that is accepted whole can be split exactly where the payments of the first part refer to
  // rails stored by then: within a batch a payment may come before its rail.
  lemma {:induction false} SplitAccepted(t: PayTables, a: seq<Log<PayEvent>>, b: seq<Log<PayEvent>>)
    requires UpdateDb(t, a + b).Some?
    ensures InsertRails(t.rails, RailInputs(a)).Some?
    ensures (UpdateDb(t, a).Some? && UpdateDb(UpdateDb(t, a).value, b).Some?) <==>
            AllReferred(InsertRails(t.rails, RailInputs(a)).value, PaymentInputs(a))
  {
    InputsAppend(a, b);
    InsertRailsAppend(t.rails, RailInputs(a), RailInputs(b));
    AcceptedIs(t, a + b);
    AcceptedIs(t, a);
    ReferredSuffix(UpdateDb(t, a + b).value.rails, PaymentInputs(a), PaymentInputs(b));
    if UpdateDb(t, a).Some? {
      AcceptedIs(UpdateDb(t, a).value, b);
    }
  }

  function Applier(): (PayTables, seq<Log<PayEvent>>) -> Option<PayTables> {
    (t: PayTables, logs: seq<Log<PayEvent>>) => UpdateDb(t, logs)
  }

  lemma {:induction false} ApplierComposes()
    ensures Composes(Applier())
  {
    forall t, a, b, ab {:trigger Applier()(t, a), Joined(a, b, ab)} |
      Joined(a, b, ab) && Applier()(t, a).Some? && Applier()(Applier()(t, a).value, b).Some?
      ensures Applier()(t, ab) == Applier()(Applier()(t, a).value, b)
    {
      BatchesCompose(t, a, b);
    }
  }

  lemma {:induction false} OneRail(log: Log<PayEvent>)
    ensures RailInputs([log]) == if log.event.RailCreated? then [(log.event.createdRail, log.event.rail)] else []
    ensures PaymentInputs([log]) == match PaymentOf(log) case None => [] case Some(p) => [p]
  {
    assert RailInputs([]) == [] && PaymentInputs([]) == [];
    assert [log][..0] == [];
  }

  // ---------- what is stored, told by the logs ----------

  // The row of a payment log: a one-time payment's total is what payee, operator and network receive, a
  // settlement's is the one emitted.
  ghost predicate RowOf(row: PaymentRow, log: Log<PayEvent>) {
    && row.at == Position(log.block, log.logIndex)
    && match log.event
       case RailCreated(_, _) => false
       case OneTimePayment(rail, net, commission, fee) =>
         && row.railId == rail && row.netPayee == net && row.commission == commission && row.fee == fee && row.oneTime
         && row.totalAmount == net + commission + fee
       case RailSettled(rail, total, net, commission, fee) =>
         && row.railId == rail && row.netPayee == net && row.commission == commission && row.fee == fee && !row.oneTime
         && row.totalAmount == total
  }

  // How many logs a row is of.
  ghost function Sources(row: PaymentRow, logs: seq<Log<PayEvent>>): set<nat> {
    set i: nat | i < |logs| && RowOf(row, logs[i])
  }

  lemma {:induction false} SourcesNext(row: PaymentRow, logs: seq<Log<PayEvent>>, log: Log<PayEvent>)
    ensures |Sources(row, logs + [log])| == |Sources(row, logs)| + if RowOf(row, log) then 1 else 0
  {
    var longer := logs + [log];
    assert forall i: nat | i < |logs| :: longer[i] == logs[i];
    if RowOf(row, log) {
      assert Sources(row, longer) == Sources(row, logs) + {|logs|};
    } else {
      assert Sources(row, longer) == Sources(row, logs);
    }
  }

  // A row is stored once for each log it is of, and no other row is.
  lemma {:induction false} RowsAre(logs: seq<Log<PayEvent>>, row: PaymentRow)
    ensures multiset(PaymentInputs(logs))[row] == |Sources(row, logs)|
  {
    if logs == [] {
      assert Sources(row, logs) == {};
    } else {
      var n := |logs| - 1;
      assert logs == logs[..n] + [logs[n]];
      RowsAre(logs[..n], row);
      SourcesNext(row, logs[..n], logs[n]);
      InputsAppend(logs[..n], [logs[n]]);
      OneRail(logs[n]);
      OneRow(logs[n], row);
      assert multiset(PaymentInputs(logs)) == multiset(PaymentInputs(logs[..n])) + multiset(PaymentInputs([logs[n]]));
    }
  }

  lemma OneRow(log: Log<PayEvent>, row: PaymentRow)
    ensures multiset(match PaymentOf(log) case None => [] case Some(p) => [p])[row] == if RowOf(row, log) then 1 else 0
  {
  }

  // The stored rows are those of the logs, each once.
  ghost predicate StoresRows(payments: multiset<PaymentRow>, logs: seq<Log<PayEvent>>) {
    forall row :: payments[row] == |Sources(row, logs)|
  }

  ghost predicate IsPayment(log: Log<PayEvent>) {
    log.event.OneTimePayment? || log.event.RailSettled?
  }

  lemma SamePosition(logs: seq<Log<PayEvent>>, i: nat, j: nat)
    requires Increasing(logs) && i < |logs| && j < |logs| && logs[i].At() == logs[j].At()
    ensures i == j
  {
  }

  // Every payment log has exactly one row at its position, its own.
  lemma {:induction false} OneRowEach(payments: multiset<PaymentRow>, logs: seq<Log<PayEvent>>, i: nat)
    requires Increasing(logs) && StoresRows(payments, logs) && i < |logs| && IsPayment(logs[i])
    ensures exists row :: RowOf(row, logs[i]) && payments[row] == 1
    ensures forall row | row in payments && row.at == logs[i].At() :: RowOf(row, logs[i])
    ensures forall row, other | RowOf(row, logs[i]) && RowOf(other, logs[i]) :: row == other
  {
    var row := match logs[i].event
      case OneTimePayment(rail, net, commission, fee) =>
        PaymentRow(rail, logs[i].At(), net + commission + fee, net, commission, fee, true)
      case RailSettled(rail, total, net, commission, fee) =>
        PaymentRow(rail, logs[i].At(), total, net, commission, fee, false);
    assert RowOf(row, logs[i]);
    forall j: nat | j < |logs| && logs[j].At() == logs[i].At()
      ensures j == i
    {
      SamePosition(logs, i, j);
    }
    assert Sources(row, logs) == {i};
    forall other | other in payments && other.at == logs[i].At()
      ensures RowOf(other, logs[i])
    {
      assert |Sources(other, logs)| > 0;
      var j :| j in Sources(other, logs);
    }
  }

  // ---------- what is accepted, told by the logs ----------

  predicate Creates(log: Log<PayEvent>, rail: nat) {
    log.event.RailCreated? && log.event.createdRail == rail
  }

  predicate CreatedBy(logs: seq<Log<PayEvent>>, rail: nat) {
    exists i :: 0 <= i < |logs| && Creates(logs[i], rail)
  }

  predicate PaysOn(log: Log<PayEvent>, rail: nat) {
    match log.event
    case RailCreated(_, _) => false
    case OneTimePayment(paid, _, _, _) => paid == rail
    case RailSettled(settled, _, _, _, _) => settled == rail
  }

  // No rail of the logs is stored already or created twice.
  ghost predicate RailsNew(rails: map<nat, Rail>, logs: seq<Log<PayEvent>>) {
    && (forall i | 0 <= i < |logs| && logs[i].event.RailCreated? :: logs[i].event.createdRail !in rails)
    && (forall i, j | 0 <= i < j < |logs| && logs[i].event.RailCreated? :: !Creates(logs[j], logs[i].event.createdRail))
  }

  // Every payment is on a rail stored or created by the logs.
  ghost predicate RailsKnown(rails: map<nat, Rail>, logs: seq<Log<PayEvent>>) {
    forall i, rail | 0 <= i < |logs| && PaysOn(logs[i], rail) :: rail in rails || CreatedBy(logs, rail)
  }

  ghost predicate StoresRails(before: map<nat, Rail>, after: map<nat, Rail>, logs: seq<Log<PayEvent>>) {
    && (forall rail :: rail in after <==> rail in before || CreatedBy(logs, rail))
    && (forall rail | rail in before :: rail in after && after[rail] == before[rail])
    && (forall i | 0 <= i < |logs| && logs[i].event.RailCreated? ::
          logs[i].event.createdRail in after && after[logs[i].event.createdRail] == logs[i].event.rail)
  }

  lemma {:induction false} CreatedNext(logs: seq<Log<PayEvent>>, log: Log<PayEvent>, rail: nat)
    ensures CreatedBy(logs + [log], rail) <==> CreatedBy(logs, rail) || Creates(log, rail)
  {
    var longer := logs + [log];
    if CreatedBy(logs, rail) {
      var i :| 0 <= i < |logs| && Creates(logs[i], rail);
      assert Creates(longer[i], rail);
    }
    if Creates(log, rail) {
      assert Creates(longer[|logs|], rail);
    }
  }

  lemma {:induction false} RailsNewBefore(rails: map<nat, Rail>, logs: seq<Log<PayEvent>>, log: Log<PayEvent>)
    requires RailsNew(rails, logs + [log])
    ensures RailsNew(rails, logs)
    ensures log.event.RailCreated? ==> log.event.createdRail !in rails && !CreatedBy(logs, log.event.createdRail)
  {
    var longer := logs + [log];
    assert forall i | 0 <= i < |logs| :: longer[i] == logs[i];
    assert longer[|logs|] == log;
    forall i, j | 0 <= i < j < |logs| && logs[i].event.RailCreated?
      ensures !Creates(logs[j], logs[i].event.createdRail)
    {
      assert !Creates(longer[j], longer[i].event.createdRail);
    }
    if log.event.RailCreated? {
      forall i | 0 <= i < |logs|
        ensures !Creates(logs[i], log.event.createdRail)
      {
        assert logs[i].event.RailCreated? ==> !Creates(longer[|logs|], longer[i].event.createdRail);
      }
    }
  }

  lemma {:induction false} RailsNewAfter(rails: map<nat, Rail>, logs: seq<Log<PayEvent>>, log: Log<PayEvent>)
    requires RailsNew(rails, logs)
    requires log.event.RailCreated? ==> log.event.createdRail !in rails && !CreatedBy(logs, log.event.createdRail)
    ensures RailsNew(rails, logs + [log])
  {
    var longer := logs + [log];
    forall i | 0 <= i < |longer| && longer[i].event.RailCreated?
      ensures longer[i].event.createdRail !in rails
    {
      assert i < |logs| ==> longer[i] == logs[i];
    }
    forall i, j | 0 <= i < j < |longer| && longer[i].event.RailCreated?
      ensures !Creates(longer[j], longer[i].event.createdRail)
    {
      assert longer[i] == logs[i];
      assert log.event.RailCreated? ==> !Creates(logs[i], log.event.createdRail);
      assert j < |logs| ==> longer[j] == logs[j];
    }
  }

  lemma {:induction false} RailsNewNext(rails: map<nat, Rail>, logs: seq<Log<PayEvent>>, log: Log<PayEvent>)
    ensures RailsNew(rails, logs + [log]) <==>
            RailsNew(rails, logs) && (log.event.RailCreated? ==> log.event.createdRail !in rails
                                                                 && !CreatedBy(logs, log.event.createdRail))
  {
    if RailsNew(rails, logs + [log]) {
      RailsNewBefore(rails, logs, log);
    } else if RailsNew(rails, logs) {
      if log.event.RailCreated? ==> log.event.createdRail !in rails && !CreatedBy(logs, log.event.createdRail) {
        RailsNewAfter(rails, logs, log);
      }
    }
  }

  // Rails are inserted exactly when they are new, and then stored as created.
  lemma {:induction false} RailsStored(rails: map<nat, Rail>, logs: seq<Log<PayEvent>>)
    ensures InsertRails(rails, RailInputs(logs)).Some? <==> RailsNew(rails, logs)
    ensures RailsNew(rails, logs) ==> StoresRails(rails, InsertRails(rails, RailInputs(logs)).value, logs)
  {
    if logs != [] {
      var n := |logs| - 1;
      var init, log := logs[..n], logs[n];
      assert logs == init + [log];
      RailsStored(rails, init);
      RailsNewNext(rails, init, log);
      InputsAppend(init, [log]);
      OneRail(log);
      InsertRailsAppend(rails, RailInputs(init), RailInputs([log]));
      if RailsNew(rails, logs) {
        RailStoredNext(rails, InsertRails(rails, RailInputs(init)).value, init, log);
      }
    }
  }

  lemma {:induction false} InsertOne(rails: map<nat, Rail>, log: Log<PayEvent>)
    ensures InsertRails(rails, RailInputs([log])) ==
            if !log.event.RailCreated? then Some(rails)
            else if log.event.createdRail in rails then None
            else Some(rails[log.event.createdRail := log.event.rail])
  {
    OneRail(log);
    if log.event.RailCreated? {
      assert [(log.event.createdRail, log.event.rail)][..0] == [];
      assert InsertRails(rails, []) == Some(rails);
    }
  }

  lemma {:induction false} RailStoredNext(rails: map<nat, Rail>, after: map<nat, Rail>, logs: seq<Log<PayEvent>>,
                                          log: Log<PayEvent>)
    requires StoresRails(rails, after, logs) && RailsNew(rails, logs + [log])
    ensures InsertRails(after, RailInputs([log])).Some?
    ensures StoresRails(rails, InsertRails(after, RailInputs([log])).value, logs + [log])
  {
    InsertOne(after, log);
    RailsNewNext(rails, logs, log);
    var longer := logs + [log];
    assert forall i | 0 <= i < |logs| :: longer[i] == logs[i];
    forall rail {
      CreatedNext(logs, log, rail);
    }
    forall i | 0 <= i < |logs| && logs[i].event.RailCreated?
      ensures CreatedBy(logs, logs[i].event.createdRail)
    {
      assert Creates(logs[i], logs[i].event.createdRail);
    }
  }

  lemma {:induction false} ReferredTold(rails: map<nat, Rail>, logs: seq<Log<PayEvent>>)
    ensures AllReferred(rails, PaymentInputs(logs)) <==>
            forall i, rail | 0 <= i < |logs| && PaysOn(logs[i], rail) :: rail in rails
  {
    if logs != [] {
      var n := |logs| - 1;
      ReferredTold(rails, logs[..n]);
      ReferredNext(rails, logs[..n], logs[n]);
      assert logs == logs[..n] + [logs[n]];
      assert forall i | 0 <= i < n :: logs[i] == logs[..n][i];
    }
  }

  lemma {:induction false} ReferredNext(rails: map<nat, Rail>, logs: seq<Log<PayEvent>>, log: Log<PayEvent>)
    ensures AllReferred(rails, PaymentInputs(logs + [log])) <==>
            AllReferred(rails, PaymentInputs(logs)) && forall rail | PaysOn(log, rail) :: rail in rails
  {
    InputsAppend(logs, [log]);
    OneRail(log);
    var before, more := PaymentInputs(logs), PaymentInputs([log]);
    assert forall i | 0 <= i < |before| :: (before + more)[i] == before[i];
    if more != [] {
      assert (before + more)[|before|] == more[0];
      assert PaysOn(log, more[0].railId);
    }
  }

  // A batch is accepted exactly when its rails are new and every payment is on a rail stored or created
  // by the batch.
  lemma {:induction false} AcceptedExactly(t: PayTables, logs: seq<Log<PayEvent>>)
    ensures UpdateDb(t, logs).Some? <==> RailsNew(t.rails, logs) && RailsKnown(t.rails, logs)
    ensures UpdateDb(t, logs).Some? ==> StoresRails(t.rails, UpdateDb(t, logs).value.rails, logs)
  {
    AcceptedIs(t, logs);
    RailsStored(t.rails, logs);
    if RailsNew(t.rails, logs) {
      ReferredTold(InsertRails(t.rails, RailInputs(logs)).value, logs);
    }
  }

  // ---------- chains in which rails come first ----------

  // A rail is created once, and paid on after that.
  predicate InOrder(before: seq<Log<PayEvent>>, log: Log<PayEvent>) {
    match log.event
    case RailCreated(rail, _) => !CreatedBy(before, rail)
    case OneTimePayment(rail, _, _, _) => CreatedBy(before, rail)
    case RailSettled(rail, _, _, _, _) => CreatedBy(before, rail)
  }

  ghost predicate RailsFirst(logs: seq<Log<PayEvent>>) {
    forall i | 0 <= i < |logs| :: InOrder(logs[..i], logs[i])
  }

  lemma {:induction false} RailsFirstPrefix(a: seq<Log<PayEvent>>, b: seq<Log<PayEvent>>)
    requires RailsFirst(a + b)
    ensures RailsFirst(a)
  {
    forall i | 0 <= i < |a|
      ensures InOrder(a[..i], a[i])
    {
      assert (a + b)[..i] == a[..i] && (a + b)[i] == a[i];
    }
  }

  lemma {:induction false} RailsFirstAccepted(logs: seq<Log<PayEvent>>)
    requires RailsFirst(logs)
    ensures RailsNew(map[], logs) && RailsKnown(map[], logs) && UpdateDb(NO_PAYMENTS, logs).Some?
  {
    forall i, j | 0 <= i < j < |logs| && logs[i].event.RailCreated?
      ensures !Creates(logs[j], logs[i].event.createdRail)
    {
      assert InOrder(logs[..j], logs[j]);
      assert Creates(logs[..j][i], logs[i].event.createdRail);
    }
    forall i, rail | 0 <= i < |logs| && PaysOn(logs[i], rail)
      ensures CreatedBy(logs, rail)
    {
      assert InOrder(logs[..i], logs[i]);
      var j :| 0 <= j < i && Creates(logs[..i][j], rail);
      assert Creates(logs[j], rail);
    }
    AcceptedExactly(NO_PAYMENTS, logs);
  }

  // Where rails come first, as in the log of a contract from its deployment on, every batch is accepted
  // however the chain is split.
  lemma {:induction false} ChainAccepted(chain: seq<Log<PayEvent>>, minBlock: nat, head: int)
    requires StrictlySorted(chain) && RailsFirst(Range(chain, minBlock, head))
    ensures AcceptsChain(Applier(), chain, NO_PAYMENTS, minBlock, head)
  {
    forall a: nat, b: nat | minBlock <= a <= b <= head
      ensures AcceptsBatch(Applier(), chain, NO_PAYMENTS, minBlock, a, b)
    {
      RangesJoin(chain, minBlock, b, head);
      RailsFirstPrefix(Range(chain, minBlock, b), Range(chain, b + 1, head));
      RangesJoin(chain, minBlock, a - 1, b);
      SplitInOrder(Range(chain, minBlock, a - 1), Range(chain, a, b));
    }
  }

  lemma {:induction false} SplitInOrder(a: seq<Log<PayEvent>>, b: seq<Log<PayEvent>>)
    requires RailsFirst(a + b)
    ensures UpdateDb(NO_PAYMENTS, a).Some? && UpdateDb(UpdateDb(NO_PAYMENTS, a).value, b).Some?
  {
    RailsFirstPrefix(a, b);
    RailsFirstAccepted(a);
    RailsFirstAccepted(a + b);
    AcceptedIs(NO_PAYMENTS, a);
    SplitAccepted(NO_PAYMENTS, a, b);
  }

  // Outside that case batches do not split freely: a payment ahead of its rail is accepted with it but
  // not before it.
  lemma {:induction false} PaymentBeforeRail(rail: Rail)
    ensures var payment, creation := Log(1, 0, 0, OneTimePayment(7, 1, 0, 0)), Log(1, 0, 1, RailCreated(7, rail));
            UpdateDb(NO_PAYMENTS, [payment, creation]).Some? && UpdateDb(NO_PAYMENTS, [payment]).None?
  {
    var payment, creation := Log(1, 0, 0, OneTimePayment(7, 1, 0, 0)), Log(1, 0, 1, RailCreated(7, rail));
    var row := PaymentRow(7, Position(1, 0), 1, 1, 0, 0, true);
    OneRail(payment);
    OneRail(creation);
    InputsAppend([payment], [creation]);
    assert [payment] + [creation] == [payment, creation];
    assert [row] + [] == [row] && [] + [(7, rail)] == [(7, rail)];
    AcceptedIs(NO_PAYMENTS, [payment]);
    AcceptedIs(NO_PAYMENTS, [payment, creation]);
    assert InsertRails(map[], [(7, rail)]) == Some(map[7 := rail]) by {
      assert [(7, rail)][..0] == [];
      assert InsertRails(map[], []) == Some(map[]);
    }
    assert [row][0].railId !in NO_PAYMENTS.rails;
  }

  lemma {:induction false} NothingChanges(t: PayTables)
    ensures UpdateDb(t, []) == Some(t)
  {
    assert t.payments + multiset([]) == t.payments;
  }

  // The indexer of one contract from an empty database, through any attempts: every payment log up to
  // the cursor is stored exactly once, with the rails created by then. Once an attempt settles, that is
  // every log up to the head, if rails come first.
  method IndexContract(settings: Settings, minBlock: nat, attempts: seq<Attempt<PayEvent>>,
                       ghost chain: seq<Log<PayEvent>>, ghost head: int)
    returns (tables: PayTables, cursor: Option<nat>)
    requires ValidSettings(settings) && StrictlySorted(chain) && FaithfulAttempts(chain, attempts)
    ensures StoresRows(tables.payments, Indexed(chain, minBlock, cursor))
    ensures StoresRails(map[], tables.rails, Indexed(chain, minBlock, cursor))
    ensures Settles(settings, attempts, minBlock, head) && RailsFirst(Range(chain, minBlock, head)) ==>
              && FromBlock(cursor, minBlock) == Larger(minBlock, head + 1)
              && StoresRows(tables.payments, Range(chain, minBlock, head))
  {
    ApplierComposes();
    NothingChanges(NO_PAYMENTS);
    if RailsFirst(Range(chain, minBlock, head)) {
      ChainAccepted(chain, minBlock, head);
    }
    tables, cursor := Replay(settings, minBlock, Applier(), NO_PAYMENTS, attempts, chain, head);
    assert Applier()(NO_PAYMENTS, Indexed(chain, minBlock, cursor)) == Some(tables);
    assert Applier()(NO_PAYMENTS, Range(chain, minBlock, head)) == Some(tables) ==>
        UpdateDb(NO_PAYMENTS, Range(chain, minBlock, head)) == Some(tables);
    StoredTold(tables, Indexed(chain, minBlock, cursor));
    if UpdateDb(NO_PAYMENTS, Range(chain, minBlock, head)) == Some(tables) {
      StoredTold(tables, Range(chain, minBlock, head));
    }
  }

  lemma {:induction false} StoredTold(tables: PayTables, logs: seq<Log<PayEvent>>)
    requires UpdateDb(NO_PAYMENTS, logs) == Some(tables)
    ensures StoresRows(tables.payments, logs) && StoresRails(map[], tables.rails, logs)
  {
    AcceptedExactly(NO_PAYMENTS, logs);
    forall row
      ensures tables.payments[row] == |Sources(row, logs)|
    {
      RowsAre(logs, row);
    }
  }

  // A run of a removed contract that passes its last block: with batches of ten blocks, block 9 final and
  // block 100 current, a contract removed at block 3 is indexed up to block 9.
  method PassesRemoval() returns (cursor: Option<nat>, removed: nat)
    ensures removed == 3 && cursor == Some(9)
  {
    removed := 3;
    ApplierComposes();
    NothingChanges(NO_PAYMENTS);
    ghost var chain: seq<Log<PayEvent>> := [];
    var settings := Settings(100, 10, 10, None);
    var nothing: seq<Log<PayEvent>> := [];
    var head := Observation(100, 100, 9, (from: nat, to: nat) => Some(nothing), true);
    var indexer := new Indexer(settings, 0, Applier(), NO_PAYMENTS, chain);
    assert Range(chain, 0, 9) == [];
    var outcome := indexer.Pass(Some(removed), head, chain, NO_PAYMENTS);
    cursor := indexer.cursor;
  }
}
