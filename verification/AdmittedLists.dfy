// The table behind an admitted list (payment contracts or stablecoins): one row for each span during
// which an address was on the list, carrying data of type M.
module AdmittedLists {
  import opened Wrappers
  import opened Positions
  import opened Calendars
  import opened Events

  datatype ListKey = ListKey(address: Address, admitted: Position)

  datatype Admission<+M> = Admission(data: M, removed: Option<Position>)

  type ListTable<M> = map<ListKey, Admission<M>>

  // Where the data of an address comes from; an address without data is skipped.
  datatype Source<M> = Everywhere(value: M) | Known(values: map<Address, M>) {
    predicate Has(a: Address) {
      Everywhere? || a in values
    }

    function Get(a: Address): M
      requires Has(a)
    {
      if Everywhere? then value else values[a]
    }
  }

  // ---------- applying an update ----------

  function Listed<M>(t: ListTable<M>): set<Address> {
    set k | k in t && t[k].removed.None? :: k.address
  }

  // Addresses on the list but not yet in the table, in list order and with their repetitions.
  function Added<M>(t: ListTable<M>, list: seq<Address>): seq<Address> {
    if list == [] then []
    else
      var init, last := list[..|list| - 1], list[|list| - 1];
      Added(t, init) + (if last in Listed(t) then [] else [last])
  }

  // Rows of addresses no longer on the list are closed.
  function CloseMissing<M>(t: ListTable<M>, list: seq<Address>, at: Position): ListTable<M> {
    map k | k in t :: if t[k].removed.None? && k.address !in list then t[k].(removed := Some(at)) else t[k]
  }

  // Insert a row for each address that has data. None when a key is already taken.
  function InsertAll<M>(t: ListTable<M>, added: seq<Address>, data: Source<M>, at: Position): Option<ListTable<M>> {
    if added == [] then Some(t)
    else
      var init, last := added[..|added| - 1], added[|added| - 1];
      match InsertAll(t, init, data, at)
      case None => None
      case Some(t') =>
        if !data.Has(last) then Some(t')
        else if ListKey(last, at) in t' then None
        else Some(t'[ListKey(last, at) := Admission(data.Get(last), None)])
  }

  function UpdateList<M>(t: ListTable<M>, list: seq<Address>, data: Source<M>, at: Position): Option<ListTable<M>> {
    InsertAll(CloseMissing(t, list, at), Added(t, list), data, at)
  }

  lemma {:induction false} AddedIs<M>(t: ListTable<M>, list: seq<Address>, a: Address)
    ensures a in Added(t, list) <==> a in list && a !in Listed(t)
  {
    if list != [] {
      AddedIs(t, list[..|list| - 1], a);
      assert list == list[..|list| - 1] + [list[|list| - 1]];
    }
  }

  lemma {:induction false} InsertAllIs<M>(t: ListTable<M>, added: seq<Address>, data: Source<M>, at: Position,
                                          k: ListKey)
    requires InsertAll(t, added, data, at).Some?
    ensures var t' := InsertAll(t, added, data, at).value;
            && (k in t' <==> k in t || (k.admitted == at && k.address in added && data.Has(k.address)))
            && (k in t ==> t'[k] == t[k])
            && (k in t' && k !in t ==> t'[k] == Admission(data.Get(k.address), None))
  {
    if added != [] {
      InsertAllIs(t, added[..|added| - 1], data, at, k);
      assert added == added[..|added| - 1] + [added[|added| - 1]];
    }
  }

  // What one update does to each key.
  lemma {:induction false} UpdateIs<M>(t: ListTable<M>, list: seq<Address>, data: Source<M>, at: Position, k: ListKey)
    requires UpdateList(t, list, data, at).Some?
    ensures var t' := UpdateList(t, list, data, at).value;
            && (k in t ==> k in t' && t'[k] == if t[k].removed.None? && k.address !in list
                                               then t[k].(removed := Some(at)) else t[k])
            && (k !in t ==> (k in t' <==> k.admitted == at && k.address in list && data.Has(k.address)
                                          && k.address !in Listed(t)))
            && (k !in t && k in t' ==> t'[k] == Admission(data.Get(k.address), None))
  {
    InsertAllIs(CloseMissing(t, list, at), Added(t, list), data, at, k);
    AddedIs(t, list, k.address);
  }

  // An update that publishes the list as it stands leaves the table as it stands.
  lemma {:induction false} UpdateStays<M>(t: ListTable<M>, list: seq<Address>, data: Source<M>, at: Position)
    requires UpdateList(t, list, data, at).Some? && forall a :: a in Listed(t) <==> a in list && data.Has(a)
    ensures UpdateList(t, list, data, at).value == t
  {
    var t' := UpdateList(t, list, data, at).value;
    forall k
      ensures k in t' <==> k in t
      ensures k in t ==> t'[k] == t[k]
    {
      UpdateIs(t, list, data, at, k);
      assert k in t && t[k].removed.None? ==> k.address in Listed(t);
    }
    assert t' == t;
  }

  // ---------- the two ways of reading the list of a quarter ----------

  function RemovalQuarter<M>(c: Calendar, a: Admission<M>): Option<nat> {
    if a.removed.None? then None else Some(QuarterOf(c, a.removed.value.epoch))
  }

  // Admitted before quarter q and not removed before it: the filter of the quarters service.
  predicate InForce<M>(c: Calendar, k: ListKey, a: Admission<M>, q: nat) {
    && QuarterOf(c, k.admitted.epoch) < q
    && (RemovalQuarter(c, a).None? || RemovalQuarter(c, a).value >= q)
  }

  predicate ServiceAdmits<M>(c: Calendar, t: ListTable<M>, address: Address, q: nat) {
    exists k :: k in t && k.address == address && InForce(c, k, t[k], q)
  }

  // The price-period function first drops rows removed in the quarter that admitted them,
  predicate OutlivesQuarter<M>(c: Calendar, k: ListKey, a: Admission<M>) {
    RemovalQuarter(c, a).None? || RemovalQuarter(c, a).value > QuarterOf(c, k.admitted.epoch)
  }

  // and keeps the latest row for each address and quarter of admission,
  predicate Kept<M>(c: Calendar, t: ListTable<M>, k: ListKey) {
    && k in t && OutlivesQuarter(c, k, t[k])
    && forall x | x in t && x.address == k.address && OutlivesQuarter(c, x, t[x])
                  && QuarterOf(c, x.admitted.epoch) == QuarterOf(c, k.admitted.epoch) :: x.admitted.AtMost(k.admitted)
  }

  // before applying the same filter to what is left.
  function SqlRows<M>(c: Calendar, t: ListTable<M>, address: Address, q: nat): set<Position> {
    set k | k in t && k.address == address && Kept(c, t, k) && InForce(c, k, t[k], q) :: k.admitted
  }

  predicate SqlAdmits<M>(c: Calendar, t: ListTable<M>, address: Address, q: nat) {
    SqlRows(c, t, address, q) != {}
  }

  // Data of the latest such row.
  function SqlData<M>(c: Calendar, t: ListTable<M>, address: Address, q: nat): Option<M> {
    match Latest(SqlRows(c, t, address, q))
    case None => None
    case Some(p) => Some(t[ListKey(address, p)].data)
  }

  // The join of payments with admitted tokens.
  predicate Covers<M>(k: ListKey, a: Admission<M>, at: Position) {
    k.admitted.AtMost(at) && (a.removed.None? || at.AtMost(a.removed.value))
  }

  // ---------- the list as the log tells it ----------

  datatype Update = Update(at: Position, list: seq<Address>)

  ghost predicate Ordered(us: seq<Update>) {
    forall i, j | 0 <= i < j < |us| :: us[i].at.Before(us[j].at)
  }

  function RunUpdates<M>(us: seq<Update>, data: Source<M>): Option<ListTable<M>> {
    if us == [] then Some(map[])
    else
      var init, last := us[..|us| - 1], us[|us| - 1];
      match RunUpdates(init, data)
      case None => None
      case Some(t) => UpdateList(t, last.list, data, last.at)
  }

  // The last list published before an epoch; none published reads as the empty list.
  function ListBefore(us: seq<Update>, epoch: nat): seq<Address> {
    if us == [] then []
    else
      var init, last := us[..|us| - 1], us[|us| - 1];
      if last.at.epoch < epoch then last.list else ListBefore(init, epoch)
  }

  function BoundOf(us: seq<Update>): Position {
    if us == [] then Position(0, 0) else us[|us| - 1].at.Next()
  }

  function LastList(us: seq<Update>): seq<Address> {
    if us == [] then [] else us[|us| - 1].list
  }

  // ---------- what every table of a run keeps ----------

  // Spans of one address never touch.
  ghost predicate Apart<M>(t: ListTable<M>, k: ListKey, l: ListKey) {
    k in t && l in t && k.address == l.address && k.admitted.Before(l.admitted) ==>
      t[k].removed.Some? && t[k].removed.value.Before(l.admitted)
  }

  ghost predicate Sound<M>(t: ListTable<M>, list: seq<Address>, data: Source<M>, bound: Position) {
    && (forall k | k in t :: k.admitted.Before(bound) && data.Has(k.address) && t[k].data == data.Get(k.address)
                             && (t[k].removed.Some? ==> k.admitted.Before(t[k].removed.value)
                                                        && t[k].removed.value.Before(bound)))
    && (forall a :: a in Listed(t) <==> a in list && data.Has(a))
    && (forall k, l :: Apart(t, k, l))
  }

  lemma {:induction false} UpdateListed<M>(t: ListTable<M>, list: seq<Address>, data: Source<M>, at: Position,
                                           a: Address)
    requires UpdateList(t, list, data, at).Some?
    requires a in Listed(t) ==> data.Has(a)
    ensures a in Listed(UpdateList(t, list, data, at).value) <==> a in list && data.Has(a)
  {
    var t' := UpdateList(t, list, data, at).value;
    if a in Listed(t') {
      var k :| k in t' && t'[k].removed.None? && k.address == a;
      UpdateIs(t, list, data, at, k);
    }
    if a in list && data.Has(a) {
      if a in Listed(t) {
        var k :| k in t && t[k].removed.None? && k.address == a;
        UpdateIs(t, list, data, at, k);
        assert k in t' && t'[k].removed.None?;
      } else if ListKey(a, at) in t && t[ListKey(a, at)].removed.Some? {
        // The key of the new row was free, or the update would have been rejected.
        UpdateIs(t, list, data, at, ListKey(a, at));
        AddedIs(t, list, a);
        TakenKeyRejected(CloseMissing(t, list, at), Added(t, list), data, at, a);
      } else {
        UpdateIs(t, list, data, at, ListKey(a, at));
        assert ListKey(a, at) in t';
      }
    }
  }

  lemma {:induction false} TakenKeyRejected<M>(t: ListTable<M>, added: seq<Address>, data: Source<M>, at: Position,
                                               a: Address)
    requires a in added && data.Has(a) && ListKey(a, at) in t
    ensures InsertAll(t, added, data, at).None?
  {
    assert added == added[..|added| - 1] + [added[|added| - 1]];
    if InsertAll(t, added[..|added| - 1], data, at).Some? {
      InsertAllIs(t, added[..|added| - 1], data, at, ListKey(a, at));
    }
    if a in added[..|added| - 1] {
      TakenKeyRejected(t, added[..|added| - 1], data, at, a);
    }
  }

  // An address with data that a sequence holds twice.
  ghost predicate Repeats<M>(s: seq<Address>, data: Source<M>) {
    exists i, j :: 0 <= i < j < |s| && s[i] == s[j] && data.Has(s[i])
  }

  lemma {:induction false} RepeatsAppend<M>(s: seq<Address>, a: Address, data: Source<M>)
    ensures Repeats(s + [a], data) <==> Repeats(s, data) || (a in s && data.Has(a))
  {
    var longer := s + [a];
    if Repeats(s, data) {
      var i, j :| 0 <= i < j < |s| && s[i] == s[j] && data.Has(s[i]);
      assert longer[i] == longer[j];
    }
    if a in s && data.Has(a) {
      var i :| 0 <= i < |s| && s[i] == a;
      assert longer[i] == longer[|s|];
    }
  }

  lemma {:induction false} InsertAllRejects<M>(t: ListTable<M>, added: seq<Address>, data: Source<M>, at: Position)
    requires forall a :: ListKey(a, at) !in t
    ensures InsertAll(t, added, data, at).None? <==> Repeats(added, data)
  {
    if added != [] {
      var init, last := added[..|added| - 1], added[|added| - 1];
      assert added == init + [last];
      InsertAllRejects(t, init, data, at);
      RepeatsAppend(init, last, data);
      if InsertAll(t, init, data, at).Some? {
        InsertAllIs(t, init, data, at, ListKey(last, at));
      }
    }
  }

  // An update is rejected exactly when it lists a new address twice. Repeating one that is already
  // admitted, or a token without metadata, does no harm.
  lemma {:induction false} UpdateRejected<M>(t: ListTable<M>, earlier: seq<Address>, data: Source<M>, bound: Position,
                                             list: seq<Address>, at: Position)
    requires Sound(t, earlier, data, bound) && bound.AtMost(at)
    ensures UpdateList(t, list, data, at).None? <==> RepeatsNew(t, list, data)
  {
    InsertAllRejects(CloseMissing(t, list, at), Added(t, list), data, at);
    AddedRepeats(t, list, data);
  }

  ghost predicate RepeatsNew<M>(t: ListTable<M>, s: seq<Address>, data: Source<M>) {
    exists i, j :: 0 <= i < j < |s| && s[i] == s[j] && data.Has(s[i]) && s[i] !in Listed(t)
  }

  lemma {:induction false} AddedRepeats<M>(t: ListTable<M>, list: seq<Address>, data: Source<M>)
    ensures Repeats(Added(t, list), data) <==> RepeatsNew(t, list, data)
  {
    if list != [] {
      var init, last := list[..|list| - 1], list[|list| - 1];
      assert list == init + [last];
      AddedRepeats(t, init, data);
      AddedIs(t, init, last);
      RepeatsAppend(Added(t, init), last, data);
      if RepeatsNew(t, init, data) {
        var i, j :| 0 <= i < j < |init| && init[i] == init[j] && data.Has(init[i]) && init[i] !in Listed(t);
        assert list[i] == list[j];
      }
      if last in init && data.Has(last) && last !in Listed(t) {
        var i :| 0 <= i < |init| && init[i] == last;
        assert list[i] == list[|init|];
      }
      if last in Listed(t) {
        assert Added(t, list) == Added(t, init);
      }
    }
  }

  lemma {:induction false} UpdateSound<M>(t: ListTable<M>, earlier: seq<Address>, data: Source<M>, bound: Position,
                                          list: seq<Address>, at: Position)
    requires Sound(t, earlier, data, bound) && bound.AtMost(at)
    requires UpdateList(t, list, data, at).Some?
    ensures Sound(UpdateList(t, list, data, at).value, list, data, at.Next())
  {
    var t' := UpdateList(t, list, data, at).value;
    forall k | k in t'
      ensures k.admitted.Before(at.Next()) && data.Has(k.address) && t'[k].data == data.Get(k.address)
      ensures t'[k].removed.Some? ==> k.admitted.Before(t'[k].removed.value) && t'[k].removed.value.Before(at.Next())
    {
      UpdateIs(t, list, data, at, k);
    }
    forall a
      ensures a in Listed(t') <==> a in list && data.Has(a)
    {
      UpdateListed(t, list, data, at, a);
    }
    forall k, l
      ensures Apart(t', k, l)
    {
      assert Apart(t, k, l);
      UpdateIs(t, list, data, at, k);
      UpdateIs(t, list, data, at, l);
    }
  }

  lemma {:induction false} RunSound<M>(us: seq<Update>, data: Source<M>)
    requires Ordered(us) && RunUpdates(us, data).Some?
    ensures Sound(RunUpdates(us, data).value, LastList(us), data, BoundOf(us))
  {
    if us != [] {
      var init := us[..|us| - 1];
      RunSound(init, data);
      UpdateSound(RunUpdates(init, data).value, LastList(init), data, BoundOf(init), us[|us| - 1].list,
                  us[|us| - 1].at);
    }
  }

  // ---------- history equals snapshot ----------

  // On the list at an epoch boundary: admitted before it and not removed before it.
  ghost predicate OnListAt<M>(t: ListTable<M>, a: Address, epoch: nat) {
    exists k :: k in t && k.address == a && Spanning(k, t[k], epoch)
  }

  predicate Spanning<M>(k: ListKey, r: Admission<M>, epoch: nat) {
    k.admitted.epoch < epoch && (r.removed.None? || r.removed.value.epoch >= epoch)
  }

  lemma {:induction false} SnapshotAtEpoch<M>(us: seq<Update>, data: Source<M>, a: Address, epoch: nat)
    requires Ordered(us) && RunUpdates(us, data).Some?
    ensures OnListAt(RunUpdates(us, data).value, a, epoch) <==> a in ListBefore(us, epoch) && data.Has(a)
  {
    if us != [] {
      var init, last := us[..|us| - 1], us[|us| - 1];
      var t, t' := RunUpdates(init, data).value, RunUpdates(us, data).value;
      RunSound(us, data);
      if last.at.epoch < epoch {
        // Every row of the table begins before the boundary, and every removal precedes it.
        assert OnListAt(t', a, epoch) <==> a in Listed(t') by {
          if k :| k in t' && k.address == a && t'[k].removed.None? {
            assert Spanning(k, t'[k], epoch);
          }
        }
      } else {
        SnapshotAtEpoch(init, data, a, epoch);
        RunSound(init, data);
        LateUpdate(t, last.list, data, last.at, a, epoch);
      }
    }
  }

  // An update at or after an epoch boundary does not change what was on the list at the boundary.
  lemma {:induction false} LateUpdate<M>(t: ListTable<M>, list: seq<Address>, data: Source<M>, at: Position,
                                         a: Address, epoch: nat)
    requires UpdateList(t, list, data, at).Some? && at.epoch >= epoch
    ensures OnListAt(UpdateList(t, list, data, at).value, a, epoch) <==> OnListAt(t, a, epoch)
  {
    var t' := UpdateList(t, list, data, at).value;
    forall k
      ensures (k in t && Spanning(k, t[k], epoch)) <==> (k in t' && Spanning(k, t'[k], epoch))
    {
      UpdateIs(t, list, data, at, k);
    }
  }

  lemma {:induction false} InForceIsSpanning<M>(c: Calendar, k: ListKey, r: Admission<M>, q: nat)
    requires q >= 1
    ensures InForce(c, k, r, q) <==> Spanning(k, r, QuarterStart(c, q))
  {
    QuarterBefore(c, k.admitted.epoch, q);
    if r.removed.Some? {
      QuarterBefore(c, r.removed.value.epoch, q);
    }
  }

  // The quarters service reports, for quarter q, exactly the last list published before q begins.
  lemma {:induction false} ServiceReadsSnapshot<M>(c: Calendar, us: seq<Update>, data: Source<M>, a: Address, q: nat)
    requires Ordered(us) && RunUpdates(us, data).Some? && q >= 1
    ensures ServiceAdmits(c, RunUpdates(us, data).value, a, q) <==>
            a in ListBefore(us, QuarterStart(c, q)) && data.Has(a)
  {
    var t := RunUpdates(us, data).value;
    SnapshotAtEpoch(us, data, a, QuarterStart(c, q));
    forall k | k in t
      ensures InForce(c, k, t[k], q) <==> Spanning(k, t[k], QuarterStart(c, q))
    {
      InForceIsSpanning(c, k, t[k], q);
    }
  }

  // A row in force is never dropped by the quarter-wise deduplication.
  lemma {:induction false} InForceIsKept<M>(c: Calendar, t: ListTable<M>, k: ListKey, q: nat)
    requires forall x, y :: Apart(t, x, y)
    requires k in t && InForce(c, k, t[k], q)
    ensures Kept(c, t, k)
  {
    forall x | x in t && x.address == k.address && QuarterOf(c, x.admitted.epoch) == QuarterOf(c, k.admitted.epoch)
      ensures x.admitted.AtMost(k.admitted)
    {
      if k.admitted.Before(x.admitted) {
        assert Apart(t, k, x);
        QuarterMonotone(c, t[k].removed.value.epoch, x.admitted.epoch);
        assert false;
      }
    }
  }

  // At most one row of an address is in force, so the price-period function reads the same list and
  // the data of that row.
  lemma {:induction false} SqlReadsService<M>(c: Calendar, t: ListTable<M>, a: Address, q: nat)
    requires forall x, y :: Apart(t, x, y)
    ensures SqlAdmits(c, t, a, q) <==> ServiceAdmits(c, t, a, q)
    ensures forall k | k in t && k.address == a && InForce(c, k, t[k], q) :: SqlRows(c, t, a, q) == {k.admitted}
  {
    if k :| k in t && k.address == a && InForce(c, k, t[k], q) {
      InForceIsKept(c, t, k, q);
      assert k.admitted in SqlRows(c, t, a, q);
    }
    forall k, l | k in t && l in t && k.address == l.address == a && InForce(c, k, t[k], q) && InForce(c, l, t[l], q)
      ensures k == l
    {
      OneInForce(c, t, k, l, q);
    }
    forall k | k in t && k.address == a && InForce(c, k, t[k], q)
      ensures SqlRows(c, t, a, q) == {k.admitted}
    {
      InForceIsKept(c, t, k, q);
      assert k.admitted in SqlRows(c, t, a, q);
    }
  }

  lemma {:induction false} OneInForce<M>(c: Calendar, t: ListTable<M>, k: ListKey, l: ListKey, q: nat)
    requires forall x, y :: Apart(t, x, y)
    requires k in t && l in t && k.address == l.address && InForce(c, k, t[k], q) && InForce(c, l, t[l], q)
    ensures k == l
  {
    if k.admitted.Before(l.admitted) {
      assert Apart(t, k, l);
      QuarterMonotone(c, t[k].removed.value.epoch, l.admitted.epoch);
    } else if l.admitted.Before(k.admitted) {
      assert Apart(t, l, k);
      QuarterMonotone(c, t[l].removed.value.epoch, k.admitted.epoch);
    }
  }

  // Both readings of the list of quarter q are the last list published before q begins.
  lemma {:induction false} SqlReadsSnapshot<M>(c: Calendar, us: seq<Update>, data: Source<M>, a: Address, q: nat)
    requires Ordered(us) && RunUpdates(us, data).Some? && q >= 1
    ensures SqlData(c, RunUpdates(us, data).value, a, q) ==
            if a in ListBefore(us, QuarterStart(c, q)) && data.Has(a) then Some(data.Get(a)) else None
  {
    var t := RunUpdates(us, data).value;
    RunSound(us, data);
    SqlReadsService(c, t, a, q);
    ServiceReadsSnapshot(c, us, data, a, q);
    if k :| k in t && k.address == a && InForce(c, k, t[k], q) {
      LatestIs(SqlRows(c, t, a, q), k.admitted);
    }
  }

  // The join of payments with admitted tokens never finds two rows for a payment.
  lemma {:induction false} JoinFindsOne<M>(us: seq<Update>, data: Source<M>, k: ListKey, l: ListKey, at: Position)
    requires Ordered(us) && RunUpdates(us, data).Some?
    requires var t := RunUpdates(us, data).value;
             k in t && l in t && k.address == l.address && Covers(k, t[k], at) && Covers(l, t[l], at)
    ensures k == l
  {
    var t := RunUpdates(us, data).value;
    RunSound(us, data);
    assert Apart(t, k, l) && Apart(t, l, k);
  }

  // The last list published before a position.
  function ListUpTo(us: seq<Update>, p: Position): seq<Address> {
    if us == [] then []
    else
      var init, last := us[..|us| - 1], us[|us| - 1];
      if last.at.Before(p) then last.list else ListUpTo(init, p)
  }

  ghost predicate JoinsAt<M>(t: ListTable<M>, a: Address, p: Position) {
    exists k :: k in t && k.address == a && Covers(k, t[k], p)
  }

  // The last list published at a position or before it.
  function ListThrough(us: seq<Update>, p: Position): seq<Address> {
    if us == [] then []
    else
      var init, last := us[..|us| - 1], us[|us| - 1];
      if last.at.AtMost(p) then last.list else ListThrough(init, p)
  }

  // On the list at a position. The position of an update belongs to the list before it and to its own.
  ghost predicate ListedAt(us: seq<Update>, a: Address, p: Position) {
    a in ListUpTo(us, p) || a in ListThrough(us, p)
  }

  // The join finds a row exactly for the addresses on the list at the position of the payment.
  lemma {:induction false} SnapshotAtPosition<M>(us: seq<Update>, data: Source<M>, a: Address, p: Position)
    requires Ordered(us) && RunUpdates(us, data).Some?
    ensures JoinsAt(RunUpdates(us, data).value, a, p) <==> ListedAt(us, a, p) && data.Has(a)
  {
    if us != [] {
      var init, last := us[..|us| - 1], us[|us| - 1];
      var t, t' := RunUpdates(init, data).value, RunUpdates(us, data).value;
      RunSound(init, data);
      RunSound(us, data);
      if last.at.Before(p) {
        // Every row begins before the position, and every removal precedes it.
        assert JoinsAt(t', a, p) <==> a in Listed(t') by {
          if k :| k in t' && k.address == a && t'[k].removed.None? {
            assert Covers(k, t'[k], p);
          }
        }
      } else if last.at == p {
        ListBeforeLast(us);
        UpdateJoins(t, last.list, data, last.at, a, BoundOf(init));
      } else {
        SnapshotAtPosition(init, data, a, p);
        LateUpdateJoins(t, last.list, data, last.at, a, p);
      }
    }
  }

  lemma {:induction false} ListBeforeLast(us: seq<Update>)
    requires Ordered(us) && us != []
    ensures ListUpTo(us, us[|us| - 1].at) == LastList(us[..|us| - 1])
  {
    var init := us[..|us| - 1];
    if init != [] {
      assert us[|us| - 2].at.Before(us[|us| - 1].at);
    }
  }

  // At the position of an update the join finds what was listed before it and what is listed by it.
  lemma {:induction false} UpdateJoins<M>(t: ListTable<M>, list: seq<Address>, data: Source<M>, at: Position,
                                          a: Address, bound: Position)
    requires UpdateList(t, list, data, at).Some? && bound.AtMost(at)
    requires forall k | k in t :: k.admitted.Before(bound) && (t[k].removed.Some? ==> t[k].removed.value.Before(bound))
    ensures var t' := UpdateList(t, list, data, at).value;
            JoinsAt(t', a, at) <==> a in Listed(t) || a in Listed(t')
  {
    var t' := UpdateList(t, list, data, at).value;
    forall k
      ensures k in t' && Covers(k, t'[k], at) <==>
              (k in t && t[k].removed.None?) || (k in t' && t'[k].removed.None?)
    {
      UpdateIs(t, list, data, at, k);
    }
    if k :| k in t && k.address == a && t[k].removed.None? {
      assert Covers(k, t'[k], at);
    }
    if k :| k in t' && k.address == a && t'[k].removed.None? {
      assert Covers(k, t'[k], at);
    }
  }

  lemma {:induction false} LateUpdateJoins<M>(t: ListTable<M>, list: seq<Address>, data: Source<M>, at: Position,
                                              a: Address, p: Position)
    requires UpdateList(t, list, data, at).Some? && p.Before(at)
    ensures JoinsAt(UpdateList(t, list, data, at).value, a, p) <==> JoinsAt(t, a, p)
  {
    var t' := UpdateList(t, list, data, at).value;
    forall k
      ensures (k in t && Covers(k, t[k], p)) <==> (k in t' && Covers(k, t'[k], p))
    {
      UpdateIs(t, list, data, at, k);
    }
  }
}
