// The whole `service_pair` table, keyed by its primary key, and the rows of one pair in it.
module PairTables {
  import opened Wrappers
  import opened Positions
  import opened Events
  import opened Bindings

  datatype PairKey = PairKey(pair: Pair, from: Position)

  type PairTable = map<PairKey, Binding>

  function View(t: PairTable, pair: Pair): History {
    map k | k in t && k.pair == pair :: k.from := t[k]
  }

  // ---------- what the statements of each handler do to the table ----------

  function CancelRows(t: PairTable, pair: Pair, orch: Address, at: Position): PairTable {
    map k | k in t && !(k.pair == pair && Unstarted(k.from, t[k], orch, at))
      :: if k.pair == pair then Released(t[k], orch, at) else t[k]
  }

  function RemoveRows(t: PairTable, orch: Address, at: Position): PairTable {
    map k | k in t && !Unstarted(k.from, t[k], orch, at) :: Released(t[k], orch, at)
  }

  function InsertRow(t: PairTable, pair: Pair, from: Position, orch: Address, at: Position): Option<PairTable> {
    if PairKey(pair, from) in t then None
    else Some(t[PairKey(pair, from) := Declared(orch, at)])
  }

  function CloseRows(t: PairTable, pair: Pair, inherit: bool, quarterStart: nat, at: Position): PairTable {
    map k | k in t :: if k.pair == pair then Displaced(k.from, t[k], inherit, quarterStart, at) else t[k]
  }

  predicate InheritableRow(k: PairKey, b: Binding, pair: Pair, quarterStart: nat) {
    k.pair == pair && Inheritable(k.from, b, quarterStart)
  }

  predicate AnyInheritable(t: PairTable, pair: Pair, quarterStart: nat) {
    exists k :: k in t && InheritableRow(k, t[k], pair, quarterStart)
  }

  function TakeOver(t: PairTable, pair: Pair, orch: Address, quarterStart: nat): PairTable {
    map k | k in t :: if k.pair == pair then HandedOver(k.from, t[k], orch, quarterStart) else t[k]
  }

  function ReassignTable(t: PairTable, pair: Pair, orch: Address, inherit: bool, quarterStart: nat,
                         at: Position): Option<PairTable> {
    if inherit && AnyInheritable(t, pair, quarterStart) then
      Some(TakeOver(t, pair, orch, quarterStart))
    else
      InsertRow(CloseRows(t, pair, inherit, quarterStart, at), pair, at.Next(), orch, at)
  }

  // ---------- each acts on the rows of one pair at a time ----------

  lemma ViewCancel(t: PairTable, pair: Pair, orch: Address, at: Position, other: Pair)
    ensures View(CancelRows(t, pair, orch, at), other) ==
            if other == pair then Release(View(t, other), orch, at) else View(t, other)
  {
  }

  lemma ViewRemove(t: PairTable, orch: Address, at: Position, other: Pair)
    ensures View(RemoveRows(t, orch, at), other) == Release(View(t, other), orch, at)
  {
  }

  lemma {:induction false} ViewInsert(t: PairTable, pair: Pair, from: Position, orch: Address, at: Position,
                                      other: Pair)
    ensures var r := InsertRow(t, pair, from, orch, at);
            && (r.None? <==> Insert(View(t, pair), from, orch, at).None?)
            && (r.Some? ==> View(r.value, other) ==
                            if other == pair then Insert(View(t, other), from, orch, at).value else View(t, other))
  {
    assert from in View(t, pair) <==> PairKey(pair, from) in t;
  }

  lemma ViewClose(t: PairTable, pair: Pair, inherit: bool, quarterStart: nat, at: Position, other: Pair)
    ensures View(CloseRows(t, pair, inherit, quarterStart, at), other) ==
            if other == pair then CloseOpen(View(t, other), inherit, quarterStart, at) else View(t, other)
  {
  }

  lemma {:induction false} ViewInheritable(t: PairTable, pair: Pair, quarterStart: nat)
    ensures var h := View(t, pair);
            AnyInheritable(t, pair, quarterStart) <==> exists f :: f in h && Inheritable(f, h[f], quarterStart)
  {
    var h := View(t, pair);
    if k :| k in t && InheritableRow(k, t[k], pair, quarterStart) {
      assert k.from in h && Inheritable(k.from, h[k.from], quarterStart);
    }
    if f :| f in h && Inheritable(f, h[f], quarterStart) {
      assert InheritableRow(PairKey(pair, f), t[PairKey(pair, f)], pair, quarterStart);
    }
  }

  lemma ViewTakeOver(t: PairTable, pair: Pair, orch: Address, quarterStart: nat, other: Pair)
    ensures var h := View(t, other);
            View(TakeOver(t, pair, orch, quarterStart), other) ==
            if other == pair
            then map f | f in h :: HandedOver(f, h[f], orch, quarterStart)
            else h
  {
  }

  lemma {:induction false} ViewReassign(t: PairTable, pair: Pair, orch: Address, inherit: bool, quarterStart: nat,
                                        at: Position, other: Pair)
    ensures var r := ReassignTable(t, pair, orch, inherit, quarterStart, at);
            && (r.None? <==> Reassign(View(t, pair), orch, inherit, quarterStart, at).None?)
            && (r.Some? ==> View(r.value, other) ==
                            if other == pair then Reassign(View(t, other), orch, inherit, quarterStart, at).value
                            else View(t, other))
  {
    ViewInheritable(t, pair, quarterStart);
    if inherit && AnyInheritable(t, pair, quarterStart) {
      ViewTakeOver(t, pair, orch, quarterStart, other);
    } else {
      var closed := CloseRows(t, pair, inherit, quarterStart, at);
      ViewClose(t, pair, inherit, quarterStart, at, pair);
      ViewClose(t, pair, inherit, quarterStart, at, other);
      ViewInsert(closed, pair, at.Next(), orch, at, pair);
      ViewInsert(closed, pair, at.Next(), orch, at, other);
    }
  }
}
