// The rows of `service_pair` that belong to one (payer, operator) pair, keyed by the position
// from which they apply, and what each event does to them.
module Bindings {
  import opened Wrappers
  import opened Positions
  import opened Calendars
  import opened Events

  datatype Binding = Binding(
    orchestrator: Address, to: Option<Position>, bindingEpoch: nat, unbindingEpoch: Option<nat>)
  {
    predicate Open() {
      to.None?
    }

    predicate HeldBy(orch: Address) {
      to.None? && orchestrator == orch
    }

    // The predicate with which payments are matched to rows.
    predicate Covers(from: Position, at: Position) {
      from.AtMost(at) && (to.None? || at.AtMost(to.value))
    }

    function Close(at: Position): Binding {
      this.(to := Some(at), unbindingEpoch := Some(at.epoch))
    }
  }

  // A row closed before the position it was to apply from. It covers nothing.
  predicate Inverted(from: Position, b: Binding) {
    b.to.Some? && b.to.value.Before(from)
  }

  type History = map<Position, Binding>

  // ---------- what a statement does to a row ----------

  // A release deletes a binding that has not begun,
  predicate Unstarted(f: Position, b: Binding, orch: Address, at: Position) {
    b.HeldBy(orch) && at.Before(f)
  }

  // and closes any other.
  function Released(b: Binding, orch: Address, at: Position): Binding {
    if b.HeldBy(orch) then b.Close(at) else b
  }

  // Rows handed over by the first UPDATE of an inheriting reassignment,
  predicate Inheritable(f: Position, b: Binding, quarterStart: nat) {
    b.Open() && f.epoch >= quarterStart
  }

  function HandedOver(f: Position, b: Binding, orch: Address, quarterStart: nat): Binding {
    if Inheritable(f, b, quarterStart) then b.(orchestrator := orch) else b
  }

  // and those closed by the second, or by a reassignment that does not inherit.
  function Displaced(f: Position, b: Binding, inherit: bool, quarterStart: nat, at: Position): Binding {
    if b.Open() && (inherit ==> f.epoch < quarterStart) then b.Close(at) else b
  }

  function Declared(orch: Address, at: Position): Binding {
    Binding(orch, None, at.epoch, None)
  }

  // ---------- table operations, as the rows of one pair see them ----------

  function Release(h: History, orch: Address, at: Position): History {
    map f | f in h && !Unstarted(f, h[f], orch, at) :: Released(h[f], orch, at)
  }

  function Insert(h: History, from: Position, orch: Address, at: Position): Option<History> {
    if from in h then None
    else Some(h[from := Declared(orch, at)])
  }

  function CloseOpen(h: History, inherit: bool, quarterStart: nat, at: Position): History {
    map f | f in h :: Displaced(f, h[f], inherit, quarterStart, at)
  }

  // None when the new row's primary key is already taken.
  function Reassign(h: History, orch: Address, inherit: bool, quarterStart: nat, at: Position): Option<History> {
    if inherit && exists f :: f in h && Inheritable(f, h[f], quarterStart) then
      Some(map f | f in h :: HandedOver(f, h[f], orch, quarterStart))
    else
      Insert(CloseOpen(h, inherit, quarterStart, at), at.Next(), orch, at)
  }

  function Releases(h: History): set<Position> {
    set f | f in h && h[f].to.Some? :: h[f].to.value
  }

  function LastRelease(h: History): Option<Position> {
    Latest(Releases(h))
  }

  datatype DeclareError = AlreadyBound | ReleasedInFuture | NoRegistrationCutoff | CutoffTooLong

  // Position from which a declared binding applies, after the checks that can reject it.
  function BindingStart(c: Calendar, h: History, cutoff: Option<nat>, at: Position): Result<Position, DeclareError> {
    var quarter := QuarterOf(c, at.epoch);
    var release := LastRelease(h);
    var quarterStart := QuarterStart(c, quarter);
    var quarterEnd := quarterStart + c.epochsPerQuarter - 1;
    if exists f :: f in h && h[f].Open() then Failure(AlreadyBound)
    else if release.Some? && (release.value.epoch > at.epoch
                              || (release.value.epoch == at.epoch && release.value.logIndex >= at.logIndex)) then
      Failure(ReleasedInFuture)
    else if quarter >= 1 && cutoff.None? then Failure(NoRegistrationCutoff)
    else if quarter >= 1 && cutoff.value > c.epochsPerQuarter then Failure(CutoffTooLong)
    else
      var cutoffStart := if quarter >= 1 then quarterEnd - cutoff.value + 1 else quarterEnd + 1;
      if at.epoch >= cutoffStart then Success(Position(quarterEnd + 1, 0))
      else if release.None? || QuarterOf(c, release.value.epoch) != quarter then Success(Position(quarterStart, 0))
      else Success(Position(release.value.epoch, release.value.logIndex + 1))
  }

  predicate QuarterEdge(c: Calendar, f: Position) {
    f.logIndex == 0 && f.epoch >= c.activationEpoch
  }

  // ---------- disjointness and the owner of a position ----------

  ghost predicate Disjoint(h: History) {
    forall f, g, p | f in h && g in h && h[f].Covers(f, p) && h[g].Covers(g, p) :: f == g
  }

  ghost function Owner(h: History, p: Position): Option<Address> {
    if exists f :: f in h && h[f].Covers(f, p) then
      var f :| f in h && h[f].Covers(f, p);
      Some(h[f].orchestrator)
    else None
  }

  lemma OwnerIs(h: History, f: Position, p: Position)
    requires Disjoint(h) && f in h && h[f].Covers(f, p)
    ensures Owner(h, p) == Some(h[f].orchestrator)
  {
  }

  ghost predicate CoveredBy(h: History, f: Position, p: Position, orch: Address) {
    f in h && h[f].Covers(f, p) && h[f].orchestrator == orch
  }

  // Two disjoint histories that cover a position alike give it the same owner.
  lemma {:induction false} SameOwner(h: History, h': History, p: Position)
    requires Disjoint(h) && Disjoint(h')
    requires forall f, o :: CoveredBy(h, f, p, o) <==> CoveredBy(h', f, p, o)
    ensures Owner(h', p) == Owner(h, p)
  {
    if f :| f in h && h[f].Covers(f, p) {
      assert CoveredBy(h, f, p, h[f].orchestrator);
      assert CoveredBy(h', f, p, h[f].orchestrator);
    } else if f :| f in h' && h'[f].Covers(f, p) {
      assert CoveredBy(h', f, p, h'[f].orchestrator);
    }
  }

  // What one event does to the rows of one pair. None when it is rejected.
  function StepHistory(c: Calendar, h: History, pair: Pair, cutoff: Option<nat>, e: Event,
                       at: Position): Option<History> {
    match e
    case BindingDeclared(p, o) =>
      if p != pair then Some(h)
      else
        var start := BindingStart(c, h, cutoff, at);
        if start.Success? then Insert(h, start.value, o, at) else None
    case BindingReassigned(p, o, inherit) =>
      if p == pair then Reassign(h, o, inherit, QuarterStart(c, QuarterOf(c, at.epoch)), at) else Some(h)
    case BindingCanceled(p, o) =>
      if p == pair then Some(Release(h, o, at)) else Some(h)
    case OrchestratorRemoved(o) => Some(Release(h, o, at))
    case _ => Some(h)
  }
}
