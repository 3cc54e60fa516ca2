// Who owns each position of a pair, told by the log alone: every event repaints a suffix of the
// positions, and the owner of a position is the last event that painted it.
module OwnershipSpec {
  import opened Wrappers
  import opened Positions
  import opened Calendars
  import opened Events
  import opened Parameters

  datatype Tenure = Vacant | Held(start: Position, holder: Address)

  // What later events need to know about a pair.
  datatype Standing = Standing(tenure: Tenure, lastRelease: Option<Position>)

  datatype Effect = Keep | Assign(from: Position, orch: Address) | Clear(after: Position)

  function Later(p: Position, q: Position): Position {
    if p.Before(q) then q else p
  }

  // The registration cutoff in force when a quarter begins: the last update before it.
  ghost function CutoffAt(logs: seq<Log<Event>>, before: nat): Option<nat> {
    ParamAt(logs, RegistrationCutoffEpochs, before)
  }

  // A declaration in the closing epochs of a quarter counts from the next quarter.
  predicate InCutoff(c: Calendar, cutoff: Option<nat>, at: Position) {
    var q := QuarterOf(c, at.epoch);
    q >= 1 && cutoff.Some? && at.epoch + cutoff.value >= QuarterStart(c, q + 1)
  }

  // Otherwise it covers back to the start of the quarter, or to the last release if that is later;
  // before activation a release always wins over the start of quarter 1.
  function DeclaredStart(c: Calendar, cutoff: Option<nat>, lastRelease: Option<Position>, at: Position): Position {
    var q := QuarterOf(c, at.epoch);
    if InCutoff(c, cutoff, at) then Position(QuarterStart(c, q + 1), 0)
    else if lastRelease.None? then Position(QuarterStart(c, q), 0)
    else if q == 0 then lastRelease.value.Next()
    else Later(Position(QuarterStart(c, q), 0), lastRelease.value.Next())
  }

  // An inheriting reassignment takes over the whole span of a binding that began in or after the
  // quarter of the event.
  predicate TakesOver(c: Calendar, s: Standing, inherit: bool, at: Position) {
    inherit && s.tenure.Held? && s.tenure.start.epoch >= QuarterStart(c, QuarterOf(c, at.epoch))
  }

  predicate Vacates(s: Standing, orch: Address) {
    s.tenure.Held? && s.tenure.holder == orch
  }

  function EffectOf(c: Calendar, pair: Pair, cutoff: Option<nat>, s: Standing, e: Event, at: Position): Effect {
    match e
    case BindingDeclared(p, o) =>
      if p == pair then Assign(DeclaredStart(c, cutoff, s.lastRelease, at), o) else Keep
    case BindingReassigned(p, o, inherit) =>
      if p != pair then Keep
      else if TakesOver(c, s, inherit, at) then Assign(s.tenure.start, o)
      else Assign(at.Next(), o)
    case BindingCanceled(p, o) =>
      if p == pair && Vacates(s, o) then Clear(at) else Keep
    case OrchestratorRemoved(o) =>
      if Vacates(s, o) then Clear(at) else Keep
    case _ => Keep
  }

  function StandingAfter(effect: Effect, s: Standing, at: Position): Standing {
    match effect
    case Keep => s
    case Clear(_) =>
      Standing(Vacant, if s.tenure.Held? && s.tenure.start.AtMost(at) then Some(at) else s.lastRelease)
    case Assign(from, o) =>
      // The holder gives way at the event unless the new one takes over its very span.
      Standing(Held(from, o), if s.tenure.Held? && s.tenure.start != from then Some(at) else s.lastRelease)
  }

  function Paint(effect: Effect, p: Position, owner: Option<Address>): Option<Address> {
    match effect
    case Keep => owner
    case Assign(from, o) => if from.AtMost(p) then Some(o) else owner
    case Clear(after) => if after.Before(p) then None else owner
  }

  const INITIAL := Standing(Vacant, None)

  ghost function SpecStanding(c: Calendar, pair: Pair, logs: seq<Log<Event>>): Standing {
    if logs == [] then INITIAL
    else
      var n := |logs| - 1;
      var s := SpecStanding(c, pair, logs[..n]);
      StandingAfter(SpecEffect(c, pair, logs[..n], s, logs[n]), s, logs[n].At())
  }

  ghost function SpecEffect(c: Calendar, pair: Pair, before: seq<Log<Event>>, s: Standing, log: Log<Event>): Effect {
    var cutoff := CutoffAt(before, QuarterStart(c, QuarterOf(c, log.block)));
    EffectOf(c, pair, cutoff, s, log.event, log.At())
  }

  ghost function SpecOwner(c: Calendar, pair: Pair, logs: seq<Log<Event>>, p: Position): Option<Address> {
    if logs == [] then None
    else
      var n := |logs| - 1;
      var effect := SpecEffect(c, pair, logs[..n], SpecStanding(c, pair, logs[..n]), logs[n]);
      Paint(effect, p, SpecOwner(c, pair, logs[..n], p))
  }
}
