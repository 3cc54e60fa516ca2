// Each event keeps the rows of a pair in order and repaints the owner function as the log
// specification says.
module BindingRefinement {
  import opened Wrappers
  import opened Positions
  import opened Calendars
  import opened Events
  import opened Bindings
  import opened OwnershipSpec

  // ---------- what every history keeps ----------

  predicate Current(s: Standing, f: Position) {
    s.tenure.Held? && f == s.tenure.start
  }

  // A row that is no longer open: released in the past; inverted only if it was to begin with a quarter.
  predicate Past(c: Calendar, f: Position, b: Binding, bound: Position) {
    b.to.Some? && b.to.value.Before(bound) && (Inverted(f, b) ==> QuarterEdge(c, f))
  }

  // A closed row that covers some position.
  predicate Spans(f: Position, b: Binding) {
    b.to.Some? && !Inverted(f, b)
  }

  // Closed rows that cover anything follow one another.
  ghost predicate Follows(h: History, f: Position, g: Position) {
    (f in h && g in h && f.Before(g) && Spans(f, h[f]) && Spans(g, h[g])) ==> h[f].to.value.Before(g)
  }

  ghost predicate Orderly(h: History) {
    forall f, g :: Follows(h, f, g)
  }

  // The rows of a pair realise its standing. `bound` lies beyond every event processed so far.
  ghost predicate Realises(c: Calendar, h: History, s: Standing, bound: Position) {
    && (s.tenure.Held? ==>
          && s.tenure.start in h && h[s.tenure.start].HeldBy(s.tenure.holder)
          && (s.lastRelease.Some? ==> s.lastRelease.value.Before(s.tenure.start))
          && (s.tenure.start.AtMost(bound) || QuarterEdge(c, s.tenure.start)))
    && (forall f | f in h && !Current(s, f) :: Past(c, f, h[f], bound))
    && Orderly(h)
    && s.lastRelease == LastRelease(h)
  }

  lemma {:induction false} ReleasesBounded(c: Calendar, h: History, s: Standing, bound: Position)
    requires Realises(c, h, s, bound)
    ensures s.lastRelease.Some? ==> s.lastRelease.value.Before(bound)
    ensures forall f | f in h && !Current(s, f) :: s.lastRelease.Some? && h[f].to.value.AtMost(s.lastRelease.value)
  {
    forall f | f in h && !Current(s, f)
      ensures s.lastRelease.Some? && h[f].to.value.AtMost(s.lastRelease.value)
    {
      assert h[f].to.value in Releases(h);
    }
  }

  lemma {:induction false} RealisesDisjoint(c: Calendar, h: History, s: Standing, bound: Position)
    requires Realises(c, h, s, bound)
    ensures Disjoint(h)
  {
    ReleasesBounded(c, h, s, bound);
    forall f, g, p | f in h && g in h && h[f].Covers(f, p) && h[g].Covers(g, p)
      ensures f == g
    {
      assert Follows(h, f, g) && Follows(h, g, f);
    }
  }

  // Two histories with the same releases have the same last one.
  lemma {:induction false} SameReleases(h: History, h': History)
    requires forall f | f in h && h[f].to.Some? :: f in h' && h'[f].to == h[f].to
    requires forall f | f in h' && h'[f].to.Some? :: f in h && h[f].to == h'[f].to
    ensures LastRelease(h') == LastRelease(h)
  {
    assert Releases(h') == Releases(h);
  }

  // ---------- closing the current row ----------

  function CloseRow(h: History, f: Position, at: Position): History
    requires f in h
  {
    h[f := h[f].Close(at)]
  }

  lemma {:induction false} CloseRealises(c: Calendar, h: History, s: Standing, bound: Position, at: Position)
    requires Realises(c, h, s, bound) && bound.AtMost(at) && s.tenure.Held?
    ensures Realises(c, CloseRow(h, s.tenure.start, at), Standing(Vacant, Some(at)), at.Next())
  {
    var start := s.tenure.start;
    var h' := CloseRow(h, start, at);
    ReleasesBounded(c, h, s, bound);
    forall f, g
      ensures Follows(h', f, g)
    {
      assert Follows(h, f, g);
    }
    assert h'[start].to == Some(at);
    assert at in Releases(h');
    forall x | x in Releases(h')
      ensures x.AtMost(at)
    {
      var f :| f in h' && h'[f].to == Some(x);
    }
    LatestIs(Releases(h'), at);
  }

  lemma {:induction false} CloseOwner(c: Calendar, h: History, s: Standing, bound: Position, at: Position, p: Position)
    requires Realises(c, h, s, bound) && bound.AtMost(at) && s.tenure.Held?
    ensures Owner(CloseRow(h, s.tenure.start, at), p) == Paint(Clear(at), p, Owner(h, p))
  {
    var h' := CloseRow(h, s.tenure.start, at);
    CloseRealises(c, h, s, bound, at);
    RealisesDisjoint(c, h, s, bound);
    RealisesDisjoint(c, h', Standing(Vacant, Some(at)), at.Next());
    if at.Before(p) {
      forall f | f in h'
        ensures !h'[f].Covers(f, p)
      {
        assert Past(c, f, h'[f], at.Next());
      }
    } else {
      SameOwner(h, h', p);
    }
  }

  // ---------- deleting a row that has not begun ----------

  lemma {:induction false} DropRealises(c: Calendar, h: History, s: Standing, bound: Position, at: Position)
    requires Realises(c, h, s, bound) && bound.AtMost(at) && s.tenure.Held? && at.Before(s.tenure.start)
    ensures Realises(c, h - {s.tenure.start}, Standing(Vacant, s.lastRelease), at.Next())
  {
    var h' := h - {s.tenure.start};
    SameReleases(h, h');
    forall f, g
      ensures Follows(h', f, g)
    {
      assert Follows(h, f, g);
    }
  }

  lemma {:induction false} DropOwner(c: Calendar, h: History, s: Standing, bound: Position, at: Position, p: Position)
    requires Realises(c, h, s, bound) && bound.AtMost(at) && s.tenure.Held? && at.Before(s.tenure.start)
    ensures Owner(h - {s.tenure.start}, p) == Paint(Clear(at), p, Owner(h, p))
  {
    var h' := h - {s.tenure.start};
    DropRealises(c, h, s, bound, at);
    RealisesDisjoint(c, h, s, bound);
    RealisesDisjoint(c, h', Standing(Vacant, s.lastRelease), at.Next());
    if at.Before(p) {
      forall f | f in h'
        ensures !h'[f].Covers(f, p)
      {
        assert Past(c, f, h[f], bound);
      }
    } else {
      SameOwner(h, h', p);
    }
  }

  // ---------- handing the current row to another orchestrator ----------

  function Rename(h: History, f: Position, orch: Address): History
    requires f in h
  {
    h[f := h[f].(orchestrator := orch)]
  }

  lemma {:induction false} RenameRealises(c: Calendar, h: History, s: Standing, bound: Position, orch: Address,
                                          at: Position)
    requires Realises(c, h, s, bound) && bound.AtMost(at) && s.tenure.Held?
    ensures Realises(c, Rename(h, s.tenure.start, orch), Standing(Held(s.tenure.start, orch), s.lastRelease), at.Next())
  {
    var h' := Rename(h, s.tenure.start, orch);
    SameReleases(h, h');
    forall f, g
      ensures Follows(h', f, g)
    {
      assert Follows(h, f, g);
    }
  }

  lemma {:induction false} RenameOwner(c: Calendar, h: History, s: Standing, bound: Position, orch: Address,
                                       at: Position, p: Position)
    requires Realises(c, h, s, bound) && bound.AtMost(at) && s.tenure.Held?
    ensures Owner(Rename(h, s.tenure.start, orch), p) == Paint(Assign(s.tenure.start, orch), p, Owner(h, p))
  {
    var f := s.tenure.start;
    var h' := Rename(h, f, orch);
    RenameRealises(c, h, s, bound, orch, at);
    RealisesDisjoint(c, h, s, bound);
    RealisesDisjoint(c, h', Standing(Held(f, orch), s.lastRelease), at.Next());
    if f.AtMost(p) {
      OwnerIs(h', f, p);
    } else {
      SameOwner(h, h', p);
    }
  }

  // ---------- opening a row ----------

  // A row may be opened at `from` when nothing is open and everything was released before.
  predicate Openable(c: Calendar, s: Standing, from: Position, at: Position) {
    && s.tenure.Vacant?
    && (s.lastRelease.Some? ==> s.lastRelease.value.Before(from))
    && (from.AtMost(at.Next()) || QuarterEdge(c, from))
  }

  lemma {:induction false} OpenRealises(c: Calendar, h: History, s: Standing, bound: Position, from: Position,
                                        orch: Address, at: Position)
    requires Realises(c, h, s, bound) && bound.AtMost(at.Next()) && Openable(c, s, from, at) && from !in h
    ensures Realises(c, h[from := Declared(orch, at)], Standing(Held(from, orch), s.lastRelease), at.Next())
  {
    var h' := h[from := Declared(orch, at)];
    SameReleases(h, h');
    forall f, g
      ensures Follows(h', f, g)
    {
      assert Follows(h, f, g);
    }
  }

  lemma {:induction false} OpenOwner(c: Calendar, h: History, s: Standing, bound: Position, from: Position,
                                     orch: Address, at: Position, p: Position)
    requires Realises(c, h, s, bound) && bound.AtMost(at.Next()) && Openable(c, s, from, at) && from !in h
    ensures Owner(h[from := Declared(orch, at)], p) == Paint(Assign(from, orch), p, Owner(h, p))
  {
    var h' := h[from := Declared(orch, at)];
    OpenRealises(c, h, s, bound, from, orch, at);
    RealisesDisjoint(c, h, s, bound);
    RealisesDisjoint(c, h', Standing(Held(from, orch), s.lastRelease), at.Next());
    if from.AtMost(p) {
      OwnerIs(h', from, p);
    } else {
      SameOwner(h, h', p);
    }
  }

  // ---------- cancellation and removal ----------

  lemma {:induction false} ReleaseRows(c: Calendar, h: History, s: Standing, bound: Position, orch: Address,
                                       at: Position)
    requires Realises(c, h, s, bound)
    ensures Release(h, orch, at) ==
            if !Vacates(s, orch) then h
            else if at.Before(s.tenure.start) then h - {s.tenure.start}
            else CloseRow(h, s.tenure.start, at)
  {
    forall f | f in h && !Current(s, f)
      ensures !h[f].HeldBy(orch)
    {
      assert Past(c, f, h[f], bound);
    }
  }

  function ReleaseEffect(s: Standing, orch: Address, at: Position): Effect {
    if Vacates(s, orch) then Clear(at) else Keep
  }

  lemma {:induction false} ReleaseRealises(c: Calendar, h: History, s: Standing, bound: Position, orch: Address,
                                           at: Position)
    requires Realises(c, h, s, bound) && bound.AtMost(at)
    ensures Realises(c, Release(h, orch, at), StandingAfter(ReleaseEffect(s, orch, at), s, at), at.Next())
  {
    ReleaseRows(c, h, s, bound, orch, at);
    if Vacates(s, orch) {
      if at.Before(s.tenure.start) {
        DropRealises(c, h, s, bound, at);
      } else {
        CloseRealises(c, h, s, bound, at);
      }
    }
  }

  lemma {:induction false} ReleasePaints(c: Calendar, h: History, s: Standing, bound: Position, orch: Address,
                                         at: Position, p: Position)
    requires Realises(c, h, s, bound) && bound.AtMost(at)
    ensures Owner(Release(h, orch, at), p) == Paint(ReleaseEffect(s, orch, at), p, Owner(h, p))
  {
    ReleaseRows(c, h, s, bound, orch, at);
    if Vacates(s, orch) {
      if at.Before(s.tenure.start) {
        DropOwner(c, h, s, bound, at, p);
      } else {
        CloseOwner(c, h, s, bound, at, p);
      }
    }
  }

  // ---------- reassignment ----------

  function Vacated(h: History, s: Standing, at: Position): History
    requires s.tenure.Held? ==> s.tenure.start in h
  {
    if s.tenure.Held? then CloseRow(h, s.tenure.start, at) else h
  }

  lemma {:induction false} NextIsFresh(c: Calendar, h: History, s: Standing, bound: Position, at: Position)
    requires Realises(c, h, s, bound) && bound.AtMost(at)
    ensures at.Next() !in h
  {
    if at.Next() in h && !Current(s, at.Next()) {
      assert false;
    }
  }

  // A reassignment either hands over the open row or closes it and opens the next. Its new row
  // never meets a taken key.
  lemma {:induction false} ReassignRows(c: Calendar, h: History, s: Standing, bound: Position, orch: Address,
                                        inherit: bool, at: Position)
    requires Realises(c, h, s, bound) && bound.AtMost(at)
    ensures Reassign(h, orch, inherit, QuarterStart(c, QuarterOf(c, at.epoch)), at) ==
            Some(if TakesOver(c, s, inherit, at) then Rename(h, s.tenure.start, orch)
                 else Vacated(h, s, at)[at.Next() := Declared(orch, at)])
  {
    var quarterStart := QuarterStart(c, QuarterOf(c, at.epoch));
    NextIsFresh(c, h, s, bound, at);
    forall f | f in h && !Current(s, f)
      ensures !h[f].Open()
    {
      assert Past(c, f, h[f], bound);
    }
    if TakesOver(c, s, inherit, at) {
      assert Inheritable(s.tenure.start, h[s.tenure.start], quarterStart);
      assert forall f | f in h :: Inheritable(f, h[f], quarterStart) <==> f == s.tenure.start;
      assert Reassign(h, orch, inherit, quarterStart, at).value == Rename(h, s.tenure.start, orch);
    } else {
      assert inherit ==> forall f | f in h :: !Inheritable(f, h[f], quarterStart);
      assert CloseOpen(h, inherit, quarterStart, at) == Vacated(h, s, at);
    }
  }

  function ReassignEffect(c: Calendar, s: Standing, orch: Address, inherit: bool, at: Position): Effect {
    if TakesOver(c, s, inherit, at) then Assign(s.tenure.start, orch) else Assign(at.Next(), orch)
  }

  lemma {:induction false} ReassignRealises(c: Calendar, h: History, s: Standing, bound: Position, orch: Address,
                                            inherit: bool, at: Position)
    requires Realises(c, h, s, bound) && bound.AtMost(at)
    ensures var r := Reassign(h, orch, inherit, QuarterStart(c, QuarterOf(c, at.epoch)), at);
            && r.Some?
            && Realises(c, r.value, StandingAfter(ReassignEffect(c, s, orch, inherit, at), s, at), at.Next())
  {
    ReassignRows(c, h, s, bound, orch, inherit, at);
    NextIsFresh(c, h, s, bound, at);
    if TakesOver(c, s, inherit, at) {
      RenameRealises(c, h, s, bound, orch, at);
    } else if s.tenure.Held? {
      CloseRealises(c, h, s, bound, at);
      OpenRealises(c, Vacated(h, s, at), Standing(Vacant, Some(at)), at.Next(), at.Next(), orch, at);
    } else {
      ReleasesBounded(c, h, s, bound);
      OpenRealises(c, h, s, bound, at.Next(), orch, at);
    }
  }

  lemma {:induction false} ReassignPaints(c: Calendar, h: History, s: Standing, bound: Position, orch: Address,
                                          inherit: bool, at: Position, p: Position)
    requires Realises(c, h, s, bound) && bound.AtMost(at)
    ensures var r := Reassign(h, orch, inherit, QuarterStart(c, QuarterOf(c, at.epoch)), at);
            r.Some? && Owner(r.value, p) == Paint(ReassignEffect(c, s, orch, inherit, at), p, Owner(h, p))
  {
    ReassignRows(c, h, s, bound, orch, inherit, at);
    NextIsFresh(c, h, s, bound, at);
    if TakesOver(c, s, inherit, at) {
      RenameOwner(c, h, s, bound, orch, at, p);
    } else if s.tenure.Held? {
      CloseRealises(c, h, s, bound, at);
      CloseOwner(c, h, s, bound, at, p);
      OpenOwner(c, Vacated(h, s, at), Standing(Vacant, Some(at)), at.Next(), at.Next(), orch, at, p);
    } else {
      ReleasesBounded(c, h, s, bound);
      OpenOwner(c, h, s, bound, at.Next(), orch, at, p);
    }
  }

  // ---------- declaration ----------

  lemma {:induction false} OpenOnlyCurrent(c: Calendar, h: History, s: Standing, bound: Position)
    requires Realises(c, h, s, bound)
    ensures (exists f :: f in h && h[f].Open()) <==> s.tenure.Held?
  {
    if f :| f in h && h[f].Open() && !Current(s, f) {
      assert false;
    }
  }

  // When a declaration is accepted, and from where the binding then applies. The check for a
  // release in the future never fires.
  lemma {:induction false} StartMeetsSpec(c: Calendar, h: History, s: Standing, bound: Position, cutoff: Option<nat>,
                                          at: Position)
    requires Realises(c, h, s, bound) && bound.AtMost(at)
    ensures var r := BindingStart(c, h, cutoff, at);
            && (r.Success? <==> s.tenure.Vacant?
                                && (QuarterOf(c, at.epoch) >= 1 ==> cutoff.Some? && cutoff.value <= c.epochsPerQuarter))
            && (r.Failure? ==> r.error == if s.tenure.Held? then AlreadyBound
                                          else if cutoff.None? then NoRegistrationCutoff else CutoffTooLong)
            && (r.Success? ==> r.value == DeclaredStart(c, cutoff, s.lastRelease, at))
  {
    OpenOnlyCurrent(c, h, s, bound);
    ReleasesBounded(c, h, s, bound);
    QuarterBounds(c, at.epoch);
    var q := QuarterOf(c, at.epoch);
    if s.lastRelease.Some? {
      var release := s.lastRelease.value;
      QuarterMonotone(c, release.epoch, at.epoch);
      if q >= 1 {
        QuarterBefore(c, release.epoch, q);
      }
    }
  }

  lemma {:induction false} StartIsOpenable(c: Calendar, h: History, s: Standing, bound: Position, cutoff: Option<nat>,
                                           at: Position)
    requires Realises(c, h, s, bound) && bound.AtMost(at) && s.tenure.Vacant?
    ensures Openable(c, s, DeclaredStart(c, cutoff, s.lastRelease, at), at)
  {
    var q := QuarterOf(c, at.epoch);
    ReleasesBounded(c, h, s, bound);
    QuarterBounds(c, at.epoch);
    QuarterStartMonotone(c, 0, q);
    QuarterStartMonotone(c, 0, q + 1);
    if s.lastRelease.Some? {
      QuarterMonotone(c, s.lastRelease.value.epoch, at.epoch);
    }
  }

  // A declaration meets a taken key exactly when an inverted row begins where it would begin.
  lemma {:induction false} DeclareCollides(c: Calendar, h: History, s: Standing, bound: Position, cutoff: Option<nat>,
                                           at: Position)
    requires Realises(c, h, s, bound) && bound.AtMost(at) && s.tenure.Vacant?
    ensures var start := DeclaredStart(c, cutoff, s.lastRelease, at);
            start in h <==> InvertedAt(h, start)
  {
    var start := DeclaredStart(c, cutoff, s.lastRelease, at);
    StartIsOpenable(c, h, s, bound, cutoff, at);
    ReleasesBounded(c, h, s, bound);
    if start in h {
      assert h[start].to.value.AtMost(s.lastRelease.value);
    }
  }

  // ---------- one event ----------

  // Refinement of one event: an accepted event leaves rows that realise the specified standing,
  lemma {:induction false} StepRealises(c: Calendar, h: History, s: Standing, bound: Position, pair: Pair,
                                        cutoff: Option<nat>, e: Event, at: Position)
    requires Realises(c, h, s, bound) && bound.AtMost(at)
    requires StepHistory(c, h, pair, cutoff, e, at).Some?
    ensures Realises(c, StepHistory(c, h, pair, cutoff, e, at).value,
                     StandingAfter(EffectOf(c, pair, cutoff, s, e, at), s, at), at.Next())
  {
    match e
    case BindingDeclared(p, o) =>
      if p == pair {
        StartMeetsSpec(c, h, s, bound, cutoff, at);
        StartIsOpenable(c, h, s, bound, cutoff, at);
        OpenRealises(c, h, s, bound, DeclaredStart(c, cutoff, s.lastRelease, at), o, at);
      }
    case BindingReassigned(p, o, inherit) =>
      if p == pair {
        ReassignRealises(c, h, s, bound, o, inherit, at);
      }
    case BindingCanceled(p, o) =>
      if p == pair {
        ReleaseRealises(c, h, s, bound, o, at);
      }
    case OrchestratorRemoved(o) =>
      ReleaseRealises(c, h, s, bound, o, at);
    case _ =>
  }

  // and repaints the owner function by the specified effect.
  lemma {:induction false} StepPaints(c: Calendar, h: History, s: Standing, bound: Position, pair: Pair,
                                      cutoff: Option<nat>, e: Event, at: Position, p: Position)
    requires Realises(c, h, s, bound) && bound.AtMost(at)
    requires StepHistory(c, h, pair, cutoff, e, at).Some?
    ensures Owner(StepHistory(c, h, pair, cutoff, e, at).value, p) ==
            Paint(EffectOf(c, pair, cutoff, s, e, at), p, Owner(h, p))
  {
    match e
    case BindingDeclared(pp, o) =>
      if pp == pair {
        StartMeetsSpec(c, h, s, bound, cutoff, at);
        StartIsOpenable(c, h, s, bound, cutoff, at);
        OpenOwner(c, h, s, bound, DeclaredStart(c, cutoff, s.lastRelease, at), o, at, p);
      }
    case BindingReassigned(pp, o, inherit) =>
      if pp == pair {
        ReassignPaints(c, h, s, bound, o, inherit, at, p);
      }
    case BindingCanceled(pp, o) =>
      if pp == pair {
        ReleasePaints(c, h, s, bound, o, at, p);
      }
    case OrchestratorRemoved(o) =>
      ReleasePaints(c, h, s, bound, o, at, p);
    case _ =>
  }

  // Why a declaration is rejected, as far as the pair's rows and the cutoff decide it.
  ghost predicate Rejects(c: Calendar, h: History, s: Standing, cutoff: Option<nat>, at: Position) {
    || s.tenure.Held?
    || (QuarterOf(c, at.epoch) >= 1 && (cutoff.None? || cutoff.value > c.epochsPerQuarter))
    || InvertedAt(h, DeclaredStart(c, cutoff, s.lastRelease, at))
  }

  // Only declarations are ever rejected, and for a reason the log shows or because an inverted
  // row holds their key.
  lemma {:induction false} StepRejected(c: Calendar, h: History, s: Standing, bound: Position, pair: Pair,
                                        cutoff: Option<nat>, e: Event, at: Position)
    requires Realises(c, h, s, bound) && bound.AtMost(at)
    ensures StepHistory(c, h, pair, cutoff, e, at).None? <==>
            e.BindingDeclared? && e.pair == pair && Rejects(c, h, s, cutoff, at)
  {
    match e
    case BindingDeclared(p, o) =>
      if p == pair {
        StartMeetsSpec(c, h, s, bound, cutoff, at);
        if s.tenure.Vacant? {
          DeclareCollides(c, h, s, bound, cutoff, at);
        }
      }
    case BindingReassigned(p, o, inherit) =>
      if p == pair {
        ReassignRealises(c, h, s, bound, o, inherit, at);
      }
    case _ =>
  }

  // ---------- inverted rows ----------

  predicate InvertedAt(h: History, f: Position) {
    f in h && Inverted(f, h[f])
  }

  // A no-inherit reassignment of a binding that is to begin at f, later than the event.
  predicate HitsUnstarted(pair: Pair, s: Standing, e: Event, at: Position, f: Position) {
    && e.BindingReassigned? && e.pair == pair && !e.inherit
    && s.tenure.Held? && s.tenure.start == f && at.Before(f)
  }

  // An accepted event leaves an inverted row at f exactly when there was one or it makes one.
  lemma {:induction false} StepInverts(c: Calendar, h: History, s: Standing, bound: Position, pair: Pair,
                                       cutoff: Option<nat>, e: Event, at: Position, f: Position)
    requires Realises(c, h, s, bound) && bound.AtMost(at)
    requires StepHistory(c, h, pair, cutoff, e, at).Some?
    ensures InvertedAt(StepHistory(c, h, pair, cutoff, e, at).value, f) <==>
            InvertedAt(h, f) || HitsUnstarted(pair, s, e, at, f)
  {
    match e
    case BindingReassigned(p, o, inherit) =>
      if p == pair {
        ReassignRows(c, h, s, bound, o, inherit, at);
        // An unstarted binding begins in or after the current quarter, so inheriting takes it over.
        QuarterBounds(c, at.epoch);
      }
    case BindingCanceled(p, o) =>
      ReleaseRows(c, h, s, bound, o, at);
    case OrchestratorRemoved(o) =>
      ReleaseRows(c, h, s, bound, o, at);
    case _ =>
  }
}
