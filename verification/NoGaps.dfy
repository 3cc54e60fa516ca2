// An open binding leaves no position of the current quarter unowned, except in the closing epochs where
// registration waits for the next quarter, exactly while every reassignment of the quarter finds its pair
// bound.
module NoGaps {
  import opened Wrappers
  import opened Positions
  import opened Calendars
  import opened Events
  import opened Bindings
  import opened PairTables
  import opened OwnershipSpec
  import opened BindingRefinement
  import opened Ledger
  import opened Ownership

  // ---------- the cutoff of a quarter does not change once the quarter has begun ----------

  ghost function CutoffOf(c: Calendar, all: seq<Log<Event>>, q: nat): Option<nat> {
    CutoffAt(all, QuarterStart(c, q))
  }

  lemma {:induction false} CutoffFixed(c: Calendar, all: seq<Log<Event>>, n: nat, q: nat)
    requires Increasing(all) && n < |all| && QuarterStart(c, q) <= all[n].block
    ensures CutoffAt(all[..n], QuarterStart(c, q)) == CutoffOf(c, all, q)
  {
    var m := |all| - 1;
    assert all[m].block >= QuarterStart(c, q) by {
      assert n < m ==> all[n].At().Before(all[m].At());
    }
    if n < m {
      CutoffFixed(c, all[..m], n, q);
      assert all[..m][..n] == all[..n];
    }
  }

  // ---------- the invariant ----------

  // x lies in quarter q and before its cutoff.
  ghost predicate Early(c: Calendar, all: seq<Log<Event>>, q: nat, x: Position) {
    q >= 1 && QuarterOf(c, x.epoch) == q && !InCutoff(c, CutoffOf(c, all, q), x)
  }

  // p lies between the start of the quarter of x and x.
  predicate Since(c: Calendar, p: Position, x: Position) {
    QuarterStart(c, QuarterOf(c, x.epoch)) <= p.epoch && p.AtMost(x)
  }

  ghost predicate Owned(c: Calendar, pair: Pair, logs: seq<Log<Event>>, p: Position) {
    SpecOwner(c, pair, logs, p).Some?
  }

  ghost predicate Gapless(c: Calendar, pair: Pair, all: seq<Log<Event>>, q: nat, logs: seq<Log<Event>>) {
    var s := SpecStanding(c, pair, logs);
    // up to the start of the open binding,
    && (s.tenure.Held? && Early(c, all, q, s.tenure.start) ==>
          forall p | Since(c, p, s.tenure.start) && p != s.tenure.start :: Owned(c, pair, logs, p))
    // up to the last release,
    && (s.lastRelease.Some? && Early(c, all, q, s.lastRelease.value) ==>
          forall p | Since(c, p, s.lastRelease.value) :: Owned(c, pair, logs, p))
    // and a binding that has not begun waits inside a cutoff.
    && (s.tenure.Held? ==>
          forall x | BoundOf(logs).AtMost(x) && x.Before(s.tenure.start) :: !Early(c, all, q, x))
    // The open binding owns everything from its start.
    && (s.tenure.Held? ==> forall p | s.tenure.start.AtMost(p) :: Owned(c, pair, logs, p))
  }

  // The log after n finds the pair as the specification needs it.
  ghost predicate Proper(c: Calendar, pair: Pair, all: seq<Log<Event>>, q: nat, n: nat)
    requires n < |all|
  {
    var s := SpecStanding(c, pair, all[..n]);
    && (all[n].event.BindingDeclared? && all[n].event.pair == pair ==> s.tenure.Vacant?)
    && (all[n].event.BindingReassigned? && all[n].event.pair == pair && QuarterOf(c, all[n].block) == q ==>
          s.tenure.Held?)
    && (s.lastRelease.Some? ==> s.lastRelease.value.Before(all[n].At()))
    && (s.tenure.Held? && s.lastRelease.Some? ==> s.lastRelease.value.Before(s.tenure.start))
    && (s.tenure.Held? ==> s.tenure.start != all[n].At().Next())
  }

  // Everything since the start of the quarter is owned at an early event that finds the pair bound.
  lemma {:induction false} OwnedUpTo(c: Calendar, pair: Pair, all: seq<Log<Event>>, q: nat, logs: seq<Log<Event>>,
                                     at: Position, p: Position)
    requires Gapless(c, pair, all, q, logs) && SpecStanding(c, pair, logs).tenure.Held?
    requires BoundOf(logs).AtMost(at) && Early(c, all, q, at) && Since(c, p, at)
    ensures Owned(c, pair, logs, p)
  {
    var start := SpecStanding(c, pair, logs).tenure.start;
    if p.Before(start) {
      assert start.AtMost(at);
      QuarterBefore(c, start.epoch, q);
      QuarterMonotone(c, start.epoch, at.epoch);
      assert Early(c, all, q, start);
    }
  }

  // ---------- every event keeps it ----------

  ghost function EffectAt(c: Calendar, pair: Pair, all: seq<Log<Event>>, n: nat): Effect
    requires n < |all|
  {
    SpecEffect(c, pair, all[..n], SpecStanding(c, pair, all[..n]), all[n])
  }

  lemma {:induction false} Unfold(c: Calendar, pair: Pair, all: seq<Log<Event>>, n: nat)
    requires n < |all|
    ensures var s := SpecStanding(c, pair, all[..n]);
            SpecStanding(c, pair, all[..n + 1]) == StandingAfter(EffectAt(c, pair, all, n), s, all[n].At())
    ensures forall p :: SpecOwner(c, pair, all[..n + 1], p) ==
                        Paint(EffectAt(c, pair, all, n), p, SpecOwner(c, pair, all[..n], p))
    ensures BoundOf(all[..n + 1]) == all[n].At().Next()
  {
    assert all[..n + 1][..n] == all[..n];
  }

  lemma {:induction false} GaplessClear(c: Calendar, pair: Pair, all: seq<Log<Event>>, q: nat, n: nat)
    requires n < |all| && Gapless(c, pair, all, q, all[..n]) && Proper(c, pair, all, q, n)
    requires BoundOf(all[..n]).AtMost(all[n].At())
    requires SpecStanding(c, pair, all[..n]).tenure.Held?
    requires EffectAt(c, pair, all, n) == Clear(all[n].At())
    ensures Gapless(c, pair, all, q, all[..n + 1])
  {
    var logs, at := all[..n], all[n].At();
    var s := SpecStanding(c, pair, logs);
    Unfold(c, pair, all, n);
    if s.tenure.start.AtMost(at) {
      if Early(c, all, q, at) {
        forall p | Since(c, p, at)
          ensures Owned(c, pair, all[..n + 1], p)
        {
          OwnedUpTo(c, pair, all, q, logs, at, p);
        }
      }
    }
  }

  lemma {:induction false} GaplessReplace(c: Calendar, pair: Pair, all: seq<Log<Event>>, q: nat, n: nat, orch: Address)
    requires n < |all| && Gapless(c, pair, all, q, all[..n]) && Proper(c, pair, all, q, n)
    requires BoundOf(all[..n]).AtMost(all[n].At())
    requires SpecStanding(c, pair, all[..n]).tenure.Held?
    requires EffectAt(c, pair, all, n) == Assign(all[n].At().Next(), orch)
    ensures Gapless(c, pair, all, q, all[..n + 1])
  {
    var logs, at := all[..n], all[n].At();
    Unfold(c, pair, all, n);
    assert Early(c, all, q, at.Next()) <==> Early(c, all, q, at);
    if Early(c, all, q, at) {
      forall p | Since(c, p, at)
        ensures Owned(c, pair, all[..n + 1], p)
      {
        OwnedUpTo(c, pair, all, q, logs, at, p);
      }
      assert forall p | Since(c, p, at.Next()) && p != at.Next() :: Since(c, p, at);
    }
  }

  lemma {:induction false} GaplessTakeOver(c: Calendar, pair: Pair, all: seq<Log<Event>>, q: nat, n: nat, orch: Address)
    requires n < |all| && Gapless(c, pair, all, q, all[..n]) && Proper(c, pair, all, q, n)
    requires BoundOf(all[..n]).AtMost(all[n].At())
    requires SpecStanding(c, pair, all[..n]).tenure.Held?
    requires EffectAt(c, pair, all, n) == Assign(SpecStanding(c, pair, all[..n]).tenure.start, orch)
    ensures Gapless(c, pair, all, q, all[..n + 1])
  {
    Unfold(c, pair, all, n);
    forall p | Owned(c, pair, all[..n], p)
      ensures Owned(c, pair, all[..n + 1], p)
    {
    }
  }

  // A new binding begins where the owned stretch of its quarter ends, or with a quarter.
  lemma {:induction false} DeclaredStartMeets(c: Calendar, all: seq<Log<Event>>, q: nat, s: Standing, at: Position,
                                              p: Position)
    requires var start := DeclaredStart(c, CutoffOf(c, all, QuarterOf(c, at.epoch)), s.lastRelease, at);
             Early(c, all, q, start) && Since(c, p, start) && p != start
    requires s.lastRelease.Some? ==> s.lastRelease.value.Before(at)
    ensures s.lastRelease.Some? && Early(c, all, q, s.lastRelease.value) && Since(c, p, s.lastRelease.value)
  {
    var r := QuarterOf(c, at.epoch);
    var start := DeclaredStart(c, CutoffOf(c, all, r), s.lastRelease, at);
    QuarterBounds(c, at.epoch);
    QuarterOfStart(c, r);
    QuarterOfStart(c, r + 1);
    if s.lastRelease.Some? {
      QuarterMonotone(c, s.lastRelease.value.epoch, at.epoch);
    }
  }

  lemma {:induction false} QuarterOfStart(c: Calendar, q: nat)
    ensures QuarterOf(c, QuarterStart(c, q)) == if q >= 1 then q else 1
    decreases q == 0
  {
    if q >= 1 {
      QuarterBefore(c, QuarterStart(c, q), q);
      QuarterBefore(c, QuarterStart(c, q), q + 1);
      assert QuarterStart(c, q) < QuarterStart(c, q + 1) by { Stretch(c, q); }
    } else {
      QuarterOfStart(c, 1);
    }
  }

  lemma {:induction false} Stretch(c: Calendar, q: nat)
    requires q >= 1
    ensures QuarterStart(c, q + 1) == QuarterStart(c, q) + c.epochsPerQuarter
  {
    assert c.epochsPerQuarter * q == c.epochsPerQuarter * (q - 1) + c.epochsPerQuarter;
  }

  // A binding that begins in the future was declared in the cutoff, or before activation.
  lemma {:induction false} DeclaredStartWaits(c: Calendar, all: seq<Log<Event>>, q: nat, s: Standing, at: Position,
                                              x: Position)
    requires s.lastRelease.Some? ==> s.lastRelease.value.Before(at)
    requires at.Next().AtMost(x)
    requires x.Before(DeclaredStart(c, CutoffOf(c, all, QuarterOf(c, at.epoch)), s.lastRelease, at))
    ensures !Early(c, all, q, x)
  {
    QuarterBounds(c, at.epoch);
    QuarterMonotone(c, at.epoch, x.epoch);
    QuarterBefore(c, x.epoch, QuarterOf(c, at.epoch) + 1);
  }

  lemma {:induction false} GaplessDeclare(c: Calendar, pair: Pair, all: seq<Log<Event>>, q: nat, n: nat, orch: Address)
    requires n < |all| && Gapless(c, pair, all, q, all[..n]) && Proper(c, pair, all, q, n)
    requires BoundOf(all[..n]).AtMost(all[n].At())
    requires var s, at := SpecStanding(c, pair, all[..n]), all[n].At();
             var start := DeclaredStart(c, CutoffOf(c, all, QuarterOf(c, at.epoch)), s.lastRelease, at);
             && s.tenure.Vacant? && (s.lastRelease.Some? ==> s.lastRelease.value.Before(start))
             && EffectAt(c, pair, all, n) == Assign(start, orch)
    ensures Gapless(c, pair, all, q, all[..n + 1])
  {
    var logs, at := all[..n], all[n].At();
    var s := SpecStanding(c, pair, logs);
    var start := DeclaredStart(c, CutoffOf(c, all, QuarterOf(c, at.epoch)), s.lastRelease, at);
    Unfold(c, pair, all, n);
    if Early(c, all, q, start) {
      forall p | Since(c, p, start) && p != start
        ensures Owned(c, pair, all[..n + 1], p)
      {
        DeclaredStartMeets(c, all, q, s, at, p);
        assert Owned(c, pair, logs, p);
      }
    }
    forall x | at.Next().AtMost(x) && x.Before(start)
      ensures !Early(c, all, q, x)
    {
      DeclaredStartWaits(c, all, q, s, at, x);
    }
    if s.lastRelease.Some? && Early(c, all, q, s.lastRelease.value) {
      forall p | Since(c, p, s.lastRelease.value)
        ensures Owned(c, pair, all[..n + 1], p)
      {
        assert Owned(c, pair, logs, p);
      }
    }
  }

  // A reassignment of another quarter may find the pair unbound.
  lemma {:induction false} GaplessEnter(c: Calendar, pair: Pair, all: seq<Log<Event>>, q: nat, n: nat, orch: Address)
    requires n < |all| && Gapless(c, pair, all, q, all[..n]) && QuarterOf(c, all[n].block) != q
    requires SpecStanding(c, pair, all[..n]).tenure.Vacant?
    requires EffectAt(c, pair, all, n) == Assign(all[n].At().Next(), orch)
    ensures Gapless(c, pair, all, q, all[..n + 1])
  {
    Unfold(c, pair, all, n);
    forall p | Owned(c, pair, all[..n], p)
      ensures Owned(c, pair, all[..n + 1], p)
    {
    }
  }

  // ---------- over runs ----------

  // The log reassigns a pair in quarter q and finds it unbound.
  ghost predicate Unfounded(c: Calendar, pair: Pair, all: seq<Log<Event>>, q: nat, i: nat)
    requires i < |all|
  {
    && all[i].event.BindingReassigned? && all[i].event.pair == pair && QuarterOf(c, all[i].block) == q
    && SpecStanding(c, pair, all[..i]).tenure.Vacant?
  }

  // Every reassignment of the pair in quarter q finds it bound.
  ghost predicate ReassignsBound(c: Calendar, pair: Pair, all: seq<Log<Event>>, q: nat) {
    forall i | 0 <= i < |all| :: !Unfounded(c, pair, all, q, i)
  }

  lemma {:induction false} DeclaresVacant(w: World, all: seq<Log<Event>>, pair: Pair, n: nat)
    requires Increasing(all) && n < |all| && Run(w, EMPTY, all).Success?
    ensures all[n].event.BindingDeclared? && all[n].event.pair == pair ==>
              SpecStanding(w.calendar, pair, all[..n]).tenure.Vacant?
  {
    if all[n].event.BindingDeclared? && all[n].event.pair == pair {
      RunPrefix(w, EMPTY, all, n);
      RunPrefix(w, EMPTY, all, n + 1);
      assert all[..n + 1][..n] == all[..n];
      assert n > 0 ==> all[n - 1].At().Before(all[n].At());
      NextPairLog(w, all[..n], all[n]);
    }
  }

  lemma {:induction false} RunProper(w: World, all: seq<Log<Event>>, pair: Pair, q: nat, n: nat)
    requires Increasing(all) && n < |all| && Run(w, EMPTY, all).Success?
    requires ReassignsBound(w.calendar, pair, all, q)
    ensures Proper(w.calendar, pair, all, q, n)
    ensures BoundOf(all[..n]).AtMost(all[n].At())
  {
    var logs := all[..n];
    RunPrefix(w, EMPTY, all, n);
    assert n > 0 ==> all[n - 1].At().Before(all[n].At());
    var h := View(Run(w, EMPTY, logs).value.pairs, pair);
    RunRealises(w, logs, pair);
    ReleasesBounded(w.calendar, h, SpecStanding(w.calendar, pair, logs), BoundOf(logs));
    NextIsFresh(w.calendar, h, SpecStanding(w.calendar, pair, logs), BoundOf(logs), all[n].At());
    DeclaresVacant(w, all, pair, n);
    assert !Unfounded(w.calendar, pair, all, q, n);
  }

  lemma {:induction false} RunDeclares(w: World, all: seq<Log<Event>>, pair: Pair, q: nat, n: nat)
    requires Increasing(all) && n < |all| && Run(w, EMPTY, all).Success?
    requires ReassignsBound(w.calendar, pair, all, q)
    requires all[n].event.BindingDeclared? && all[n].event.pair == pair
    requires Gapless(w.calendar, pair, all, q, all[..n])
    ensures Gapless(w.calendar, pair, all, q, all[..n + 1])
  {
    var c, logs, at := w.calendar, all[..n], all[n].At();
    var s := SpecStanding(c, pair, logs);
    RunProper(w, all, pair, q, n);
    RunPrefix(w, EMPTY, all, n);
    RunRealises(w, logs, pair);
    QuarterBounds(c, at.epoch);
    var r := QuarterOf(c, at.epoch);
    if r >= 1 {
      CutoffFixed(c, all, n, r);
    }
    StartIsOpenable(c, View(Run(w, EMPTY, logs).value.pairs, pair), s, BoundOf(logs), CutoffOf(c, all, r), at);
    GaplessDeclare(c, pair, all, q, n, all[n].event.orchestrator);
  }

  lemma {:induction false} RunGapless(w: World, all: seq<Log<Event>>, pair: Pair, q: nat, n: nat)
    requires Increasing(all) && n <= |all| && Run(w, EMPTY, all).Success?
    requires ReassignsBound(w.calendar, pair, all, q)
    ensures Gapless(w.calendar, pair, all, q, all[..n])
  {
    var c := w.calendar;
    if n > 0 {
      var m := n - 1;
      var s, at, e := SpecStanding(c, pair, all[..m]), all[m].At(), all[m].event;
      RunGapless(w, all, pair, q, m);
      RunProper(w, all, pair, q, m);
      var effect := EffectAt(c, pair, all, m);
      if e.BindingDeclared? && e.pair == pair {
        RunDeclares(w, all, pair, q, m);
      } else if effect.Clear? {
        GaplessClear(c, pair, all, q, m);
      } else if effect.Assign? {
        if TakesOver(c, s, e.inherit, at) {
          GaplessTakeOver(c, pair, all, q, m, e.orchestrator);
        } else if s.tenure.Vacant? {
          GaplessEnter(c, pair, all, q, m, e.orchestrator);
        } else {
          GaplessReplace(c, pair, all, q, m, e.orchestrator);
        }
      } else {
        Unfold(c, pair, all, m);
      }
    }
  }

  // ---------- a reassignment of an unbound pair leaves its own position unowned ----------

  lemma {:induction false} VacantUnowned(w: World, logs: seq<Log<Event>>, pair: Pair, p: Position)
    requires Increasing(logs) && Run(w, EMPTY, logs).Success? && BoundOf(logs).AtMost(p)
    requires SpecStanding(w.calendar, pair, logs).tenure.Vacant?
    ensures SpecOwner(w.calendar, pair, logs, p) == None
  {
    var h := View(Run(w, EMPTY, logs).value.pairs, pair);
    RunRealises(w, logs, pair);
    RunOwner(w, logs, pair, p);
    forall f | f in h
      ensures !h[f].Covers(f, p)
    {
      assert Past(w.calendar, f, h[f], BoundOf(logs));
    }
  }

  // What keeps later bindings from reaching back to a position.
  predicate Beyond(s: Standing, at: Position) {
    && (s.tenure.Held? ==> at.Before(s.tenure.start))
    && ((s.lastRelease.Some? && at.Before(s.lastRelease.value)) || (s.tenure.Held? && s.tenure.start == at.Next()))
  }

  lemma {:induction false} BeyondKept(c: Calendar, pair: Pair, cutoff: Option<nat>, s: Standing, e: Event,
                                      later: Position, at: Position)
    requires Beyond(s, at) && at.Next().AtMost(later)
    requires e.BindingDeclared? && e.pair == pair ==> s.tenure.Vacant?
    ensures var effect := EffectOf(c, pair, cutoff, s, e, later);
            Beyond(StandingAfter(effect, s, later), at) && Paint(effect, at, None) == None
  {
    QuarterBounds(c, later.epoch);
  }

  lemma {:induction false} GapStays(w: World, all: seq<Log<Event>>, pair: Pair, q: nat, i: nat, n: nat)
    requires Increasing(all) && i < n <= |all| && Run(w, EMPTY, all).Success?
    requires Unfounded(w.calendar, pair, all, q, i)
    ensures Beyond(SpecStanding(w.calendar, pair, all[..n]), all[i].At())
    ensures SpecOwner(w.calendar, pair, all[..n], all[i].At()) == None
  {
    var c, m := w.calendar, n - 1;
    Unfold(c, pair, all, m);
    assert m > 0 ==> all[m - 1].At().Before(all[m].At());
    RunPrefix(w, EMPTY, all, m);
    if m == i {
      VacantUnowned(w, all[..m], pair, all[m].At());
    } else {
      GapStays(w, all, pair, q, i, m);
      assert all[i].At().Before(all[m].At());
      DeclaresVacant(w, all, pair, m);
      BeyondKept(c, pair, CutoffAt(all[..m], QuarterStart(c, QuarterOf(c, all[m].block))),
                 SpecStanding(c, pair, all[..m]), all[m].event, all[m].At(), all[i].At());
    }
  }

  ghost predicate Gapfree(w: World, logs: seq<Log<Event>>, pair: Pair, x: Position)
    requires Run(w, EMPTY, logs).Success?
  {
    forall p | Since(w.calendar, p, x) :: Owner(View(Run(w, EMPTY, logs).value.pairs, pair), p).Some?
  }

  // No gaps: for a bound pair, at any later moment x of a quarter before its cutoff, the table gives
  // every position from the start of that quarter up to x an owner exactly when every reassignment of the
  // pair in that quarter found it bound.
  lemma {:induction false} NoGap(w: World, logs: seq<Log<Event>>, pair: Pair, q: nat, x: Position)
    requires Increasing(logs) && Run(w, EMPTY, logs).Success?
    requires SpecStanding(w.calendar, pair, logs).tenure.Held?
    requires BoundOf(logs).AtMost(x) && Early(w.calendar, logs, q, x)
    ensures Gapfree(w, logs, pair, x) <==> ReassignsBound(w.calendar, pair, logs, q)
  {
    assert logs[..|logs|] == logs;
    if ReassignsBound(w.calendar, pair, logs, q) {
      RunGapless(w, logs, pair, q, |logs|);
      forall p | Since(w.calendar, p, x)
        ensures Owner(View(Run(w, EMPTY, logs).value.pairs, pair), p).Some?
      {
        OwnedUpTo(w.calendar, pair, logs, q, logs, x, p);
        RunOwner(w, logs, pair, p);
      }
    } else {
      var i :| 0 <= i < |logs| && Unfounded(w.calendar, pair, logs, q, i);
      GapStays(w, logs, pair, q, i, |logs|);
      RunOwner(w, logs, pair, logs[i].At());
      QuarterBounds(w.calendar, logs[i].block);
      assert i < |logs| - 1 ==> logs[i].At().Before(logs[|logs| - 1].At());
      assert Since(w.calendar, logs[i].At(), x);
    }
  }
}
