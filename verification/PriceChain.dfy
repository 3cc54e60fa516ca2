// Across the whole loop the price periods are a greedy chain: each considered auction qualifies
// exactly when its price lies in band of the period emitted before it, in whichever quarter that was,
// or of the seed median while none was emitted. Prices drift accordingly.
module PriceChain {
  import opened Wrappers
  import opened Products
  import opened Calendars
  import opened Ledger
  import opened SeedMedian
  import opened PricePeriods
  import opened PeriodTable
  import MinLot

  // ---------- the auctions considered, in order ----------

  datatype Decision = Decision(period: Period, seed: Price, emitted: bool)

  function Decide(test: Test, anchor: Price, seed: Price, candidates: seq<Period>): seq<Decision> {
    if candidates == [] then []
    else
      var n := |candidates| - 1;
      var last := Flag(test, anchor, candidates[..n]).last;
      Decide(test, anchor, seed, candidates[..n]) + [Decision(candidates[n], seed, test(candidates[n], last))]
  }

  // What an iteration considers: the non-seed substantial auctions of its quarter.
  function Considered(c: Calendar, t: Tables, auctions: seq<Auction>, s: LoopState, q: nat): seq<Period> {
    Candidates(c, t, Substantial(c, t, s.count, auctions), q)
  }

  function QuarterTrace(c: Calendar, t: Tables, auctions: seq<Auction>, s: LoopState, q: nat): seq<Decision> {
    var substantial := Substantial(c, t, s.count, auctions);
    var candidates := Considered(c, t, auctions, s, q);
    if candidates == [] then []
    else
      BeyondSeedsNeedsSeeds(Keeper(c, t, q), substantial);
      var seed := SeedAnchor(substantial);
      Decide(BandTest(c, t), OrElse(s.last, seed), seed, candidates)
  }

  // What a list of quarters records, piece by piece.
  function Gather(piece: seq<nat> -> seq<Decision>, quarters: seq<nat>): seq<Decision> {
    if quarters == [] then [] else Gather(piece, quarters[..|quarters| - 1]) + piece(quarters)
  }

  function Tracer(c: Calendar, t: Tables, auctions: seq<Auction>): seq<nat> -> seq<Decision> {
    (visited: seq<nat>) =>
      if visited == [] then []
      else
        var n := |visited| - 1;
        QuarterTrace(c, t, auctions, Loop(c, t, auctions, visited[..n]), visited[n])
  }

  function Trace(c: Calendar, t: Tables, auctions: seq<Auction>, quarters: seq<nat>): seq<Decision> {
    Gather(Tracer(c, t, auctions), quarters)
  }

  // Every auction that is chosen is collected,
  lemma {:induction false} CollectHolds(pick: Auction -> Option<Period>, auctions: seq<Auction>, k: nat)
    requires k < |auctions| && pick(auctions[k]).Some?
    ensures pick(auctions[k]).value in Collect(pick, auctions)
  {
    var n := |auctions| - 1;
    if k < n {
      CollectHolds(pick, auctions[..n], k);
    }
  }

  // every row beyond the seeds that meets the condition is kept,
  lemma {:induction false} BeyondSeedsHolds(keep: Period -> bool, rows: seq<Period>, k: nat)
    requires SEEDS <= k < |rows| && keep(rows[k])
    ensures rows[k] in BeyondSeeds(keep, rows)
  {
    var n := |rows| - 1;
    if k < n {
      BeyondSeedsHolds(keep, rows[..n], k);
    }
  }

  lemma {:induction false} BeyondSeedsFrom(keep: Period -> bool, rows: seq<Period>, p: Period)
    requires p in BeyondSeeds(keep, rows)
    ensures exists k :: SEEDS <= k < |rows| && rows[k] == p && keep(p)
  {
    var n := |rows| - 1;
    if p in BeyondSeeds(keep, rows[..n]) {
      BeyondSeedsFrom(keep, rows[..n], p);
      var k :| SEEDS <= k < n && rows[..n][k] == p && keep(p);
      assert rows[k] == p;
    } else {
      assert rows[n] == p;
    }
  }

  // The row tells of the auction, and its lot passes with this count.
  ghost predicate Picks(c: Calendar, t: Tables, count: nat, a: Auction, p: Period) {
    && TellsOf(c, t, a, p)
    && var th := ThresholdsOf(c, t, p.quarter).value;
       MinLot.Passes(p.price.lot, th.floor, th.volume, count, th.num, th.den)
  }

  lemma PickerIs(c: Calendar, t: Tables, count: nat, a: Auction, p: Period)
    ensures Picker(c, t, count)(a) == Some(p) <==> Picks(c, t, count, a, p)
  {
  }

  // A row is substantial exactly when it tells of an auction whose lot passes.
  lemma {:induction false} SubstantialExactly(c: Calendar, t: Tables, count: nat, auctions: seq<Auction>, p: Period)
    ensures p in Substantial(c, t, count, auctions) <==>
            exists i :: 0 <= i < |auctions| && Picks(c, t, count, auctions[i], p)
  {
    var pick := Picker(c, t, count);
    if p in Collect(pick, auctions) {
      var k :| 0 <= k < |Collect(pick, auctions)| && Collect(pick, auctions)[k] == p;
      CollectFrom(pick, auctions, k);
      var i :| 0 <= i < |auctions| && pick(auctions[i]) == Some(p);
      PickerIs(c, t, count, auctions[i], p);
    }
    if i :| 0 <= i < |auctions| && Picks(c, t, count, auctions[i], p) {
      PickerIs(c, t, count, auctions[i], p);
      CollectHolds(pick, auctions, i);
    }
  }

  // An iteration considers exactly the rows of its quarter after the first five, if the quarter has a band.
  lemma {:induction false} ConsideredExactly(c: Calendar, t: Tables, auctions: seq<Auction>, s: LoopState, q: nat,
                                             p: Period)
    ensures p in Considered(c, t, auctions, s, q) <==>
            && p.quarter == q && BandOf(c, t, q).Some?
            && exists k :: 5 <= k < |Substantial(c, t, s.count, auctions)|
                           && Substantial(c, t, s.count, auctions)[k] == p
  {
    var keep, rows := Keeper(c, t, q), Substantial(c, t, s.count, auctions);
    if p in BeyondSeeds(keep, rows) {
      BeyondSeedsFrom(keep, rows, p);
    }
    if p.quarter == q && BandOf(c, t, q).Some? {
      if k :| 5 <= k < |rows| && rows[k] == p {
        BeyondSeedsHolds(keep, rows, k);
      }
    }
  }

  lemma {:induction false} DecideHolds(test: Test, anchor: Price, seed: Price, candidates: seq<Period>)
    ensures |Decide(test, anchor, seed, candidates)| == |candidates|
    ensures forall i | 0 <= i < |candidates| :: Decide(test, anchor, seed, candidates)[i].period == candidates[i]
                                                && Decide(test, anchor, seed, candidates)[i].seed == seed
  {
    if candidates != [] {
      DecideHolds(test, anchor, seed, candidates[..|candidates| - 1]);
    }
  }

  ghost predicate Records(trace: seq<Decision>, p: Period) {
    exists i :: 0 <= i < |trace| && trace[i].period == p
  }

  lemma {:induction false} RecordsAppend(a: seq<Decision>, b: seq<Decision>, p: Period)
    requires Records(a, p) || Records(b, p)
    ensures Records(a + b, p)
  {
    if Records(a, p) {
      var i :| 0 <= i < |a| && a[i].period == p;
      assert (a + b)[i] == a[i];
    } else {
      var i :| 0 <= i < |b| && b[i].period == p;
      assert (a + b)[|a| + i] == b[i];
    }
  }

  // An iteration decides the auctions it considers, in order, and no others,
  lemma {:induction false} QuarterTraceIs(c: Calendar, t: Tables, auctions: seq<Auction>, s: LoopState, q: nat)
    ensures var trace, candidates := QuarterTrace(c, t, auctions, s, q), Considered(c, t, auctions, s, q);
            |trace| == |candidates| && forall i | 0 <= i < |trace| :: trace[i].period == candidates[i]
  {
    var substantial := Substantial(c, t, s.count, auctions);
    var candidates := Considered(c, t, auctions, s, q);
    if candidates != [] {
      BeyondSeedsNeedsSeeds(Keeper(c, t, q), substantial);
      var seed := SeedAnchor(substantial);
      DecideHolds(BandTest(c, t), OrElse(s.last, seed), seed, candidates);
    }
  }

  lemma {:induction false} QuarterTraceHolds(c: Calendar, t: Tables, auctions: seq<Auction>, s: LoopState, q: nat,
                                             p: Period)
    requires p in Considered(c, t, auctions, s, q)
    ensures Records(QuarterTrace(c, t, auctions, s, q), p)
  {
    var candidates := Considered(c, t, auctions, s, q);
    QuarterTraceIs(c, t, auctions, s, q);
    var i :| 0 <= i < |candidates| && candidates[i] == p;
    assert QuarterTrace(c, t, auctions, s, q)[i].period == p;
  }

  lemma {:induction false} GatherHolds(piece: seq<nat> -> seq<Decision>, quarters: seq<nat>, k: nat, p: Period)
    requires k < |quarters| && Records(piece(quarters[..k + 1]), p)
    ensures Records(Gather(piece, quarters), p)
  {
    var n := |quarters| - 1;
    if k < n {
      assert quarters[..n][..k + 1] == quarters[..k + 1];
      GatherHolds(piece, quarters[..n], k, p);
    } else {
      assert quarters[..k + 1] == quarters;
    }
    RecordsAppend(Gather(piece, quarters[..n]), piece(quarters), p);
  }

  lemma {:induction false} TracerHolds(c: Calendar, t: Tables, auctions: seq<Auction>, visited: seq<nat>, q: nat,
                                       p: Period)
    requires p in Considered(c, t, auctions, Loop(c, t, auctions, visited), q)
    ensures Records(Tracer(c, t, auctions)(visited + [q]), p)
  {
    QuarterTraceHolds(c, t, auctions, Loop(c, t, auctions, visited), q, p);
    assert (visited + [q])[..|visited|] == visited;
  }

  lemma {:induction false} TracerGathers(c: Calendar, t: Tables, auctions: seq<Auction>, quarters: seq<nat>,
                                         visited: seq<nat>, p: Period)
    requires visited != [] && visited <= quarters && Records(Tracer(c, t, auctions)(visited), p)
    ensures Records(Trace(c, t, auctions, quarters), p)
  {
    assert quarters[..|visited|] == visited;
    GatherHolds(Tracer(c, t, auctions), quarters, |visited| - 1, p);
  }

  // and the trace records a decision on every auction the loop considers.
  lemma {:induction false} TraceHolds(c: Calendar, t: Tables, auctions: seq<Auction>, quarters: seq<nat>,
                                      visited: seq<nat>, q: nat, p: Period)
    requires visited + [q] <= quarters && p in Considered(c, t, auctions, Loop(c, t, auctions, visited), q)
    ensures Records(Trace(c, t, auctions, quarters), p)
  {
    TracerHolds(c, t, auctions, visited, q, p);
    TracerGathers(c, t, auctions, quarters, visited + [q], p);
  }

  // ---------- the seeds ----------

  // The price is the middle one of the first five auctions that are substantial with this count.
  ghost predicate Seeds(c: Calendar, t: Tables, auctions: seq<Auction>, count: nat, seed: Price) {
    var rows := Substantial(c, t, count, auctions);
    |rows| >= 5 && Middle([rows[0].price, rows[1].price, rows[2].price, rows[3].price, rows[4].price], seed)
  }

  lemma {:induction false} AnchorSeeds(c: Calendar, t: Tables, auctions: seq<Auction>, count: nat)
    requires |Substantial(c, t, count, auctions)| >= SEEDS
    ensures Seeds(c, t, auctions, count, SeedAnchor(Substantial(c, t, count, auctions)))
  {
    var rows := Substantial(c, t, count, auctions);
    MedianIsTrue(Prices(rows[..SEEDS]));
    assert Prices(rows[..SEEDS]) == [rows[0].price, rows[1].price, rows[2].price, rows[3].price, rows[4].price];
  }

  // Every decision of an iteration is on an auction of its quarter and records its seed.
  ghost predicate SeededBy(c: Calendar, t: Tables, auctions: seq<Auction>, count: nat, q: nat, trace: seq<Decision>) {
    forall i | 0 <= i < |trace| :: trace[i].period.quarter == q && Seeds(c, t, auctions, count, trace[i].seed)
  }

  lemma {:induction false} QuarterTraceSeeded(c: Calendar, t: Tables, auctions: seq<Auction>, s: LoopState, q: nat)
    ensures SeededBy(c, t, auctions, s.count, q, QuarterTrace(c, t, auctions, s, q))
  {
    var substantial := Substantial(c, t, s.count, auctions);
    var candidates := Considered(c, t, auctions, s, q);
    if candidates != [] {
      BeyondSeedsNeedsSeeds(Keeper(c, t, q), substantial);
      var seed := SeedAnchor(substantial);
      DecideHolds(BandTest(c, t), OrElse(s.last, seed), seed, candidates);
      AnchorSeeds(c, t, auctions, s.count);
      CandidatesQuarter(c, t, substantial, q);
    }
  }

  // A decision of the loop over these quarters was made in one of its iterations.
  ghost predicate SeededIn(c: Calendar, t: Tables, auctions: seq<Auction>, quarters: seq<nat>, d: Decision) {
    exists k :: 0 <= k < |quarters| && SeededAt(c, t, auctions, quarters, d, k)
  }

  ghost predicate SeededAt(c: Calendar, t: Tables, auctions: seq<Auction>, quarters: seq<nat>, d: Decision, k: nat)
    requires k < |quarters|
  {
    d.period.quarter == quarters[k] && Seeds(c, t, auctions, Loop(c, t, auctions, quarters[..k]).count, d.seed)
  }

  lemma {:induction false} SeededLater(c: Calendar, t: Tables, auctions: seq<Auction>, quarters: seq<nat>, n: nat,
                                       d: Decision)
    requires n <= |quarters| && SeededIn(c, t, auctions, quarters[..n], d)
    ensures SeededIn(c, t, auctions, quarters, d)
  {
    var k :| 0 <= k < n && SeededAt(c, t, auctions, quarters[..n], d, k);
    assert quarters[..n][..k] == quarters[..k];
    assert SeededAt(c, t, auctions, quarters, d, k);
  }

  lemma {:induction false} SeededNow(c: Calendar, t: Tables, auctions: seq<Auction>, quarters: seq<nat>, i: nat)
    requires quarters != [] && i < |Tracer(c, t, auctions)(quarters)|
    ensures SeededIn(c, t, auctions, quarters, Tracer(c, t, auctions)(quarters)[i])
  {
    var n := |quarters| - 1;
    QuarterTraceSeeded(c, t, auctions, Loop(c, t, auctions, quarters[..n]), quarters[n]);
    assert SeededAt(c, t, auctions, quarters, Tracer(c, t, auctions)(quarters)[i], n);
  }

  // Every seed in the trace is the middle price of the first five auctions substantial in its iteration.
  lemma {:induction false} TraceSeeded(c: Calendar, t: Tables, auctions: seq<Auction>, quarters: seq<nat>, i: nat)
    requires i < |Trace(c, t, auctions, quarters)|
    ensures SeededIn(c, t, auctions, quarters, Trace(c, t, auctions, quarters)[i])
  {
    var n := |quarters| - 1;
    var before := Trace(c, t, auctions, quarters[..n]);
    if i < |before| {
      TraceSeeded(c, t, auctions, quarters[..n], i);
      SeededLater(c, t, auctions, quarters, n, before[i]);
    } else {
      SeededNow(c, t, auctions, quarters, i - |before|);
    }
  }

  // ---------- greediness, told without quarters ----------

  function Emitted(trace: seq<Decision>): seq<Period> {
    if trace == [] then []
    else
      var n := |trace| - 1;
      Emitted(trace[..n]) + if trace[n].emitted then [trace[n].period] else []
  }

  // The price emitted last, if any.
  function LastEmitted(trace: seq<Decision>): Option<Price> {
    if trace == [] then None
    else
      var n := |trace| - 1;
      if trace[n].emitted then Some(trace[n].period.price) else LastEmitted(trace[..n])
  }

  function AnchorBefore(trace: seq<Decision>, i: nat): Price
    requires i < |trace|
  {
    match LastEmitted(trace[..i])
    case Some(price) => price
    case None => trace[i].seed
  }

  ghost predicate Greedy(test: Test, trace: seq<Decision>) {
    forall i | 0 <= i < |trace| :: trace[i].emitted <==> test(trace[i].period, AnchorBefore(trace, i))
  }

  lemma {:induction false} GreedyAppend(test: Test, trace: seq<Decision>, d: Decision)
    requires Greedy(test, trace)
    requires d.emitted <==> test(d.period, OrElse(LastEmitted(trace), d.seed))
    ensures Greedy(test, trace + [d])
    ensures Emitted(trace + [d]) == Emitted(trace) + if d.emitted then [d.period] else []
    ensures LastEmitted(trace + [d]) == if d.emitted then Some(d.period.price) else LastEmitted(trace)
  {
    var longer := trace + [d];
    assert longer[..|trace|] == trace;
    forall i | 0 <= i < |longer|
      ensures longer[i].emitted <==> test(longer[i].period, AnchorBefore(longer, i))
    {
      assert i < |trace| ==> longer[..i] == trace[..i];
    }
  }

  // A trace in step with the scan of a quarter's candidates, begun after `before`.
  ghost predicate InStep(test: Test, before: seq<Decision>, seed: Price, trace: seq<Decision>, flagged: Flagged) {
    && Greedy(test, trace)
    && Emitted(trace) == Emitted(before) + flagged.emitted
    && OrElse(LastEmitted(trace), seed) == flagged.last
    && LastEmitted(trace) == if flagged.emitted == [] then LastEmitted(before)
                             else Some(flagged.emitted[|flagged.emitted| - 1].price)
  }

  lemma {:induction false} StepInStep(test: Test, before: seq<Decision>, seed: Price, trace: seq<Decision>,
                                      flagged: Flagged, p: Period)
    requires InStep(test, before, seed, trace, flagged)
    ensures InStep(test, before, seed, trace + [Decision(p, seed, test(p, flagged.last))],
                   if test(p, flagged.last) then Flagged(flagged.emitted + [p], p.price) else flagged)
  {
    GreedyAppend(test, trace, Decision(p, seed, test(p, flagged.last)));
  }

  // Deciding the candidates of a quarter extends a greedy trace.
  lemma {:induction false} DecideGreedy(test: Test, before: seq<Decision>, anchor: Price, seed: Price,
                                        candidates: seq<Period>)
    requires Greedy(test, before) && anchor == OrElse(LastEmitted(before), seed)
    ensures InStep(test, before, seed, before + Decide(test, anchor, seed, candidates), Flag(test, anchor, candidates))
  {
    if candidates == [] {
      assert before + [] == before;
    } else {
      var n := |candidates| - 1;
      DecideGreedy(test, before, anchor, seed, candidates[..n]);
      var flagged := Flag(test, anchor, candidates[..n]);
      var trace := before + Decide(test, anchor, seed, candidates[..n]);
      StepInStep(test, before, seed, trace, flagged, candidates[n]);
      assert before + Decide(test, anchor, seed, candidates) ==
             trace + [Decision(candidates[n], seed, test(candidates[n], flagged.last))];
    }
  }

  ghost predicate Tells(test: Test, trace: seq<Decision>, s: LoopState) {
    Greedy(test, trace) && Emitted(trace) == s.periods && LastEmitted(trace) == s.last
  }

  lemma {:induction false} IterationIsGreedy(c: Calendar, t: Tables, auctions: seq<Auction>, trace: seq<Decision>,
                                             s: LoopState, q: nat)
    requires Tells(BandTest(c, t), trace, s)
    ensures Tells(BandTest(c, t), trace + QuarterTrace(c, t, auctions, s, q), Iterate(c, t, auctions, s, q))
  {
    var substantial := Substantial(c, t, s.count, auctions);
    var candidates := Considered(c, t, auctions, s, q);
    if candidates == [] {
      assert trace + [] == trace;
    } else {
      BeyondSeedsNeedsSeeds(Keeper(c, t, q), substantial);
      var seed := SeedAnchor(substantial);
      DecideGreedy(BandTest(c, t), trace, OrElse(s.last, seed), seed, candidates);
      assert s.periods + [] == s.periods;
    }
  }

  // The trace of the loop is greedy, and the function emits exactly the auctions it marks.
  lemma {:induction false} LoopIsGreedy(c: Calendar, t: Tables, auctions: seq<Auction>, quarters: seq<nat>)
    ensures Tells(BandTest(c, t), Trace(c, t, auctions, quarters), Loop(c, t, auctions, quarters))
  {
    if quarters != [] {
      var n := |quarters| - 1;
      LoopIsGreedy(c, t, auctions, quarters[..n]);
      IterationIsGreedy(c, t, auctions, Trace(c, t, auctions, quarters[..n]), Loop(c, t, auctions, quarters[..n]),
                        quarters[n]);
    }
  }

  // Soundness and completeness of get_qualifying_price_periods.
  lemma {:induction false} QualifyingIsGreedy(c: Calendar, t: Tables, auctions: seq<Auction>)
    ensures var trace := Trace(c, t, auctions, Quarters(c, auctions));
            Greedy(BandTest(c, t), trace) && QualifyingPeriods(c, t, auctions) == Emitted(trace)
  {
    LoopIsGreedy(c, t, auctions, Quarters(c, auctions));
  }

  // Greediness determines what is emitted.
  lemma {:induction false} GreedyIsUnique(test: Test, a: seq<Decision>, b: seq<Decision>)
    requires Greedy(test, a) && Greedy(test, b) && |a| == |b|
    requires forall i | 0 <= i < |a| :: a[i].period == b[i].period && a[i].seed == b[i].seed
    ensures a == b
  {
    if a != [] {
      var n := |a| - 1;
      GreedyPrefix(test, a, n);
      GreedyPrefix(test, b, n);
      GreedyIsUnique(test, a[..n], b[..n]);
      assert AnchorBefore(a, n) == AnchorBefore(b, n);
      assert a == a[..n] + [a[n]] && b == b[..n] + [b[n]];
    }
  }

  lemma {:induction false} GreedyPrefix(test: Test, trace: seq<Decision>, n: nat)
    requires Greedy(test, trace) && n <= |trace|
    ensures Greedy(test, trace[..n])
  {
    forall i | 0 <= i < n
      ensures trace[..n][i].emitted <==> test(trace[..n][i].period, AnchorBefore(trace[..n], i))
    {
      assert trace[..n][..i] == trace[..i];
    }
  }

  // ---------- the chain of emitted prices ----------

  // Each period is in band of the one before it, the first of the seed.
  ghost predicate Chain(test: Test, seed: Price, ps: seq<Period>) {
    forall i | 0 <= i < |ps| :: test(ps[i], AnchorAt(seed, ps, i))
  }

  function AnchorAt(seed: Price, ps: seq<Period>, i: nat): Price
    requires i <= |ps|
  {
    if i == 0 then seed else ps[i - 1].price
  }

  lemma {:induction false} ChainPrefix(test: Test, seed: Price, ps: seq<Period>, n: nat)
    requires Chain(test, seed, ps) && n <= |ps|
    ensures Chain(test, seed, ps[..n])
  {
    forall i | 0 <= i < n
      ensures test(ps[..n][i], AnchorAt(seed, ps[..n], i))
    {
      assert AnchorAt(seed, ps[..n], i) == AnchorAt(seed, ps, i);
    }
  }

  lemma {:induction false} ChainAppend(test: Test, seed: Price, ps: seq<Period>, p: Period)
    requires Chain(test, seed, ps) && test(p, AnchorAt(seed, ps, |ps|))
    ensures Chain(test, seed, ps + [p])
  {
    var longer := ps + [p];
    forall i | 0 <= i < |longer|
      ensures test(longer[i], AnchorAt(seed, longer, i))
    {
      assert AnchorAt(seed, longer, i) == AnchorAt(seed, ps, i);
    }
  }

  // The seed median of the first emitted decision.
  function FirstSeed(trace: seq<Decision>): Option<Price> {
    if trace == [] then None
    else
      var n := |trace| - 1;
      match FirstSeed(trace[..n])
      case Some(seed) => Some(seed)
      case None => if trace[n].emitted then Some(trace[n].seed) else None
  }

  // It is the seed of a decision.
  lemma {:induction false} FirstSeedIs(trace: seq<Decision>)
    requires FirstSeed(trace).Some?
    ensures exists i :: 0 <= i < |trace| && trace[i].emitted && trace[i].seed == FirstSeed(trace).value
  {
    var n := |trace| - 1;
    if FirstSeed(trace[..n]).Some? {
      FirstSeedIs(trace[..n]);
      var i :| 0 <= i < n && trace[..n][i].emitted && trace[..n][i].seed == FirstSeed(trace[..n]).value;
      assert trace[i].emitted;
    } else {
      assert trace[n].emitted;
    }
  }

  lemma {:induction false} GreedyChains(test: Test, trace: seq<Decision>)
    requires Greedy(test, trace)
    ensures var ps := Emitted(trace);
            && (FirstSeed(trace).None? <==> ps == [])
            && LastEmitted(trace) == (if ps == [] then None else Some(ps[|ps| - 1].price))
            && (ps != [] ==> Chain(test, FirstSeed(trace).value, ps))
  {
    if trace != [] {
      var n := |trace| - 1;
      GreedyPrefix(test, trace, n);
      GreedyChains(test, trace[..n]);
      if trace[n].emitted {
        var ps := Emitted(trace[..n]);
        var seed := if ps == [] then trace[n].seed else FirstSeed(trace[..n]).value;
        assert AnchorBefore(trace, n) == AnchorAt(seed, ps, |ps|);
        ChainAppend(test, seed, ps, trace[n].period);
      }
    }
  }

  // ---------- price drift ----------

  function Pow10000(k: nat): nat {
    if k == 0 then 1 else 10000 * Pow10000(k - 1)
  }

  type Bands = nat -> nat

  function BandsOf(c: Calendar, t: Tables): Bands {
    (q: nat) => match BandOf(c, t, q) case Some(b) => b case None => 0
  }

  // Products of 10000 + band and of 10000 - band over the periods.
  function Upward(bands: Bands, ps: seq<Period>): nat {
    if ps == [] then 1 else (10000 + bands(ps[|ps| - 1].quarter)) * Upward(bands, ps[..|ps| - 1])
  }

  function Downward(bands: Bands, ps: seq<Period>): int {
    if ps == [] then 1 else (10000 - bands(ps[|ps| - 1].quarter)) * Downward(bands, ps[..|ps| - 1])
  }

  // p / anchor is within b / 10000 of 1.
  predicate Linked(p: Price, anchor: Price, b: nat) {
    && anchor.claim * (p.lot * 10000) <= anchor.lot * ((10000 + b) * p.claim)
    && anchor.claim * (p.lot * 10000) >= anchor.lot * ((10000 - b) * p.claim)
  }

  // A price is in band exactly when it lies within both bounds.
  lemma {:induction false} BandBounds(p: Price, anchor: Price, b: nat)
    ensures InBand(p, anchor, b) <==> Linked(p, anchor, b)
  {
    var x, y := p.lot * anchor.claim, anchor.lot * p.claim;
    assert b * anchor.lot * p.claim == b * y by { assert b * anchor.lot * p.claim == b * (anchor.lot * p.claim); }
    assert anchor.claim * (p.lot * 10000) == 10000 * x;
    assert anchor.lot * ((10000 + b) * p.claim) == 10000 * y + b * y;
    assert anchor.lot * ((10000 - b) * p.claim) == 10000 * y - b * y;
  }

  // A test that admits only linked prices.
  ghost predicate Links(test: Test, bands: Bands) {
    forall p, anchor :: test(p, anchor) ==> Linked(p.price, anchor, bands(p.quarter))
  }

  // A period qualifies exactly when its quarter has a band and its price lies within it.
  lemma {:induction false} BandTestIs(c: Calendar, t: Tables, p: Period, anchor: Price)
    ensures BandTest(c, t)(p, anchor) <==>
            BandOf(c, t, p.quarter).Some? && Linked(p.price, anchor, BandOf(c, t, p.quarter).value)
  {
    if BandOf(c, t, p.quarter).Some? {
      BandBounds(p.price, anchor, BandOf(c, t, p.quarter).value);
    }
  }

  lemma {:induction false} BandTestLinks(c: Calendar, t: Tables)
    ensures Links(BandTest(c, t), BandsOf(c, t))
  {
    forall p, anchor | BandTest(c, t)(p, anchor)
      ensures Linked(p.price, anchor, BandsOf(c, t)(p.quarter))
    {
      BandBounds(p.price, anchor, BandsOf(c, t)(p.quarter));
    }
  }

  // p / seed is at most r / k, at least r / k.
  predicate RisenAtMost(seed: Price, p: Price, k: nat, r: nat) {
    p.lot * (seed.claim * k) <= p.claim * (seed.lot * r)
  }

  predicate FallenAtMost(seed: Price, p: Price, k: nat, r: int) {
    p.lot * (seed.claim * k) >= p.claim * (seed.lot * r)
  }

  lemma SeedIsSeed(seed: Price)
    ensures RisenAtMost(seed, seed, 1, 1) && FallenAtMost(seed, seed, 1, 1)
  {
  }

  // After k periods the price has risen over the seed by at most the product of the bands,
  lemma {:induction false} DriftUp(test: Test, bands: Bands, seed: Price, ps: seq<Period>)
    requires Chain(test, seed, ps) && Links(test, bands)
    ensures RisenAtMost(seed, AnchorAt(seed, ps, |ps|), Pow10000(|ps|), Upward(bands, ps))
  {
    if ps == [] {
      SeedIsSeed(seed);
    } else {
      var n := |ps| - 1;
      ChainPrefix(test, seed, ps, n);
      DriftUp(test, bands, seed, ps[..n]);
      var prev := AnchorAt(seed, ps, n);
      assert AnchorAt(seed, ps[..n], n) == prev;
      DriftUpStep(seed, prev, ps[n].price, bands(ps[n].quarter), Pow10000(n), Upward(bands, ps[..n]));
    }
  }

  lemma {:induction false} DriftUpStep(seed: Price, prev: Price, p: Price, b: nat, k: nat, r: nat)
    requires Linked(p, prev, b) && RisenAtMost(seed, prev, k, r)
    ensures RisenAtMost(seed, p, 10000 * k, (10000 + b) * r)
  {
    Compose(prev.claim, prev.lot, p.lot * 10000, (10000 + b) * p.claim, seed.claim * k, seed.lot * r);
    Regroup(p.lot, seed.claim, 10000, k);
    Regroup(p.claim, seed.lot, 10000 + b, r);
  }

  predicate ModestBands(bands: Bands, ps: seq<Period>) {
    forall i | 0 <= i < |ps| :: bands(ps[i].quarter) <= 10000
  }

  lemma {:induction false} DownwardSign(bands: Bands, ps: seq<Period>)
    requires ModestBands(bands, ps)
    ensures Downward(bands, ps) >= 0
  {
    if ps != [] {
      var n := |ps| - 1;
      DownwardSign(bands, ps[..n]);
      MulMonotone(10000 - bands(ps[n].quarter), 0, Downward(bands, ps[..n]));
    }
  }

  lemma ChainLinked(test: Test, bands: Bands, seed: Price, ps: seq<Period>, i: nat)
    requires Chain(test, seed, ps) && Links(test, bands) && i < |ps|
    ensures Linked(ps[i].price, AnchorAt(seed, ps, i), bands(ps[i].quarter))
  {
  }

  // and fallen by no more than it allows, while no band exceeds the whole price.
  lemma {:induction false} DriftDown(test: Test, bands: Bands, seed: Price, ps: seq<Period>)
    requires Chain(test, seed, ps) && Links(test, bands) && ModestBands(bands, ps)
    ensures FallenAtMost(seed, AnchorAt(seed, ps, |ps|), Pow10000(|ps|), Downward(bands, ps))
  {
    if ps == [] {
      SeedIsSeed(seed);
    } else {
      var n := |ps| - 1;
      ChainPrefix(test, seed, ps, n);
      DriftDown(test, bands, seed, ps[..n]);
      DownwardSign(bands, ps[..n]);
      ChainLinked(test, bands, seed, ps, n);
      DriftDownNext(bands, seed, ps);
    }
  }

  lemma {:induction false} DriftDownNext(bands: Bands, seed: Price, ps: seq<Period>)
    requires ps != []
    requires var n := |ps| - 1;
             && Linked(ps[n].price, AnchorAt(seed, ps, n), bands(ps[n].quarter)) && bands(ps[n].quarter) <= 10000
             && Downward(bands, ps[..n]) >= 0
             && FallenAtMost(seed, AnchorAt(seed, ps[..n], n), Pow10000(n), Downward(bands, ps[..n]))
    ensures FallenAtMost(seed, AnchorAt(seed, ps, |ps|), Pow10000(|ps|), Downward(bands, ps))
  {
    var n := |ps| - 1;
    assert AnchorAt(seed, ps[..n], n) == AnchorAt(seed, ps, n);
    DriftDownStep(seed, AnchorAt(seed, ps, n), ps[n].price, bands(ps[n].quarter), Pow10000(n),
                  Downward(bands, ps[..n]));
  }

  lemma {:induction false} DriftDownStep(seed: Price, prev: Price, p: Price, b: nat, k: nat, r: nat)
    requires Linked(p, prev, b) && FallenAtMost(seed, prev, k, r) && b <= 10000
    ensures FallenAtMost(seed, p, 10000 * k, (10000 - b) * r)
  {
    MulMonotone(10000 - b, 0, r);
    ComposeBelow(prev.claim, prev.lot, p.lot * 10000, (10000 - b) * p.claim, seed.claim * k, seed.lot * r);
    Regroup(p.lot, seed.claim, 10000, k);
    Regroup(p.claim, seed.lot, 10000 - b, r);
  }

  // The first k rows drift from the seed median that began the list by no more than their bands allow.
  ghost predicate DriftsFrom(seed: Price, ps: seq<Period>, bands: Bands, k: nat)
    requires 1 <= k <= |ps|
  {
    && RisenAtMost(seed, ps[k - 1].price, Pow10000(k), Upward(bands, ps[..k]))
    && (ModestBands(bands, ps[..k]) ==> FallenAtMost(seed, ps[k - 1].price, Pow10000(k), Downward(bands, ps[..k])))
  }

  lemma {:induction false} ChainDrifts(test: Test, bands: Bands, seed: Price, ps: seq<Period>, k: nat)
    requires Chain(test, seed, ps) && Links(test, bands) && 1 <= k <= |ps|
    ensures DriftsFrom(seed, ps, bands, k)
  {
    ChainPrefix(test, seed, ps, k);
    DriftUp(test, bands, seed, ps[..k]);
    if ModestBands(bands, ps[..k]) {
      DriftDown(test, bands, seed, ps[..k]);
    }
  }

  // The price is a seed of an iteration.
  ghost predicate MiddleOfFive(c: Calendar, t: Tables, auctions: seq<Auction>, price: Price) {
    var qs := Quarters(c, auctions);
    exists k :: 0 <= k < |qs| && Seeds(c, t, auctions, Loop(c, t, auctions, qs[..k]).count, price)
  }

  lemma {:induction false} FirstSeedMiddle(c: Calendar, t: Tables, auctions: seq<Auction>)
    requires FirstSeed(Trace(c, t, auctions, Quarters(c, auctions))).Some?
    ensures MiddleOfFive(c, t, auctions, FirstSeed(Trace(c, t, auctions, Quarters(c, auctions))).value)
  {
    var qs := Quarters(c, auctions);
    var trace := Trace(c, t, auctions, qs);
    FirstSeedIs(trace);
    var i :| 0 <= i < |trace| && trace[i].emitted && trace[i].seed == FirstSeed(trace).value;
    TraceSeeded(c, t, auctions, qs, i);
    var k :| 0 <= k < |qs| && SeededAt(c, t, auctions, qs, trace[i], k);
  }

  // The whole list is a chain from the seed median that began it, and at each row has drifted from it
  // accordingly.
  lemma {:induction false} QualifyingDrift(c: Calendar, t: Tables, auctions: seq<Auction>)
    requires QualifyingPeriods(c, t, auctions) != []
    ensures var ps, seed := QualifyingPeriods(c, t, auctions), FirstSeed(Trace(c, t, auctions, Quarters(c, auctions)));
            && seed.Some? && Chain(BandTest(c, t), seed.value, ps)
            && MiddleOfFive(c, t, auctions, seed.value)
            && forall k | 1 <= k <= |ps| :: DriftsFrom(seed.value, ps, BandsOf(c, t), k)
  {
    var ps := QualifyingPeriods(c, t, auctions);
    var trace := Trace(c, t, auctions, Quarters(c, auctions));
    QualifyingIsGreedy(c, t, auctions);
    GreedyChains(BandTest(c, t), trace);
    BandTestLinks(c, t);
    FirstSeedMiddle(c, t, auctions);
    forall k | 1 <= k <= |ps|
      ensures DriftsFrom(FirstSeed(trace).value, ps, BandsOf(c, t), k)
    {
      ChainDrifts(BandTest(c, t), BandsOf(c, t), FirstSeed(trace).value, ps, k);
    }
  }
}
