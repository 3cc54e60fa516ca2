// The history of pricing parameters and the three queries that read the value in force for a quarter.
module Parameters {
  import opened Wrappers
  import opened Positions
  import opened Calendars
  import opened Events

  datatype ParameterType =
    | MinLotFloor | MinLotAlphaNumerator | MinLotAlphaDenominator | PriceBandBps | RegistrationCutoffEpochs

  datatype ParameterKey = ParameterKey(kind: ParameterType, at: Position)

  type ParameterTable = map<ParameterKey, nat>

  function ValueOf(p: PricingParams, kind: ParameterType): nat {
    match kind
    case MinLotFloor => p.minLotFloor
    case MinLotAlphaNumerator => p.minLotAlphaNum
    case MinLotAlphaDenominator => p.minLotAlphaDen
    case PriceBandBps => p.priceBand
    case RegistrationCutoffEpochs => p.registrationCutoff
  }

  // One row for each parameter type. None when a key is already taken.
  function InsertParams(t: ParameterTable, p: PricingParams, at: Position): Option<ParameterTable> {
    if exists kind :: ParameterKey(kind, at) in t then None
    else Some(t[ParameterKey(MinLotFloor, at) := p.minLotFloor]
               [ParameterKey(MinLotAlphaNumerator, at) := p.minLotAlphaNum]
               [ParameterKey(MinLotAlphaDenominator, at) := p.minLotAlphaDen]
               [ParameterKey(PriceBandBps, at) := p.priceBand]
               [ParameterKey(RegistrationCutoffEpochs, at) := p.registrationCutoff])
  }

  // The insertion is determined by what it says about each key.
  lemma {:induction false} InsertParamsIs(t: ParameterTable, p: PricingParams, at: Position, t': ParameterTable)
    requires (forall kind :: ParameterKey(kind, at) !in t) ==>
               && (forall kind :: ParameterKey(kind, at) in t' && t'[ParameterKey(kind, at)] == ValueOf(p, kind))
               && (forall k: ParameterKey | k.at != at :: k in t' <==> k in t)
               && (forall k: ParameterKey | k.at != at && k in t' :: t'[k] == t[k])
    ensures InsertParams(t, p, at) ==
            if exists kind :: ParameterKey(kind, at) in t then None else Some(t')
  {
    if forall kind :: ParameterKey(kind, at) !in t {
      var inserted := InsertParams(t, p, at).value;
      forall k
        ensures k in inserted <==> k in t'
        ensures k in inserted ==> inserted[k] == t'[k]
      {
        assert k == ParameterKey(k.kind, k.at);
      }
      assert inserted == t';
    }
  }

  function Updates(t: ParameterTable, kind: ParameterType): set<Position> {
    set k | k in t && k.kind == kind :: k.at
  }

  // ---------- the query by epoch ----------

  function UpdatesBefore(t: ParameterTable, kind: ParameterType, epoch: nat): set<Position> {
    set p | p in Updates(t, kind) && p.epoch < epoch
  }

  // Last update of a parameter before an epoch, as read for the registration cutoff.
  function EpochPick(t: ParameterTable, kind: ParameterType, epoch: nat): Option<Position> {
    Latest(UpdatesBefore(t, kind, epoch))
  }

  function ValueAt(t: ParameterTable, kind: ParameterType, pick: Option<Position>): Option<nat>
    requires pick.Some? ==> pick.value in Updates(t, kind)
  {
    if pick.Some? then Some(t[ParameterKey(kind, pick.value)]) else None
  }

  function EpochQuery(t: ParameterTable, kind: ParameterType, epoch: nat): Option<nat> {
    ValueAt(t, kind, EpochPick(t, kind, epoch))
  }

  // ---------- the query of the quarters service ----------

  predicate AtMostByQuarter(c: Calendar, x: Position, y: Position) {
    var qx, qy := QuarterOf(c, x.epoch), QuarterOf(c, y.epoch);
    qx < qy || (qx == qy && (x.epoch < y.epoch || (x.epoch == y.epoch && x.logIndex <= y.logIndex)))
  }

  predicate FirstByQuarter(c: Calendar, m: Position, s: set<Position>) {
    m in s && forall x | x in s :: AtMostByQuarter(c, x, m)
  }

  // `WHERE quarter_num < q`, one row per type, ordered by quarter, epoch and log index descending.
  ghost function ServicePick(c: Calendar, t: ParameterTable, kind: ParameterType, q: nat): Option<Position> {
    var s := set p | p in Updates(t, kind) && QuarterOf(c, p.epoch) < q;
    if exists m :: FirstByQuarter(c, m, s) then
      var m :| FirstByQuarter(c, m, s);
      Some(m)
    else None
  }

  // ---------- the query of the price-period function ----------

  // `DISTINCT ON (type, quarter)`, latest update of each quarter.
  function LatestOfQuarters(c: Calendar, s: set<Position>): set<Position> {
    set p | p in s && forall x | x in s && QuarterOf(c, x.epoch) == QuarterOf(c, p.epoch) :: x.AtMost(p)
  }

  predicate LastQuarterOf(c: Calendar, m: Position, s: set<Position>) {
    m in s && forall x | x in s :: QuarterOf(c, x.epoch) <= QuarterOf(c, m.epoch)
  }

  function QuarterRows(c: Calendar, t: ParameterTable, kind: ParameterType, q: nat): set<Position> {
    set p | p in LatestOfQuarters(c, Updates(t, kind)) && QuarterOf(c, p.epoch) < q
  }

  lemma {:induction false} LastQuarterExists(c: Calendar, s: set<Position>)
    requires s != {}
    ensures exists m :: LastQuarterOf(c, m, s)
  {
    LatestExists(s);
    var m :| IsLatest(m, s);
    forall x | x in s
      ensures QuarterOf(c, x.epoch) <= QuarterOf(c, m.epoch)
    {
      QuarterMonotone(c, x.epoch, m.epoch);
    }
    assert LastQuarterOf(c, m, s);
  }

  lemma {:induction false} OnePerQuarter(c: Calendar, s: set<Position>, x: Position, y: Position)
    requires x in LatestOfQuarters(c, s) && y in LatestOfQuarters(c, s)
    requires QuarterOf(c, x.epoch) == QuarterOf(c, y.epoch)
    ensures x == y
  {
    assert x.AtMost(y) && y.AtMost(x);
  }

  lemma {:induction false} LastQuarterUnique(c: Calendar, t: ParameterTable, kind: ParameterType, q: nat)
    ensures var s := QuarterRows(c, t, kind, q);
            forall m, n | LastQuarterOf(c, m, s) && LastQuarterOf(c, n, s) :: m == n
  {
    var s := QuarterRows(c, t, kind, q);
    forall m, n | LastQuarterOf(c, m, s) && LastQuarterOf(c, n, s)
      ensures m == n
    {
      OnePerQuarter(c, Updates(t, kind), m, n);
    }
  }

  // The row of the last quarter before q.
  function SqlPick(c: Calendar, t: ParameterTable, kind: ParameterType, q: nat): (r: Option<Position>)
    ensures r.None? <==> QuarterRows(c, t, kind, q) == {}
    ensures r.Some? ==> LastQuarterOf(c, r.value, QuarterRows(c, t, kind, q))
  {
    var s := QuarterRows(c, t, kind, q);
    if s == {} then None
    else
      LastQuarterExists(c, s);
      LastQuarterUnique(c, t, kind, q);
      var m :| LastQuarterOf(c, m, s);
      Some(m)
  }

  // ---------- agreement ----------

  lemma {:induction false} QuarterIsEpochBound(c: Calendar, t: ParameterTable, kind: ParameterType, q: nat)
    requires q >= 1
    ensures (set p | p in Updates(t, kind) && QuarterOf(c, p.epoch) < q) == UpdatesBefore(t, kind, QuarterStart(c, q))
  {
    forall p | p in Updates(t, kind)
      ensures QuarterOf(c, p.epoch) < q <==> p.epoch < QuarterStart(c, q)
    {
      QuarterBefore(c, p.epoch, q);
    }
  }

  lemma {:induction false} ByQuarterIsByPosition(c: Calendar, x: Position, y: Position)
    ensures AtMostByQuarter(c, x, y) <==> x.AtMost(y)
  {
    if x.epoch <= y.epoch {
      QuarterMonotone(c, x.epoch, y.epoch);
    }
    if y.epoch <= x.epoch {
      QuarterMonotone(c, y.epoch, x.epoch);
    }
  }

  lemma {:induction false} ServiceAgrees(c: Calendar, t: ParameterTable, kind: ParameterType, q: nat)
    requires q >= 1
    ensures ServicePick(c, t, kind, q) == EpochPick(t, kind, QuarterStart(c, q))
  {
    QuarterIsEpochBound(c, t, kind, q);
    var s := UpdatesBefore(t, kind, QuarterStart(c, q));
    forall x, y {
      ByQuarterIsByPosition(c, x, y);
    }
    if s != {} {
      assert FirstByQuarter(c, Latest(s).value, s);
      var m := ServicePick(c, t, kind, q).value;
      assert IsLatest(m, s);
      LatestIs(s, m);
    }
  }

  lemma {:induction false} SqlAgrees(c: Calendar, t: ParameterTable, kind: ParameterType, q: nat)
    requires q >= 1
    ensures SqlPick(c, t, kind, q) == EpochPick(t, kind, QuarterStart(c, q))
  {
    QuarterIsEpochBound(c, t, kind, q);
    var early := UpdatesBefore(t, kind, QuarterStart(c, q));
    assert QuarterRows(c, t, kind, q) <= early;
    if early != {} {
      var last := Latest(early).value;
      LastIsKept(c, t, kind, q, last);
      assert last in QuarterRows(c, t, kind, q);
      OnePerQuarter(c, Updates(t, kind), SqlPick(c, t, kind, q).value, last);
    }
  }

  lemma {:induction false} LastIsKept(c: Calendar, t: ParameterTable, kind: ParameterType, q: nat, last: Position)
    requires q >= 1 && IsLatest(last, UpdatesBefore(t, kind, QuarterStart(c, q)))
    ensures last in LatestOfQuarters(c, Updates(t, kind)) && QuarterOf(c, last.epoch) < q
    ensures forall x | x in Updates(t, kind) && QuarterOf(c, x.epoch) < q ::
              QuarterOf(c, x.epoch) <= QuarterOf(c, last.epoch)
  {
    forall x | x in Updates(t, kind)
      ensures QuarterOf(c, x.epoch) < q <==> x.epoch < QuarterStart(c, q)
    {
      QuarterBefore(c, x.epoch, q);
    }
    forall x | x in UpdatesBefore(t, kind, QuarterStart(c, q))
      ensures QuarterOf(c, x.epoch) <= QuarterOf(c, last.epoch)
    {
      QuarterMonotone(c, x.epoch, last.epoch);
    }
  }

  // The value the price-period function reads.
  function QuarterQuery(c: Calendar, t: ParameterTable, kind: ParameterType, q: nat): Option<nat> {
    ValueAt(t, kind, SqlPick(c, t, kind, q))
  }

  lemma {:induction false} QuarterQueryIs(c: Calendar, t: ParameterTable, kind: ParameterType, q: nat)
    requires q >= 1
    ensures QuarterQuery(c, t, kind, q) == EpochQuery(t, kind, QuarterStart(c, q))
  {
    SqlAgrees(c, t, kind, q);
  }

  // ---------- reading the table is reading the log ----------

  // The last update of a parameter in the log before an epoch.
  ghost function ParamAt(logs: seq<Log<Event>>, kind: ParameterType, before: nat): Option<nat> {
    if logs == [] then None
    else
      var log := logs[|logs| - 1];
      if log.event.PricingParamsUpdated? && log.block < before then Some(ValueOf(log.event.params, kind))
      else ParamAt(logs[..|logs| - 1], kind, before)
  }

  // The last parameters set in the log before an epoch.
  ghost function LastParams(logs: seq<Log<Event>>, before: nat): Option<PricingParams> {
    if logs == [] then None
    else
      var log := logs[|logs| - 1];
      if log.event.PricingParamsUpdated? && log.block < before then Some(log.event.params)
      else LastParams(logs[..|logs| - 1], before)
  }

  // Each parameter is its own field of them.
  lemma {:induction false} ParamsAre(logs: seq<Log<Event>>, before: nat)
    ensures LastParams(logs, before).None? ==> forall kind :: ParamAt(logs, kind, before).None?
    ensures LastParams(logs, before).Some? ==>
              var params := LastParams(logs, before).value;
              && ParamAt(logs, MinLotFloor, before) == Some(params.minLotFloor)
              && ParamAt(logs, MinLotAlphaNumerator, before) == Some(params.minLotAlphaNum)
              && ParamAt(logs, MinLotAlphaDenominator, before) == Some(params.minLotAlphaDen)
              && ParamAt(logs, PriceBandBps, before) == Some(params.priceBand)
              && ParamAt(logs, RegistrationCutoffEpochs, before) == Some(params.registrationCutoff)
  {
    if logs != [] {
      ParamsAre(logs[..|logs| - 1], before);
    }
  }

  ghost predicate Bounded(t: ParameterTable, bound: Position) {
    forall k | k in t :: k.at.Before(bound)
  }

  lemma InsertParamsStep(t: ParameterTable, p: PricingParams, bound: Position, at: Position)
    requires Bounded(t, bound) && bound.AtMost(at)
    ensures InsertParams(t, p, at).Some? && Bounded(InsertParams(t, p, at).value, at.Next())
  {
  }

  lemma {:induction false} InsertedUpdates(t: ParameterTable, p: PricingParams, at: Position, kind: ParameterType)
    requires InsertParams(t, p, at).Some?
    ensures Updates(InsertParams(t, p, at).value, kind) == Updates(t, kind) + {at}
    ensures InsertParams(t, p, at).value[ParameterKey(kind, at)] == ValueOf(p, kind)
  {
    var t' := InsertParams(t, p, at).value;
    assert ParameterKey(kind, at) in t';
    forall x | x in Updates(t, kind)
      ensures x in Updates(t', kind)
    {
      assert ParameterKey(kind, x) in t';
    }
  }

  // An insertion after everything else changes what is read just for later epochs.
  lemma {:induction false} InsertedQuery(t: ParameterTable, p: PricingParams, bound: Position, at: Position,
                                         kind: ParameterType, epoch: nat)
    requires Bounded(t, bound) && bound.AtMost(at)
    ensures var t' := InsertParams(t, p, at);
            t'.Some? && EpochQuery(t'.value, kind, epoch) ==
                        if at.epoch < epoch then Some(ValueOf(p, kind)) else EpochQuery(t, kind, epoch)
  {
    InsertParamsStep(t, p, bound, at);
    InsertedUpdates(t, p, at, kind);
    var t' := InsertParams(t, p, at).value;
    var s, s' := UpdatesBefore(t, kind, epoch), UpdatesBefore(t', kind, epoch);
    if at.epoch < epoch {
      assert s' == s + {at};
      LatestIs(s', at);
    } else {
      assert s' == s;
    }
  }
}
