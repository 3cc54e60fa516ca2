// Quarterly volume: payments attributed through the binding table, valued by admitted tokens or by the
// first later price period, and summed with or without an orchestrator filter.
module Volume {
  import opened Wrappers
  import opened Positions
  import opened Calendars
  import opened Events
  import opened Parameters
  import Lists = AdmittedLists
  import opened PairTables
  import opened Ledger
  import opened PricePeriods
  import opened Sums

  // A payment joined with its rail.
  datatype Payment = Payment(contract: Address, pair: Pair, token: Address, amount: nat, at: Position)

  const ZERO_ADDRESS: Address := "0x0000000000000000000000000000000000000000"

  // ---------- attribution ----------

  // The EXISTS subquery on service_pair, with or without an orchestrator.
  predicate Attributed(t: PairTable, p: Payment, filter: Option<Address>) {
    exists k :: k in t && k.pair == p.pair && t[k].Covers(k.from, p.at)
                && (filter.None? || t[k].orchestrator == filter.value)
  }

  function Attribute(t: PairTable, filter: Option<Address>, amount: Payment -> nat): Payment -> nat {
    (p: Payment) => if Attributed(t, p, filter) then amount(p) else 0
  }

  // ---------- stablecoins ----------

  ghost function SumKeys(s: set<Lists.ListKey>, f: Lists.ListKey -> nat): nat {
    if s == {} then 0
    else
      var k :| k in s;
      f(k) + SumKeys(s - {k}, f)
  }

  // Rows of the token list the payment is joined with.
  function TokenRows(t: TokenTable, p: Payment): set<Lists.ListKey> {
    set k | k in t && k.address == p.token && Lists.Covers(k, t[k], p.at)
  }

  function ScaledBy(t: TokenTable, p: Payment): Lists.ListKey -> nat {
    (k: Lists.ListKey) => if k in t then p.amount * Pow10(18 - t[k].data) else 0
  }

  predicate InQuarterSpan(c: Calendar, q: nat, at: Position) {
    QuarterStart(c, q) <= at.epoch <= QuarterStart(c, q) + c.epochsPerQuarter - 1
  }

  ghost function StableAmount(c: Calendar, t: Tables, q: nat): Payment -> nat {
    (p: Payment) =>
      if && Lists.ServiceAdmits(c, t.contracts, p.contract, q) && Lists.ServiceAdmits(c, t.tokens, p.token, q)
         && InQuarterSpan(c, q, p.at)
      then SumKeys(TokenRows(t.tokens, p), ScaledBy(t.tokens, p)) else 0
  }

  ghost function StableVolume(c: Calendar, t: Tables, q: nat, payments: seq<Payment>, filter: Option<Address>): nat {
    SumBy(payments, Attribute(t.pairs, filter, StableAmount(c, t, q)))
  }

  // ---------- FIL ----------

  // The NOT EXISTS form: a later period with none between.
  ghost predicate MatchedTo(periods: seq<Period>, i: nat, at: Position)
    requires i < |periods|
  {
    at.Before(periods[i].at)
    && !exists j :: 0 <= j < |periods| && at.Before(periods[j].at) && periods[j].at.Before(periods[i].at)
  }

  predicate FilEligible(c: Calendar, t: Tables, q: nat, p: Payment) {
    Lists.ServiceAdmits(c, t.contracts, p.contract, q) && p.token == ZERO_ADDRESS && p.at.epoch >= c.activationEpoch
  }

  ghost function FilAmount(c: Calendar, t: Tables, q: nat, periods: seq<Period>, i: nat): Payment -> nat
    requires i < |periods|
  {
    (p: Payment) => if FilEligible(c, t, q, p) && MatchedTo(periods, i, p.at) then p.amount else 0
  }

  ghost function MatchedFil(c: Calendar, t: Tables, q: nat, periods: seq<Period>, i: nat, payments: seq<Payment>,
                            filter: Option<Address>): nat
    requires i < |periods|
  {
    SumBy(payments, Attribute(t.pairs, filter, FilAmount(c, t, q, periods, i)))
  }

  // USD value of the FIL matched to a period, if the period belongs to the quarter.
  ghost function PeriodValue(c: Calendar, t: Tables, q: nat, periods: seq<Period>, i: nat, payments: seq<Payment>,
                             filter: Option<Address>): nat
    requires i < |periods|
  {
    if periods[i].quarter == q
    then Floored(MatchedFil(c, t, q, periods, i, payments, filter), periods[i].price.lot, periods[i].price.claim)
    else 0
  }

  // The value over the first n periods.
  ghost function FilVolume(c: Calendar, t: Tables, q: nat, periods: seq<Period>, n: nat, payments: seq<Payment>,
                           filter: Option<Address>): nat
    requires n <= |periods|
  {
    if n == 0 then 0
    else FilVolume(c, t, q, periods, n - 1, payments, filter) + PeriodValue(c, t, q, periods, n - 1, payments, filter)
  }

  // ---------- getQuarterlyVolume ----------

  datatype QuarterlyVolume = QuarterlyVolume(stablecoin: nat, fil: nat) {
    function Total(): nat {
      stablecoin + fil
    }
  }

  datatype VolumeError = NoSuchQuarter | MissingParameter(kind: ParameterType)

  // The first parameter that is missing, in the order in which they are looked for.
  ghost function FirstMissing(c: Calendar, t: Tables, q: nat): Option<ParameterType> {
    if ServicePick(c, t.parameters, PriceBandBps, q).None? then Some(PriceBandBps)
    else if ServicePick(c, t.parameters, MinLotFloor, q).None? then Some(MinLotFloor)
    else if ServicePick(c, t.parameters, MinLotAlphaNumerator, q).None? then Some(MinLotAlphaNumerator)
    else if ServicePick(c, t.parameters, MinLotAlphaDenominator, q).None? then Some(MinLotAlphaDenominator)
    else None
  }

  predicate NothingAdmitted<M>(c: Calendar, t: Lists.ListTable<M>, q: nat) {
    forall k | k in t :: !Lists.InForce(c, k, t[k], q)
  }

  ghost function VolumeOf(c: Calendar, t: Tables, periods: seq<Period>, payments: seq<Payment>, q: nat,
                          filter: Option<Address>): Result<QuarterlyVolume, VolumeError> {
    if q < 1 then Failure(NoSuchQuarter)
    else
      match FirstMissing(c, t, q)
      case Some(kind) => Failure(MissingParameter(kind))
      case None =>
        if NothingAdmitted(c, t.contracts, q) || NothingAdmitted(c, t.tokens, q) then Success(QuarterlyVolume(0, 0))
        else Success(QuarterlyVolume(StableVolume(c, t, q, payments, filter),
                                     FilVolume(c, t, q, periods, |periods|, payments, filter)))
  }
}
