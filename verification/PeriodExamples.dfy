// Six auctions in quarter 1, of which one is emitted, none in quarter 2 and one in quarter 3: the count
// carried into quarter 3 is not that of quarter 2, and a contract removed behind the auctions leaves the
// view stale.
module PeriodExamples {
  import opened Wrappers
  import opened Positions
  import opened Calendars
  import opened Events
  import opened Parameters
  import opened AdmittedLists
  import opened Ledger
  import opened SeedMedian
  import opened PricePeriods
  import opened PrefixStability
  import opened PeriodTable
  import opened PeriodFreshness
  import opened PeriodView
  import opened SixAuctions
  import opened VolumeFromLog

  // Quarter 1 is epochs 10 to 19, quarter 3 epochs 30 to 39.
  const EXAMPLE_CALENDAR: Calendar := Calendar(10, 10)
  const EXAMPLE_WORLD := World(EXAMPLE_CALENDAR, map["usd" := 18])
  const PARAMS := PricingParams(0, 0, 1, 0, 5)

  const LISTED := Log(0, 0, 0, AdmittedListsUpdated(["pay"], ["usd"]))
  const CONFIGURED := Log(1, 0, 0, PricingParamsUpdated(PARAMS))
  const LOGS := [LISTED] + [CONFIGURED]

  const FIRST := Six("pay", "usd", 1, 10)
  const LATER := One("pay", "usd", 1, Position(30, 0))
  const AUCTIONS := FIRST + [LATER]

  // ---------- the tables ----------

  lemma {:induction false} ListsAccepted<M>(name: Address, data: Source<M>, at: Position)
    ensures UpdateList(map[], [name], data, at).Some?
  {
    assert RunUpdates([], data) == Some(map[]);
    RunSound([], data);
    UpdateRejected(map[], [], data, Position(0, 0), [name], at);
  }

  lemma {:induction false} FirstAccepted()
    ensures Step(EXAMPLE_WORLD, EMPTY, LISTED).Success?
    ensures Step(EXAMPLE_WORLD, EMPTY, LISTED).value.parameters == map[]
  {
    ListsAccepted("pay", Everywhere(()), Position(0, 0));
    ListsAccepted("usd", Known(EXAMPLE_WORLD.decimals), Position(0, 0));
  }

  lemma {:induction false} SecondAccepted(t: Tables)
    requires t.parameters == map[]
    ensures Step(EXAMPLE_WORLD, t, CONFIGURED).Success?
  {
    InsertParamsStep(map[], PARAMS, Position(0, 0), Position(1, 0));
  }

  lemma {:induction false} LogsAccepted()
    ensures Run(EXAMPLE_WORLD, EMPTY, LOGS).Success? && Increasing(LOGS)
  {
    FirstAccepted();
    RunOne(EXAMPLE_WORLD, EMPTY, [], LISTED);
    assert [] + [LISTED] == [LISTED];
    SecondAccepted(Step(EXAMPLE_WORLD, EMPTY, LISTED).value);
    RunOne(EXAMPLE_WORLD, EMPTY, [LISTED], CONFIGURED);
  }

  lemma {:induction false} ListsTold()
    ensures ContractUpdates(LOGS) == [Update(Position(0, 0), ["pay"])]
    ensures TokenUpdates(LOGS) == [Update(Position(0, 0), ["usd"])]
  {
    assert LOGS[..1] == [LISTED] && LOGS[..1][..0] == [];
    assert ContractUpdates([]) == [] && TokenUpdates([]) == [];
    assert ContractUpdates(LOGS[..1]) == [Update(Position(0, 0), ["pay"])];
    assert TokenUpdates(LOGS[..1]) == [Update(Position(0, 0), ["usd"])];
  }

  lemma {:induction false} LotIsOne(t: Tables)
    requires Run(EXAMPLE_WORLD, EMPTY, LOGS) == Success(t)
    ensures LotOf(EXAMPLE_CALENDAR, t, FIRST[0]) == Some(1)
  {
    LogsAccepted();
    ListsTold();
    LotFromLog(EXAMPLE_WORLD, LOGS, FIRST[0]);
    assert ListBefore(ContractUpdates(LOGS), 10) == ["pay"] && ListBefore(TokenUpdates(LOGS), 10) == ["usd"];
    assert Pow10(0) == 1;
  }

  lemma {:induction false} ParametersTold(q: nat)
    requires q >= 1
    ensures LastParams(LOGS, QuarterStart(EXAMPLE_CALENDAR, q)) == Some(PARAMS)
    ensures Posted(LOGS, q - 1) == None
  {
    QuarterStartMonotone(EXAMPLE_CALENDAR, 1, q);
    assert LOGS[..1] == [LISTED] && LOGS[..1][..0] == [];
    assert Posted([], q - 1) == None;
    assert Posted([LISTED], q - 1) == None;
  }

  lemma {:induction false} ThresholdsAreLow(t: Tables, q: nat)
    requires Run(EXAMPLE_WORLD, EMPTY, LOGS) == Success(t) && q >= 1
    ensures ThresholdsOf(EXAMPLE_CALENDAR, t, q) == Some(Thresholds(0, 0, 1, 0))
    ensures BandOf(EXAMPLE_CALENDAR, t, q) == Some(0)
  {
    LogsAccepted();
    ThresholdsFromLog(EXAMPLE_WORLD, LOGS, q);
    BandFromLog(EXAMPLE_WORLD, LOGS, q);
    ParametersTold(q);
  }

  // ---------- the quarters visited ----------

  lemma {:induction false} VisitedQuarters()
    ensures Sorted(AUCTIONS) && Quarters(EXAMPLE_CALENDAR, AUCTIONS) == [1, 3]
  {
    SixQuarters(EXAMPLE_CALENDAR, "pay", "usd", 1, 10);
    assert QuarterOfAuction(EXAMPLE_CALENDAR, LATER) == 3;
    QuartersAppend(EXAMPLE_CALENDAR, FIRST, LATER);
    assert forall i | 0 <= i < 6 :: FIRST[i].at == Position(10, i);
  }

  // The auction of quarter 3 does not matter to the iteration of quarter 1, which emits a row.
  lemma {:induction false} FirstQuarter(t: Tables)
    requires Run(EXAMPLE_WORLD, EMPTY, LOGS) == Success(t)
    ensures Loop(EXAMPLE_CALENDAR, t, AUCTIONS, [1]) == LoopState(Some(Price(1, 1)), 1, [Row(1, 10, 1, 5)])
  {
    LotIsOne(t);
    ThresholdsAreLow(t, 1);
    SixQualify(EXAMPLE_CALENDAR, t, "pay", "usd", 1, 10, 1);
    assert QuarterOfAuction(EXAMPLE_CALENDAR, LATER) == 3;
    OneMoreElsewhere(EXAMPLE_CALENDAR, t, FIRST, LATER, [1]);
  }

  lemma {:induction false} NothingInQuarterTwo(t: Tables)
    ensures CountIn(QualifyingPeriods(EXAMPLE_CALENDAR, t, AUCTIONS), 2) == 0
  {
    VisitedQuarters();
    UnvisitedCount(EXAMPLE_CALENDAR, t, AUCTIONS, [1, 3], 2);
  }

  // The count carried into quarter 3 is 1, while the view holds no row of quarter 2.
  lemma {:induction false} CountsDiffer(t: Tables)
    requires Run(EXAMPLE_WORLD, EMPTY, LOGS) == Success(t)
    ensures Sorted(AUCTIONS) && Quarters(EXAMPLE_CALENDAR, AUCTIONS) == [1, 3]
    ensures Loop(EXAMPLE_CALENDAR, t, AUCTIONS, [1]).count == 1
    ensures CountIn(QualifyingPeriods(EXAMPLE_CALENDAR, t, AUCTIONS), 2) == 0
  {
    VisitedQuarters();
    FirstQuarter(t);
    NothingInQuarterTwo(t);
  }

  // ---------- five seeds of different prices ----------

  function Lots(i: nat): nat {
    if i == 0 then 50 else if i == 1 then 10 else if i == 2 then 40 else if i == 3 then 20 else 30
  }

  const UNEQUAL := seq(6, i requires 0 <= i < 6 => One("pay", "usd", Lots(i), Position(10, i)))
  const UNEQUAL_ROWS := seq(6, i requires 0 <= i < 6 => Row(1, 10, Lots(i), i))

  // The price in the middle is neither the first nor the last of them.
  lemma {:induction false} MiddleIsThirty(m: Price)
    requires Middle([Price(50, 1), Price(10, 1), Price(40, 1), Price(20, 1), Price(30, 1)], m)
    ensures m == Price(30, 1)
  {
    var s: seq<Price> := [Price(50, 1), Price(10, 1), Price(40, 1), Price(20, 1), Price(30, 1)];
    var below, above := set j: nat | j < |s| && NotAbove(s[j], m), set j: nat | j < |s| && NotAbove(m, s[j]);
    assert m == s[0] ==> above == {0};
    assert m == s[1] ==> below == {1};
    assert m == s[2] ==> above == {0, 2};
    assert m == s[3] ==> below == {1, 3};
  }

  lemma {:induction false} UnequalPicked(t: Tables, i: nat)
    requires Run(EXAMPLE_WORLD, EMPTY, LOGS) == Success(t) && i < 6
    ensures Picker(EXAMPLE_CALENDAR, t, 0)(UNEQUAL[i]) == Some(UNEQUAL_ROWS[i])
  {
    LogsAccepted();
    ListsTold();
    LotFromLog(EXAMPLE_WORLD, LOGS, UNEQUAL[i]);
    assert ListBefore(ContractUpdates(LOGS), 10) == ["pay"] && ListBefore(TokenUpdates(LOGS), 10) == ["usd"];
    assert Pow10(0) == 1;
    ThresholdsAreLow(t, 1);
    LotPicked(EXAMPLE_CALENDAR, t, UNEQUAL[i], Lots(i));
  }

  lemma {:induction false} UnequalAnchor()
    ensures SeedAnchor(UNEQUAL_ROWS) == Price(30, 1)
  {
    var seeds := Prices(UNEQUAL_ROWS[..SEEDS]);
    assert seeds == [Price(50, 1), Price(10, 1), Price(40, 1), Price(20, 1), Price(30, 1)];
    MedianIsTrue(seeds);
    MiddleIsThirty(SeedAnchor(UNEQUAL_ROWS));
  }

  lemma {:induction false} UnequalCollected(t: Tables)
    requires Run(EXAMPLE_WORLD, EMPTY, LOGS) == Success(t)
    ensures Substantial(EXAMPLE_CALENDAR, t, 0, UNEQUAL) == UNEQUAL_ROWS
  {
    forall i | 0 <= i < 6
      ensures Picker(EXAMPLE_CALENDAR, t, 0)(UNEQUAL[i]) == Some(UNEQUAL_ROWS[i])
    {
      UnequalPicked(t, i);
    }
    AllPicked(Picker(EXAMPLE_CALENDAR, t, 0), UNEQUAL, UNEQUAL_ROWS);
  }

  lemma {:induction false} UnequalInBand(t: Tables)
    requires BandOf(EXAMPLE_CALENDAR, t, 1).Some?
    ensures BandTest(EXAMPLE_CALENDAR, t)(UNEQUAL_ROWS[5], SeedAnchor(UNEQUAL_ROWS))
  {
    UnequalAnchor();
    BandHoldsItself(EXAMPLE_CALENDAR, t, UNEQUAL_ROWS[5]);
  }

  lemma {:induction false} UnequalResults(t: Tables)
    requires Run(EXAMPLE_WORLD, EMPTY, LOGS) == Success(t)
    ensures Results(EXAMPLE_CALENDAR, t, UNEQUAL, None, 0, 1) == [UNEQUAL_ROWS[5]]
  {
    UnequalCollected(t);
    ThresholdsAreLow(t, 1);
    UnequalInBand(t);
    ResultsOfRows(EXAMPLE_CALENDAR, t, UNEQUAL, UNEQUAL_ROWS);
  }

  // Lots of 50, 10, 40, 20 and 30 anchor the sixth auction, of 30, at 30: it is emitted in a band of zero.
  lemma {:induction false} MiddleSeedEmits(t: Tables)
    requires Run(EXAMPLE_WORLD, EMPTY, LOGS) == Success(t)
    ensures QualifyingPeriods(EXAMPLE_CALENDAR, t, UNEQUAL) == [Period(1, Position(10, 5), Price(30, 1))]
  {
    UnequalResults(t);
    OneQuarter(EXAMPLE_CALENDAR, UNEQUAL, 10);
    FirstIteration(EXAMPLE_CALENDAR, t, UNEQUAL, 1, UNEQUAL_ROWS[5]);
  }

  // ---------- a contract removed behind the auctions ----------

  const REMOVED := Log(5, 0, 0, AdmittedListsUpdated([], ["usd"]))

  lemma {:induction false} QualifyingNotEmpty(t: Tables)
    requires Run(EXAMPLE_WORLD, EMPTY, LOGS) == Success(t)
    ensures QualifyingPeriods(EXAMPLE_CALENDAR, t, AUCTIONS) != []
  {
    VisitedQuarters();
    FirstQuarter(t);
    CarriedCount(EXAMPLE_CALENDAR, t, AUCTIONS, 1);
    assert [1, 3][..1] == [1];
  }

  lemma {:induction false} ContractsAccept(t: Tables)
    requires Run(EXAMPLE_WORLD, EMPTY, LOGS) == Success(t)
    ensures UpdateList(t.contracts, [], Everywhere(()), REMOVED.At()).Some?
  {
    LogsAccepted();
    ListsTold();
    RunContracts(EXAMPLE_WORLD, LOGS);
    RunSound(ContractUpdates(LOGS), Everywhere(()));
    UpdateRejected(t.contracts, ["pay"], Everywhere(()), Position(0, 1), [], REMOVED.At());
  }

  lemma {:induction false} TokensAccept(t: Tables)
    requires Run(EXAMPLE_WORLD, EMPTY, LOGS) == Success(t)
    ensures UpdateList(t.tokens, ["usd"], Known(EXAMPLE_WORLD.decimals), REMOVED.At()) == Some(t.tokens)
  {
    var data := Known(EXAMPLE_WORLD.decimals);
    LogsAccepted();
    ListsTold();
    RunTokens(EXAMPLE_WORLD, LOGS);
    RunSound(TokenUpdates(LOGS), data);
    UpdateRejected(t.tokens, ["usd"], data, Position(0, 1), ["usd"], REMOVED.At());
    UpdateStays(t.tokens, ["usd"], data, REMOVED.At());
  }

  lemma {:induction false} RemovalAccepted(t: Tables)
    requires Run(EXAMPLE_WORLD, EMPTY, LOGS) == Success(t)
    ensures Step(EXAMPLE_WORLD, t, REMOVED).Success?
    ensures Step(EXAMPLE_WORLD, t, REMOVED).value.tokens == t.tokens
  {
    ContractsAccept(t);
    TokensAccept(t);
  }

  lemma {:induction false} NoContracts(start: nat)
    ensures start >= 10 ==> ListBefore(ContractUpdates(LOGS + [REMOVED]), start) == []
  {
    var logs := LOGS + [REMOVED];
    assert logs[..2] == LOGS;
    var us := ContractUpdates(logs);
    assert us == ContractUpdates(LOGS) + [Update(Position(5, 0), [])];
  }

  lemma {:induction false} NoLot(t: Tables, a: Auction)
    requires Run(EXAMPLE_WORLD, EMPTY, LOGS + [REMOVED]) == Success(t) && QuarterOfAuction(EXAMPLE_CALENDAR, a) >= 1
    ensures LotOf(EXAMPLE_CALENDAR, t, a) == None
  {
    var q := QuarterOfAuction(EXAMPLE_CALENDAR, a);
    assert Increasing(LOGS + [REMOVED]);
    QuarterStartMonotone(EXAMPLE_CALENDAR, 1, q);
    NoContracts(QuarterStart(EXAMPLE_CALENDAR, q));
    LotFromLog(EXAMPLE_WORLD, LOGS + [REMOVED], a);
  }

  // After it no auction of the example has a lot, so the function returns nothing.
  lemma {:induction false} NothingQualifies(t: Tables)
    requires Run(EXAMPLE_WORLD, EMPTY, LOGS + [REMOVED]) == Success(t)
    ensures QualifyingPeriods(EXAMPLE_CALENDAR, t, AUCTIONS) == []
  {
    forall i | 0 <= i < |AUCTIONS| && QuarterOfAuction(EXAMPLE_CALENDAR, AUCTIONS[i]) >= 1
      ensures LotOf(EXAMPLE_CALENDAR, t, AUCTIONS[i]).None?
    {
      NoLot(t, AUCTIONS[i]);
    }
    if QualifyingPeriods(EXAMPLE_CALENDAR, t, AUCTIONS) != [] {
      RowHasAuction(EXAMPLE_CALENDAR, t, AUCTIONS, 0);
      assert false;
    }
  }

  const LOGGED := [LogIndexed(LISTED)] + [LogIndexed(CONFIGURED)]

  lemma {:induction false} FirstLogged()
    ensures var first := After(EXAMPLE_WORLD, [LogIndexed(LISTED)]);
            first.Success? && first.value.tables.parameters == map[]
    ensures LogsOf([LogIndexed(LISTED)]) == [LISTED]
  {
    FirstAccepted();
    LogNext(EXAMPLE_WORLD, [], LISTED);
    assert [] + [LogIndexed(LISTED)] == [LogIndexed(LISTED)] && [] + [LISTED] == [LISTED];
  }

  lemma {:induction false} BothLogged()
    ensures After(EXAMPLE_WORLD, LOGGED).Success? && LogsOf(LOGGED) == LOGS
  {
    FirstLogged();
    SecondAccepted(After(EXAMPLE_WORLD, [LogIndexed(LISTED)]).value.tables);
    LogNext(EXAMPLE_WORLD, [LogIndexed(LISTED)], CONFIGURED);
  }

  const FILLED := LOGGED + [AuctionsIndexed(AUCTIONS)]

  lemma {:induction false} BeforeRemoval()
    ensures After(EXAMPLE_WORLD, FILLED).Success? && LogsOf(FILLED) == LOGS
    ensures var d := After(EXAMPLE_WORLD, FILLED).value;
            && Run(EXAMPLE_WORLD, EMPTY, LOGS) == Success(d.tables) && d.auctions == AUCTIONS
            && d.view == QualifyingPeriods(EXAMPLE_CALENDAR, d.tables, AUCTIONS)
  {
    BothLogged();
    AfterRuns(EXAMPLE_WORLD, LOGGED);
    AuctionsNext(EXAMPLE_WORLD, LOGGED, AUCTIONS);
  }

  const CHANGES := FILLED + [LogIndexed(REMOVED)]

  // The view keeps its rows: the log refreshes nothing.
  lemma {:induction false} RemovalNext(d: Database)
    requires After(EXAMPLE_WORLD, FILLED) == Success(d) && Run(EXAMPLE_WORLD, EMPTY, LOGS) == Success(d.tables)
    ensures Step(EXAMPLE_WORLD, d.tables, REMOVED).Success?
    ensures After(EXAMPLE_WORLD, CHANGES) ==
            Success(Database(Step(EXAMPLE_WORLD, d.tables, REMOVED).value, d.auctions, d.view))
    ensures LogsOf(CHANGES) == LogsOf(FILLED) + [REMOVED]
  {
    RemovalAccepted(d.tables);
    LogNext(EXAMPLE_WORLD, FILLED, REMOVED);
  }

  lemma {:induction false} ViewGoesStale()
    ensures After(EXAMPLE_WORLD, CHANGES).Success? && Increasing(LogsOf(CHANGES))
    ensures var d := After(EXAMPLE_WORLD, CHANGES).value;
            d.view != [] && QualifyingPeriods(EXAMPLE_CALENDAR, d.tables, d.auctions) == []
  {
    BeforeRemoval();
    var d := After(EXAMPLE_WORLD, FILLED).value;
    QualifyingNotEmpty(d.tables);
    RemovalNext(d);
    RunOne(EXAMPLE_WORLD, EMPTY, LOGS, REMOVED);
    NothingQualifies(Step(EXAMPLE_WORLD, d.tables, REMOVED).value);
  }
}
