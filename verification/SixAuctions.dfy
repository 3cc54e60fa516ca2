// Six auctions of one price in one block: the first five seed the anchor, the sixth qualifies.
module SixAuctions {
  import opened Wrappers
  import opened Positions
  import opened Calendars
  import opened Events
  import opened Ledger
  import opened SeedMedian
  import opened PricePeriods
  import opened PrefixStability

  function One(contract: Address, token: Address, amount: nat, at: Position): Auction {
    Auction(contract, token, amount, 1, at)
  }

  function Six(contract: Address, token: Address, amount: nat, epoch: nat): seq<Auction> {
    seq(6, i requires 0 <= i < 6 => One(contract, token, amount, Position(epoch, i)))
  }

  function Row(q: nat, epoch: nat, lot: nat, i: nat): Period {
    Period(q, Position(epoch, i), Price(lot, 1))
  }

  function Rows(q: nat, epoch: nat, lot: nat, n: nat): seq<Period> {
    seq(n, i requires 0 <= i < n => Row(q, epoch, lot, i))
  }

  // The lot of the auctions, if they have one, meets the floor of their quarter and there is a band.
  predicate Suffices(c: Calendar, t: Tables, contract: Address, token: Address, amount: nat, epoch: nat, lot: nat) {
    var q := QuarterOf(c, epoch);
    && q >= 1 && LotOf(c, t, One(contract, token, amount, Position(epoch, 0))) == Some(lot)
    && ThresholdsOf(c, t, q).Some? && lot >= ThresholdsOf(c, t, q).value.floor && BandOf(c, t, q).Some?
  }

  // A lot that meets the floor is substantial while no count is carried.
  lemma LotPicked(c: Calendar, t: Tables, a: Auction, lot: nat)
    requires QuarterOf(c, a.at.epoch) >= 1 && LotOf(c, t, a) == Some(lot)
    requires ThresholdsOf(c, t, QuarterOf(c, a.at.epoch)).Some?
    requires lot >= ThresholdsOf(c, t, QuarterOf(c, a.at.epoch)).value.floor
    ensures Picker(c, t, 0)(a) == Some(Period(QuarterOf(c, a.at.epoch), a.at, Price(lot, a.burned)))
  {
  }

  lemma {:induction false} EachPicked(c: Calendar, t: Tables, contract: Address, token: Address, amount: nat,
                                      epoch: nat, lot: nat, i: nat)
    requires Suffices(c, t, contract, token, amount, epoch, lot)
    ensures Picker(c, t, 0)(One(contract, token, amount, Position(epoch, i))) ==
            Some(Row(QuarterOf(c, epoch), epoch, lot, i))
  {
    var a := One(contract, token, amount, Position(epoch, i));
    assert LotOf(c, t, a) == LotOf(c, t, One(contract, token, amount, Position(epoch, 0)));
    LotPicked(c, t, a, lot);
  }

  lemma {:induction false} AllPicked(pick: Auction -> Option<Period>, auctions: seq<Auction>, rows: seq<Period>)
    requires |rows| == |auctions| && forall i | 0 <= i < |rows| :: pick(auctions[i]) == Some(rows[i])
    ensures Collect(pick, auctions) == rows
  {
    if rows == [] {
    } else {
      var n := |rows| - 1;
      AllPicked(pick, auctions[..n], rows[..n]);
      assert rows == rows[..n] + [rows[n]];
    }
  }

  lemma {:induction false} SixCollected(c: Calendar, t: Tables, contract: Address, token: Address, amount: nat,
                                        epoch: nat, lot: nat)
    requires Suffices(c, t, contract, token, amount, epoch, lot)
    ensures Substantial(c, t, 0, Six(contract, token, amount, epoch)) == Rows(QuarterOf(c, epoch), epoch, lot, 6)
  {
    var auctions, rows := Six(contract, token, amount, epoch), Rows(QuarterOf(c, epoch), epoch, lot, 6);
    forall i | 0 <= i < 6
      ensures Picker(c, t, 0)(auctions[i]) == Some(rows[i])
    {
      EachPicked(c, t, contract, token, amount, epoch, lot, i);
    }
    AllPicked(Picker(c, t, 0), auctions, rows);
  }

  lemma {:induction false} LastKept(keep: Period -> bool, rows: seq<Period>)
    requires |rows| == 6 && keep(rows[5])
    ensures BeyondSeeds(keep, rows) == [rows[5]]
  {
    assert BeyondSeeds(keep, rows[..5]) == [];
  }

  lemma {:induction false} FlagOne(test: Test, anchor: Price, p: Period)
    requires test(p, anchor)
    ensures Flag(test, anchor, [p]).emitted == [p]
  {
    assert [p][..0] == [] && Flag(test, anchor, []) == Flagged([], anchor);
  }

  lemma {:induction false} SeedPrice(q: nat, epoch: nat, lot: nat)
    ensures SeedAnchor(Rows(q, epoch, lot, 6)) == Price(lot, 1)
  {
    var seeds := Prices(Rows(q, epoch, lot, 6)[..SEEDS]);
    assert forall i | 0 <= i < |seeds| :: seeds[i] == Price(lot, 1);
  }

  // A price is in band of itself.
  lemma {:induction false} BandHoldsItself(c: Calendar, t: Tables, p: Period)
    requires BandOf(c, t, p.quarter).Some?
    ensures BandTest(c, t)(p, p.price)
  {
    var band := BandOf(c, t, p.quarter).value;
    assert band * p.price.lot >= 0;
    assert band * p.price.lot * p.price.claim >= 0;
  }

  // Of six rows the last is emitted, if it is in band of the seeds' anchor.
  lemma {:induction false} ResultsOfRows(c: Calendar, t: Tables, auctions: seq<Auction>, rows: seq<Period>)
    requires Substantial(c, t, 0, auctions) == rows && |rows| == 6 && BandOf(c, t, rows[5].quarter).Some?
    requires BandTest(c, t)(rows[5], SeedAnchor(rows))
    ensures Results(c, t, auctions, None, 0, rows[5].quarter) == [rows[5]]
  {
    LastKept(Keeper(c, t, rows[5].quarter), rows);
    FlagOne(BandTest(c, t), SeedAnchor(rows), rows[5]);
  }

  lemma {:induction false} SixResults(c: Calendar, t: Tables, contract: Address, token: Address, amount: nat,
                                      epoch: nat, lot: nat)
    requires Suffices(c, t, contract, token, amount, epoch, lot)
    ensures var q := QuarterOf(c, epoch);
            Results(c, t, Six(contract, token, amount, epoch), None, 0, q) == [Row(q, epoch, lot, 5)]
  {
    var q := QuarterOf(c, epoch);
    SixCollected(c, t, contract, token, amount, epoch, lot);
    SeedPrice(q, epoch, lot);
    BandHoldsItself(c, t, Row(q, epoch, lot, 5));
    ResultsOfRows(c, t, Six(contract, token, amount, epoch), Rows(q, epoch, lot, 6));
  }

  // Auctions of one block.
  ghost predicate InBlock(auctions: seq<Auction>, epoch: nat) {
    forall i | 0 <= i < |auctions| :: auctions[i].at == Position(epoch, i)
  }

  lemma {:induction false} OneQuarter(c: Calendar, auctions: seq<Auction>, epoch: nat)
    requires InBlock(auctions, epoch) && auctions != [] && QuarterOf(c, epoch) >= 1
    ensures Sorted(auctions) && Quarters(c, auctions) == [QuarterOf(c, epoch)]
  {
    var n := |auctions| - 1;
    assert auctions == auctions[..n] + [auctions[n]];
    QuartersAppend(c, auctions[..n], auctions[n]);
    if n > 0 {
      OneQuarter(c, auctions[..n], epoch);
    } else {
      assert Quarters(c, auctions[..0]) == [];
    }
  }

  lemma {:induction false} SixQuarters(c: Calendar, contract: Address, token: Address, amount: nat, epoch: nat)
    requires QuarterOf(c, epoch) >= 1
    ensures Sorted(Six(contract, token, amount, epoch))
    ensures Quarters(c, Six(contract, token, amount, epoch)) == [QuarterOf(c, epoch)]
  {
    OneQuarter(c, Six(contract, token, amount, epoch), epoch);
  }

  lemma {:induction false} FirstIteration(c: Calendar, t: Tables, auctions: seq<Auction>, q: nat, p: Period)
    requires Results(c, t, auctions, None, 0, q) == [p]
    ensures Loop(c, t, auctions, [q]) == LoopState(Some(p.price), 1, [p])
  {
    assert [q][..0] == [] && Loop(c, t, auctions, []) == START;
    assert START.periods + [p] == [p];
  }

  // The function emits the sixth of them.
  lemma {:induction false} SixQualify(c: Calendar, t: Tables, contract: Address, token: Address, amount: nat,
                                      epoch: nat, lot: nat)
    requires Suffices(c, t, contract, token, amount, epoch, lot)
    ensures var auctions, p := Six(contract, token, amount, epoch), Row(QuarterOf(c, epoch), epoch, lot, 5);
            && Loop(c, t, auctions, [QuarterOf(c, epoch)]) == LoopState(Some(p.price), 1, [p])
            && QualifyingPeriods(c, t, auctions) == [p]
  {
    SixResults(c, t, contract, token, amount, epoch, lot);
    SixQuarters(c, contract, token, amount, epoch);
    FirstIteration(c, t, Six(contract, token, amount, epoch), QuarterOf(c, epoch),
                   Row(QuarterOf(c, epoch), epoch, lot, 5));
  }
}
