// The minimum-lot test of the price-period function, which does not divide, against the minimum lot
// the quarters service reports.
module MinLot {
  import opened Wrappers
  import opened Products

  // auction_passes_min_lot
  predicate Passes(lot: nat, floor: nat, volume: nat, n: nat, num: nat, den: nat) {
    if volume == 0 || n == 0 then lot >= floor
    else lot * den * n >= num * volume - (den * n - 1)
  }

  // The minimum lot before the floor: the posted volume's share, rounded down.
  function Quotient(num: nat, volume: nat, den: nat, n: nat): nat
    requires den != 0 && n != 0
  {
    MulMonotone(num, 0, volume);
    Division(num * volume, Product(den, n));
    (num * volume) / Product(den, n)
  }

  // minLotAttoUsd of the quarters service.
  function Reported(floor: nat, volume: nat, n: nat, num: nat, den: nat): nat {
    var unbound := if den != 0 && n != 0 then Quotient(num, volume, den, n) else 0;
    if unbound >= floor then unbound else floor
  }

  function Product(den: nat, n: nat): (p: nat)
    requires den != 0 && n != 0
    ensures p == den * n && p >= 1
  {
    assert den * n >= 1 by { Positive(den, n); }
    den * n
  }

  lemma {:induction false} Positive(a: nat, b: nat)
    requires a >= 1 && b >= 1
    ensures a * b >= 1
  {
    assert a * b == (a - 1) * b + b;
    assert (a - 1) * b >= 0;
  }

  // The division-free comparison is a comparison with the rounded-down quotient.
  lemma {:induction false} DivisionFree(lot: nat, volume: nat, n: nat, num: nat, den: nat, floor: nat)
    requires volume > 0 && n > 0 && den > 0
    ensures Passes(lot, floor, volume, n, num, den) <==> lot >= Quotient(num, volume, den, n)
  {
    var x, d := num * volume, Product(den, n);
    var k := x / d;
    Division(x, d);
    assert lot * den * n == d * lot by { assert lot * den * n == lot * (den * n); }
    if lot >= k {
      assert d * lot >= d * k by { MulMonotone(d, k, lot); }
    } else {
      assert d * (lot + 1) <= d * k by { MulMonotone(d, lot + 1, k); }
      assert d * (lot + 1) == d * lot + d;
    }
  }

  // The two agree on every lot exactly when the volume or the count is zero, or the denominator is
  // positive and the quotient is no lower than the floor: the test drops the floor otherwise.
  lemma {:induction false} AgreesExactly(floor: nat, volume: nat, n: nat, num: nat, den: nat)
    ensures (forall lot: nat ::
               Passes(lot, floor, volume, n, num, den) <==> lot >= Reported(floor, volume, n, num, den))
            <==> volume == 0 || n == 0 || (den > 0 && Quotient(num, volume, den, n) >= floor)
  {
    if volume == 0 && den > 0 && n > 0 {
      Division(0, Product(den, n));
      assert num * volume == 0;
      ZeroQuotient(Product(den, n));
    } else if volume > 0 && n > 0 && den == 0 {
      // With a zero denominator the test rejects every lot.
      var lot := Reported(floor, volume, n, num, den);
      assert num * volume >= 0;
      assert lot * den * n == 0 by { assert lot * den == 0; }
      assert den * n == 0;
      assert !Passes(lot, floor, volume, n, num, den);
    } else if volume > 0 && n > 0 {
      var quotient := Quotient(num, volume, den, n);
      Division(num * volume, Product(den, n));
      forall lot: nat
        ensures Passes(lot, floor, volume, n, num, den) <==> lot >= quotient
      {
        DivisionFree(lot, volume, n, num, den, floor);
      }
      if quotient < floor {
        assert Passes(quotient, floor, volume, n, num, den);
      }
    }
  }

  lemma ZeroQuotient(d: nat)
    requires d >= 1
    ensures 0 / d == 0
  {
  }

  // A lot of 5 passes with a floor of 10, once there is bound volume and a count.
  lemma {:induction false} FloorDropped()
    ensures Passes(5, 10, 1, 1, 1, 1) && Reported(10, 1, 1, 1, 1) == 10
  {
    assert 1 * 1 == 1 && 1 / 1 == 1;
  }

  // The least lot that passes, if any does.
  function Minimum(floor: nat, volume: nat, n: nat, num: nat, den: nat): Option<nat> {
    if volume == 0 || n == 0 then Some(floor)
    else if den == 0 then None
    else Some(Quotient(num, volume, den, n))
  }

  lemma {:induction false} PassesFrom(lot: nat, floor: nat, volume: nat, n: nat, num: nat, den: nat)
    ensures var m := Minimum(floor, volume, n, num, den);
            Passes(lot, floor, volume, n, num, den) <==> m.Some? && lot >= m.value
  {
    if volume > 0 && n > 0 {
      if den == 0 {
        assert num * volume >= 0;
        assert lot * den * n == 0 by { assert lot * den == 0; }
        assert den * n == 0;
      } else {
        DivisionFree(lot, volume, n, num, den, floor);
      }
    }
  }

  // Where they disagree with a positive denominator the test is the weaker one.
  lemma {:induction false} WeakerWhenFloorBinds(lot: nat, floor: nat, volume: nat, n: nat, num: nat, den: nat)
    requires den > 0 && lot >= Reported(floor, volume, n, num, den)
    ensures Passes(lot, floor, volume, n, num, den)
  {
    if volume > 0 && n > 0 {
      DivisionFree(lot, volume, n, num, den, floor);
    }
  }
}
