// Products, quotients and their order.
module Products {

  lemma {:induction false} MulMonotone(k: nat, a: int, b: int)
    requires a <= b
    ensures k * a <= k * b
  {
    assert k * b == k * a + k * (b - a);
  }

  lemma {:induction false} MulStrict(k: nat, a: int, b: int)
    requires a < b && k >= 1
    ensures k * a < k * b
  {
    MulMonotone(k, a + 1, b);
    assert k * (a + 1) == k * a + k;
  }

  lemma {:induction false} Cancel(k: nat, a: int, b: int)
    requires k * a <= k * b && k >= 1
    ensures a <= b
  {
    if b < a {
      MulStrict(k, b, a);
    }
  }

  // From x : y <= l : c and u : v <= c : l follows x : y <= v : u.
  lemma {:induction false} Compose(c: nat, l: nat, x: nat, y: nat, u: nat, v: nat)
    requires c >= 1 && c * x <= l * y && l * u <= c * v
    ensures x * u <= y * v
  {
    MulMonotone(u, c * x, l * y);
    MulMonotone(y, l * u, c * v);
    Rearrange(u, c, x);
    Rearrange(u, l, y);
    Rearrange(y, c, v);
    Cancel(c, x * u, y * v);
  }

  lemma {:induction false} ComposeBelow(c: nat, l: nat, x: nat, y: nat, u: nat, v: nat)
    requires c >= 1 && l * y <= c * x && c * v <= l * u
    ensures y * v <= x * u
  {
    MulMonotone(u, l * y, c * x);
    MulMonotone(y, c * v, l * u);
    Rearrange(u, c, x);
    Rearrange(u, l, y);
    Rearrange(y, c, v);
    Cancel(c, y * v, x * u);
  }

  lemma {:induction false} Rearrange(a: nat, b: nat, c: nat)
    ensures a * (b * c) == b * (c * a) == c * (b * a)
  {
    assert a * (b * c) == a * b * c;
    assert b * (c * a) == a * b * c;
    assert c * (b * a) == a * b * c;
  }

  lemma {:induction false} Regroup(a: nat, b: nat, c: nat, d: nat)
    ensures a * (b * (c * d)) == (a * c) * (b * d)
  {
    assert a * (b * (c * d)) == a * b * c * d;
    assert (a * c) * (b * d) == a * b * c * d;
  }

  lemma {:induction false} QuotientUnique(x: nat, d: nat, k: nat)
    requires d >= 1 && d * k <= x < d * k + d
    ensures x / d == k
  {
    var q := x / d;
    Division(x, d);
    assert d * (q + 1) == d * q + d && d * (k + 1) == d * k + d;
    if q < k {
      MulMonotone(d, q + 1, k);
    } else if k < q {
      MulMonotone(d, k + 1, q);
    }
  }

  lemma {:induction false} Division(x: nat, d: nat)
    requires d >= 1
    ensures x / d >= 0 && 0 <= x - d * (x / d) < d
  {
    assert x == d * (x / d) + x % d;
  }

  lemma {:induction false} NoCarry(qa: nat, ra: nat, qb: nat, rb: nat, d: nat)
    requires d >= 1 && ra + rb < d
    ensures (d * qa + ra + (d * qb + rb)) / d == qa + qb
  {
    assert d * (qa + qb) == d * qa + d * qb;
    QuotientUnique(d * qa + ra + (d * qb + rb), d, qa + qb);
  }

  lemma {:induction false} Carry(qa: nat, ra: nat, qb: nat, rb: nat, d: nat)
    requires ra < d && rb < d <= ra + rb
    ensures (d * qa + ra + (d * qb + rb)) / d == qa + qb + 1
  {
    assert d * (qa + qb + 1) == d * qa + d * qb + d;
    QuotientUnique(d * qa + ra + (d * qb + rb), d, qa + qb + 1);
  }

  // Rounding two parts down loses at most one unit more than rounding their sum.
  lemma {:induction false} FloorPair(a: nat, b: nat, d: nat)
    requires d >= 1
    ensures a / d + b / d <= (a + b) / d <= a / d + b / d + 1
  {
    var qa, qb := a / d, b / d;
    Division(a, d);
    Division(b, d);
    var ra, rb := a - d * qa, b - d * qb;
    if ra + rb < d {
      NoCarry(qa, ra, qb, rb, d);
    } else {
      Carry(qa, ra, qb, rb, d);
    }
  }
}
