// Sums over sequences, and what rounding each part down does to a sum.
module Sums {
  import opened Products

  function SumBy<T>(s: seq<T>, f: T -> nat): nat {
    if s == [] then 0 else SumBy(s[..|s| - 1], f) + f(s[|s| - 1])
  }

  lemma {:induction false} SumEqual<T>(s: seq<T>, f: T -> nat, g: T -> nat)
    requires forall i | 0 <= i < |s| :: f(s[i]) == g(s[i])
    ensures SumBy(s, f) == SumBy(s, g)
  {
    if s != [] {
      SumEqual(s[..|s| - 1], f, g);
    }
  }

  lemma {:induction false} SumPlus<T>(s: seq<T>, f: T -> nat, g: T -> nat, h: T -> nat)
    requires forall i | 0 <= i < |s| :: h(s[i]) == f(s[i]) + g(s[i])
    ensures SumBy(s, h) == SumBy(s, f) + SumBy(s, g)
  {
    if s != [] {
      SumPlus(s[..|s| - 1], f, g, h);
    }
  }

  lemma {:induction false} SumZero<T>(s: seq<T>, f: T -> nat)
    requires forall i | 0 <= i < |s| :: f(s[i]) == 0
    ensures SumBy(s, f) == 0
  {
    if s != [] {
      SumZero(s[..|s| - 1], f);
    }
  }

  ghost predicate Distinct<T>(s: seq<T>) {
    forall i, j | 0 <= i < j < |s| :: s[i] != s[j]
  }

  // A sum in which one element alone counts.
  lemma {:induction false} SumSingle<T>(s: seq<T>, f: T -> nat, x: T)
    requires Distinct(s) && x in s
    requires forall i | 0 <= i < |s| && s[i] != x :: f(s[i]) == 0
    ensures SumBy(s, f) == f(x)
  {
    var n := |s| - 1;
    if s[n] == x {
      SumZero(s[..n], f);
    } else {
      assert s == s[..n] + [s[n]];
      SumSingle(s[..n], f, x);
    }
  }

  // ---------- rounding ----------

  // Value of an amount at a price, rounded down.
  function Floored(amount: nat, lot: nat, claim: nat): nat
    requires claim >= 1
  {
    (amount * lot) / claim
  }

  // The whole units an amount buys at lot / claim: no more than it is worth, and one more would be.
  ghost predicate Worth(value: nat, amount: nat, lot: nat, claim: nat) {
    claim * value <= amount * lot < claim * (value + 1)
  }

  lemma {:induction false} FlooredIsWorth(amount: nat, lot: nat, claim: nat)
    requires claim >= 1
    ensures Worth(Floored(amount, lot, claim), amount, lot, claim)
  {
    MulMonotone(amount, 0, lot);
    Division(amount * lot, claim);
  }

  lemma {:induction false} WorthIsUnique(v: nat, u: nat, amount: nat, lot: nat, claim: nat)
    requires claim >= 1 && Worth(v, amount, lot, claim) && Worth(u, amount, lot, claim)
    ensures v == u
  {
    if v < u {
      MulMonotone(claim, v + 1, u);
    } else if u < v {
      MulMonotone(claim, u + 1, v);
    }
  }

  lemma {:induction false} FlooredPair(a: nat, b: nat, lot: nat, claim: nat)
    requires claim >= 1
    ensures Floored(a, lot, claim) + Floored(b, lot, claim) <= Floored(a + b, lot, claim)
    ensures Floored(a + b, lot, claim) <= Floored(a, lot, claim) + Floored(b, lot, claim) + 1
  {
    assert (a + b) * lot == a * lot + b * lot;
    FloorPair(a * lot, b * lot, claim);
  }

  // Rounding k parts down loses at most k - 1 units against rounding their sum.
  lemma {:induction false} FloorSum<T>(s: seq<T>, f: T -> nat, lot: nat, claim: nat, g: T -> nat)
    requires claim >= 1 && s != []
    requires forall i | 0 <= i < |s| :: g(s[i]) == Floored(f(s[i]), lot, claim)
    ensures SumBy(s, g) <= Floored(SumBy(s, f), lot, claim) <= SumBy(s, g) + |s| - 1
  {
    var n := |s| - 1;
    if n == 0 {
      assert SumBy(s[..0], f) == 0 && SumBy(s[..0], g) == 0;
    } else {
      FloorSum(s[..n], f, lot, claim, g);
      FlooredPair(SumBy(s[..n], f), f(s[n]), lot, claim);
    }
  }
}
