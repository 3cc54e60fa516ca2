// The seed anchor: prices compared by cross-multiplication, ranked by counting, the third of five taken.
module SeedMedian {
  import opened Products

  datatype PriceData = Price(lot: nat, claim: nat)

  // A lot in atto-USD paid for a claim in atto-FIL.
  type Price = p: PriceData | p.claim >= 1 witness Price(0, 1)

  // lot / claim of `a` against that of `b`, without dividing.
  predicate NotAbove(a: Price, b: Price) {
    a.lot * b.claim <= b.lot * a.claim
  }

  // The join condition that ranks seed i: seed j counts when its price is lower, or equal with a
  // number no larger.
  predicate CountsFor(s: seq<Price>, i: nat, j: nat)
    requires i < |s| && j < |s|
  {
    s[j].lot * s[i].claim < s[i].lot * s[j].claim || (s[j].lot * s[i].claim == s[i].lot * s[j].claim && j <= i)
  }

  function Counted(s: seq<Price>, i: nat): set<nat>
    requires i < |s|
  {
    set j: nat | j < |s| && CountsFor(s, i, j)
  }

  function Rank(s: seq<Price>, i: nat): nat
    requires i < |s|
  {
    |Counted(s, i)|
  }

  // ---------- the order is strict and total ----------

  lemma {:induction false} NotAboveTransitive(a: Price, b: Price, c: Price)
    requires NotAbove(a, b) && NotAbove(b, c)
    ensures NotAbove(a, c)
  {
    MulMonotone(c.claim, a.lot * b.claim, b.lot * a.claim);
    MulMonotone(a.claim, b.lot * c.claim, c.lot * b.claim);
    Rearrange(c.claim, a.lot, b.claim);
    Rearrange(a.claim, b.lot, c.claim);
    Rearrange(a.claim, c.lot, b.claim);
    assert c.claim * (b.lot * a.claim) == a.claim * (b.lot * c.claim);
    Cancel(b.claim, a.lot * c.claim, c.lot * a.claim);
  }

  // and strictly so when one step is strict.
  lemma {:induction false} BelowTransitive(a: Price, b: Price, c: Price)
    requires NotAbove(a, b) && NotAbove(b, c) && (!NotAbove(b, a) || !NotAbove(c, b))
    ensures !NotAbove(c, a)
  {
    if NotAbove(c, a) {
      NotAboveTransitive(b, c, a);
      NotAboveTransitive(c, a, b);
      assert false;
    }
  }

  lemma CountsTotal(s: seq<Price>, i: nat, j: nat)
    requires i < |s| && j < |s|
    ensures CountsFor(s, i, j) || CountsFor(s, j, i)
    ensures CountsFor(s, i, j) && CountsFor(s, j, i) <==> i == j
  {
  }

  lemma {:induction false} CountsTransitive(s: seq<Price>, i: nat, j: nat, k: nat)
    requires i < |s| && j < |s| && k < |s| && CountsFor(s, i, j) && CountsFor(s, j, k)
    ensures CountsFor(s, i, k)
  {
    NotAboveTransitive(s[k], s[j], s[i]);
    if !NotAbove(s[j], s[k]) || !NotAbove(s[i], s[j]) {
      BelowTransitive(s[k], s[j], s[i]);
    }
  }

  // ---------- ranks are a permutation of 1..n ----------

  lemma {:induction false} SubsetCard<T>(a: set<T>, b: set<T>)
    requires a <= b
    ensures |a| <= |b| && (|a| == |b| ==> a == b)
  {
    if a != {} {
      var x :| x in a;
      SubsetCard(a - {x}, b - {x});
      assert a == (a - {x}) + {x};
    }
  }

  lemma {:induction false} RankIncreases(s: seq<Price>, i: nat, j: nat)
    requires i < |s| && j < |s| && i != j && CountsFor(s, j, i)
    ensures Rank(s, i) < Rank(s, j)
  {
    forall k | k in Counted(s, i)
      ensures k in Counted(s, j)
    {
      CountsTransitive(s, j, i, k);
    }
    CountsTotal(s, i, j);
    CountsTotal(s, j, j);
    assert j in Counted(s, j) && j !in Counted(s, i);
    SubsetCard(Counted(s, i), Counted(s, j));
  }

  lemma {:induction false} UpTo(n: nat) returns (all: set<nat>)
    ensures |all| == n && forall k: nat :: k in all <==> k < n
  {
    if n == 0 {
      all := {};
    } else {
      var rest := UpTo(n - 1);
      all := rest + {n - 1};
    }
  }

  lemma {:induction false} RankInRange(s: seq<Price>, i: nat)
    requires i < |s|
    ensures 1 <= Rank(s, i) <= |s|
  {
    var all := UpTo(|s|);
    SubsetCard(Counted(s, i), all);
    CountsTotal(s, i, i);
    assert i in Counted(s, i);
    SubsetCard({i}, Counted(s, i));
  }

  function Ranks(s: seq<Price>, n: nat): set<nat>
    requires n <= |s|
  {
    set i: nat | i < n :: Rank(s, i)
  }

  lemma {:induction false} RanksDistinct(s: seq<Price>, n: nat)
    requires n <= |s|
    ensures |Ranks(s, n)| == n
  {
    if n > 0 {
      RanksDistinct(s, n - 1);
      assert Ranks(s, n) == Ranks(s, n - 1) + {Rank(s, n - 1)};
      if i: nat :| i < n - 1 && Rank(s, i) == Rank(s, n - 1) {
        CountsTotal(s, i, n - 1);
        if CountsFor(s, n - 1, i) {
          RankIncreases(s, i, n - 1);
        } else {
          RankIncreases(s, n - 1, i);
        }
        assert false;
      }
    } else {
      assert Ranks(s, 0) == {};
    }
  }

  // Every rank from 1 to n is held by exactly one seed.
  lemma {:induction false} RankBijection(s: seq<Price>, r: nat)
    requires 1 <= r <= |s|
    ensures exists i: nat :: i < |s| && Rank(s, i) == r
    ensures forall i: nat, j: nat | i < |s| && j < |s| && Rank(s, i) == r && Rank(s, j) == r :: i == j
  {
    var n := |s|;
    var all := UpTo(n + 1);
    var positive := all - {0};
    RanksDistinct(s, n);
    forall i: nat | i < n
      ensures Rank(s, i) in positive
    {
      RankInRange(s, i);
    }
    SubsetCard(Ranks(s, n), positive);
    assert r in Ranks(s, n);
    forall i: nat, j: nat | i < n && j < n && Rank(s, i) == r && Rank(s, j) == r
      ensures i == j
    {
      if i != j {
        CountsTotal(s, i, j);
        if CountsFor(s, j, i) {
          RankIncreases(s, i, j);
        } else {
          RankIncreases(s, j, i);
        }
      }
    }
  }

  // ---------- the median ----------

  const SEEDS := 5
  const MEDIAN_RANK := 3

  function MedianIndex(s: seq<Price>): (i: nat)
    requires |s| == SEEDS
    ensures i < |s| && Rank(s, i) == MEDIAN_RANK
  {
    RankBijection(s, MEDIAN_RANK);
    var i: nat :| i < |s| && Rank(s, i) == MEDIAN_RANK;
    i
  }

  function Median(s: seq<Price>): Price
    requires |s| == SEEDS
  {
    s[MedianIndex(s)]
  }

  // One of the prices, with at least three of them no higher and at least three no lower.
  ghost predicate Middle(s: seq<Price>, m: Price) {
    && m in s
    && |set j: nat | j < |s| && NotAbove(s[j], m)| >= 3
    && |set j: nat | j < |s| && NotAbove(m, s[j])| >= 3
  }

  // At least three of the five seeds are priced no higher than the median, and at least three no lower.
  lemma {:induction false} MedianIsTrue(s: seq<Price>)
    requires |s| == SEEDS
    ensures Middle(s, Median(s))
  {
    var m := MedianIndex(s);
    var below := Counted(s, m);
    var above := set j: nat | j < |s| && CountsFor(s, j, m);
    SubsetCard(below, set j: nat | j < |s| && NotAbove(s[j], s[m]));
    SubsetCard(above, set j: nat | j < |s| && NotAbove(s[m], s[j]));
    var all := UpTo(|s|);
    forall j: nat | j < |s|
      ensures j in below || j in above
      ensures j in below && j in above <==> j == m
    {
      CountsTotal(s, m, j);
    }
    assert all == below + above && below * above == {m};
  }
}
