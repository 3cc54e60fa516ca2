// Quarters of the reward programme. Quarter 0 is everything before activation.
module Calendars {
  import opened Products

  datatype CalendarData = Calendar(activationEpoch: nat, epochsPerQuarter: nat)

  // The configuration schema demands at least one epoch per quarter.
  type Calendar = c: CalendarData | c.epochsPerQuarter >= 1 witness Calendar(0, 1)

  function QuarterOf(c: Calendar, epoch: nat): nat {
    if epoch < c.activationEpoch then 0
    else (epoch - c.activationEpoch) / c.epochsPerQuarter + 1
  }

  // First epoch of a quarter; quarter 0 is given the start of quarter 1.
  function QuarterStart(c: Calendar, q: nat): nat {
    c.activationEpoch + c.epochsPerQuarter * ((if q >= 1 then q else 1) - 1)
  }

  // An epoch belongs to an earlier quarter exactly when it precedes the first epoch of q.
  lemma {:induction false} QuarterBefore(c: Calendar, epoch: nat, q: nat)
    requires q >= 1
    ensures QuarterOf(c, epoch) < q <==> epoch < QuarterStart(c, q)
  {
    if epoch >= c.activationEpoch {
      var d, p := epoch - c.activationEpoch, c.epochsPerQuarter;
      var k := d / p;
      assert p * k <= d < p * (k + 1) by {
        assert d == p * k + d % p;
        assert p * (k + 1) == p * k + p;
      }
      if k + 1 < q {
        assert p * (k + 1) <= p * (q - 1) by { MulMonotone(p, k + 1, q - 1); }
      } else {
        assert p * (q - 1) <= p * k by { MulMonotone(p, q - 1, k); }
      }
    } else {
      assert c.epochsPerQuarter * (q - 1) >= 0 by { MulMonotone(c.epochsPerQuarter, 0, q - 1); }
    }
  }

  // A quarter holds the epochs from its start up to, not including, the next start.
  lemma {:induction false} QuarterBounds(c: Calendar, epoch: nat)
    ensures var q := QuarterOf(c, epoch);
            && (q >= 1 ==> QuarterStart(c, q) <= epoch)
            && epoch < QuarterStart(c, q + 1)
            && (q >= 1 ==> QuarterStart(c, q + 1) == QuarterStart(c, q) + c.epochsPerQuarter)
            && (q == 0 <==> epoch < c.activationEpoch)
  {
    var q := QuarterOf(c, epoch);
    QuarterBefore(c, epoch, q + 1);
    if q >= 1 {
      QuarterBefore(c, epoch, q);
      assert c.epochsPerQuarter * q == c.epochsPerQuarter * (q - 1) + c.epochsPerQuarter;
    }
    assert epoch >= c.activationEpoch ==> (epoch - c.activationEpoch) / c.epochsPerQuarter >= 0;
  }

  lemma {:induction false} QuarterMonotone(c: Calendar, e: nat, f: nat)
    requires e <= f
    ensures QuarterOf(c, e) <= QuarterOf(c, f)
  {
    if QuarterOf(c, f) < QuarterOf(c, e) {
      QuarterBefore(c, f, QuarterOf(c, e));
      QuarterBefore(c, e, QuarterOf(c, e));
      assert false;
    }
  }

  lemma {:induction false} QuarterStartMonotone(c: Calendar, q: nat, r: nat)
    requires q <= r
    ensures QuarterStart(c, q) <= QuarterStart(c, r)
  {
    MulMonotone(c.epochsPerQuarter, (if q >= 1 then q else 1) - 1, (if r >= 1 then r else 1) - 1);
  }
}
