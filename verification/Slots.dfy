/** Arithmetic of slots and epochs: an epoch is a run of equally many consecutive slots (primitives `sidechain-slots`). */
module Slots {

  lemma EpochsGrow(slotsPerEpoch: nat, a: nat, b: nat)
    requires slotsPerEpoch > 0 && a <= b
    ensures a / slotsPerEpoch <= b / slotsPerEpoch
  {
    var q, r := a / slotsPerEpoch, b / slotsPerEpoch;
    assert r < q ==> (r + 1) * slotsPerEpoch <= q * slotsPerEpoch;
  }

  /** Within an epoch, a later slot has a later position. */
  lemma PositionsGrow(slotsPerEpoch: nat, a: nat, b: nat)
    requires slotsPerEpoch > 0 && a < b && a / slotsPerEpoch == b / slotsPerEpoch
    ensures a % slotsPerEpoch < b % slotsPerEpoch
  {
    assert a == slotsPerEpoch * (a / slotsPerEpoch) + a % slotsPerEpoch;
    assert b == slotsPerEpoch * (b / slotsPerEpoch) + b % slotsPerEpoch;
  }

  lemma HalfAtMost(n: nat, d: nat)
    requires d > 1
    ensures 2 * (n / d) <= n
  {
    var q := n / d;
    TwiceAtMost(q, d);
    assert d * q <= n;
  }

  lemma TwiceAtMost(q: nat, d: nat)
    requires d > 1
    ensures 2 * q <= d * q
  {
    assert d * q == 2 * q + (d - 2) * q;
  }

  lemma TimesMonotone(a: nat, b: nat, m: nat)
    requires a <= b
    ensures a * m <= b * m
  {
  }

  lemma QuotientLess(n: nat, d: nat, q: int)
    requires d > 0
    ensures n / d < q <==> n < q * d
  {
    var p := n / d;
    assert n == p * d + n % d;
    if p < q {
      TimesMonotone(p + 1, q, d);
      assert (p + 1) * d == p * d + d;
    } else if q > 0 {
      TimesMonotone(q, p, d);
    } else {
      TimesMonotone(0, -q, d);
      assert -q * d == -(q * d);
    }
  }

  lemma QuotientIs(n: nat, d: nat, q: nat, r: nat)
    requires r < d && n == q * d + r
    ensures n / d == q
  {
    var p := n / d;
    assert n == p * d + n % d;
    assert (p + 1) * d == p * d + d && (q + 1) * d == q * d + d;
    if p < q {
      TimesMonotone(p + 1, q, d);
    } else if p > q {
      TimesMonotone(q + 1, p, d);
    }
  }
}
