/**
 The threshold sweep shared by both TFCE integrators.

 Both integrators visit the thresholds dh, 2*dh, 3*dh, ... for as long as the
 threshold stays strictly below the sweep bound, add a per-element gain at each
 visited threshold into an accumulator, and finally report the largest
 accumulated value, floored at zero. The threshold at step k is written as
 k * dh rather than as the running sum `threshold += dh` of the integrator loops.
 */
module Sweep {

  /** Real exponentiation `pow(base, exponent)`, supplied from outside. */
  type Pow = (real, real) -> real

  /** The TFCE parameters: threshold step, extent exponent E and height exponent H. */
  datatype Params = Params(dh: real, E: real, H: real)

  /** What an integrator hands back: the enhanced map and its floored maximum. */
  datatype Enhancement = Enhancement(tfce: seq<real>, maxTfce: real)

  /** The contribution `extent^E * t^H` that one element gains at threshold t. */
  function Mass(pow: Pow, p: Params, extent: real, t: real): real
  {
    pow(extent, p.E) * pow(t, p.H)
  }

  /** The threshold visited at step k (k >= 1). */
  function Threshold(dh: real, k: nat): real
  {
    k as real * dh
  }

  /** The least integer not below x. */
  function Ceil(x: real): (c: int)
    ensures x <= c as real < x + 1.0
  {
    -((-x).Floor)
  }

  lemma MulMonotone(a: real, b: real, d: real)
    requires a <= b && 0.0 < d
    ensures a * d <= b * d
  {
  }

  lemma MulStrict(a: real, b: real, d: real)
    requires a < b && 0.0 < d
    ensures a * d < b * d
  {
  }

  /**
   The number of thresholds the sweep visits: the largest n such that
   n * dh < maxStat, or 0 when even dh is not below maxStat.
   */
  function StepCount(dh: real, maxStat: real): (n: nat)
    requires 0.0 < dh
    ensures n == 0 || Threshold(dh, n) < maxStat
    ensures maxStat <= Threshold(dh, n + 1)
    ensures n == 0 <==> maxStat <= dh
  {
    var q := maxStat / dh;
    assert q * dh == maxStat;
    var c := Ceil(q);
    if c <= 1 then
      MulMonotone(q, 1.0, dh);
      0
    else
      MulStrict((c - 1) as real, q, dh);
      assert Threshold(dh, c - 1) == (c - 1) as real * dh < maxStat;
      MulMonotone(q, c as real, dh);
      MulMonotone(1.0, (c - 1) as real, dh);
      c - 1
  }

  /**
   Exactly the thresholds k * dh with k >= 1 and k * dh < maxStat are visited:
   step k is taken if and only if its threshold lies strictly below the bound.
   */
  lemma ThresholdVisited(dh: real, maxStat: real, k: nat)
    requires 0.0 < dh
    ensures 1 <= k <= StepCount(dh, maxStat) <==> 1 <= k && Threshold(dh, k) < maxStat
  {
    var n := StepCount(dh, maxStat);
    if 1 <= k <= n {
      VisitedBelowBound(dh, maxStat, k, n);
    } else if 1 <= k {
      SkippedReachesBound(dh, maxStat, k, n);
    }
  }

  /** A step no later than the last one has its threshold below the bound. */
  lemma VisitedBelowBound(dh: real, maxStat: real, k: nat, n: nat)
    requires 0.0 < dh && 1 <= k <= n && Threshold(dh, n) < maxStat
    ensures Threshold(dh, k) < maxStat
  {
    MulMonotone(k as real, n as real, dh);
  }

  /** A step past the last one has its threshold at or above the bound. */
  lemma SkippedReachesBound(dh: real, maxStat: real, k: nat, n: nat)
    requires 0.0 < dh && n < k && maxStat <= Threshold(dh, n + 1)
    ensures maxStat <= Threshold(dh, k)
  {
    MulMonotone((n + 1) as real, k as real, dh);
  }

  /** Every visited threshold is at least dh. */
  lemma ThresholdAtLeastStep(dh: real, k: nat)
    requires 0.0 < dh && 1 <= k
    ensures dh <= Threshold(dh, k)
  {
    MulMonotone(1.0, k as real, dh);
  }

  /**
   The total gain of element i over the first n thresholds:
   gain(i, dh) + gain(i, 2*dh) + ... + gain(i, n*dh).
   */
  function GainSum(gain: (nat, real) -> real, i: nat, dh: real, n: nat): real
  {
    if n == 0 then 0.0 else GainSum(gain, i, dh, n - 1) + gain(i, Threshold(dh, n))
  }

  /** One threshold of the sweep: every element adds its gain at threshold t. */
  function AddGains(acc: seq<real>, gain: (nat, real) -> real, t: real): (r: seq<real>)
    ensures |r| == |acc|
  {
    seq(|acc|, i requires 0 <= i < |acc| => acc[i] + gain(i, t))
  }

  /**
   The accumulator after the first n thresholds, applied in increasing order
   (dh first). Element i ends up with its starting value plus its own gains
   over those n thresholds, whatever the other elements gain.
   */
  function Accumulate(acc: seq<real>, gain: (nat, real) -> real, dh: real, n: nat): (r: seq<real>)
    ensures |r| == |acc|
    ensures forall i :: 0 <= i < |acc| ==> r[i] == acc[i] + GainSum(gain, i, dh, n)
  {
    if n == 0 then acc else AddGains(Accumulate(acc, gain, dh, n - 1), gain, Threshold(dh, n))
  }

  /**
   The maximum of the accumulator, scanning left to right from an initial
   maximum of 0 and replacing it only by a strictly larger entry.
   */
  function FlooredMax(s: seq<real>): (m: real)
    ensures 0.0 <= m
    ensures forall i :: 0 <= i < |s| ==> s[i] <= m
    ensures m == 0.0 || exists i :: 0 <= i < |s| && s[i] == m
    ensures m == 0.0 <==> forall i :: 0 <= i < |s| ==> s[i] <= 0.0
  {
    if |s| == 0 then 0.0
    else
      var m' := FlooredMax(s[..|s| - 1]);
      assert forall i :: 0 <= i < |s| - 1 ==> s[..|s| - 1][i] == s[i];
      if s[|s| - 1] > m' then s[|s| - 1] else m'
  }

  /**
   The common shape of both integrators: sweep every threshold below maxStat,
   then return the accumulator with its floored maximum.
   */
  function SweepAndMax(acc: seq<real>, gain: (nat, real) -> real, dh: real, maxStat: real): (r: Enhancement)
    requires 0.0 < dh
    ensures |r.tfce| == |acc|
    ensures forall i :: 0 <= i < |acc| ==>
              r.tfce[i] == acc[i] + GainSum(gain, i, dh, StepCount(dh, maxStat))
    ensures maxStat <= dh ==> r.tfce == acc
    ensures 0.0 <= r.maxTfce
    ensures forall i :: 0 <= i < |r.tfce| ==> r.tfce[i] <= r.maxTfce
    ensures r.maxTfce == 0.0 || exists i :: 0 <= i < |r.tfce| && r.tfce[i] == r.maxTfce
  {
    var tfce := Accumulate(acc, gain, dh, StepCount(dh, maxStat));
    Enhancement(tfce, FlooredMax(tfce))
  }

  /** An element whose gain is zero at every visited threshold keeps its starting value. */
  lemma {:induction false} GainSumZero(gain: (nat, real) -> real, i: nat, dh: real, n: nat)
    requires forall k :: 1 <= k <= n ==> gain(i, Threshold(dh, k)) == 0.0
    ensures GainSum(gain, i, dh, n) == 0.0
  {
    if n > 0 {
      GainSumZero(gain, i, dh, n - 1);
    }
  }

  /** Two elements that gain the same at every visited threshold gain the same in total. */
  lemma {:induction false} GainSumAgree(g1: (nat, real) -> real, i: nat, g2: (nat, real) -> real, j: nat,
                                        dh: real, n: nat)
    requires forall k :: 1 <= k <= n ==> g1(i, Threshold(dh, k)) == g2(j, Threshold(dh, k))
    ensures GainSum(g1, i, dh, n) == GainSum(g2, j, dh, n)
  {
    if n > 0 {
      GainSumAgree(g1, i, g2, j, dh, n - 1);
    }
  }

  /** A sequence of n zeros: the freshly allocated accumulator. */
  function Zeros(n: nat): (z: seq<real>)
    ensures |z| == n && forall i :: 0 <= i < n ==> z[i] == 0.0
  {
    seq(n, i => 0.0)
  }

  /** Swept from a zero accumulator with no threshold visited, the result is all zero with maximum 0. */
  lemma NoSweepFromZero(gain: (nat, real) -> real, dh: real, maxStat: real, n: nat)
    requires 0.0 < dh && maxStat <= dh
    ensures SweepAndMax(Zeros(n), gain, dh, maxStat) == Enhancement(Zeros(n), 0.0)
  {
  }
}
