/**
 TFCE over an arbitrary weighted connectivity. Every element ("lobe") owns a
 map from connected element indices to connection weights; the extent of a
 lobe at threshold t is the total weight of its mapped neighbours whose own
 statistic exceeds t.
 */
module Connectivity {
  import opened Sweep

  /** A connection weight. */
  datatype Connectivity = Connectivity(value: real)

  /** One lobe's connections, keyed by the index of the connected lobe. */
  type Row = map<int, Connectivity>

  /** Every key of a row names an element of a map with n elements. */
  predicate RowInRange(row: Row, n: nat)
  {
    forall j :: j in row ==> 0 <= j < n
  }

  /** One row per element, every key naming an element. */
  ghost predicate ValidMap(cmap: seq<Row>, n: nat)
  {
    && |cmap| == n
    && forall lobe :: 0 <= lobe < |cmap| ==> RowInRange(cmap[lobe], n)
  }

  /** A non-empty set of keys has a smallest key. */
  lemma MinExists(ks: set<int>)
    requires ks != {}
    ensures exists j :: j in ks && forall k :: k in ks ==> j <= k
  {
    var j := MinOf(ks);
  }

  /** Every non-empty finite set of integers has a least element. */
  lemma {:induction false} MinOf(ks: set<int>) returns (j: int)
    requires ks != {}
    ensures j in ks && forall k :: k in ks ==> j <= k
    decreases ks
  {
    var x := PickKey(ks);
    var rest := ks - {x};
    assert forall k :: k in ks ==> k == x || k in rest;
    if rest == {} {
      j := x;
    } else {
      var m := MinOf(rest);
      j := if x < m then x else m;
    }
  }

  /** Some element of a non-empty set. */
  lemma PickKey(ks: set<int>) returns (x: int)
    requires ks != {}
    ensures x in ks
  {
    if forall y :: y !in ks {
      assert false;
    }
    x :| x in ks;
  }

  /** The smallest key: a row is visited in increasing key order. */
  function MinKey(ks: set<int>): (j: int)
    requires ks != {}
    ensures j in ks && forall k :: k in ks ==> j <= k
  {
    MinExists(ks);
    var j :| j in ks && forall k :: k in ks ==> j <= k;
    j
  }

  /** What connection j of a row contributes at threshold t. */
  function Contribution(row: Row, stats: seq<real>, t: real, j: int): real
    requires j in row && 0 <= j < |stats|
  {
    if stats[j] > t then row[j].value else 0.0
  }

  /**
   The extent over the ks still to visit, walking them in increasing order:
   each connected lobe whose statistic exceeds t adds its weight.
   */
  function ExtentOver(row: Row, ks: set<int>, stats: seq<real>, t: real): real
    requires ks <= row.Keys && RowInRange(row, |stats|)
    decreases ks
  {
    if ks == {} then 0.0
    else
      var j := MinKey(ks);
      Contribution(row, stats, t, j) + ExtentOver(row, ks - {j}, stats, t)
  }

  /** A lobe's extent at threshold t. */
  function Extent(row: Row, stats: seq<real>, t: real): real
    requires RowInRange(row, |stats|)
  {
    ExtentOver(row, row.Keys, stats, t)
  }

  /** The plain total of a set of weights, independent of any threshold. */
  function TotalWeight(row: Row, ks: set<int>): real
    requires ks <= row.Keys
    decreases ks
  {
    if ks == {} then 0.0
    else
      var j := MinKey(ks);
      row[j].value + TotalWeight(row, ks - {j})
  }

  /** The connections of a row whose connected lobe has a statistic above t. */
  function Above(row: Row, stats: seq<real>, t: real): (a: set<int>)
    requires RowInRange(row, |stats|)
    ensures a <= row.Keys
    ensures forall j :: j in a <==> j in row && stats[j] > t
  {
    set j | j in row.Keys && stats[j] > t
  }

  /** Removing the smallest key from a set keeps it the smallest of what remains above t. */
  lemma MinKeyOfFiltered(row: Row, ks: set<int>, stats: seq<real>, t: real)
    requires ks != {} && ks <= row.Keys && RowInRange(row, |stats|)
    requires stats[MinKey(ks)] > t
    ensures var a := ks * Above(row, stats, t);
            a != {} && MinKey(a) == MinKey(ks)
  {
    var a := ks * Above(row, stats, t);
    assert MinKey(ks) in a;
  }

  /**
   Walking the ks and adding the weights of the supra-threshold neighbours
   gives the same sum as first selecting those neighbours and then adding up
   their weights.
   */
  lemma {:induction false} ExtentOverIsWeightAbove(row: Row, ks: set<int>, stats: seq<real>, t: real)
    requires ks <= row.Keys && RowInRange(row, |stats|)
    ensures ExtentOver(row, ks, stats, t) == TotalWeight(row, ks * Above(row, stats, t))
    decreases ks
  {
    if ks != {} {
      var j := MinKey(ks);
      var a := ks * Above(row, stats, t);
      ExtentOverIsWeightAbove(row, ks - {j}, stats, t);
      if stats[j] > t {
        MinKeyOfFiltered(row, ks, stats, t);
        assert a - {j} == (ks - {j}) * Above(row, stats, t);
      } else {
        assert a == (ks - {j}) * Above(row, stats, t);
      }
    }
  }

  /**
   A lobe's extent at threshold t is the sum of the weights of exactly those
   mapped neighbours whose own statistic exceeds t.
   */
  lemma ExtentIsWeightAbove(row: Row, stats: seq<real>, t: real)
    requires RowInRange(row, |stats|)
    ensures Extent(row, stats, t) == TotalWeight(row, Above(row, stats, t))
  {
    ExtentOverIsWeightAbove(row, row.Keys, stats, t);
    assert row.Keys * Above(row, stats, t) == Above(row, stats, t);
  }

  /**
   Only the statistics of the mapped neighbours matter: two statistics maps
   that agree on which mapped neighbours exceed t give the same extent.
   */
  lemma {:induction false} ExtentOverDependsOnNeighbours(row: Row, ks: set<int>, s1: seq<real>, s2: seq<real>, t: real)
    requires ks <= row.Keys && RowInRange(row, |s1|) && RowInRange(row, |s2|)
    requires forall j :: j in row ==> (s1[j] > t <==> s2[j] > t)
    ensures ExtentOver(row, ks, s1, t) == ExtentOver(row, ks, s2, t)
    decreases ks
  {
    if ks != {} {
      ExtentOverDependsOnNeighbours(row, ks - {MinKey(ks)}, s1, s2, t);
    }
  }

  /** The per-lobe gain: `extent^E * t^H`, added whatever the extent, even 0. */
  function Gain(cmap: seq<Row>, pow: Pow, p: Params, stats: seq<real>): (nat, real) -> real
  {
    (lobe: nat, t: real) =>
      if lobe < |cmap| && RowInRange(cmap[lobe], |stats|) then Mass(pow, p, Extent(cmap[lobe], stats, t), t)
      else 0.0
  }

  /**
   The connectivity integrator: sweep every threshold dh, 2*dh, ... below
   maxStat, adding each lobe's `extent^E * t^H` into the accumulator tfce,
   then return the accumulator and its maximum floored at 0.
   */
  function Integrate(cmap: seq<Row>, pow: Pow, p: Params, maxStat: real, stats: seq<real>, tfce: seq<real>)
    : (r: Enhancement)
    requires 0.0 < p.dh && ValidMap(cmap, |stats|) && |tfce| == |stats|
    ensures |r.tfce| == |tfce|
    ensures forall lobe :: 0 <= lobe < |tfce| ==>
              r.tfce[lobe] == tfce[lobe] + GainSum(Gain(cmap, pow, p, stats), lobe, p.dh, StepCount(p.dh, maxStat))
    ensures maxStat <= p.dh ==> r.tfce == tfce
    ensures 0.0 <= r.maxTfce
    ensures forall i :: 0 <= i < |r.tfce| ==> r.tfce[i] <= r.maxTfce
    ensures r.maxTfce == 0.0 || exists i :: 0 <= i < |r.tfce| && r.tfce[i] == r.maxTfce
  {
    SweepAndMax(tfce, Gain(cmap, pow, p, stats), p.dh, maxStat)
  }

  /**
   At threshold t a lobe gains `(sum of w.value over (j, w) with stats[j] > t)^E * t^H`.
   */
  lemma GainAtThreshold(cmap: seq<Row>, pow: Pow, p: Params, stats: seq<real>, lobe: nat, t: real)
    requires ValidMap(cmap, |stats|) && lobe < |cmap|
    ensures Gain(cmap, pow, p, stats)(lobe, t)
            == pow(TotalWeight(cmap[lobe], Above(cmap[lobe], stats, t)), p.E) * pow(t, p.H)
  {
    ExtentIsWeightAbove(cmap[lobe], stats, t);
  }

  /**
   A lobe's enhancement depends on the statistics of its mapped neighbours
   only; in particular its own statistic plays no part unless the lobe is in
   its own map.
   */
  lemma LobeDependsOnNeighboursOnly(cmap: seq<Row>, pow: Pow, p: Params, maxStat: real,
                                    s1: seq<real>, s2: seq<real>, tfce: seq<real>, lobe: nat)
    requires 0.0 < p.dh && |s1| == |s2| && ValidMap(cmap, |s1|) && |tfce| == |s1|
    requires lobe < |cmap|
    requires forall j :: j in cmap[lobe] ==> s1[j] == s2[j]
    ensures Integrate(cmap, pow, p, maxStat, s1, tfce).tfce[lobe]
            == Integrate(cmap, pow, p, maxStat, s2, tfce).tfce[lobe]
  {
    var g1 := Gain(cmap, pow, p, s1);
    var g2 := Gain(cmap, pow, p, s2);
    var n := StepCount(p.dh, maxStat);
    forall k | 1 <= k <= n
      ensures g1(lobe, Threshold(p.dh, k)) == g2(lobe, Threshold(p.dh, k))
    {
      ExtentOverDependsOnNeighbours(cmap[lobe], cmap[lobe].Keys, s1, s2, Threshold(p.dh, k));
    }
    GainSumAgree(g1, lobe, g2, lobe, p.dh, n);
  }
}
