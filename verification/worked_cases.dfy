/**
 Concrete instances of the integrators, with exponents that are natural
 numbers so that `pow` can be computed exactly.
 */
module WorkedCases {
  import opened Sweep
  import Spatial
  import Connectivity

  /** b raised to a natural power. */
  function PowNat(b: real, n: nat): real
  {
    if n == 0 then 1.0 else b * PowNat(b, n - 1)
  }

  /** `pow` restricted to non-negative whole exponents (other exponents give 0 here). */
  function NaturalPow(): Pow
  {
    (b: real, e: real) => if 0.0 <= e then PowNat(b, e.Floor) else 0.0
  }

  /** How many elements lie strictly above t. */
  function CountAbove(s: seq<real>, t: real): nat
  {
    if |s| == 0 then 0 else (if s[0] > t then 1 else 0) + CountAbove(s[1..], t)
  }

  /**
   A labeller for a map in which all supra-threshold elements touch: they
   form one cluster, labelled 1; everything else gets label 0.
   */
  function OneBlob(): Spatial.Connector
  {
    (s: seq<real>, t: real) =>
      Spatial.Components([Spatial.Cluster(CountAbove(s, t))],
                         seq(|s|, i requires 0 <= i < |s| => if s[i] > t then 1 else 0))
  }

  /** OneBlob satisfies the labeller contract. */
  lemma OneBlobMeetsContract()
    ensures Spatial.ConnectorContract(OneBlob())
  {
  }

  /** The statistics of the spatial case: three clustered elements at 1.5. */
  function Blob(): seq<real>
  {
    [1.5, 1.5, 1.5]
  }

  /** With dh = 1 the spatial case sweeps the single threshold t = 1, where every element is clustered. */
  lemma BlobGain(i: nat)
    requires i < 3
    ensures StepCount(1.0, 1.5) == 1
    ensures GainSum(Spatial.Gain(OneBlob(), NaturalPow(), Params(1.0, 1.0, 2.0), Blob()), i, 1.0, 1) == 3.0
  {
    var stats := Blob();
    var p := Params(1.0, 1.0, 2.0);
    assert CountAbove(stats, 1.0) == 3 by {
      assert stats[1..] == [1.5, 1.5];
      assert stats[1..][1..] == [1.5];
      assert stats[1..][1..][1..] == [];
    }
    var g := Spatial.Gain(OneBlob(), NaturalPow(), p, stats);
    var c := OneBlob()(stats, 1.0);
    assert c.labels[i] == 1 && c.clusters[0].size == 3;
    assert PowNat(3.0, 1) == 3.0;
    assert PowNat(1.0, 2) == 1.0;
    assert NaturalPow()(3.0, 1.0) == 3.0 && NaturalPow()(1.0, 2.0) == 1.0;
    assert g(i, Threshold(1.0, 1)) == 3.0;
  }

  /** Each element of the spatial case ends at 3. */
  lemma BlobElement(i: nat)
    requires i < 3
    ensures Spatial.ConnectorContract(OneBlob())
    ensures Spatial.Integrate(OneBlob(), NaturalPow(), Params(1.0, 1.0, 2.0), 1.5, Blob(), Zeros(3)).tfce[i] == 3.0
  {
    OneBlobMeetsContract();
    BlobGain(i);
  }

  /**
   Spatial case with dh = 1, E = 1, H = 2: three clustered elements whose
   statistics (1.5) exceed the threshold once (t = 1). Each gains
   3^1 * 1^2 = 3, and the maximum is 3.
   */
  lemma SpatialClusterOfThree()
    ensures Spatial.ConnectorContract(OneBlob())
    ensures var r := Spatial.Integrate(OneBlob(), NaturalPow(), Params(1.0, 1.0, 2.0), 1.5, Blob(), Zeros(3));
            |r.tfce| == 3 && (forall i :: 0 <= i < 3 ==> r.tfce[i] == 3.0) && r.maxTfce == 3.0
  {
    OneBlobMeetsContract();
    var r := Spatial.Integrate(OneBlob(), NaturalPow(), Params(1.0, 1.0, 2.0), 1.5, Blob(), Zeros(3));
    forall i | 0 <= i < 3
      ensures r.tfce[i] == 3.0
    {
      BlobElement(i);
    }
    UniformMaximum(r, 3.0);
  }

  /** When every element holds the same positive value, the floored maximum is that value. */
  lemma UniformMaximum(e: Enhancement, v: real)
    requires 0.0 < v && 0 < |e.tfce|
    requires forall i :: 0 <= i < |e.tfce| ==> e.tfce[i] == v
    requires forall i :: 0 <= i < |e.tfce| ==> e.tfce[i] <= e.maxTfce
    requires e.maxTfce == 0.0 || exists i :: 0 <= i < |e.tfce| && e.tfce[i] == e.maxTfce
    ensures e.maxTfce == v
  {
    assert e.tfce[0] <= e.maxTfce;
  }

  /** Two lobes connected both ways with weight 1. */
  function TwoLobes(): seq<Connectivity.Row>
  {
    [map[1 := Connectivity.Connectivity(1.0)], map[0 := Connectivity.Connectivity(1.0)]]
  }

  /** Below 5, each lobe sees its single neighbour (statistic 5) above threshold. */
  lemma TwoLobesExtent(lobe: nat, t: real)
    requires lobe < 2 && t < 5.0
    ensures Connectivity.Extent(TwoLobes()[lobe], [5.0, 5.0], t) == 1.0
  {
    var stats := [5.0, 5.0];
    var row := TwoLobes()[lobe];
    var other := 1 - lobe;
    assert row.Keys == {other};
    assert Connectivity.MinKey({other}) == other;
    assert {other} - {other} == {};
    assert Connectivity.Contribution(row, stats, t, other) == 1.0;
    assert Connectivity.ExtentOver(row, {}, stats, t) == 0.0;
    assert Connectivity.ExtentOver(row, {other}, stats, t)
           == Connectivity.Contribution(row, stats, t, other) + Connectivity.ExtentOver(row, {}, stats, t);
  }

  /** At threshold k (k = 1..4) each lobe gains 1^1 * k^1 = k. */
  lemma TwoLobesGain(lobe: nat, k: nat)
    requires lobe < 2 && 1 <= k <= 4
    ensures Connectivity.Gain(TwoLobes(), NaturalPow(), Params(1.0, 1.0, 1.0), [5.0, 5.0])(lobe, Threshold(1.0, k))
            == k as real
  {
    var t := Threshold(1.0, k);
    TwoLobesExtent(lobe, t);
    assert PowNat(1.0, 1) == 1.0;
    assert PowNat(t, 1) == t;
  }

  /** Over the four thresholds each lobe gains 1 + 2 + 3 + 4. */
  lemma TwoLobesSum(lobe: nat)
    requires lobe < 2
    ensures GainSum(Connectivity.Gain(TwoLobes(), NaturalPow(), Params(1.0, 1.0, 1.0), [5.0, 5.0]), lobe, 1.0, 4) == 10.0
  {
    var g := Connectivity.Gain(TwoLobes(), NaturalPow(), Params(1.0, 1.0, 1.0), [5.0, 5.0]);
    TwoLobesGain(lobe, 1);
    TwoLobesGain(lobe, 2);
    TwoLobesGain(lobe, 3);
    TwoLobesGain(lobe, 4);
    assert GainSum(g, lobe, 1.0, 1) == 1.0;
    assert GainSum(g, lobe, 1.0, 2) == 3.0;
    assert GainSum(g, lobe, 1.0, 3) == 6.0;
  }

  /** Each lobe of the connectivity case ends at 10. */
  lemma TwoLobesElement(lobe: nat)
    requires lobe < 2
    ensures Connectivity.Integrate(TwoLobes(), NaturalPow(), Params(1.0, 1.0, 1.0), 5.0, [5.0, 5.0], Zeros(2)).tfce[lobe]
            == 10.0
  {
    assert StepCount(1.0, 5.0) == 4;
    TwoLobesSum(lobe);
  }

  /**
   Connectivity case with dh = E = H = 1 and both statistics 5: thresholds
   1, 2, 3, 4 are visited, at each the other lobe is above threshold, so each
   lobe accumulates 1 + 2 + 3 + 4 = 10.
   */
  lemma ConnectivityTwoLobes()
    ensures var r := Connectivity.Integrate(TwoLobes(), NaturalPow(), Params(1.0, 1.0, 1.0), 5.0, [5.0, 5.0], Zeros(2));
            |r.tfce| == 2 && (forall lobe :: 0 <= lobe < 2 ==> r.tfce[lobe] == 10.0) && r.maxTfce == 10.0
  {
    var r := Connectivity.Integrate(TwoLobes(), NaturalPow(), Params(1.0, 1.0, 1.0), 5.0, [5.0, 5.0], Zeros(2));
    forall lobe | 0 <= lobe < 2
      ensures r.tfce[lobe] == 10.0
    {
      TwoLobesElement(lobe);
    }
    UniformMaximum(r, 10.0);
  }
}
