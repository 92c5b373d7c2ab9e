/**
 TFCE over a regular spatial grid. At every threshold an external
 connected-component labeller groups the supra-threshold elements into
 clusters; each clustered element gains `size^E * t^H` for the size of its
 own cluster.
 */
module Spatial {
  import opened Sweep

  /** A connected component reported by the labeller. */
  datatype Cluster = Cluster(size: nat)

  /**
   The labeller's output at one threshold: the clusters found, and one label
   per element. Label 0 means "not clustered"; label k >= 1 names clusters[k-1].
   */
  datatype Components = Components(clusters: seq<Cluster>, labels: seq<nat>)

  /** The connected-component labeller, as a function of the statistics and the threshold. */
  type Connector = (seq<real>, real) -> Components

  /**
   What the integrator relies on from one labelling: one label per element,
   every non-zero label names an existing cluster, and only elements whose
   statistic exceeds the threshold are labelled.
   */
  ghost predicate ValidComponents(stats: seq<real>, t: real, c: Components)
  {
    && |c.labels| == |stats|
    && forall i :: 0 <= i < |c.labels| ==>
         && c.labels[i] <= |c.clusters|
         && (c.labels[i] != 0 ==> stats[i] > t)
  }

  /** The labeller's contract, at every threshold and for every statistics map. */
  ghost predicate ConnectorContract(connector: Connector)
  {
    forall stats, t :: ValidComponents(stats, t, connector(stats, t))
  }

  /**
   What element i gains at threshold t: the extent term of its cluster when it
   is labelled, nothing when it carries label 0.
   */
  function ClusterGain(pow: Pow, p: Params, c: Components, i: nat, t: real): real
    requires i < |c.labels| && c.labels[i] <= |c.clusters|
  {
    if c.labels[i] != 0 then Mass(pow, p, c.clusters[c.labels[i] - 1].size as real, t) else 0.0
  }

  /**
   The per-element gain of the spatial sweep over the given statistics. The
   guard always holds for elements of the map under ConnectorContract; it only
   makes the gain total.
   */
  function Gain(connector: Connector, pow: Pow, p: Params, stats: seq<real>): (nat, real) -> real
  {
    (i: nat, t: real) =>
      var c := connector(stats, t);
      if i < |c.labels| && c.labels[i] <= |c.clusters| then ClusterGain(pow, p, c, i, t) else 0.0
  }

  /**
   At one threshold, an element labelled 0 gains nothing, and an element
   labelled k gains `clusters[k-1].size^E * t^H`.
   */
  lemma GainAtThreshold(connector: Connector, pow: Pow, p: Params, stats: seq<real>, i: nat, t: real)
    requires ConnectorContract(connector) && i < |stats|
    ensures var c := connector(stats, t);
            && (c.labels[i] == 0 ==> Gain(connector, pow, p, stats)(i, t) == 0.0)
            && (c.labels[i] != 0 ==>
                  Gain(connector, pow, p, stats)(i, t)
                  == pow(c.clusters[c.labels[i] - 1].size as real, p.E) * pow(t, p.H))
  {
    assert ValidComponents(stats, t, connector(stats, t));
  }

  /**
   The spatial integrator: sweep every threshold dh, 2*dh, ... below maxStat,
   adding each clustered element's extent term into the accumulator tfce,
   then return the accumulator and its maximum floored at 0.
   */
  function Integrate(connector: Connector, pow: Pow, p: Params, maxStat: real, stats: seq<real>, tfce: seq<real>)
    : (r: Enhancement)
    requires 0.0 < p.dh && ConnectorContract(connector) && |tfce| == |stats|
    ensures |r.tfce| == |tfce|
    ensures forall i :: 0 <= i < |tfce| ==>
              r.tfce[i] == tfce[i] + GainSum(Gain(connector, pow, p, stats), i, p.dh, StepCount(p.dh, maxStat))
    ensures maxStat <= p.dh ==> r.tfce == tfce
    ensures 0.0 <= r.maxTfce
    ensures forall i :: 0 <= i < |r.tfce| ==> r.tfce[i] <= r.maxTfce
    ensures r.maxTfce == 0.0 || exists i :: 0 <= i < |r.tfce| && r.tfce[i] == r.maxTfce
  {
    SweepAndMax(tfce, Gain(connector, pow, p, stats), p.dh, maxStat)
  }

  /**
   An element whose statistic never exceeds the first threshold dh is never
   labelled, so it leaves the sweep with exactly the value it entered with.
   */
  lemma BelowFirstThresholdUnchanged(connector: Connector, pow: Pow, p: Params, maxStat: real,
                                     stats: seq<real>, tfce: seq<real>, i: nat)
    requires 0.0 < p.dh && ConnectorContract(connector) && |tfce| == |stats|
    requires i < |stats| && stats[i] <= p.dh
    ensures Integrate(connector, pow, p, maxStat, stats, tfce).tfce[i] == tfce[i]
  {
    var g := Gain(connector, pow, p, stats);
    var n := StepCount(p.dh, maxStat);
    forall k | 1 <= k <= n
      ensures g(i, Threshold(p.dh, k)) == 0.0
    {
      var t := Threshold(p.dh, k);
      ThresholdAtLeastStep(p.dh, k);
      assert ValidComponents(stats, t, connector(stats, t));
      GainAtThreshold(connector, pow, p, stats, i, t);
    }
    GainSumZero(g, i, p.dh, n);
  }

  /**
   Two elements that share a label at every threshold (they sit in the same
   cluster throughout the sweep) receive the same total enhancement.
   */
  lemma SameClusterSameGain(connector: Connector, pow: Pow, p: Params, maxStat: real,
                            stats: seq<real>, tfce: seq<real>, i: nat, j: nat)
    requires 0.0 < p.dh && ConnectorContract(connector) && |tfce| == |stats|
    requires i < |stats| && j < |stats|
    requires forall t :: connector(stats, t).labels[i] == connector(stats, t).labels[j]
    ensures var r := Integrate(connector, pow, p, maxStat, stats, tfce);
            r.tfce[i] - tfce[i] == r.tfce[j] - tfce[j]
  {
    var g := Gain(connector, pow, p, stats);
    var n := StepCount(p.dh, maxStat);
    forall k | 1 <= k <= n
      ensures g(i, Threshold(p.dh, k)) == g(j, Threshold(p.dh, k))
    {
      var t := Threshold(p.dh, k);
      assert ValidComponents(stats, t, connector(stats, t));
    }
    GainSumAgree(g, i, g, j, p.dh, n);
  }
}
