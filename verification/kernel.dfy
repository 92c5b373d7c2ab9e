/**
 The per-item work step. For one permutation item it computes the statistics,
 integrates them once for the positive contrast and once, sign-flipped, for
 the negative contrast, and writes the results into the output buffers. The
 item's index alone decides which buffers are written: index 0 owns the three
 observed maps, index k > 0 owns slot k-1 of the two permutation
 distributions.
 */
module Kernel {
  import opened Sweep
  import opened Permutation
  import Spatial
  import Connectivity

  /** The two interchangeable integrators, each with its own topology. */
  datatype Integrator =
    | SpatialTfce(connector: Spatial.Connector, pow: Pow, p: Params)
    | ConnectivityTfce(cmap: seq<Connectivity.Row>, pow: Pow, p: Params)

  /** What an integrator needs of its input: a positive step and a topology matching the map. */
  ghost predicate Accepts(integrator: Integrator, stats: seq<real>)
  {
    match integrator
    case SpatialTfce(connector, _, p) => 0.0 < p.dh && Spatial.ConnectorContract(connector)
    case ConnectivityTfce(cmap, _, p) => 0.0 < p.dh && Connectivity.ValidMap(cmap, |stats|)
  }

  /** Run the chosen integrator against the sweep bound maxStat, starting from the accumulator tfce. */
  function Integrate(integrator: Integrator, maxStat: real, stats: seq<real>, tfce: seq<real>): (r: Enhancement)
    requires Accepts(integrator, stats) && |tfce| == |stats|
    ensures |r.tfce| == |tfce|
    ensures maxStat <= integrator.p.dh ==> r.tfce == tfce
    ensures 0.0 <= r.maxTfce
    ensures forall i :: 0 <= i < |r.tfce| ==> r.tfce[i] <= r.maxTfce
    ensures r.maxTfce == 0.0 || exists i :: 0 <= i < |r.tfce| && r.tfce[i] == r.maxTfce
  {
    match integrator
    case SpatialTfce(connector, pow, p) => Spatial.Integrate(connector, pow, p, maxStat, stats, tfce)
    case ConnectivityTfce(cmap, pow, p) => Connectivity.Integrate(cmap, pow, p, maxStat, stats, tfce)
  }

  /** The external statistics calculator's answer: per-element statistics and their extremes. */
  datatype StatsOutput = StatsOutput(stats: seq<real>, maxStat: real, minStat: real)

  /** The external statistics calculator, a function of the labelling. */
  type StatsCalculator = Labelling -> StatsOutput

  /** The calculator always produces a map the integrator accepts. */
  ghost predicate Compatible(calculator: StatsCalculator, integrator: Integrator)
  {
    forall l :: Accepts(integrator, calculator(l).stats)
  }

  /**
   The five buffers the kernel writes, as evidently intended (all five
   members references): all five belong to the caller. How the kernel's members are actually declared is
   modelled by Bound below.
   */
  datatype Outputs = Outputs(
    permDistributionPos: seq<real>,
    permDistributionNeg: seq<real>,
    tfceOutputPos: seq<real>,
    tfceOutputNeg: seq<real>,
    tvalueOutput: seq<real>)

  /** The kernel's new output state and its return value. */
  datatype KernelResult = KernelResult(out: Outputs, proceed: bool)

  /** The distribution buffers can take every index up to `index`. */
  predicate HasSlotFor(out: Outputs, index: nat)
  {
    index <= |out.permDistributionPos| && index <= |out.permDistributionNeg|
  }

  function Negate(s: seq<real>): (r: seq<real>)
    ensures |r| == |s| && forall i :: 0 <= i < |s| ==> r[i] == -s[i]
  {
    seq(|s|, i requires 0 <= i < |s| => -s[i])
  }

  /**
   The step between the two passes, done in place: for every index of the
   statistics, the statistic changes sign and the accumulator entry the
   positive pass left goes back to 0. Because the kernel allocates the
   accumulator with one entry per statistic, nothing of the positive pass
   survives.
   */
  function PrepareNegativePass(stats: seq<real>, tfce: seq<real>): (r: (seq<real>, seq<real>))
    requires |tfce| == |stats|
    ensures r.0 == Negate(stats)
    ensures r.1 == Zeros(|stats|)
  {
    var negated := seq(|stats|, i requires 0 <= i < |stats| => -stats[i]);
    var cleared := seq(|tfce|, i requires 0 <= i < |tfce| => if i < |stats| then 0.0 else tfce[i]);
    assert negated == Negate(stats);
    assert cleared == Zeros(|stats|);
    (negated, cleared)
  }

  /**
   The positive pass in isolation: the statistics, bounded by their maximum,
   from a zero accumulator.
   */
  function PositivePass(integrator: Integrator, s: StatsOutput): Enhancement
    requires Accepts(integrator, s.stats)
  {
    Integrate(integrator, s.maxStat, s.stats, Zeros(|s.stats|))
  }

  /**
   The negative pass in isolation: the negated statistics, bounded by -min,
   from a zero accumulator.
   */
  function NegativePass(integrator: Integrator, s: StatsOutput): Enhancement
    requires Accepts(integrator, s.stats)
  {
    Integrate(integrator, -s.minStat, Negate(s.stats), Zeros(|s.stats|))
  }

  /**
   One kernel call. Index 0 records the raw statistics and both enhanced maps;
   index k > 0 records the two maxima in slot k-1 of the distributions. The
   negative pass equals integrating the negated statistics from a zero
   accumulator: nothing accumulated by the positive pass carries over. The
   call always asks for more work.
   */
  function Process(calculator: StatsCalculator, integrator: Integrator, out: Outputs, item: PermutationItem)
    : (r: KernelResult)
    requires Accepts(integrator, calculator(item.labelling).stats)
    requires HasSlotFor(out, item.index)
    ensures r.proceed
    ensures |r.out.permDistributionPos| == |out.permDistributionPos|
    ensures |r.out.permDistributionNeg| == |out.permDistributionNeg|
    ensures var s := calculator(item.labelling);
            r.out == Record(out, item.index, s.stats, PositivePass(integrator, s), NegativePass(integrator, s))
    ensures var s := calculator(item.labelling);
            item.index == 0 ==>
              r.out == out.(tvalueOutput := s.stats,
                            tfceOutputPos := PositivePass(integrator, s).tfce,
                            tfceOutputNeg := NegativePass(integrator, s).tfce)
    ensures var s := calculator(item.labelling);
            item.index > 0 ==>
              r.out == out.(permDistributionPos := out.permDistributionPos[item.index - 1 := PositivePass(integrator, s).maxTfce],
                            permDistributionNeg := out.permDistributionNeg[item.index - 1 := NegativePass(integrator, s).maxTfce])
  {
    var s := calculator(item.labelling);
    var stats := s.stats;
    var pos := Integrate(integrator, s.maxStat, stats, Zeros(|stats|));
    var (negated, cleared) := PrepareNegativePass(stats, pos.tfce);
    var neg := Integrate(integrator, -s.minStat, negated, cleared);
    NegativePassIgnoresLeftover(integrator, s, pos.tfce);
    var written := Record(out, item.index, stats, pos, neg);
    RecordRoutes(out, item.index, stats, pos, neg);
    KernelResult(written, true)
  }

  /**
   Whatever the positive pass left in the accumulator, the negative pass run
   on the prepared buffers is the isolated negative pass.
   */
  lemma NegativePassIgnoresLeftover(integrator: Integrator, s: StatsOutput, leftover: seq<real>)
    requires Accepts(integrator, s.stats) && |leftover| == |s.stats|
    ensures var (negated, cleared) := PrepareNegativePass(s.stats, leftover);
            Integrate(integrator, -s.minStat, negated, cleared) == NegativePass(integrator, s)
  {
  }

  /**
   The members a kernel object holds, as declared. In a declaration
   `T& a, b;` only `a` is a reference, so of the five buffers only the
   positive distribution and the positive map are the caller's own; the
   negative distribution, the negative map and the t-value map are copies
   the object makes when it is constructed.
   */
  datatype Copies = Copies(permDistributionNeg: seq<real>, tfceOutputNeg: seq<real>, tvalueOutput: seq<real>)

  /** The caller's five buffers together with the kernel object's three private copies. */
  datatype Bound = Bound(caller: Outputs, own: Copies)

  /** Constructing a kernel binds the two references and copies the other three buffers. */
  function Construct(caller: Outputs): (b: Bound)
    ensures View(b) == caller
  {
    Bound(caller, Copies(caller.permDistributionNeg, caller.tfceOutputNeg, caller.tvalueOutput))
  }

  /** The five members as the kernel body sees them. */
  function View(b: Bound): Outputs
  {
    b.caller.(permDistributionNeg := b.own.permDistributionNeg,
              tfceOutputNeg := b.own.tfceOutputNeg,
              tvalueOutput := b.own.tvalueOutput)
  }

  /**
   One kernel call on the members as declared. The body does what Process
   does to its five members, but only the writes to the two references reach
   the caller: the caller's negative distribution, negative map and t-value
   map are never touched.
   */
  function ProcessAsDeclared(calculator: StatsCalculator, integrator: Integrator, b: Bound, item: PermutationItem)
    : (r: Bound)
    requires Accepts(integrator, calculator(item.labelling).stats)
    requires HasSlotFor(View(b), item.index)
    ensures View(r) == Process(calculator, integrator, View(b), item).out
    ensures r.caller.permDistributionNeg == b.caller.permDistributionNeg
    ensures r.caller.tfceOutputNeg == b.caller.tfceOutputNeg
    ensures r.caller.tvalueOutput == b.caller.tvalueOutput
  {
    var k := Process(calculator, integrator, View(b), item).out;
    Bound(b.caller.(permDistributionPos := k.permDistributionPos, tfceOutputPos := k.tfceOutputPos),
          Copies(k.permDistributionNeg, k.tfceOutputNeg, k.tvalueOutput))
  }

  /** An output location: one of the three observed maps, or one slot of a distribution. */
  datatype Slot = TValue | TfcePos | TfceNeg | DistPos(j: nat) | DistNeg(j: nat)

  /** The contents of a location. */
  datatype Content = Whole(values: seq<real>) | Entry(value: real) | NoSuchSlot

  function Read(out: Outputs, slot: Slot): Content
  {
    match slot
    case TValue => Whole(out.tvalueOutput)
    case TfcePos => Whole(out.tfceOutputPos)
    case TfceNeg => Whole(out.tfceOutputNeg)
    case DistPos(j) => if j < |out.permDistributionPos| then Entry(out.permDistributionPos[j]) else NoSuchSlot
    case DistNeg(j) => if j < |out.permDistributionNeg| then Entry(out.permDistributionNeg[j]) else NoSuchSlot
  }

  /** The locations the item with this index owns. */
  function Owned(index: nat): set<Slot>
  {
    if index == 0 then {TValue, TfcePos, TfceNeg} else {DistPos(index - 1), DistNeg(index - 1)}
  }

  /**
   A kernel call changes no location outside those its index owns, and keeps
   the sizes of the distributions.
   */
  lemma ProcessWritesOnlyOwned(calculator: StatsCalculator, integrator: Integrator, out: Outputs,
                               item: PermutationItem, slot: Slot)
    requires Accepts(integrator, calculator(item.labelling).stats)
    requires HasSlotFor(out, item.index)
    requires slot !in Owned(item.index)
    ensures Read(Process(calculator, integrator, out, item).out, slot) == Read(out, slot)
    ensures HasSlotFor(Process(calculator, integrator, out, item).out, item.index)
  {
    var st := calculator(item.labelling);
    RecordWritesOnlyOwned(out, item.index, st.stats, PositivePass(integrator, st), NegativePass(integrator, st), slot);
  }

  /** Record changes only the locations its index owns. */
  lemma RecordWritesOnlyOwned(out: Outputs, index: nat, stats: seq<real>, pos: Enhancement, neg: Enhancement, slot: Slot)
    requires HasSlotFor(out, index) && slot !in Owned(index)
    ensures Read(Record(out, index, stats, pos, neg), slot) == Read(out, slot)
    ensures HasSlotFor(Record(out, index, stats, pos, neg), index)
  {
  }

  /** Distinct indices own disjoint sets of locations. */
  lemma OwnedDisjoint(a: nat, b: nat)
    requires a != b
    ensures Owned(a) !! Owned(b)
  {
    if a != 0 && b != 0 {
      assert DistPos(a - 1) != DistPos(b - 1);
    }
  }

  /**
   The routing of one item's results: index 0 stores the raw statistics and
   both enhanced maps; index k > 0 stores the two maxima in slot k-1.
   */
  function Record(out: Outputs, index: nat, stats: seq<real>, pos: Enhancement, neg: Enhancement): Outputs
    requires HasSlotFor(out, index)
  {
    if index == 0 then out.(tvalueOutput := stats, tfceOutputPos := pos.tfce, tfceOutputNeg := neg.tfce)
    else out.(permDistributionPos := out.permDistributionPos[index - 1 := pos.maxTfce],
              permDistributionNeg := out.permDistributionNeg[index - 1 := neg.maxTfce])
  }

  /** Routing the results of two distinct indices commutes. */
  lemma RecordCommutes(out: Outputs, a: nat, sa: seq<real>, pa: Enhancement, na: Enhancement,
                       b: nat, sb: seq<real>, pb: Enhancement, nb: Enhancement)
    requires HasSlotFor(out, a) && HasSlotFor(out, b) && a != b
    ensures HasSlotFor(Record(out, a, sa, pa, na), b) && HasSlotFor(Record(out, b, sb, pb, nb), a)
    ensures Record(Record(out, a, sa, pa, na), b, sb, pb, nb) == Record(Record(out, b, sb, pb, nb), a, sa, pa, na)
  {
    if a > 0 && b > 0 {
      var dp := out.permDistributionPos;
      var dn := out.permDistributionNeg;
      assert dp[a - 1 := pa.maxTfce][b - 1 := pb.maxTfce] == dp[b - 1 := pb.maxTfce][a - 1 := pa.maxTfce];
      assert dn[a - 1 := na.maxTfce][b - 1 := nb.maxTfce] == dn[b - 1 := nb.maxTfce][a - 1 := na.maxTfce];
    }
  }

  /**
   Two items with distinct indices may be processed in either order: the
   outputs come out the same, so no ordering between workers is needed.
   */
  lemma ProcessCommutes(calculator: StatsCalculator, integrator: Integrator, out: Outputs,
                        a: PermutationItem, b: PermutationItem)
    requires Compatible(calculator, integrator)
    requires HasSlotFor(out, a.index) && HasSlotFor(out, b.index)
    requires a.index != b.index
    ensures var ab := Process(calculator, integrator, Process(calculator, integrator, out, a).out, b).out;
            var ba := Process(calculator, integrator, Process(calculator, integrator, out, b).out, a).out;
            ab == ba
  {
    var sa := calculator(a.labelling);
    var sb := calculator(b.labelling);
    assert Accepts(integrator, sa.stats);
    assert Accepts(integrator, sb.stats);
    var pa, na := PositivePass(integrator, sa), NegativePass(integrator, sa);
    var pb, nb := PositivePass(integrator, sb), NegativePass(integrator, sb);
    RecordCommutes(out, a.index, sa.stats, pa, na, b.index, sb.stats, pb, nb);
  }

  /**
   Index 0 routes to the three observed maps; index k > 0 routes to slot k-1
   of both distributions.
   */
  lemma RecordRoutes(out: Outputs, index: nat, stats: seq<real>, pos: Enhancement, neg: Enhancement)
    requires HasSlotFor(out, index)
    ensures index == 0 ==>
              Record(out, index, stats, pos, neg) == out.(tvalueOutput := stats, tfceOutputPos := pos.tfce, tfceOutputNeg := neg.tfce)
    ensures index > 0 ==>
              Record(out, index, stats, pos, neg)
              == out.(permDistributionPos := out.permDistributionPos[index - 1 := pos.maxTfce],
                      permDistributionNeg := out.permDistributionNeg[index - 1 := neg.maxTfce])
  {
  }
}
