/**
 The whole run, executed one item at a time: the loader hands out every
 labelling once and the kernel processes each. Because every index owns its
 own output locations, the final outputs depend only on which labelling
 carried which index, not on the order in which items were processed; this
 is what lets the workers run without locking the output buffers.

 Run follows the evidently intended behaviour (all five kernel members
 references), in which the kernel writes all five of the caller's buffers. RunAsDeclared follows the kernel's member declarations,
 under which only the positive distribution and the positive map are the
 caller's; the two are compared by DeclaredRunKeepsCopiedBuffers.
 */
module Pipeline {
  import opened Sweep
  import opened Permutation
  import opened Kernel

  /** The distributions have a slot for every index of a run over `count` labellings. */
  predicate Fits(out: Outputs, count: nat)
  {
    count <= |out.permDistributionPos| + 1 && count <= |out.permDistributionNeg| + 1
  }

  /** The positive-pass maximum of a labelling. */
  function PosMax(calculator: StatsCalculator, integrator: Integrator): Labelling -> real
    requires Compatible(calculator, integrator)
  {
    l => PositivePass(integrator, calculator(l)).maxTfce
  }

  /** The negative-pass maximum of a labelling. */
  function NegMax(calculator: StatsCalculator, integrator: Integrator): Labelling -> real
    requires Compatible(calculator, integrator)
  {
    l => NegativePass(integrator, calculator(l)).maxTfce
  }

  /** A distribution in which slot j holds f of the labelling owning index j+1, if any. */
  function Fill(d: seq<real>, owners: map<nat, Labelling>, f: Labelling -> real): (r: seq<real>)
    ensures |r| == |d|
    ensures forall j :: 0 <= j < |d| ==> r[j] == if j + 1 in owners then f(owners[j + 1]) else d[j]
  {
    seq(|d|, j requires 0 <= j < |d| => if j + 1 in owners then f(owners[j + 1]) else d[j])
  }

  /** Granting a new index k > 0 changes the filled distribution in slot k-1 only. */
  lemma FillExtend(d: seq<real>, owners: map<nat, Labelling>, f: Labelling -> real, k: nat, l: Labelling, v: real)
    requires k !in owners && k <= |d| && f(l) == v
    ensures k == 0 ==> Fill(d, owners[k := l], f) == Fill(d, owners, f)
    ensures k > 0 ==> Fill(d, owners[k := l], f) == Fill(d, owners, f)[k - 1 := v]
  {
    var a := Fill(d, owners[k := l], f);
    if k == 0 {
      assert forall j :: 0 <= j < |d| ==> a[j] == Fill(d, owners, f)[j];
    } else {
      assert forall j :: 0 <= j < |d| ==> a[j] == Fill(d, owners, f)[k - 1 := v][j];
    }
  }

  /**
   The outputs once the items named in `owners` (index to labelling) have
   been processed: every owned location holds that item's result, every
   other location is as in `out`.
   */
  function Settle(calculator: StatsCalculator, integrator: Integrator, out: Outputs, owners: map<nat, Labelling>)
    : (r: Outputs)
    requires Compatible(calculator, integrator)
    ensures |r.permDistributionPos| == |out.permDistributionPos|
    ensures |r.permDistributionNeg| == |out.permDistributionNeg|
  {
    Outputs(
      permDistributionPos := Fill(out.permDistributionPos, owners, PosMax(calculator, integrator)),
      permDistributionNeg := Fill(out.permDistributionNeg, owners, NegMax(calculator, integrator)),
      tfceOutputPos := if 0 in owners then PositivePass(integrator, calculator(owners[0])).tfce else out.tfceOutputPos,
      tfceOutputNeg := if 0 in owners then NegativePass(integrator, calculator(owners[0])).tfce else out.tfceOutputNeg,
      tvalueOutput := if 0 in owners then calculator(owners[0]).stats else out.tvalueOutput)
  }

  /** With nothing processed, the outputs are untouched. */
  lemma SettleNothing(calculator: StatsCalculator, integrator: Integrator, out: Outputs)
    requires Compatible(calculator, integrator)
    ensures Settle(calculator, integrator, out, map[]) == out
  {
    var r := Settle(calculator, integrator, out, map[]);
    assert r.permDistributionPos == out.permDistributionPos;
    assert r.permDistributionNeg == out.permDistributionNeg;
  }

  /**
   Processing one more item, whose index nobody has processed yet, adds
   exactly that item's results to the settled outputs.
   */
  lemma ProcessExtendsSettle(calculator: StatsCalculator, integrator: Integrator, out: Outputs,
                             owners: map<nat, Labelling>, item: PermutationItem)
    requires Compatible(calculator, integrator)
    requires HasSlotFor(out, item.index) && item.index !in owners
    ensures HasSlotFor(Settle(calculator, integrator, out, owners), item.index)
    ensures Process(calculator, integrator, Settle(calculator, integrator, out, owners), item).out
            == Settle(calculator, integrator, out, owners[item.index := item.labelling])
  {
    var before := Settle(calculator, integrator, out, owners);
    var s := calculator(item.labelling);
    assert Accepts(integrator, s.stats);
    SettleExtends(calculator, integrator, out, owners, item.index, item.labelling);
  }

  /** Settling one more index k adds exactly what Record routes to k. */
  lemma SettleExtends(calculator: StatsCalculator, integrator: Integrator, out: Outputs,
                      owners: map<nat, Labelling>, k: nat, l: Labelling)
    requires Compatible(calculator, integrator)
    requires HasSlotFor(out, k) && k !in owners
    ensures HasSlotFor(Settle(calculator, integrator, out, owners), k)
    ensures var s := calculator(l);
            Record(Settle(calculator, integrator, out, owners), k, s.stats, PositivePass(integrator, s), NegativePass(integrator, s))
            == Settle(calculator, integrator, out, owners[k := l])
  {
    var before := Settle(calculator, integrator, out, owners);
    var after := Settle(calculator, integrator, out, owners[k := l]);
    var s := calculator(l);
    var pos, neg := PositivePass(integrator, s), NegativePass(integrator, s);
    var rec := Record(before, k, s.stats, pos, neg);
    FillExtend(out.permDistributionPos, owners, PosMax(calculator, integrator), k, l, pos.maxTfce);
    FillExtend(out.permDistributionNeg, owners, NegMax(calculator, integrator), k, l, neg.maxTfce);
    assert rec.permDistributionPos == after.permDistributionPos;
    assert rec.permDistributionNeg == after.permDistributionNeg;
  }

  /** No two items carry the same index. */
  predicate DistinctIndices(items: seq<PermutationItem>)
  {
    forall i, j :: 0 <= i < j < |items| ==> items[i].index != items[j].index
  }

  /** Every item has its slots in the distributions. */
  predicate AllFit(out: Outputs, items: seq<PermutationItem>)
  {
    forall i :: 0 <= i < |items| ==> HasSlotFor(out, items[i].index)
  }

  /** Process the items one after another, items[0] first. */
  function ProcessAll(calculator: StatsCalculator, integrator: Integrator, out: Outputs, items: seq<PermutationItem>)
    : (r: Outputs)
    requires Compatible(calculator, integrator) && AllFit(out, items)
    ensures |r.permDistributionPos| == |out.permDistributionPos|
    ensures |r.permDistributionNeg| == |out.permDistributionNeg|
    decreases |items|
  {
    if |items| == 0 then out
    else
      var last := items[|items| - 1];
      var before := ProcessAll(calculator, integrator, out, items[..|items| - 1]);
      assert Accepts(integrator, calculator(last.labelling).stats);
      Process(calculator, integrator, before, last).out
  }

  /** Which labelling each index was handed with, over a list of items with distinct indices. */
  function Owners(items: seq<PermutationItem>): (m: map<nat, Labelling>)
    ensures forall k :: k in m ==> exists i :: 0 <= i < |items| && items[i].index == k
    ensures forall i :: 0 <= i < |items| ==> items[i].index in m
    decreases |items|
  {
    if |items| == 0 then map[]
    else
      var last := items[|items| - 1];
      var m := Owners(items[..|items| - 1]);
      assert forall i :: 0 <= i < |items| - 1 ==> items[..|items| - 1][i] == items[i];
      m[last.index := last.labelling]
  }

  /** With distinct indices, every index maps to the labelling of the one item carrying it. */
  lemma {:induction false} OwnersAgree(items: seq<PermutationItem>, i: nat)
    requires DistinctIndices(items) && i < |items|
    ensures Owners(items)[items[i].index] == items[i].labelling
    decreases |items|
  {
    if i < |items| - 1 {
      var prefix := items[..|items| - 1];
      assert prefix[i] == items[i];
      OwnersAgree(prefix, i);
    }
  }

  /**
   Processing items with distinct indices, in list order, settles exactly the
   locations those indices own.
   */
  lemma {:induction false} ProcessAllSettles(calculator: StatsCalculator, integrator: Integrator, out: Outputs,
                                             items: seq<PermutationItem>)
    requires Compatible(calculator, integrator) && AllFit(out, items) && DistinctIndices(items)
    ensures ProcessAll(calculator, integrator, out, items) == Settle(calculator, integrator, out, Owners(items))
    decreases |items|
  {
    if |items| == 0 {
      SettleNothing(calculator, integrator, out);
    } else {
      var prefix := items[..|items| - 1];
      var last := items[|items| - 1];
      assert forall i :: 0 <= i < |prefix| ==> prefix[i] == items[i];
      ProcessAllSettles(calculator, integrator, out, prefix);
      assert last.index !in Owners(prefix);
      ProcessExtendsSettle(calculator, integrator, out, Owners(prefix), last);
    }
  }

  /**
   Any two processing orders of the same items with distinct indices give the
   same outputs: the result does not depend on how the items were
   interleaved.
   */
  lemma InterleavingIrrelevant(calculator: StatsCalculator, integrator: Integrator, out: Outputs,
                               items1: seq<PermutationItem>, items2: seq<PermutationItem>)
    requires Compatible(calculator, integrator)
    requires AllFit(out, items1) && DistinctIndices(items1)
    requires AllFit(out, items2) && DistinctIndices(items2)
    requires forall x :: x in items1 <==> x in items2
    ensures ProcessAll(calculator, integrator, out, items1) == ProcessAll(calculator, integrator, out, items2)
  {
    ProcessAllSettles(calculator, integrator, out, items1);
    ProcessAllSettles(calculator, integrator, out, items2);
    OwnersOrderFree(items1, items2);
  }

  /** Two lists holding the same items, each with distinct indices, assign the same labelling to each index. */
  lemma OwnersOrderFree(items1: seq<PermutationItem>, items2: seq<PermutationItem>)
    requires DistinctIndices(items1) && DistinctIndices(items2)
    requires forall x :: x in items1 <==> x in items2
    ensures Owners(items1) == Owners(items2)
  {
    OwnersIncluded(items1, items2);
    OwnersIncluded(items2, items1);
  }

  /** Every index one list assigns, a list holding all its items assigns to the same labelling. */
  lemma OwnersIncluded(items1: seq<PermutationItem>, items2: seq<PermutationItem>)
    requires DistinctIndices(items1) && DistinctIndices(items2)
    requires forall x :: x in items1 ==> x in items2
    ensures forall k :: k in Owners(items1) ==> k in Owners(items2) && Owners(items1)[k] == Owners(items2)[k]
  {
    var m1, m2 := Owners(items1), Owners(items2);
    forall k | k in m1
      ensures k in m2 && m1[k] == m2[k]
    {
      var i :| 0 <= i < |items1| && items1[i].index == k;
      assert items1[i] in items2;
      var j :| 0 <= j < |items2| && items2[j] == items1[i];
      OwnersAgree(items1, i);
      OwnersAgree(items2, j);
    }
  }

  /** The first c labellings, keyed by their index. */
  function Prefix(permutations: seq<Labelling>, c: nat): (m: map<nat, Labelling>)
    requires c <= |permutations|
    ensures forall k: nat :: k in m <==> k < c
  {
    map k: nat | k < c :: permutations[k]
  }

  /**
   A complete run: the P calls to a fresh loader that hand out every item,
   each item processed in turn; the next call would report false
   (ExhaustedStaysExhausted).
   */
  function Run(calculator: StatsCalculator, integrator: Integrator, permutations: seq<Labelling>,
               item: PermutationItem, out: Outputs): Outputs
    requires Compatible(calculator, integrator) && Fits(out, |permutations|)
  {
    LoaderEnumerates(permutations, item, |permutations|);
    ProcessAll(calculator, integrator, out, Pulls(Fresh(permutations), item, |permutations|))
  }

  /** The items a fresh loader hands out assign labelling k to index k, for every k < P. */
  lemma PulledOwners(permutations: seq<Labelling>, item: PermutationItem)
    ensures var items := Pulls(Fresh(permutations), item, |permutations|);
            DistinctIndices(items) && Owners(items) == Prefix(permutations, |permutations|)
  {
    var items := Pulls(Fresh(permutations), item, |permutations|);
    LoaderEnumerates(permutations, item, |permutations|);
    EnumeratedOwners(items, permutations);
  }

  /** A list whose item i carries labelling i and index i assigns each index its own labelling. */
  lemma EnumeratedOwners(items: seq<PermutationItem>, permutations: seq<Labelling>)
    requires |items| == |permutations|
    requires forall i :: 0 <= i < |items| ==> items[i] == PermutationItem(permutations[i], i)
    ensures DistinctIndices(items) && Owners(items) == Prefix(permutations, |permutations|)
  {
    var m := Owners(items);
    forall k | k in m
      ensures k < |permutations| && m[k] == permutations[k]
    {
      var i :| 0 <= i < |items| && items[i].index == k;
      OwnersAgree(items, i);
    }
    forall k: nat | k < |permutations|
      ensures k in m
    {
      assert items[k].index == k;
    }
  }

  /**
   A complete run: a fresh loader over the observed labelling followed by P
   permutations, feeding the kernel until it is exhausted. Index 0 fills the
   three observed maps and permutation k fills slot k-1 of both
   distributions, each with the result of its own isolated passes; every
   location is written by exactly one index.
   */
  lemma RunFillsEverySlot(calculator: StatsCalculator, integrator: Integrator, permutations: seq<Labelling>,
                          item: PermutationItem, out: Outputs)
    requires Compatible(calculator, integrator)
    requires |permutations| == |out.permDistributionPos| + 1 == |out.permDistributionNeg| + 1
    ensures var r := Run(calculator, integrator, permutations, item, out);
            var observed := calculator(permutations[0]);
            && r.tvalueOutput == observed.stats
            && r.tfceOutputPos == PositivePass(integrator, observed).tfce
            && r.tfceOutputNeg == NegativePass(integrator, observed).tfce
            && |r.permDistributionPos| == |out.permDistributionPos|
            && |r.permDistributionNeg| == |out.permDistributionNeg|
            && (forall j :: 0 <= j < |r.permDistributionPos| ==>
                  r.permDistributionPos[j] == PositivePass(integrator, calculator(permutations[j + 1])).maxTfce)
            && (forall j :: 0 <= j < |r.permDistributionNeg| ==>
                  r.permDistributionNeg[j] == NegativePass(integrator, calculator(permutations[j + 1])).maxTfce)
  {
    var r := Run(calculator, integrator, permutations, item, out);
    var owners := Prefix(permutations, |permutations|);
    RunSettles(calculator, integrator, permutations, item, out);
    SettleObserved(calculator, integrator, permutations, out);
    var pos, neg := PosMax(calculator, integrator), NegMax(calculator, integrator);
    assert r.permDistributionPos == Fill(out.permDistributionPos, owners, pos);
    assert r.permDistributionNeg == Fill(out.permDistributionNeg, owners, neg);
    SettleDistribution(out.permDistributionPos, permutations, pos);
    SettleDistribution(out.permDistributionNeg, permutations, neg);
    forall j | 0 <= j < |r.permDistributionPos|
      ensures r.permDistributionPos[j] == PositivePass(integrator, calculator(permutations[j + 1])).maxTfce
    {
      assert r.permDistributionPos[j] == pos(permutations[j + 1]);
    }
    forall j | 0 <= j < |r.permDistributionNeg|
      ensures r.permDistributionNeg[j] == NegativePass(integrator, calculator(permutations[j + 1])).maxTfce
    {
      assert r.permDistributionNeg[j] == neg(permutations[j + 1]);
    }
  }

  /**
   Process the items one after another on a kernel object whose members are
   bound as declared: the kernel's own view evolves exactly as in
   ProcessAll, and the caller's three copied buffers are never written.
   */
  function ProcessAllAsDeclared(calculator: StatsCalculator, integrator: Integrator, b: Bound,
                                items: seq<PermutationItem>): (r: Bound)
    requires Compatible(calculator, integrator) && AllFit(View(b), items)
    ensures View(r) == ProcessAll(calculator, integrator, View(b), items)
    ensures r.caller.permDistributionNeg == b.caller.permDistributionNeg
    ensures r.caller.tfceOutputNeg == b.caller.tfceOutputNeg
    ensures r.caller.tvalueOutput == b.caller.tvalueOutput
    decreases |items|
  {
    if |items| == 0 then b
    else
      var last := items[|items| - 1];
      var before := ProcessAllAsDeclared(calculator, integrator, b, items[..|items| - 1]);
      assert Accepts(integrator, calculator(last.labelling).stats);
      ProcessAsDeclared(calculator, integrator, before, last)
  }

  /**
   A complete run on a kernel constructed as declared, as the caller's five
   buffers stand afterwards.
   */
  function RunAsDeclared(calculator: StatsCalculator, integrator: Integrator, permutations: seq<Labelling>,
                         item: PermutationItem, out: Outputs): Outputs
    requires Compatible(calculator, integrator) && Fits(out, |permutations|)
  {
    LoaderEnumerates(permutations, item, |permutations|);
    ProcessAllAsDeclared(calculator, integrator, Construct(out), Pulls(Fresh(permutations), item, |permutations|)).caller
  }

  /**
   As declared, a complete run delivers the positive results exactly as the
   intended run does, but hands back the caller's negative distribution,
   negative map and t-value map exactly as they were passed in.
   */
  lemma DeclaredRunKeepsCopiedBuffers(calculator: StatsCalculator, integrator: Integrator,
                                      permutations: seq<Labelling>, item: PermutationItem, out: Outputs)
    requires Compatible(calculator, integrator) && Fits(out, |permutations|)
    ensures var r := RunAsDeclared(calculator, integrator, permutations, item, out);
            var intended := Run(calculator, integrator, permutations, item, out);
            && r.permDistributionPos == intended.permDistributionPos
            && r.tfceOutputPos == intended.tfceOutputPos
            && r.permDistributionNeg == out.permDistributionNeg
            && r.tfceOutputNeg == out.tfceOutputNeg
            && r.tvalueOutput == out.tvalueOutput
  {
    LoaderEnumerates(permutations, item, |permutations|);
  }

  /**
   The discrepancy on a concrete run: when the observed labelling's
   statistics differ from what the caller's t-value buffer held, the
   intended run stores them and the run as declared does not.
   */
  lemma DeclaredRunMissesObservedStats(calculator: StatsCalculator, integrator: Integrator,
                                       permutations: seq<Labelling>, item: PermutationItem, out: Outputs)
    requires Compatible(calculator, integrator)
    requires |permutations| == |out.permDistributionPos| + 1 == |out.permDistributionNeg| + 1
    requires calculator(permutations[0]).stats != out.tvalueOutput
    ensures Run(calculator, integrator, permutations, item, out).tvalueOutput == calculator(permutations[0]).stats
    ensures RunAsDeclared(calculator, integrator, permutations, item, out).tvalueOutput
            != Run(calculator, integrator, permutations, item, out).tvalueOutput
  {
    DeclaredRunKeepsCopiedBuffers(calculator, integrator, permutations, item, out);
    RunFillsEverySlot(calculator, integrator, permutations, item, out);
  }

  /** A complete run settles exactly the first P indices. */
  lemma RunSettles(calculator: StatsCalculator, integrator: Integrator, permutations: seq<Labelling>,
                   item: PermutationItem, out: Outputs)
    requires Compatible(calculator, integrator) && Fits(out, |permutations|)
    ensures Run(calculator, integrator, permutations, item, out)
            == Settle(calculator, integrator, out, Prefix(permutations, |permutations|))
  {
    var items := Pulls(Fresh(permutations), item, |permutations|);
    LoaderEnumerates(permutations, item, |permutations|);
    PulledOwners(permutations, item);
    ProcessAllSettles(calculator, integrator, out, items);
  }

  /** Settling the first P labellings fills the three observed maps from labelling 0. */
  lemma SettleObserved(calculator: StatsCalculator, integrator: Integrator, permutations: seq<Labelling>, out: Outputs)
    requires Compatible(calculator, integrator) && 0 < |permutations|
    ensures var r := Settle(calculator, integrator, out, Prefix(permutations, |permutations|));
            var observed := calculator(permutations[0]);
            && r.tvalueOutput == observed.stats
            && r.tfceOutputPos == PositivePass(integrator, observed).tfce
            && r.tfceOutputNeg == NegativePass(integrator, observed).tfce
  {
    var owners := Prefix(permutations, |permutations|);
    assert 0 in owners && owners[0] == permutations[0];
  }

  /** Settling the first P labellings fills distribution slot j from labelling j+1. */
  lemma SettleDistribution(d: seq<real>, permutations: seq<Labelling>, f: Labelling -> real)
    requires |permutations| == |d| + 1
    ensures var r := Fill(d, Prefix(permutations, |permutations|), f);
            forall j :: 0 <= j < |r| ==> r[j] == f(permutations[j + 1])
  {
    var owners := Prefix(permutations, |permutations|);
    var r := Fill(d, owners, f);
    forall j | 0 <= j < |r|
      ensures r[j] == f(permutations[j + 1])
    {
      assert j + 1 in owners && owners[j + 1] == permutations[j + 1];
    }
  }
}
