/**
 The permutation source: a list of labellings generated up front and handed out
 one at a time, each tagged with its position in the list. Index 0 is the
 observed (unpermuted) labelling; indices 1.. are the permutations.
 */
module Permutation {

  /** A subject-to-group labelling. */
  type Labelling = seq<nat>

  /** One unit of work: a labelling and the index that decides where its results go. */
  datatype PermutationItem = PermutationItem(labelling: Labelling, index: nat)

  /**
   The loader: the precomputed labellings and the position of the next one to
   hand out. The labellings are an input here; how they are generated is not
   part of this model.
   */
  datatype QueueLoader = QueueLoader(permutations: seq<Labelling>, current: nat)

  /** The outcome of one call: the loader afterwards, the caller's item afterwards, and whether an item was produced. */
  datatype Pull = Pull(loader: QueueLoader, item: PermutationItem, produced: bool)

  /** A loader that has not handed anything out yet. */
  function Fresh(permutations: seq<Labelling>): QueueLoader
  {
    QueueLoader(permutations, 0)
  }

  /**
   One call of the loader. While labellings remain, the next one is written
   into the caller's item together with its index, and the position advances
   by exactly one. Once the list is used up the call reports false and
   neither the loader nor the item changes.
   */
  function Next(l: QueueLoader, item: PermutationItem): (r: Pull)
    ensures r.loader.permutations == l.permutations
    ensures r.produced <==> l.current < |l.permutations|
    ensures r.produced ==>
              && r.item.index == l.current
              && r.item.labelling == l.permutations[l.current]
              && r.loader.current == l.current + 1
    ensures !r.produced ==> r.loader == l && r.item == item
  {
    if l.current >= |l.permutations| then Pull(l, item, false)
    else Pull(QueueLoader(l.permutations, l.current + 1),
              PermutationItem(l.permutations[l.current], l.current), true)
  }

  /** The items produced by k successive calls, in the order they were produced. */
  function Pulls(l: QueueLoader, item: PermutationItem, k: nat): seq<PermutationItem>
    decreases k
  {
    if k == 0 then []
    else
      var r := Next(l, item);
      (if r.produced then [r.item] else []) + Pulls(r.loader, r.item, k - 1)
  }

  /** The loader after k successive calls. */
  function After(l: QueueLoader, item: PermutationItem, k: nat): QueueLoader
    decreases k
  {
    if k == 0 then l
    else
      var r := Next(l, item);
      After(r.loader, r.item, k - 1)
  }

  function Min(a: nat, b: nat): nat
  {
    if a <= b then a else b
  }

  /**
   From any position c, k successive calls produce the labellings c, c+1, ...
   each exactly once and tagged with its own index, stopping at the end of the
   list; the loader then sits at min(c + k, number of labellings).
   */
  lemma {:induction false} PullsFrom(l: QueueLoader, item: PermutationItem, k: nat)
    requires l.current <= |l.permutations|
    ensures var n := Min(k, |l.permutations| - l.current);
            && |Pulls(l, item, k)| == n
            && (forall i :: 0 <= i < n ==>
                  Pulls(l, item, k)[i] == PermutationItem(l.permutations[l.current + i], l.current + i))
            && After(l, item, k) == QueueLoader(l.permutations, l.current + n)
    decreases k
  {
    if k > 0 {
      var r := Next(l, item);
      PullsFrom(r.loader, r.item, k - 1);
      if r.produced {
        var rest := Pulls(r.loader, r.item, k - 1);
        assert Pulls(l, item, k) == [r.item] + rest;
      } else {
        assert Pulls(l, item, k) == Pulls(r.loader, r.item, k - 1);
      }
    }
  }

  /**
   A fresh loader called k times hands out the items with indices
   0, 1, ..., min(k, P) - 1 in that order, each carrying its own labelling.
   */
  lemma LoaderEnumerates(permutations: seq<Labelling>, item: PermutationItem, k: nat)
    ensures var n := Min(k, |permutations|);
            && |Pulls(Fresh(permutations), item, k)| == n
            && forall i :: 0 <= i < n ==>
                 Pulls(Fresh(permutations), item, k)[i] == PermutationItem(permutations[i], i)
  {
    PullsFrom(Fresh(permutations), item, k);
  }

  /** Once every labelling has been handed out, every further call reports false. */
  lemma ExhaustedStaysExhausted(permutations: seq<Labelling>, item: PermutationItem, k: nat, other: PermutationItem)
    requires |permutations| <= k
    ensures !Next(After(Fresh(permutations), item, k), other).produced
  {
    PullsFrom(Fresh(permutations), item, k);
  }
}
