# TFCE permutation engine: a Dafny model

This project models the Threshold-Free Cluster Enhancement (TFCE) engine that
MRtrix3 uses for permutation testing (`src/stats/tfce.h`). The engine has
three parts:

- **The permutation loader (`QueueLoader`).** It hands out a precomputed list
  of subject labellings one at a time. Each labelling is tagged with its
  position. Index 0 is the observed labelling.
- **Two TFCE integrators.**
  - `TFCESpatial` takes cluster extent from a connected-component labeller.
  - `TFCEConnectivity` takes extent from a weighted connectivity map (the
    `connectivity` weight struct).

  Both sweep the thresholds `dh, 2·dh, …` while they stay below the maximum
  statistic. At each threshold they add `extent^E · t^H` into a per-element
  accumulator, then return the largest accumulated value, floored at 0.
- **The worker kernel (`ThreadKernel::operator()`).** For one labelling it:
  - runs the statistics calculator;
  - integrates the statistics once as they are and once sign-flipped;
  - routes the results into the output buffers according to the item's index.

Everything is modelled as pure functions over immutable values. The files
are:

| file | module | contents |
|---|---|---|
| `sweep.dfy` | `Sweep` | the shared sweep: the visited thresholds, the accumulation and the floored maximum |
| `permutation.dfy` | `Permutation` | the loader as a state machine (`QueueLoader`, `Next`) |
| `spatial.dfy` | `Spatial` | the spatial integrator; the labeller is a function-valued parameter with a stated contract |
| `connectivity.dfy` | `Connectivity` | the connectivity integrator over `seq<map<int, Connectivity>>` |
| `kernel.dfy` | `Kernel` | one kernel call as an update of an `Outputs` record (the five buffers as evidently intended: all five members references); which locations each index owns; the kernel's members as declared (`Bound`) |
| `pipeline.dfy` | `Pipeline` | a whole run (the loader feeding the kernel), order-independence of the outputs, and the run as declared |
| `worked_cases.dfy` | `WorkedCases` | two concrete integrations with natural-number exponents |

Numeric choices:

- Numbers are Dafny `real`s.
- `pow` is a parameter of type `(real, real) -> real` about which nothing is
  assumed. The worked cases supply one that computes whole powers exactly.
- The threshold at step `k` is `k·dh`.

## Model

| member | source | states |
|---|---|---|
| Permutation.Next | src/stats/tfce.h:60-68 | While labellings remain, a call hands out labelling `current` with index `current`, advances by exactly one and reports true. Otherwise it reports false and changes neither the loader nor the caller's item. |
| Permutation.PullsFrom | src/stats/tfce.h:60-68 | Starting at position `c`, `k` calls hand out labellings `c, c+1, …` each once, tagged with their own indices. They stop at the end of the list, and the loader ends at `min(c+k, P)`. |
| Permutation.LoaderEnumerates | src/stats/tfce.h:60-67 | A fresh loader called `k` times yields exactly the items `(permutations[i], i)` for `i < min(k, P)`, in index order. |
| Permutation.ExhaustedStaysExhausted | src/stats/tfce.h:61-62 | After `P` or more calls, every further call returns false. |
| Sweep.StepCount | src/stats/tfce.h:84 | The number of visited thresholds `n` is 0 or satisfies `n·dh < max_stat`. In both cases `max_stat <= (n+1)·dh`, and `n` is 0 exactly when `max_stat <= dh`. |
| Sweep.ThresholdVisited | src/stats/tfce.h:84 | Step `k` is taken if and only if `k >= 1` and `k·dh < max_stat`. |
| Sweep.ThresholdAtLeastStep | src/stats/tfce.h:84 | Every visited threshold is at least `dh`. |
| Sweep.Accumulate | src/stats/tfce.h:84-91 | After `n` thresholds, each element holds its starting value plus its own gains at `dh, …, n·dh`, whatever the other elements gain. |
| Sweep.FlooredMax | src/stats/tfce.h:93-98 | The scan result is `>= 0` and `>=` every entry. It equals some entry or is 0, and it is 0 exactly when every entry is `<= 0`. |
| Sweep.SweepAndMax | src/stats/tfce.h:84-98 | Gives the closed form of the sweep. When `max_stat <= dh` the accumulator comes back unchanged. The returned value is the floored maximum of the returned map. |
| Sweep.GainSumZero | src/stats/tfce.h:88-90 | An element that gains nothing at every visited threshold keeps its starting value. |
| Sweep.GainSumAgree | src/stats/tfce.h:88-90 | Two elements with equal gains at every visited threshold receive equal totals. |
| Sweep.NoSweepFromZero | src/stats/tfce.h:84-98 | From a zeroed accumulator with `max_stat <= dh`, the result is all zeros with maximum 0. |
| Spatial.GainAtThreshold | src/stats/tfce.h:86-90 | At threshold `t`, an element labelled 0 gains nothing. An element labelled `k` gains `pow(clusters[k-1].size, E) · pow(t, H)`. |
| Spatial.Integrate | src/stats/tfce.h:82-99 | The spatial integrator returns the swept accumulator in closed form (unchanged when `max_stat <= dh`) and its floored maximum. |
| Spatial.BelowFirstThresholdUnchanged | src/stats/tfce.h:84-90 | An element whose statistic is at most `dh` is never labelled, so its accumulator entry comes out unchanged. |
| Spatial.SameClusterSameGain | src/stats/tfce.h:86-90 | Two elements that share a label at every threshold receive the same total enhancement. |
| Connectivity.MinKey | src/stats/tfce.h:124-125 | The next key visited in a row is the smallest one remaining (`std::map` iterates in ascending key order). |
| Connectivity.ExtentOverIsWeightAbove | src/stats/tfce.h:123-127 | Walking any subset of a row's keys and adding the weights of supra-threshold neighbours equals the total weight of that subset's supra-threshold neighbours. |
| Connectivity.ExtentIsWeightAbove | src/stats/tfce.h:122-128 | A lobe's extent at `t` is the sum of `w.value` over the map entries `(j, w)` with `stats[j] > t`. |
| Connectivity.ExtentOverDependsOnNeighbours | src/stats/tfce.h:125-127 | The extent depends only on whether each mapped neighbour's statistic exceeds `t`. |
| Connectivity.GainAtThreshold | src/stats/tfce.h:122-128 | At `t`, a lobe gains `pow(weight of its supra-threshold neighbours, E) · pow(t, H)`. |
| Connectivity.Integrate | src/stats/tfce.h:119-138 | The connectivity integrator returns the swept accumulator in closed form (unchanged when `max_stat <= dh`) and its floored maximum. |
| Connectivity.LobeDependsOnNeighboursOnly | src/stats/tfce.h:122-128 | Changing statistics outside a lobe's map does not change its enhancement. Its own statistic counts only if it is in its own map. |
| Kernel.Integrate | src/stats/tfce.h:169 | Either integrator keeps the map size, leaves the accumulator unchanged when `max_stat <= dh`, and returns a floored maximum attained by the map or 0. |
| Kernel.NegativePassIgnoresLeftover | src/stats/tfce.h:175-181 | Whatever the positive pass left in the accumulator, the negative pass gives the isolated result. That pass negates the statistics in place, zeroes the accumulator entries at the statistics' indices and integrates up to `-min_stat`. The accumulator has one entry per statistic (line 168), so every entry is zeroed. |
| Kernel.Process | src/stats/tfce.h:159-186 | Index 0 stores the statistics and both enhanced maps. Index `k > 0` stores only the two maxima, in slot `k-1`. The negative result equals integrating `-stats` up to `-min_stat` from zeros, so nothing from the positive pass carries over. The call always returns true and keeps the distribution sizes. |
| Kernel.ProcessWritesOnlyOwned | src/stats/tfce.h:165-183 | A kernel call leaves every location outside its index's owned set unchanged. |
| Kernel.OwnedDisjoint | src/stats/tfce.h:165-183 | Distinct indices own disjoint sets of output locations. |
| Kernel.RecordCommutes | src/stats/tfce.h:170-183 | Storing the results of two distinct indices gives the same outputs in either order. |
| Kernel.ProcessCommutes | src/stats/tfce.h:170-183 | Two items with distinct indices give the same outputs in either processing order. |
| Kernel.ProcessAsDeclared | src/stats/tfce.h:150-193 | With the members bound as declared, the kernel's own view changes exactly as `Process` prescribes. The caller's negative distribution, negative map and t-value map are never written. |
| Pipeline.ProcessExtendsSettle | src/stats/tfce.h:159-186 | Processing one more item with a fresh index adds exactly that item's results to the outputs settled so far. |
| Pipeline.ProcessAllSettles | src/stats/tfce.h:165-183 | Processing items with distinct indices, one after another, fills each owned location with its owner's result and leaves the rest untouched. |
| Pipeline.InterleavingIrrelevant | src/stats/tfce.h:165-183 | Any two processing orders of the same items with distinct indices produce the same outputs. |
| Pipeline.PulledOwners | src/stats/tfce.h:60-67 | The items a fresh loader hands out have distinct indices, and index `k` carries labelling `k`, for every `k < P`. |
| Pipeline.RunSettles | src/stats/tfce.h:159-186 | Feeding every item a fresh loader hands out through the kernel settles exactly the indices `0..P-1`. |
| Pipeline.RunFillsEverySlot | src/stats/tfce.h:159-186 | After a complete run the observed maps come from labelling 0, and slot `j` of each distribution holds the maximum for labelling `j+1`. |
| Pipeline.ProcessAllAsDeclared | src/stats/tfce.h:150-193 | Processing items one after another on a kernel bound as declared: the kernel's view follows `ProcessAll`, and the caller's three copied buffers stay as they were. |
| Pipeline.DeclaredRunKeepsCopiedBuffers | src/stats/tfce.h:150-193 | After a complete run as declared, the caller's positive distribution and positive map match the intended run. Its negative distribution, negative map and t-value map come back exactly as passed in. |
| Pipeline.DeclaredRunMissesObservedStats | src/stats/tfce.h:164-166 | When the observed statistics differ from the caller's initial t-value buffer, the intended run stores them and the run as declared does not. |
| WorkedCases.SpatialClusterOfThree | src/stats/tfce.h:84-98 | Three clustered elements at statistic 1.5 with `dh = 1`, `E = 1`, `H = 2` each gain 3, and the maximum is 3. |
| WorkedCases.ConnectivityTwoLobes | src/stats/tfce.h:121-137 | Two lobes joined both ways with weight 1, both at statistic 5, `dh = E = H = 1`: each accumulates 1+2+3+4 = 10, and the maximum is 10. |

## Left out

- Concurrency is not modelled: the `Thread::Queue`, the worker threads and
  the `ProgressBar`. As evidently intended (all five members references), every
  worker writes the caller's five buffers. The no-overlap discipline that makes this safe is stated by
  `Kernel.OwnedDisjoint`, `Kernel.ProcessCommutes` and
  `Pipeline.InterleavingIrrelevant`. As declared, only two of those buffers
  are shared (see "## Findings"). Copies of a kernel made for each worker
  thread are not modelled separately: whichever copy runs an item, its
  writes to the three copied buffers stay inside the kernel objects.
- `Math::Stats::generate_permutations` is external. The list of labellings is
  an input to the loader, so the `QueueLoader` constructor and its unused
  `num_perms` / `num_subjects` fields are not modelled.
- The connected-component labeller's internals (`Connector::run`) are external. It
  is a function parameter with a contract (`Spatial.ConnectorContract`):
  - one label per element;
  - every label is at most the number of clusters;
  - a nonzero label only on elements whose statistic exceeds the threshold.

  The `cluster` record keeps only its `size`.
- The statistics calculator is external. It is a total function from a
  labelling to `(stats, max, min)`. Errors it might raise are not modelled.
- Floating point:
  - `float` arithmetic, including rounding in the repeated `threshold += dh`,
    is replaced by exact reals, with the threshold at step `k` written as `k·dh`;
  - `pow` is an arbitrary function;
  - the conversion of a cluster's `size_t` size to `float` is exact.
- `WorkedCases.NaturalPow` is a stand-in for `pow` that is exact only for
  whole non-negative exponents. It returns 0 for negative exponents, which
  the worked cases never use.
- The kernel's `dh`, `E` and `H` members are initialised from themselves and
  never read, so they are dead state and not modelled.
- `Connectivity.Integrate`: requires `|connectivity_map| == |stats| == |tfce_stats|`
  and every map key to index `stats`. This is a simplification. The source
  sweeps over the map's lobes (line 122) and takes the maximum over
  `stats.size()` entries (line 133). With a shorter map and in-range keys that
  is well defined: the lobes past the map keep their values and still take
  part in the maximum. Out-of-range keys and a map longer than `stats` read
  or write out of bounds.
- `Sweep.StepCount`, `Sweep.SweepAndMax`, `Spatial.Integrate`,
  `Connectivity.Integrate` and `Kernel.Integrate` (through `Kernel.Accepts`)
  require `dh > 0`. The source never checks `dh` (lines 84 and 121). With
  `dh <= 0` and `max_stat > dh` its loop never ends (see "## Notes on the
  source"). With `max_stat <= dh <= 0` it visits no threshold and returns the
  floored maximum of the untouched accumulator. The model does not cover
  this case.
- `Spatial.Integrate`: requires `|tfce_stats| == |stats|`. The kernel always
  allocates the accumulator that way (line 168).
- `Kernel.Process`: requires the distribution buffers to have a slot for the
  item's index. The source indexes `perm_distribution_*[index-1]` without a
  check.
- The spatial labeller is assumed to label only supra-threshold elements.
  The source does not check this.
- `src/gui/mrview/tool/screen_capture.h` is a GUI declaration with no logic
  and is not part of this model.

## Notes on the source

These are places where the code's behaviour is more precise than a plain
description of TFCE. The model follows the code.

- A lobe's connectivity extent counts every entry of its map. If a lobe
  appears in its own map, its own statistic counts too. The code does not
  exclude self-connections.
- The connectivity integrator adds `pow(extent, E) · pow(t, H)` at every
  visited threshold, even when the extent is 0. Whether that adds anything
  depends on `pow(0, E)`; with `E = 0` and the usual `pow(0, 0) = 1`, it does.
  So the floored maximum can be positive even when no neighbour ever
  exceeded a threshold.
- The kernel always returns true. A stop is signalled only by the loader
  returning false.
- Neither integrator checks its step `dh`. When `dh <= 0` and the sweep bound
  exceeds `dh`, the threshold never grows past the bound, so the sweep never
  ends.

## Findings

| source | as written | input that shows it | evidently intended | confidence | as-written member | corrected member |
|---|---|---|---|---|---|---|
| src/stats/tfce.h:191-193 | Each of the two member declarations lists several names after one `&`, which makes only the first name a reference: `perm_distribution_neg`, `tfce_output_neg` and `tvalue_output` are plain members. The constructor copies the caller's negative distribution, negative map and t-value map into the kernel object, and the writes at lines 166, 181 and 183 go to those copies. | Any complete run whose observed statistics differ from what the caller's t-value buffer held, e.g. an empty t-value buffer and a non-empty map: the caller's t-value buffer comes back unchanged. | All five members are references, so the caller receives the observed statistics, the negative map and the negative distribution. | high for the two `std::vector` members; medium for `perm_distribution_neg`, whose effect depends on `Math::Vector`'s copy constructor (not part of this model, taken to copy); not executed | Pipeline.DeclaredRunMissesObservedStats | Pipeline.RunFillsEverySlot |
