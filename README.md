# Alias method table, modelled in Dafny

This project models the `AliasMethod` class of `src/ofApp.cpp`, an implementation
of Walker's alias method for drawing weighted random indices in constant time.

- `prepare(weights)` normalises the weights into `probs` and gives every
  outcome a unit-wide bucket of height `probs[i] * N`. It then sorts the
  indices onto two stacks, `lower` (height below 1) and `upper` (the rest),
  and repeatedly pairs the top of `lower` with the top of `upper`. The lower
  bucket gets the upper index as its alias. The upper bucket gives up the
  mass that fills the lower one and goes back on the stack its new height
  belongs to.
- `probability(i)` returns `probs[i]`.
- `sample(u0, u1)` picks a column from `u0` (truncated and clamped into
  range). It returns that column when it has no alias or when `u1` is below
  its height, and otherwise returns the column's alias.

The model keeps that structure:

- `reals.dfy` (module `Reals`): small facts of exact real arithmetic.
- `buckets.dfy` (module `Buckets`): the `Bucket` record and its default
  (`Blank`). It also holds:
  - the sums `Sum` and `Mass`;
  - what a bucket lends to the outcome it aliases (`Borrowed`, `Inflow`,
    `Credit`);
  - the two halves of a draw (`Column`, `Pick`);
  - the sampling law a finished table induces (`SampleProbability`).
- `worklists.dfy` (module `Worklists`): the two stacks as sequences whose last
  element is the top. It holds the invariants of the classification loop and
  of the pairing loop, with one lemma per invariant and per turn.
- `alias.dfy` (module `Alias`): the three loops of `prepare` as methods
  (`Normalize`, `Partition`, `PairUp`), and the class `AliasMethod` with the
  fields `probs` and `buckets`. Its methods are `Prepare`, `Probability` and
  `Sample`.

Floats become `real`, so every identity the algorithm relies on holds exactly.
That makes two things provable:

- Mass is conserved, so `lower` is always the stack that empties first.
- For non-negative weights, a draw returns outcome `i` with probability
  exactly `probs[i]`.

`SampleProbability(b, i)` is outcome `i`'s share of the columns, divided by N.
Each column is chosen on an interval of `u0` of length 1/N
(`ColumnInterval`). When the column's height is non-negative, it yields `i`
on an interval of `u1` of length `ColumnShare(b, c, i)` (`PickInterval`). So
for independent uniform `u0` and `u1`, `SampleProbability` is the probability
of drawing `i`. A negative weight leaves a negative height, and then
`SampleProbability` is only a formal sum (`NegativeHeightTable`).

## Model

| member | source | states |
|---|---|---|
| `Alias.AliasMethod.Prepare` | src/ofApp.cpp:10-68 | both vectors are rebuilt from the weights alone: `probs[i] == weights[i] / sum`, the probabilities sum to 1, and the table is built (one bucket per outcome, finished, and `SampleProbability` of each `i` equal to `probs[i]`); with non-negative weights every height ends in [0,1]; with equal weights no alias is assigned |
| `Alias.Normalize` | src/ofApp.cpp:14-22 | `probs[k] == weights[k] / sum` and bucket `k` is `{probs[k] * N, no alias}` for every k, the probabilities sum to 1, the heights sum to N, non-negative weights give non-negative probabilities and equal weights give heights exactly 1 |
| `Alias.Partition` | src/ofApp.cpp:30-40 | every index lands on exactly the stack its height belongs to (`lower` iff below 1), both stacks are ascending, their lengths add up to N and together they hold the whole mass of the table |
| `Alias.PairUp` | src/ofApp.cpp:42-67 | from unaliased buckets on well-formed, mass-balanced stacks the loop terminates in a finished table (`WellFormed`) in which every outcome's own height plus what others lend it equals its initial height; non-negative heights stay non-negative; when `lower` starts empty nothing changes |
| `Alias.AliasMethod.Probability` | src/ofApp.cpp:70-72 | the result is `probs[i]`, and it equals `SampleProbability`, the probability that `Sample` returns `i` when heights are non-negative |
| `Alias.AliasMethod.Sample` | src/ofApp.cpp:73-82 | the result is an index of the table, the selected column or its alias; a column without an alias is returned whatever `u1` is, and otherwise the column is returned exactly when `u1` is below its height |
| `Alias.AliasMethod.constructor` | src/ofApp.cpp:88-89 | a new object starts with both vectors empty |
| `Alias.SingleOutcome` | src/ofApp.cpp:73-82 | with N = 1 the only bucket is full and unaliased, every draw returns 0 and its probability is 1 |
| `Alias.UnaliasedSample` | src/ofApp.cpp:73-80 | in a table without aliases, which is what equal weights build, a draw returns the column `u0` selects, for every `u1` |
| `Alias.ZeroProbabilityNeverSampled` | src/ofApp.cpp:73-82 | an outcome of probability 0 (a zero weight) is never returned when heights are non-negative |
| `Alias.ProbabilitiesSumToOne` | src/ofApp.cpp:14-20 | weights divided by their sum sum to exactly 1 |
| `Alias.NonNegativeProbabilities` | src/ofApp.cpp:14-20 | non-negative weights give non-negative probabilities |
| `Alias.UniformScaledHeights` | src/ofApp.cpp:19-22 | with all weights equal every initial height `probs[k] * N` is exactly 1 |
| `Alias.UniformHeights` | src/ofApp.cpp:19-22 | one weight of N equal weights, divided by their sum and scaled by N, is exactly 1 |
| `Alias.SumNonNegative` | src/ofApp.cpp:14 | non-negative weights have a non-negative sum |
| `Alias.NonNegativeHeights` | src/ofApp.cpp:21 | heights that are non-negative probabilities times N are non-negative |
| `Alias.PreparedLaw` | src/ofApp.cpp:161-177 | a finished table in which every outcome keeps its initial height `probs[i] * N` (own height plus inflow) has `SampleProbability` of each `i` exactly `probs[i]` |
| `Buckets.SamplingLaw` | src/ofApp.cpp:161-177 | in a finished table whose credit of every outcome is `p[i] * N`, `SampleProbability` of `i` is exactly `p[i]` |
| `Buckets.SamplingLawAt` | src/ofApp.cpp:73-82 | the same for one outcome: credit `x * N` means `SampleProbability` `x` |
| `Buckets.ShareSumSplit` | src/ofApp.cpp:78-81 | an outcome's total share over all columns is its own column's part plus what the other columns lend it |
| `Buckets.ColumnInterval` | src/ofApp.cpp:74-77 | for `u0` in [0,1) the draw selects column `c` exactly when `c/N <= u0 < (c+1)/N`, an interval of length 1/N |
| `Buckets.Column` | src/ofApp.cpp:74-77 | the clamped column is always in [0,N), whatever `u0` is |
| `Buckets.ColumnFloor` | src/ofApp.cpp:74-77 | for `u0` in [0,1) the column is the floor of `u0 * N`: the clamp never acts |
| `Buckets.Trunc` | src/ofApp.cpp:75 | the float-to-int cast truncates toward zero: within 1 below a non-negative value, within 1 above a negative one |
| `Buckets.Pick` | src/ofApp.cpp:78-81 | in a finished table the outcome is an index of the table, either the column or its alias |
| `Buckets.PickRegion` | src/ofApp.cpp:78-81 | column `c` yields `i` exactly for `u1` below its own part when `i` is `c`, and at or above it when `i` is `c`'s alias; `ColumnShare` adds up both parts |
| `Buckets.PickInterval` | src/ofApp.cpp:78-81 | with a non-negative height, the `u1` in [0,1) for which column `c` yields `i` are exactly an interval inside [0,1) whose length is `ColumnShare(b, c, i)` |
| `Buckets.NegativeHeightTable` | src/ofApp.cpp:14-22 | the weights `[2, -1]`, which the code accepts, build a finished table in which outcome 1 has `SampleProbability` -1 yet is never drawn |
| `Buckets.NeverDrawn` | src/ofApp.cpp:78-81 | in a finished table with non-negative heights an outcome of probability 0 keeps nothing of its own column and is no column's alias, so `Pick` never returns it |
| `Buckets.InflowBounds` | src/ofApp.cpp:55-57 | in a finished table no bucket lends a negative amount, and an outcome that receives nothing is no bucket's alias |
| `Buckets.SingleBucket` | src/ofApp.cpp:84-87 | a finished one-outcome table is a single bucket of height 1 with alias -1 |
| `Buckets.InflowUpdate` | src/ofApp.cpp:55-57 | replacing one bucket changes the inflow of each outcome by exactly the difference of what the old and new bucket lend it |
| `Buckets.NoAliasNoInflow` | src/ofApp.cpp:84-87 | buckets still at their default alias -1 lend nothing |
| `Buckets.SumScaled` | src/ofApp.cpp:14-20 | dividing every term by `c` divides the sum by `c` |
| `Buckets.SumConstant` | src/ofApp.cpp:14 | N equal weights sum to N times the weight |
| `Buckets.MassScaled` | src/ofApp.cpp:19-22 | heights `p[k] * N` add up to `sum(p) * N` |
| `Worklists.ClassifyLower` | src/ofApp.cpp:33-35 | pushing an index whose bucket is below 1 onto `lower` keeps the classification invariant one index further |
| `Worklists.ClassifyUpper` | src/ofApp.cpp:36-38 | pushing an index whose bucket is at or above 1 onto `upper` keeps the classification invariant one index further |
| `Worklists.PushAscending` | src/ofApp.cpp:33-40 | the indices are pushed in ascending order |
| `Worklists.WorkSumPush` | src/ofApp.cpp:59-64 | pushing an index adds its bucket's height to the stack's sum |
| `Worklists.WorkSumFrame` | src/ofApp.cpp:55-57 | a stack's sum depends only on the heights of the buckets on it |
| `Worklists.WorkSumBelow` | src/ofApp.cpp:33-35 | a non-empty stack of buckets below 1 holds less mass than its length |
| `Worklists.WorkSumAtLeast` | src/ofApp.cpp:36-38 | a stack of buckets at or above 1 holds at least its length, and exactly its length only if each of them is exactly 1 |
| `Worklists.MassPush` | src/ofApp.cpp:33-40 | classifying one more bucket adds its height to the mass seen so far |
| `Worklists.StepIndices` | src/ofApp.cpp:47-53 | the two popped indices differ, the popped `upper` bucket is at or above 1 (the assertion at line 53) and the popped `lower` bucket has no alias yet |
| `Worklists.StepStacked` | src/ofApp.cpp:47-64 | a turn keeps both stacks free of repeats, correctly classified and unaliased, and removes exactly one entry |
| `Worklists.StepPending` | src/ofApp.cpp:59-66 | after a turn every bucket without an alias is still on a stack |
| `Worklists.StepSettled` | src/ofApp.cpp:55-57 | a turn gives the popped `lower` bucket, which had none, the popped `upper` index as its alias, leaves every aliased bucket unchanged (each bucket is aliased at most once) and keeps every alias valid |
| `Worklists.StepBalanced` | src/ofApp.cpp:55-64 | a turn conserves mass: the stacks lose one entry and exactly one unit of height |
| `Worklists.StepCredit` | src/ofApp.cpp:55-57 | a turn keeps every outcome's own height plus inflow: what the upper bucket gives up it gets back through the lower bucket's alias |
| `Worklists.StepNonNegative` | src/ofApp.cpp:55-56 | with non-negative heights the upper bucket's new height is at least the lower one's, so heights stay non-negative |
| `Worklists.PairingStart` | src/ofApp.cpp:30-42 | before the first turn the pairing invariant holds, since no bucket has an alias or lends anything |
| `Worklists.PairingTurn` | src/ofApp.cpp:42-67 | every turn keeps the pairing invariant and shrinks the stacks |
| `Worklists.PairingDone` | src/ofApp.cpp:42-45 | when the loop stops it is `lower` that is empty, and the table is finished: each bucket left without an alias is exactly full |

## Left out

- Floating point: heights and probabilities are exact `real` numbers. So the
  model does not capture rounding drift, in particular leftover buckets whose
  float height ends slightly off 1.
- The random generator: `u0` and `u1` are parameters of `Sample`. The
  statistical histogram drawn next to `probability(i)` is replaced by the exact
  law (`Built`, `Probability`, `SamplingLaw`).
- The UI, the rendering, the global `weights` vector and its UI-driven
  resizing are not part of this model.
- Alias.AliasMethod.Prepare: the three phases work on local sequences, and
  the fields are assigned once at the end, after being cleared as the
  source's `clear()` calls do. The intermediate states of the object's vectors are not modelled.
- Alias.AliasMethod.Prepare: the contract pins down `probs` exactly. For
  `buckets` it states validity, the heights and the sampling law, not the
  particular pairing the LIFO order produces. `PairUp`'s loop body is that
  exact order.
- Alias.AliasMethod.Prepare: requires a weight sum other than 0, because the
  source divides by the sum and does no other check. Empty weights build an
  empty table, on which `sample` indexes `buckets[-1]`. All-zero weights
  divide 0 by 0. `requires Sum(weights) != 0.0` excludes both.
- Alias.AliasMethod.Prepare: negative weights are accepted, as in the code.
  For them the sampling law holds only as the formal identity
  `SampleProbability == probs[i]`. It is not the probability of a draw, since
  a negative height keeps no `u1` for its own column (`NegativeHeightTable`).
  The height bounds, and with them the reading of `SampleProbability` as a
  probability (`PickInterval`), are stated for non-negative weights. The
  program's only caller takes every weight from a slider on [0, 2].
- Alias.AliasMethod.Sample: requires a built table (`Built`): on an empty
  table the source indexes `buckets[-1]`.
- Alias.AliasMethod.Probability: requires a built table and `i` in range,
  since the source indexes `probs` without a check.
- Buckets.Trunc: models the cast of `u0 * N` to `int` for every real. The
  undefined behaviour of the C++ cast for values outside the `int` range is
  not modelled.
- The source's `assert` at line 53 is a debug check. Here it is a proved
  fact (`StepIndices`) and the model has no abort path.
- The code neither clamps the leftover heights to 1 nor rejects empty,
  negative or all-zero weights, and the model follows the code. Under exact
  arithmetic the leftover heights are exactly 1 anyway (`PairingDone`).
