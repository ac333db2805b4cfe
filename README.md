# powerRanker in Dafny

This project is a verified model of the two classes at the core of
powerRanker.

- **`PowerRanker`** (`src/power.js`) ranks a set of items from pairwise votes.
  - The constructor builds an n-by-n preference matrix. Every off-diagonal cell starts at a neutral prior of one half. Each vote takes back `implicitPref = 1/(2·numParticipants)` from both directions of its pair and adds its dominant strength to one direction. Each diagonal cell is then overwritten with its column sum.
  - `run` normalises each row to sum to one and damps with `d`, giving `d·m + (1-d)/n`. It starts from the uniform vector and repeats the vector-matrix product at most `nIter` times, stopping once two successive vectors are closer than `epsilon`.
  - The resulting weights are labelled with their items.
- **`AdaptiveSampler`** (`src/sampler.js`) stores, for each candidate pair, its running cumulative variance and the grand total `sumVariance`.
  - `samplePair` draws a threshold `u · sumVariance`.
  - It returns the first entry whose cumulative sum reaches that threshold.
  - As a result, each pair is picked in proportion to its variance.

The project has three files:

| file | contents |
|---|---|
| `results.dfy` | the `Option` and `Result` datatypes for the thrown errors |
| `power.dfy` | module `Power` |
| `sampler.dfy` | module `Sampler` |

**Module `Power`**
- The matrix is an `array2<real>`. `PowerRanker.ToMatrix`, `SeedAndApply`, `ApplyPreferences` and `WriteDiagonal` build it in place, as `_toMatrix` does.
- Each of these methods is proved against closed-form specification functions: `Seed`, `Applied`, `AppliedMatrix` and `Built`.
- `PowerMethod` is the `_powerMethod` loop. It is proved against `Transition` and `Power`, which are functions over `seq<seq<real>>`.

**Module `Sampler`**
- `AdaptiveSampler`'s constructor loop is proved against `Cumulative` and `Total`.
- Its `find` loop is proved against `Select`.

Lemmas state the properties of the specification functions. Real numbers stand in for JavaScript doubles.

## Model

| member | source | states |
|---|---|---|
| Power.PowerRanker.Create | src/power.js:13-22 | fails with `TooFewItems` exactly when there are fewer than two items, whatever the other arguments; otherwise yields a fresh ranker whose matrix is `Built` from its items, participants and votes |
| Power.PowerRanker.constructor | src/power.js:16-19 | stores the items and sets `matrix` to a fresh array, the matrix `_toMatrix` returns, i.e. `Built(...)` cell for cell |
| Power.ToItemMap | src/power.js:119-125 | `#toitemMap`: item i of the ordered items maps to index i. It has no contract of its own; `ItemMapIndexes` proves the bijection |
| Power.ItemMapIndexes | src/power.js:119-125 | over distinct items the item map has one key per item, maps item i to index i, and every key leads back to its item |
| Power.ItemMapStep | src/power.js:120-123 | adding the last item at the last index keeps the bijection between items and indices |
| Power.KnownItemsAreIndexed | src/power.js:52-67 | every vote naming known items finds both its source and its target in the item map |
| Power.Sum | src/power.js:131-133 | `#sum`: the left-to-right total starting at 0. Its properties are the lemmas `SumAffine`, `SumAdd`, `SumNonNegative` and `SumAllButOne` |
| Power.SumColumns | src/power.js:135-137 | `#sumColumns`: one total per column of an n-by-n matrix, n of them; `DiagonalIsColumnSum` states what they become in the matrix |
| Power.Snapshot | src/power.js:90 | the rows-of-cells copy `clone` takes: as many rows as the array, each as long as the array is wide, and cell (i, j) equal to the array's |
| Power.ImplicitPref | src/power.js:58 | `(1 / numParticipants) / 2` equals `1/(2·numParticipants)` |
| Power.Seed | src/power.js:55-61 | the seeded prior is 0 on the diagonal and exactly 1/2 off it |
| Power.Applied | src/power.js:58-77 | a cell after every vote: the seeded prior, less `implicitPref` per retraction, plus the recorded dominant amounts. `ApplyPreferences` proves the loop computes it and `OneVote` gives its one-vote step |
| Power.AppliedMatrix | src/power.js:55-77 | the n-by-n matrix of `Applied` cells; `SeedAndApply` proves the seed-and-apply steps build it |
| Power.Built | src/power.js:50-82 | `_toMatrix`'s result, an n-by-n matrix: `AppliedMatrix` with each diagonal cell replaced by its column total; `ToMatrix` builds it and `OffDiagonalClosedForm`, `PriorUsedUp` and `DiagonalIsColumnSum` state its cells |
| Power.BuiltWithoutPreferences | src/power.js:55-80 | with no votes the matrix is 1/2 off the diagonal and `(n-1)/2` on it |
| Power.RetractionsCountPairVotes | src/power.js:65-69 | an off-diagonal cell loses `implicitPref` once per vote on its unordered pair |
| Power.DiagonalUntouched | src/power.js:65-77 | without self-votes no vote retracts from or records on a diagonal cell |
| Power.AppliedStep | src/power.js:65-77 | one more vote changes a cell by minus its hits times `implicitPref` plus its dominant amount |
| Power.OneVote | src/power.js:65-77 | one more vote lowers `[s][t]` and `[t][s]` by `implicitPref`, adds `value` to `[s][t]` when `value >= 0.5` and `1 - value` to `[t][s]` otherwise, and leaves every other cell unchanged |
| Power.AppliedOffDiagonal | src/power.js:58-76 | before the diagonal is written, an off-diagonal cell is `1/2 - votes·1/(2N) + recorded` |
| Power.OffDiagonalClosedForm | src/power.js:58-80 | the same closed form holds in the finished matrix |
| Power.PriorUsedUp | src/power.js:58-76 | after `numParticipants` votes on a pair, its cells hold only the recorded dominant amounts |
| Power.PriorExhausted | src/power.js:58 | `numParticipants` retractions of `implicitPref` add up to exactly the prior 1/2 |
| Power.DiagonalIsColumnSum | src/power.js:135-137 | each diagonal cell is the sum of its column as it stood before; without self-votes, the sum of the column's off-diagonal cells |
| Power.PowerRanker.ToMatrix | src/power.js:50-82 | returns an n-by-n matrix equal cell for cell to `Built` |
| Power.PowerRanker.SeedAndApply | src/power.js:51-77 | returns a fresh n-by-n matrix equal to `AppliedMatrix`: the prior with every vote applied |
| Power.PowerRanker.ApplyPreferences | src/power.js:65-77 | the in-place loop over the votes turns the seeded matrix into `Applied` cell for cell |
| Power.PowerRanker.WriteDiagonal | src/power.js:80 | writes `sums[i]` to each diagonal cell and leaves every other cell as it was |
| Power.Normalized | src/power.js:91-95 | every cell divided by its row's total; `NormalizedRowSum` proves each row then sums to 1 |
| Power.Damped | src/power.js:98-99 | every cell scaled by `d` plus `(1-d)/n`; `DampedRowSum` proves a row summing to 1 still does |
| Power.Transition | src/power.js:89-99 | normalisation followed by damping; `TransitionIsStochastic` proves the result square, row-stochastic and non-negative for non-negative input and `0 <= d <= 1` |
| Power.TransitionIsStochastic | src/power.js:89-99 | normalising and damping a square matrix with non-zero rows gives a square row-stochastic matrix; it is non-negative if the input is and `0 <= d <= 1` |
| Power.TransitionRowSum | src/power.js:91-99 | each transition row has n cells summing to 1 |
| Power.NormalizedRowSum | src/power.js:91-95 | `row.map(x => x / rowSum)` sums to 1 |
| Power.SumDivided | src/power.js:94 | dividing every element by `c` divides the sum by `c` |
| Power.DampedRowSum | src/power.js:98-99 | `mulEach_(d)` and `plusEach_((1-d)/n)` keep a row sum of 1 |
| Power.TransitionCellNonNegative | src/power.js:91-99 | a transition cell is non-negative for non-negative input and `0 <= d <= 1` |
| Power.Uniform | src/power.js:102-103 | the start vector has n entries, sums to 1 and is non-negative |
| Power.VecMat | src/power.js:108 | `prev.dot(matrix)`: a vector as long as `v`, entry j being `Σ v[i]·m[i][j]`; `VecMatKeepsSum` and `MixNonNegative` state its total and sign |
| Power.Power | src/power.js:105-111 | the k-th iterate from `v`, as long as `v`; `PowerIsDistribution` proves every iterate of a distribution is one |
| Power.Converged | src/power.js:109 | the loop's exit test `#norm(next - prev) < epsilon`, stated without a square root as `0 < epsilon` and squared distance below `epsilon²` |
| Power.StopsAt | src/power.js:107-111 | the stopping rule: 0 products if `nIter <= 0`, otherwise between 1 and `nIter`, none but possibly the last converged, and the last did if the loop stopped early |
| Power.SumPartial | src/power.js:108 | with a row-stochastic matrix, the product over the first k rows sums to the first k weights |
| Power.PartialStep | src/power.js:108 | one more row adds exactly that row's weight to the product's total |
| Power.VecMatKeepsSum | src/power.js:108 | `prev.dot(matrix)` keeps the total of the vector for a row-stochastic matrix |
| Power.MixNonNegative | src/power.js:108 | non-negative weights times a non-negative matrix give non-negative entries |
| Power.PowerIsDistribution | src/power.js:102-111 | every iterate from a distribution sums to 1, and stays non-negative when the matrix is |
| Power.PowerRanker.PowerMethod | src/power.js:85-115 | fails with `NotSquare` exactly for a non-square matrix, whatever its cells. Otherwise it returns `Power(Transition(m, d), Uniform(n), steps)` where `steps` obeys `StopsAt`: 0 if `nIter <= 0` and otherwise between 1 and `nIter`. No earlier pair of iterates converged, and the last one did if it stopped before `nIter`. The result sums to 1 and is non-negative for non-negative input and `0 <= d <= 1`. It does not modify its argument |
| Power.PowerRanker.ApplyLabels | src/power.js:42-47 | fails with `MismatchedArguments` exactly when the weight count differs from the item count; otherwise maps each item, and only items, to the weight at its index |
| Power.PowerRanker.Run | src/power.js:34-37 | labels each item with its entry of `Power(Transition(matrix, d), Uniform(n), steps)`, where `steps` obeys `StopsAt`: 0 if `nIter <= 0`, otherwise between 1 and `nIter`, the first iterate that converged when it stops before `nIter`, and no earlier one converged; the weights sum to 1 and are non-negative for non-negative matrices and `0 <= d <= 1` |
| Power.RowSumWithoutPreferences | src/power.js:55-80 | with no votes every row of the matrix sums to `n - 1` |
| Power.TransitionSymmetric | src/power.js:89-99 | a symmetric matrix with equal non-zero row sums stays symmetric under normalisation and damping |
| Power.MixUniformSymmetric | src/power.js:108 | uniform weights times a symmetric matrix give `c` times the partial row sums |
| Power.UniformIsFixedPoint | src/power.js:102-111 | the uniform vector is a fixed point of every power step for a symmetric row-stochastic matrix |
| Power.UniformWithoutPreferences | test/power.js:18-25 | with an empty list of votes the matrix has non-zero rows and every item gets weight `1/n` after any number of steps and for any `d` |
| Sampler.Cumulative | src/sampler.js:11-18 | the stored list has one entry per input, keeps each pair, records the total of the variances up to and including that entry, and its last entry equals `sumVariance` |
| Sampler.Total | src/sampler.js:11-17 | `sumVariance` after the given entries, added left to right; `TotalMonotone` and `TotalNonNegative` state its order and sign |
| Sampler.TotalMonotone | src/sampler.js:14-18 | with non-negative variances a longer prefix never has a smaller total |
| Sampler.TotalNonNegative | src/sampler.js:11-17 | with non-negative variances the total is non-negative |
| Sampler.CumulativeNonDecreasing | src/sampler.js:27 | with non-negative variances `cumSumVariance` never decreases along the list |
| Sampler.CumulativeBounded | src/sampler.js:14-18 | with non-negative variances every cumulative sum lies between 0 and `sumVariance` |
| Sampler.Select | src/sampler.js:28-29 | `find` names an index whose sum reaches the threshold with every earlier one below it, or no index when every entry is below the threshold |
| Sampler.SelectFirst | src/sampler.js:28-29 | the first entry to reach the threshold is the one `find` returns |
| Sampler.SelectNone | src/sampler.js:28-29 | when no entry reaches the threshold, `find` returns nothing |
| Sampler.SelectedSlice | src/sampler.js:21-30 | entry k is chosen exactly when the threshold lies in `(Total(vs[..k]), Total(vs[..k+1])]` (the first slice is open below), a slice whose width is `vs[k].variance` |
| Sampler.AtMostWhole | src/sampler.js:25 | a draw `u <= 1` gives a threshold no larger than a non-negative `sumVariance` |
| Sampler.Threshold | src/sampler.js:25 | the threshold `samplePair` draws, the fraction `u` of `sumVariance`; `AtMostWhole` bounds it by the total |
| Sampler.Found | src/sampler.js:28-29 | the entry `find` returns: the one `Select` names, or none; `SelectedSlice` says when entry k is the one |
| Sampler.AdaptiveSampler.Create | src/sampler.js:8-19 | fails with `NoPairs` exactly for an empty list; otherwise yields a fresh sampler storing `Cumulative(vs)` and `Total(vs)` |
| Sampler.AdaptiveSampler.constructor | src/sampler.js:11-18 | the one left-to-right pass leaves `sumVariance == Total(vs)` and `variances == Cumulative(vs)` |
| Sampler.AdaptiveSampler.SamplePair | src/sampler.js:24-30 | returns the entry `find` picks for `u · sumVariance`. With non-negative variances and `u <= 1` an entry is always found, and its `cumSumVariance` is at most `sumVariance`. Its pair is one of the input pairs |
| Sampler.AdaptiveSampler.Find | src/sampler.js:28-29 | the loop returns the first stored entry reaching the threshold, or none; with non-negative variances a threshold up to `sumVariance` always finds one, bounded by `sumVariance`, carrying an input pair |

## Left out

- **Floating point.** JavaScript doubles are modelled as exact reals, so rounding and the exact ranking numbers in test/power.js are not reproduced.
- **`#norm`.** The model has no square root. `Converged` compares the squared distance with `epsilon²` when `epsilon > 0`, which is equivalent to `sqrt(x) < epsilon`.
- **`linear-algebra` library.** It is not part of this model. Its `zero`, `identity`, `plusEach`, `mulEach`, `minus`, `trans`, `clone` and `dot` appear as sequence functions with their mathematical meaning.
- **In-place transition updates.** `_powerMethod` updates its private copy with `mulEach_` and `plusEach_`. The model computes that copy as a value (`Transition`); the caller's matrix is unchanged either way.
- **`Math.random()`.** It becomes the parameter `u` of `SamplePair`.
- **Logging.** `verbose` and `log` are left out. `steps` counts the products taken. That equals the logged `i` when the loop runs to `nIter` (or not at all), but `break` skips the final `i++`, so after an early stop the logged `i` is `steps - 1`.
- **Item order.** The `#toitemMap` sort uses the comparator `a - b`. JavaScript's sort treats a `NaN` result as "equal" and is stable. So when no item reads as a number (as in both test files) the set's insertion order is kept, and when every item reads as a number they are sorted numerically. A mix of numeric and non-numeric strings makes the comparator inconsistent, and the order is then engine-dependent. The model takes the items as the sequence in the order the sort leaves them and indexes them by position; a JavaScript `Set` becomes `Distinct`.
- **`addPreferences` and `getVariances`.** The tests call them, but src/power.js does not define them. Preferences are given only to the constructor, and no variance estimator is modelled.
- **Caller obligations as `requires`.** The source has no checks for these:
  - a ranker with at least two items needs `numParticipants > 0` (otherwise `implicitPref` is infinite);
  - for such a ranker every vote must name known items (otherwise the cell index is `undefined`). With fewer than two items `Create` fails with `TooFewItems` whatever the participant count and votes are, as the source throws before reading them;
  - `Run` needs rows with non-zero sums, and `PowerMethod` needs them for a square matrix (otherwise the division gives `NaN`), as well as at least one row, since the uniform start vector `1/n` needs `n > 0`. On a 0-by-0 matrix the source returns an empty vector, a case a ranker with at least two items never reaches. A non-square matrix has no such requirement and fails with `NotSquare`.
  - `preferences` must be given. The source calls `preferences.forEach` unguarded, so a ranker constructed without preferences throws a `TypeError`, which is how test/power.js:19 and test/sampler.js:23 construct it. The model has no absent case; `UniformWithoutPreferences` is about an empty list of votes, the behaviour test/power.js:18-25 expects.
- **Defaults of `run`.** `run` defaults `d` to 1, `epsilon` to 0.001 and `nIter` to 1000. `Run` takes all three as parameters and has no defaults.
- **Self-votes.** These are modelled as written: the diagonal cell is retracted twice. `DiagonalIsColumnSum` and `DiagonalUntouched` state their stronger forms only without self-votes.
- **`assert` failures.** JavaScript `assert` throws; the model returns `Result.Failure` values (`TooFewItems`, `MismatchedArguments`, `NotSquare`, `NoPairs`).
- **`Run`.** In the source, `_powerMethod` throws for a non-square matrix and `_applyLabels` throws for a length mismatch. In the model, a valid ranker's matrix is square and the same size as its items, so neither failure can arise within `Run`.
- **Aliasing of the item set.** The source keeps the caller's `Set` by reference (`this.items = items`) and rebuilds the item map from it on every `run`, while the matrix is fixed at construction. A caller that changes the set afterwards makes `run` throw `Mismatched arguments!` (size changed) or label the weights in the new insertion order. The model's ranker takes an immutable snapshot of the items (`const items: seq<Item>`), so it does not capture that aliasing.
- **`Power.PowerRanker.constructor` and `Sampler.AdaptiveSampler.constructor`:** these require the size check to have passed already. `Create` models that check and its failure.
