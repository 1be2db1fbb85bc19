# Tenos Chaotic Conditioning Discombobulator, modelled in Dafny

The Tenos Chaotic Conditioning Discombobulator is a ComfyUI node. It
perturbs a conditioning list. The list is a batch of (embedding tensor,
metadata dictionary) pairs. For each pair, `modify_conditioning` does this:

- It clones the embedding.
- It chooses which indices of the last (embedding) axis to affect. With
  `affected_dimension_ratio < 1.0` these are the first
  `int(D * ratio)` entries of a random permutation of `[0, D)`. Otherwise
  they are all `D` indices.
- On those indices it multiplies by `scale_factor`, then adds
  `shift_value`, then adds Gaussian noise times `noise_amount`. Each step
  is skipped when its parameter is neutral.
- It emits the modified clone. If any value of the clone is not finite,
  it emits the original tensor instead.

One random generator serves the whole call. It is seeded only when
`seed != 0`. Every draw advances it across the batch.

The project has five modules:

- `Indices` (indices.dfy) covers index lists: distinct, in range,
  permutations, and the set of indices a list names.
- `Rng` (rng.dfy) is the generator. It is a class whose methods
  `ManualSeed`, `RandPerm` and `RandN` update its stream position. What
  each draw returns is a fixed function of the stream and the position.
  The stream itself comes from an abstract `Engine`.
- `Tensors` (tensors.dfy) covers embeddings. They are `array2<real>`
  buffers `[rows, D]`, with a value view `ValueOf`. The module also has
  `torch.isfinite`, the three in-place updates `t[..., sel] op= ...` as
  the methods `ApplyColumn` and `ApplyAt`, their specification `MapAt`,
  and `clone()`.
- `Discombobulator` (discombobulator.dfy) is `modify_conditioning`
  itself. `ModifyConditioning` is the `for` loop. It creates one
  generator, calls `AppendModified` for each entry, and `AppendModified`
  calls `ModifyItem` (clone, `SelectDims`, `PerturbSelected`, finiteness
  fallback). These methods are proved against value-level specification
  functions: `Selection`, `Modified`, `Emitted`, `PlannedDraws`,
  `Offset`, `Emissions` and `Fallbacks`.
- `DiscombobulatorProperties` (properties.dfy) holds what the routine
  promises, stated over those functions.

## Model

| member | source | states |
|---|---|---|
| Indices.Range | Tenos-Conditioning-Discombobulator.py:72 | the full slice names index `i` at place `i`, for every `i < D` |
| Indices.RangeIsPermutation | Tenos-Conditioning-Discombobulator.py:72 | the full slice is a permutation of `[0, D)` |
| Indices.DistinctCount | Tenos-Conditioning-Discombobulator.py:70 | a list without repetitions names exactly as many indices as it is long |
| Indices.PermutationCovers | Tenos-Conditioning-Discombobulator.py:70-72 | a permutation of `[0, n)` names every index below `n` (pigeonhole) |
| Rng.Permutation | Tenos-Conditioning-Discombobulator.py:70 | a `randperm(n)` draw has length `n` |
| Rng.PermutationValid | Tenos-Conditioning-Discombobulator.py:70 | whatever the generator's stream, a `randperm(n)` draw is a permutation of `[0, n)` |
| Rng.ConsumedAppend | Tenos-Conditioning-Discombobulator.py:62-85 | the generator's advance over two runs of draws is the sum of their advances |
| Rng.NoiseSample | Tenos-Conditioning-Discombobulator.py:83-84 | a `randn((rows, cols))` block has `rows` rows of `cols` samples |
| Rng.Generator.constructor | Tenos-Conditioning-Discombobulator.py:56 | `torch.Generator()` starts in the engine's default (unseeded) stream at position 0 |
| Rng.Generator.ManualSeed | Tenos-Conditioning-Discombobulator.py:57-58 | `manual_seed(seed)` switches to the stream for that seed, from its start |
| Rng.Generator.RandPerm | Tenos-Conditioning-Discombobulator.py:70 | returns a permutation of `[0, n)` read at the current position, advances by one permutation, logs the draw |
| Rng.Generator.RandN | Tenos-Conditioning-Discombobulator.py:83-84 | returns a `rows` by `cols` sample block read at the current position, advances past it, logs the draw |
| Tensors.Finite | Tenos-Conditioning-Discombobulator.py:88 | one value is finite exactly when its magnitude is at most the float32 maximum; a real beyond it stands for an overflow to infinity |
| Tensors.AllFinite | Tenos-Conditioning-Discombobulator.py:88 | `isfinite(t).all()`: the front-to-back check that every value of every row is finite (its meaning is stated by AllFiniteIff) |
| Tensors.RowFiniteIff | Tenos-Conditioning-Discombobulator.py:88 | the front-to-back finiteness check of a row holds exactly when each of its values is finite |
| Tensors.RowsFiniteIff | Tenos-Conditioning-Discombobulator.py:88 | the check over rows holds exactly when every value of every row is finite |
| Tensors.AllFiniteIff | Tenos-Conditioning-Discombobulator.py:88 | `isfinite(t).all()` holds exactly when no value of `t` lies outside the finite range |
| Tensors.Apply | Tenos-Conditioning-Discombobulator.py:76-85 | the new value of one selected entry: multiplied by the factor, plus the offset, or plus its own sample times the weight; a neutral update (factor 1, offset 0, weight 0) leaves the value unchanged |
| Tensors.UpdateColumn | Tenos-Conditioning-Discombobulator.py:76-85 | one selected column of every row updated, keeping the width, the number of rows and every row length |
| Tensors.MapAt | Tenos-Conditioning-Discombobulator.py:76-85 | `t[..., sel] op= ...` keeps the embedding's shape |
| Tensors.MapAtUntouched | Tenos-Conditioning-Discombobulator.py:76-85 | outside the selected indices, an update changes nothing |
| Tensors.MapAtSelected | Tenos-Conditioning-Discombobulator.py:76-85 | at the `j`-th selected index of a selection without repetitions, the update is applied exactly once, with column `j` of its operand |
| Tensors.Clone | Tenos-Conditioning-Discombobulator.py:63 | `clone()` returns a new buffer with the same values |
| Tensors.ApplyColumn | Tenos-Conditioning-Discombobulator.py:76-85 | updating one column in place leaves the buffer equal to `UpdateColumn` of its old values |
| Tensors.ApplyAt | Tenos-Conditioning-Discombobulator.py:76-85 | the in-place `m[..., sel] op= ...` leaves the buffer equal to `MapAt` of its old values, so only the selected columns change, each exactly once |
| Discombobulator.Product | Tenos-Conditioning-Discombobulator.py:65 | `D * ratio` summed row by row: not negative for a ratio that is not negative, and at most `D` when `ratio <= 1` |
| Discombobulator.ProductIsMultiplication | Tenos-Conditioning-Discombobulator.py:65 | the row-by-row product is `D * ratio` |
| Discombobulator.DimsToAffect | Tenos-Conditioning-Discombobulator.py:65 | `dims_to_affect` is the whole number `k` with `k <= D * ratio < k + 1`, and at most `D` when `ratio <= 1` |
| Discombobulator.Width | Tenos-Conditioning-Discombobulator.py:68-72 | the number of selected indices is at most `D`, and `D` on the full path |
| Discombobulator.Selection | Tenos-Conditioning-Discombobulator.py:68-72 | the selection has `Width` indices, and on the full path index `c` sits at place `c` |
| Discombobulator.SelectionValid | Tenos-Conditioning-Discombobulator.py:68-72 | the selected indices are distinct and below `D` on both paths |
| Discombobulator.ItemDraws | Tenos-Conditioning-Discombobulator.py:68-85 | one entry first draws a permutation of `D` if and only if `ratio < 1`, then a noise block `[rows, width]` if and only if `noise_amount > 0`, and nothing else |
| Discombobulator.NoiseFor | Tenos-Conditioning-Discombobulator.py:83-84 | the noise block has one row per embedding row and one column per selected index |
| Discombobulator.ScaleStep | Tenos-Conditioning-Discombobulator.py:75-76 | multiplies the selected columns by `scale_factor` unless it is 1, keeping the shape (its value at each index is stated by ScaleAt) |
| Discombobulator.ShiftStep | Tenos-Conditioning-Discombobulator.py:78-79 | adds `shift_value` to the selected columns unless it is 0, keeping the shape (stated per index by ShiftAt) |
| Discombobulator.NoiseStep | Tenos-Conditioning-Discombobulator.py:81-85 | adds the drawn block times `noise_amount` to the selected columns only when the amount is positive, keeping the shape (stated per index by NoiseAt) |
| Discombobulator.Modified | Tenos-Conditioning-Discombobulator.py:63-85 | the modified clone has the input's shape |
| Discombobulator.Emitted | Tenos-Conditioning-Discombobulator.py:88-92 | the emitted embedding is finite everywhere or is the original, with the input's shape |
| Discombobulator.Emissions | Tenos-Conditioning-Discombobulator.py:60-62 | the batch of emitted embeddings is as long as the input batch |
| Discombobulator.Fallbacks | Tenos-Conditioning-Discombobulator.py:88-90 | the fallback flags have one entry per input entry |
| Discombobulator.PlannedDraws | Tenos-Conditioning-Discombobulator.py:62-84 | the draws of the first `n` entries in loop order: one permutation per entry when `ratio < 1` and one noise block per entry when `noise_amount > 0`, nothing else |
| Discombobulator.Offset | Tenos-Conditioning-Discombobulator.py:62-84 | where entry `i` finds the shared generator, past every draw of the entries before it; at the start for every entry when nothing is drawn |
| Discombobulator.Initial | Tenos-Conditioning-Discombobulator.py:56-58 | the generator's stream: the one for `seed` when `seed != 0`, the default one otherwise; the normal transform is the engine's either way |
| Discombobulator.NewGenerator | Tenos-Conditioning-Discombobulator.py:56-58 | a fresh generator at position 0, on the seeded stream when `seed != 0` and on the default stream otherwise |
| Discombobulator.SelectDims | Tenos-Conditioning-Discombobulator.py:64-72 | returns `Selection` (distinct, in range), drawing one permutation exactly on the subset path |
| Discombobulator.PerturbSelected | Tenos-Conditioning-Discombobulator.py:74-85 | scale, shift and noise in place in that order, each skipped when neutral; the noise block is drawn only when `noise_amount > 0` |
| Discombobulator.ModifyItem | Tenos-Conditioning-Discombobulator.py:62-92 | one loop pass: the caller's buffer keeps its values, the generator advances by exactly this entry's draws, and the result's values are `Emitted`; the result is the original buffer exactly when the modified clone is not finite, and otherwise a new buffer |
| Discombobulator.CollectedAt | Tenos-Conditioning-Discombobulator.py:60-92 | every collected entry keeps its input's metadata, holds its emitted values, and is the input's own buffer exactly when it fell back |
| Discombobulator.AppendModified | Tenos-Conditioning-Discombobulator.py:62-92 | appending entry `i` extends the output by exactly `Emissions[i]` and `Fallbacks[i]`, and moves the generator past this entry's draws |
| Discombobulator.ModifyConditioning | Tenos-Conditioning-Discombobulator.py:53-94 | the output is as long as the input and in the same order; entry `i` keeps its metadata and holds `Emitted` of input `i`, with the generator at `Offset(i)` of the call's initial stream; it is the caller's own buffer exactly when the modified clone is not finite; the draws are `PlannedDraws` of the batch; no caller buffer is written |
| DiscombobulatorProperties.DimsToAffectIsTruncation | Tenos-Conditioning-Discombobulator.py:65 | `int(D * ratio)` is the real product truncated: `k <= D * ratio < k + 1` |
| DiscombobulatorProperties.SelectionCount | Tenos-Conditioning-Discombobulator.py:64-72 | the selection names exactly `Width` distinct indices below `D`; on the subset path it is the first `int(D * ratio)` entries of a permutation of `[0, D)`; on the full path it names every index |
| DiscombobulatorProperties.ModifiedShape | Tenos-Conditioning-Discombobulator.py:63-92 | the modified clone and the emitted embedding have every row of length `D` |
| DiscombobulatorProperties.ModifiedUnselected | Tenos-Conditioning-Discombobulator.py:70-85 | a value at an unselected index passes the three updates unchanged |
| DiscombobulatorProperties.ScaleAt | Tenos-Conditioning-Discombobulator.py:75-76 | at a selected index the scale step multiplies by `scale_factor`, unless the factor is 1 |
| DiscombobulatorProperties.ShiftAt | Tenos-Conditioning-Discombobulator.py:78-79 | at a selected index the shift step adds `shift_value`, unless the shift is 0 |
| DiscombobulatorProperties.NoiseAt | Tenos-Conditioning-Discombobulator.py:81-85 | at the `j`-th selected index the noise step adds the matching sample times `noise_amount`, only when the amount is positive |
| DiscombobulatorProperties.StagesSelected | Tenos-Conditioning-Discombobulator.py:75-85 | over any selection without repetitions, the three steps turn a selected value into `Affect` of it |
| DiscombobulatorProperties.ModifiedSelected | Tenos-Conditioning-Discombobulator.py:75-85 | the `j`-th selected value becomes `((v * scale) + shift) + n * noise_amount`, each step skipped when neutral, with `n` the noise sample of that row and column `j` |
| DiscombobulatorProperties.EmittedUnselected | Tenos-Conditioning-Discombobulator.py:70-92 | whether or not the entry falls back, every value at an unselected index is emitted unchanged |
| DiscombobulatorProperties.EmittedSelected | Tenos-Conditioning-Discombobulator.py:75-92 | a selected value is emitted as `Affect` of it when the modified clone is finite, and unchanged otherwise |
| DiscombobulatorProperties.FiniteStaysFinite | Tenos-Conditioning-Discombobulator.py:88-92 | a finite input is never emitted as a non-finite embedding |
| DiscombobulatorProperties.NeutralIdentity | Tenos-Conditioning-Discombobulator.py:75-85 | with scale 1, shift 0 and no noise, the clone and the emitted embedding equal the input for any ratio |
| DiscombobulatorProperties.ZeroRatioIdentity | Tenos-Conditioning-Discombobulator.py:65-85 | with ratio 0 no index is selected and the entry is emitted unchanged, although a permutation is still drawn |
| DiscombobulatorProperties.ItemConsumption | Tenos-Conditioning-Discombobulator.py:70-84 | one entry advances the generator by `D` for its permutation (subset path only) plus the size of its noise block (positive noise only) |
| DiscombobulatorProperties.OffsetStep | Tenos-Conditioning-Discombobulator.py:62-85 | entry `i + 1` finds the generator exactly past the draws of entry `i` |
| DiscombobulatorProperties.OffsetMonotone | Tenos-Conditioning-Discombobulator.py:56-85 | the shared generator only moves forward through the batch |
| DiscombobulatorProperties.DrawsFollowShapes | Tenos-Conditioning-Discombobulator.py:62-92 | the draws depend only on the entries' shapes, not on their values or on which entries fall back |
| DiscombobulatorProperties.DrawsIgnoreLater | Tenos-Conditioning-Discombobulator.py:62 | the draws of the first `n` entries do not depend on later entries |
| DiscombobulatorProperties.SiblingIndependence | Tenos-Conditioning-Discombobulator.py:62-92 | entry `k`'s output and fallback are the same in any batch of the same shapes that holds the same entry `k` |
| DiscombobulatorProperties.PrefixEmissions | Tenos-Conditioning-Discombobulator.py:60-92 | processing only the first `m` entries emits the first `m` outputs of the whole batch |
| DiscombobulatorProperties.NoDrawsWithoutSubsetOrNoise | Tenos-Conditioning-Discombobulator.py:68-85 | with `ratio >= 1` and no noise the generator is never drawn from |
| DiscombobulatorProperties.NeutralBatch | Tenos-Conditioning-Discombobulator.py:60-92 | with neutral parameters the whole batch is emitted unchanged, and the entries that fall back are exactly the non-finite inputs |
| DiscombobulatorProperties.SeededRunsAgree | Tenos-Conditioning-Discombobulator.py:56-58 | with a nonzero seed the output and fallbacks depend only on the stream for that seed, not on the generator's default state |
| DiscombobulatorProperties.ScaleExample | Tenos-Conditioning-Discombobulator.py:75-76 | scale 2 on the full path turns the row `[1, 2, 3, 4]` into `[2, 4, 6, 8]` |
| DiscombobulatorProperties.OverflowReverts | Tenos-Conditioning-Discombobulator.py:75-90 | doubling the largest finite value overflows (twice the float32 maximum is infinite), so the original is emitted |
| DiscombobulatorProperties.HalfRatioExample | Tenos-Conditioning-Discombobulator.py:64-72 | ratio 0.5 on a four-wide embedding selects exactly two indices |

## Left out

- The generator's algorithm is not modelled. This covers torch's bit
  generator, its default state, how `randperm` shuffles and how `randn`
  samples. An `Engine` parameter supplies the stream of raw words for each
  seed, the default stream and the word-to-normal map. The permutation
  drawn from the words is an inside-out shuffle that stands in for
  torch's. Each permutation of `D` consumes `D` words and each block
  consumes one word per sample. Only the order of the draws and their
  dependence on seed and position are claimed to match torch.
- A generator that is never seeded uses `Engine.unseeded`. The model
  does not say whether torch's default state is fixed or not.
- Values are reals. IEEE-754 rounding, NaN and infinities are not
  modelled. `torch.isfinite` is modelled as a magnitude no larger than
  the largest float32 value. A value beyond that bound stands for an
  infinity. Unlike an infinity, such a value can come back within range
  under a later scale, so an input that already holds infinities at
  selected indices is not modelled faithfully.
- Overflow is judged on the exact real result, so it differs from
  float32 in two ways. First, a result above the float32 maximum by less
  than 2^103 (half a unit in its last place) counts as overflow here,
  although float32 rounds it back to the maximum and keeps the clone. For
  example, `MaxFinite + 5` counts as overflow here, but float32 keeps the
  clone. Second, the noise samples `Engine.normal` returns are not
  bounded. A large sample of the opposite sign can bring an overflowing
  scaled or shifted value back within range. The model then keeps the
  clone, while in float32 `inf + n` stays infinite and the entry
  reverts.
- `int(D * ratio)` is computed exactly. Float rounding of the product,
  where for example 0.29 * 100 gives 28.999…, is not modelled.
- dtype and device placement (line 84) are not modelled, and neither are
  the costs of cloning.
- Only two-dimensional embeddings `[rows, D]` are modelled. Middle axes
  and torch broadcasting of the subset-path noise `[rows, k]` over them
  are out of scope.
- The warning `print` (line 89) is I/O and is left out.
- The ComfyUI glue at lines 10-51 and 96-103 is left out: `INPUT_TYPES`,
  `RETURN_TYPES`, `FUNCTION`, `CATEGORY` and the node mappings. The host
  clamps the parameters. The model requires only `0 <= ratio`, the
  host's minimum, because a negative ratio would make the slice on line
  70 count from the end. Every other parameter may be any real, and the
  seed any natural number.
- The metadata dictionary is carried as a value of any type `M`. Sharing
  of the dictionary object between input and output is not modelled.
- ModifyConditioning: does not state that every kept clone is a new
  buffer, distinct from every input buffer. ModifyItem states this for
  one entry. Carrying it through the loop invariant exceeded the proof
  budget.

