/** What the perturbation guarantees, stated over the value-level model of
    one entry (Modified, Emitted) and of a whole batch (PlannedDraws,
    Offset, Emissions) that ModifyConditioning is proved against. */
module DiscombobulatorProperties {
  import opened Indices
  import opened Rng
  import opened Tensors
  import opened Discombobulator

  // ---------------------------------------------------------------------
  // Dimension selection
  // ---------------------------------------------------------------------

  /** `int(D * ratio)` truncates the real product: the count lies within one
      below it. */
  lemma DimsToAffectIsTruncation(dim: nat, ratio: real)
    requires 0.0 <= ratio
    ensures DimsToAffect(dim, ratio) as real <= dim as real * ratio < DimsToAffect(dim, ratio) as real + 1.0
  {
    ProductIsMultiplication(dim, ratio);
  }

  /** The selection names exactly Width(dim, p) distinct indices of the last
      axis: on the subset path the first `int(D * ratio)` entries of a
      permutation of [0, D), on the full path every index. */
  lemma SelectionCount(dim: nat, p: Params, src: Source, pos: nat)
    requires 0.0 <= p.ratio
    ensures |Elements(Selection(dim, p, src, pos))| == Width(dim, p)
    ensures forall c :: c in Elements(Selection(dim, p, src, pos)) ==> c < dim
    ensures p.ratio < 1.0 ==>
              && IsPermutation(Permutation(src.words, pos, dim), dim)
              && Selection(dim, p, src, pos) == Permutation(src.words, pos, dim)[..DimsToAffect(dim, p.ratio)]
    ensures p.ratio >= 1.0 ==> Elements(Selection(dim, p, src, pos)) == Elements(Range(dim))
  {
    var sel := Selection(dim, p, src, pos);
    SelectionValid(dim, p, src, pos);
    DistinctCount(sel);
    PermutationValid(src.words, pos, dim);
    forall c | c in Elements(sel) ensures c < dim {
      var i :| 0 <= i < |sel| && sel[i] == c;
    }
  }

  // ---------------------------------------------------------------------
  // One entry
  // ---------------------------------------------------------------------

  /** The modified clone keeps the shape of the input. */
  lemma ModifiedShape(x: Embedding, p: Params, src: Source, pos: nat)
    requires 0.0 <= p.ratio && Shaped(x)
    ensures Shaped(Modified(x, p, src, pos)) && Shaped(Emitted(x, p, src, pos))
  {
  }

  /** A value at an unselected last-axis index passes the three updates
      unchanged. */
  lemma ModifiedUnselected(x: Embedding, p: Params, src: Source, pos: nat, r: nat, c: nat)
    requires 0.0 <= p.ratio && Shaped(x) && r < |x.rows| && c < x.dim
    requires c !in Selection(x.dim, p, src, pos)
    ensures Modified(x, p, src, pos).rows[r][c] == x.rows[r][c]
  {
    var sel := Selection(x.dim, p, src, pos);
    var scaled := ScaleStep(x, sel, p);
    var shifted := ShiftStep(scaled, sel, p);
    if p.scale != 1.0 {
      MapAtUntouched(x, sel, Scale(p.scale), r, c);
    }
    if p.shift != 0.0 {
      MapAtUntouched(scaled, sel, Shift(p.shift), r, c);
    }
    if p.noise > 0.0 {
      MapAtUntouched(shifted, sel, Noise(NoiseFor(x, p, src, pos), p.noise), r, c);
    }
  }

  /** `t[..., sel] *= scale_factor` unless the factor is 1, seen at the
      `j`-th selected index. */
  lemma ScaleAt(t: Embedding, sel: seq<nat>, p: Params, r: nat, j: nat)
    requires Shaped(t) && Distinct(sel) && Below(sel, t.dim) && r < |t.rows| && j < |sel|
    ensures var u := ScaleStep(t, sel, p);
            && Shaped(u) && u.dim == t.dim && |u.rows| == |t.rows|
            && u.rows[r][sel[j]] == if p.scale != 1.0 then t.rows[r][sel[j]] * p.scale else t.rows[r][sel[j]]
  {
    if p.scale != 1.0 {
      MapAtSelected(t, sel, Scale(p.scale), r, j);
    }
  }

  /** `t[..., sel] += shift_value` unless the shift is 0, seen at the `j`-th
      selected index. */
  lemma ShiftAt(t: Embedding, sel: seq<nat>, p: Params, r: nat, j: nat)
    requires Shaped(t) && Distinct(sel) && Below(sel, t.dim) && r < |t.rows| && j < |sel|
    ensures var u := ShiftStep(t, sel, p);
            && Shaped(u) && u.dim == t.dim && |u.rows| == |t.rows|
            && u.rows[r][sel[j]] == if p.shift != 0.0 then t.rows[r][sel[j]] + p.shift else t.rows[r][sel[j]]
  {
    if p.shift != 0.0 {
      MapAtSelected(t, sel, Shift(p.shift), r, j);
    }
  }

  /** `t[..., sel] += noise * noise_amount` when the amount is positive, seen
      at the `j`-th selected index. */
  lemma NoiseAt(t: Embedding, sel: seq<nat>, p: Params, noise: seq<seq<real>>, r: nat, j: nat)
    requires Shaped(t) && Distinct(sel) && Below(sel, t.dim) && r < |t.rows| && j < |sel|
    requires r < |noise| && j < |noise[r]|
    ensures NoiseStep(t, sel, p, noise).rows[r][sel[j]]
            == if p.noise > 0.0 then t.rows[r][sel[j]] + noise[r][j] * p.noise else t.rows[r][sel[j]]
  {
    if p.noise > 0.0 {
      MapAtSelected(t, sel, Noise(noise, p.noise), r, j);
    }
  }

  /** Affect read as the three conditional updates, one after another. */
  lemma AffectInStages(v: real, v1: real, v2: real, p: Params, n: real)
    requires v1 == if p.scale != 1.0 then v * p.scale else v
    requires v2 == if p.shift != 0.0 then v1 + p.shift else v1
    ensures Affect(v, p, n) == if p.noise > 0.0 then v2 + n * p.noise else v2
  {
  }

  /** The three conditional updates over any selection without repetitions,
      seen at its `j`-th index. */
  lemma StagesSelected(x: Embedding, sel: seq<nat>, p: Params, noise: seq<seq<real>>, r: nat, j: nat)
    requires Shaped(x) && Distinct(sel) && Below(sel, x.dim) && r < |x.rows| && j < |sel|
    requires r < |noise| && j < |noise[r]|
    ensures NoiseStep(ShiftStep(ScaleStep(x, sel, p), sel, p), sel, p, noise).rows[r][sel[j]]
            == Affect(x.rows[r][sel[j]], p, noise[r][j])
  {
    var scaled := ScaleStep(x, sel, p);
    var shifted := ShiftStep(scaled, sel, p);
    ScaleAt(x, sel, p, r, j);
    ShiftAt(scaled, sel, p, r, j);
    NoiseAt(shifted, sel, p, noise, r, j);
    AffectInStages(x.rows[r][sel[j]], scaled.rows[r][sel[j]], shifted.rows[r][sel[j]], p, noise[r][j]);
  }

  /** The value at the `j`-th selected index becomes
      `((v * scale) + shift) + n * noise_amount`, `n` being the entry of the
      noise block in the same row and the `j`-th column, and each step skipped
      when its parameter is neutral. */
  lemma ModifiedSelected(x: Embedding, p: Params, src: Source, pos: nat, r: nat, j: nat)
    requires 0.0 <= p.ratio && Shaped(x) && r < |x.rows| && j < Width(x.dim, p)
    ensures Selection(x.dim, p, src, pos)[j] < x.dim
    ensures Modified(x, p, src, pos).rows[r][Selection(x.dim, p, src, pos)[j]]
            == Affect(x.rows[r][Selection(x.dim, p, src, pos)[j]], p, NoiseFor(x, p, src, pos)[r][j])
  {
    SelectionValid(x.dim, p, src, pos);
    StagesSelected(x, Selection(x.dim, p, src, pos), p, NoiseFor(x, p, src, pos), r, j);
  }

  /** Whether or not the entry reverts, every value at an unselected
      last-axis index is emitted as it came in. */
  lemma EmittedUnselected(x: Embedding, p: Params, src: Source, pos: nat, r: nat, c: nat)
    requires 0.0 <= p.ratio && Shaped(x) && r < |x.rows| && c < x.dim
    requires c !in Selection(x.dim, p, src, pos)
    ensures Emitted(x, p, src, pos).rows[r][c] == x.rows[r][c]
  {
    ModifiedUnselected(x, p, src, pos, r, c);
  }

  /** At the `j`-th selected index the emitted value is the affected one,
      unless the entry reverts, in which case it is the input value. */
  lemma EmittedSelected(x: Embedding, p: Params, src: Source, pos: nat, r: nat, j: nat)
    requires 0.0 <= p.ratio && Shaped(x) && r < |x.rows| && j < Width(x.dim, p)
    ensures Selection(x.dim, p, src, pos)[j] < x.dim
    ensures Emitted(x, p, src, pos).rows[r][Selection(x.dim, p, src, pos)[j]]
            == if AllFinite(Modified(x, p, src, pos))
               then Affect(x.rows[r][Selection(x.dim, p, src, pos)[j]], p, NoiseFor(x, p, src, pos)[r][j])
               else x.rows[r][Selection(x.dim, p, src, pos)[j]]
  {
    ModifiedSelected(x, p, src, pos, r, j);
  }

  /** A finite embedding is never replaced by a non-finite one: either the
      modified clone is finite everywhere, or the finite original is kept. */
  lemma FiniteStaysFinite(x: Embedding, p: Params, src: Source, pos: nat)
    requires 0.0 <= p.ratio && AllFinite(x)
    ensures AllFinite(Emitted(x, p, src, pos))
  {
  }

  /** With scale 1, shift 0 and no noise, nothing is changed, whatever the
      ratio. */
  lemma NeutralIdentity(x: Embedding, p: Params, src: Source, pos: nat)
    requires 0.0 <= p.ratio && p.scale == 1.0 && p.shift == 0.0 && p.noise <= 0.0
    ensures Modified(x, p, src, pos) == x && Emitted(x, p, src, pos) == x
  {
  }

  /** With ratio 0 the subset path selects no index, so nothing is changed,
      although a permutation is still drawn. */
  lemma ZeroRatioIdentity(x: Embedding, p: Params, src: Source, pos: nat)
    requires p.ratio == 0.0
    ensures Width(x.dim, p) == 0
    ensures Modified(x, p, src, pos) == x && Emitted(x, p, src, pos) == x
    ensures ItemDraws(x, p)[0] == PermDraw(x.dim)
  {
    ProductIsMultiplication(x.dim, p.ratio);
  }

  // ---------------------------------------------------------------------
  // The generator across a batch
  // ---------------------------------------------------------------------

  /** How many raw words one entry consumes: D for its permutation on the
      subset path, rows * width for its noise block when there is noise. */
  lemma ItemConsumption(x: Embedding, p: Params)
    requires 0.0 <= p.ratio
    ensures Consumed(ItemDraws(x, p))
            == (if p.ratio < 1.0 then x.dim else 0) + (if p.noise > 0.0 then Area(|x.rows|, Width(x.dim, p)) else 0)
  {
    var perm := if p.ratio < 1.0 then [PermDraw(x.dim)] else [];
    var noise := if p.noise > 0.0 then [NoiseDraw(|x.rows|, Width(x.dim, p))] else [];
    ConsumedAppend(perm, noise);
    ConsumedAppend([], perm);
    ConsumedAppend([], noise);
  }

  /** Entry `i + 1` finds the generator exactly past the requests of entry `i`. */
  lemma OffsetStep(xs: seq<Embedding>, p: Params, i: nat)
    requires 0.0 <= p.ratio && i < |xs|
    ensures Offset(xs, p, i + 1) == Offset(xs, p, i) + Consumed(ItemDraws(xs[i], p))
  {
    ConsumedAppend(PlannedDraws(xs, p, i), ItemDraws(xs[i], p));
  }

  /** The generator only moves forward through a batch, so the words of
      distinct entries never overlap. */
  lemma {:induction false} OffsetMonotone(xs: seq<Embedding>, p: Params, i: nat, j: nat)
    requires 0.0 <= p.ratio && i <= j <= |xs|
    ensures Offset(xs, p, i) <= Offset(xs, p, j)
    decreases j - i
  {
    if i < j {
      OffsetStep(xs, p, j - 1);
      OffsetMonotone(xs, p, i, j - 1);
    }
  }

  /** Two batches whose entries have the same shapes, position by position. */
  predicate SameShapes(xs: seq<Embedding>, ys: seq<Embedding>)
  {
    && |xs| == |ys|
    && forall k :: 0 <= k < |xs| ==> xs[k].dim == ys[k].dim && |xs[k].rows| == |ys[k].rows|
  }

  /** The requests depend on the shapes of the entries only: neither their
      values nor whether an entry reverts moves the generator differently. */
  lemma {:induction false} DrawsFollowShapes(xs: seq<Embedding>, ys: seq<Embedding>, p: Params, n: nat)
    requires 0.0 <= p.ratio && SameShapes(xs, ys) && n <= |xs|
    ensures PlannedDraws(xs, p, n) == PlannedDraws(ys, p, n)
  {
    if n != 0 {
      DrawsFollowShapes(xs, ys, p, n - 1);
      assert ItemDraws(xs[n - 1], p) == ItemDraws(ys[n - 1], p);
    }
  }

  /** The requests of the first `n` entries do not depend on the entries
      after them. */
  lemma {:induction false} DrawsIgnoreLater(xs: seq<Embedding>, p: Params, n: nat, m: nat)
    requires 0.0 <= p.ratio && n <= m <= |xs|
    ensures PlannedDraws(xs[..m], p, n) == PlannedDraws(xs, p, n)
  {
    if n != 0 {
      DrawsIgnoreLater(xs, p, n - 1, m);
      assert xs[..m][n - 1] == xs[n - 1];
    }
  }

  /** Sibling entries do not affect one another: entry `k` is emitted the
      same in any batch of the same shapes that holds the same entry `k`,
      whatever the other entries hold and whether they revert. */
  lemma SiblingIndependence(xs: seq<Embedding>, ys: seq<Embedding>, p: Params, src: Source, k: nat)
    requires 0.0 <= p.ratio && SameShapes(xs, ys) && k < |xs| && xs[k] == ys[k]
    ensures Emissions(xs, p, src)[k] == Emissions(ys, p, src)[k]
    ensures Fallbacks(xs, p, src)[k] == Fallbacks(ys, p, src)[k]
  {
    DrawsFollowShapes(xs, ys, p, k);
  }

  /** A batch cut after its first `m` entries emits the same first `m`
      entries. */
  lemma PrefixEmissions(xs: seq<Embedding>, p: Params, src: Source, m: nat)
    requires 0.0 <= p.ratio && m <= |xs|
    ensures Emissions(xs[..m], p, src) == Emissions(xs, p, src)[..m]
  {
    forall k | 0 <= k < m
      ensures Emissions(xs[..m], p, src)[k] == Emissions(xs, p, src)[k]
    {
      DrawsIgnoreLater(xs, p, k, m);
    }
  }

  /** On the full path without noise the generator is never asked for
      anything: every entry finds it where it was created. */
  lemma {:induction false} NoDrawsWithoutSubsetOrNoise(xs: seq<Embedding>, p: Params, n: nat)
    requires 1.0 <= p.ratio && p.noise <= 0.0 && n <= |xs|
    ensures PlannedDraws(xs, p, n) == [] && Offset(xs, p, n) == 0
  {
    if n != 0 {
      NoDrawsWithoutSubsetOrNoise(xs, p, n - 1);
    }
  }

  /** With neutral parameters the batch is emitted as it came in, and the
      entries that fall back are exactly those that were not finite. */
  lemma NeutralBatch(xs: seq<Embedding>, p: Params, src: Source)
    requires 0.0 <= p.ratio && p.scale == 1.0 && p.shift == 0.0 && p.noise <= 0.0
    ensures Emissions(xs, p, src) == xs
    ensures forall k :: 0 <= k < |xs| ==> (Fallbacks(xs, p, src)[k] <==> !AllFinite(xs[k]))
  {
    forall k | 0 <= k < |xs| ensures Emissions(xs, p, src)[k] == xs[k] {
      NeutralIdentity(xs[k], p, src, Offset(xs, p, k));
    }
  }

  /** With a nonzero seed the generator's stream is the seeded one: two
      engines that agree on that seed produce the same batch, whatever
      their default (unseeded) state. */
  lemma SeededRunsAgree(e1: Engine, e2: Engine, seed: nat, xs: seq<Embedding>, p: Params)
    requires 0.0 <= p.ratio && seed != 0
    requires e1.seeded(seed) == e2.seeded(seed) && e1.normal == e2.normal
    ensures Emissions(xs, p, Initial(e1, seed)) == Emissions(xs, p, Initial(e2, seed))
    ensures Fallbacks(xs, p, Initial(e1, seed)) == Fallbacks(xs, p, Initial(e2, seed))
  {
  }

  // ---------------------------------------------------------------------
  // Worked cases
  // ---------------------------------------------------------------------

  /** Doubling every value of a finite row, on the full path. */
  lemma ScaleExample(src: Source, pos: nat)
    ensures Emitted(Embedding(4, [[1.0, 2.0, 3.0, 4.0]]), Params(2.0, 0.0, 0.0, 1.0, 0), src, pos)
            == Embedding(4, [[2.0, 4.0, 6.0, 8.0]])
  {
    var x := Embedding(4, [[1.0, 2.0, 3.0, 4.0]]);
    var p := Params(2.0, 0.0, 0.0, 1.0, 0);
    var y := Embedding(4, [[2.0, 4.0, 6.0, 8.0]]);
    var m := Modified(x, p, src, pos);
    ModifiedShape(x, p, src, pos);
    forall c | 0 <= c < 4 ensures m.rows[0][c] == y.rows[0][c] {
      ModifiedSelected(x, p, src, pos, 0, c);
    }
    Extensional(m, y);
    AllFiniteIff(y);
  }

  /** Doubling the largest finite value overflows (in 32-bit floats as well:
      twice the largest finite value is infinite), so the entry reverts to
      the original. */
  lemma OverflowReverts(src: Source, pos: nat)
    ensures !AllFinite(Modified(Embedding(1, [[MaxFinite]]), Params(2.0, 0.0, 0.0, 1.0, 0), src, pos))
    ensures Emitted(Embedding(1, [[MaxFinite]]), Params(2.0, 0.0, 0.0, 1.0, 0), src, pos) == Embedding(1, [[MaxFinite]])
  {
    var x := Embedding(1, [[MaxFinite]]);
    var p := Params(2.0, 0.0, 0.0, 1.0, 0);
    var m := Modified(x, p, src, pos);
    ModifiedSelected(x, p, src, pos, 0, 0);
    AllFiniteIff(m);
  }

  /** Half of a four-wide embedding: two of its indices are selected. */
  lemma HalfRatioExample(src: Source, pos: nat)
    ensures |Elements(Selection(4, Params(1.5, 0.0, 0.0, 0.5, 7), src, pos))| == 2
  {
    var p := Params(1.5, 0.0, 0.0, 0.5, 7);
    SelectionCount(4, p, src, pos);
    ProductIsMultiplication(4, 0.5);
  }
}
