/** The Tenos chaotic conditioning discombobulator: for each (embedding,
    metadata) entry of a conditioning list, clone the embedding, pick a subset
    of its last-axis indices, scale, shift and add noise there, and emit the
    clone, or the untouched original when the clone holds a non-finite value. */
module Discombobulator {
  import opened Indices
  import opened Rng
  import opened Tensors

  /** The node's five parameters: scale_factor, shift_value, noise_amount,
      affected_dimension_ratio and seed. */
  datatype Params = Params(scale: real, shift: real, noise: real, ratio: real, seed: nat)

  /** One conditioning entry: the embedding buffer and its metadata. */
  datatype Item<M> = Item(embedding: array2<real>, meta: M)

  /** `dim * ratio`, added up one unit of `dim` at a time (kept free of
      multiplication, which the solver handles poorly). */
  function Product(dim: nat, ratio: real): (v: real)
    ensures 0.0 <= ratio ==> 0.0 <= v
    ensures 0.0 <= ratio <= 1.0 ==> v <= dim as real
  {
    if dim == 0 then 0.0 else Product(dim - 1, ratio) + ratio
  }

  /** Product is the real product of its arguments. */
  lemma {:induction false} ProductIsMultiplication(dim: nat, ratio: real)
    ensures Product(dim, ratio) == dim as real * ratio
  {
    if dim != 0 {
      ProductIsMultiplication(dim - 1, ratio);
      assert dim as real * ratio == (dim - 1) as real * ratio + ratio;
    }
  }

  /** `int(dim * ratio)`: the number of indices the subset path selects. */
  function DimsToAffect(dim: nat, ratio: real): (k: nat)
    requires 0.0 <= ratio
    ensures k as real <= Product(dim, ratio) < k as real + 1.0
    ensures ratio <= 1.0 ==> k <= dim
  {
    Product(dim, ratio).Floor
  }

  /** How many last-axis indices are selected: `dims_to_affect` when
      `ratio < 1.0`, and the whole axis otherwise. */
  function Width(dim: nat, p: Params): (w: nat)
    requires 0.0 <= p.ratio
    ensures w <= dim
    ensures p.ratio >= 1.0 ==> w == dim
  {
    if p.ratio < 1.0 then DimsToAffect(dim, p.ratio) else dim
  }

  /** The selected last-axis indices of an embedding of last-axis size `dim`,
      when the generator stands at position `pos`: the first
      `dims_to_affect` entries of a fresh permutation of [0, dim) when
      `ratio < 1.0`, and every index otherwise. */
  function Selection(dim: nat, p: Params, src: Source, pos: nat): (sel: seq<nat>)
    requires 0.0 <= p.ratio
    ensures |sel| == Width(dim, p)
    ensures p.ratio >= 1.0 ==> forall c :: 0 <= c < dim ==> sel[c] == c
  {
    if p.ratio < 1.0 then Permutation(src.words, pos, dim)[..DimsToAffect(dim, p.ratio)]
    else Range(dim)
  }

  /** The selection names distinct indices of the last axis. */
  lemma SelectionValid(dim: nat, p: Params, src: Source, pos: nat)
    requires 0.0 <= p.ratio
    ensures Distinct(Selection(dim, p, src, pos)) && Below(Selection(dim, p, src, pos), dim)
  {
    if p.ratio < 1.0 {
      PermutationValid(src.words, pos, dim);
    } else {
      RangeIsPermutation(dim);
    }
  }

  /** The requests one entry makes of the generator, in order: a permutation
      of its last axis when `ratio < 1.0`, then one noise block of shape
      `[rows, width]` when `noise_amount > 0.0`. */
  function ItemDraws(x: Embedding, p: Params): (ds: seq<Draw>)
    requires 0.0 <= p.ratio
    ensures |ds| == (if p.ratio < 1.0 then 1 else 0) + (if p.noise > 0.0 then 1 else 0)
    ensures p.ratio < 1.0 ==> ds[0] == PermDraw(x.dim)
    ensures p.noise > 0.0 ==> ds[|ds| - 1] == NoiseDraw(|x.rows|, Width(x.dim, p))
  {
    (if p.ratio < 1.0 then [PermDraw(x.dim)] else [])
    + (if p.noise > 0.0 then [NoiseDraw(|x.rows|, Width(x.dim, p))] else [])
  }

  /** The unscaled `randn` block an entry draws,
      taken after its permutation draw, if any. */
  function NoiseFor(x: Embedding, p: Params, src: Source, pos: nat): (noise: seq<seq<real>>)
    requires 0.0 <= p.ratio
    ensures |noise| == |x.rows|
    ensures forall r :: 0 <= r < |x.rows| ==> |noise[r]| == Width(x.dim, p)
  {
    var at := if p.ratio < 1.0 then pos + Size(PermDraw(x.dim)) else pos;
    NoiseSample(src, at, |x.rows|, Width(x.dim, p))
  }

  /** Multiplies the selected columns by `scale`, unless it is 1. */
  function ScaleStep(t: Embedding, sel: seq<nat>, p: Params): (u: Embedding)
    ensures u.dim == t.dim && |u.rows| == |t.rows|
    ensures Shaped(t) ==> Shaped(u)
  {
    if p.scale != 1.0 then MapAt(t, sel, Scale(p.scale)) else t
  }

  /** Adds `shift` to the selected columns, unless it is 0. */
  function ShiftStep(t: Embedding, sel: seq<nat>, p: Params): (u: Embedding)
    ensures u.dim == t.dim && |u.rows| == |t.rows|
    ensures Shaped(t) ==> Shaped(u)
  {
    if p.shift != 0.0 then MapAt(t, sel, Shift(p.shift)) else t
  }

  /** Adds the drawn `noise` block, weighted by `noise`, to the selected
      columns, only when that weight is positive. */
  function NoiseStep(t: Embedding, sel: seq<nat>, p: Params, noise: seq<seq<real>>): (u: Embedding)
    ensures u.dim == t.dim && |u.rows| == |t.rows|
    ensures Shaped(t) ==> Shaped(u)
  {
    if p.noise > 0.0 then MapAt(t, sel, Noise(noise, p.noise)) else t
  }

  /** The clone after the three in-place updates, each skipped when its
      parameter is neutral: scale, then shift, then noise. */
  function Modified(x: Embedding, p: Params, src: Source, pos: nat): (y: Embedding)
    requires 0.0 <= p.ratio
    ensures y.dim == x.dim && |y.rows| == |x.rows|
  {
    var sel := Selection(x.dim, p, src, pos);
    NoiseStep(ShiftStep(ScaleStep(x, sel, p), sel, p), sel, p, NoiseFor(x, p, src, pos))
  }

  /** The embedding emitted for one entry: the modified clone when all its
      values are finite, the original otherwise. */
  function Emitted(x: Embedding, p: Params, src: Source, pos: nat): (y: Embedding)
    requires 0.0 <= p.ratio
    ensures AllFinite(y) || y == x
    ensures y.dim == x.dim && |y.rows| == |x.rows|
  {
    var m := Modified(x, p, src, pos);
    if AllFinite(m) then m else x
  }

  /** What one selected value becomes: `((v * scale) + shift) + n * noise_amount`,
      each step skipped when its parameter is neutral. */
  function Affect(v: real, p: Params, n: real): real
  {
    var scaled := if p.scale != 1.0 then v * p.scale else v;
    var shifted := if p.shift != 0.0 then scaled + p.shift else scaled;
    if p.noise > 0.0 then shifted + n * p.noise else shifted
  }

  /** The requests the first `n` entries of a batch make, entry after entry. */
  function PlannedDraws(xs: seq<Embedding>, p: Params, n: nat): (ds: seq<Draw>)
    requires 0.0 <= p.ratio && n <= |xs|
    ensures |ds| == (if p.ratio < 1.0 then n else 0) + (if p.noise > 0.0 then n else 0)
  {
    if n == 0 then [] else PlannedDraws(xs, p, n - 1) + ItemDraws(xs[n - 1], p)
  }

  /** Where the generator stands, relative to the start of the batch, when
      entry `i` starts: past every request of the entries before it. */
  function Offset(xs: seq<Embedding>, p: Params, i: nat): (o: nat)
    requires 0.0 <= p.ratio && i <= |xs|
    ensures 1.0 <= p.ratio && p.noise <= 0.0 ==> o == 0
  {
    Consumed(PlannedDraws(xs, p, i))
  }

  /** The embedding emitted for each entry of a batch, entry `k` finding the
      generator at `Offset(xs, p, k)`. */
  function Emissions(xs: seq<Embedding>, p: Params, src: Source): (ys: seq<Embedding>)
    requires 0.0 <= p.ratio
    ensures |ys| == |xs|
  {
    seq(|xs|, k requires 0 <= k < |xs| => Emitted(xs[k], p, src, Offset(xs, p, k)))
  }

  /** Which entries of a batch fall back to their original, the generator
      being threaded through the batch as in Emissions. */
  function Fallbacks(xs: seq<Embedding>, p: Params, src: Source): (rs: seq<bool>)
    requires 0.0 <= p.ratio
    ensures |rs| == |xs|
  {
    seq(|xs|, k requires 0 <= k < |xs| => !AllFinite(Modified(xs[k], p, src, Offset(xs, p, k))))
  }

  /** The stream of the generator created for a call: seeded with `seed` when
      it is not 0, left in its default state otherwise. */
  function Initial(e: Engine, seed: nat): (s: Source)
    ensures s.normal == e.normal
  {
    if seed != 0 then Source(e.seeded(seed), e.normal) else Source(e.unseeded, e.normal)
  }

  /** The values of every embedding of a list of entries. */
  function Values<M>(items: seq<Item<M>>): (xs: seq<Embedding>)
    reads set i | 0 <= i < |items| :: items[i].embedding
    ensures |xs| == |items|
    ensures forall i :: 0 <= i < |items| ==> xs[i] == ValueOf(items[i].embedding)
  {
    seq(|items|, i requires 0 <= i < |items| reads set j | 0 <= j < |items| :: items[j].embedding =>
      ValueOf(items[i].embedding))
  }

  /** The generator for one call: created in its default state, and seeded
      only when the seed is not 0. */
  method NewGenerator(engine: Engine, seed: nat) returns (rng: Generator)
    ensures fresh(rng)
    ensures rng.engine == engine && rng.source == Initial(engine, seed)
    ensures rng.pos == 0 && rng.draws == []
  {
    rng := new Generator(engine);
    if seed != 0 {
      rng.ManualSeed(seed);
    }
  }

  /** Selecting the dimensions to affect: on the subset path, the first
      `dims_to_affect` entries of a permutation drawn from the generator; on
      the full path, every index and no draw. */
  method SelectDims(dim: nat, p: Params, rng: Generator) returns (dimIndices: seq<nat>)
    requires 0.0 <= p.ratio
    modifies rng
    ensures dimIndices == Selection(dim, p, old(rng.source), old(rng.pos))
    ensures Distinct(dimIndices) && Below(dimIndices, dim)
    ensures rng.source == old(rng.source)
    ensures rng.pos == if p.ratio < 1.0 then old(rng.pos) + Size(PermDraw(dim)) else old(rng.pos)
    ensures rng.draws == old(rng.draws) + if p.ratio < 1.0 then [PermDraw(dim)] else []
  {
    SelectionValid(dim, p, rng.source, rng.pos);
    var dimsToAffect := DimsToAffect(dim, p.ratio);
    if p.ratio < 1.0 {
      var perm := rng.RandPerm(dim);
      dimIndices := perm[..dimsToAffect];
    } else {
      dimIndices := Range(dim);
    }
  }

  /** The three in-place updates of the selected region, in their fixed
      order; the noise block, when one is needed, is drawn from the generator. */
  method PerturbSelected(m: array2<real>, dimIndices: seq<nat>, p: Params, rng: Generator)
    requires Distinct(dimIndices) && Below(dimIndices, m.Length1)
    modifies m, rng
    ensures ValueOf(m) == NoiseStep(ShiftStep(ScaleStep(old(ValueOf(m)), dimIndices, p), dimIndices, p),
                                    dimIndices, p,
                                    NoiseSample(old(rng.source), old(rng.pos), m.Length0, |dimIndices|))
    ensures rng.source == old(rng.source)
    ensures rng.pos == if p.noise > 0.0 then old(rng.pos) + Size(NoiseDraw(m.Length0, |dimIndices|)) else old(rng.pos)
    ensures rng.draws == old(rng.draws) + if p.noise > 0.0 then [NoiseDraw(m.Length0, |dimIndices|)] else []
  {
    ghost var before := ValueOf(m);
    if p.scale != 1.0 {
      ApplyAt(m, dimIndices, Scale(p.scale));
    }
    ghost var scaled := ScaleStep(before, dimIndices, p);
    assert ValueOf(m) == scaled;
    if p.shift != 0.0 {
      ApplyAt(m, dimIndices, Shift(p.shift));
    }
    assert ValueOf(m) == ShiftStep(scaled, dimIndices, p);
    if p.noise > 0.0 {
      var noise := rng.RandN(m.Length0, |dimIndices|);
      ApplyAt(m, dimIndices, Noise(noise, p.noise));
    }
  }

  /** The body of the loop over entries: clone, select, scale, shift, add
      noise, then keep the clone or fall back to the original. */
  method ModifyItem(x: array2<real>, p: Params, rng: Generator) returns (y: array2<real>)
    requires 0.0 <= p.ratio
    modifies rng
    ensures rng.source == old(rng.source)
    ensures rng.draws == old(rng.draws) + ItemDraws(ValueOf(x), p)
    ensures rng.pos == old(rng.pos) + Consumed(ItemDraws(ValueOf(x), p))
    ensures ValueOf(y) == Emitted(ValueOf(x), p, rng.source, old(rng.pos))
    ensures y == x <==> !AllFinite(Modified(ValueOf(x), p, rng.source, old(rng.pos)))
    ensures y != x ==> fresh(y)
    ensures y.Length0 == x.Length0 && y.Length1 == x.Length1
    ensures ValueOf(x) == old(ValueOf(x))
  {
    ghost var x0 := ValueOf(x);
    ghost var pos0 := rng.pos;
    var m := Clone(x);
    var dimIndices := SelectDims(m.Length1, p, rng);
    PerturbSelected(m, dimIndices, p, rng);
    assert ValueOf(m) == Modified(x0, p, rng.source, pos0);
    assert Consumed(ItemDraws(x0, p)) == rng.pos - pos0 by {
      ConsumedAppend([], ItemDraws(x0, p));
    }
    if AllFinite(ValueOf(m)) {
      y := m;
    } else {
      y := x;
    }
  }

  /** A prefix of `s` followed by the next element of `s` is the next prefix. */
  lemma PrefixExtend<T>(s: seq<T>, i: nat, prefix: seq<T>, v: T)
    requires i < |s| && prefix == s[..i] && v == s[i]
    ensures prefix + [v] == s[..i + 1]
  {
    assert s[..i + 1] == s[..i] + [s[i]];
  }

  /** The entries collected so far: entry `k` keeps the metadata of input
      entry `k`, holds the values `ys[k]`, and is the input's own buffer
      exactly when `rs[k]`. */
  ghost predicate Collected<M>(conditioning: seq<Item<M>>, modified: seq<Item<M>>, ys: seq<Embedding>, rs: seq<bool>)
    requires |modified| == |ys| == |rs| <= |conditioning|
    reads set j | 0 <= j < |modified| :: modified[j].embedding
    decreases |modified|
  {
    modified == [] ||
    (var k := |modified| - 1;
     && Collected(conditioning, modified[..k], ys[..k], rs[..k])
     && modified[k].meta == conditioning[k].meta
     && ValueOf(modified[k].embedding) == ys[k]
     && (modified[k].embedding == conditioning[k].embedding <==> rs[k]))
  }

  /** Entry by entry reading of Collected. */
  lemma {:induction false} CollectedAt<M>(conditioning: seq<Item<M>>, modified: seq<Item<M>>, ys: seq<Embedding>, rs: seq<bool>)
    requires |modified| == |ys| == |rs| <= |conditioning|
    requires Collected(conditioning, modified, ys, rs)
    ensures forall k :: 0 <= k < |modified| ==>
              && modified[k].meta == conditioning[k].meta
              && ValueOf(modified[k].embedding) == ys[k]
              && (modified[k].embedding == conditioning[k].embedding <==> rs[k])
  {
    if modified != [] {
      var n := |modified| - 1;
      CollectedAt(conditioning, modified[..n], ys[..n], rs[..n]);
      assert forall k :: 0 <= k < n ==> modified[k] == modified[..n][k] && ys[k] == ys[..n][k] && rs[k] == rs[..n][k];
    }
  }

  /** One pass of the loop over entries: entry `i` is modified with the
      shared generator and appended to the output list. */
  method AppendModified<M>(conditioning: seq<Item<M>>, p: Params, rng: Generator, modified: seq<Item<M>>, i: nat,
                           ghost xs: seq<Embedding>, ghost src: Source, ghost ys: seq<Embedding>, ghost rs: seq<bool>)
    returns (modified': seq<Item<M>>, ghost ys': seq<Embedding>, ghost rs': seq<bool>)
    requires 0.0 <= p.ratio
    requires i < |conditioning| == |xs| && |modified| == |ys| == |rs| == i
    requires rng.source == src && rng.draws == PlannedDraws(xs, p, i) && rng.pos == Consumed(rng.draws)
    requires ValueOf(conditioning[i].embedding) == xs[i]
    requires Collected(conditioning, modified, ys, rs)
    requires ys == Emissions(xs, p, src)[..i] && rs == Fallbacks(xs, p, src)[..i]
    modifies rng
    ensures |modified'| == |ys'| == |rs'| == i + 1
    ensures rng.source == src && rng.draws == PlannedDraws(xs, p, i + 1) && rng.pos == Consumed(rng.draws)
    ensures Collected(conditioning, modified', ys', rs')
    ensures ys' == Emissions(xs, p, src)[..i + 1] && rs' == Fallbacks(xs, p, src)[..i + 1]
  {
    ghost var before := rng.draws;
    ghost var at := rng.pos;
    assert at == Offset(xs, p, i);
    var y := ModifyItem(conditioning[i].embedding, p, rng);
    assert ValueOf(y) == Emitted(xs[i], p, src, at);
    assert y == conditioning[i].embedding <==> !AllFinite(Modified(xs[i], p, src, at));
    ConsumedAppend(before, ItemDraws(xs[i], p));
    assert unchanged(set j | 0 <= j < i :: modified[j].embedding);
    assert Collected(conditioning, modified, ys, rs);
    PrefixExtend(Emissions(xs, p, src), i, ys, ValueOf(y));
    PrefixExtend(Fallbacks(xs, p, src), i, rs, y == conditioning[i].embedding);
    ys' := ys + [ValueOf(y)];
    rs' := rs + [y == conditioning[i].embedding];
    modified' := modified + [Item(y, conditioning[i].meta)];
    assert ys'[..i] == ys && rs'[..i] == rs && modified'[..i] == modified;
  }

  /** `modify_conditioning`: one generator for the whole call, seeded only
      when `seed != 0`, then every entry in order, entry `i` finding the
      generator past the requests of the entries before it. */
  method ModifyConditioning<M>(conditioning: seq<Item<M>>, p: Params, engine: Engine)
    returns (modified: seq<Item<M>>, ghost draws: seq<Draw>)
    requires 0.0 <= p.ratio
    ensures |modified| == |conditioning|
    ensures forall i :: 0 <= i < |modified| ==> modified[i].meta == conditioning[i].meta
    ensures forall i :: 0 <= i < |modified| ==>
              ValueOf(modified[i].embedding)
              == Emitted(old(Values(conditioning))[i], p, Initial(engine, p.seed), Offset(old(Values(conditioning)), p, i))
    ensures forall i :: 0 <= i < |modified| ==>
              (modified[i].embedding == conditioning[i].embedding
               <==> !AllFinite(Modified(old(Values(conditioning))[i], p, Initial(engine, p.seed),
                                        Offset(old(Values(conditioning)), p, i))))
    ensures draws == PlannedDraws(old(Values(conditioning)), p, |conditioning|)
    ensures Values(conditioning) == old(Values(conditioning))
  {
    ghost var xs := Values(conditioning);
    var rng := NewGenerator(engine, p.seed);
    ghost var src := rng.source;
    ghost var ys: seq<Embedding> := [];
    ghost var rs: seq<bool> := [];

    modified := [];
    var i := 0;
    while i < |conditioning|
      invariant 0 <= i <= |conditioning| && |modified| == |ys| == |rs| == i
      invariant rng.source == src && rng.draws == PlannedDraws(xs, p, i) && rng.pos == Consumed(rng.draws)
      invariant Collected(conditioning, modified, ys, rs)
      invariant ys == Emissions(xs, p, src)[..i] && rs == Fallbacks(xs, p, src)[..i]
    {
      modified, ys, rs := AppendModified(conditioning, p, rng, modified, i, xs, src, ys, rs);
      i := i + 1;
    }
    assert Values(conditioning) == xs;
    CollectedAt(conditioning, modified, ys, rs);
    assert ys == Emissions(xs, p, src) && rs == Fallbacks(xs, p, src);
    draws := rng.draws;
  }
}
