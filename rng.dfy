/** The random-number generator the perturbation draws from (a torch.Generator).
    The engine itself (its bit generator, its default state, its Gaussian
    sampler) is not modelled: it enters as a parameter, and every draw is a
    fixed function of the generator's current seeding and of how far into its
    stream the generator has advanced. */
module Rng {
  import opened Indices

  /** What the engine contributes, taken as given: the raw words a generator
      produces after being seeded with a given seed, the words of a generator
      that was never seeded, and how one raw word becomes a standard normal
      sample. */
  datatype Engine = Engine(seeded: nat -> (nat -> nat), unseeded: nat -> nat, normal: nat -> real)

  /** The stream a generator hands out under its current seeding. */
  datatype Source = Source(words: nat -> nat, normal: nat -> real)

  /** One request made of a generator: a permutation of [0, n), or a
      rows-by-cols block of standard normal samples. */
  datatype Draw = PermDraw(n: nat) | NoiseDraw(rows: nat, cols: nat)

  /** The number of entries of a rows-by-cols block, counted row by row
      (kept free of multiplication, which the solver handles poorly). */
  function Area(rows: nat, cols: nat): nat
  {
    if rows == 0 then 0 else Area(rows - 1, cols) + cols
  }

  /** How many raw words one request consumes. */
  function Size(d: Draw): nat
  {
    match d
    case PermDraw(n) => n
    case NoiseDraw(rows, cols) => Area(rows, cols)
  }

  /** How many raw words a sequence of requests consumes. */
  function Consumed(ds: seq<Draw>): nat
  {
    if ds == [] then 0 else Consumed(ds[..|ds| - 1]) + Size(ds[|ds| - 1])
  }

  lemma {:induction false} ConsumedAppend(a: seq<Draw>, b: seq<Draw>)
    ensures Consumed(a + b) == Consumed(a) + Consumed(b)
    decreases |b|
  {
    if b == [] {
      assert a + b == a;
    } else {
      var n := |b| - 1;
      assert (a + b)[..|a + b| - 1] == a + b[..n];
      assert (a + b)[|a + b| - 1] == b[n];
      ConsumedAppend(a, b[..n]);
    }
  }

  /** Inserting a new largest index anywhere into a permutation of [0, n)
      gives a permutation of [0, n + 1). */
  lemma InsertLargest(q: seq<nat>, j: nat, n: nat)
    requires IsPermutation(q, n) && j <= n
    ensures IsPermutation(q[..j] + [n] + q[j..], n + 1)
  {
    var s := q[..j] + [n] + q[j..];
    assert forall i :: 0 <= i < j ==> s[i] == q[i];
    assert s[j] == n;
    assert forall i :: j < i <= n ==> s[i] == q[i - 1];
  }

  /** The permutation of [0, n) drawn from the words at positions
      pos, ..., pos + n - 1 (an inside-out shuffle: the word at pos + i
      chooses where index i is inserted). */
  function Permutation(words: nat -> nat, pos: nat, n: nat): (perm: seq<nat>)
    ensures |perm| == n
  {
    if n == 0 then []
    else
      var q := Permutation(words, pos, n - 1);
      var j := words(pos + n - 1) % n;
      q[..j] + [n - 1] + q[j..]
  }

  /** Whatever the words, the draw is a permutation of [0, n). */
  lemma {:induction false} PermutationValid(words: nat -> nat, pos: nat, n: nat)
    ensures IsPermutation(Permutation(words, pos, n), n)
  {
    if n != 0 {
      PermutationValid(words, pos, n - 1);
      InsertLargest(Permutation(words, pos, n - 1), words(pos + n - 1) % n, n - 1);
    }
  }

  /** The rows-by-cols block of standard normal samples drawn from the words
      starting at position pos, filled row by row. */
  function NoiseSample(src: Source, pos: nat, rows: nat, cols: nat): (noise: seq<seq<real>>)
    ensures |noise| == rows
    ensures forall r :: 0 <= r < rows ==> |noise[r]| == cols
  {
    seq(rows, r requires 0 <= r < rows =>
      seq(cols, c requires 0 <= c < cols => src.normal(src.words(pos + Area(r, cols) + c))))
  }

  /** A generator: its engine, its current seeding, how many raw words it has
      handed out, and (for the proofs) the requests it has served, in order. */
  class Generator {
    const engine: Engine
    var source: Source
    var pos: nat
    ghost var draws: seq<Draw>

    /** `torch.Generator()`: a fresh generator in the engine's default state. */
    constructor (e: Engine)
      ensures engine == e
      ensures source == Source(e.unseeded, e.normal) && pos == 0 && draws == []
    {
      engine := e;
      source := Source(e.unseeded, e.normal);
      pos := 0;
      draws := [];
    }

    /** `manual_seed(seed)`: restart the stream from the given seed. */
    method ManualSeed(seed: nat)
      modifies this
      ensures source == Source(engine.seeded(seed), engine.normal) && pos == 0
      ensures draws == old(draws)
    {
      source := Source(engine.seeded(seed), engine.normal);
      pos := 0;
    }

    /** `torch.randperm(n, generator=this)`. */
    method RandPerm(n: nat) returns (perm: seq<nat>)
      modifies this
      ensures IsPermutation(perm, n)
      ensures perm == Permutation(old(source).words, old(pos), n)
      ensures source == old(source) && pos == old(pos) + Size(PermDraw(n))
      ensures draws == old(draws) + [PermDraw(n)]
    {
      perm := Permutation(source.words, pos, n);
      PermutationValid(source.words, pos, n);
      pos := pos + n;
      draws := draws + [PermDraw(n)];
    }

    /** `torch.randn((rows, cols), generator=this)`. */
    method RandN(rows: nat, cols: nat) returns (noise: seq<seq<real>>)
      modifies this
      ensures |noise| == rows && forall r :: 0 <= r < rows ==> |noise[r]| == cols
      ensures noise == NoiseSample(old(source), old(pos), rows, cols)
      ensures source == old(source) && pos == old(pos) + Size(NoiseDraw(rows, cols))
      ensures draws == old(draws) + [NoiseDraw(rows, cols)]
    {
      noise := NoiseSample(source, pos, rows, cols);
      pos := pos + Area(rows, cols);
      draws := draws + [NoiseDraw(rows, cols)];
    }
  }
}
