/** Conditioning embeddings: two-dimensional buffers `[rows, dim]` of values,
    the last axis being the embedding dimension, and the in-place updates the
    perturbation performs on a selection of last-axis indices. */
module Tensors {
  import opened Indices

  /** The values an embedding buffer holds, row by row, with the size of its
      last axis (kept apart from the rows so that it survives an empty batch
      axis). */
  datatype Embedding = Embedding(dim: nat, rows: seq<seq<real>>)

  /** Every row has the full last-axis length. */
  predicate Shaped(t: Embedding)
  {
    forall r :: 0 <= r < |t.rows| ==> |t.rows[r]| == t.dim
  }

  /** The values currently held by a buffer. */
  function ValueOf(a: array2<real>): (t: Embedding)
    reads a
    ensures Shaped(t) && t.dim == a.Length1 && |t.rows| == a.Length0
    ensures forall r, c :: 0 <= r < a.Length0 && 0 <= c < a.Length1 ==> t.rows[r][c] == a[r, c]
  {
    Embedding(a.Length1, seq(a.Length0, r requires 0 <= r < a.Length0 reads a =>
      seq(a.Length1, c requires 0 <= c < a.Length1 reads a => a[r, c])))
  }

  /** Two embeddings of one shape that agree everywhere are equal. */
  lemma Extensional(s: Embedding, t: Embedding)
    requires Shaped(s) && Shaped(t) && s.dim == t.dim && |s.rows| == |t.rows|
    requires forall r, c :: 0 <= r < |s.rows| && 0 <= c < s.dim ==> s.rows[r][c] == t.rows[r][c]
    ensures s == t
  {
    forall r | 0 <= r < |s.rows| ensures s.rows[r] == t.rows[r] {
      assert |s.rows[r]| == |t.rows[r]| == s.dim;
    }
  }

  /** The largest finite magnitude of a 32-bit float, (2 - 2^-23) * 2^127.
      A real value beyond it stands for a result that overflowed to infinity. */
  const MaxFinite: real := 340282346638528859811704183484516925440.0

  /** `torch.isfinite` of one value. */
  predicate Finite(v: real)
  {
    -MaxFinite <= v <= MaxFinite
  }

  /** Every value of a row is finite, checked front to back. */
  predicate RowFinite(row: seq<real>)
  {
    row == [] || (Finite(row[0]) && RowFinite(row[1..]))
  }

  /** Every row is finite, checked front to back. */
  predicate RowsFinite(rows: seq<seq<real>>)
  {
    rows == [] || (RowFinite(rows[0]) && RowsFinite(rows[1..]))
  }

  /** `torch.isfinite(t).all()`. */
  predicate AllFinite(t: Embedding)
  {
    RowsFinite(t.rows)
  }

  lemma {:induction false} RowFiniteIff(row: seq<real>)
    ensures RowFinite(row) <==> forall c :: 0 <= c < |row| ==> Finite(row[c])
  {
    if row != [] {
      RowFiniteIff(row[1..]);
      assert forall c :: 1 <= c < |row| ==> row[c] == row[1..][c - 1];
    }
  }

  /** `torch.isfinite(t).all()` holds exactly when no value of `t` lies
      outside the finite range. */
  lemma {:induction false} AllFiniteIff(t: Embedding)
    ensures AllFinite(t) <==> forall r, c :: 0 <= r < |t.rows| && 0 <= c < |t.rows[r]| ==> Finite(t.rows[r][c])
  {
    RowsFiniteIff(t.rows);
  }

  lemma {:induction false} RowsFiniteIff(rows: seq<seq<real>>)
    ensures RowsFinite(rows) <==> forall r, c :: 0 <= r < |rows| && 0 <= c < |rows[r]| ==> Finite(rows[r][c])
  {
    if rows != [] {
      RowsFiniteIff(rows[1..]);
      RowFiniteIff(rows[0]);
      assert forall r :: 1 <= r < |rows| ==> rows[r] == rows[1..][r - 1];
    }
  }

  /** The three in-place updates applied to the selected region `t[..., sel]`:
      `*= factor`, `+= offset`, and `+= sample * amount` where `sample` has one
      row per batch row and one column per selected index. */
  datatype Op = Scale(factor: real) | Shift(offset: real) | Noise(sample: seq<seq<real>>, amount: real)

  /** The new value of the entry in row `r` whose index is the `j`-th selected
      one. A neutral update (factor 1, offset 0, weight 0) leaves it as it was. */
  function Apply(op: Op, v: real, r: nat, j: nat): (w: real)
    ensures op == Scale(1.0) || op == Shift(0.0) ==> w == v
    ensures op.Noise? && op.amount == 0.0 ==> w == v
  {
    match op
    case Scale(s) => v * s
    case Shift(d) => v + d
    // The sample is drawn with exactly one row per batch row and one column
    // per selected index, so every call made by the model is in range; the
    // fallback to `v` outside it is never reached (the original would fail
    // on a shape mismatch instead).
    case Noise(n, a) => if r < |n| && j < |n[r]| then v + n[r][j] * a else v
  }

  /** Column `col` of every row updated by `op`, `j` being that column's
      place in the selection. */
  function UpdateColumn(t: Embedding, col: nat, j: nat, op: Op): (u: Embedding)
    ensures u.dim == t.dim && |u.rows| == |t.rows|
    ensures Shaped(t) ==> Shaped(u)
  {
    Embedding(t.dim, seq(|t.rows|, r requires 0 <= r < |t.rows| =>
      if col < |t.rows[r]| then t.rows[r][col := Apply(op, t.rows[r][col], r, j)] else t.rows[r]))
  }

  /** `t[..., sel] op= ...`, as a value: the selected columns updated one
      after another. */
  function MapAt(t: Embedding, sel: seq<nat>, op: Op): (u: Embedding)
    ensures u.dim == t.dim && |u.rows| == |t.rows|
    ensures Shaped(t) ==> Shaped(u)
  {
    if sel == [] then t
    else
      var n := |sel| - 1;
      UpdateColumn(MapAt(t, sel[..n], op), sel[n], n, op)
  }

  /** Outside the selection, `t[..., sel] op= ...` changes nothing. */
  lemma {:induction false} MapAtUntouched(t: Embedding, sel: seq<nat>, op: Op, r: nat, c: nat)
    requires Shaped(t) && r < |t.rows| && c < t.dim && c !in sel
    ensures MapAt(t, sel, op).rows[r][c] == t.rows[r][c]
  {
    if sel != [] {
      var n := |sel| - 1;
      assert c !in sel[..n];
      MapAtUntouched(t, sel[..n], op, r, c);
    }
  }

  /** At the `j`-th selected index, `t[..., sel] op= ...` applies `op` once,
      with the `j`-th column of its operand, when the selection has no
      repetitions. */
  lemma {:induction false} MapAtSelected(t: Embedding, sel: seq<nat>, op: Op, r: nat, j: nat)
    requires Shaped(t) && Distinct(sel) && r < |t.rows| && j < |sel| && sel[j] < t.dim
    ensures MapAt(t, sel, op).rows[r][sel[j]] == Apply(op, t.rows[r][sel[j]], r, j)
  {
    var n := |sel| - 1;
    var init := sel[..n];
    assert Distinct(init);
    if j == n {
      assert sel[n] !in init;
      MapAtUntouched(t, init, op, r, sel[n]);
    } else {
      assert init[j] == sel[j] != sel[n];
      MapAtSelected(t, init, op, r, j);
    }
  }

  /** `clone()`: a new buffer holding the same values. */
  method Clone(a: array2<real>) returns (b: array2<real>)
    ensures fresh(b)
    ensures ValueOf(b) == ValueOf(a)
  {
    b := new real[a.Length0, a.Length1]((r, c) requires 0 <= r < a.Length0 && 0 <= c < a.Length1 reads a => a[r, c]);
    Extensional(ValueOf(b), ValueOf(a));
  }

  /** Column `col` of every row of `m` updated in place by `op`. */
  method ApplyColumn(m: array2<real>, col: nat, j: nat, op: Op)
    requires col < m.Length1
    modifies m
    ensures ValueOf(m) == UpdateColumn(old(ValueOf(m)), col, j, op)
  {
    ghost var prev := ValueOf(m);
    var r := 0;
    while r < m.Length0
      invariant 0 <= r <= m.Length0
      invariant forall i, c :: 0 <= i < m.Length0 && 0 <= c < m.Length1 ==>
                  m[i, c] == if c == col && i < r then Apply(op, prev.rows[i][c], i, j) else prev.rows[i][c]
    {
      m[r, col] := Apply(op, m[r, col], r, j);
      r := r + 1;
    }
    Extensional(ValueOf(m), UpdateColumn(prev, col, j, op));
  }

  /** `m[..., sel] op= ...` in place: each selected column of each row is
      updated once, and nothing else is written. */
  method ApplyAt(m: array2<real>, sel: seq<nat>, op: Op)
    requires Distinct(sel) && Below(sel, m.Length1)
    modifies m
    ensures ValueOf(m) == MapAt(old(ValueOf(m)), sel, op)
  {
    ghost var before := ValueOf(m);
    var j := 0;
    while j < |sel|
      invariant 0 <= j <= |sel|
      invariant ValueOf(m) == MapAt(before, sel[..j], op)
    {
      ApplyColumn(m, sel[j], j, op);
      assert sel[..j + 1][..j] == sel[..j];
      j := j + 1;
    }
    assert sel[..j] == sel;
  }
}
