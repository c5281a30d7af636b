/** Dense tensors stored as a flat row-major buffer, with the two torch
    operations the calibrator applies to a sample: `tile` (periodic
    repetition along every axis) and `narrow` (keep a leading range of one
    axis). */
module Tensors {

  /** The extent of every axis, outermost first. */
  type Shape = seq<nat>

  /** Number of elements of a tensor of shape `s`. */
  function Prod(s: Shape): nat
  {
    if |s| == 0 then 1 else s[0] * Prod(s[1..])
  }

  predicate Positive(s: Shape)
  {
    forall d :: 0 <= d < |s| ==> s[d] > 0
  }

  /** A tensor: its shape and its elements in row-major (C) order. */
  datatype Tensor<T> = Tensor(shape: Shape, data: seq<T>)
  {
    predicate Wf()
    {
      |data| == Prod(shape)
    }
  }

  /** `i` is a multi-index into a tensor of shape `s`. */
  predicate InBounds(s: Shape, i: seq<nat>)
  {
    |i| == |s| && forall d :: 0 <= d < |s| ==> i[d] < s[d]
  }

  lemma RowFits(k: nat, n: nat, w: nat)
    requires k < n
    ensures k * w + w <= n * w
  {
    assert k * w + w == (k + 1) * w;
  }

  /** Row `k` of a flat buffer cut into rows of width `w`. */
  function Row<T>(x: seq<T>, w: nat, k: nat): (r: seq<T>)
    requires k * w + w <= |x|
    ensures |r| == w
  {
    x[k * w .. k * w + w]
  }

  /** The sub-tensor `t[k]` along the outermost axis. */
  function Slice<T>(t: Tensor<T>, k: nat): (r: Tensor<T>)
    requires t.Wf() && |t.shape| > 0 && k < t.shape[0]
    ensures r.Wf() && r.shape == t.shape[1..]
  {
    RowFits(k, t.shape[0], Prod(t.shape[1..]));
    Tensor(t.shape[1..], Row(t.data, Prod(t.shape[1..]), k))
  }

  /** The element at multi-index `i`: index the outermost axis, then recurse. */
  function At<T>(t: Tensor<T>, i: seq<nat>): T
    requires t.Wf() && InBounds(t.shape, i)
    decreases |i|
  {
    if |i| == 0 then t.data[0]
    else At(Slice(t, i[0]), i[1..])
  }

  /** The row-major offset of multi-index `i` in a buffer of shape `s`. */
  function Offset(s: Shape, i: seq<nat>): (r: nat)
    requires InBounds(s, i)
    ensures r < Prod(s)
  {
    if |s| == 0 then 0
    else
      RowFits(i[0], s[0], Prod(s[1..]));
      i[0] * Prod(s[1..]) + Offset(s[1..], i[1..])
  }

  /** `At` reads the flat buffer at the row-major offset of the index. */
  lemma {:induction false} AtOffset<T>(t: Tensor<T>, i: seq<nat>)
    requires t.Wf() && InBounds(t.shape, i)
    ensures At(t, i) == t.data[Offset(t.shape, i)]
    decreases |i|
  {
    if |i| > 0 {
      var w := Prod(t.shape[1..]);
      var j := Offset(t.shape[1..], i[1..]);
      RowFits(i[0], t.shape[0], w);
      assert Offset(t.shape, i) == i[0] * w + j;
      AtOffset(Slice(t, i[0]), i[1..]);
      assert At(t, i) == Slice(t, i[0]).data[j];
      assert Slice(t, i[0]).data[j] == t.data[i[0] * w + j];
    }
  }

  // ---------------------------------------------------------------------
  // Rows of concatenated buffers

  lemma RowInPrefix<T>(a: seq<T>, b: seq<T>, w: nat, k: nat)
    requires k * w + w <= |a|
    ensures Row(a + b, w, k) == Row(a, w, k)
  {
  }

  lemma RowAfterPrefix<T>(a: seq<T>, b: seq<T>, w: nat, m: nat, k: nat)
    requires |a| == m * w && m <= k && k * w + w <= |a| + |b|
    ensures (k - m) * w + w <= |b|
    ensures Row(a + b, w, k) == Row(b, w, k - m)
  {
    assert k * w == m * w + (k - m) * w;
  }

  /** Rows of a buffer made of one row `head` followed by `n` more rows:
      row 0 is `head`, row `j + 1` is row `j` of the rest. */
  lemma RowOfCons<T>(head: seq<T>, rest: seq<T>, w: nat, n: nat, j: nat)
    requires |head| == w && |rest| == n * w && j <= n
    ensures j * w + w <= |head + rest|
    ensures j == 0 ==> Row(head + rest, w, j) == head
    ensures j > 0 ==> (j - 1) * w + w <= |rest| && Row(head + rest, w, j) == Row(rest, w, j - 1)
  {
    RowFits(j, n + 1, w);
    MulSucc(n, w);
    if j == 0 {
      RowInPrefix(head, rest, w, 0);
    } else {
      RowAfterPrefix(head, rest, w, 1, j);
    }
  }

  lemma RowOfPrefix<T>(x: seq<T>, n: nat, w: nat, k: nat)
    requires k * w + w <= n <= |x|
    ensures Row(x[..n], w, k) == Row(x, w, k)
  {
  }

  /** A suffix of a buffer of rows starts with its first row. */
  lemma SuffixFromRow<T>(x: seq<T>, w: nat, k: nat)
    requires k * w + w <= |x|
    ensures x[k * w..] == Row(x, w, k) + x[k * w + w..]
  {
  }

  // ---------------------------------------------------------------------
  // tile

  /** `y` repeated `n` times end to end. */
  function Repeat<T>(y: seq<T>, n: nat): (r: seq<T>)
    ensures |r| == n * |y|
  {
    if n == 0 then [] else y + Repeat(y, n - 1)
  }

  /** Row `k` of `n` copies of a buffer of `m` rows is row `k mod m` of it. */
  lemma {:induction false} RepeatRow<T>(y: seq<T>, w: nat, m: nat, n: nat, k: nat)
    requires |y| == m * w && k < n * m
    ensures k * w + w <= |Repeat(y, n)| && k % m * w + w <= |y|
    ensures Row(Repeat(y, n), w, k) == Row(y, w, k % m)
  {
    RepeatArith(m, n, k, w);
    var rest := Repeat(y, n - 1);
    assert Repeat(y, n) == y + rest;
    if k < m {
      RowFits(k, m, w);
      RowInPrefix(y, rest, w, k);
    } else {
      RowAfterPrefix(y, rest, w, m, k);
      RepeatRow(y, w, m, n - 1, k - m);
    }
  }

  lemma RepeatArith(m: nat, n: nat, k: nat, w: nat)
    requires k < n * m
    ensures 0 < m && 0 < n
    ensures k * w + w <= n * (m * w)
    ensures k % m * w + w <= m * w
    ensures k < m ==> k % m == k
    ensures m <= k ==> k - m < (n - 1) * m && (k - m) % m == k % m
  {
    ProductPositive(n, m);
    RowFits(k, n * m, w);
    MulAssoc(n, m, w);
    RowFits(k % m, m, w);
    if k < m {
      ModUnique(k, m, 0, k);
    } else {
      MulSucc(n - 1, m);
      ModShift(k - m, m);
    }
  }

  lemma ProductPositive(a: nat, b: nat)
    requires a * b > 0
    ensures a > 0 && b > 0
  {
  }

  lemma MulSucc(a: nat, b: nat)
    ensures (a + 1) * b == b + a * b
  {
  }

  lemma MulAssoc(a: nat, b: nat, c: nat)
    ensures (a * b) * c == a * (b * c)
  {
  }

  lemma ModShift(j: nat, m: nat)
    requires 0 < m
    ensures (j + m) % m == j % m
  {
    var q, r := j / m, j % m;
    assert j == q * m + r;
    assert j + m == (q + 1) * m + r;
    ModUnique(j + m, m, q + 1, r);
  }

  /** The remainder is determined by any quotient/remainder decomposition. */
  lemma ModUnique(x: nat, m: nat, q: nat, r: nat)
    requires 0 <= r < m && x == q * m + r
    ensures x % m == r
  {
    var q', r' := x / m, x % m;
    assert q' * m + r' == q * m + r;
    if q' < q {
      RowFits(q', q, m);
    } else if q < q' {
      RowFits(q, q', m);
    }
  }

  /** The shape after repeating axis `d` of `s` `reps[d]` times. */
  function Scaled(s: Shape, reps: seq<nat>): (r: Shape)
    requires |reps| == |s|
    ensures |r| == |s|
  {
    seq(|s|, d requires 0 <= d < |s| => s[d] * reps[d])
  }

  lemma ScaledTail(s: Shape, reps: seq<nat>)
    requires |reps| == |s| > 0
    ensures Scaled(s, reps)[1..] == Scaled(s[1..], reps[1..])
    ensures Prod(Scaled(s, reps)) == s[0] * reps[0] * Prod(Scaled(s[1..], reps[1..]))
  {
  }

  /** torch `tile(reps)` with one count per axis: the tensor repeated
      `reps[d]` times along each axis `d`. */
  function Tile<T>(t: Tensor<T>, reps: seq<nat>): (r: Tensor<T>)
    requires t.Wf() && |reps| == |t.shape|
    ensures r.Wf() && r.shape == Scaled(t.shape, reps)
    decreases |t.shape|, 1
  {
    if |t.shape| == 0 then t
    else
      ScaledTail(t.shape, reps);
      var rows := TileRows(t, reps[1..], 0);
      assert reps[0] * |rows| == Prod(Scaled(t.shape, reps));
      Tensor(Scaled(t.shape, reps), Repeat(rows, reps[0]))
  }

  /** The sub-tensors `t[k..]`, each tiled by `reps`, end to end. */
  function TileRows<T>(t: Tensor<T>, reps: seq<nat>, k: nat): (r: seq<T>)
    requires t.Wf() && |t.shape| > 0 && |reps| == |t.shape| - 1 && k <= t.shape[0]
    ensures |r| == (t.shape[0] - k) * Prod(Scaled(t.shape[1..], reps))
    decreases |t.shape|, 0, t.shape[0] - k
  {
    if k == t.shape[0] then []
    else
      MulSucc(t.shape[0] - k - 1, Prod(Scaled(t.shape[1..], reps)));
      Tile(Slice(t, k), reps).data + TileRows(t, reps, k + 1)
  }

  lemma {:induction false} TileRowsRow<T>(t: Tensor<T>, reps: seq<nat>, k: nat, j: nat)
    requires t.Wf() && |t.shape| > 0 && |reps| == |t.shape| - 1 && k + j < t.shape[0]
    ensures var w := Prod(Scaled(t.shape[1..], reps));
      j * w + w <= |TileRows(t, reps, k)| &&
      Row(TileRows(t, reps, k), w, j) == Tile(Slice(t, k + j), reps).data
    decreases j
  {
    var w := Prod(Scaled(t.shape[1..], reps));
    var head, rest := Tile(Slice(t, k), reps).data, TileRows(t, reps, k + 1);
    assert TileRows(t, reps, k) == head + rest;
    RowOfCons(head, rest, w, t.shape[0] - k - 1, j);
    if j > 0 {
      TileRowsRow(t, reps, k + 1, j - 1);
    }
  }

  /** Index `i` wrapped into shape `s`, axis by axis. */
  function Wrap(i: seq<nat>, s: Shape): (r: seq<nat>)
    requires |i| == |s| && Positive(s)
    ensures InBounds(s, r)
  {
    seq(|i|, d requires 0 <= d < |i| => i[d] % s[d])
  }

  /** Slicing a tiled tensor picks a slice of the original, wrapped around. */
  lemma SliceTile<T>(t: Tensor<T>, reps: seq<nat>, k: nat)
    requires t.Wf() && |reps| == |t.shape| > 0 && t.shape[0] > 0 && k < t.shape[0] * reps[0]
    ensures Slice(Tile(t, reps), k) == Tile(Slice(t, k % t.shape[0]), reps[1..])
  {
    var inner := Scaled(t.shape[1..], reps[1..]);
    var w := Prod(inner);
    ScaledTail(t.shape, reps);
    var rows := TileRows(t, reps[1..], 0);
    var tiled := Tile(t, reps);
    assert tiled.data == Repeat(rows, reps[0]) && tiled.shape[1..] == inner;
    assert k < reps[0] * t.shape[0];
    RepeatRow(rows, w, t.shape[0], reps[0], k);
    TileRowsRow(t, reps[1..], 0, k % t.shape[0]);
    assert Slice(tiled, k).data == Row(rows, w, k % t.shape[0]);
  }

  /** Every element of a tiled tensor is the original element at the
      index taken modulo the original shape. */
  lemma {:induction false} TileAt<T>(t: Tensor<T>, reps: seq<nat>, i: seq<nat>)
    requires t.Wf() && |reps| == |t.shape| && Positive(t.shape)
    requires InBounds(Scaled(t.shape, reps), i)
    ensures At(Tile(t, reps), i) == At(t, Wrap(i, t.shape))
    decreases |i|
  {
    if |i| > 0 {
      var s := t.shape;
      var k := i[0];
      SliceTile(t, reps, k);
      ScaledTail(s, reps);
      TileAt(Slice(t, k % s[0]), reps[1..], i[1..]);
      assert Wrap(i, s)[1..] == Wrap(i[1..], s[1..]);
    }
  }

  // ---------------------------------------------------------------------
  // narrow

  /** torch `narrow(dim, 0, len)`: keep indices `0 .. len` of axis `dim`. */
  function Narrow<T>(t: Tensor<T>, dim: nat, len: nat): (r: Tensor<T>)
    requires t.Wf() && dim < |t.shape| && len <= t.shape[dim]
    ensures r.Wf() && r.shape == t.shape[dim := len]
    decreases |t.shape|, 1
  {
    var w := Prod(t.shape[1..]);
    assert t.shape[dim := len][1..] == if dim == 0 then t.shape[1..] else t.shape[1..][dim - 1 := len];
    if dim == 0 then
      RowFits(len, t.shape[0] + 1, w);
      Tensor(t.shape[dim := len], t.data[.. len * w])
    else
      Tensor(t.shape[dim := len], NarrowRows(t, dim - 1, len, 0))
  }

  /** The sub-tensors `t[k..]`, each narrowed on their axis `dim`, end to end. */
  function NarrowRows<T>(t: Tensor<T>, dim: nat, len: nat, k: nat): (r: seq<T>)
    requires t.Wf() && dim + 1 < |t.shape| && len <= t.shape[dim + 1] && k <= t.shape[0]
    ensures |r| == (t.shape[0] - k) * Prod(t.shape[1..][dim := len])
    decreases |t.shape|, 0, t.shape[0] - k
  {
    if k == t.shape[0] then []
    else
      MulSucc(t.shape[0] - k - 1, Prod(t.shape[1..][dim := len]));
      Narrow(Slice(t, k), dim, len).data + NarrowRows(t, dim, len, k + 1)
  }

  lemma {:induction false} NarrowRowsRow<T>(t: Tensor<T>, dim: nat, len: nat, k: nat, j: nat)
    requires t.Wf() && dim + 1 < |t.shape| && len <= t.shape[dim + 1] && k + j < t.shape[0]
    ensures var w := Prod(t.shape[1..][dim := len]);
      j * w + w <= |NarrowRows(t, dim, len, k)| &&
      Row(NarrowRows(t, dim, len, k), w, j) == Narrow(Slice(t, k + j), dim, len).data
    decreases j
  {
    var w := Prod(t.shape[1..][dim := len]);
    var head, rest := Narrow(Slice(t, k), dim, len).data, NarrowRows(t, dim, len, k + 1);
    assert NarrowRows(t, dim, len, k) == head + rest;
    RowOfCons(head, rest, w, t.shape[0] - k - 1, j);
    if j > 0 {
      NarrowRowsRow(t, dim, len, k + 1, j - 1);
    }
  }

  /** Slicing a tensor narrowed on its outermost axis gives the original
      slice. */
  lemma SliceNarrowOuter<T>(t: Tensor<T>, len: nat, k: nat)
    requires t.Wf() && 0 < |t.shape| && k < len <= t.shape[0]
    ensures Slice(Narrow(t, 0, len), k) == Slice(t, k)
  {
    var w := Prod(t.shape[1..]);
    RowFits(k, len, w);
    RowFits(len, t.shape[0] + 1, w);
    assert t.shape[0 := len][1..] == t.shape[1..];
    RowOfPrefix(t.data, len * w, w, k);
  }

  /** Slicing a tensor narrowed on an inner axis gives the original slice
      narrowed in turn. */
  lemma SliceNarrowInner<T>(t: Tensor<T>, dim: nat, len: nat, k: nat)
    requires t.Wf() && 0 < dim < |t.shape| && len <= t.shape[dim] && k < t.shape[0]
    ensures Slice(Narrow(t, dim, len), k) == Narrow(Slice(t, k), dim - 1, len)
  {
    NarrowRowsRow(t, dim - 1, len, 0, k);
  }

  /** Narrowing keeps every element that remains in range. */
  lemma {:induction false} NarrowAt<T>(t: Tensor<T>, dim: nat, len: nat, i: seq<nat>)
    requires t.Wf() && dim < |t.shape| && len <= t.shape[dim]
    requires InBounds(t.shape[dim := len], i)
    ensures InBounds(t.shape, i)
    ensures At(Narrow(t, dim, len), i) == At(t, i)
    decreases |i|
  {
    var k := i[0];
    if dim == 0 {
      SliceNarrowOuter(t, len, k);
    } else {
      SliceNarrowInner(t, dim, len, k);
      assert t.shape[dim := len][1..] == t.shape[1..][dim - 1 := len];
      NarrowAt(Slice(t, k), dim - 1, len, i[1..]);
    }
  }

  /** Narrowing an axis to its full extent changes nothing. */
  lemma {:induction false} NarrowFull<T>(t: Tensor<T>, dim: nat)
    requires t.Wf() && dim < |t.shape|
    ensures Narrow(t, dim, t.shape[dim]) == t
    decreases |t.shape|, 1
  {
    var w := Prod(t.shape[1..]);
    if dim == 0 {
      assert t.shape[dim := t.shape[dim]] == t.shape;
    } else {
      assert t.shape[1..][dim - 1 := t.shape[dim]] == t.shape[1..];
      NarrowRowsFull(t, dim - 1, 0);
      assert t.shape[dim := t.shape[dim]] == t.shape;
    }
  }

  lemma {:induction false} NarrowRowsFull<T>(t: Tensor<T>, dim: nat, k: nat)
    requires t.Wf() && dim + 1 < |t.shape| && k <= t.shape[0]
    ensures k * Prod(t.shape[1..]) <= |t.data|
    ensures NarrowRows(t, dim, t.shape[dim + 1], k) == t.data[k * Prod(t.shape[1..])..]
    decreases |t.shape|, 0, t.shape[0] - k
  {
    var w := Prod(t.shape[1..]);
    assert t.shape[1..][dim := t.shape[dim + 1]] == t.shape[1..];
    if k == t.shape[0] {
    } else {
      var len := t.shape[dim + 1];
      var row := Slice(t, k);
      RowFits(k, t.shape[0], w);
      MulSucc(k, w);
      assert row.shape[dim] == len;
      NarrowFull(row, dim);
      assert NarrowRows(t, dim, len, k) == row.data + NarrowRows(t, dim, len, k + 1);
      NarrowRowsFull(t, dim, k + 1);
      SuffixFromRow(t.data, w, k);
    }
  }
}
