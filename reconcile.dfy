/** Shape reconciliation of one calibration sample: the sample is tiled so
    that every axis is at least as long as the target ("optimal") shape,
    then every axis that came out longer is cut back to its leading
    entries. */
module Reconcile {
  import opened Tensors

  /** ceil(a / b), computed on naturals instead of through a float. */
  function CeilDiv(a: nat, b: nat): (q: nat)
    requires b > 0
    ensures q * b >= a
    ensures (q - 1) * b < a
  {
    var q := (a + b - 1) / b;
    assert (a + b - 1) == q * b + (a + b - 1) % b;
    assert (q - 1) * b == q * b - b;
    q
  }

  /** The repeat count of every axis: ceil(opt / data). It is the least
      count whose tiling covers the target extent. */
  function Reps(opt: Shape, data: Shape): (reps: seq<nat>)
    requires |opt| == |data| && Positive(data)
    ensures |reps| == |opt|
    ensures forall d :: 0 <= d < |opt| ==> reps[d] * data[d] >= opt[d]
    ensures forall d :: 0 <= d < |opt| ==> (reps[d] as int - 1) * data[d] < opt[d]
  {
    seq(|opt|, d requires 0 <= d < |opt| => CeilDiv(opt[d], data[d]))
  }

  /** The narrowing loop from axis `d` on: each axis whose extent differs
      from the target is narrowed to the target, from offset 0. */
  function NarrowFrom<T>(t: Tensor<T>, opt: Shape, d: nat): (r: Tensor<T>)
    requires t.Wf() && |t.shape| == |opt| && d <= |opt|
    requires forall e :: d <= e < |opt| ==> opt[e] <= t.shape[e]
    ensures r.Wf()
    ensures r.shape == t.shape[..d] + opt[d..]
    decreases |opt| - d
  {
    if d == |opt| then t
    else if t.shape[d] != opt[d] then
      var n := Narrow(t, d, opt[d]);
      assert n.shape[..d + 1] + opt[d + 1..] == t.shape[..d] + opt[d..];
      NarrowFrom(n, opt, d + 1)
    else
      assert t.shape[..d + 1] + opt[d + 1..] == t.shape[..d] + opt[d..];
      NarrowFrom(t, opt, d + 1)
  }

  /** The narrowing loop only drops elements: every element it keeps sits
      at the same multi-index as before. */
  lemma {:induction false} NarrowFromAt<T>(t: Tensor<T>, opt: Shape, d: nat, i: seq<nat>)
    requires t.Wf() && |t.shape| == |opt| && d <= |opt|
    requires forall e :: d <= e < |opt| ==> opt[e] <= t.shape[e]
    requires InBounds(NarrowFrom(t, opt, d).shape, i)
    ensures InBounds(t.shape, i)
    ensures At(NarrowFrom(t, opt, d), i) == At(t, i)
    decreases |opt| - d
  {
    if d < |opt| {
      if t.shape[d] != opt[d] {
        var n := Narrow(t, d, opt[d]);
        NarrowFromAt(n, opt, d + 1, i);
        NarrowAt(t, d, opt[d], i);
      } else {
        NarrowFromAt(t, opt, d + 1, i);
      }
    }
  }

  /** Tile by the repeat counts, then narrow every axis to the target. */
  function TileCrop<T>(sample: Tensor<T>, opt: Shape): (r: Tensor<T>)
    requires sample.Wf() && |sample.shape| == |opt| && Positive(sample.shape)
    ensures r.Wf() && r.shape == opt
  {
    var tiled := Tile(sample, Reps(opt, sample.shape));
    assert opt[0..] == opt;
    NarrowFrom(tiled, opt, 0)
  }

  /** Every element of the reconciled sample at index `i` is the sample's
      element at `i` wrapped around the sample shape, axis by axis. */
  lemma TileCropAt<T>(sample: Tensor<T>, opt: Shape)
    requires sample.Wf() && |sample.shape| == |opt| && Positive(sample.shape)
    ensures forall i :: InBounds(opt, i) ==> At(TileCrop(sample, opt), i) == At(sample, Wrap(i, sample.shape))
  {
    var reps := Reps(opt, sample.shape);
    var tiled := Tile(sample, reps);
    assert opt[0..] == opt;
    forall i | InBounds(opt, i)
      ensures At(TileCrop(sample, opt), i) == At(sample, Wrap(i, sample.shape))
    {
      NarrowFromAt(tiled, opt, 0, i);
      TileAt(sample, reps, i);
    }
  }

  /** The reconciliation as the source runs it: tile, then narrow axis by
      axis wherever the tiled extent differs from the target. */
  method ReconcileShape<T>(sample: Tensor<T>, opt: Shape) returns (r: Tensor<T>)
    requires sample.Wf() && |sample.shape| == |opt| && Positive(sample.shape)
    ensures r == TileCrop(sample, opt)
    ensures r.shape == opt
    ensures forall i :: InBounds(opt, i) ==> At(r, i) == At(sample, Wrap(i, sample.shape))
  {
    var reps := Reps(opt, sample.shape);
    r := Tile(sample, reps);
    ghost var tiled := r;
    var dim := 0;
    while dim < |opt|
      invariant 0 <= dim <= |opt|
      invariant r.Wf() && |r.shape| == |opt|
      invariant forall e :: dim <= e < |opt| ==> opt[e] <= r.shape[e]
      invariant NarrowFrom(r, opt, dim) == NarrowFrom(tiled, opt, 0)
    {
      if r.shape[dim] != opt[dim] {
        r := Narrow(r, dim, opt[dim]);
      }
      dim := dim + 1;
    }
    TileCropAt(sample, opt);
  }
}
