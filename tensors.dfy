/** Shapes and values of the network's weight and activation tensors.

    A topology is the sequence of layer sizes (`[6, 8, 8, 4]` in the widget).
    Weights hold one matrix per transition `k -> k+1`, indexed `[i][j]` with
    `i` a neuron of layer `k` and `j` a neuron of layer `k+1`; activations
    hold one vector per layer. */
module Tensors {

  type Vector = seq<real>
  type Matrix = seq<seq<real>>

  /** The topology the widget is built with. */
  const DefaultLayers: seq<nat> := [6, 8, 8, 4]

  /** At least one transition, and no empty layer. */
  ghost predicate ValidTopology(layers: seq<nat>)
  {
    |layers| >= 2 && forall k :: 0 <= k < |layers| ==> layers[k] >= 1
  }

  ghost predicate IsMatrix(m: Matrix, rows: nat, cols: nat)
  {
    |m| == rows && forall i :: 0 <= i < rows ==> |m[i]| == cols
  }

  /** Exactly `|layers| - 1` matrices; matrix `k` is `layers[k]` by `layers[k+1]`. */
  ghost predicate WeightsShaped(layers: seq<nat>, w: seq<Matrix>)
  {
    |layers| >= 1 && |w| == |layers| - 1 &&
    forall k {:trigger w[k]} :: 0 <= k < |w| ==> IsMatrix(w[k], layers[k], layers[k + 1])
  }

  /** Exactly `|layers|` vectors; vector `k` has `layers[k]` entries. */
  ghost predicate ActsShaped(layers: seq<nat>, a: seq<Vector>)
  {
    |a| == |layers| && forall k :: 0 <= k < |a| ==> |a[k]| == layers[k]
  }

  /** Two weight tensors with the same matrix and row sizes. */
  ghost predicate SameShape(v: seq<Matrix>, w: seq<Matrix>)
  {
    |v| == |w| &&
    forall k :: 0 <= k < |v| ==>
      |v[k]| == |w[k]| && forall i :: 0 <= i < |v[k]| ==> |v[k][i]| == |w[k][i]|
  }

  /** Every weight lies in [-1, 1). */
  ghost predicate WeightsInRange(w: seq<Matrix>)
  {
    forall k, i, j :: 0 <= k < |w| && 0 <= i < |w[k]| && 0 <= j < |w[k][i]| ==>
      -1.0 <= w[k][i][j] < 1.0
  }

  /** Every activation lies in [0, 1]. */
  ghost predicate ActsInUnit(a: seq<Vector>)
  {
    forall k, i :: 0 <= k < |a| && 0 <= i < |a[k]| ==> 0.0 <= a[k][i] <= 1.0
  }

  /** A source of samples in [0, 1), one per weight position (transition,
      row, column); it stands for the calls to `Math.random()`. Only the range
      of the samples matters here, not their distribution. */
  ghost predicate SamplesInUnit(draw: (nat, nat, nat) -> real)
  {
    forall k, i, j :: 0.0 <= draw(k, i, j) < 1.0
  }

  /** A weight from one sample, as `Math.random() * 2 - 1`. */
  function DrawnWeight(u: real): (r: real)
    ensures 0.0 <= u < 1.0 ==> -1.0 <= r < 1.0
  {
    u * 2.0 - 1.0
  }

  /** Matrix `k` of a fresh initialisation: `rows` rows of `cols` drawn weights. */
  function DrawMatrix(draw: (nat, nat, nat) -> real, k: nat, rows: nat, cols: nat): (m: Matrix)
    ensures IsMatrix(m, rows, cols)
    ensures forall i, j :: 0 <= i < rows && 0 <= j < cols ==> m[i][j] == DrawnWeight(draw(k, i, j))
  {
    seq(rows, i requires 0 <= i => seq(cols, j requires 0 <= j => DrawnWeight(draw(k, i, j))))
  }

  /** The weights a fresh initialisation draws for `layers`. */
  function InitialWeights(layers: seq<nat>, draw: (nat, nat, nat) -> real): (w: seq<Matrix>)
    requires |layers| >= 1
    ensures WeightsShaped(layers, w)
    ensures forall k, i, j :: 0 <= k < |w| && 0 <= i < |w[k]| && 0 <= j < |w[k][i]| ==>
      w[k][i][j] == DrawnWeight(draw(k, i, j))
    ensures SamplesInUnit(draw) ==> WeightsInRange(w)
  {
    seq(|layers| - 1, k requires 0 <= k < |layers| - 1 =>
      DrawMatrix(draw, k, layers[k], layers[k + 1]))
  }

  /** Every weight of `w` replaced by a fresh draw, keeping the shape of `w`. */
  function Redraw(w: seq<Matrix>, draw: (nat, nat, nat) -> real): (r: seq<Matrix>)
    ensures SameShape(r, w)
    ensures forall k, i, j :: 0 <= k < |r| && 0 <= i < |r[k]| && 0 <= j < |r[k][i]| ==>
      r[k][i][j] == DrawnWeight(draw(k, i, j))
    ensures SamplesInUnit(draw) ==> WeightsInRange(r)
  {
    seq(|w|, k requires 0 <= k < |w| =>
      seq(|w[k]|, i requires 0 <= i < |w[k]| =>
        seq(|w[k][i]|, j requires 0 <= j => DrawnWeight(draw(k, i, j)))))
  }

  /** Re-randomising well-shaped weights gives exactly what a fresh
      initialisation with the same samples gives: the shapes are kept. */
  lemma RedrawIsFreshDraw(layers: seq<nat>, w: seq<Matrix>, draw: (nat, nat, nat) -> real)
    requires WeightsShaped(layers, w)
    ensures Redraw(w, draw) == InitialWeights(layers, draw)
  {
    var r, f := Redraw(w, draw), InitialWeights(layers, draw);
    forall k | 0 <= k < |w|
      ensures r[k] == f[k]
    {
      forall i | 0 <= i < |w[k]|
        ensures r[k][i] == f[k][i]
      {
        assert |r[k][i]| == |f[k][i]| == layers[k + 1];
      }
    }
  }

  /** The activations a fresh initialisation or a reset produces. */
  function InitialActivations(layers: seq<nat>): (a: seq<Vector>)
    ensures ActsShaped(layers, a) && ActsInUnit(a)
    ensures forall k, i :: 0 <= k < |a| && 0 <= i < |a[k]| ==> a[k][i] == 0.5
  {
    seq(|layers|, k requires 0 <= k < |layers| => seq(layers[k], _ => 0.5))
  }

  /** The value a clicked neuron takes: off when it is above one half, else on. */
  function ToggledValue(v: real): (r: real)
    ensures r == 0.0 <==> v > 0.5
    ensures r == 1.0 <==> v <= 0.5
    ensures r != v
    ensures v == 0.0 || v == 1.0 ==> r == 1.0 - v
  {
    if v > 0.5 then 0.0 else 1.0
  }
}
