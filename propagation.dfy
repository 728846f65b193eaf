/** One forward step of the animator: the activations of layer `k+1` are the
    sigmoid of the weighted sums of layer `k`'s activations. */
module Propagation {
  import opened Tensors

  /** What the model needs of `Math.exp`: it is positive and exp(0) = 1. */
  ghost predicate IsExp(exp: real -> real)
  {
    exp(0.0) == 1.0 && forall x :: exp(x) > 0.0
  }

  /** The logistic function `1 / (1 + exp(-x))`. */
  function Sigmoid(exp: real -> real, x: real): (r: real)
    requires IsExp(exp)
    ensures 0.0 < r < 1.0
    ensures x == 0.0 ==> r == 0.5
  {
    var e := exp(-x);
    assert e > 0.0;
    1.0 / (1.0 + e)
  }

  /** The sum over the first `n` source neurons `i` of `a[i] * m[i][j]`,
      accumulated from `i = 0` upwards. */
  function WeightedSum(a: Vector, m: Matrix, j: nat, n: nat): (s: real)
    requires n <= |a| && n <= |m|
    requires forall i :: 0 <= i < n ==> j < |m[i]|
  {
    if n == 0 then 0.0 else WeightedSum(a, m, j, n - 1) + a[n - 1] * m[n - 1][j]
  }

  /** The target layer's activations after one forward step from source
      activations `a` through weight matrix `m`. */
  function LayerOutput(exp: real -> real, a: Vector, m: Matrix, width: nat): (r: Vector)
    requires IsExp(exp) && IsMatrix(m, |a|, width)
    ensures |r| == width
    ensures forall j :: 0 <= j < width ==> 0.0 < r[j] < 1.0
  {
    seq(width, j requires 0 <= j < width => Sigmoid(exp, WeightedSum(a, m, j, |a|)))
  }

  /** The nested loops of the timer tick: every entry `j` of the target
      vector is overwritten with the sigmoid of its weighted sum. */
  method Propagate(exp: real -> real, a: Vector, m: Matrix, target: Vector) returns (r: Vector)
    requires IsExp(exp) && IsMatrix(m, |a|, |target|)
    ensures r == LayerOutput(exp, a, m, |target|)
  {
    r := target;
    for j := 0 to |target|
      invariant |r| == |target|
      invariant forall j' :: 0 <= j' < j ==> r[j'] == Sigmoid(exp, WeightedSum(a, m, j', |a|))
    {
      var sum := 0.0;
      for i := 0 to |a|
        invariant sum == WeightedSum(a, m, j, i)
      {
        sum := sum + a[i] * m[i][j];
      }
      r := r[j := Sigmoid(exp, sum)];
    }
  }

  /** A two-by-two network with identity weights: source activations [1, 0]
      give target activations [sigmoid(1), sigmoid(0)] = [sigmoid(1), 0.5]. */
  method IdentityStep(exp: real -> real) returns (r: Vector)
    requires IsExp(exp)
    ensures r == [Sigmoid(exp, 1.0), 0.5]
  {
    var a := [1.0, 0.0];
    var m := [[1.0, 0.0], [0.0, 1.0]];
    r := Propagate(exp, a, m, [0.5, 0.5]);
    assert WeightedSum(a, m, 0, 2) == 1.0 by {
      assert WeightedSum(a, m, 0, 1) == 1.0;
    }
    assert WeightedSum(a, m, 1, 2) == 0.0 by {
      assert WeightedSum(a, m, 1, 1) == 0.0;
    }
  }
}
