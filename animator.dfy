/** The network animator: the component's state (weights, activations, the
    animation flag and the step cursor) and the operations that change it.
    Before the initialisation effect has run, weights and activations are
    absent (`None`), as the component's state starts out null. */
module Animator {
  import opened Tensors
  import opened Propagation
  import opened Cursor

  datatype Option<T> = None | Some(value: T)

  class Network {
    const layers: seq<nat>
    const exp: real -> real
    var weights: Option<seq<Matrix>>
    var acts: Option<seq<Vector>>
    var enabled: bool
    var step: nat

    /** Shapes follow the topology, weights lie in [-1, 1), activations in
        [0, 1], and the cursor never passes the last layer. */
    ghost predicate Valid()
      reads this
    {
      ValidTopology(layers) && IsExp(exp) &&
      (weights.Some? ==> WeightsShaped(layers, weights.value) && WeightsInRange(weights.value)) &&
      (acts.Some? ==> ActsShaped(layers, acts.value) && ActsInUnit(acts.value)) &&
      step < |layers|
    }

    /** The component as first rendered: nothing drawn yet, animation on,
        cursor at 0. */
    constructor (layers: seq<nat>, exp: real -> real)
      requires ValidTopology(layers) && IsExp(exp)
      ensures Valid()
      ensures this.layers == layers && this.exp == exp
      ensures weights == None && acts == None && enabled && step == 0
    {
      this.layers := layers;
      this.exp := exp;
      weights := None;
      acts := None;
      enabled := true;
      step := 0;
    }

    /** The initialisation effect: one matrix of drawn weights per transition,
        pushed in order, and every activation at 0.5. */
    method Init(draw: (nat, nat, nat) -> real)
      requires Valid() && SamplesInUnit(draw)
      modifies this
      ensures Valid()
      ensures weights == Some(InitialWeights(layers, draw))
      ensures acts == Some(InitialActivations(layers))
      ensures enabled == old(enabled) && step == old(step)
    {
      var initWeights: seq<Matrix> := [];
      for k := 0 to |layers| - 1
        invariant |initWeights| == k
        invariant forall k' :: 0 <= k' < k ==>
          initWeights[k'] == DrawMatrix(draw, k', layers[k'], layers[k' + 1])
      {
        var layerWeights := DrawMatrix(draw, k, layers[k], layers[k + 1]);
        initWeights := initWeights + [layerWeights];
      }
      assert initWeights == InitialWeights(layers, draw);
      weights := Some(initWeights);
      acts := Some(InitialActivations(layers));
    }

    /** A click on neuron `n` of layer `l`: that one activation is toggled;
        nothing happens before initialisation. */
    method Toggle(l: nat, n: nat)
      requires Valid() && l < |layers| && n < layers[l]
      modifies this
      ensures Valid()
      ensures old(acts).None? ==> acts == None
      ensures old(acts).Some? ==>
        acts == Some(old(acts.value)[l := old(acts.value)[l][n := ToggledValue(old(acts.value)[l][n])]])
      ensures weights == old(weights) && enabled == old(enabled) && step == old(step)
    {
      if acts.None? {
        return;
      }
      var a := acts.value;
      var row := a[l][n := ToggledValue(a[l][n])];
      acts := Some(a[l := row]);
    }

    /** One firing of the interval timer. It fires only when weights and
        activations exist and animation is enabled. A tick at the last
        cursor position only rewinds the cursor; any other tick recomputes
        the next layer from the current one and advances the cursor. */
    method Tick() returns (fired: bool)
      requires Valid()
      modifies this
      ensures Valid()
      ensures fired == (old(weights).Some? && old(acts).Some? && old(enabled))
      ensures weights == old(weights) && enabled == old(enabled)
      ensures !fired ==> acts == old(acts) && step == old(step)
      ensures fired ==> step == NextStep(old(step), |layers|)
      ensures fired && !Propagates(old(step), |layers|) ==> acts == old(acts)
      ensures fired && Propagates(old(step), |layers|) ==>
        var c := old(step);
        acts == Some(old(acts.value)[c + 1 :=
          LayerOutput(exp, old(acts.value)[c], weights.value[c], layers[c + 1])])
    {
      if weights.None? || acts.None? || !enabled {
        return false;
      }
      fired := true;
      if step >= |layers| - 1 {
        step := 0;
        return;
      }
      var current := step;
      var next := current + 1;
      var a := acts.value;
      var row := Propagate(exp, a[current], weights.value[current], a[next]);
      acts := Some(a[next := row]);
      step := step + 1;
    }

    /** `n` firings of the interval timer while the network is initialised
        and animation is enabled: the cursor lands where `n` steps of the
        wrap rule take it, and weights and flag are untouched. */
    method RunTicks(n: nat)
      requires Valid() && weights.Some? && acts.Some? && enabled
      modifies this
      ensures Valid() && weights.Some? && acts.Some? && enabled
      ensures step == StepsFrom(old(step), |layers|, n)
      ensures weights == old(weights)
    {
      for t := 0 to n
        invariant Valid() && weights.Some? && acts.Some? && enabled
        invariant step == StepsFrom(old(step), |layers|, t)
        invariant weights == old(weights)
      {
        var fired := Tick();
      }
    }

    /** The "Reset Neurons" button: every activation back to 0.5 and the
        cursor to 0, whatever the state was. */
    method Reset()
      requires Valid()
      modifies this
      ensures Valid()
      ensures acts == Some(InitialActivations(layers)) && step == 0
      ensures weights == old(weights) && enabled == old(enabled)
    {
      acts := Some(InitialActivations(layers));
      step := 0;
    }

    /** The "Randomize Weights" button: every weight redrawn, shapes kept. */
    method Randomize(draw: (nat, nat, nat) -> real)
      requires Valid() && weights.Some? && SamplesInUnit(draw)
      modifies this
      ensures Valid()
      ensures weights == Some(Redraw(old(weights.value), draw))
      ensures weights == Some(InitialWeights(layers, draw))
      ensures acts == old(acts) && enabled == old(enabled) && step == old(step)
    {
      RedrawIsFreshDraw(layers, weights.value, draw);
      weights := Some(Redraw(weights.value, draw));
    }

    /** The "Pause"/"Resume" button. */
    method ToggleEnabled()
      requires Valid()
      modifies this
      ensures Valid()
      ensures enabled == !old(enabled)
      ensures weights == old(weights) && acts == old(acts) && step == old(step)
    {
      enabled := !enabled;
    }

    /** Whether the connections of transition `k` are drawn pulsing. */
    predicate IsActive(k: nat)
      reads this
    {
      enabled && step == k
    }

    /** The one transition drawn pulsing, if any: none while paused and none
        while the cursor sits on the last layer, waiting for the wrap tick. */
    function ActiveTransition(): (r: Option<nat>)
      reads this
      requires Valid()
      ensures r.Some? ==> r.value < |layers| - 1 && IsActive(r.value)
      ensures r.None? ==> forall k :: 0 <= k < |layers| - 1 ==> !IsActive(k)
      ensures r.Some? ==> forall k :: IsActive(k) ==> k == r.value
    {
      if enabled && step < |layers| - 1 then Some(step) else None
    }
  }

  /** A fresh widget with the default topology: after initialisation, four
      timer ticks move the cursor to 1, 2, 3 and back to 0, and none of them
      writes the input layer, which keeps the 0.5 it was initialised with. */
  method DefaultRound(exp: real -> real, draw: (nat, nat, nat) -> real)
    returns (cursors: seq<nat>, input: Vector)
    requires IsExp(exp) && SamplesInUnit(draw)
    ensures cursors == [1, 2, 3, 0]
    ensures |input| == 6 && forall i :: 0 <= i < 6 ==> input[i] == 0.5
  {
    var net := new Network(DefaultLayers, exp);
    net.Init(draw);
    cursors := [];
    var fired := net.Tick();
    cursors := cursors + [net.step];
    fired := net.Tick();
    cursors := cursors + [net.step];
    fired := net.Tick();
    cursors := cursors + [net.step];
    fired := net.Tick();
    cursors := cursors + [net.step];
    input := net.acts.value[0];
  }
}
