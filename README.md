# Interactive neural network animator

A Dafny model of the state machine behind the interactive network diagram in
`iteractive-net.jsx`. The component owns a fixed topology of layer sizes
(`[6, 8, 8, 4]`), a weight tensor with one `layers[k] × layers[k+1]` matrix per
transition, one activation vector per layer, an `animationEnabled` flag and a
step cursor `animationStep`. A repeating timer propagates one layer per tick
(weighted sum, then a sigmoid), and buttons and clicks toggle a neuron, reset
the neurons, redraw the weights or pause the animation.

Modules:

- `Tensors` (tensors.dfy): shape predicates, the initial activations, the drawn
  weights (`Math.random() * 2 - 1`), re-randomisation and the toggle rule.
- `Propagation` (propagation.dfy): the sigmoid, the weighted sum, and the
  nested propagation loop proved against them.
- `Cursor` (cursor.dfy): the cursor's wrap rule and its behaviour over many ticks.
- `Animator` (animator.dfy): the class `Network` holding the component state, with
  one method per operation, and `Valid()` tying every shape to the topology.

The topology is a parameter: any sequence of at least two positive sizes;
`Tensors.DefaultLayers` is the widget's `[6, 8, 8, 4]`. Before the
initialisation effect runs, weights and activations are `None`, as the
component's state starts out `null`.

Inputs that come from outside the component are parameters:

- `Math.exp` is a function `exp: real -> real` that is positive and has
  `exp(0) = 1`. From that alone the model proves that the sigmoid lies strictly
  in (0, 1) and that `sigmoid(0) = 0.5`.
- `Math.random()` is a function `draw(k, i, j)`: one sample in [0, 1) for each
  weight position (transition, row, column). The model computes `u * 2 - 1` from
  it, as the source does, so the range [-1, 1) of every weight is proved rather
  than assumed.

What the code checks, and so what the model requires:

- Toggling a neuron checks no indices. With a layer index out of range,
  spreading `activations[layerIndex]` (iteractive-net.jsx:35) spreads
  `undefined` and throws a `TypeError`. With a neuron index out of range,
  `undefined > 0.5` is false, so lines 36-37 write 1 past the end and the
  vector grows. Neither can happen: the only caller is the click handler of a
  rendered neuron (line 157), which passes that neuron's own indices. So
  `Toggle` requires in-range indices.
- Re-randomising checks nothing either. Before initialisation `weights` is
  `null` and `weights.map` (line 75) throws a `TypeError`. Its button is
  rendered only after the loading check of line 83, so no click reaches it
  then, and `Randomize` requires the weights to exist.
- Weights are drawn in [-1, 1): the upper bound is never reached.

## Model

| member | source | states |
|---|---|---|
| `Tensors.DrawnWeight` | iteractive-net.jsx:19 | a sample in [0, 1) gives a weight in [-1, 1) |
| `Tensors.DrawMatrix` | iteractive-net.jsx:18-20 | the matrix for transition k has `rows` rows of `cols` entries; entry [i][j] is the weight drawn for position (k, i, j) |
| `Tensors.InitialWeights` | iteractive-net.jsx:16-22 | there are one fewer matrices than layers, matrix k is `layers[k] × layers[k+1]`, each entry is the weight drawn for its position, and every entry is in [-1, 1) when the samples lie in [0, 1) |
| `Tensors.Redraw` | iteractive-net.jsx:74-81 | re-randomising keeps every matrix and row length, replaces every entry by its drawn weight, and keeps every entry in [-1, 1) |
| `Tensors.RedrawIsFreshDraw` | iteractive-net.jsx:74-81 | on well-shaped weights, re-randomising gives exactly the weights a fresh initialisation draws from the same samples, so the matrix shapes follow the topology |
| `Tensors.InitialActivations` | iteractive-net.jsx:25 | one vector per layer, vector k of length `layers[k]`, every entry exactly 0.5 (so within [0, 1]) |
| `Tensors.ToggledValue` | iteractive-net.jsx:36-37 | a clicked neuron becomes 0 exactly when it was above 0.5, and 1 exactly when it was at most 0.5; the value always changes; on 0 or 1 it is the complement |
| `Propagation.Sigmoid` | iteractive-net.jsx:29 | `1 / (1 + exp(-x))` lies strictly between 0 and 1, and is 0.5 at x = 0 |
| `Propagation.LayerOutput` | iteractive-net.jsx:52-58 | a forward step yields one activation per target neuron, each strictly between 0 and 1 |
| `Propagation.Propagate` | iteractive-net.jsx:52-58 | the nested loops overwrite every target entry j with the sigmoid of the sum over source neurons i of `act[i] * w[i][j]`, giving exactly the forward step |
| `Propagation.IdentityStep` | iteractive-net.jsx:52-58 | with weights [[1, 0], [0, 1]] and source [1, 0] the target becomes [sigmoid(1), 0.5] |
| `Cursor.NextStep` | iteractive-net.jsx:46-61 | after a tick the cursor is below the layer count; it becomes 0 exactly when it was at or past the last layer, and otherwise advances by one |
| `Cursor.WithinRound` | iteractive-net.jsx:45-61 | from a cursor of 0, each of the next `count - 1` ticks advances the cursor by one and propagates |
| `Cursor.CursorCycle` | iteractive-net.jsx:45-61 | from 0, after q rounds of `count` ticks plus r more, the cursor is at r; q·(count − 1) + r of those ticks propagate, so only the wrap tick of each round skips propagation |
| `Cursor.DefaultCycle` | iteractive-net.jsx:45-61 | with four layers the cursor runs 1, 2, 3, 0 in every round, and 3q of the first 4q ticks propagate |
| `Animator.Network.constructor` | iteractive-net.jsx:9-12 | the component starts with no weights or activations, animation enabled, cursor 0 |
| `Animator.Network.Init` | iteractive-net.jsx:15-27 | the loop pushes one drawn matrix per transition, giving exactly the initial weights; every activation is 0.5; flag and cursor unchanged; all invariants hold |
| `Animator.Network.Toggle` | iteractive-net.jsx:31-39 | before initialisation nothing changes; otherwise only activation [l][n] changes, to its toggled value; weights, flag and cursor unchanged; activations stay in [0, 1] |
| `Animator.Network.Tick` | iteractive-net.jsx:42-62 | the tick fires exactly when weights and activations exist and animation is enabled; a wrap tick only rewinds the cursor to 0; any other tick replaces layer c+1 by the forward step from layer c, leaves every other layer and all weights unchanged, and advances the cursor to c+1; the cursor stays within [0, layers − 1] and activations within [0, 1] |
| `Animator.Network.RunTicks` | iteractive-net.jsx:44-62 | n timer firings on an initialised, enabled network leave the cursor exactly where n steps of the wrap rule from the old cursor take it (so, with `Cursor.CursorCycle`, from 0 it is at n mod the layer count); weights and flag unchanged |
| `Animator.Network.Reset` | iteractive-net.jsx:68-72 | every activation becomes exactly 0.5 and the cursor 0, whatever the prior state; weights and flag unchanged |
| `Animator.Network.Randomize` | iteractive-net.jsx:74-81 | every weight is redrawn, shapes kept, all entries in [-1, 1); activations, flag and cursor unchanged |
| `Animator.Network.ToggleEnabled` | iteractive-net.jsx:97 | the animation flag flips; nothing else changes |
| `Animator.Network.ActiveTransition` | iteractive-net.jsx:126 | at most one transition is highlighted: the one at the cursor, and only while animation is enabled and the cursor is not on the last layer |
| `Animator.DefaultRound` | iteractive-net.jsx:6-62 | on the `[6, 8, 8, 4]` widget after initialisation, four ticks put the cursor at 1, 2, 3, 0, and the input layer keeps its initial 0.5 activations |

## Left out

- `cat-dog-classifier.jsx`: a mock classifier made of file reading, a simulated delay, a random label and DOM resets. It has no logic to model.
- React's lifecycle is not modelled. This covers `useEffect` scheduling and the registration and clearing of `setInterval` (the timer exists only while weights and activations exist and animation is enabled). A timer firing is modelled as a call to `Tick`, whose guard is the effect's guard.
- Stale closures, effect re-runs, and a possible double call of the state updater are not modelled. The tick reads the state current at the call.
- Aliasing is not modelled. The tick copies only the outer activation array and overwrites the inner vector of layer c+1, which the previous state shares. The model treats vectors as values. This is harmless because the sums read only layer c.
- Floating point is not modelled. Weights, sums and activations are real numbers, and the model's sigmoid is strictly inside (0, 1). In IEEE arithmetic a very negative sum makes `Math.exp(-x)` overflow to infinity, giving exactly 0, and a very positive one makes `1 + Math.exp(-x)` round to 1, giving exactly 1. With this topology every sum is at most 8 in magnitude, so neither happens.
- Randomness: the distribution of `Math.random()` is not modelled, only its range [0, 1).
- The 1500 ms interval is not modelled. The model counts ticks, not time.
- SVG rendering and layout are not modelled: neuron positions, curves, colours, stroke widths, `toFixed(2)` labels and button markup.
