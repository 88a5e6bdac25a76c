/**
 * Neurons, layers and multi-layer perceptrons over the Scalar engine.
 *
 * A Neuron holds handles to its weight and bias scalars, a Layer a list of neurons, a
 * perceptron a list of layers; none of them is changed after construction, so they are
 * values here, and every operation that allocates nodes or resets gradients works on
 * the shared `Arena`. The randomly sampled initial weights and biases are inputs
 * (`NeuronInit`). A size is an `i32` in the original; `(0..n)` is empty for negative
 * `n`, which `Count` captures.
 */
module Nn {
  import opened ScalarGraph
  import opened Ops
  import opened Engine

  datatype Neuron = Neuron(weights: seq<Scalar>, bias: Scalar)
  datatype Layer = Layer(neurons: seq<Neuron>)
  datatype Mlp = Mlp(layers: seq<Layer>)

  /** The values `Neuron::new` samples: one per weight, then the bias. */
  datatype NeuronInit = NeuronInit(weights: seq<real>, bias: real)

  datatype Result<T> = Ok(value: T) | Err(msg: string)

  /** How many items `(0..n)` yields for an `i32` bound `n`. */
  function Count(n: int): nat {
    if n < 0 then 0 else n
  }

  /** The consecutive handles `lo, lo + 1, …, lo + n - 1`. */
  function Range(lo: nat, n: nat): (r: seq<Scalar>)
    ensures |r| == n
  {
    if n == 0 then [] else Range(lo, n - 1) + [lo + n - 1]
  }

  lemma {:induction false} RangeAt(lo: nat, n: nat, i: nat)
    requires i < n
    ensures Range(lo, n)[i] == lo + i
    decreases n
  {
    if i < n - 1 {
      RangeAt(lo, n - 1, i);
    }
  }

  lemma RangeBelow(lo: nat, n: nat)
    ensures Below(Range(lo, n), lo + n)
  {
    forall i | 0 <= i < n
      ensures Range(lo, n)[i] < lo + n
    {
      RangeAt(lo, n, i);
    }
  }

  lemma RangeSnoc(lo: nat, n: nat)
    ensures Range(lo, n + 1) == Range(lo, n) + [lo + n]
  {
  }

  lemma {:induction false} RangeAppend(lo: nat, m: nat, n: nat)
    ensures Range(lo, m) + Range(lo + m, n) == Range(lo, m + n)
    decreases n
  {
    if n > 0 {
      RangeAppend(lo, m, n - 1);
      assert Range(lo + m, n) == Range(lo + m, n - 1) + [lo + m + n - 1];
      assert Range(lo, m + n) == Range(lo, m + n - 1) + [lo + m + n - 1];
    }
  }

  /** The decimal digit character for `d`. */
  function Digit(d: nat): char
    requires d < 10
  {
    ('0' as int + d) as char
  }

  /** Decimal rendering of a natural number, as `format!("{}")` prints it. */
  function NatToString(n: nat): string
    decreases n
  {
    if n < 10 then [Digit(n)] else NatToString(n / 10) + [Digit(n % 10)]
  }

  // ---------------------------------------------------------------------------
  // parameters()

  /** `Neuron::parameters`: the weights in order, then the bias. */
  function NeuronParams(n: Neuron): (r: seq<Scalar>)
    ensures |r| == |n.weights| + 1 && r[|n.weights|] == n.bias
    ensures forall i :: 0 <= i < |n.weights| ==> r[i] == n.weights[i]
  {
    n.weights + [n.bias]
  }

  /** `Layer::parameters`: its neurons' parameters, concatenated in neuron order. */
  function LayerParams(neurons: seq<Neuron>): (r: seq<Scalar>)
    ensures |r| == NeuronsParamCount(neurons)
    decreases |neurons|
  {
    if neurons == [] then []
    else LayerParams(neurons[..|neurons| - 1]) + NeuronParams(neurons[|neurons| - 1])
  }

  /** `MultiLayerPerceptron::parameters`: its layers' parameters, in layer order. */
  function MlpParams(layers: seq<Layer>): (r: seq<Scalar>)
    ensures |r| == LayersParamCount(layers)
    decreases |layers|
  {
    if layers == [] then []
    else MlpParams(layers[..|layers| - 1]) + LayerParams(layers[|layers| - 1].neurons)
  }

  /** How many parameters neurons with these weight counts hold: one per weight, one bias each. */
  function NeuronsParamCount(neurons: seq<Neuron>): nat
    decreases |neurons|
  {
    if neurons == [] then 0
    else NeuronsParamCount(neurons[..|neurons| - 1]) + |neurons[|neurons| - 1].weights| + 1
  }

  /**
   * In-order concatenation: the parameters of neuron `k` sit in the layer's list right
   * after those of the neurons before it.
   */
  lemma {:induction false} LayerParamsAt(neurons: seq<Neuron>, k: nat, i: nat)
    requires k < |neurons| && i <= |neurons[k].weights|
    ensures NeuronsParamCount(neurons[..k]) + i < |LayerParams(neurons)|
    ensures LayerParams(neurons)[NeuronsParamCount(neurons[..k]) + i] == NeuronParams(neurons[k])[i]
    decreases |neurons|
  {
    var front := neurons[..|neurons| - 1];
    if k < |neurons| - 1 {
      LayerParamsAt(front, k, i);
      assert front[..k] == neurons[..k];
    }
  }

  /** How many parameters these layers hold. */
  function LayersParamCount(layers: seq<Layer>): nat
    decreases |layers|
  {
    if layers == [] then 0
    else LayersParamCount(layers[..|layers| - 1]) + NeuronsParamCount(layers[|layers| - 1].neurons)
  }

  // ---------------------------------------------------------------------------
  // Construction

  /** The leaves `Neuron::new` allocates for its weights, labelled `w0`, `w1`, …. */
  function WeightLeaves(ws: seq<real>): (r: seq<Node>)
    ensures |r| == |ws|
    decreases |ws|
  {
    if ws == [] then []
    else WeightLeaves(ws[..|ws| - 1]) + [LeafNode(ws[|ws| - 1], "w" + NatToString(|ws| - 1))]
  }

  /** Every leaf `Neuron::new` allocates: the weights, then the bias labelled `b`. */
  function NeuronLeaves(init: NeuronInit): (r: seq<Node>)
    ensures |r| == |init.weights| + 1
  {
    WeightLeaves(init.weights) + [LeafNode(init.bias, "b")]
  }

  /** Every leaf `Layer::new` allocates, neuron by neuron. */
  function LayerLeaves(inits: seq<NeuronInit>): seq<Node>
    decreases |inits|
  {
    if inits == [] then []
    else LayerLeaves(inits[..|inits| - 1]) + NeuronLeaves(inits[|inits| - 1])
  }

  /** Every leaf `MultiLayerPerceptron::new` allocates, layer by layer. */
  function MlpLeaves(inits: seq<seq<NeuronInit>>): seq<Node>
    decreases |inits|
  {
    if inits == [] then []
    else MlpLeaves(inits[..|inits| - 1]) + LayerLeaves(inits[|inits| - 1])
  }

  lemma WeightLeavesSnoc(ws: seq<real>, i: nat)
    requires i < |ws|
    ensures WeightLeaves(ws[..i + 1]) == WeightLeaves(ws[..i]) + [LeafNode(ws[i], "w" + NatToString(i))]
  {
    assert ws[..i + 1][..i] == ws[..i];
  }

  lemma WeightLeavesStep(base: seq<Node>, ws: seq<real>, i: nat, nodes: seq<Node>)
    requires i < |ws| && nodes == base + WeightLeaves(ws[..i])
    ensures |nodes| == |base| + i
    ensures nodes + [LeafNode(ws[i], "w" + NatToString(i))] == base + WeightLeaves(ws[..i + 1])
  {
    WeightLeavesSnoc(ws, i);
  }

  lemma LayerLeavesSnoc(inits: seq<NeuronInit>, k: nat)
    requires k < |inits|
    ensures LayerLeaves(inits[..k + 1]) == LayerLeaves(inits[..k]) + NeuronLeaves(inits[k])
  {
    assert inits[..k + 1][..k] == inits[..k];
  }

  lemma LayerLeavesStep(base: seq<Node>, inits: seq<NeuronInit>, k: nat, nodes: seq<Node>)
    requires k < |inits| && nodes == base + LayerLeaves(inits[..k])
    ensures nodes + NeuronLeaves(inits[k]) == base + LayerLeaves(inits[..k + 1])
  {
    LayerLeavesSnoc(inits, k);
  }

  lemma LayerParamsStep(neurons: seq<Neuron>, n: Neuron, lo: nat, m: nat, w: nat)
    requires LayerParams(neurons) == Range(lo, m) && NeuronParams(n) == Range(lo + m, w)
    ensures LayerParams(neurons + [n]) == Range(lo, m + w)
  {
    LayerParamsSnoc(neurons, n);
    RangeAppend(lo, m, w);
  }

  lemma MlpLeavesSnoc(inits: seq<seq<NeuronInit>>, j: nat)
    requires j < |inits|
    ensures MlpLeaves(inits[..j + 1]) == MlpLeaves(inits[..j]) + LayerLeaves(inits[j])
  {
    assert inits[..j + 1][..j] == inits[..j];
  }

  lemma LayerParamsSnoc(neurons: seq<Neuron>, n: Neuron)
    ensures LayerParams(neurons + [n]) == LayerParams(neurons) + NeuronParams(n)
  {
    assert (neurons + [n])[..|neurons|] == neurons;
  }

  lemma MlpParamsSnoc(layers: seq<Layer>, l: Layer)
    ensures MlpParams(layers + [l]) == MlpParams(layers) + LayerParams(l.neurons)
  {
    assert (layers + [l])[..|layers|] == layers;
  }

  /**
   * `Neuron::new(num_inputs)` with the sampled values supplied: one labelled leaf per
   * weight, then the bias leaf. Its parameters are the fresh handles, in allocation order.
   */
  method NeuronNew(arena: Arena, numInputs: int, init: NeuronInit) returns (n: Neuron)
    requires WellFormed(arena.nodes) && |init.weights| == Count(numInputs)
    modifies arena
    ensures WellFormed(arena.nodes) && arena.nodes == old(arena.nodes) + NeuronLeaves(init)
    ensures |n.weights| == Count(numInputs)
    ensures NeuronParams(n) == Range(|old(arena.nodes)|, Count(numInputs) + 1)
    ensures NeuronIn(n, |arena.nodes|)
  {
    ghost var base := arena.nodes;
    var weights: seq<Scalar> := [];
    var ws := init.weights;
    for i := 0 to |ws|
      invariant WellFormed(arena.nodes) && arena.nodes == base + WeightLeaves(ws[..i])
      invariant weights == Range(|base|, i)
    {
      WeightLeavesStep(base, ws, i, arena.nodes);
      RangeSnoc(|base|, i);
      var w := arena.NewWithLabel(ws[i], "w" + NatToString(i));
      weights := weights + [w];
    }
    assert ws[..|ws|] == ws;
    RangeSnoc(|base|, |ws|);
    var bias := arena.NewWithLabel(init.bias, "b");
    n := Neuron(weights, bias);
    RangeBelow(|base|, |ws| + 1);
    BelowAppend(weights, [bias], |arena.nodes|);
  }

  /** Loop state of `LayerNew` after `k` neurons: the arena. */
  ghost predicate LayerLeavesBuilt(base: seq<Node>, numInputs: int, inits: seq<NeuronInit>, k: nat,
                                   nodes: seq<Node>)
  {
    k <= |inits| && nodes == base + LayerLeaves(inits[..k]) &&
    |nodes| == |base| + k * (Count(numInputs) + 1)
  }

  /** Loop state of `LayerNew` after `k` neurons: the neurons built so far. */
  ghost predicate LayerNeuronsBuilt(lo: nat, numInputs: int, k: nat, neurons: seq<Neuron>) {
    |neurons| == k && (forall j :: 0 <= j < k ==> |neurons[j].weights| == Count(numInputs)) &&
    LayerParams(neurons) == Range(lo, k * (Count(numInputs) + 1))
  }

  ghost predicate LayerBuilt(base: seq<Node>, numInputs: int, inits: seq<NeuronInit>, k: nat,
                             nodes: seq<Node>, neurons: seq<Neuron>)
  {
    LayerLeavesBuilt(base, numInputs, inits, k, nodes) && LayerNeuronsBuilt(|base|, numInputs, k, neurons)
  }

  lemma LayerLeavesBuiltStep(base: seq<Node>, numInputs: int, inits: seq<NeuronInit>, k: nat, nodes: seq<Node>)
    requires LayerLeavesBuilt(base, numInputs, inits, k, nodes) && k < |inits|
    requires |inits[k].weights| == Count(numInputs)
    ensures LayerLeavesBuilt(base, numInputs, inits, k + 1, nodes + NeuronLeaves(inits[k]))
  {
    var width := Count(numInputs) + 1;
    LayerLeavesStep(base, inits, k, nodes);
    assert (k + 1) * width == k * width + width;
  }

  lemma MulSucc(k: nat, width: nat)
    ensures (k + 1) * width == k * width + width
  {
  }

  lemma LayerNeuronsBuiltStep(lo: nat, numInputs: int, k: nat, neurons: seq<Neuron>, n: Neuron)
    requires LayerNeuronsBuilt(lo, numInputs, k, neurons) && |n.weights| == Count(numInputs)
    requires NeuronParams(n) == Range(lo + k * (Count(numInputs) + 1), Count(numInputs) + 1)
    ensures LayerNeuronsBuilt(lo, numInputs, k + 1, neurons + [n])
  {
    var width := Count(numInputs) + 1;
    MulSucc(k, width);
    LayerParamsStep(neurons, n, lo, k * width, width);
    var grown := neurons + [n];
    forall j | 0 <= j < k + 1
      ensures |grown[j].weights| == Count(numInputs)
    {
      if j < k {
        assert grown[j] == neurons[j];
      }
    }
  }

  lemma LayerBuiltDone(base: seq<Node>, numInputs: int, inits: seq<NeuronInit>,
                       nodes: seq<Node>, neurons: seq<Neuron>)
    requires LayerBuilt(base, numInputs, inits, |inits|, nodes, neurons)
    ensures nodes == base + LayerLeaves(inits) && |neurons| == |inits|
    ensures |nodes| == |base| + |inits| * (Count(numInputs) + 1)
    ensures forall j :: 0 <= j < |neurons| ==> |neurons[j].weights| == Count(numInputs)
    ensures LayerParams(neurons) == Range(|base|, |inits| * (Count(numInputs) + 1))
  {
    assert inits[..|inits|] == inits;
  }

  /** `Layer::new(num_inputs, num_outputs)`: `num_outputs` neurons of `num_inputs` weights. */
  method LayerNew(arena: Arena, numInputs: int, numOutputs: int, inits: seq<NeuronInit>)
    returns (l: Layer)
    requires WellFormed(arena.nodes) && |inits| == Count(numOutputs)
    requires forall k :: 0 <= k < |inits| ==> |inits[k].weights| == Count(numInputs)
    modifies arena
    ensures WellFormed(arena.nodes) && arena.nodes == old(arena.nodes) + LayerLeaves(inits)
    ensures |arena.nodes| == |old(arena.nodes)| + Count(numOutputs) * (Count(numInputs) + 1)
    ensures |l.neurons| == Count(numOutputs)
    ensures forall k :: 0 <= k < |l.neurons| ==> |l.neurons[k].weights| == Count(numInputs)
    ensures LayerParams(l.neurons) == Range(|old(arena.nodes)|, Count(numOutputs) * (Count(numInputs) + 1))
    ensures LayerIn(l.neurons, |arena.nodes|) && Fits(l.neurons, Count(numInputs))
  {
    ghost var base := arena.nodes;
    var neurons: seq<Neuron> := [];
    for k := 0 to |inits|
      invariant WellFormed(arena.nodes) && LayerBuilt(base, numInputs, inits, k, arena.nodes, neurons)
    {
      ghost var before := arena.nodes;
      var n := NeuronNew(arena, numInputs, inits[k]);
      LayerLeavesBuiltStep(base, numInputs, inits, k, before);
      LayerNeuronsBuiltStep(|base|, numInputs, k, neurons, n);
      neurons := neurons + [n];
    }
    LayerBuiltDone(base, numInputs, inits, arena.nodes, neurons);
    RangeBelow(|base|, |inits| * (Count(numInputs) + 1));
    LayerParamsIn(neurons, |arena.nodes|);
    l := Layer(neurons);
  }

  /** The input size `MultiLayerPerceptron::new` gives layer `j`. */
  function LayerInputs(numInputs: int, sizes: seq<int>, j: nat): int
    requires j <= |sizes|
  {
    if j == 0 then numInputs else sizes[j - 1]
  }

  /** How many parameters the perceptron `new(num_inputs, sizes)` holds. */
  function MlpCount(numInputs: int, sizes: seq<int>): nat
    decreases |sizes|
  {
    if sizes == [] then 0
    else
      var j := |sizes| - 1;
      MlpCount(numInputs, sizes[..j]) + Count(sizes[j]) * (Count(LayerInputs(numInputs, sizes, j)) + 1)
  }

  lemma MlpCountSnoc(numInputs: int, sizes: seq<int>, j: nat)
    requires j < |sizes|
    ensures MlpCount(numInputs, sizes[..j + 1])
      == MlpCount(numInputs, sizes[..j]) + Count(sizes[j]) * (Count(LayerInputs(numInputs, sizes, j)) + 1)
  {
    assert sizes[..j + 1][..j] == sizes[..j];
  }

  /** Loop state of `MlpNew` after `j` layers: the arena. */
  ghost predicate MlpLeavesBuilt(base: seq<Node>, numInputs: int, sizes: seq<int>,
                                 inits: seq<seq<NeuronInit>>, j: nat, nodes: seq<Node>)
  {
    j <= |sizes| == |inits| && nodes == base + MlpLeaves(inits[..j]) &&
    |nodes| == |base| + MlpCount(numInputs, sizes[..j])
  }

  /** Loop state of `MlpNew` after `j` layers: the layers built so far. */
  ghost predicate MlpLayersBuilt(lo: nat, numInputs: int, sizes: seq<int>, j: nat, layers: seq<Layer>) {
    j <= |sizes| && |layers| == j &&
    (forall i :: 0 <= i < j ==> |layers[i].neurons| == Count(sizes[i])) &&
    (forall i, k :: 0 <= i < j && 0 <= k < |layers[i].neurons| ==>
       |layers[i].neurons[k].weights| == Count(LayerInputs(numInputs, sizes, i))) &&
    MlpParams(layers) == Range(lo, MlpCount(numInputs, sizes[..j]))
  }

  lemma MlpLeavesBuiltStep(base: seq<Node>, numInputs: int, sizes: seq<int>, inits: seq<seq<NeuronInit>>,
                           j: nat, nodes: seq<Node>, nodes': seq<Node>)
    requires MlpLeavesBuilt(base, numInputs, sizes, inits, j, nodes) && j < |sizes|
    requires nodes' == nodes + LayerLeaves(inits[j])
    requires |nodes'| == |nodes| + Count(sizes[j]) * (Count(LayerInputs(numInputs, sizes, j)) + 1)
    ensures MlpLeavesBuilt(base, numInputs, sizes, inits, j + 1, nodes')
  {
    MlpLeavesSnoc(inits, j);
    MlpCountSnoc(numInputs, sizes, j);
  }

  lemma MlpLayersBuiltStep(lo: nat, numInputs: int, sizes: seq<int>, j: nat, layers: seq<Layer>, layer: Layer)
    requires MlpLayersBuilt(lo, numInputs, sizes, j, layers) && j < |sizes|
    requires |layer.neurons| == Count(sizes[j])
    requires forall k :: 0 <= k < |layer.neurons| ==>
      |layer.neurons[k].weights| == Count(LayerInputs(numInputs, sizes, j))
    requires LayerParams(layer.neurons)
      == Range(lo + MlpCount(numInputs, sizes[..j]), Count(sizes[j]) * (Count(LayerInputs(numInputs, sizes, j)) + 1))
    ensures MlpLayersBuilt(lo, numInputs, sizes, j + 1, layers + [layer])
  {
    MlpCountSnoc(numInputs, sizes, j);
    RangeAppend(lo, MlpCount(numInputs, sizes[..j]), Count(sizes[j]) * (Count(LayerInputs(numInputs, sizes, j)) + 1));
    MlpParamsSnoc(layers, layer);
  }

  lemma MlpBuiltDone(base: seq<Node>, numInputs: int, sizes: seq<int>, inits: seq<seq<NeuronInit>>,
                     nodes: seq<Node>, layers: seq<Layer>)
    requires MlpLeavesBuilt(base, numInputs, sizes, inits, |sizes|, nodes)
    requires MlpLayersBuilt(|base|, numInputs, sizes, |sizes|, layers)
    ensures nodes == base + MlpLeaves(inits)
    ensures MlpParams(layers) == Range(|base|, MlpCount(numInputs, sizes))
    ensures |nodes| == |base| + MlpCount(numInputs, sizes)
  {
    assert inits[..|inits|] == inits;
    assert sizes[..|sizes|] == sizes;
  }

  /**
   * `MultiLayerPerceptron::new(num_inputs, sizes)`: layer `j` gets `sizes[j]` neurons
   * and, as its input size, `num_inputs` for the first layer and the previous layer's
   * output size after that.
   */
  method MlpNew(arena: Arena, numInputs: int, sizes: seq<int>, inits: seq<seq<NeuronInit>>)
    returns (m: Mlp)
    requires WellFormed(arena.nodes) && |inits| == |sizes|
    requires forall j :: 0 <= j < |sizes| ==> |inits[j]| == Count(sizes[j])
    requires forall j, k :: 0 <= j < |sizes| && 0 <= k < |inits[j]| ==>
      |inits[j][k].weights| == Count(LayerInputs(numInputs, sizes, j))
    modifies arena
    ensures WellFormed(arena.nodes) && arena.nodes == old(arena.nodes) + MlpLeaves(inits)
    ensures |m.layers| == |sizes|
    ensures forall j :: 0 <= j < |sizes| ==> |m.layers[j].neurons| == Count(sizes[j])
    ensures forall j, k :: 0 <= j < |sizes| && 0 <= k < |m.layers[j].neurons| ==>
      |m.layers[j].neurons[k].weights| == Count(LayerInputs(numInputs, sizes, j))
    ensures MlpParams(m.layers) == Range(|old(arena.nodes)|, MlpCount(numInputs, sizes))
    ensures |arena.nodes| == |old(arena.nodes)| + MlpCount(numInputs, sizes)
    ensures MlpIn(m.layers, |arena.nodes|) && Chained(m.layers, Count(numInputs))
  {
    ghost var base := arena.nodes;
    var inputs := numInputs;
    var layers: seq<Layer> := [];
    for j := 0 to |sizes|
      invariant inputs == LayerInputs(numInputs, sizes, j)
      invariant WellFormed(arena.nodes) && MlpLeavesBuilt(base, numInputs, sizes, inits, j, arena.nodes)
      invariant MlpLayersBuilt(|base|, numInputs, sizes, j, layers)
    {
      ghost var before := arena.nodes;
      var layer := LayerNew(arena, inputs, sizes[j], inits[j]);
      MlpLeavesBuiltStep(base, numInputs, sizes, inits, j, before, arena.nodes);
      MlpLayersBuiltStep(|base|, numInputs, sizes, j, layers, layer);
      layers := layers + [layer];
      inputs := sizes[j];
    }
    MlpBuiltDone(base, numInputs, sizes, inits, arena.nodes, layers);
    RangeBelow(|base|, MlpCount(numInputs, sizes));
    MlpParamsIn(layers, |arena.nodes|);
    MlpShapeChained(numInputs, sizes, layers);
    m := Mlp(layers);
  }

  // ---------------------------------------------------------------------------
  // forward()

  /** Every handle in `s` names a node of an arena of `bound` nodes. */
  predicate Below(s: seq<Scalar>, bound: nat) {
    forall k :: 0 <= k < |s| ==> s[k] < bound
  }

  predicate NeuronIn(n: Neuron, bound: nat) {
    n.bias < bound && Below(n.weights, bound)
  }

  predicate LayerIn(neurons: seq<Neuron>, bound: nat) {
    forall k :: 0 <= k < |neurons| ==> NeuronIn(neurons[k], bound)
  }

  predicate MlpIn(layers: seq<Layer>, bound: nat) {
    forall j :: 0 <= j < |layers| ==> LayerIn(layers[j].neurons, bound)
  }

  /** Every neuron takes `n` inputs. */
  predicate Fits(neurons: seq<Neuron>, n: nat) {
    forall k :: 0 <= k < |neurons| ==> |neurons[k].weights| == n
  }

  /** Layer `j` takes as many inputs as layer `j - 1` has neurons; the first takes `n`. */
  predicate Chained(layers: seq<Layer>, n: nat) {
    (|layers| > 0 ==> Fits(layers[0].neurons, n)) &&
    forall j :: 1 <= j < |layers| ==> Fits(layers[j].neurons, |layers[j - 1].neurons|)
  }

  lemma BelowAppend(s: seq<Scalar>, t: seq<Scalar>, bound: nat)
    ensures Below(s + t, bound) <==> Below(s, bound) && Below(t, bound)
  {
    assert forall k :: 0 <= k < |s| ==> s[k] == (s + t)[k];
    assert forall k :: 0 <= k < |t| ==> t[k] == (s + t)[|s| + k];
  }

  lemma NeuronParamsIn(n: Neuron, bound: nat)
    ensures Below(NeuronParams(n), bound) <==> NeuronIn(n, bound)
  {
    BelowAppend(n.weights, [n.bias], bound);
    assert [n.bias][0] == n.bias;
  }

  lemma LayerInSnoc(neurons: seq<Neuron>, n: Neuron, bound: nat)
    ensures LayerIn(neurons + [n], bound) <==> LayerIn(neurons, bound) && NeuronIn(n, bound)
  {
    assert forall k :: 0 <= k < |neurons| ==> (neurons + [n])[k] == neurons[k];
    assert (neurons + [n])[|neurons|] == n;
  }

  lemma MlpInSnoc(layers: seq<Layer>, l: Layer, bound: nat)
    ensures MlpIn(layers + [l], bound) <==> MlpIn(layers, bound) && LayerIn(l.neurons, bound)
  {
    assert forall j :: 0 <= j < |layers| ==> (layers + [l])[j] == layers[j];
    assert (layers + [l])[|layers|] == l;
  }

  /** A layer's neurons are in the arena exactly when all its parameters name nodes of it. */
  lemma {:induction false} LayerParamsIn(neurons: seq<Neuron>, bound: nat)
    ensures Below(LayerParams(neurons), bound) <==> LayerIn(neurons, bound)
    decreases |neurons|
  {
    if neurons != [] {
      var front, last := neurons[..|neurons| - 1], neurons[|neurons| - 1];
      LayerParamsIn(front, bound);
      BelowAppend(LayerParams(front), NeuronParams(last), bound);
      NeuronParamsIn(last, bound);
      LayerInSnoc(front, last, bound);
      assert neurons == front + [last];
    }
  }

  /** A perceptron's layers are in the arena exactly when all its parameters name nodes of it. */
  lemma {:induction false} MlpParamsIn(layers: seq<Layer>, bound: nat)
    ensures Below(MlpParams(layers), bound) <==> MlpIn(layers, bound)
    decreases |layers|
  {
    if layers != [] {
      var front, last := layers[..|layers| - 1], layers[|layers| - 1];
      MlpParamsIn(front, bound);
      BelowAppend(MlpParams(front), LayerParams(last.neurons), bound);
      LayerParamsIn(last.neurons, bound);
      MlpInSnoc(front, last, bound);
      assert layers == front + [last];
    }
  }

  /** Layer sizes chosen as `MultiLayerPerceptron::new` chooses them chain up. */
  lemma MlpShapeChained(numInputs: int, sizes: seq<int>, layers: seq<Layer>)
    requires |layers| == |sizes|
    requires forall j :: 0 <= j < |sizes| ==> |layers[j].neurons| == Count(sizes[j])
    requires forall j, k :: 0 <= j < |sizes| && 0 <= k < |layers[j].neurons| ==>
      |layers[j].neurons[k].weights| == Count(LayerInputs(numInputs, sizes, j))
    ensures Chained(layers, Count(numInputs))
  {
    forall j | 1 <= j < |layers|
      ensures Fits(layers[j].neurons, |layers[j - 1].neurons|)
    {
      assert LayerInputs(numInputs, sizes, j) == sizes[j - 1];
    }
  }

  /** The data of the nodes `s` names. */
  function Values(ns: seq<Node>, s: seq<Scalar>): (r: seq<real>)
    requires Below(s, |ns|)
    ensures |r| == |s|
    decreases |s|
  {
    if s == [] then [] else [ns[s[0]].data] + Values(ns, s[1..])
  }

  lemma {:induction false} ValuesAt(ns: seq<Node>, s: seq<Scalar>, k: nat)
    requires Below(s, |ns|) && k < |s|
    ensures Values(ns, s)[k] == ns[s[k]].data
    decreases |s|
  {
    if k > 0 {
      ValuesAt(ns, s[1..], k - 1);
    }
  }

  /** Appending nodes does not change the data of the nodes already there. */
  lemma {:induction false} ValuesPrefix(ns: seq<Node>, ms: seq<Node>, s: seq<Scalar>)
    requires Below(s, |ns|) && |ns| <= |ms| && ms[..|ns|] == ns
    ensures Values(ms, s) == Values(ns, s)
    decreases |s|
  {
    if s != [] {
      ValuesPrefix(ns, ms, s[1..]);
      assert ms[s[0]] == ms[..|ns|][s[0]];
    }
  }

  /**
   * `bias + x0 * w0 + x1 * w1 + …`, added left to right from the bias as the loop of
   * `Neuron::forward` adds.
   */
  function Fold(acc: real, xs: seq<real>, ws: seq<real>): real
    requires |xs| == |ws|
    decreases |xs|
  {
    if xs == [] then acc else Fold(acc + xs[0] * ws[0], xs[1..], ws[1..])
  }

  lemma FoldShift(acc: real, acc': real, x: real, w: real, xs: seq<real>, ws: seq<real>)
    requires |xs| == |ws| > 0 && xs[0] == x && ws[0] == w && acc' == acc + x * w
    ensures Fold(acc, xs, ws) == Fold(acc', xs[1..], ws[1..])
  {
  }

  /** The dot product, summed from the right. */
  function Dot(xs: seq<real>, ws: seq<real>): real
    requires |xs| == |ws|
    decreases |xs|
  {
    if xs == [] then 0.0 else xs[0] * ws[0] + Dot(xs[1..], ws[1..])
  }

  /** Over exact arithmetic the loop computes the bias plus the dot product. */
  lemma {:induction false} FoldIsDot(acc: real, xs: seq<real>, ws: seq<real>)
    requires |xs| == |ws|
    ensures Fold(acc, xs, ws) == acc + Dot(xs, ws)
    decreases |xs|
  {
    if xs != [] {
      FoldIsDot(acc + xs[0] * ws[0], xs[1..], ws[1..]);
    }
  }

  /** The value a neuron computes from input values `xs`: `tanh(bias + Σ x_i * w_i)`. */
  function NeuronValue(fl: Floats, ns: seq<Node>, n: Neuron, xs: seq<real>): real
    requires NeuronIn(n, |ns|) && |xs| == |n.weights|
  {
    fl.tanh(Fold(ns[n.bias].data, xs, Values(ns, n.weights)))
  }

  /** The values a layer computes: one per neuron, in neuron order. */
  function LayerValues(fl: Floats, ns: seq<Node>, neurons: seq<Neuron>, xs: seq<real>): (r: seq<real>)
    requires LayerIn(neurons, |ns|) && Fits(neurons, |xs|)
    ensures |r| == |neurons|
    decreases |neurons|
  {
    if neurons == [] then []
    else [NeuronValue(fl, ns, neurons[0], xs)] + LayerValues(fl, ns, neurons[1..], xs)
  }

  /** The values a perceptron computes: each layer feeds the next. */
  function MlpValues(fl: Floats, ns: seq<Node>, layers: seq<Layer>, xs: seq<real>): (r: seq<real>)
    requires MlpIn(layers, |ns|) && Chained(layers, |xs|)
    ensures |r| == if layers == [] then |xs| else |layers[|layers| - 1].neurons|
    decreases |layers|
  {
    if layers == [] then xs
    else
      assert LayerIn(layers[0].neurons, |ns|);
      assert Chained(layers[1..], |layers[0].neurons|) by {
        assert forall j :: 1 <= j < |layers| ==> layers[1..][j - 1] == layers[j];
      }
      MlpValues(fl, ns, layers[1..], LayerValues(fl, ns, layers[0].neurons, xs))
  }

  /** One pass of the loop of `Neuron::forward`: `input * weight`, then `sum + product`. */
  function Step(ns: seq<Node>, sum: Scalar, x: Scalar, w: Scalar): (r: seq<Node>)
    requires sum < |ns| && x < |ns| && w < |ns|
    ensures |r| == |ns| + 2
  {
    var ns1 := ns + [MulNode(ns, x, w)];
    ns1 + [AddNode(ns1, sum, |ns|)]
  }

  /** A pass appends a sum holding the old sum plus the product of the pair's data. */
  lemma StepData(ns: seq<Node>, sum: Scalar, x: Scalar, w: Scalar)
    requires sum < |ns| && x < |ns| && w < |ns|
    ensures Step(ns, sum, x, w)[..|ns|] == ns
    ensures Step(ns, sum, x, w)[|ns| + 1].data == ns[sum].data + ns[x].data * ns[w].data
  {
    assert Step(ns, sum, x, w)[..|ns|] == (ns + [MulNode(ns, x, w)])[..|ns|];
  }

  /**
   * The arena and the running sum once the loop of `Neuron::forward` has consumed the
   * inputs `xs` and weights `ws`, starting from the sum `acc`.
   */
  function Chain(ns: seq<Node>, acc: Scalar, xs: seq<Scalar>, ws: seq<Scalar>): (r: (seq<Node>, Scalar))
    requires acc < |ns| && |xs| == |ws| && Below(xs, |ns|) && Below(ws, |ns|)
    ensures |r.0| == |ns| + 2 * |xs| && r.1 < |r.0|
    decreases |xs|
  {
    if xs == [] then (ns, acc)
    else Chain(Step(ns, acc, xs[0], ws[0]), |ns| + 1, xs[1..], ws[1..])
  }

  /** `Chain` only appends. */
  lemma {:induction false} ChainPrefix(ns: seq<Node>, acc: Scalar, xs: seq<Scalar>, ws: seq<Scalar>)
    requires acc < |ns| && |xs| == |ws| && Below(xs, |ns|) && Below(ws, |ns|)
    ensures Chain(ns, acc, xs, ws).0[..|ns|] == ns
    decreases |xs|
  {
    if xs != [] {
      var ns2 := Step(ns, acc, xs[0], ws[0]);
      StepData(ns, acc, xs[0], ws[0]);
      ChainPrefix(ns2, |ns| + 1, xs[1..], ws[1..]);
      var r := Chain(ns2, |ns| + 1, xs[1..], ws[1..]).0;
      assert r[..|ns|] == r[..|ns2|][..|ns|];
    }
  }

  lemma ValuesCons(ns: seq<Node>, s: seq<Scalar>)
    requires Below(s, |ns|) && s != []
    ensures Values(ns, s)[0] == ns[s[0]].data && Values(ns, s)[1..] == Values(ns, s[1..])
  {
    assert ([ns[s[0]].data] + Values(ns, s[1..]))[1..] == Values(ns, s[1..]);
  }

  /** The sum `Chain` leaves holds the fold of the products over the current data. */
  lemma {:induction false} ChainData(ns: seq<Node>, acc: Scalar, xs: seq<Scalar>, ws: seq<Scalar>)
    requires acc < |ns| && |xs| == |ws| && Below(xs, |ns|) && Below(ws, |ns|)
    ensures Chain(ns, acc, xs, ws).0[Chain(ns, acc, xs, ws).1].data
      == Fold(ns[acc].data, Values(ns, xs), Values(ns, ws))
    decreases |xs|
  {
    if xs != [] {
      var ns2 := Step(ns, acc, xs[0], ws[0]);
      var xs', ws' := xs[1..], ws[1..];
      assert Below(xs', |ns|) && Below(ws', |ns|);
      StepData(ns, acc, xs[0], ws[0]);
      ChainData(ns2, |ns| + 1, xs', ws');
      ValuesPrefix(ns, ns2, xs');
      ValuesPrefix(ns, ns2, ws');
      ValuesCons(ns, xs);
      ValuesCons(ns, ws);
      FoldShift(ns[acc].data, ns2[|ns| + 1].data, ns[xs[0]].data, ns[ws[0]].data, Values(ns, xs), Values(ns, ws));
    }
  }

  /** `Neuron::forward` on matching inputs: the chain of sums, then `tanh`. */
  function NeuronGraph(fl: Floats, ns: seq<Node>, n: Neuron, xs: seq<Scalar>): (r: (seq<Node>, Scalar))
    requires NeuronIn(n, |ns|) && Below(xs, |ns|) && |xs| == |n.weights|
    ensures |r.0| == |ns| + 2 * |xs| + 1 && r.1 == |r.0| - 1
  {
    var c := Chain(ns, n.bias, xs, n.weights);
    (c.0 + [TanhNode(fl, c.0, c.1)], |c.0|)
  }

  /** The output node of `Neuron::forward` holds the neuron's value on the inputs' data. */
  lemma NeuronGraphValue(fl: Floats, ns: seq<Node>, n: Neuron, xs: seq<Scalar>)
    requires NeuronIn(n, |ns|) && Below(xs, |ns|) && |xs| == |n.weights|
    ensures NeuronGraph(fl, ns, n, xs).0[NeuronGraph(fl, ns, n, xs).1].data
      == NeuronValue(fl, ns, n, Values(ns, xs))
  {
    ChainData(ns, n.bias, xs, n.weights);
  }

  /** `Neuron::forward` only appends. */
  lemma NeuronGraphPrefix(fl: Floats, ns: seq<Node>, n: Neuron, xs: seq<Scalar>)
    requires NeuronIn(n, |ns|) && Below(xs, |ns|) && |xs| == |n.weights|
    ensures NeuronGraph(fl, ns, n, xs).0[..|ns|] == ns
  {
    ChainPrefix(ns, n.bias, xs, n.weights);
    var c := Chain(ns, n.bias, xs, n.weights).0;
    assert (c + [TanhNode(fl, c, Chain(ns, n.bias, xs, n.weights).1)])[..|ns|] == c[..|ns|];
  }

  /** Loop state of `NeuronForward` after `i` pairs: what is left to do yields `target`. */
  ghost predicate Summing(ns: seq<Node>, sum: Scalar, xs: seq<Scalar>, ws: seq<Scalar>, i: nat,
                          target: (seq<Node>, Scalar))
  {
    i <= |xs| == |ws| && sum < |ns| && Below(xs, |ns|) && Below(ws, |ns|) &&
    Chain(ns, sum, xs[i..], ws[i..]) == target
  }

  lemma SummingStep(ns: seq<Node>, sum: Scalar, xs: seq<Scalar>, ws: seq<Scalar>, i: nat,
                    target: (seq<Node>, Scalar), ns1: seq<Node>, ns2: seq<Node>)
    requires Summing(ns, sum, xs, ws, i, target) && i < |xs|
    requires ns1 == ns + [MulNode(ns, xs[i], ws[i])] && ns2 == ns1 + [AddNode(ns1, sum, |ns|)]
    ensures Summing(ns2, |ns| + 1, xs, ws, i + 1, target)
  {
    assert ns2 == Step(ns, sum, xs[i], ws[i]);
    assert xs[i..][1..] == xs[i + 1..] && ws[i..][1..] == ws[i + 1..];
  }

  /** The loop of `Neuron::forward`: `sum = sum + input * weight` over the pairs, from the bias. */
  method WeightedSum(arena: Arena, bias: Scalar, inputs: seq<Scalar>, weights: seq<Scalar>) returns (sum: Scalar)
    requires WellFormed(arena.nodes) && bias < |arena.nodes| && |inputs| == |weights|
    requires Below(inputs, |arena.nodes|) && Below(weights, |arena.nodes|)
    modifies arena
    ensures WellFormed(arena.nodes) && (arena.nodes, sum) == Chain(old(arena.nodes), bias, inputs, weights)
  {
    ghost var target := Chain(arena.nodes, bias, inputs, weights);
    sum := bias;
    for i := 0 to |inputs|
      invariant WellFormed(arena.nodes) && Summing(arena.nodes, sum, inputs, weights, i, target)
    {
      ghost var ns := arena.nodes;
      var product := arena.Mul(inputs[i], weights[i]);
      ghost var ns1 := arena.nodes;
      var next := arena.Add(sum, product);
      SummingStep(ns, sum, inputs, weights, i, target, ns1, arena.nodes);
      sum := next;
    }
  }

  /**
   * `Neuron::forward`: with as many inputs as weights, builds
   * `tanh(bias + x0 * w0 + x1 * w1 + …)`; otherwise an error naming both counts,
   * before any node is allocated.
   */
  method NeuronForward(arena: Arena, n: Neuron, inputs: seq<Scalar>) returns (r: Result<Scalar>)
    requires WellFormed(arena.nodes) && NeuronIn(n, |arena.nodes|) && Below(inputs, |arena.nodes|)
    modifies arena
    ensures WellFormed(arena.nodes)
    ensures |inputs| != |n.weights| ==>
      r == Err("Expected " + NatToString(|n.weights|) + " inputs, not " + NatToString(|inputs|)) &&
      arena.nodes == old(arena.nodes)
    ensures |inputs| == |n.weights| ==>
      r.Ok? && (arena.nodes, r.value) == NeuronGraph(arena.fl, old(arena.nodes), n, inputs) &&
      arena.nodes[r.value].data == NeuronValue(arena.fl, old(arena.nodes), n, Values(old(arena.nodes), inputs))
  {
    if |inputs| != |n.weights| {
      return Err("Expected " + NatToString(|n.weights|) + " inputs, not " + NatToString(|inputs|));
    }
    NeuronGraphValue(arena.fl, arena.nodes, n, inputs);
    var sum := WeightedSum(arena, n.bias, inputs, n.weights);
    var out := arena.Tanh(sum);
    r := Ok(out);
  }

  // ---------------------------------------------------------------------------
  // forward_with_numbers(): the inputs become fresh unlabelled leaves first

  /** The leaves made for the input values, in order. */
  function InputLeaves(values: seq<real>): (r: seq<Node>)
    ensures |r| == |values|
    decreases |values|
  {
    if values == [] then []
    else InputLeaves(values[..|values| - 1]) + [LeafNode(values[|values| - 1], "")]
  }

  lemma {:induction false} ValuesSnoc(ns: seq<Node>, s: seq<Scalar>, x: Scalar)
    requires Below(s, |ns|) && x < |ns|
    ensures Below(s + [x], |ns|) && Values(ns, s + [x]) == Values(ns, s) + [ns[x].data]
    decreases |s|
  {
    if s != [] {
      ValuesSnoc(ns, s[1..], x);
      assert (s + [x])[1..] == s[1..] + [x];
    }
  }

  /** A fresh leaf for `v`, handed out as the next handle, extends the input values by `v`. */
  lemma InputStep(ns: seq<Node>, xs: seq<Scalar>, vs: seq<real>, v: real)
    requires Below(xs, |ns|) && Values(ns, xs) == vs
    ensures Below(xs + [|ns|], |ns| + 1) && Values(ns + [LeafNode(v, "")], xs + [|ns|]) == vs + [v]
  {
    var ms := ns + [LeafNode(v, "")];
    assert ms[..|ns|] == ns;
    ValuesPrefix(ns, ms, xs);
    ValuesSnoc(ms, xs, |ns|);
  }

  lemma InputLeavesStep(base: seq<Node>, values: seq<real>, i: nat, nodes: seq<Node>)
    requires i < |values| && nodes == base + InputLeaves(values[..i])
    ensures |nodes| == |base| + i
    ensures nodes + [LeafNode(values[i], "")] == base + InputLeaves(values[..i + 1])
  {
    assert values[..i + 1][..i] == values[..i];
  }

  /** `inputs.iter().map(|i| Scalar::new(i.clone())).collect()`. */
  method NewInputs(arena: Arena, values: seq<real>) returns (xs: seq<Scalar>)
    requires WellFormed(arena.nodes)
    modifies arena
    ensures WellFormed(arena.nodes) && arena.nodes == old(arena.nodes) + InputLeaves(values)
    ensures arena.nodes[..|old(arena.nodes)|] == old(arena.nodes)
    ensures xs == Range(|old(arena.nodes)|, |values|) && Below(xs, |arena.nodes|)
    ensures Values(arena.nodes, xs) == values
  {
    ghost var base := arena.nodes;
    xs := [];
    for i := 0 to |values|
      invariant WellFormed(arena.nodes) && arena.nodes == base + InputLeaves(values[..i])
      invariant xs == Range(|base|, i) && Below(xs, |arena.nodes|) && Values(arena.nodes, xs) == values[..i]
    {
      InputLeavesStep(base, values, i, arena.nodes);
      RangeSnoc(|base|, i);
      InputStep(arena.nodes, xs, values[..i], values[i]);
      assert values[..i + 1] == values[..i] + [values[i]];
      var x := arena.New(values[i]);
      xs := xs + [x];
    }
    assert values[..|values|] == values;
    assert arena.nodes[..|base|] == base;
  }

  /** Appending nodes keeps a neuron's value: it reads only the bias and weights. */
  lemma NeuronValuePrefix(fl: Floats, ns: seq<Node>, ms: seq<Node>, n: Neuron, xs: seq<real>)
    requires NeuronIn(n, |ns|) && |xs| == |n.weights| && |ns| <= |ms| && ms[..|ns|] == ns
    ensures NeuronIn(n, |ms|) && NeuronValue(fl, ms, n, xs) == NeuronValue(fl, ns, n, xs)
  {
    ValuesPrefix(ns, ms, n.weights);
    assert ms[n.bias] == ms[..|ns|][n.bias];
  }

  /**
   * `Neuron::forward_with_numbers`: the inputs become leaves first, so even a call that
   * fails on the input count leaves them in the arena.
   */
  method NeuronForwardWithNumbers(arena: Arena, n: Neuron, values: seq<real>) returns (r: Result<Scalar>)
    requires WellFormed(arena.nodes) && NeuronIn(n, |arena.nodes|)
    modifies arena
    ensures WellFormed(arena.nodes)
    ensures |values| != |n.weights| ==>
      r == Err("Expected " + NatToString(|n.weights|) + " inputs, not " + NatToString(|values|)) &&
      arena.nodes == old(arena.nodes) + InputLeaves(values)
    ensures |values| == |n.weights| ==>
      r.Ok? && Below(Range(|old(arena.nodes)|, |values|), |old(arena.nodes)| + |values|) &&
      (arena.nodes, r.value) ==
        NeuronGraph(arena.fl, old(arena.nodes) + InputLeaves(values), n, Range(|old(arena.nodes)|, |values|)) &&
      arena.nodes[r.value].data == NeuronValue(arena.fl, old(arena.nodes), n, values)
  {
    ghost var base := arena.nodes;
    var xs := NewInputs(arena, values);
    if |values| == |n.weights| {
      NeuronValuePrefix(arena.fl, base, arena.nodes, n, values);
    }
    r := NeuronForward(arena, n, xs);
  }

  // ---------------------------------------------------------------------------
  // Layer::forward

  /** `Layer::forward` on fitting inputs: each neuron's forward pass, in neuron order. */
  function LayerGraph(fl: Floats, ns: seq<Node>, neurons: seq<Neuron>, xs: seq<Scalar>): (r: (seq<Node>, seq<Scalar>))
    requires LayerIn(neurons, |ns|) && Below(xs, |ns|) && Fits(neurons, |xs|)
    ensures |ns| <= |r.0| && |r.1| == |neurons| && Below(r.1, |r.0|)
    decreases |neurons|
  {
    if neurons == [] then (ns, [])
    else
      var g := NeuronGraph(fl, ns, neurons[0], xs);
      var rest := LayerGraph(fl, g.0, neurons[1..], xs);
      (rest.0, [g.1] + rest.1)
  }

  lemma {:induction false} LayerGraphPrefix(fl: Floats, ns: seq<Node>, neurons: seq<Neuron>, xs: seq<Scalar>)
    requires LayerIn(neurons, |ns|) && Below(xs, |ns|) && Fits(neurons, |xs|)
    ensures LayerGraph(fl, ns, neurons, xs).0[..|ns|] == ns
    decreases |neurons|
  {
    if neurons != [] {
      var g := NeuronGraph(fl, ns, neurons[0], xs);
      NeuronGraphPrefix(fl, ns, neurons[0], xs);
      LayerGraphPrefix(fl, g.0, neurons[1..], xs);
      var r := LayerGraph(fl, g.0, neurons[1..], xs).0;
      assert r[..|ns|] == r[..|g.0|][..|ns|];
    }
  }

  /** Appending nodes keeps the values of a layer. */
  lemma {:induction false} LayerValuesPrefix(fl: Floats, ns: seq<Node>, ms: seq<Node>, neurons: seq<Neuron>, xs: seq<real>)
    requires LayerIn(neurons, |ns|) && Fits(neurons, |xs|) && |ns| <= |ms| && ms[..|ns|] == ns
    ensures LayerIn(neurons, |ms|) && LayerValues(fl, ms, neurons, xs) == LayerValues(fl, ns, neurons, xs)
    decreases |neurons|
  {
    if neurons != [] {
      NeuronValuePrefix(fl, ns, ms, neurons[0], xs);
      LayerValuesPrefix(fl, ns, ms, neurons[1..], xs);
    }
  }

  /** The outputs of `Layer::forward` hold the layer's values on the inputs' data. */
  lemma {:induction false} LayerGraphValues(fl: Floats, ns: seq<Node>, neurons: seq<Neuron>, xs: seq<Scalar>)
    requires LayerIn(neurons, |ns|) && Below(xs, |ns|) && Fits(neurons, |xs|)
    ensures Values(LayerGraph(fl, ns, neurons, xs).0, LayerGraph(fl, ns, neurons, xs).1)
      == LayerValues(fl, ns, neurons, Values(ns, xs))
    decreases |neurons|
  {
    if neurons != [] {
      var g := NeuronGraph(fl, ns, neurons[0], xs);
      var rest := LayerGraph(fl, g.0, neurons[1..], xs);
      var vs := Values(ns, xs);
      NeuronGraphPrefix(fl, ns, neurons[0], xs);
      NeuronGraphValue(fl, ns, neurons[0], xs);
      LayerGraphValues(fl, g.0, neurons[1..], xs);
      LayerGraphPrefix(fl, g.0, neurons[1..], xs);
      ValuesPrefix(ns, g.0, xs);
      LayerValuesPrefix(fl, ns, g.0, neurons[1..], vs);
      assert rest.0[g.1] == rest.0[..|g.0|][g.1];
      assert ([g.1] + rest.1)[1..] == rest.1;
    }
  }

  /** Loop state of `LayerForward` after `k` neurons: what is left to do yields `target`. */
  ghost predicate Layering(fl: Floats, ns: seq<Node>, neurons: seq<Neuron>, xs: seq<Scalar>, k: nat,
                           outs: seq<Scalar>, target: (seq<Node>, seq<Scalar>))
  {
    k <= |neurons| && LayerIn(neurons, |ns|) && Below(xs, |ns|) && Fits(neurons, |xs|) &&
    LayerGraph(fl, ns, neurons[k..], xs).0 == target.0 &&
    outs + LayerGraph(fl, ns, neurons[k..], xs).1 == target.1
  }

  lemma LayeringStep(fl: Floats, ns: seq<Node>, neurons: seq<Neuron>, xs: seq<Scalar>, k: nat,
                     outs: seq<Scalar>, target: (seq<Node>, seq<Scalar>), ms: seq<Node>, out: Scalar)
    requires Layering(fl, ns, neurons, xs, k, outs, target) && k < |neurons|
    requires (ms, out) == NeuronGraph(fl, ns, neurons[k], xs)
    ensures Layering(fl, ms, neurons, xs, k + 1, outs + [out], target)
  {
    assert neurons[k..][0] == neurons[k] && neurons[k..][1..] == neurons[k + 1..];
    assert outs + [out] + LayerGraph(fl, ms, neurons[k + 1..], xs).1
      == outs + ([out] + LayerGraph(fl, ms, neurons[k + 1..], xs).1);
  }

  lemma LayeringDone(fl: Floats, ns: seq<Node>, neurons: seq<Neuron>, xs: seq<Scalar>,
                     outs: seq<Scalar>, target: (seq<Node>, seq<Scalar>))
    requires Layering(fl, ns, neurons, xs, |neurons|, outs, target)
    ensures (ns, outs) == target
  {
    assert neurons[|neurons|..] == [];
    assert outs + [] == outs;
  }

  /**
   * `Layer::forward`: every neuron's forward pass on the same inputs, one output per
   * neuron in neuron order. A neuron whose weight count differs from the input count
   * makes the original panic, so fitting inputs are required.
   */
  method LayerForward(arena: Arena, l: Layer, inputs: seq<Scalar>) returns (outs: seq<Scalar>)
    requires WellFormed(arena.nodes) && LayerIn(l.neurons, |arena.nodes|) && Below(inputs, |arena.nodes|)
    requires Fits(l.neurons, |inputs|)
    modifies arena
    ensures WellFormed(arena.nodes) && (arena.nodes, outs) == LayerGraph(arena.fl, old(arena.nodes), l.neurons, inputs)
    ensures |outs| == |l.neurons| && Below(outs, |arena.nodes|) && arena.nodes[..|old(arena.nodes)|] == old(arena.nodes)
    ensures Values(arena.nodes, outs) == LayerValues(arena.fl, old(arena.nodes), l.neurons, Values(old(arena.nodes), inputs))
  {
    LayerGraphPrefix(arena.fl, arena.nodes, l.neurons, inputs);
    LayerGraphValues(arena.fl, arena.nodes, l.neurons, inputs);
    ghost var target := LayerGraph(arena.fl, arena.nodes, l.neurons, inputs);
    outs := [];
    for k := 0 to |l.neurons|
      invariant WellFormed(arena.nodes) && Layering(arena.fl, arena.nodes, l.neurons, inputs, k, outs, target)
    {
      ghost var before := arena.nodes;
      var r := NeuronForward(arena, l.neurons[k], inputs);
      LayeringStep(arena.fl, before, l.neurons, inputs, k, outs, target, arena.nodes, r.value);
      outs := outs + [r.value];
    }
    LayeringDone(arena.fl, arena.nodes, l.neurons, inputs, outs, target);
  }

  /** `Layer::forward_with_numbers`: fresh leaves for the input values, then `forward`. */
  method LayerForwardWithNumbers(arena: Arena, l: Layer, values: seq<real>) returns (outs: seq<Scalar>)
    requires WellFormed(arena.nodes) && LayerIn(l.neurons, |arena.nodes|) && Fits(l.neurons, |values|)
    modifies arena
    ensures WellFormed(arena.nodes) && Below(Range(|old(arena.nodes)|, |values|), |old(arena.nodes)| + |values|)
    ensures (arena.nodes, outs) ==
      LayerGraph(arena.fl, old(arena.nodes) + InputLeaves(values), l.neurons, Range(|old(arena.nodes)|, |values|))
    ensures |outs| == |l.neurons| && Below(outs, |arena.nodes|) && arena.nodes[..|old(arena.nodes)|] == old(arena.nodes)
    ensures Values(arena.nodes, outs) == LayerValues(arena.fl, old(arena.nodes), l.neurons, values)
  {
    ghost var base := arena.nodes;
    var xs := NewInputs(arena, values);
    LayerValuesPrefix(arena.fl, base, arena.nodes, l.neurons, values);
    ghost var mid := arena.nodes;
    outs := LayerForward(arena, l, xs);
    assert arena.nodes[..|base|] == arena.nodes[..|mid|][..|base|];
  }

  // ---------------------------------------------------------------------------
  // MultiLayerPerceptron::forward

  lemma MlpInGrows(layers: seq<Layer>, a: nat, b: nat)
    requires MlpIn(layers, a) && a <= b
    ensures MlpIn(layers, b)
  {
    forall j, k | 0 <= j < |layers| && 0 <= k < |layers[j].neurons|
      ensures NeuronIn(layers[j].neurons[k], b)
    {
      assert LayerIn(layers[j].neurons, a);
      assert NeuronIn(layers[j].neurons[k], a);
    }
  }

  lemma MlpInDrop(layers: seq<Layer>, j: nat, bound: nat)
    requires MlpIn(layers, bound) && j <= |layers|
    ensures MlpIn(layers[j..], bound)
  {
    assert forall i :: 0 <= i < |layers| - j ==> layers[j..][i] == layers[j + i];
  }

  lemma ChainedDrop(layers: seq<Layer>, n: nat, j: nat)
    requires Chained(layers, n) && 1 <= j <= |layers|
    ensures Chained(layers[j..], |layers[j - 1].neurons|)
  {
    assert forall i :: 0 <= i < |layers| - j ==> layers[j..][i] == layers[j + i];
  }

  /** `MultiLayerPerceptron::forward` from the handles `hidden`: each layer feeds the next. */
  function MlpGraph(fl: Floats, ns: seq<Node>, layers: seq<Layer>, hidden: seq<Scalar>): (r: (seq<Node>, seq<Scalar>))
    requires MlpIn(layers, |ns|) && Below(hidden, |ns|) && Chained(layers, |hidden|)
    ensures |ns| <= |r.0| && Below(r.1, |r.0|)
    ensures |r.1| == if layers == [] then |hidden| else |layers[|layers| - 1].neurons|
    decreases |layers|
  {
    if layers == [] then (ns, hidden)
    else
      var g := LayerGraph(fl, ns, layers[0].neurons, hidden);
      MlpInGrows(layers, |ns|, |g.0|);
      MlpInDrop(layers, 1, |g.0|);
      ChainedDrop(layers, |hidden|, 1);
      MlpGraph(fl, g.0, layers[1..], g.1)
  }

  lemma {:induction false} MlpGraphPrefix(fl: Floats, ns: seq<Node>, layers: seq<Layer>, hidden: seq<Scalar>)
    requires MlpIn(layers, |ns|) && Below(hidden, |ns|) && Chained(layers, |hidden|)
    ensures MlpGraph(fl, ns, layers, hidden).0[..|ns|] == ns
    decreases |layers|
  {
    if layers != [] {
      var g := LayerGraph(fl, ns, layers[0].neurons, hidden);
      LayerGraphPrefix(fl, ns, layers[0].neurons, hidden);
      MlpInGrows(layers, |ns|, |g.0|);
      MlpInDrop(layers, 1, |g.0|);
      ChainedDrop(layers, |hidden|, 1);
      MlpGraphPrefix(fl, g.0, layers[1..], g.1);
      var r := MlpGraph(fl, g.0, layers[1..], g.1).0;
      assert r[..|ns|] == r[..|g.0|][..|ns|];
    }
  }

  /** Appending nodes keeps the values of a perceptron. */
  lemma {:induction false} MlpValuesPrefix(fl: Floats, ns: seq<Node>, ms: seq<Node>, layers: seq<Layer>, xs: seq<real>)
    requires MlpIn(layers, |ns|) && Chained(layers, |xs|) && |ns| <= |ms| && ms[..|ns|] == ns
    ensures MlpIn(layers, |ms|) && MlpValues(fl, ms, layers, xs) == MlpValues(fl, ns, layers, xs)
    decreases |layers|
  {
    MlpInGrows(layers, |ns|, |ms|);
    if layers != [] {
      LayerValuesPrefix(fl, ns, ms, layers[0].neurons, xs);
      MlpInDrop(layers, 1, |ns|);
      ChainedDrop(layers, |xs|, 1);
      MlpValuesPrefix(fl, ns, ms, layers[1..], LayerValues(fl, ns, layers[0].neurons, xs));
    }
  }

  /** The outputs of `MultiLayerPerceptron::forward` hold the perceptron's values. */
  lemma {:induction false} MlpGraphValues(fl: Floats, ns: seq<Node>, layers: seq<Layer>, hidden: seq<Scalar>)
    requires MlpIn(layers, |ns|) && Below(hidden, |ns|) && Chained(layers, |hidden|)
    ensures Values(MlpGraph(fl, ns, layers, hidden).0, MlpGraph(fl, ns, layers, hidden).1)
      == MlpValues(fl, ns, layers, Values(ns, hidden))
    decreases |layers|
  {
    if layers != [] {
      var g := LayerGraph(fl, ns, layers[0].neurons, hidden);
      LayerGraphPrefix(fl, ns, layers[0].neurons, hidden);
      LayerGraphValues(fl, ns, layers[0].neurons, hidden);
      MlpInGrows(layers, |ns|, |g.0|);
      MlpInDrop(layers, 1, |g.0|);
      MlpInDrop(layers, 1, |ns|);
      ChainedDrop(layers, |hidden|, 1);
      MlpGraphValues(fl, g.0, layers[1..], g.1);
      MlpValuesPrefix(fl, ns, g.0, layers[1..], Values(g.0, g.1));
    }
  }

  /** Loop state of `MlpForward` before layer `j`: what is left to do yields `target`. */
  ghost predicate Feeding(fl: Floats, ns: seq<Node>, layers: seq<Layer>, j: nat, hidden: seq<Scalar>,
                          target: (seq<Node>, seq<Scalar>))
  {
    j <= |layers| && MlpIn(layers[j..], |ns|) && Below(hidden, |ns|) && Chained(layers[j..], |hidden|) &&
    MlpGraph(fl, ns, layers[j..], hidden) == target
  }

  lemma FeedingNext(fl: Floats, ns: seq<Node>, layers: seq<Layer>, j: nat, hidden: seq<Scalar>,
                    target: (seq<Node>, seq<Scalar>))
    requires Feeding(fl, ns, layers, j, hidden, target) && j < |layers|
    ensures LayerIn(layers[j].neurons, |ns|) && Fits(layers[j].neurons, |hidden|)
  {
    assert layers[j..][0] == layers[j];
  }

  lemma FeedingStep(fl: Floats, ns: seq<Node>, layers: seq<Layer>, j: nat, hidden: seq<Scalar>,
                    target: (seq<Node>, seq<Scalar>), ms: seq<Node>, hidden': seq<Scalar>)
    requires Feeding(fl, ns, layers, j, hidden, target) && j < |layers|
    requires LayerIn(layers[j].neurons, |ns|) && Fits(layers[j].neurons, |hidden|)
    requires (ms, hidden') == LayerGraph(fl, ns, layers[j].neurons, hidden)
    ensures Feeding(fl, ms, layers, j + 1, hidden', target)
  {
    var rest := layers[j..];
    assert rest[0] == layers[j] && rest[1..] == layers[j + 1..];
    MlpInGrows(rest, |ns|, |ms|);
    MlpInDrop(rest, 1, |ms|);
    ChainedDrop(rest, |hidden|, 1);
  }

  lemma FeedingDone(fl: Floats, ns: seq<Node>, layers: seq<Layer>, hidden: seq<Scalar>,
                    target: (seq<Node>, seq<Scalar>))
    requires Feeding(fl, ns, layers, |layers|, hidden, target)
    ensures (ns, hidden) == target
  {
    assert layers[|layers|..] == [];
  }

  /** `MultiLayerPerceptron::forward` from input values: leaves for them, then the layers. */
  function MlpRun(fl: Floats, ns: seq<Node>, layers: seq<Layer>, values: seq<real>): (r: (seq<Node>, seq<Scalar>))
    requires MlpIn(layers, |ns|) && Chained(layers, |values|)
    ensures |ns| + |values| <= |r.0| && Below(r.1, |r.0|)
  {
    MlpInGrows(layers, |ns|, |ns| + |values|);
    RangeBelow(|ns|, |values|);
    MlpGraph(fl, ns + InputLeaves(values), layers, Range(|ns|, |values|))
  }

  /** `MlpRun` after its first layer is `MlpGraph` over the rest. */
  lemma MlpRunFirst(fl: Floats, base: seq<Node>, layers: seq<Layer>, values: seq<real>,
                    first: seq<Node>, hidden: seq<Scalar>)
    requires |layers| >= 1 && MlpIn(layers, |base|) && MlpIn(layers, |base| + |values|) && Chained(layers, |values|)
    requires Below(Range(|base|, |values|), |base| + |values|)
    requires (first, hidden) == LayerGraph(fl, base + InputLeaves(values), layers[0].neurons, Range(|base|, |values|))
    ensures MlpIn(layers[1..], |base|) && MlpIn(layers[1..], |first|) && Chained(layers[1..], |hidden|)
    ensures MlpRun(fl, base, layers, values) == MlpGraph(fl, first, layers[1..], hidden)
  {
    MlpInGrows(layers, |base| + |values|, |first|);
    MlpInDrop(layers, 1, |first|);
    MlpInDrop(layers, 1, |base|);
    ChainedDrop(layers, |values|, 1);
  }

  /** After the first layer, the loop state of `MlpForward` and what its end state means. */
  lemma FeedingStart(fl: Floats, base: seq<Node>, layers: seq<Layer>, values: seq<real>,
                     first: seq<Node>, hidden: seq<Scalar>)
    requires |layers| >= 1 && MlpIn(layers, |base|) && MlpIn(layers, |base| + |values|) && Chained(layers, |values|)
    requires Below(Range(|base|, |values|), |base| + |values|)
    requires (first, hidden) == LayerGraph(fl, base + InputLeaves(values), layers[0].neurons, Range(|base|, |values|))
    requires first[..|base|] == base && Values(first, hidden) == LayerValues(fl, base, layers[0].neurons, values)
    ensures Feeding(fl, first, layers, 1, hidden, MlpRun(fl, base, layers, values))
    ensures MlpRun(fl, base, layers, values).0[..|base|] == base
    ensures Values(MlpRun(fl, base, layers, values).0, MlpRun(fl, base, layers, values).1)
      == MlpValues(fl, base, layers, values)
  {
    MlpRunFirst(fl, base, layers, values, first, hidden);
    MlpRunRest(fl, base, layers, values, first, hidden);
  }

  lemma MlpRunRest(fl: Floats, base: seq<Node>, layers: seq<Layer>, values: seq<real>,
                   first: seq<Node>, hidden: seq<Scalar>)
    requires |layers| >= 1 && MlpIn(layers, |base|) && Chained(layers, |values|)
    requires MlpIn(layers[1..], |base|) && MlpIn(layers[1..], |first|) && Below(hidden, |first|)
    requires Chained(layers[1..], |hidden|) && Chained(layers[1..], |layers[0].neurons|)
    requires |base| <= |first| && first[..|base|] == base
    requires Values(first, hidden) == LayerValues(fl, base, layers[0].neurons, values)
    ensures MlpGraph(fl, first, layers[1..], hidden).0[..|base|] == base
    ensures Values(MlpGraph(fl, first, layers[1..], hidden).0, MlpGraph(fl, first, layers[1..], hidden).1)
      == MlpValues(fl, base, layers, values)
  {
    MlpGraphPrefix(fl, first, layers[1..], hidden);
    var r := MlpGraph(fl, first, layers[1..], hidden).0;
    assert r[..|base|] == r[..|first|][..|base|];
    MlpValuesPrefix(fl, base, first, layers[1..], Values(first, hidden));
    MlpGraphValues(fl, first, layers[1..], hidden);
  }

  /**
   * `MultiLayerPerceptron::forward`: the first layer on fresh leaves for the input
   * values, then every further layer on the previous layer's outputs. Indexing the first
   * layer makes the original panic on a perceptron without layers, and a layer whose
   * neurons do not fit the previous layer's outputs makes it panic in `Layer::forward`.
   */
  method MlpForward(arena: Arena, m: Mlp, values: seq<real>) returns (outs: seq<Scalar>)
    requires WellFormed(arena.nodes) && |m.layers| >= 1
    requires MlpIn(m.layers, |arena.nodes|) && Chained(m.layers, |values|)
    modifies arena
    ensures WellFormed(arena.nodes) && (arena.nodes, outs) == MlpRun(arena.fl, old(arena.nodes), m.layers, values)
    ensures |outs| == |m.layers[|m.layers| - 1].neurons| && arena.nodes[..|old(arena.nodes)|] == old(arena.nodes)
    ensures Values(arena.nodes, outs) == MlpValues(arena.fl, old(arena.nodes), m.layers, values)
  {
    ghost var base := arena.nodes;
    MlpInGrows(m.layers, |base|, |base| + |values|);
    var hidden := LayerForwardWithNumbers(arena, m.layers[0], values);
    FeedingStart(arena.fl, base, m.layers, values, arena.nodes, hidden);
    ghost var target := MlpRun(arena.fl, base, m.layers, values);
    for j := 1 to |m.layers|
      invariant WellFormed(arena.nodes) && Feeding(arena.fl, arena.nodes, m.layers, j, hidden, target)
    {
      FeedingNext(arena.fl, arena.nodes, m.layers, j, hidden, target);
      ghost var before := arena.nodes;
      ghost var previous := hidden;
      hidden := LayerForward(arena, m.layers[j], hidden);
      FeedingStep(arena.fl, before, m.layers, j, previous, target, arena.nodes, hidden);
    }
    FeedingDone(arena.fl, arena.nodes, m.layers, hidden, target);
    outs := hidden;
  }

  // ---------------------------------------------------------------------------
  // zero_grad()

  /** The arena after resetting the gradient of every node `ps` names, in order. */
  function Zeroed(ns: seq<Node>, ps: seq<Scalar>): (r: seq<Node>)
    requires Below(ps, |ns|)
    ensures |r| == |ns|
    decreases |ps|
  {
    if ps == [] then ns
    else
      var front := Zeroed(ns, ps[..|ps| - 1]);
      var p := ps[|ps| - 1];
      front[p := front[p].(grad := 0.0)]
  }

  /** Exactly the gradients of the named nodes become 0; nothing else changes. */
  lemma {:induction false} ZeroedAt(ns: seq<Node>, ps: seq<Scalar>, i: nat)
    requires Below(ps, |ns|) && i < |ns|
    ensures Zeroed(ns, ps)[i] == if i in ps then ns[i].(grad := 0.0) else ns[i]
    decreases |ps|
  {
    if ps != [] {
      var front := ps[..|ps| - 1];
      ZeroedAt(ns, front, i);
      assert ps == front + [ps[|ps| - 1]];
      assert i in ps <==> i in front || i == ps[|ps| - 1];
    }
  }

  /** Resetting twice resets as much as resetting once. */
  lemma ZeroedTwice(ns: seq<Node>, ps: seq<Scalar>)
    requires Below(ps, |ns|)
    ensures Zeroed(Zeroed(ns, ps), ps) == Zeroed(ns, ps)
  {
    var once := Zeroed(ns, ps);
    forall i | 0 <= i < |ns|
      ensures Zeroed(once, ps)[i] == once[i]
    {
      ZeroedAt(ns, ps, i);
      ZeroedAt(once, ps, i);
    }
  }

  /** The loop each `zero_grad` runs: `p.zero_grad()` for every parameter `p` in turn. */
  method ZeroParams(arena: Arena, ps: seq<Scalar>)
    requires WellFormed(arena.nodes) && Below(ps, |arena.nodes|)
    modifies arena
    ensures WellFormed(arena.nodes) && arena.nodes == Zeroed(old(arena.nodes), ps)
  {
    ghost var base := arena.nodes;
    for i := 0 to |ps|
      invariant WellFormed(arena.nodes) && arena.nodes == Zeroed(base, ps[..i])
    {
      assert ps[..i + 1][..i] == ps[..i];
      arena.ZeroGrad(ps[i]);
    }
    assert ps[..|ps|] == ps;
  }

  /** `Neuron::zero_grad`: resets the gradients of its weights and bias. */
  method NeuronZeroGrad(arena: Arena, n: Neuron)
    requires WellFormed(arena.nodes) && NeuronIn(n, |arena.nodes|)
    modifies arena
    ensures Below(NeuronParams(n), |old(arena.nodes)|)
    ensures WellFormed(arena.nodes) && arena.nodes == Zeroed(old(arena.nodes), NeuronParams(n))
  {
    BelowAppend(n.weights, [n.bias], |arena.nodes|);
    ZeroParams(arena, NeuronParams(n));
  }

  /** `Layer::zero_grad`: resets the gradients of all its neurons' parameters. */
  method LayerZeroGrad(arena: Arena, l: Layer)
    requires WellFormed(arena.nodes) && LayerIn(l.neurons, |arena.nodes|)
    modifies arena
    ensures Below(LayerParams(l.neurons), |old(arena.nodes)|)
    ensures WellFormed(arena.nodes) && arena.nodes == Zeroed(old(arena.nodes), LayerParams(l.neurons))
  {
    LayerParamsIn(l.neurons, |arena.nodes|);
    ZeroParams(arena, LayerParams(l.neurons));
  }

  /** `MultiLayerPerceptron::zero_grad`: resets the gradients of all its parameters. */
  method MlpZeroGrad(arena: Arena, m: Mlp)
    requires WellFormed(arena.nodes) && MlpIn(m.layers, |arena.nodes|)
    modifies arena
    ensures Below(MlpParams(m.layers), |old(arena.nodes)|)
    ensures WellFormed(arena.nodes) && arena.nodes == Zeroed(old(arena.nodes), MlpParams(m.layers))
  {
    MlpParamsIn(m.layers, |arena.nodes|);
    ZeroParams(arena, MlpParams(m.layers));
  }
}
