# micro-grad-rs in Dafny

A model of micro-grad-rs. It has two parts:

- a scalar reverse-mode automatic-differentiation engine (`src/scalar.rs`);
- a tanh multi-layer perceptron built on that engine (`src/nn.rs`).

## Engine

**The arena.** Every `Scalar` operation allocates a node. In the original the nodes are `Rc<RefCell<Value>>`. Here they are the entries of the `nodes` sequence of an `Engine.Arena` object.

- A `Scalar` is a node's index. Cloning one copies the index. Equality and hashing compare indices, which is the original's pointer identity.
- Each node (`ScalarGraph.Node`) holds:
  - `data` and `grad`;
  - a label, `name`, which `set_label` writes and `get_label` reads (the operations that print an operand's label read this field);
  - an operation tag, which stands in for the boxed backward closure: `Leaf`, `Add`, `Mul`, `Pow(p)`, `Exp` or `Tanh`;
  - the ordered list of its producers.
- Producers always have smaller indices than their consumer (`WellFormed`), so the graph is a DAG by construction. Every operation method keeps that invariant.

**Operations.** The node each primitive operation appends is described by a function in module `Ops`.

- `add_number` and `mul_number` allocate a constant leaf first.
- `-b` is `b * Constant(-1)`.
- `a - b` is `a + (-b)`.
- `a / b` is `a * b^(-1)`.

Their methods on `Engine.Arena` are proved to append exactly those nodes.

**Backward pass.** `back_prop` is modelled in three parts:

- the recursive `visit`, as `Engine.Visit`, proved equal to the pure depth-first post-order `ScalarGraph.Dfs`;
- overwriting the root's gradient with 1 (`Gradients.Seed`);
- firing every listed node's rule in reverse order (`Engine.Arena.PropagateReversed`, specified by `Gradients.FireRev`).

`Gradients.Fire` gives the `+=` sequence each closure performs. `Gradients.Contrib` is an independent per-producer statement of the same chain rule.

**Proved properties.** The lemmas in `ScalarGraph` and `Gradients` show:

- the ordering lists exactly the reachable nodes, each once, producers before consumers, with the root last;
- every node's gradient is final before its rule fires;
- after `back_prop`:
  - only gradients change;
  - the root holds exactly 1;
  - unreachable nodes are untouched;
  - every other node keeps its earlier gradient plus one contribution per use by each reachable consumer.

## Network

Module `Nn` models `Neuron`, `Layer` and `MultiLayerPerceptron` as datatypes holding handles.

- The random initial weights and biases are inputs (`NeuronInit`).
- Construction appends the labelled leaves `w0, w1, …, b` neuron by neuron. The `parameters()` lists are exactly those fresh handles, in allocation order.
- `Neuron::forward` is a loop that extends the graph. It is proved to build `tanh(((b + x0*w0) + x1*w1) + …)`, and its value equals `tanh(b + Σ xi*wi)`.
- `Layer::forward` and `MultiLayerPerceptron::forward` are specified by graph-building functions and by value functions over the inputs' data.
- `zero_grad` is specified by `Zeroed`: exactly the listed nodes get gradient 0, nothing else changes, and the operation is idempotent.

## Samples

Module `Samples` works small examples of the engine on concrete arenas:

- `a + a`, and calling `back_prop` on it twice;
- `x.pow(2)` at 3, giving 6;
- `x.exp()`;
- two equal-valued leaves, which stay distinct nodes;
- the neuron's input-count error message.

## Model

| member | source | states |
|---|---|---|
| Engine.Arena.New | src/scalar.rs:51-55 | appends one leaf holding `data`: gradient 0, empty label, no producers, no rule; returns its handle; earlier nodes unchanged |
| Engine.Arena.NewWithLabel | src/nn.rs:22-25 | appends one leaf holding `data` with the given label, gradient 0, no producers |
| Engine.Arena.SetLabel | src/scalar.rs:159-161 | replaces only that node's label; the graph stays well formed |
| Engine.Arena.ZeroGrad | src/nn.rs:52-54 | sets only that node's gradient to 0 |
| Engine.Arena.Add | src/scalar.rs:217-240 | appends one node: data `a.data + b.data`, gradient 0, producers exactly `[a, b]`, Add rule; operands unchanged |
| Engine.Arena.Mul | src/scalar.rs:255-283 | appends one node: data `a.data * b.data`, gradient 0, producers exactly `[a, b]`, Mul rule |
| Engine.Arena.Pow | src/scalar.rs:107-128 | appends one node: data `powf(a.data, p)`, producer `[a]`, Pow(p) rule |
| Engine.Arena.Exp | src/scalar.rs:63-83 | appends one node: data `exp(a.data)`, producer `[a]`, Exp rule |
| Engine.Arena.Tanh | src/scalar.rs:85-105 | appends one node: data `tanh(a.data)`, producer `[a]`, Tanh rule |
| Engine.Arena.AddNumber | src/scalar.rs:167-171 | appends a `(Constant k)` leaf then their sum; the result's data is `a.data + k` |
| Engine.Arena.MulNumber | src/scalar.rs:173-177 | appends a `(Constant k)` leaf then their product; the result's data is `a.data * k` |
| Engine.Arena.Neg | src/scalar.rs:289-293 | `mul_number(-1)` relabelled `(not a)`; the result's data is `-a.data` |
| Engine.Arena.Sub | src/scalar.rs:299-304 | `a + (-b)` relabelled `(a - b)`; the result's data is `a.data - b.data` |
| Engine.Arena.Div | src/scalar.rs:246-249 | appends `b^(-1)` then `a * b^(-1)`, with no guard for a zero divisor |
| Ops.DerivedData | src/scalar.rs:246-249 | data of the derived operations: `a + k`, `a * k`, `-a`, `a - b`; `a / b` when `powf(b, -1) = 1/b` |
| Ops.PushWellFormed | src/scalar.rs:224-229 | a node whose producers already exist can be appended without breaking the DAG invariant |
| Ops.RelabelWellFormed | src/scalar.rs:159-161 | relabelling a node does not change the graph's structure |
| ScalarGraph.Dfs | src/scalar.rs:139-145 | what `visit(v)` appends: nothing when `v` was visited, otherwise its producers' traversals then `v`; every listed node is `v` or lies below it |
| ScalarGraph.Walk | src/scalar.rs:141-143 | the loop over a node's producers, threading the visited set; lists only nodes below the consumer |
| Engine.Visit | src/scalar.rs:135-146 | `visit` appends exactly `Dfs(v, visited)` to the ordering and adds exactly those nodes to the visited set |
| ScalarGraph.TopologicalOrder | src/scalar.rs:135-147 | from an empty visited set the ordering holds exactly the nodes reachable from the root, each once, every producer before its consumers, the root last |
| ScalarGraph.DfsElems | src/scalar.rs:139-145 | `visit(v)` lists exactly the nodes `v` reaches that are not yet visited |
| ScalarGraph.DfsNoDup | src/scalar.rs:139-140 | the visited check keeps every node out of the ordering a second time |
| ScalarGraph.DfsListed | src/scalar.rs:141-144 | every producer of a listed node was visited before the call or is listed before that node |
| ScalarGraph.ListedIsTopological | src/scalar.rs:141-144 | producers listed earlier, with no repeats, means no node precedes one of its producers |
| ScalarGraph.ReachTransitive | src/scalar.rs:141-143 | what a reached node reaches is reached too |
| Gradients.Seed | src/scalar.rs:149 | the root's gradient becomes 1 and every other node is unchanged; the graph stays well formed |
| Gradients.Fire | src/scalar.rs:76-280 | one node's closure: the `+=` on each producer in stored order; only gradients change and the graph stays well formed (what each node gains is `FireAddsContrib`) |
| Engine.Arena.Propagate | src/scalar.rs:151-152 | firing one node's closure equals `Fire`: each producer's gradient gains the rule's local derivative times the output gradient, read at firing time |
| Gradients.FireAddsContrib | src/scalar.rs:274-280 | firing `c` adds exactly `Contrib(c, u)` to each node `u`; a node used twice by an Add or Mul gets both contributions |
| Gradients.ContribOnlyToProducers | src/scalar.rs:233-237 | a rule adds nothing to nodes that are not its producers |
| Gradients.ContribFrame | src/scalar.rs:274-280 | a contribution depends only on the consumer's gradient and the unchanged data |
| Gradients.FireRevAdjoint | src/scalar.rs:150-156 | firing a topological order in reverse leaves each node with its old gradient plus the contributions of every listed consumer, each computed from that consumer's final gradient |
| Gradients.GradFinalWhenFired | src/scalar.rs:150-156 | when a node fires, every listed consumer of it has fired and its gradient is already final |
| Gradients.FireRevSplit | src/scalar.rs:150 | firing `a + b` in reverse fires `b` in reverse, then `a` |
| Engine.Arena.PropagateReversed | src/scalar.rs:150-156 | the loop over the reversed ordering yields `FireRev` of the ordering |
| Engine.Arena.BackProp | src/scalar.rs:130-157 | the arena becomes `Backward(root)`: only gradients change; root gradient exactly 1; unreachable nodes untouched; every other node keeps its old gradient plus the sum of its reachable consumers' contributions |
| Gradients.BackwardEffect | src/scalar.rs:149-156 | the same effect stated on the pure `Backward` function |
| Samples.DoubledBackward | src/scalar.rs:233-237 | in `a + a`, back_prop adds 2 to `a` and sets the sum's gradient to 1 |
| Samples.DoubledOrder | src/scalar.rs:139-145 | the ordering of `a + a` lists `a` once, then the sum |
| Samples.ReuseGradients | src/main.rs:27-31 | `a = 3`, `b = a + a`, `b.back_prop()` give `a.grad = 2`, `b.grad = 1` |
| Samples.ReuseTwice | src/scalar.rs:149-156 | a second back_prop on `a + a` resets the root to 1 and takes `a` from 2 to 4 |
| Samples.UnaryBackward | src/scalar.rs:119-125 | through one unary rule, the operand gains that rule's local derivative |
| Samples.PowerGradient | src/main.rs:43-47 | `x = 3`, `x.pow(2).back_prop()` gives `x.grad = 6` |
| Samples.ExpGradient | src/scalar.rs:76-80 | the Exp rule hands the output's own data back to the operand |
| Samples.PairBackward | src/scalar.rs:197-210 | two distinct leaves are both ordered before their sum, and each gains 1 |
| Samples.EqualLeavesStayDistinct | src/scalar.rs:206-210 | two leaves with equal data are still distinct nodes: each gets gradient 1 |
| Samples.MismatchMessage | src/nn.rs:30-32 | two weights and three inputs give `Err("Expected 2 inputs, not 3")` |
| Nn.NeuronNew | src/nn.rs:16-27 | appends the leaves `w0…w(n-1)` then `b`; the neuron has `num_inputs` weights (none when negative); its parameters are the fresh handles in order |
| Nn.LayerNew | src/nn.rs:65-69 | appends `num_outputs` neurons of `num_inputs` weights each; parameters are the fresh handles in order, `n_out * (n_in + 1)` of them |
| Nn.MlpNew | src/nn.rs:100-109 | layer `j` has `sizes[j]` neurons and input size `num_inputs`, then `sizes[j-1]`; the layers chain; parameters are the fresh handles in order |
| Nn.MlpShapeChained | src/nn.rs:101-107 | the input-size update makes every layer take as many inputs as the previous layer outputs |
| Nn.LayerParamsAt | src/nn.rs:82-84 | neuron `k`'s weights and bias sit in the layer's list right after those of neurons `0..k` |
| Nn.NeuronParams | src/nn.rs:47-49 | the neuron's list has one entry per weight, in order, followed by the bias |
| Nn.LayerParams | src/nn.rs:82-84 | the neurons' lists concatenated in neuron order; it has `Σ (weights + 1)` entries |
| Nn.MlpParams | src/nn.rs:119-121 | the layers' lists concatenated in layer order; it has one entry per weight and bias over all layers |
| Nn.LayerParamsIn | src/nn.rs:82-84 | a layer's parameters all name arena nodes exactly when every neuron's weights and bias do |
| Nn.MlpParamsIn | src/nn.rs:119-121 | the same for a perceptron |
| Nn.FoldIsDot | src/nn.rs:35-38 | the left-to-right running sum from the bias equals bias plus the dot product |
| Nn.ChainData | src/nn.rs:35-38 | the node built by the loop holds the running sum of `x_i * w_i` from the bias |
| Nn.WeightedSum | src/nn.rs:35-38 | the loop appends `x_i * w_i` and the running sum per input, as `Chain` |
| Nn.NeuronGraphValue | src/nn.rs:39 | the tanh node holds `tanh(bias + Σ x_i * w_i)` |
| Nn.NeuronForward | src/nn.rs:29-40 | a count mismatch gives `Err("Expected n inputs, not m")` and builds nothing; otherwise `Ok` of the tanh node, holding the neuron's value |
| Nn.NewInputs | src/nn.rs:43 | one fresh leaf per number, in order, holding exactly those numbers |
| Nn.NeuronForwardWithNumbers | src/nn.rs:42-45 | input leaves are made first, then `forward`; the same error or value |
| Nn.LayerGraph | src/nn.rs:71-74 | one output per neuron, all naming nodes of the grown arena |
| Nn.LayerGraphValues | src/nn.rs:71-74 | the outputs hold each neuron's value, in neuron order |
| Nn.LayerForward | src/nn.rs:71-74 | the arena and outputs are `LayerGraph`; one output per neuron, holding the layer's values |
| Nn.LayerForwardWithNumbers | src/nn.rs:76-80 | one set of input leaves shared by every neuron, then `forward`; outputs hold the layer's values |
| Nn.MlpGraph | src/nn.rs:111-117 | as many outputs as the last layer has neurons |
| Nn.MlpGraphValues | src/nn.rs:111-117 | the outputs hold the perceptron's values, layer after layer |
| Nn.MlpForward | src/nn.rs:111-117 | first layer on the numbers, then each later layer on the previous outputs; as many outputs as the last layer has neurons, holding the perceptron's values |
| Nn.ZeroedAt | src/nn.rs:51-55 | after zeroing a list, exactly the listed nodes have gradient 0 and every other node is unchanged |
| Nn.ZeroedTwice | src/nn.rs:51-55 | zeroing twice equals zeroing once |
| Nn.ZeroParams | src/nn.rs:52-54 | the loop calling `zero_grad` per parameter yields `Zeroed` |
| Nn.NeuronZeroGrad | src/nn.rs:51-55 | zeroes exactly the neuron's weights and bias |
| Nn.LayerZeroGrad | src/nn.rs:86-90 | zeroes exactly the layer's parameters |
| Nn.MlpZeroGrad | src/nn.rs:123-127 | zeroes exactly the perceptron's parameters |

## Left out

- Floating point. `data` and `grad` are reals. `exp`, `tanh`, `powf` and the number formatting are supplied as function values (`Floats`), not computed. NaN, infinities and rounding are not modelled.
- `Display` (`{:.4}` formatting) and `log::debug!` in `back_prop`: output only.
- `Rc`/`RefCell` sharing and the boxed closures become arena indices and an operation tag. Runtime borrow failures are not modelled.
- Random sampling in `Neuron::new` becomes the `NeuronInit` values.
- `src/main.rs` (demo driver) and `src/lib.rs` (`arrange`, floating-point ranges) are not part of this model. Two demo examples are restated in `Samples`.
- `Scalar::new_with_label` and `Scalar::zero_grad` are called by `src/nn.rs` but are not defined in `src/scalar.rs`. They are modelled as a labelled leaf and a gradient reset.
- Nn.LayerForward: the `expect("")` panic on a neuron whose weight count differs from the input count is a precondition (`Fits`), not a modelled panic.
- Nn.LayerForwardWithNumbers: the `expect("")` panic (src/nn.rs:78) on a neuron whose weight count differs from the number of values is the precondition `Fits`, not a modelled panic.
- Nn.MlpForward: the panic of `self.layers[0]` on a perceptron without layers, the `expect("")` panic when layer 0 does not fit the number of input values, and the one when a later layer does not fit the previous layer's outputs, are preconditions.
- Nn.NeuronNew: the `i32` count `num_inputs` maps to `max(num_inputs, 0)` weights, as `0..num_inputs` does. The `usize`/`i32` widths are otherwise not modelled.
- Ops.DerivedData: the data of `a / b` is stated only when the host `powf(b, -1)` equals `1/b`.
- Samples.PowerGradient: assumes the host `powf(3, 1)` returns 3.
