/**
 * The nodes the Scalar operations allocate.
 *
 * Each primitive operation (`new`, `+`, `*`, `pow`, `exp`, `tanh`) allocates one node
 * with gradient 0 whose data is computed eagerly from the operands' current data and
 * whose producers are the operands in call order. The derived operations are
 * compositions of the primitives and allocate several nodes: `add_number` and
 * `mul_number` a constant leaf first, `-b` the constant -1 and a product, `a - b`
 * those two and a sum, `a / b` a power with exponent -1 and a product.
 */
module Ops {
  import opened ScalarGraph

  /** A fresh leaf: no producers, no backward rule, gradient 0. */
  function LeafNode(data: real, name: string): Node {
    Node(data, 0.0, name, Leaf, [])
  }

  /** The leaf `add_number` and `mul_number` create for their constant. */
  function Constant(fl: Floats, k: real): Node {
    LeafNode(k, "(Constant " + fl.show(k) + ")")
  }

  function AddNode(ns: seq<Node>, a: Scalar, b: Scalar): Node
    requires a < |ns| && b < |ns|
  {
    Node(ns[a].data + ns[b].data, 0.0, "(" + ns[a].name + " + " + ns[b].name + ")", Add, [a, b])
  }

  function MulNode(ns: seq<Node>, a: Scalar, b: Scalar): Node
    requires a < |ns| && b < |ns|
  {
    Node(ns[a].data * ns[b].data, 0.0, "(" + ns[a].name + " * " + ns[b].name + ")", Mul, [a, b])
  }

  function PowNode(fl: Floats, ns: seq<Node>, a: Scalar, p: real): Node
    requires a < |ns|
  {
    Node(fl.powf(ns[a].data, p), 0.0, "(" + ns[a].name + "^" + fl.show(p) + ")", Pow(p), [a])
  }

  function ExpNode(fl: Floats, ns: seq<Node>, a: Scalar): Node
    requires a < |ns|
  {
    Node(fl.exp(ns[a].data), 0.0, "exp(" + ns[a].name + ")", Exp, [a])
  }

  function TanhNode(fl: Floats, ns: seq<Node>, a: Scalar): Node
    requires a < |ns|
  {
    Node(fl.tanh(ns[a].data), 0.0, "tanh(" + ns[a].name + ")", Tanh, [a])
  }

  /** A node whose producers are already in the arena can be appended to it. */
  predicate Linkable(ns: seq<Node>, n: Node) {
    |n.producers| == Arity(n.op) && forall k :: 0 <= k < |n.producers| ==> n.producers[k] < |ns|
  }

  lemma PushWellFormed(ns: seq<Node>, n: Node)
    requires WellFormed(ns) && Linkable(ns, n)
    ensures WellFormed(ns + [n])
  {
  }

  /** Relabelling a node leaves the arena well formed: labels play no part in the graph. */
  lemma RelabelWellFormed(ns: seq<Node>, s: Scalar, text: string)
    requires WellFormed(ns) && s < |ns|
    ensures WellFormed(ns[s := ns[s].(name := text)])
  {
    var ms := ns[s := ns[s].(name := text)];
    assert forall i :: 0 <= i < |ms| ==> ms[i].op == ns[i].op && ms[i].producers == ns[i].producers;
  }

  // ---------------------------------------------------------------------------
  // Derived operations, as the nodes they append to an arena `ns`

  /** `a.add_number(k)`: a constant leaf for `k`, then `a + k`. */
  function AddNumberNodes(fl: Floats, ns: seq<Node>, a: Scalar, k: real): seq<Node>
    requires a < |ns|
  {
    var c := Constant(fl, k);
    [c, AddNode(ns + [c], a, |ns|)]
  }

  /** `a.mul_number(k)`: a constant leaf for `k`, then `a * k`. */
  function MulNumberNodes(fl: Floats, ns: seq<Node>, a: Scalar, k: real): seq<Node>
    requires a < |ns|
  {
    var c := Constant(fl, k);
    [c, MulNode(ns + [c], a, |ns|)]
  }

  /** `-a`: `a.mul_number(-1)`, relabelled `(not a)`. */
  function NegNodes(fl: Floats, ns: seq<Node>, a: Scalar): seq<Node>
    requires a < |ns|
  {
    var m := MulNumberNodes(fl, ns, a, -1.0);
    [m[0], m[1].(name := "(not " + ns[a].name + ")")]
  }

  /** `a - b`: `a + (-b)`, relabelled `(a - b)`. */
  function SubNodes(fl: Floats, ns: seq<Node>, a: Scalar, b: Scalar): seq<Node>
    requires a < |ns| && b < |ns|
  {
    var neg := NegNodes(fl, ns, b);
    var sum := AddNode(ns + neg, a, |ns| + 1);
    neg + [sum.(name := "(" + ns[a].name + " - " + ns[b].name + ")")]
  }

  /** `a / b`: `a * b.pow(-1)`. */
  function DivNodes(fl: Floats, ns: seq<Node>, a: Scalar, b: Scalar): seq<Node>
    requires a < |ns| && b < |ns|
  {
    var reciprocal := PowNode(fl, ns, b, -1.0);
    [reciprocal, MulNode(ns + [reciprocal], a, |ns|)]
  }

  /** The data the derived operations compute, from the operands' data. */
  lemma DerivedData(fl: Floats, ns: seq<Node>, a: Scalar, b: Scalar, k: real)
    requires a < |ns| && b < |ns|
    ensures AddNumberNodes(fl, ns, a, k)[1].data == ns[a].data + k
    ensures MulNumberNodes(fl, ns, a, k)[1].data == ns[a].data * k
    ensures NegNodes(fl, ns, a)[1].data == -ns[a].data
    ensures SubNodes(fl, ns, a, b)[2].data == ns[a].data - ns[b].data
    ensures ns[b].data != 0.0 && fl.powf(ns[b].data, -1.0) == 1.0 / ns[b].data ==>
      DivNodes(fl, ns, a, b)[1].data == ns[a].data / ns[b].data
  {
    var neg := NegNodes(fl, ns, b);
    assert (ns + neg)[|ns| + 1].data == -ns[b].data;
  }
}
