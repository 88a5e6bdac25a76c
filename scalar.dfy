/**
 * The Scalar engine: an arena of graph nodes updated in place.
 *
 * Every Scalar operation appends fresh nodes to the arena and returns the index of
 * the result; `back_prop` builds the depth-first post-order with the recursive
 * `Visit`, overwrites the root's gradient with 1, and fires the backward rules in
 * reverse order with `Propagate`, which performs each closure's `+=` on the
 * gradient cells. Each method is proved against the value-level specification in
 * `Ops`, `ScalarGraph` and `Gradients`.
 */
module Engine {
  import opened ScalarGraph
  import opened Ops
  import opened Gradients

  class Arena {
    /** The host floating-point primitives. */
    const fl: Floats
    /** Every node allocated so far; a Scalar is an index into it. */
    var nodes: seq<Node>

    constructor (fl: Floats)
      ensures WellFormed(nodes) && this.fl == fl && nodes == []
    {
      this.fl := fl;
      nodes := [];
    }

    /** `Scalar::new(data)`: a fresh leaf holding `data`, gradient 0, empty label. */
    method New(data: real) returns (s: Scalar)
      requires WellFormed(nodes)
      modifies this
      ensures WellFormed(nodes) && s == |old(nodes)|
      ensures nodes == old(nodes) + [LeafNode(data, "")]
    {
      PushWellFormed(nodes, LeafNode(data, ""));
      s := |nodes|;
      nodes := nodes + [LeafNode(data, "")];
    }

    /** `Scalar::new_with_label(data, label)`: a labelled fresh leaf. */
    method NewWithLabel(data: real, text: string) returns (s: Scalar)
      requires WellFormed(nodes)
      modifies this
      ensures WellFormed(nodes) && s == |old(nodes)|
      ensures nodes == old(nodes) + [LeafNode(data, text)]
    {
      PushWellFormed(nodes, LeafNode(data, text));
      s := |nodes|;
      nodes := nodes + [LeafNode(data, text)];
    }

    /** `set_label`: changes the label of one node and nothing else. */
    method SetLabel(s: Scalar, text: string)
      requires WellFormed(nodes) && s < |nodes|
      modifies this
      ensures WellFormed(nodes) && nodes == old(nodes)[s := old(nodes)[s].(name := text)]
    {
      RelabelWellFormed(nodes, s, text);
      nodes := nodes[s := nodes[s].(name := text)];
    }

    /** `Scalar::zero_grad`: resets one node's gradient to 0. */
    method ZeroGrad(s: Scalar)
      requires WellFormed(nodes) && s < |nodes|
      modifies this
      ensures WellFormed(nodes) && nodes == old(nodes)[s := old(nodes)[s].(grad := 0.0)]
    {
      nodes := nodes[s := nodes[s].(grad := 0.0)];
      SameShapeWellFormed(old(nodes), nodes);
    }

    /** `&a + &b`. */
    method Add(a: Scalar, b: Scalar) returns (out: Scalar)
      requires WellFormed(nodes) && a < |nodes| && b < |nodes|
      modifies this
      ensures WellFormed(nodes) && out == |old(nodes)|
      ensures nodes == old(nodes) + [AddNode(old(nodes), a, b)]
    {
      PushWellFormed(nodes, AddNode(nodes, a, b));
      out := |nodes|;
      nodes := nodes + [AddNode(nodes, a, b)];
    }

    /** `&a * &b`. */
    method Mul(a: Scalar, b: Scalar) returns (out: Scalar)
      requires WellFormed(nodes) && a < |nodes| && b < |nodes|
      modifies this
      ensures WellFormed(nodes) && out == |old(nodes)|
      ensures nodes == old(nodes) + [MulNode(old(nodes), a, b)]
    {
      PushWellFormed(nodes, MulNode(nodes, a, b));
      out := |nodes|;
      nodes := nodes + [MulNode(nodes, a, b)];
    }

    /** `a.pow(p)`; the exponent is a plain number, not a graph node. */
    method Pow(a: Scalar, p: real) returns (out: Scalar)
      requires WellFormed(nodes) && a < |nodes|
      modifies this
      ensures WellFormed(nodes) && out == |old(nodes)|
      ensures nodes == old(nodes) + [PowNode(fl, old(nodes), a, p)]
    {
      PushWellFormed(nodes, PowNode(fl, nodes, a, p));
      out := |nodes|;
      nodes := nodes + [PowNode(fl, nodes, a, p)];
    }

    /** `a.exp()`. */
    method Exp(a: Scalar) returns (out: Scalar)
      requires WellFormed(nodes) && a < |nodes|
      modifies this
      ensures WellFormed(nodes) && out == |old(nodes)|
      ensures nodes == old(nodes) + [ExpNode(fl, old(nodes), a)]
    {
      PushWellFormed(nodes, ExpNode(fl, nodes, a));
      out := |nodes|;
      nodes := nodes + [ExpNode(fl, nodes, a)];
    }

    /** `a.tanh()`. */
    method Tanh(a: Scalar) returns (out: Scalar)
      requires WellFormed(nodes) && a < |nodes|
      modifies this
      ensures WellFormed(nodes) && out == |old(nodes)|
      ensures nodes == old(nodes) + [TanhNode(fl, old(nodes), a)]
    {
      PushWellFormed(nodes, TanhNode(fl, nodes, a));
      out := |nodes|;
      nodes := nodes + [TanhNode(fl, nodes, a)];
    }

    /** `a.add_number(k)`. */
    method AddNumber(a: Scalar, k: real) returns (out: Scalar)
      requires WellFormed(nodes) && a < |nodes|
      modifies this
      ensures WellFormed(nodes) && out == |old(nodes)| + 1
      ensures nodes == old(nodes) + AddNumberNodes(fl, old(nodes), a, k)
      ensures nodes[out].data == nodes[a].data + k
    {
      DerivedData(fl, nodes, a, a, k);
      var rhs := New(k);
      SetLabel(rhs, "(Constant " + fl.show(k) + ")");
      assert nodes == old(nodes) + [Constant(fl, k)];
      out := Add(a, rhs);
    }

    /** `a.mul_number(k)`. */
    method MulNumber(a: Scalar, k: real) returns (out: Scalar)
      requires WellFormed(nodes) && a < |nodes|
      modifies this
      ensures WellFormed(nodes) && out == |old(nodes)| + 1
      ensures nodes == old(nodes) + MulNumberNodes(fl, old(nodes), a, k)
      ensures nodes[out].data == nodes[a].data * k
    {
      DerivedData(fl, nodes, a, a, k);
      var rhs := New(k);
      SetLabel(rhs, "(Constant " + fl.show(k) + ")");
      assert nodes == old(nodes) + [Constant(fl, k)];
      out := Mul(a, rhs);
    }

    /** `-a`. */
    method Neg(a: Scalar) returns (out: Scalar)
      requires WellFormed(nodes) && a < |nodes|
      modifies this
      ensures WellFormed(nodes) && out == |old(nodes)| + 1
      ensures nodes == old(nodes) + NegNodes(fl, old(nodes), a)
      ensures nodes[out].data == -nodes[a].data
    {
      DerivedData(fl, nodes, a, a, -1.0);
      out := MulNumber(a, -1.0);
      SetLabel(out, "(not " + nodes[a].name + ")");
    }

    /** `&a - &b`. */
    method Sub(a: Scalar, b: Scalar) returns (out: Scalar)
      requires WellFormed(nodes) && a < |nodes| && b < |nodes|
      modifies this
      ensures WellFormed(nodes) && out == |old(nodes)| + 2
      ensures nodes == old(nodes) + SubNodes(fl, old(nodes), a, b)
      ensures nodes[out].data == nodes[a].data - nodes[b].data
    {
      DerivedData(fl, nodes, a, b, -1.0);
      var negation := Neg(b);
      out := Add(a, negation);
      SetLabel(out, "(" + nodes[a].name + " - " + nodes[b].name + ")");
    }

    /** `&a / &b`: no guard against a zero divisor. */
    method Div(a: Scalar, b: Scalar) returns (out: Scalar)
      requires WellFormed(nodes) && a < |nodes| && b < |nodes|
      modifies this
      ensures WellFormed(nodes) && out == |old(nodes)| + 1
      ensures nodes == old(nodes) + DivNodes(fl, old(nodes), a, b)
    {
      var reciprocal := Pow(b, -1.0);
      out := Mul(a, reciprocal);
    }

    // -------------------------------------------------------------------------
    // back_prop

    /** Fires the backward closure of node `v`, updating producer gradients in place. */
    method Propagate(v: Scalar)
      requires WellFormed(nodes) && v < |nodes|
      modifies this
      ensures nodes == Fire(fl, old(nodes), v)
      ensures WellFormed(nodes)
    {
      ghost var ns := nodes;
      var out := nodes[v];
      match out.op {
        case Leaf =>
        case Add =>
          var a, b := out.producers[0], out.producers[1];
          nodes := nodes[a := nodes[a].(grad := nodes[a].grad + nodes[v].grad)];
          nodes := nodes[b := nodes[b].(grad := nodes[b].grad + nodes[v].grad)];
        case Mul =>
          var a, b := out.producers[0], out.producers[1];
          var aData, bData, outGrad := nodes[a].data, nodes[b].data, nodes[v].grad;
          var da, db := bData * outGrad, aData * outGrad;
          assert da == Local(fl, ns, v, 0) && db == Local(fl, ns, v, 1);
          nodes := nodes[a := nodes[a].(grad := nodes[a].grad + da)];
          nodes := nodes[b := nodes[b].(grad := nodes[b].grad + db)];
        case Pow(p) =>
          var a := out.producers[0];
          var aData, outGrad := nodes[a].data, nodes[v].grad;
          var da := p * fl.powf(aData, p - 1.0) * outGrad;
          assert da == Local(fl, ns, v, 0);
          nodes := nodes[a := nodes[a].(grad := nodes[a].grad + da)];
        case Exp =>
          var a := out.producers[0];
          var outData, outGrad := nodes[v].data, nodes[v].grad;
          var da := outData * outGrad;
          assert da == Local(fl, ns, v, 0);
          nodes := nodes[a := nodes[a].(grad := nodes[a].grad + da)];
        case Tanh =>
          var a := out.producers[0];
          var t, outGrad := nodes[v].data, nodes[v].grad;
          var da := (1.0 - t * t) * outGrad;
          assert da == Local(fl, ns, v, 0);
          nodes := nodes[a := nodes[a].(grad := nodes[a].grad + da)];
      }
    }

    /**
     * `root.back_prop()`: order the graph, overwrite the root's gradient with 1, fire
     * every reachable node's rule in reverse order.
     */
    method BackProp(root: Scalar)
      requires WellFormed(nodes) && root < |nodes|
      modifies this
      ensures WellFormed(nodes) && nodes == Backward(fl, old(nodes), root)
      ensures SameShape(old(nodes), nodes) && nodes[root].grad == 1.0
      ensures forall u :: 0 <= u < |nodes| && u !in Reach(old(nodes), root) ==> nodes[u] == old(nodes)[u]
      ensures forall u :: 0 <= u < |nodes| && u != root ==>
        nodes[u].grad == old(nodes)[u].grad + Sum(fl, nodes, Dfs(old(nodes), root, {}), u)
    {
      BackwardEffect(fl, nodes, root);
      var _, order := Visit(nodes, root, {}, []);
      assert order == Dfs(nodes, root, {}) by {
        assert [] + Dfs(nodes, root, {}) == Dfs(nodes, root, {});
      }
      nodes := Seed(nodes, root);
      PropagateReversed(order);
    }

    /** The loop of `back_prop`: each node of `order`, from the last to the first, fires. */
    method PropagateReversed(order: seq<Scalar>)
      requires WellFormed(nodes) && forall j :: 0 <= j < |order| ==> order[j] < |nodes|
      modifies this
      ensures WellFormed(nodes) && nodes == FireRev(fl, old(nodes), order)
    {
      ghost var target := FireRev(fl, nodes, order);
      assert order[..|order|] == order;
      for i: nat := |order| downto 0
        invariant Firing(fl, nodes, order, i, target)
      {
        FiringStep(fl, nodes, order, i + 1, target);
        Propagate(order[i]);
      }
      assert order[..0] == [];
    }
  }

  /**
   * The loop state of `back_prop` after the nodes from `order[i]` on have fired: firing
   * the rest, `order[..i]`, in reverse yields `target`.
   */
  ghost predicate Firing(fl: Floats, ns: seq<Node>, order: seq<Scalar>, i: nat, target: seq<Node>) {
    WellFormed(ns) && i <= |order| && (forall j :: 0 <= j < |order| ==> order[j] < |ns|) &&
    FireRev(fl, ns, order[..i]) == target
  }

  lemma FiringStep(fl: Floats, ns: seq<Node>, order: seq<Scalar>, i: nat, target: seq<Node>)
    requires Firing(fl, ns, order, i, target) && i > 0
    ensures order[i - 1] < |ns| && Firing(fl, Fire(fl, ns, order[i - 1]), order, i - 1, target)
  {
    FireRevPrefix(fl, ns, order, i);
  }

  /** The loop state of `visit(v)` after the producers before `rest` are done. */
  ghost predicate Visiting(ns: seq<Node>, v: Scalar, visited: set<Scalar>, order: seq<Scalar>,
                           rest: seq<Scalar>, visited': set<Scalar>, order': seq<Scalar>)
    requires WellFormed(ns) && v < |ns|
  {
    (forall k :: 0 <= k < |rest| ==> rest[k] < v) &&
    exists done: seq<Scalar> ::
      order' == order + done && visited' == visited + {v} + Elems(done) &&
      Walk(ns, ns[v].producers, visited + {v}, v) == done + Walk(ns, rest, visited', v)
  }

  lemma VisitingStep(ns: seq<Node>, v: Scalar, visited: set<Scalar>, order: seq<Scalar>,
                     rest: seq<Scalar>, visited': set<Scalar>, order': seq<Scalar>)
    requires WellFormed(ns) && v < |ns| && rest != []
    requires Visiting(ns, v, visited, order, rest, visited', order')
    ensures rest[0] < v
    ensures Visiting(ns, v, visited, order, rest[1..],
      visited' + Elems(Dfs(ns, rest[0], visited')), order' + Dfs(ns, rest[0], visited'))
  {
    var done :| order' == order + done && visited' == visited + {v} + Elems(done) &&
      Walk(ns, ns[v].producers, visited + {v}, v) == done + Walk(ns, rest, visited', v);
    var step := Dfs(ns, rest[0], visited');
    WalkStep(ns, rest, visited', v, done);
    ElemsAppend(done, step);
    assert order' + step == order + (done + step);
  }

  /**
   * The `visit` function nested in `back_prop`: if `v` is not yet visited, mark it,
   * visit its producers in stored order, then append `v` to the ordering. It only
   * reads the graph, here the arena `ns`.
   */
  method Visit(ns: seq<Node>, v: Scalar, visited: set<Scalar>, order: seq<Scalar>)
    returns (visited': set<Scalar>, order': seq<Scalar>)
    requires WellFormed(ns) && v < |ns|
    ensures order' == order + Dfs(ns, v, visited)
    ensures visited' == visited + Elems(Dfs(ns, v, visited))
    decreases v
  {
    if v in visited {
      assert Elems([]) == {};
      return visited, order;
    }
    visited', order' := visited + {v}, order;
    var rest: seq<Scalar> := ns[v].producers;
    assert Visiting(ns, v, visited, order, rest, visited', order') by {
      assert order' == order + [] && visited' == visited + {v} + Elems([]);
    }
    while rest != []
      invariant Visiting(ns, v, visited, order, rest, visited', order')
      decreases |rest|
    {
      VisitingStep(ns, v, visited, order, rest, visited', order');
      visited', order' := Visit(ns, rest[0], visited', order');
      rest := rest[1..];
    }
    ghost var done :| order' == order + done && visited' == visited + {v} + Elems(done) &&
      Walk(ns, ns[v].producers, visited + {v}, v) == done + Walk(ns, rest, visited', v);
    ElemsAppend(done, [v]);
    order' := order' + [v];
  }
}
