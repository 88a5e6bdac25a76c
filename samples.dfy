/**
 * Worked gradients for small graphs: the chain rule on concrete numbers, operand
 * sharing, accumulation across repeated `back_prop` calls, and node identity.
 */
module Samples {
  import opened ScalarGraph
  import opened Gradients
  import opened Ops
  import opened Engine
  import opened Nn

  /** A leaf `0` used twice by an Add node `1`. */
  predicate Doubled(ns: seq<Node>) {
    |ns| == 2 && ns[0].op == Leaf && ns[0].producers == [] && ns[1].op == Add && ns[1].producers == [0, 0]
  }

  /** The second use of the operand finds it visited. */
  lemma DoubledSecondUse(ns: seq<Node>)
    requires Doubled(ns)
    ensures WellFormed(ns) && Walk(ns, [0], {0, 1}, 1) == []
  {
    assert Dfs(ns, 0, {0, 1}) == [];
    assert Elems([]) == {};
  }

  lemma DoubledWalk(ns: seq<Node>)
    requires Doubled(ns)
    ensures WellFormed(ns) && Walk(ns, [0, 0], {1}, 1) == [0]
  {
    DoubledSecondUse(ns);
    assert Walk(ns, [], {0, 1}, 0) == [];
    assert Dfs(ns, 0, {1}) == [0];
    assert {1} + Elems([0]) == {0, 1};
  }

  /** The ordering of `visit` lists a twice-used operand once, before its consumer. */
  lemma DoubledOrder(ns: seq<Node>)
    requires Doubled(ns)
    ensures WellFormed(ns) && Dfs(ns, 1, {}) == [0, 1]
  {
    DoubledWalk(ns);
    assert {} + {1} == {1};
  }

  /** `(a + a).back_prop()`: the shared operand receives both contributions of the Add rule. */
  lemma DoubledBackward(fl: Floats, ns: seq<Node>)
    requires Doubled(ns)
    ensures WellFormed(ns)
    ensures Backward(fl, ns, 1)[0].grad == ns[0].grad + 2.0 && Backward(fl, ns, 1)[1].grad == 1.0
  {
    DoubledOrder(ns);
    var seeded := Seed(ns, 1);
    var fired := Fire(fl, seeded, 1);
    assert fired[0].grad == ns[0].grad + 2.0 && fired[1].grad == 1.0;
    assert Fire(fl, fired, 0) == fired;
    assert FireRev(fl, seeded, [0, 1]) == fired;
  }

  /** `b = &a + &a` with `a = 3`, then `b.back_prop()`. */
  method ReuseGradients(fl: Floats) returns (aGrad: real, bGrad: real)
    ensures aGrad == 2.0 && bGrad == 1.0
  {
    var arena := new Arena(fl);
    var a := arena.New(3.0);
    var b := arena.Add(a, a);
    DoubledBackward(fl, arena.nodes);
    arena.BackProp(b);
    aGrad, bGrad := arena.nodes[a].grad, arena.nodes[b].grad;
  }

  /**
   * Calling `back_prop` again on `a + a`: the root is overwritten with 1 again, while
   * the operand keeps its gradient from the first call and accumulates on top of it.
   */
  method ReuseTwice(fl: Floats) returns (aGrad: real, bGrad: real)
    ensures aGrad == 4.0 && bGrad == 1.0
  {
    var arena := new Arena(fl);
    var a := arena.New(3.0);
    var b := arena.Add(a, a);
    DoubledBackward(fl, arena.nodes);
    arena.BackProp(b);
    DoubledBackward(fl, arena.nodes);
    arena.BackProp(b);
    aGrad, bGrad := arena.nodes[a].grad, arena.nodes[b].grad;
  }

  /** A leaf `0` and a one-operand node `1` over it. */
  predicate Unary(ns: seq<Node>) {
    |ns| == 2 && ns[0].op == Leaf && ns[0].producers == [] && Arity(ns[1].op) == 1 && ns[1].producers == [0]
  }

  /** Backward through one unary rule: the operand gains that rule's local derivative. */
  lemma UnaryBackward(fl: Floats, ns: seq<Node>)
    requires Unary(ns)
    ensures WellFormed(ns) && WellFormed(Seed(ns, 1))
    ensures Backward(fl, ns, 1)[0].grad == ns[0].grad + Local(fl, Seed(ns, 1), 1, 0)
    ensures Backward(fl, ns, 1)[1].grad == 1.0
  {
    UnaryOrder(ns);
    var seeded := Seed(ns, 1);
    var fired := Fire(fl, seeded, 1);
    assert Fire(fl, fired, 0) == fired;
    assert FireRev(fl, seeded, [0, 1]) == fired;
  }

  lemma UnaryOperand(ns: seq<Node>)
    requires Unary(ns)
    ensures WellFormed(ns) && Walk(ns, [0], {1}, 1) == [0]
  {
    assert Dfs(ns, 0, {1}) == [0] by {
      assert Walk(ns, [], {0, 1}, 0) == [];
    }
    assert Walk(ns, [], {1} + Elems([0]), 1) == [];
  }

  lemma UnaryOrder(ns: seq<Node>)
    requires Unary(ns)
    ensures WellFormed(ns) && Dfs(ns, 1, {}) == [0, 1]
  {
    UnaryOperand(ns);
    assert {} + {1} == {1};
  }

  /** `x = 3`, `x.pow(2.0).back_prop()`: the power rule gives `x.grad = 2 * 3 = 6`. */
  method PowerGradient(fl: Floats) returns (xGrad: real)
    requires fl.powf(3.0, 1.0) == 3.0
    ensures xGrad == 6.0
  {
    var arena := new Arena(fl);
    var x := arena.New(3.0);
    var power := arena.Pow(x, 2.0);
    UnaryBackward(fl, arena.nodes);
    arena.BackProp(power);
    xGrad := arena.nodes[x].grad;
  }

  /** `x.exp().back_prop()`: the Exp rule passes the output's own data back to `x`. */
  method ExpGradient(fl: Floats, v: real) returns (xGrad: real, eData: real)
    ensures eData == fl.exp(v) && xGrad == eData
  {
    var arena := new Arena(fl);
    var x := arena.New(v);
    var e := arena.Exp(x);
    UnaryBackward(fl, arena.nodes);
    arena.BackProp(e);
    xGrad, eData := arena.nodes[x].grad, arena.nodes[e].data;
  }

  /** Two leaves `0` and `1` added by node `2`. */
  predicate Pair(ns: seq<Node>) {
    |ns| == 3 && ns[0].op == Leaf && ns[0].producers == [] && ns[1].op == Leaf && ns[1].producers == [] &&
    ns[2].op == Add && ns[2].producers == [0, 1]
  }

  /**
   * The visited set is keyed by node identity: two operands are both ordered and both
   * receive a gradient whatever their data, equal or not.
   */
  lemma PairBackward(fl: Floats, ns: seq<Node>)
    requires Pair(ns)
    ensures WellFormed(ns) && Dfs(ns, 2, {}) == [0, 1, 2]
    ensures Backward(fl, ns, 2)[0].grad == ns[0].grad + 1.0 && Backward(fl, ns, 2)[1].grad == ns[1].grad + 1.0
  {
    PairOrder(ns);
    var seeded := Seed(ns, 2);
    var fired := Fire(fl, seeded, 2);
    assert fired[0].grad == ns[0].grad + 1.0 && fired[1].grad == ns[1].grad + 1.0;
    assert Fire(fl, fired, 1) == fired;
    assert Fire(fl, fired, 0) == fired;
    assert FireRev(fl, fired, [0]) == fired;
    assert FireRev(fl, fired, [0, 1]) == fired by {
      assert [0, 1][..1] == [0];
    }
    assert FireRev(fl, seeded, [0, 1, 2]) == fired by {
      assert [0, 1, 2][..2] == [0, 1];
    }
  }

  lemma PairSecond(ns: seq<Node>)
    requires Pair(ns)
    ensures WellFormed(ns) && Walk(ns, [1], {0, 2}, 2) == [1]
  {
    assert Dfs(ns, 1, {0, 2}) == [1] by {
      assert Walk(ns, [], {0, 1, 2}, 1) == [];
    }
    assert Walk(ns, [], {0, 2} + Elems([1]), 2) == [];
  }

  lemma PairOrder(ns: seq<Node>)
    requires Pair(ns)
    ensures WellFormed(ns) && Dfs(ns, 2, {}) == [0, 1, 2]
  {
    PairSecond(ns);
    assert Dfs(ns, 0, {2}) == [0] by {
      assert Walk(ns, [], {0, 2}, 0) == [];
    }
    assert {2} + Elems([0]) == {0, 2};
    assert Walk(ns, [0, 1], {2}, 2) == [0, 1];
    assert {} + {2} == {2};
  }

  /** `c = &a + &b` with `a` and `b` both holding 1: both leaves get gradient 1. */
  method EqualLeavesStayDistinct(fl: Floats) returns (aGrad: real, bGrad: real)
    ensures aGrad == 1.0 && bGrad == 1.0
  {
    var arena := new Arena(fl);
    var a := arena.New(1.0);
    var b := arena.New(1.0);
    var c := arena.Add(a, b);
    PairBackward(fl, arena.nodes);
    arena.BackProp(c);
    aGrad, bGrad := arena.nodes[a].grad, arena.nodes[b].grad;
  }

  lemma MismatchText()
    ensures "Expected " + NatToString(2) + " inputs, not " + NatToString(3) == "Expected 2 inputs, not 3"
  {
    assert NatToString(2) == "2" && NatToString(3) == "3";
  }

  /** A neuron of two weights given three inputs: the error names both counts. */
  method MismatchMessage(fl: Floats) returns (r: Result<Scalar>)
    ensures r == Err("Expected 2 inputs, not 3")
  {
    var arena := new Arena(fl);
    var w0 := arena.New(0.5);
    var w1 := arena.New(-0.5);
    var bias := arena.New(0.0);
    var x0 := arena.New(1.0);
    var x1 := arena.New(2.0);
    var x2 := arena.New(3.0);
    r := NeuronForward(arena, Neuron([w0, w1], bias), [x0, x1, x2]);
    MismatchText();
  }
}
