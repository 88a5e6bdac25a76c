/**
 * The backward pass of `back_prop`, as functions on the arena.
 *
 * `Fire` is one node's backward closure: it adds the node's local-derivative
 * contributions into its producers' gradient cells, with the same sequence of `+=`
 * the closure performs. `Contrib` is an independent per-pair statement of the same
 * rules: how much consumer `c` adds to node `u`. `FireRev` fires an ordering from its
 * last node to its first, and `Backward` is the whole pass: seed the root to 1, then
 * fire the depth-first post-order in reverse.
 *
 * The main result, `BackwardEffect`, says what the pass leaves behind: the root holds
 * exactly 1, nodes the root does not reach are untouched, and every other node holds
 * its previous gradient plus the contributions of all reachable consumers, each
 * computed from that consumer's final gradient.
 */
module Gradients {
  import opened ScalarGraph

  /** The `+=` a closure performs on the gradient cell of node `i`. */
  function AddGrad(ns: seq<Node>, i: Scalar, d: real): seq<Node>
    requires i < |ns|
  {
    ns[i := ns[i].(grad := ns[i].grad + d)]
  }

  /**
   * The amount the `k`-th `+=` of node `c`'s backward closure adds to its `k`-th
   * producer. Mul reads both operands' current data; Pow reads the operand's current
   * data; Exp and Tanh read the output's own data.
   */
  function Local(fl: Floats, ns: seq<Node>, c: Scalar, k: nat): real
    requires WellFormed(ns) && c < |ns| && k < Arity(ns[c].op)
  {
    var out := ns[c];
    var g := out.grad;
    match out.op
    case Add => g
    case Mul =>
      var a, b := out.producers[0], out.producers[1];
      if k == 0 then ns[b].data * g else ns[a].data * g
    case Pow(p) =>
      p * fl.powf(ns[out.producers[0]].data, p - 1.0) * g
    case Exp => out.data * g
    case Tanh => (1.0 - out.data * out.data) * g
  }

  /**
   * Node `c`'s backward closure: one `+=` per producer, in stored order, each amount
   * read before any of them is applied. (Add reads the output gradient afresh at its
   * second `+=`, but the output is never its own producer, so it reads the same value.)
   */
  function Fire(fl: Floats, ns: seq<Node>, c: Scalar): (ms: seq<Node>)
    requires WellFormed(ns) && c < |ns|
    ensures SameShape(ns, ms) && WellFormed(ms)
  {
    var ps := ns[c].producers;
    if |ps| == 0 then ns
    else if |ps| == 1 then AddGrad(ns, ps[0], Local(fl, ns, c, 0))
    else AddGrad(AddGrad(ns, ps[0], Local(fl, ns, c, 0)), ps[1], Local(fl, ns, c, 1))
  }

  /** The amount consumer `c`'s rule adds to node `u`, given `c`'s current gradient. */
  function Contrib(fl: Floats, ns: seq<Node>, c: Scalar, u: Scalar): real
    requires WellFormed(ns) && c < |ns|
  {
    var out := ns[c];
    var g := out.grad;
    match out.op
    case Leaf => 0.0
    case Add =>
      (if out.producers[0] == u then g else 0.0) + (if out.producers[1] == u then g else 0.0)
    case Mul =>
      var a, b := out.producers[0], out.producers[1];
      (if a == u then ns[b].data * g else 0.0) + (if b == u then ns[a].data * g else 0.0)
    case Pow(p) =>
      var a := out.producers[0];
      if a == u then p * fl.powf(ns[a].data, p - 1.0) * g else 0.0
    case Exp =>
      if out.producers[0] == u then out.data * g else 0.0
    case Tanh =>
      if out.producers[0] == u then (1.0 - out.data * out.data) * g else 0.0
  }

  /**
   * Firing `c` adds exactly `Contrib(c, u)` to every node `u`: when both operands of
   * an Add or a Mul are the same node, that node receives both contributions.
   */
  lemma FireAddsContrib(fl: Floats, ns: seq<Node>, c: Scalar, u: Scalar)
    requires WellFormed(ns) && c < |ns| && u < |ns|
    ensures Fire(fl, ns, c)[u].grad == ns[u].grad + Contrib(fl, ns, c, u)
  {
    if ns[c].op == Add {
      assert ns[c].producers[0] < c;
    }
  }

  lemma ContribOnlyToProducers(fl: Floats, ns: seq<Node>, c: Scalar, u: Scalar)
    requires WellFormed(ns) && c < |ns| && u !in ns[c].producers
    ensures Contrib(fl, ns, c, u) == 0.0
  {
  }

  /** A contribution depends on the consumer's gradient and the arena's shape only. */
  lemma ContribFrame(fl: Floats, ns: seq<Node>, ms: seq<Node>, c: Scalar, u: Scalar)
    requires WellFormed(ns) && SameShape(ns, ms) && c < |ns| && ms[c].grad == ns[c].grad
    ensures WellFormed(ms) && Contrib(fl, ms, c, u) == Contrib(fl, ns, c, u)
  {
    SameShapeWellFormed(ns, ms);
    var ps := ns[c].producers;
    assert forall k :: 0 <= k < |ps| ==> ms[ps[k]].data == ns[ps[k]].data;
  }

  lemma ProducersFirstPrefix(ns: seq<Node>, ms: seq<Node>, r: seq<Scalar>, m: nat)
    requires SameShape(ns, ms) && forall i :: 0 <= i < |r| ==> r[i] < |ns|
    requires ProducersFirst(ns, r) && m <= |r|
    ensures ProducersFirst(ms, r[..m])
  {
    var h := r[..m];
    forall i, j | 0 <= i <= j < |h| ensures h[j] !in ms[h[i]].producers {
      assert h[j] == r[j] && h[i] == r[i];
    }
  }

  /** Fires the nodes of `r` from the last to the first (`iter().rev()`). */
  function FireRev(fl: Floats, ns: seq<Node>, r: seq<Scalar>): (ms: seq<Node>)
    requires WellFormed(ns) && forall i :: 0 <= i < |r| ==> r[i] < |ns|
    ensures SameShape(ns, ms) && WellFormed(ms)
    decreases |r|
  {
    if r == [] then ns
    else FireRev(fl, Fire(fl, ns, r[|r| - 1]), r[..|r| - 1])
  }

  /** Firing the prefix `r[..i]` in reverse starts with its last node `r[i - 1]`. */
  lemma FireRevPrefix(fl: Floats, ns: seq<Node>, r: seq<Scalar>, i: nat)
    requires WellFormed(ns) && 0 < i <= |r| && forall j :: 0 <= j < |r| ==> r[j] < |ns|
    ensures FireRev(fl, ns, r[..i]) == FireRev(fl, Fire(fl, ns, r[i - 1]), r[..i - 1])
  {
    assert r[..i][..i - 1] == r[..i - 1];
  }

  /** The total that the nodes of `r` contribute to `u`, read in arena `ms`. */
  function Sum(fl: Floats, ms: seq<Node>, r: seq<Scalar>, u: Scalar): real
    requires WellFormed(ms) && forall i :: 0 <= i < |r| ==> r[i] < |ms|
    decreases |r|
  {
    if r == [] then 0.0
    else Sum(fl, ms, r[..|r| - 1], u) + Contrib(fl, ms, r[|r| - 1], u)
  }

  lemma {:induction false} SumOfNonConsumers(fl: Floats, ms: seq<Node>, r: seq<Scalar>, u: Scalar)
    requires WellFormed(ms) && forall i :: 0 <= i < |r| ==> r[i] < |ms|
    requires forall i :: 0 <= i < |r| ==> u !in ms[r[i]].producers
    ensures Sum(fl, ms, r, u) == 0.0
    decreases |r|
  {
    if r != [] {
      SumOfNonConsumers(fl, ms, r[..|r| - 1], u);
      ContribOnlyToProducers(fl, ms, r[|r| - 1], u);
    }
  }

  /**
   * Firing a topologically ordered `r` in reverse leaves every node with its earlier
   * gradient plus the contributions of the nodes of `r`, each computed from that
   * consumer's FINAL gradient: no consumer's gradient changes after it has fired.
   */
  lemma {:induction false} FireRevAdjoint(fl: Floats, ns: seq<Node>, r: seq<Scalar>, u: Scalar)
    requires WellFormed(ns) && forall i :: 0 <= i < |r| ==> r[i] < |ns|
    requires ProducersFirst(ns, r) && u < |ns|
    ensures FireRev(fl, ns, r)[u].grad == ns[u].grad + Sum(fl, FireRev(fl, ns, r), r, u)
    decreases |r|
  {
    if r != [] {
      var w, r' := r[|r| - 1], r[..|r| - 1];
      var ns1 := Fire(fl, ns, w);
      var ms := FireRev(fl, ns1, r');
      assert ms == FireRev(fl, ns, r);
      ProducersFirstPrefix(ns, ns1, r, |r| - 1);
      FireRevAdjoint(fl, ns1, r', u);
      FireRevAdjoint(fl, ns1, r', w);
      LastIsNoProducer(ns, ns1, r);
      SumOfNonConsumers(fl, ms, r', w);
      ContribOnlyToProducers(fl, ns, w, w);
      FireAddsContrib(fl, ns, w, w);
      FireAddsContrib(fl, ns, w, u);
      assert ms[w].grad == ns[w].grad;
      ContribFrame(fl, ns, ms, w, u);
    }
  }

  /** The last node of a topological ordering is a producer of none of its nodes. */
  lemma LastIsNoProducer(ns: seq<Node>, ms: seq<Node>, r: seq<Scalar>)
    requires WellFormed(ns) && SameShape(ns, ms) && forall i :: 0 <= i < |r| ==> r[i] < |ns|
    requires ProducersFirst(ns, r) && r != []
    ensures forall i :: 0 <= i < |r| - 1 ==> r[|r| - 1] !in ms[r[i]].producers
    ensures r[|r| - 1] !in ns[r[|r| - 1]].producers
  {
  }

  lemma {:induction false} FireRevSplit(fl: Floats, ns: seq<Node>, a: seq<Scalar>, b: seq<Scalar>)
    requires WellFormed(ns)
    requires forall i :: 0 <= i < |a| ==> a[i] < |ns|
    requires forall i :: 0 <= i < |b| ==> b[i] < |ns|
    ensures FireRev(fl, ns, a + b) == FireRev(fl, FireRev(fl, ns, b), a)
    decreases |b|
  {
    if b != [] {
      var last := b[|b| - 1];
      assert (a + b)[..|a + b| - 1] == a + b[..|b| - 1];
      assert (a + b)[|a + b| - 1] == last;
      FireRevSplit(fl, Fire(fl, ns, last), a, b[..|b| - 1]);
    } else {
      assert a + b == a;
    }
  }

  /**
   * When the rule of `r[k]` fires, every consumer of `r[k]` listed in `r` has already
   * fired, and the gradient `r[k]` propagates is already its final value.
   */
  lemma GradFinalWhenFired(fl: Floats, ns: seq<Node>, r: seq<Scalar>, k: nat)
    requires WellFormed(ns) && forall i :: 0 <= i < |r| ==> r[i] < |ns|
    requires ProducersFirst(ns, r) && k < |r|
    ensures forall j :: 0 <= j < |r| && r[k] in ns[r[j]].producers ==> k < j
    ensures FireRev(fl, ns, r[k + 1..])[r[k]].grad == FireRev(fl, ns, r)[r[k]].grad
  {
    var before := FireRev(fl, ns, r[k + 1..]);
    assert r == r[..k + 1] + r[k + 1..];
    FireRevSplit(fl, ns, r[..k + 1], r[k + 1..]);
    var head := r[..k + 1];
    ProducersFirstPrefix(ns, before, r, k + 1);
    FireRevAdjoint(fl, before, head, r[k]);
    forall i | 0 <= i < |head| ensures r[k] !in before[head[i]].producers {
      assert head[i] == r[i];
    }
    SumOfNonConsumers(fl, FireRev(fl, before, head), head, r[k]);
  }

  lemma SameShapeTrans(a: seq<Node>, b: seq<Node>, c: seq<Node>)
    requires SameShape(a, b) && SameShape(b, c)
    ensures SameShape(a, c)
  {
  }

  /** Step 2 of `back_prop`: the root's gradient is replaced by 1. */
  function Seed(ns: seq<Node>, root: Scalar): (ms: seq<Node>)
    requires WellFormed(ns) && root < |ns|
    ensures WellFormed(ms) && SameShape(ns, ms)
    ensures ms[root].grad == 1.0
    ensures forall i :: 0 <= i < |ns| && i != root ==> ms[i] == ns[i]
  {
    var ms := ns[root := ns[root].(grad := 1.0)];
    assert SameShape(ns, ms);
    SameShapeWellFormed(ns, ms);
    ms
  }

  /** The arena after `root.back_prop()`. */
  function Backward(fl: Floats, ns: seq<Node>, root: Scalar): seq<Node>
    requires WellFormed(ns) && root < |ns|
  {
    FireRev(fl, Seed(ns, root), Dfs(ns, root, {}))
  }

  lemma ProducerReached(ns: seq<Node>, root: Scalar, x: Scalar, k: nat)
    requires WellFormed(ns) && root < |ns| && x < |ns| && x in Reach(ns, root)
    requires k < |ns[x].producers|
    ensures ns[x].producers[k] in Reach(ns, root)
  {
    ReachAllContains(ns, ns[x].producers, x, k);
    ReachTransitive(ns, root, x);
  }

  /**
   * The effect of `back_prop`: only gradients change; the root's gradient is
   * overwritten with 1; nodes the root does not reach are untouched; every other
   * node keeps its earlier gradient (nothing is zeroed) and accumulates the
   * contribution of every reachable consumer, once per use.
   */
  lemma BackwardEffect(fl: Floats, ns: seq<Node>, root: Scalar)
    requires WellFormed(ns) && root < |ns|
    ensures SameShape(ns, Backward(fl, ns, root))
    ensures Backward(fl, ns, root)[root].grad == 1.0
    ensures forall u :: 0 <= u < |ns| && u !in Reach(ns, root) ==> Backward(fl, ns, root)[u] == ns[u]
    ensures forall u :: 0 <= u < |ns| && u != root ==>
      Backward(fl, ns, root)[u].grad ==
        ns[u].grad + Sum(fl, Backward(fl, ns, root), Dfs(ns, root, {}), u)
  {
    var r := Dfs(ns, root, {});
    var seeded := Seed(ns, root);
    var ms := Backward(fl, ns, root);
    TopologicalOrder(ns, root);
    assert ProducersFirst(seeded, r);
    forall u | 0 <= u < |ns|
      ensures u == root ==> ms[u].grad == 1.0
      ensures u != root ==> ms[u].grad == ns[u].grad + Sum(fl, ms, r, u)
      ensures u !in Reach(ns, root) ==> ms[u] == ns[u]
    {
      BackwardAt(fl, ns, root, u);
    }
  }

  lemma BackwardAt(fl: Floats, ns: seq<Node>, root: Scalar, u: Scalar)
    requires WellFormed(ns) && root < |ns| && u < |ns|
    requires Elems(Dfs(ns, root, {})) == Reach(ns, root)
    requires ProducersFirst(Seed(ns, root), Dfs(ns, root, {}))
    ensures u == root ==> Backward(fl, ns, root)[u].grad == 1.0
    ensures u != root ==> (Backward(fl, ns, root)[u].grad ==
      ns[u].grad + Sum(fl, Backward(fl, ns, root), Dfs(ns, root, {}), u))
    ensures u !in Reach(ns, root) ==> Backward(fl, ns, root)[u] == ns[u]
  {
    var r := Dfs(ns, root, {});
    var seeded := Seed(ns, root);
    var ms := FireRev(fl, seeded, r);
    assert ms == Backward(fl, ns, root);
    FireRevAdjoint(fl, seeded, r, u);
    SameShapeTrans(ns, seeded, ms);
    if u == root {
      SumOfNonConsumers(fl, ms, r, u);
    } else if u !in Reach(ns, root) {
      UnreachedIsNoProducer(ns, ms, root, r, u);
      SumOfNonConsumers(fl, ms, r, u);
    }
  }

  lemma UnreachedIsNoProducer(ns: seq<Node>, ms: seq<Node>, root: Scalar, r: seq<Scalar>, u: Scalar)
    requires WellFormed(ns) && root < |ns| && SameShape(ns, ms)
    requires r == Dfs(ns, root, {}) && Elems(r) == Reach(ns, root)
    requires u !in Reach(ns, root)
    ensures forall i :: 0 <= i < |r| ==> u !in ms[r[i]].producers
  {
    forall i | 0 <= i < |r| ensures u !in ms[r[i]].producers {
      assert r[i] in Elems(r);
      if u in ms[r[i]].producers {
        var k :| 0 <= k < |ms[r[i]].producers| && ms[r[i]].producers[k] == u;
        ProducerReached(ns, root, r[i], k);
      }
    }
  }
}
