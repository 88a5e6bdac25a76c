/**
 * The computation graph of the scalar autodiff engine, as a value.
 *
 * Nodes live in an arena (a sequence) and are addressed by index; a Scalar handle is
 * the index of the node it shares, so cloning a handle copies the index and handle
 * equality is node identity, never value equality. Every operation allocates a fresh
 * node at the end of the arena whose producers were allocated before it, which makes
 * the producer relation acyclic by construction.
 *
 * This module also holds the depth-first post-order that `back_prop` builds with its
 * inner `visit`, as a function (`Dfs`), and its properties: it lists exactly the nodes
 * reachable from the root, each once, every producer before its consumers, root last.
 */
module ScalarGraph {

  /** A handle to a node: its index in the arena. */
  type Scalar = nat

  /** The backward rule a node carries (None for a leaf in the source). */
  datatype Op = Leaf | Add | Mul | Pow(exponent: real) | Exp | Tanh

  /** One graph node; `name` is the source's `label` (a keyword in Dafny). */
  datatype Node = Node(data: real, grad: real, name: string, op: Op, producers: seq<Scalar>)

  /**
   * The host floating-point primitives the engine calls and does not define: `exp`,
   * `tanh`, `powf` and the `Display` rendering of a number used in labels.
   */
  datatype Floats = Floats(exp: real -> real, tanh: real -> real, powf: (real, real) -> real, show: real -> string)

  /** Number of producers each operation captures. */
  function Arity(op: Op): nat {
    match op
    case Leaf => 0
    case Add | Mul => 2
    case Pow(_) | Exp | Tanh => 1
  }

  /** Every node has as many producers as its rule reads, all allocated before it. */
  predicate WellFormed(ns: seq<Node>) {
    forall i :: 0 <= i < |ns| ==>
      |ns[i].producers| == Arity(ns[i].op) &&
      forall k :: 0 <= k < |ns[i].producers| ==> ns[i].producers[k] < i
  }

  /** Two arenas that differ at most in gradients. */
  predicate SameShape(ns: seq<Node>, ms: seq<Node>) {
    |ns| == |ms| &&
    forall i :: 0 <= i < |ns| ==>
      ms[i].data == ns[i].data && ms[i].name == ns[i].name &&
      ms[i].op == ns[i].op && ms[i].producers == ns[i].producers
  }

  lemma SameShapeWellFormed(ns: seq<Node>, ms: seq<Node>)
    requires WellFormed(ns) && SameShape(ns, ms)
    ensures WellFormed(ms)
  {
    forall i | 0 <= i < |ms|
      ensures |ms[i].producers| == Arity(ms[i].op) &&
              forall k :: 0 <= k < |ms[i].producers| ==> ms[i].producers[k] < i
    {
      assert ms[i].producers == ns[i].producers && ms[i].op == ns[i].op;
    }
  }

  function Elems(s: seq<Scalar>): set<Scalar> {
    set x | x in s
  }

  lemma ElemsAppend(a: seq<Scalar>, b: seq<Scalar>)
    ensures Elems(a + b) == Elems(a) + Elems(b)
  {
    assert forall x :: x in a + b <==> x in a || x in b;
  }

  predicate NoDup(s: seq<Scalar>) {
    forall i, j :: 0 <= i < j < |s| ==> s[i] != s[j]
  }

  // ---------------------------------------------------------------------------
  // Reachability through producer edges

  /** The nodes reachable from `v` by following producer edges, `v` included. */
  ghost function Reach(ns: seq<Node>, v: Scalar): set<Scalar>
    requires WellFormed(ns) && v < |ns|
    decreases v, |ns[v].producers| + 1
  {
    {v} + ReachAll(ns, ns[v].producers, v)
  }

  /** The nodes reachable from any of `ps`, all of which lie below `bound`. */
  ghost function ReachAll(ns: seq<Node>, ps: seq<Scalar>, bound: nat): set<Scalar>
    requires WellFormed(ns) && bound <= |ns|
    requires forall k :: 0 <= k < |ps| ==> ps[k] < bound
    decreases bound, |ps|
  {
    if ps == [] then {}
    else Reach(ns, ps[0]) + ReachAll(ns, ps[1..], bound)
  }

  lemma {:induction false} ReachAllContains(ns: seq<Node>, ps: seq<Scalar>, bound: nat, k: nat)
    requires WellFormed(ns) && bound <= |ns|
    requires forall k :: 0 <= k < |ps| ==> ps[k] < bound
    requires k < |ps|
    ensures Reach(ns, ps[k]) <= ReachAll(ns, ps, bound)
    decreases |ps|
  {
    if k > 0 {
      ReachAllContains(ns, ps[1..], bound, k - 1);
      assert ps[1..][k - 1] == ps[k];
    }
  }

  lemma {:induction false} ReachAllWitness(ns: seq<Node>, ps: seq<Scalar>, bound: nat, u: Scalar)
    returns (k: nat)
    requires WellFormed(ns) && bound <= |ns|
    requires forall k :: 0 <= k < |ps| ==> ps[k] < bound
    requires u in ReachAll(ns, ps, bound)
    ensures k < |ps| && u in Reach(ns, ps[k])
    decreases |ps|
  {
    if u in Reach(ns, ps[0]) {
      k := 0;
    } else {
      var j := ReachAllWitness(ns, ps[1..], bound, u);
      assert ps[1..][j] == ps[j + 1];
      k := j + 1;
    }
  }

  /** Producer edges only lead to earlier nodes. */
  lemma {:induction false} ReachBelow(ns: seq<Node>, v: Scalar, u: Scalar)
    requires WellFormed(ns) && v < |ns| && u in Reach(ns, v)
    ensures u <= v
    decreases v
  {
    if u != v {
      var k := ReachAllWitness(ns, ns[v].producers, v, u);
      ReachBelow(ns, ns[v].producers[k], u);
    }
  }

  /** Reachability is transitive. */
  lemma {:induction false} ReachTransitive(ns: seq<Node>, v: Scalar, u: Scalar)
    requires WellFormed(ns) && v < |ns| && u < |ns| && u in Reach(ns, v)
    ensures Reach(ns, u) <= Reach(ns, v)
    decreases v
  {
    if u != v {
      var ps := ns[v].producers;
      var k := ReachAllWitness(ns, ps, v, u);
      ReachTransitive(ns, ps[k], u);
      ReachAllContains(ns, ps, v, k);
    }
  }

  // ---------------------------------------------------------------------------
  // The depth-first post-order of `visit`

  /**
   * The nodes `visit(v)` appends to the ordering when the visited set is `seen`:
   * nothing if `v` was already visited, otherwise the orderings of its producers,
   * explored in stored order, followed by `v` itself.
   */
  function Dfs(ns: seq<Node>, v: Scalar, seen: set<Scalar>): (r: seq<Scalar>)
    requires WellFormed(ns) && v < |ns|
    ensures forall i :: 0 <= i < |r| ==> r[i] <= v
    decreases v, |ns[v].producers| + 1
  {
    if v in seen then []
    else Walk(ns, ns[v].producers, seen + {v}, v) + [v]
  }

  /** The loop over a node's producers in `visit`, threading the visited set. */
  function Walk(ns: seq<Node>, ps: seq<Scalar>, seen: set<Scalar>, bound: nat): (r: seq<Scalar>)
    requires WellFormed(ns) && bound <= |ns|
    requires forall k :: 0 <= k < |ps| ==> ps[k] < bound
    ensures forall i :: 0 <= i < |r| ==> r[i] < bound
    decreases bound, |ps|
  {
    if ps == [] then []
    else
      var first := Dfs(ns, ps[0], seen);
      first + Walk(ns, ps[1..], seen + Elems(first), bound)
  }

  /**
   * One round of the loop in `visit`, after the output `done` so far: the first
   * producer's traversal, then the traversal of the rest from the grown visited set.
   */
  lemma WalkStep(ns: seq<Node>, ps: seq<Scalar>, seen: set<Scalar>, bound: nat, done: seq<Scalar>)
    requires WellFormed(ns) && bound <= |ns| && ps != []
    requires forall k :: 0 <= k < |ps| ==> ps[k] < bound
    ensures done + Walk(ns, ps, seen, bound) ==
      (done + Dfs(ns, ps[0], seen)) + Walk(ns, ps[1..], seen + Elems(Dfs(ns, ps[0], seen)), bound)
  {
  }

  /** Every visited node below `bound` already has all it reaches in the visited set. */
  ghost predicate Finished(ns: seq<Node>, seen: set<Scalar>, bound: nat)
    requires WellFormed(ns) && bound <= |ns|
  {
    forall u :: u in seen && u < bound ==> Reach(ns, u) <= seen
  }

  /** Each listed node's producers are in `seen` or listed before it. */
  predicate ProducersListed(ns: seq<Node>, r: seq<Scalar>, seen: set<Scalar>)
    requires forall i :: 0 <= i < |r| ==> r[i] < |ns|
  {
    forall i, k :: 0 <= i < |r| && 0 <= k < |ns[r[i]].producers| ==>
      ns[r[i]].producers[k] in seen || ns[r[i]].producers[k] in r[..i]
  }

  /** No listed node has a producer at or after its own position. */
  predicate ProducersFirst(ns: seq<Node>, r: seq<Scalar>)
    requires forall i :: 0 <= i < |r| ==> r[i] < |ns|
  {
    forall i, j :: 0 <= i <= j < |r| ==> r[j] !in ns[r[i]].producers
  }

  /** `visit(v)` lists exactly the nodes `v` reaches that were not visited yet. */
  lemma {:induction false} DfsElems(ns: seq<Node>, v: Scalar, seen: set<Scalar>)
    requires WellFormed(ns) && v < |ns| && Finished(ns, seen, v + 1)
    ensures Elems(Dfs(ns, v, seen)) == Reach(ns, v) - seen
    decreases v, |ns[v].producers| + 1
  {
    if v in seen {
      assert Elems([]) == {};
    } else {
      var w := Walk(ns, ns[v].producers, seen + {v}, v);
      assert Finished(ns, seen + {v}, v);
      WalkElems(ns, ns[v].producers, seen + {v}, v);
      assert Elems(w + [v]) == Elems(w) + {v};
    }
  }

  lemma {:induction false} WalkElems(ns: seq<Node>, ps: seq<Scalar>, seen: set<Scalar>, bound: nat)
    requires WellFormed(ns) && bound <= |ns|
    requires forall k :: 0 <= k < |ps| ==> ps[k] < bound
    requires Finished(ns, seen, bound)
    ensures Elems(Walk(ns, ps, seen, bound)) == ReachAll(ns, ps, bound) - seen
    decreases bound, |ps|
  {
    if ps == [] {
      assert Elems([]) == {};
    } else {
      var a := Dfs(ns, ps[0], seen);
      DfsElems(ns, ps[0], seen);
      FinishedAfter(ns, ps[0], seen, bound);
      WalkElems(ns, ps[1..], seen + Elems(a), bound);
      var b := Walk(ns, ps[1..], seen + Elems(a), bound);
      assert Elems(a + b) == Elems(a) + Elems(b);
    }
  }

  /** Visiting a producer keeps the visited set finished below the consumer. */
  lemma FinishedAfter(ns: seq<Node>, c: Scalar, seen: set<Scalar>, bound: nat)
    requires WellFormed(ns) && c < bound <= |ns| && Finished(ns, seen, bound)
    requires Elems(Dfs(ns, c, seen)) == Reach(ns, c) - seen
    ensures Finished(ns, seen + Elems(Dfs(ns, c, seen)), bound)
  {
    var seen' := seen + Elems(Dfs(ns, c, seen));
    forall u | u in seen' && u < bound ensures Reach(ns, u) <= seen' {
      if u !in seen {
        ReachTransitive(ns, c, u);
      }
    }
  }

  /** `visit(v)` never lists a node twice. */
  lemma {:induction false} DfsNoDup(ns: seq<Node>, v: Scalar, seen: set<Scalar>)
    requires WellFormed(ns) && v < |ns| && Finished(ns, seen, v + 1)
    ensures NoDup(Dfs(ns, v, seen))
    decreases v, |ns[v].producers| + 1
  {
    if v !in seen {
      var w := Walk(ns, ns[v].producers, seen + {v}, v);
      assert Finished(ns, seen + {v}, v);
      WalkNoDup(ns, ns[v].producers, seen + {v}, v);
      WalkElems(ns, ns[v].producers, seen + {v}, v);
      forall i | 0 <= i < |w| ensures w[i] != v {
        assert w[i] in Elems(w);
      }
      NoDupAppend(w, [v]);
    }
  }

  lemma {:induction false} WalkNoDup(ns: seq<Node>, ps: seq<Scalar>, seen: set<Scalar>, bound: nat)
    requires WellFormed(ns) && bound <= |ns|
    requires forall k :: 0 <= k < |ps| ==> ps[k] < bound
    requires Finished(ns, seen, bound)
    ensures NoDup(Walk(ns, ps, seen, bound))
    decreases bound, |ps|
  {
    if ps != [] {
      var a := Dfs(ns, ps[0], seen);
      DfsElems(ns, ps[0], seen);
      DfsNoDup(ns, ps[0], seen);
      FinishedAfter(ns, ps[0], seen, bound);
      var b := Walk(ns, ps[1..], seen + Elems(a), bound);
      WalkNoDup(ns, ps[1..], seen + Elems(a), bound);
      WalkElems(ns, ps[1..], seen + Elems(a), bound);
      forall i, j | 0 <= i < |a| && 0 <= j < |b| ensures a[i] != b[j] {
        assert a[i] in Elems(a) && b[j] in Elems(b);
      }
      NoDupAppend(a, b);
    }
  }

  lemma NoDupAppend(a: seq<Scalar>, b: seq<Scalar>)
    requires NoDup(a) && NoDup(b)
    requires forall i, j :: 0 <= i < |a| && 0 <= j < |b| ==> a[i] != b[j]
    ensures NoDup(a + b)
  {
    var w := a + b;
    forall i, j | 0 <= i < j < |w| ensures w[i] != w[j] {
      if j < |a| {
        assert w[i] == a[i] && w[j] == a[j];
      } else if i < |a| {
        assert w[i] == a[i] && w[j] == b[j - |a|];
      } else {
        assert w[i] == b[i - |a|] && w[j] == b[j - |a|];
      }
    }
  }

  /** In what `visit(v)` lists, every producer is visited earlier or listed earlier. */
  lemma {:induction false} DfsListed(ns: seq<Node>, v: Scalar, seen: set<Scalar>)
    requires WellFormed(ns) && v < |ns| && Finished(ns, seen, v + 1)
    ensures ProducersListed(ns, Dfs(ns, v, seen), seen)
    decreases v, |ns[v].producers| + 1
  {
    if v !in seen {
      var ps := ns[v].producers;
      var w := Walk(ns, ps, seen + {v}, v);
      var r := w + [v];
      assert Finished(ns, seen + {v}, v);
      WalkListed(ns, ps, seen + {v}, v);
      WalkElems(ns, ps, seen + {v}, v);
      forall i, k | 0 <= i < |r| && 0 <= k < |ns[r[i]].producers|
        ensures ns[r[i]].producers[k] in seen || ns[r[i]].producers[k] in r[..i]
      {
        var p := ns[r[i]].producers[k];
        if i < |w| {
          assert r[i] == w[i] && r[..i] == w[..i];
          assert p in seen + {v} || p in w[..i];
          assert p < w[i] < v;
        } else {
          assert r[..i] == w && p == ps[k];
          ReachAllContains(ns, ps, v, k);
          assert p in Reach(ns, p);
          assert p in Elems(w) || p in seen;
        }
      }
    }
  }

  lemma {:induction false} WalkListed(ns: seq<Node>, ps: seq<Scalar>, seen: set<Scalar>, bound: nat)
    requires WellFormed(ns) && bound <= |ns|
    requires forall k :: 0 <= k < |ps| ==> ps[k] < bound
    requires Finished(ns, seen, bound)
    ensures ProducersListed(ns, Walk(ns, ps, seen, bound), seen)
    decreases bound, |ps|
  {
    if ps != [] {
      var a := Dfs(ns, ps[0], seen);
      DfsElems(ns, ps[0], seen);
      DfsListed(ns, ps[0], seen);
      FinishedAfter(ns, ps[0], seen, bound);
      var b := Walk(ns, ps[1..], seen + Elems(a), bound);
      WalkListed(ns, ps[1..], seen + Elems(a), bound);
      var w := a + b;
      forall i, k | 0 <= i < |w| && 0 <= k < |ns[w[i]].producers|
        ensures ns[w[i]].producers[k] in seen || ns[w[i]].producers[k] in w[..i]
      {
        if i < |a| {
          assert w[i] == a[i] && w[..i] == a[..i];
        } else {
          var j := i - |a|;
          assert w[i] == b[j] && w[..i] == a + b[..j];
          var p := ns[b[j]].producers[k];
          assert p in seen + Elems(a) || p in b[..j];
        }
      }
    }
  }

  /**
   * The ordering `back_prop` builds from a fresh visited set: exactly the nodes
   * reachable from the root, each once, every producer before its consumers, the
   * root last.
   */
  lemma TopologicalOrder(ns: seq<Node>, root: Scalar)
    requires WellFormed(ns) && root < |ns|
    ensures Elems(Dfs(ns, root, {})) == Reach(ns, root)
    ensures NoDup(Dfs(ns, root, {}))
    ensures ProducersFirst(ns, Dfs(ns, root, {}))
    ensures |Dfs(ns, root, {})| > 0 && Dfs(ns, root, {})[|Dfs(ns, root, {})| - 1] == root
  {
    var r := Dfs(ns, root, {});
    DfsElems(ns, root, {});
    DfsNoDup(ns, root, {});
    DfsListed(ns, root, {});
    assert root in Elems(r);
    ListedIsTopological(ns, r);
  }

  /** Listing producers earlier, without repetition, puts every producer first. */
  lemma ListedIsTopological(ns: seq<Node>, r: seq<Scalar>)
    requires forall i :: 0 <= i < |r| ==> r[i] < |ns|
    requires ProducersListed(ns, r, {}) && NoDup(r)
    ensures ProducersFirst(ns, r)
  {
    forall i, j | 0 <= i <= j < |r| ensures r[j] !in ns[r[i]].producers {
      forall k | 0 <= k < |ns[r[i]].producers| ensures ns[r[i]].producers[k] != r[j] {
        assert ns[r[i]].producers[k] in r[..i];
      }
    }
  }
}
