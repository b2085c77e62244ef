/**
 * Adding nodes to a graph: what the larger graph reaches, told by the old graph and an induced one on the new nodes.
 */
module GraphContraction {
  import opened DependencyGraph

  /** From new node `a` an edge into the old graph, a path there, and an edge to new node `b`. */
  ghost predicate Hop(g: Graph, h: Graph, a: string, b: string) {
    exists x, y :: Enters(g, h, a, x) && Reaches(g, x, y) && Leaves(g, h, y, b)
  }

  ghost predicate Enters(g: Graph, h: Graph, a: string, x: string) {
    a !in g && Edge(h, a, x)
  }

  ghost predicate Leaves(g: Graph, h: Graph, y: string, b: string) {
    y in g && Edge(h, y, b)
  }

  /** `h` adds the nodes of `l` to `g`; they lead to old nodes only, and `l` has an edge for each hop. */
  ghost predicate Contracts(g: Graph, h: Graph, l: Graph) {
    && h.Keys == g.Keys + l.Keys && g.Keys !! l.Keys
    && (forall a, b :: Edge(g, a, b) ==> Edge(h, a, b))
    && (forall a, b :: Edge(h, a, b) && a in g && b !in l ==> Edge(g, a, b))
    && (forall a, b :: Edge(h, a, b) && a in l ==> b !in l)
    && (forall a, b :: a in l && b in l ==> (Edge(l, a, b) <==> Hop(g, h, a, b)))
    && (forall a, b :: Edge(l, a, b) ==> b in l)
  }

  // ---- Paths of the larger graph --------------------------------------------------------

  /** From old node `a` the first new node met, and on along hops to `c`. */
  ghost predicate ToNew(g: Graph, h: Graph, l: Graph, a: string, c: string) {
    exists y, n :: Reaches(g, a, y) && Leaves(g, h, y, n) && n in l && Reaches(l, n, c)
  }

  /** From new node `n` back into the old graph and on to `b`. */
  ghost predicate ToOld(g: Graph, h: Graph, n: string, b: string) {
    exists x :: Enters(g, h, n, x) && Reaches(g, x, b)
  }

  ghost predicate Around(g: Graph, h: Graph, l: Graph, a: string, b: string) {
    exists n :: n in l && ToNew(g, h, l, a, n) && ToOld(g, h, n, b)
  }

  ghost predicate FromNew(g: Graph, h: Graph, l: Graph, a: string, b: string) {
    exists n :: n in l && Reaches(l, a, n) && ToOld(g, h, n, b)
  }

  lemma {:induction false} ToOldStep(g: Graph, h: Graph, n: string, b: string, c: string)
    requires ToOld(g, h, n, b) && Edge(g, b, c)
    ensures ToOld(g, h, n, c)
  {
    var x :| Enters(g, h, n, x) && Reaches(g, x, b);
    ReachesStep(g, x, b, c);
  }

  lemma {:induction false} ToOldIsHop(g: Graph, h: Graph, l: Graph, n: string, y: string, m: string)
    requires Contracts(g, h, l) && n in l && m in l && ToOld(g, h, n, y) && Leaves(g, h, y, m)
    ensures Edge(l, n, m)
  {
    var x :| Enters(g, h, n, x) && Reaches(g, x, y);
    assert Hop(g, h, n, m);
  }

  lemma {:induction false} ToNewStep(g: Graph, h: Graph, l: Graph, a: string, n: string, m: string)
    requires ToNew(g, h, l, a, n) && Edge(l, n, m)
    ensures ToNew(g, h, l, a, m)
  {
    var y, k :| Reaches(g, a, y) && Leaves(g, h, y, k) && k in l && Reaches(l, k, n);
    ReachesStep(l, k, n, m);
  }

  /** What an old node reaches in the larger graph. */
  ghost predicate FromOldTo(g: Graph, h: Graph, l: Graph, a: string, b: string) {
    if b in l then ToNew(g, h, l, a, b) else Reaches(g, a, b) || Around(g, h, l, a, b)
  }

  lemma {:induction false} FromOldStep(g: Graph, h: Graph, l: Graph, a: string, b: string, c: string)
    requires Contracts(g, h, l) && a !in l && FromOldTo(g, h, l, a, b) && Edge(h, b, c)
    ensures FromOldTo(g, h, l, a, c)
  {
    if b in l {
      ReachesSelf(g, c);
      assert Enters(g, h, b, c) && ToOld(g, h, b, c);
    } else if c in l {
      assert Leaves(g, h, b, c);
      if Reaches(g, a, b) {
        ReachesSelf(l, c);
      } else {
        var n :| n in l && ToNew(g, h, l, a, n) && ToOld(g, h, n, b);
        ToOldIsHop(g, h, l, n, b, c);
        ToNewStep(g, h, l, a, n, c);
      }
    } else {
      assert Edge(g, b, c);
      if Reaches(g, a, b) {
        ReachesStep(g, a, b, c);
      } else {
        var n :| n in l && ToNew(g, h, l, a, n) && ToOld(g, h, n, b);
        ToOldStep(g, h, n, b, c);
      }
    }
  }

  lemma {:induction false} FromOld(g: Graph, h: Graph, l: Graph, p: seq<string>)
    requires Contracts(g, h, l) && IsPath(h, p) && p[0] !in l
    ensures FromOldTo(g, h, l, p[0], p[|p| - 1])
  {
    var n := |p| - 1;
    if n == 0 {
      ReachesSelf(g, p[0]);
    } else {
      FromOld(g, h, l, p[..n]);
      assert Edge(h, p[n - 1], p[n]);
      FromOldStep(g, h, l, p[0], p[n - 1], p[n]);
    }
  }

  /** What a new node reaches in the larger graph. */
  ghost predicate FromNewTo(g: Graph, h: Graph, l: Graph, a: string, b: string) {
    if b in l then Reaches(l, a, b) else FromNew(g, h, l, a, b)
  }

  lemma {:induction false} FromNewStep(g: Graph, h: Graph, l: Graph, a: string, b: string, c: string)
    requires Contracts(g, h, l) && a in l && FromNewTo(g, h, l, a, b) && Edge(h, b, c)
    ensures FromNewTo(g, h, l, a, c)
  {
    if b in l {
      ReachesSelf(g, c);
      assert Enters(g, h, b, c) && ToOld(g, h, b, c);
    } else {
      var n :| n in l && Reaches(l, a, n) && ToOld(g, h, n, b);
      if c in l {
        assert Leaves(g, h, b, c);
        ToOldIsHop(g, h, l, n, b, c);
        ReachesStep(l, a, n, c);
      } else {
        assert Edge(g, b, c);
        ToOldStep(g, h, n, b, c);
      }
    }
  }

  lemma {:induction false} FromNewPath(g: Graph, h: Graph, l: Graph, p: seq<string>)
    requires Contracts(g, h, l) && IsPath(h, p) && p[0] in l
    ensures FromNewTo(g, h, l, p[0], p[|p| - 1])
  {
    var n := |p| - 1;
    if n == 0 {
      ReachesSelf(l, p[0]);
    } else {
      FromNewPath(g, h, l, p[..n]);
      assert Edge(h, p[n - 1], p[n]);
      FromNewStep(g, h, l, p[0], p[n - 1], p[n]);
    }
  }

  // ---- And back -------------------------------------------------------------------------

  lemma {:induction false} HopIsPath(g: Graph, h: Graph, l: Graph, a: string, b: string)
    requires Contracts(g, h, l) && Edge(l, a, b)
    ensures exists x :: Edge(h, a, x) && Reaches(h, x, b)
  {
    assert Hop(g, h, a, b);
    var x, y :| Enters(g, h, a, x) && Reaches(g, x, y) && Leaves(g, h, y, b);
    ReachesMono(g, h, x, y);
    ReachesStep(h, x, y, b);
  }

  lemma {:induction false} HopsArePaths(g: Graph, h: Graph, l: Graph, p: seq<string>)
    requires Contracts(g, h, l) && IsPath(l, p)
    ensures Reaches(h, p[0], p[|p| - 1])
  {
    var n := |p| - 1;
    if n == 0 {
      ReachesSelf(h, p[0]);
    } else {
      HopsArePaths(g, h, l, p[..n]);
      assert Edge(l, p[n - 1], p[n]);
      HopIsPath(g, h, l, p[n - 1], p[n]);
      var x :| Edge(h, p[n - 1], x) && Reaches(h, x, p[n]);
      ReachesStep(h, p[0], p[n - 1], x);
      ReachesTrans(h, p[0], x, p[n]);
    }
  }

  lemma {:induction false} LiftHops(g: Graph, h: Graph, l: Graph, a: string, b: string)
    requires Contracts(g, h, l) && Reaches(l, a, b)
    ensures Reaches(h, a, b)
  {
    var p :| IsPath(l, p) && p[0] == a && p[|p| - 1] == b;
    HopsArePaths(g, h, l, p);
  }

  lemma {:induction false} LiftToOld(g: Graph, h: Graph, l: Graph, n: string, b: string)
    requires Contracts(g, h, l) && ToOld(g, h, n, b)
    ensures Reaches(h, n, b)
  {
    var x :| Enters(g, h, n, x) && Reaches(g, x, b);
    ReachesMono(g, h, x, b);
    ReachesSelf(h, n);
    ReachesStep(h, n, n, x);
    ReachesTrans(h, n, x, b);
  }

  lemma {:induction false} LiftToNew(g: Graph, h: Graph, l: Graph, a: string, c: string)
    requires Contracts(g, h, l) && ToNew(g, h, l, a, c)
    ensures Reaches(h, a, c)
  {
    var y, n :| Reaches(g, a, y) && Leaves(g, h, y, n) && n in l && Reaches(l, n, c);
    ReachesMono(g, h, a, y);
    ReachesStep(h, a, y, n);
    LiftHops(g, h, l, n, c);
    ReachesTrans(h, a, n, c);
  }

  /** Between old nodes: through the old graph, or around by new nodes. */
  lemma {:induction false} OldReachesIff(g: Graph, h: Graph, l: Graph, a: string, b: string)
    requires Contracts(g, h, l) && a !in l && b !in l
    ensures Reaches(h, a, b) <==> Reaches(g, a, b) || Around(g, h, l, a, b)
  {
    if Reaches(h, a, b) {
      var p :| IsPath(h, p) && p[0] == a && p[|p| - 1] == b;
      FromOld(g, h, l, p);
    }
    if Reaches(g, a, b) { ReachesMono(g, h, a, b); }
    if Around(g, h, l, a, b) {
      var n :| n in l && ToNew(g, h, l, a, n) && ToOld(g, h, n, b);
      LiftToNew(g, h, l, a, n);
      LiftToOld(g, h, l, n, b);
      ReachesTrans(h, a, n, b);
    }
  }

  /** From a new node to an old one: hops, then into the old graph. */
  lemma {:induction false} NewReachesIff(g: Graph, h: Graph, l: Graph, a: string, b: string)
    requires Contracts(g, h, l) && a in l && b !in l
    ensures Reaches(h, a, b) <==> FromNew(g, h, l, a, b)
  {
    if Reaches(h, a, b) {
      var p :| IsPath(h, p) && p[0] == a && p[|p| - 1] == b;
      FromNewPath(g, h, l, p);
    }
    if FromNew(g, h, l, a, b) {
      var n :| n in l && Reaches(l, a, n) && ToOld(g, h, n, b);
      LiftHops(g, h, l, a, n);
      LiftToOld(g, h, l, n, b);
      ReachesTrans(h, a, n, b);
    }
  }

  // ---- Cycles ---------------------------------------------------------------------------

  /** A cycle is an edge with a way back. */
  lemma {:induction false} CyclicIff(g: Graph)
    ensures Cyclic(g) <==> exists a, b :: Edge(g, a, b) && Reaches(g, b, a)
  {
    if Cyclic(g) {
      var p :| IsPath(g, p) && |p| >= 2 && p[0] == p[|p| - 1];
      var q := p[1..];
      forall i | 0 <= i < |q| - 1 ensures Edge(g, q[i], q[i + 1]) { assert Edge(g, p[i + 1], p[i + 2]); }
      assert IsPath(g, q) && q[0] == p[1] && q[|q| - 1] == p[0];
      assert Edge(g, p[0], p[1]) && Reaches(g, p[1], p[0]);
    }
    if a, b :| Edge(g, a, b) && Reaches(g, b, a) {
      var q :| IsPath(g, q) && q[0] == b && q[|q| - 1] == a;
      var p := [a] + q;
      forall i | 0 <= i < |p| - 1 ensures Edge(g, p[i], p[i + 1]) {
        if i > 0 { assert Edge(g, q[i - 1], q[i]); }
      }
      assert IsPath(g, p) && p[0] == p[|p| - 1];
    }
  }

  lemma {:induction false} EdgeBackIsCycle(g: Graph, a: string, b: string)
    requires Edge(g, a, b) && Reaches(g, b, a)
    ensures Cyclic(g)
  {
    CyclicIff(g);
  }

  /** A way from a new node out and back to one that leads to it closes a chain of hops. */
  lemma {:induction false} BackToNew(g: Graph, h: Graph, l: Graph, n: string, x: string)
    requires Contracts(g, h, l) && n in l && Enters(g, h, n, x) && ToNew(g, h, l, x, n)
    ensures Cyclic(l)
  {
    var y, m :| Reaches(g, x, y) && Leaves(g, h, y, m) && m in l && Reaches(l, m, n);
    assert Hop(g, h, n, m);
    EdgeBackIsCycle(l, n, m);
  }

  lemma {:induction false} CycleThroughNew(g: Graph, h: Graph, l: Graph, a: string, b: string)
    requires Contracts(g, h, l) && Edge(h, a, b) && Reaches(h, b, a) && (a in l || b in l)
    ensures Cyclic(l)
  {
    var p :| IsPath(h, p) && p[0] == b && p[|p| - 1] == a;
    if a in l {
      FromOld(g, h, l, p);
      BackToNew(g, h, l, a, b);
    } else {
      FromNewPath(g, h, l, p);
      var n :| n in l && Reaches(l, b, n) && ToOld(g, h, n, a);
      assert Leaves(g, h, a, b);
      ToOldIsHop(g, h, l, n, a, b);
      EdgeBackIsCycle(l, n, b);
    }
  }

  lemma {:induction false} CycleThroughOld(g: Graph, h: Graph, l: Graph, a: string, b: string)
    requires Contracts(g, h, l) && Edge(h, a, b) && Reaches(h, b, a) && a !in l && b !in l
    ensures Cyclic(g) || Cyclic(l)
  {
    assert Edge(g, a, b);
    OldReachesIff(g, h, l, b, a);
    if Reaches(g, b, a) {
      EdgeBackIsCycle(g, a, b);
    } else {
      var n :| n in l && ToNew(g, h, l, b, n) && ToOld(g, h, n, a);
      var x :| Enters(g, h, n, x) && Reaches(g, x, a);
      var y, m :| Reaches(g, b, y) && Leaves(g, h, y, m) && m in l && Reaches(l, m, n);
      ReachesStep(g, x, a, b);
      ReachesTrans(g, x, b, y);
      assert ToNew(g, h, l, x, n);
      BackToNew(g, h, l, n, x);
    }
  }

  /** The larger graph has a cycle exactly when the old one has, or the new nodes hop in a circle. */
  lemma {:induction false} CyclicWithNewNodes(g: Graph, h: Graph, l: Graph)
    requires Contracts(g, h, l)
    ensures Cyclic(h) <==> Cyclic(g) || Cyclic(l)
  {
    CyclicIff(g);
    CyclicIff(h);
    CyclicIff(l);
    if a, b :| Edge(h, a, b) && Reaches(h, b, a) {
      if a in l || b in l { CycleThroughNew(g, h, l, a, b); } else { CycleThroughOld(g, h, l, a, b); }
    }
    if a, b :| Edge(g, a, b) && Reaches(g, b, a) { ReachesMono(g, h, b, a); }
    if a, b :| Edge(l, a, b) && Reaches(l, b, a) {
      HopIsPath(g, h, l, a, b);
      var x :| Edge(h, a, x) && Reaches(h, x, b);
      LiftHops(g, h, l, b, a);
      ReachesTrans(h, x, b, a);
    }
  }
}
