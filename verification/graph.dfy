/** Reachability over `dependsOn`: the worklist closures and the three-colour cycle search. */
module DependencyGraph {
  import opened Basics
  import opened Plans

  /** The id-keyed adjacency both searches build; ids that name no step have no entry. */
  type Graph = map<string, seq<string>>

  function GraphOf(byId: map<string, Step>): (g: Graph)
    ensures g.Keys == byId.Keys
  {
    map id | id in byId :: byId[id].dependsOn
  }

  ghost predicate Edge(g: Graph, a: string, b: string) {
    a in g && b in g[a]
  }

  ghost predicate IsPath(g: Graph, p: seq<string>) {
    |p| >= 1 && forall i :: 0 <= i < |p| - 1 ==> Edge(g, p[i], p[i + 1])
  }

  /** A dependency path of any length, including the empty walk from `a` to itself. */
  ghost predicate Reaches(g: Graph, a: string, b: string) {
    exists p :: IsPath(g, p) && p[0] == a && p[|p| - 1] == b
  }

  /** What the worklists compute: `t` is reachable from one of the roots. */
  ghost predicate ReachesFrom(g: Graph, roots: seq<string>, t: string) {
    exists r :: r in roots && Reaches(g, r, t)
  }

  ghost predicate Cyclic(g: Graph) {
    exists p :: IsPath(g, p) && |p| >= 2 && p[0] == p[|p| - 1]
  }

  lemma {:induction false} ReachesSelf(g: Graph, a: string)
    ensures Reaches(g, a, a)
  {
    assert IsPath(g, [a]);
  }

  lemma {:induction false} ReachesStep(g: Graph, a: string, b: string, c: string)
    requires Reaches(g, a, b) && Edge(g, b, c)
    ensures Reaches(g, a, c)
  {
    var p :| IsPath(g, p) && p[0] == a && p[|p| - 1] == b;
    var q := p + [c];
    assert IsPath(g, q) && q[0] == a && q[|q| - 1] == c;
  }

  lemma {:induction false} ReachesTrans(g: Graph, a: string, b: string, c: string)
    requires Reaches(g, a, b) && Reaches(g, b, c)
    ensures Reaches(g, a, c)
  {
    var p :| IsPath(g, p) && p[0] == a && p[|p| - 1] == b;
    var q :| IsPath(g, q) && q[0] == b && q[|q| - 1] == c;
    var r := p + q[1..];
    forall i | 0 <= i < |r| - 1 ensures Edge(g, r[i], r[i + 1]) {
      if i >= |p| - 1 { assert Edge(g, q[i - |p| + 1], q[i - |p| + 2]); }
    }
    assert IsPath(g, r) && r[0] == a && r[|r| - 1] == c;
  }

  /** Adding edges keeps what was reachable. */
  lemma {:induction false} ReachesMono(g: Graph, h: Graph, a: string, b: string)
    requires Reaches(g, a, b)
    requires forall x, y :: Edge(g, x, y) ==> Edge(h, x, y)
    ensures Reaches(h, a, b)
  {
    var p :| IsPath(g, p) && p[0] == a && p[|p| - 1] == b;
    assert IsPath(h, p);
  }

  /** A set closed under edges keeps every path that starts inside it. */
  lemma {:induction false} ClosedKeepsPath(g: Graph, c: set<string>, p: seq<string>, k: nat)
    requires IsPath(g, p) && p[0] in c && k < |p|
    requires forall x, y :: x in c && Edge(g, x, y) ==> y in c
    ensures p[k] in c
  {
    if k > 0 {
      ClosedKeepsPath(g, c, p, k - 1);
      assert Edge(g, p[k - 1], p[k]);
    }
  }

  /** An order in which every in-graph successor of a node comes strictly earlier. */
  ghost predicate Ordered(g: Graph, order: seq<string>) {
    forall i, d :: 0 <= i < |order| && Edge(g, order[i], d) && d in g ==> d in order[..i]
  }

  /** Such an order, when it lists every node, rules cycles out. */
  lemma {:induction false} OrderedIsAcyclic(g: Graph, order: seq<string>)
    requires Ordered(g, order) && g.Keys <= Elems(order)
    ensures !Cyclic(g)
  {
    if Cyclic(g) {
      var p :| IsPath(g, p) && |p| >= 2 && p[0] == p[|p| - 1];
      assert Edge(g, p[0], p[1]);
      var i :| 0 <= i < |order| && order[i] == p[0] && p[0] !in order[..i] by {
        FirstIndex(order, p[0]);
      }
      var j := DescendPath(g, order, p, |p| - 1, i);
    }
  }

  lemma {:induction false} FirstIndex(order: seq<string>, x: string)
    requires x in order
    ensures exists i :: 0 <= i < |order| && order[i] == x && x !in order[..i]
  {
    var n := |order| - 1;
    if x in order[..n] {
      FirstIndex(order[..n], x);
      var i :| 0 <= i < n && order[..n][i] == x && x !in order[..n][..i];
      assert order[..n][..i] == order[..i];
    } else {
      var k :| 0 <= k < |order| && order[k] == x;
      assert k == n;
    }
  }

  lemma {:induction false} DescendPath(g: Graph, order: seq<string>, p: seq<string>, k: nat, i: nat) returns (j: nat)
    requires Ordered(g, order) && IsPath(g, p) && 1 <= k < |p| && p[|p| - 1] in g
    requires i < |order| && order[i] == p[0]
    ensures j < i && order[j] == p[k]
  {
    assert forall m :: 0 <= m < |p| - 1 ==> Edge(g, p[m], p[m + 1]);
    var prev := i;
    if k > 1 {
      prev := DescendPath(g, order, p, k - 1, i);
    }
    assert Edge(g, p[k - 1], p[k]);
    assert p[k] in g by { if k < |p| - 1 { assert Edge(g, p[k], p[k + 1]); } }
    assert p[k] in order[..prev];
    j :| 0 <= j < prev && order[..prev][j] == p[k];
  }

  ghost predicate HasSuccessorIn(g: Graph, trap: set<string>, x: string) {
    exists y :: y in trap && Edge(g, x, y)
  }

  ghost predicate Trap(g: Graph, trap: set<string>) {
    trap != {} && forall x {:trigger HasSuccessorIn(g, trap, x)} :: x in trap ==> HasSuccessorIn(g, trap, x)
  }

  /** In a finite graph, a nonempty set in which every node has a successor holds a cycle. */
  lemma {:induction false} TrapIsCyclic(g: Graph, trap: set<string>)
    requires Trap(g, trap)
    ensures Cyclic(g)
  {
    var start :| start in trap;
    var p := TrapWalk(g, trap, start, |trap|);
    assert !NoDup(p) by {
      NoDupSize(p);
      assert Elems(p) <= trap;
      SubsetSize(Elems(p), trap);
    }
    var i, j :| 0 <= i < j < |p| && p[i] == p[j];
    var q := p[i..j + 1];
    forall m | 0 <= m < |q| - 1 ensures Edge(g, q[m], q[m + 1]) {
      assert Edge(g, p[i + m], p[i + m + 1]);
    }
    assert IsPath(g, q) && q[0] == q[|q| - 1];
  }

  lemma {:induction false} TrapWalk(g: Graph, trap: set<string>, start: string, n: nat) returns (p: seq<string>)
    requires start in trap && Trap(g, trap)
    ensures |p| == n + 1 && IsPath(g, p) && forall x :: x in p ==> x in trap
  {
    if n == 0 {
      p := [start];
    } else {
      var q := TrapWalk(g, trap, start, n - 1);
      assert HasSuccessorIn(g, trap, q[|q| - 1]);
      var y :| y in trap && Edge(g, q[|q| - 1], y);
      p := q + [y];
    }
  }

  /** Everything a worklist started at `roots` can meet; bounds its iterations. */
  ghost function Universe(g: Graph, roots: seq<string>): set<string> {
    Elems(roots) + (set a, d | a in g && d in g[a] :: d)
  }

  /** What a worklist keeps: everything met is reachable, and leaving `seen` means going through `pending`. */
  ghost predicate WorklistInv(g: Graph, roots: seq<string>, seen: set<string>, pending: seq<string>) {
    && seen <= Universe(g, roots)
    && (forall x :: x in pending ==> x in Universe(g, roots))
    && (forall x :: x in seen || x in pending ==> ReachesFrom(g, roots, x))
    && (forall r :: r in roots ==> r in seen || r in pending)
    && (forall x, y :: x in seen && Edge(g, x, y) ==> y in seen || y in pending)
  }

  lemma {:induction false} WorklistStart(g: Graph, roots: seq<string>)
    ensures WorklistInv(g, roots, {}, roots)
  {
    forall r | r in roots ensures ReachesFrom(g, roots, r) { ReachesSelf(g, r); }
  }

  /** Popping an already seen id changes nothing. */
  lemma {:induction false} WorklistSkip(g: Graph, roots: seq<string>, seen: set<string>, pending: seq<string>)
    requires WorklistInv(g, roots, seen, pending) && pending != [] && pending[|pending| - 1] in seen
    ensures WorklistInv(g, roots, seen, pending[..|pending| - 1])
  {
    var n := |pending| - 1;
    assert pending == pending[..n] + [pending[n]];
    assert forall x :: x in pending ==> x in pending[..n] || x == pending[n];
  }

  /** Popping a new id moves it to `seen` and exposes its dependencies. */
  lemma {:induction false} WorklistVisit(g: Graph, roots: seq<string>, seen: set<string>, pending: seq<string>)
    requires WorklistInv(g, roots, seen, pending) && pending != []
    ensures
      var n := |pending| - 1;
      var id := pending[n];
      WorklistInv(g, roots, seen + {id}, pending[..n] + if id in g then g[id] else [])
  {
    var n := |pending| - 1;
    var id := pending[n];
    assert pending == pending[..n] + [id];
    assert forall x :: x in pending ==> x in pending[..n] || x == id;
    var more := if id in g then g[id] else [];
    forall x | x in more ensures ReachesFrom(g, roots, x) && x in Universe(g, roots) {
      var r :| r in roots && Reaches(g, r, id);
      ReachesStep(g, r, id, x);
    }
  }

  /** With nothing pending, `seen` is exactly what the roots reach. */
  lemma {:induction false} WorklistDone(g: Graph, roots: seq<string>, seen: set<string>)
    requires WorklistInv(g, roots, seen, [])
    ensures forall x :: x in seen <==> ReachesFrom(g, roots, x)
  {
    forall x | ReachesFrom(g, roots, x) ensures x in seen {
      var r :| r in roots && Reaches(g, r, x);
      var p :| IsPath(g, p) && p[0] == r && p[|p| - 1] == x;
      ClosedKeepsPath(g, seen, p, |p| - 1);
    }
  }

  method TransitiveDependencyIds(step: Step, byId: map<string, Step>) returns (seen: set<string>)
    ensures forall x :: x in seen <==> ReachesFrom(GraphOf(byId), step.dependsOn, x)
  {
    ghost var g := GraphOf(byId);
    seen := {};
    var pending := step.dependsOn;
    WorklistStart(g, step.dependsOn);
    while pending != []
      invariant WorklistInv(g, step.dependsOn, seen, pending)
      decreases Universe(g, step.dependsOn) - seen, |pending|
    {
      var id := pending[|pending| - 1];
      if id in seen {
        WorklistSkip(g, step.dependsOn, seen, pending);
        pending := pending[..|pending| - 1];
        continue;
      }
      WorklistVisit(g, step.dependsOn, seen, pending);
      seen := seen + {id};
      pending := pending[..|pending| - 1] + if id in byId then byId[id].dependsOn else [];
    }
    WorklistDone(g, step.dependsOn, seen);
  }

  method StepTransitivelyDependsOn(step: Step, targetId: string, byId: map<string, Step>) returns (found: bool)
    ensures found <==> ReachesFrom(GraphOf(byId), step.dependsOn, targetId)
  {
    ghost var g := GraphOf(byId);
    var seen := {};
    var stack := step.dependsOn;
    WorklistStart(g, step.dependsOn);
    while stack != []
      invariant WorklistInv(g, step.dependsOn, seen, stack) && targetId !in seen
      decreases Universe(g, step.dependsOn) - seen, |stack|
    {
      var current := stack[|stack| - 1];
      if current == targetId {
        assert current in stack;
        return true;
      }
      if current in seen {
        WorklistSkip(g, step.dependsOn, seen, stack);
        stack := stack[..|stack| - 1];
        continue;
      }
      WorklistVisit(g, step.dependsOn, seen, stack);
      seen := seen + {current};
      stack := stack[..|stack| - 1] + if current in byId then byId[current].dependsOn else [];
    }
    WorklistDone(g, step.dependsOn, seen);
    return false;
  }

  datatype Color = White | Gray | Black

  /** Gray ids are the open path, black ids the finished order, and that order has no forward edge. */
  ghost predicate SearchInv(g: Graph, color: map<string, Color>, finished: seq<string>, open: seq<string>) {
    && color.Keys == g.Keys
    && (forall id :: id in color ==> (color[id] == Gray <==> id in open))
    && (forall id :: id in color ==> (color[id] == Black <==> id in finished))
    && (forall id :: id in open ==> id in color)
    && Ordered(g, finished)
    && (open != [] ==> IsPath(g, open))
  }

  ghost function Whites(color: map<string, Color>): set<string> {
    set id | id in color && color[id] == White
  }

  ghost predicate KeepsBlack(before: map<string, Color>, after: map<string, Color>) {
    before.Keys == after.Keys && forall x :: x in before && before[x] == Black ==> after[x] == Black
  }

  lemma {:induction false} SearchOpen(
    g: Graph, color: map<string, Color>, finished: seq<string>, open: seq<string>, id: string)
    requires SearchInv(g, color, finished, open) && id in color && color[id] == White
    requires open != [] ==> Edge(g, open[|open| - 1], id)
    ensures SearchInv(g, color[id := Gray], finished, open + [id])
    ensures Whites(color[id := Gray]) == Whites(color) - {id}
  {
    var path := open + [id];
    assert forall x :: x in path <==> x in open || x == id;
    assert IsPath(g, path);
  }

  /** A gray successor is on the open path, so the path closes into a cycle. */
  lemma {:induction false} SearchHit(
    g: Graph, color: map<string, Color>, finished: seq<string>, path: seq<string>, next: string)
    requires SearchInv(g, color, finished, path) && path != [] && Edge(g, path[|path| - 1], next)
    requires next in color && color[next] == Gray
    ensures Cyclic(g)
  {
    var k :| 0 <= k < |path| && path[k] == next;
    var cycle := path[k..] + [next];
    forall m | 0 <= m < |cycle| - 1 ensures Edge(g, cycle[m], cycle[m + 1]) {
      if k + m < |path| - 1 { assert Edge(g, path[k + m], path[k + m + 1]); }
    }
    assert IsPath(g, cycle) && cycle[0] == cycle[|cycle| - 1];
  }

  /** A node all of whose successors are black can be finished. */
  lemma {:induction false} SearchClose(
    g: Graph, color: map<string, Color>, finished: seq<string>, open: seq<string>, id: string)
    requires SearchInv(g, color, finished, open + [id]) && id !in open
    requires forall d :: Edge(g, id, d) && d in color ==> color[d] == Black
    ensures SearchInv(g, color[id := Black], finished + [id], open)
  {
    var path := open + [id];
    var after := finished + [id];
    assert forall x :: x in path <==> x in open || x == id;
    assert forall x :: x in after <==> x in finished || x == id;
    assert id in path;
    forall n, d | 0 <= n < |after| && Edge(g, after[n], d) && d in g ensures d in after[..n] {
      if n < |finished| {
        assert after[..n] == finished[..n];
      } else {
        assert after[..n] == finished;
      }
    }
    if open != [] {
      forall m | 0 <= m < |open| - 1 ensures Edge(g, open[m], open[m + 1]) {
        assert Edge(g, path[m], path[m + 1]);
      }
    }
  }

  /** The closure state of `hasCycle`: one colour per step id. */
  class CycleSearch {
    const graph: Graph
    var color: map<string, Color>
    /** The finished ids, in finishing order. */
    ghost var finished: seq<string>

    constructor (graph: Graph)
      ensures this.graph == graph && Valid([])
      ensures forall id :: id in graph ==> color[id] == White
    {
      this.graph := graph;
      this.color := map id | id in graph :: White;
      this.finished := [];
    }

    ghost predicate Valid(open: seq<string>)
      reads this
    {
      SearchInv(graph, color, finished, open)
    }

    /** Colours `id` and everything newly reached; `open` is the gray path that led here. */
    method Dfs(id: string, ghost open: seq<string>) returns (found: bool)
      requires Valid(open) && id in color && color[id] == White
      requires open != [] ==> Edge(graph, open[|open| - 1], id)
      modifies this
      ensures found ==> Cyclic(graph)
      ensures !found ==> Valid(open) && color[id] == Black && KeepsBlack(old(color), color)
      ensures !found ==> Whites(color) <= Whites(old(color))
      decreases Whites(color)
    {
      hide Cyclic, IsPath;
      ghost var path := open + [id];
      SearchOpen(graph, color, finished, open, id);
      color := color[id := Gray];
      var succ := if id in graph then graph[id] else [];
      var i := 0;
      while i < |succ|
        invariant 0 <= i <= |succ|
        invariant Valid(path)
        invariant Whites(color) <= Whites(old(color)) - {id}
        invariant KeepsBlack(old(color), color)
        invariant forall k :: 0 <= k < i && succ[k] in color ==> color[succ[k]] == Black
      {
        var next := succ[i];
        assert path[|path| - 1] == id && Edge(graph, id, next);
        if next in color && color[next] == Gray {
          SearchHit(graph, color, finished, path, next);
          return true;
        }
        if next in color && color[next] == White {
          var deeper := Dfs(next, path);
          if deeper {
            return true;
          }
        }
        i := i + 1;
      }
      SearchClose(graph, color, finished, open, id);
      color := color[id := Black];
      finished := finished + [id];
      return false;
    }
  }

  /** The first `n` steps have been finished. */
  ghost predicate FinishedPrefix(steps: seq<Step>, n: nat, color: map<string, Color>)
    requires n <= |steps|
  {
    forall k :: 0 <= k < n ==> steps[k].id in color && color[steps[k].id] == Black
  }

  /** Once every step is black, the finished order lists the whole graph. */
  lemma {:induction false} AllFinished(steps: seq<Step>, g: Graph, color: map<string, Color>, finished: seq<string>)
    requires g.Keys == Ids(steps) && SearchInv(g, color, finished, [])
    requires FinishedPrefix(steps, |steps|, color)
    ensures !Cyclic(g)
  {
    forall id | id in g ensures id in Elems(finished) {
      var k :| 0 <= k < |steps| && steps[k].id == id;
    }
    OrderedIsAcyclic(g, finished);
  }

  /** Three-colour search from every still-white step. */
  method HasCycle(steps: seq<Step>) returns (r: bool)
    ensures r <==> Cyclic(GraphOf(ById(steps)))
  {
    var g := GraphOf(ById(steps));
    var search := new CycleSearch(g);
    for i := 0 to |steps|
      invariant search.graph == g && fresh(search) && search.Valid([])
      invariant FinishedPrefix(steps, i, search.color)
    {
      var id := steps[i].id;
      ghost var before := search.color;
      assert id in before by { assert id in Ids(steps); }
      if search.color[id] == White {
        var found := search.Dfs(id, []);
        if found {
          return true;
        }
        FinishOne(steps, i, before, search.color);
      } else {
        assert search.color[id] == Black by { assert id !in []; }
        FinishOne(steps, i, before, search.color);
      }
    }
    AllFinished(steps, g, search.color, search.finished);
    return false;
  }

  lemma {:induction false} FinishOne(steps: seq<Step>, i: nat, before: map<string, Color>, after: map<string, Color>)
    requires i < |steps| && FinishedPrefix(steps, i, before) && KeepsBlack(before, after)
    requires steps[i].id in after && after[steps[i].id] == Black
    ensures FinishedPrefix(steps, i + 1, after)
  {
  }
}
