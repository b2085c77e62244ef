/**
 * Kahn's algorithm with a sorted ready queue: when it succeeds, what order it returns, and why that order is unique.
 */
module TopoSort {
  import opened Basics
  import opened Plans
  import opened DependencyGraph

  const MAX_SAFE_INTEGER: nat := 9007199254740991

  predicate IsDigit(c: char) {
    '0' <= c <= '9'
  }

  predicate AllDigits(s: string) {
    forall i :: 0 <= i < |s| ==> IsDigit(s[i])
  }

  function DecimalValue(s: string): nat
    requires AllDigits(s)
  {
    if s == [] then 0
    else
      assert AllDigits(s[..|s| - 1]);
      DecimalValue(s[..|s| - 1]) * 10 + (s[|s| - 1] as int - '0' as int)
  }

  /** `P` and one to three digits sort by their number, anything else last. */
  function IterationSortValue(id: string): nat {
    if 2 <= |id| <= 4 && id[0] == 'P' && AllDigits(id[1..]) then DecimalValue(id[1..]) else MAX_SAFE_INTEGER
  }

  datatype Key = Key(iteration: int, phase: int, id: int)

  predicate KeyLess(a: Key, b: Key) {
    a.iteration < b.iteration ||
    (a.iteration == b.iteration && (a.phase < b.phase || (a.phase == b.phase && a.id < b.id)))
  }

  /** `rank` stands for the locale's order on ids: distinct ids never compare equal. */
  ghost predicate StrictOrder(rank: string -> int) {
    forall a, b {:trigger rank(a), rank(b)} :: rank(a) == rank(b) ==> a == b
  }

  function StepKey(rank: string -> int, s: Step): Key {
    Key(IterationSortValue(IterationOf(s)), PhaseOrder(s.phase), rank(s.id))
  }

  /** `cmp(a, b) < 0`: iteration, then phase, then id. */
  predicate StepBefore(rank: string -> int, a: Step, b: Step) {
    KeyLess(StepKey(rank, a), StepKey(rank, b))
  }

  function IdKey(rank: string -> int, byId: map<string, Step>): string -> Key {
    id => if id in byId then StepKey(rank, byId[id]) else Key(0, 0, rank(id))
  }

  ghost predicate SortedBy(key: string -> Key, q: seq<string>) {
    forall i, j :: 0 <= i < j < |q| ==> !KeyLess(key(q[j]), key(q[i]))
  }

  function InsertSorted(key: string -> Key, x: string, q: seq<string>): (r: seq<string>)
    ensures multiset(r) == multiset(q) + multiset{x}
  {
    if q == [] || KeyLess(key(x), key(q[0])) then [x] + q
    else
      assert q == [q[0]] + q[1..];
      [q[0]] + InsertSorted(key, x, q[1..])
  }

  lemma {:induction false} InsertKeepsSorted(key: string -> Key, x: string, q: seq<string>)
    requires SortedBy(key, q)
    ensures SortedBy(key, InsertSorted(key, x, q))
  {
    if q != [] && !KeyLess(key(x), key(q[0])) {
      var rest := InsertSorted(key, x, q[1..]);
      InsertKeepsSorted(key, x, q[1..]);
      forall j | 0 <= j < |rest| ensures !KeyLess(key(rest[j]), key(q[0])) {
        assert rest[j] in multiset(rest);
        if rest[j] != x {
          assert rest[j] in multiset(q[1..]);
          var k :| 0 <= k < |q| - 1 && q[1..][k] == rest[j];
          assert q[k + 1] == rest[j];
        }
      }
    }
  }

  /** `queue.sort(cmp)`. */
  function SortIds(key: string -> Key, q: seq<string>): (r: seq<string>)
    ensures SortedBy(key, r) && multiset(r) == multiset(q)
  {
    if q == [] then []
    else
      var n := |q| - 1;
      assert q == q[..n] + [q[n]];
      var init := SortIds(key, q[..n]);
      InsertKeepsSorted(key, q[n], init);
      InsertSorted(key, q[n], init)
  }

  ghost predicate AllIn(q: seq<string>, byId: map<string, Step>) {
    forall x :: x in q ==> x in byId
  }

  /** The positions of `deps` that name no member of `done`. */
  ghost function CountOutside(deps: seq<string>, done: set<string>): (n: nat)
    ensures n == 0 <==> forall d :: d in deps ==> d in done
  {
    if deps == [] then 0
    else
      var n := |deps| - 1;
      assert deps == deps[..n] + [deps[n]];
      CountOutside(deps[..n], done) + if deps[n] in done then 0 else 1
  }

  lemma {:induction false} CountOutsideAdd(deps: seq<string>, done: set<string>, id: string)
    requires id !in done
    ensures CountOutside(deps, done + {id}) == CountOutside(deps, done) - multiset(deps)[id]
  {
    if deps != [] {
      var n := |deps| - 1;
      assert deps == deps[..n] + [deps[n]];
      CountOutsideAdd(deps[..n], done, id);
    }
  }

  lemma {:induction false} CountOutsideNone(deps: seq<string>)
    ensures CountOutside(deps, {}) == |deps|
  {
    if deps != [] {
      CountOutsideNone(deps[..|deps| - 1]);
    }
  }

  /** How often steps with id `n` name `dep`. */
  ghost function Weight(steps: seq<Step>, dep: string, n: string): nat {
    if steps == [] then 0
    else
      var last := steps[|steps| - 1];
      Weight(steps[..|steps| - 1], dep, n) + if last.id == n then multiset(last.dependsOn)[dep] else 0
  }

  lemma {:induction false} WeightAbsent(steps: seq<Step>, dep: string, n: string)
    requires forall i :: 0 <= i < |steps| ==> steps[i].id != n
    ensures Weight(steps, dep, n) == 0
  {
    if steps != [] {
      WeightAbsent(steps[..|steps| - 1], dep, n);
    }
  }

  lemma {:induction false} WeightUnique(steps: seq<Step>, dep: string, i: nat)
    requires UniqueIds(steps) && i < |steps|
    ensures Weight(steps, dep, steps[i].id) == multiset(steps[i].dependsOn)[dep]
  {
    var n := |steps| - 1;
    if i == n {
      WeightAbsent(steps[..n], dep, steps[i].id);
    } else {
      WeightUnique(steps[..n], dep, i);
    }
  }

  function Get(m: map<string, seq<string>>, k: string): seq<string> {
    if k in m then m[k] else []
  }

  ghost predicate IsDependents(steps: seq<Step>, m: map<string, seq<string>>) {
    && (forall dep, n :: multiset(Get(m, dep))[n] == Weight(steps, dep, n))
    && (forall dep, n :: n in Get(m, dep) ==> n in Ids(steps))
  }

  method BuildDependents(steps: seq<Step>) returns (m: map<string, seq<string>>)
    ensures IsDependents(steps, m)
  {
    m := map[];
    for i := 0 to |steps|
      invariant IsDependents(steps[..i], m)
    {
      var before := m;
      m := AddDependents(m, steps[i]);
      assert steps[..i + 1][..i] == steps[..i];
      forall dep, n | n in Get(m, dep) ensures n in Ids(steps[..i + 1]) {
        assert n in multiset(Get(m, dep));
        if n in multiset(Get(before, dep)) {
          assert n in Get(before, dep) && n in Ids(steps[..i]);
          var k :| 0 <= k < i && steps[..i][k].id == n;
          assert steps[..i + 1][k].id == n;
        } else {
          assert steps[..i + 1][i].id == n;
        }
      }
    }
    assert steps[..|steps|] == steps;
  }

  method AddDependents(before: map<string, seq<string>>, s: Step) returns (m: map<string, seq<string>>)
    ensures forall dep, n ::
        (multiset(Get(m, dep))[n] == multiset(Get(before,
            dep))[n] + if n == s.id then multiset(s.dependsOn)[dep] else 0)
  {
    m := before;
    for k := 0 to |s.dependsOn|
      invariant forall dep, n ::
          (multiset(Get(m, dep))[n] == multiset(Get(before,
              dep))[n] + if n == s.id then multiset(s.dependsOn[..k])[dep] else 0)
    {
      var dep := s.dependsOn[k];
      assert s.dependsOn[..k + 1] == s.dependsOn[..k] + [dep];
      m := m[dep := Get(m, dep) + [s.id]];
    }
    assert s.dependsOn[..|s.dependsOn|] == s.dependsOn;
  }

  /** A ready step has not been emitted and all its dependencies have. */
  ghost predicate Ready(s: Step, done: set<string>) {
    s.id !in done && forall d :: d in s.dependsOn ==> d in done
  }

  /** Each emitted id was the least ready one at its turn. */
  ghost predicate GreedyIds(key: string -> Key, byId: map<string, Step>, order: seq<string>) {
    AllIn(order, byId) && forall k :: 0 <= k < |order| ==> LeastReady(key, byId, Elems(order[..k]), order[k])
  }

  ghost predicate DepsIn(byId: map<string, Step>, id: string, done: set<string>) {
    id in byId && forall d :: d in byId[id].dependsOn ==> d in done
  }

  ghost predicate LeastReady(key: string -> Key, byId: map<string, Step>, done: set<string>, id: string) {
    DepsIn(byId, id, done) && forall n :: DepsIn(byId, n, done) && n !in done && n != id ==> KeyLess(key(id), key(n))
  }

  /** The queue holds exactly the ids whose count has run out and which are not yet emitted. */
  ghost predicate QueueInv(
    byId: map<string, Step>, remaining: map<string, int>, queue: seq<string>, order: seq<string>)
  {
    && remaining.Keys == byId.Keys
    && AllIn(queue, byId) && AllIn(order, byId)
    && NoDup(queue) && NoDup(order) && (forall n :: n in queue ==> n !in order)
    && (forall n :: n in byId ==> (remaining[n] <= 0 <==> n in queue || n in order))
  }

  ghost predicate CountInv(byId: map<string, Step>, remaining: map<string, int>, done: set<string>) {
    && remaining.Keys == byId.Keys
    && forall n :: n in byId ==> remaining[n] == CountOutside(byId[n].dependsOn, done)
  }

  lemma {:induction false} EnqueueKeeps(
    byId: map<string, Step>, remaining: map<string, int>, queue: seq<string>, order: seq<string>, n: string,
    sorted: seq<string>)
    requires QueueInv(byId, remaining, queue, order) && n in byId && remaining[n] == 1
    requires multiset(sorted) == multiset(queue + [n])
    ensures QueueInv(byId, remaining[n := 0], sorted, order)
  {
    var grown := queue + [n];
    assert n !in queue;
    SameElements(sorted, grown);
  }

  /** A count that does not reach zero leaves the queue as it is. */
  lemma {:induction false} CountDownKeeps(
    byId: map<string, Step>, remaining: map<string, int>, queue: seq<string>, order: seq<string>, n: string)
    requires QueueInv(byId, remaining, queue, order) && n in byId && remaining[n] != 1
    ensures QueueInv(byId, remaining[n := remaining[n] - 1], queue, order)
  {
  }

  lemma {:induction false} SameElements(a: seq<string>, b: seq<string>)
    requires multiset(a) == multiset(b) && NoDup(b)
    ensures NoDup(a) && forall x :: x in a <==> x in b
  {
    forall x ensures x in a <==> x in b {
      assert x in a <==> x in multiset(a);
      assert x in b <==> x in multiset(b);
    }
    assert |a| == |multiset(a)| == |multiset(b)| == |b|;
    assert Elems(a) == Elems(b);
    NoDupSize(a);
    NoDupSize(b);
  }

  ghost predicate KeysDiffer(key: string -> Key) {
    forall a, b {:trigger key(a), key(b)} :: key(a).id == key(b).id ==> a == b
  }

  /** Emitting the head of a sorted queue keeps the order greedy. */
  lemma {:induction false} EmitKeepsGreedy(
    key: string -> Key, byId: map<string, Step>, remaining: map<string, int>, queue: seq<string>, order: seq<string>)
    requires KeysDiffer(key)
    requires QueueInv(byId, remaining, queue, order) && CountInv(byId, remaining, Elems(order))
    requires queue != [] && SortedBy(key, queue) && GreedyIds(key, byId, order)
    ensures GreedyIds(key, byId, order + [queue[0]])
  {
    var id := queue[0];
    var next := order + [id];
    var done := Elems(order);
    forall n | DepsIn(byId, n, done) && n !in done && n != id ensures KeyLess(key(id), key(n)) {
      assert n in queue;
      var j :| 0 <= j < |queue| && queue[j] == n;
      assert !KeyLess(key(queue[j]), key(queue[0]));
    }
    assert LeastReady(key, byId, done, id);
    forall k | 0 <= k < |next| ensures LeastReady(key, byId, Elems(next[..k]), next[k]) {
      assert next[..k] == order[..k];
      assert k == |order| ==> order[..k] == order;
    }
  }

  /** All ids emitted and none twice: the plan has unique ids and the order is a permutation of it. */
  lemma {:induction false} EmittedAll(steps: seq<Step>, order: seq<string>)
    requires NoDup(order) && Elems(order) <= Ids(steps) && |order| == |steps|
    ensures UniqueIds(steps) && Elems(order) == Ids(steps)
  {
    IdSeqFacts(steps);
    NoDupSize(order);
    NoDupSize(IdSeq(steps));
    SubsetSize(Elems(order), Ids(steps));
  }

  lemma {:induction false} SomethingLeft(steps: seq<Step>, order: seq<string>)
    requires UniqueIds(steps) && NoDup(order) && |order| != |steps| && Elems(order) <= Ids(steps)
    ensures Ids(steps) - Elems(order) != {}
  {
    IdSeqFacts(steps);
    NoDupSize(IdSeq(steps));
    NoDupSize(order);
    assert Elems(order) != Ids(steps);
    var x :| x in Ids(steps) && x !in Elems(order);
    assert x in Ids(steps) - Elems(order);
  }

  lemma {:induction false} WaitsOnUnemitted(
    byId: map<string, Step>, remaining: map<string, int>, order: seq<string>, n: string)
    returns (d: string)
    requires QueueInv(byId, remaining, [], order) && CountInv(byId, remaining, Elems(order))
    requires n in byId && n !in order
    ensures d in byId[n].dependsOn && d !in order
  {
    assert n !in [];
    assert CountOutside(byId[n].dependsOn, Elems(order)) > 0;
    d :| d in byId[n].dependsOn && d !in Elems(order);
  }

  /** If the queue runs dry early on a plan with unique ids, what is left is dangling or cyclic. */
  lemma {:induction false} StuckMeansCyclic(
    steps: seq<Step>, byId: map<string, Step>, remaining: map<string, int>, order: seq<string>)
    requires byId == ById(steps) && UniqueIds(steps) && ClosedDeps(steps) && |order| != |steps|
    requires QueueInv(byId, remaining, [], order) && CountInv(byId, remaining, Elems(order))
    ensures Cyclic(GraphOf(byId))
  {
    var g := GraphOf(byId);
    var left := byId.Keys - Elems(order);
    assert left != {} by { SomethingLeft(steps, order); }
    forall n | n in left ensures HasSuccessorIn(g, left, n) {
      var d := WaitsOnUnemitted(byId, remaining, order, n);
      ClosedDepIn(steps, n, d);
      assert d in left && Edge(g, n, d);
    }
    TrapIsCyclic(g, left);
  }

  lemma {:induction false} StuckMeansUnschedulable(steps: seq<Step>, remaining: map<string, int>, order: seq<string>)
    requires |order| != |steps| && QueueInv(ById(steps), remaining, [], order)
    requires UniqueIds(steps) ==> CountInv(ById(steps), remaining, Elems(order))
    ensures !Schedulable(steps)
  {
    if UniqueIds(steps) && ClosedDeps(steps) {
      StuckMeansCyclic(steps, ById(steps), remaining, order);
    }
  }

  lemma {:induction false} ClosedDepIn(steps: seq<Step>, n: string, d: string)
    requires ClosedDeps(steps) && n in ById(steps) && d in ById(steps)[n].dependsOn
    ensures d in Ids(steps)
  {
    var i :| 0 <= i < |steps| && steps[i] == ById(steps)[n];
  }

  /** A permutation of the plan in which every dependency comes earlier. */
  ghost predicate TopologicalOrder(steps: seq<Step>, out: seq<Step>) {
    && multiset(out) == multiset(steps)
    && forall k, d :: 0 <= k < |out| && d in out[k].dependsOn ==> d in Ids(out[..k])
  }

  /** The lower iteration number goes first, then the earlier phase, then the id the locale puts first. */
  ghost predicate GoesFirst(rank: string -> int, a: Step, b: Step) {
    var m, n := IterationSortValue(IterationOf(a)), IterationSortValue(IterationOf(b));
    m < n || (m == n && (PhaseOrder(a.phase) < PhaseOrder(b.phase) || (a.phase == b.phase && rank(a.id) < rank(b.id))))
  }

  lemma {:induction false} BeforeGoesFirst(rank: string -> int, a: Step, b: Step)
    ensures StepBefore(rank, a, b) <==> GoesFirst(rank, a, b)
  {
  }

  /** At every turn the emitted step goes first among the ready ones. */
  ghost predicate LeastFirst(steps: seq<Step>, rank: string -> int, out: seq<Step>) {
    forall k, s :: 0 <= k < |out| && s in steps && Ready(s, Ids(out[..k])) ==>
      s == out[k] || GoesFirst(rank, out[k], s)
  }

  /** The plans that can be ordered at all. */
  ghost predicate Schedulable(steps: seq<Step>) {
    UniqueIds(steps) && ClosedDeps(steps) && !Cyclic(GraphOf(ById(steps)))
  }

  ghost predicate Emits(byId: map<string, Step>, order: seq<string>, out: seq<Step>) {
    |out| == |order| && forall k :: 0 <= k < |order| ==> order[k] in byId && out[k] == byId[order[k]]
  }

  lemma {:induction false} EmittedPrefixIds(byId: map<string, Step>, order: seq<string>, out: seq<Step>, k: nat)
    requires Emits(byId, order, out) && k <= |order| && forall n :: n in byId ==> byId[n].id == n
    ensures Ids(out[..k]) == Elems(order[..k])
  {
    forall x | x in Elems(order[..k]) ensures x in Ids(out[..k]) {
      var i :| 0 <= i < k && order[..k][i] == x;
      assert out[..k][i].id == x;
    }
    forall x | x in Ids(out[..k]) ensures x in Elems(order[..k]) {
      var i :| 0 <= i < k && out[..k][i].id == x;
      assert order[..k][i] == x;
    }
  }

  lemma {:induction false} EmitsPermutation(steps: seq<Step>, order: seq<string>, out: seq<Step>)
    requires UniqueIds(steps) && NoDup(order) && Elems(order) == Ids(steps) && Emits(ById(steps), order, out)
    ensures multiset(out) == multiset(steps)
  {
    forall i, j | 0 <= i < j < |out| ensures out[i] != out[j] { assert order[i] != order[j]; }
    forall s | s in steps ensures s in out {
      var i :| 0 <= i < |steps| && steps[i] == s;
      ByIdUnique(steps, i);
      assert s.id in Elems(order);
      var k :| 0 <= k < |order| && order[k] == s.id;
      assert out[k] == s;
    }
    forall s | s in out ensures s in steps { var k :| 0 <= k < |out| && out[k] == s; }
    assert Elems(out) == Elems(steps);
    NoDupPermutation(out, steps);
  }

  /** A complete greedy run is a topological order of a schedulable plan. */
  lemma {:induction false} CompleteRun(steps: seq<Step>, rank: string -> int, order: seq<string>, out: seq<Step>)
    requires UniqueIds(steps) && NoDup(order) && Elems(order) == Ids(steps)
    requires Emits(ById(steps), order, out) && GreedyIds(IdKey(rank, ById(steps)), ById(steps), order)
    ensures TopologicalOrder(steps, out) && LeastFirst(steps, rank, out) && Schedulable(steps)
  {
    var byId, key := ById(steps), IdKey(rank, ById(steps));
    EmitsPermutation(steps, order, out);
    forall k, d | 0 <= k < |out| && d in out[k].dependsOn ensures d in Ids(out[..k]) {
      EmittedPrefixIds(byId, order, out, k);
      assert LeastReady(key, byId, Elems(order[..k]), order[k]);
    }
    forall k, s | 0 <= k < |out| && s in steps && Ready(s, Ids(out[..k]))
      ensures s == out[k] || GoesFirst(rank, out[k], s)
    {
      BeforeGoesFirst(rank, out[k], s);
      EmittedPrefixIds(byId, order, out, k);
      assert LeastReady(key, byId, Elems(order[..k]), order[k]);
      var i :| 0 <= i < |steps| && steps[i] == s;
      ByIdUnique(steps, i);
      assert DepsIn(byId, s.id, Elems(order[..k]));
    }
    GreedySchedulable(steps, key, order);
  }

  lemma {:induction false} GreedySchedulable(steps: seq<Step>, key: string -> Key, order: seq<string>)
    requires UniqueIds(steps) && Elems(order) == Ids(steps) && GreedyIds(key, ById(steps), order)
    ensures Schedulable(steps)
  {
    var byId := ById(steps);
    var g := GraphOf(byId);
    forall i, d | 0 <= i < |steps| && d in steps[i].dependsOn ensures d in Ids(steps) {
      ByIdUnique(steps, i);
      assert steps[i].id in Elems(order);
      var k :| 0 <= k < |order| && order[k] == steps[i].id;
      assert LeastReady(key, byId, Elems(order[..k]), order[k]);
      assert d in Elems(order[..k]);
      assert d in order;
    }
    forall k, d | 0 <= k < |order| && Edge(g, order[k], d) && d in g ensures d in order[..k] {
      assert LeastReady(key, byId, Elems(order[..k]), order[k]);
    }
    OrderedIsAcyclic(g, order);
  }

  method InitialQueue(steps: seq<Step>, byId: map<string, Step>, indeg: map<string, int>) returns (queue: seq<string>)
    requires byId.Keys == Ids(steps) == indeg.Keys && forall n :: n in indeg ==> indeg[n] >= 0
    ensures QueueInv(byId, indeg, queue, [])
  {
    queue := [];
    for i := 0 to |steps|
      invariant NoDup(queue) && forall n :: n in queue ==> n in indeg && indeg[n] == 0
      invariant forall k :: 0 <= k < i && steps[k].id in indeg && indeg[steps[k].id] == 0 ==> steps[k].id in queue
    {
      var id := steps[i].id;
      assert id in Ids(steps);
      if id !in queue && indeg[id] == 0 {
        queue := queue + [id];
      }
    }
    forall n | n in byId && indeg[n] <= 0 ensures n in queue {
      assert n in Ids(steps);
      var k :| 0 <= k < |steps| && steps[k].id == n;
    }
  }

  /** Counts down the dependents of an emitted id and enqueues those that reach zero. */
  method Release(key: string -> Key, ghost byId: map<string, Step>, list: seq<string>, before: map<string, int>,
    ready: seq<string>, ghost order: seq<string>)
    returns (remaining: map<string, int>, queue: seq<string>)
    requires AllIn(list, byId) && QueueInv(byId, before, ready, order) && SortedBy(key, ready)
    ensures QueueInv(byId, remaining, queue, order) && SortedBy(key, queue)
    ensures forall n :: n in byId ==> remaining[n] == before[n] - multiset(list)[n]
  {
    remaining := before;
    queue := ready;
    for k := 0 to |list|
      invariant QueueInv(byId, remaining, queue, order) && SortedBy(key, queue)
      invariant forall n :: n in byId ==> remaining[n] == before[n] - multiset(list[..k])[n]
    {
      var n := list[k];
      assert list[..k + 1] == list[..k] + [n];
      var r := remaining[n] - 1;
      if r == 0 {
        var sorted := SortIds(key, queue + [n]);
        EnqueueKeeps(byId, remaining, queue, order, n, sorted);
        queue := sorted;
      }
      if r != 0 {
        CountDownKeeps(byId, remaining, queue, order, n);
      }
      remaining := remaining[n := r];
    }
    assert list[..|list|] == list;
  }

  /** With unique ids, one release turns the counts for `done` into the counts for `done + {id}`. */
  lemma {:induction false} ReleaseCounts(steps: seq<Step>, byId: map<string, Step>, id: string, done: set<string>,
    dependents: map<string, seq<string>>, before: map<string, int>, after: map<string, int>)
    requires UniqueIds(steps) && byId == ById(steps) && id !in done && IsDependents(steps, dependents)
    requires CountInv(byId, before, done) && after.Keys == byId.Keys
    requires forall n :: n in byId ==> after[n] == before[n] - multiset(Get(dependents, id))[n]
    ensures CountInv(byId, after, done + {id})
  {
    forall n | n in byId ensures after[n] == CountOutside(byId[n].dependsOn, done + {id}) {
      var i :| 0 <= i < |steps| && steps[i] == byId[n];
      WeightUnique(steps, id, i);
      CountOutsideAdd(byId[n].dependsOn, done, id);
    }
  }

  lemma {:induction false} InitialCounts(byId: map<string, Step>, indeg: map<string, int>)
    requires indeg.Keys == byId.Keys && forall n :: n in byId ==> indeg[n] == |byId[n].dependsOn|
    ensures CountInv(byId, indeg, {})
  {
    forall n | n in byId ensures indeg[n] == CountOutside(byId[n].dependsOn, {}) {
      CountOutsideNone(byId[n].dependsOn);
    }
  }

  /** Moving the queue's head to the order keeps the queue's meaning. */
  lemma {:induction false} EmitKeepsQueue(
    byId: map<string, Step>, remaining: map<string, int>, queue: seq<string>, order: seq<string>)
    requires QueueInv(byId, remaining, queue, order) && queue != []
    ensures QueueInv(byId, remaining, queue[1..], order + [queue[0]])
  {
    assert queue == [queue[0]] + queue[1..];
    forall i | 0 <= i < |queue| - 1 ensures queue[1..][i] != queue[0] { assert queue[i + 1] != queue[0]; }
    assert queue[0] in queue;
    assert forall n :: n in queue <==> n in queue[1..] || n == queue[0];
  }

  /** What the main loop keeps; the counts and the greedy choice need unique ids. */
  ghost predicate RunInv(steps: seq<Step>, key: string -> Key, byId: map<string, Step>, remaining: map<string, int>,
    queue: seq<string>, order: seq<string>)
  {
    && QueueInv(byId, remaining, queue, order)
    && SortedBy(key, queue)
    && (UniqueIds(steps) ==> CountInv(byId, remaining, Elems(order)) && GreedyIds(key, byId, order))
  }

  /** One turn of the main loop, whatever `Release` did to the counts. */
  lemma {:induction false} TurnKeeps(steps: seq<Step>, key: string -> Key, byId: map<string, Step>,
          dependents: map<string, seq<string>>,
    before: map<string, int>, queue: seq<string>, order: seq<string>, after: map<string, int>, next: seq<string>)
    requires RunInv(steps, key, byId, before, queue, order) && queue != []
    requires KeysDiffer(key) && byId == ById(steps) && IsDependents(steps, dependents)
    requires QueueInv(byId, after, next, order + [queue[0]]) && SortedBy(key, next)
    requires forall n :: n in byId ==> after[n] == before[n] - multiset(Get(dependents, queue[0]))[n]
    ensures RunInv(steps, key, byId, after, next, order + [queue[0]])
  {
    hide ById, Get, IsDependents, UniqueIds, AllIn;
    if UniqueIds(steps) {
      EmitKeepsGreedy(key, byId, before, queue, order);
      assert queue[0] in queue;
      assert Elems(order + [queue[0]]) == Elems(order) + {queue[0]};
      ReleaseCounts(steps, byId, queue[0], Elems(order), dependents, before, after);
    }
  }

  lemma {:induction false} RunStarts(
    steps: seq<Step>, rank: string -> int, byId: map<string, Step>, indeg: map<string, int>, initial: seq<string>,
    queue: seq<string>)
    requires StrictOrder(rank) && byId == ById(steps) && QueueInv(byId, indeg, initial, [])
    requires forall n :: n in byId ==> indeg[n] == |byId[n].dependsOn|
    requires multiset(queue) == multiset(initial) && SortedBy(IdKey(rank, byId), queue)
    ensures KeysDiffer(IdKey(rank, byId))
    ensures RunInv(steps, IdKey(rank, byId), byId, indeg, queue, [])
  {
    SameElements(queue, initial);
    InitialCounts(byId, indeg);
    assert Elems<string>([]) == {};
  }

  lemma {:induction false} EmitKeepsOut(byId: map<string, Step>, order: seq<string>, out: seq<Step>, id: string)
    requires Emits(byId, order, out) && id in byId
    ensures Emits(byId, order + [id], out + [byId[id]])
  {
  }

  lemma {:induction false} LeftShrinks(keys: set<string>, order: seq<string>, id: string)
    requires id in keys && id !in order
    ensures keys - Elems(order + [id]) < keys - Elems(order)
  {
    assert Elems(order + [id]) == Elems(order) + {id};
    assert id in keys - Elems(order);
  }

  /** Everything emitted: the plan was schedulable and this is its order. */
  lemma {:induction false} Finished(
    steps: seq<Step>, rank: string -> int, remaining: map<string, int>, order: seq<string>, out: seq<Step>)
    requires RunInv(steps, IdKey(rank, ById(steps)), ById(steps), remaining, [], order)
    requires Emits(ById(steps), order, out) && |out| == |steps|
    ensures Schedulable(steps) && TopologicalOrder(steps, out) && LeastFirst(steps, rank, out)
  {
    EmittedAll(steps, order);
    CompleteRun(steps, rank, order, out);
  }

  method Sort(steps: seq<Step>, rank: string -> int) returns (r: Result<seq<Step>, string>)
    requires StrictOrder(rank)
    ensures r.Ok? <==> Schedulable(steps)
    ensures r.Ok? ==> TopologicalOrder(steps, r.value) && LeastFirst(steps, rank, r.value)
    ensures r.Err? ==> r.error == "Cycle detected during topoSort"
  {
    hide ById, Elems, Ids;
    var byId := ById(steps);
    var key := IdKey(rank, byId);
    var remaining: map<string, int> := map id | id in byId :: |byId[id].dependsOn|;
    var initial := InitialQueue(steps, byId, remaining);
    var queue := SortIds(key, initial);
    RunStarts(steps, rank, byId, remaining, initial, queue);
    var dependents := BuildDependents(steps);
    var out: seq<Step> := [];
    ghost var order: seq<string> := [];
    while queue != []
      invariant RunInv(steps, key, byId, remaining, queue, order) && Emits(byId, order, out)
      decreases byId.Keys - Elems(order)
    {
      var id := queue[0];
      assert id in queue;
      LeftShrinks(byId.Keys, order, id);
      EmitKeepsQueue(byId, remaining, queue, order);
      EmitKeepsOut(byId, order, out, id);
      out := out + [byId[id]];
      assert AllIn(Get(dependents, id), byId);
      assert SortedBy(key, queue[1..]);
      var after, next := Release(key, byId, Get(dependents, id), remaining, queue[1..], order + [id]);
      TurnKeeps(steps, key, byId, dependents, remaining, queue, order, after, next);
      remaining, queue := after, next;
      order := order + [id];
    }
    if |out| != |steps| {
      StuckMeansUnschedulable(steps, remaining, order);
      return Err("Cycle detected during topoSort");
    }
    Finished(steps, rank, remaining, order, out);
    return Ok(out);
  }

  /** The same steps, whatever the order of the plan and of each dependency list. */
  ghost predicate SamePlan(a: seq<Step>, b: seq<Step>) {
    && Ids(a) == Ids(b)
    && forall s, t :: s in a && t in b && s.id == t.id ==> SameStep(s, t)
  }

  ghost predicate SameStep(s: Step, t: Step) {
    s.id == t.id && IterationOf(s) == IterationOf(t) && s.phase == t.phase && Elems(s.dependsOn) == Elems(t.dependsOn)
  }

  lemma {:induction false} InPlan(steps: seq<Step>, out: seq<Step>)
    requires multiset(out) == multiset(steps)
    ensures |out| == |steps| && forall s :: s in out <==> s in steps
  {
    assert |out| == |multiset(out)| == |multiset(steps)| == |steps|;
    forall s ensures s in out <==> s in steps {
      assert s in out <==> s in multiset(out);
      assert s in steps <==> s in multiset(steps);
    }
  }

  lemma {:induction false} UniqueOutput(steps: seq<Step>, out: seq<Step>)
    requires UniqueIds(steps) && multiset(out) == multiset(steps)
    ensures UniqueIds(out) && Ids(out) == Ids(steps)
  {
    InPlan(steps, out);
    forall x ensures x in Ids(out) <==> x in Ids(steps) {
      if x in Ids(out) {
        var i :| 0 <= i < |out| && out[i].id == x;
        assert out[i] in steps;
      }
      if x in Ids(steps) {
        var i :| 0 <= i < |steps| && steps[i].id == x;
        assert steps[i] in out;
      }
    }
    assert Ids(out) == Ids(steps);
    IdSeqFacts(steps);
    IdSeqFacts(out);
    NoDupSize(IdSeq(steps));
    NoDupSize(IdSeq(out));
  }

  lemma {:induction false} NotYetEmitted(out: seq<Step>, k: nat)
    requires UniqueIds(out) && k < |out|
    ensures out[k].id !in Ids(out[..k])
  {
  }

  /** The step of the other plan that carries the same id. */
  lemma {:induction false} Counterpart(a: seq<Step>, b: seq<Step>, s: Step) returns (t: Step)
    requires SamePlan(a, b) && s in a
    ensures t in b && SameStep(s, t)
  {
    var i :| 0 <= i < |a| && a[i] == s;
    assert s.id in Ids(a);
    var j :| 0 <= j < |b| && b[j].id == s.id;
    t := b[j];
  }

  /** Whatever one order emits at a turn is ready at that turn of the other. */
  lemma {:induction false} EmittedIsReadyThere(
    a: seq<Step>, b: seq<Step>, outA: seq<Step>, outB: seq<Step>, k: nat)
    returns (t: Step)
    requires SamePlan(a, b) && UniqueIds(a) && TopologicalOrder(a, outA)
    requires k < |outA| && k <= |outB| && Ids(outA[..k]) == Ids(outB[..k])
    ensures t in b && SameStep(outA[k], t) && Ready(t, Ids(outB[..k]))
  {
    UniqueOutput(a, outA);
    InPlan(a, outA);
    NotYetEmitted(outA, k);
    t := Counterpart(a, b, outA[k]);
    forall d | d in t.dependsOn ensures d in Ids(outB[..k]) {
      assert d in Elems(t.dependsOn);
      assert d in outA[k].dependsOn;
    }
  }

  /** Determinism: the order depends on the set of steps and of dependencies, not on how they are listed. */
  lemma {:induction false} OrderIsUnique(
    a: seq<Step>, b: seq<Step>, rank: string -> int, outA: seq<Step>, outB: seq<Step>, k: nat)
    requires StrictOrder(rank) && SamePlan(a, b) && UniqueIds(a) && UniqueIds(b)
    requires TopologicalOrder(a, outA) && LeastFirst(a, rank, outA)
    requires TopologicalOrder(b, outB) && LeastFirst(b, rank, outB)
    requires k <= |a|
    ensures |outA| == |outB| == |a|
    ensures forall i :: 0 <= i < k ==> outA[i].id == outB[i].id
    ensures Ids(outA[..k]) == Ids(outB[..k])
  {
    SameLength(a, b, outA, outB);
    if k > 0 {
      var m := k - 1;
      OrderIsUnique(a, b, rank, outA, outB, m);
      SamePlanSym(a, b);
      SameChoice(a, b, rank, outA, outB, m);
      assert outA[..k] == outA[..m] + [outA[m]] && outB[..k] == outB[..m] + [outB[m]];
      IdsAppend(outA[..m], outA[m]);
      IdsAppend(outB[..m], outB[m]);
    }
  }

  /** After equal prefixes both orders choose the same id. */
  lemma {:induction false} SameChoice(
    a: seq<Step>, b: seq<Step>, rank: string -> int, outA: seq<Step>, outB: seq<Step>, m: nat)
    requires SamePlan(a, b) && SamePlan(b, a) && UniqueIds(a) && UniqueIds(b) && StrictOrder(rank)
    requires TopologicalOrder(a, outA) && LeastFirst(a, rank, outA)
    requires TopologicalOrder(b, outB) && LeastFirst(b, rank, outB)
    requires m < |outA| && m < |outB| && Ids(outA[..m]) == Ids(outB[..m])
    ensures outA[m].id == outB[m].id
  {
    var t := EmittedIsReadyThere(a, b, outA, outB, m);
    var s := EmittedIsReadyThere(b, a, outB, outA, m);
    assert t == outB[m] || GoesFirst(rank, outB[m], t);
    assert s == outA[m] || GoesFirst(rank, outA[m], s);
  }

  lemma {:induction false} SamePlanSym(a: seq<Step>, b: seq<Step>)
    requires SamePlan(a, b)
    ensures SamePlan(b, a)
  {
  }

  lemma {:induction false} IdsAppend(out: seq<Step>, s: Step)
    ensures Ids(out + [s]) == Ids(out) + {s.id}
  {
    forall x | x in Ids(out) ensures x in Ids(out + [s]) {
      var i :| 0 <= i < |out| && out[i].id == x;
      assert (out + [s])[i].id == x;
    }
    assert (out + [s])[|out|].id == s.id;
  }

  lemma {:induction false} SameLength(a: seq<Step>, b: seq<Step>, outA: seq<Step>, outB: seq<Step>)
    requires SamePlan(a, b) && UniqueIds(a) && UniqueIds(b)
    requires multiset(outA) == multiset(a) && multiset(outB) == multiset(b)
    ensures |outA| == |outB| == |a|
  {
    InPlan(a, outA);
    InPlan(b, outB);
    IdSeqFacts(a);
    IdSeqFacts(b);
    NoDupSize(IdSeq(a));
    NoDupSize(IdSeq(b));
  }

  /**
   * Where no edge leads to a later phase, the emitted order is sorted by phase although only ready steps are
   * compared.
   */
  lemma {:induction false} PhasesAreSorted(steps: seq<Step>, rank: string -> int, out: seq<Step>, i: nat, j: nat)
    requires StrictOrder(rank) && UniqueIds(steps) && TopologicalOrder(steps, out) && LeastFirst(steps, rank, out)
    requires forall s, t :: s in steps && t in steps ==> IterationOf(s) == IterationOf(t)
    requires forall s, d :: s in steps && d in steps && d.id in s.dependsOn ==>
               PhaseOrder(d.phase) <= PhaseOrder(s.phase)
    requires i <= j < |out|
    ensures PhaseOrder(out[i].phase) <= PhaseOrder(out[j].phase)
  {
    InPlan(steps, out);
    UniqueOutput(steps, out);
    var m := FirstLow(out, i, j);
    var s := out[m];
    assert Ready(s, Ids(out[..i])) by {
      NotEmittedBefore(out, i, m);
      forall d | d in s.dependsOn ensures d in Ids(out[..i]) {
        assert d in Ids(out[..m]);
        var n :| 0 <= n < m && out[..m][n].id == d;
        assert out[n] in steps && out[m] in steps;
        assert PhaseOrder(out[n].phase) <= PhaseOrder(s.phase);
        if n < i { assert out[..i][n].id == d; }
      }
    }
    assert s == out[i] || GoesFirst(rank, out[i], s);
  }

  lemma {:induction false} NotEmittedBefore(out: seq<Step>, i: nat, m: nat)
    requires UniqueIds(out) && i <= m < |out|
    ensures out[m].id !in Ids(out[..i])
  {
  }

  /** The first step from `i` on whose phase does not exceed that of step `j`. */
  lemma {:induction false} FirstLow(out: seq<Step>, i: nat, j: nat) returns (m: nat)
    requires i <= j < |out|
    ensures i <= m <= j && PhaseOrder(out[m].phase) <= PhaseOrder(out[j].phase)
    ensures forall n :: i <= n < m ==> PhaseOrder(out[n].phase) > PhaseOrder(out[j].phase)
  {
    m := i;
    while PhaseOrder(out[m].phase) > PhaseOrder(out[j].phase)
      invariant i <= m <= j
      invariant forall n :: i <= n < m ==> PhaseOrder(out[n].phase) > PhaseOrder(out[j].phase)
      decreases j - m
    {
      m := m + 1;
    }
  }
}
