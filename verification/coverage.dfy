/** The coverage repair pass: every CODE step gets a unit test step of its own iteration. */
module CoverageRepair {
  import opened Basics
  import opened Plans
  import opened DependencyGraph
  import opened PlanLint
  import opened VModelDependencies
  import opened TestPairing
  import opened GeneratedNames
  import TopoSort

  // ---- New step ids ---------------------------------------------------------------------

  /** `/^S(\d{3,})$/`. */
  predicate IsNumbered(id: string) {
    |id| >= 4 && id[0] == 'S' && TopoSort.AllDigits(id[1..])
  }

  function NumberOf(id: string): nat {
    if IsNumbered(id) then TopoSort.DecimalValue(id[1..]) else 0
  }

  function MaxNumber(steps: seq<Step>): (m: nat)
    ensures forall i :: 0 <= i < |steps| ==> NumberOf(steps[i].id) <= m
  {
    if steps == [] then 0
    else
      var n := |steps| - 1;
      var before := MaxNumber(steps[..n]);
      assert forall i :: 0 <= i < n ==> steps[..n][i] == steps[i];
      if NumberOf(steps[n].id) > before then NumberOf(steps[n].id) else before
  }

  /** The number is that of some schema id of the plan, or zero where there is none: numbering starts at one. */
  lemma {:induction false} MaxNumberIsTaken(steps: seq<Step>)
    ensures MaxNumber(steps) > 0 ==>
              exists i :: 0 <= i < |steps| && IsNumbered(steps[i].id) &&
                          TopoSort.DecimalValue(steps[i].id[1..]) == MaxNumber(steps)
    ensures (forall i :: 0 <= i < |steps| ==> !IsNumbered(steps[i].id)) ==> MaxNumber(steps) == 0
  {
    if steps != [] {
      var n := |steps| - 1;
      MaxNumberIsTaken(steps[..n]);
      assert steps == steps[..n] + [steps[n]];
    }
  }

  /** `padStart(3, '0')`. */
  function Padded(digits: string): string
    decreases 3 - |digits|
  {
    if |digits| >= 3 then digits else Padded("0" + digits)
  }

  function NewId(n: nat): string {
    "S" + Padded(Decimal(n))
  }

  lemma {:induction false} LeadingZero(digits: string)
    requires TopoSort.AllDigits(digits)
    ensures TopoSort.AllDigits("0" + digits) && TopoSort.DecimalValue("0" + digits) == TopoSort.DecimalValue(digits)
  {
    var padded := "0" + digits;
    if digits == [] {
      assert padded[..0] == [];
      assert TopoSort.DecimalValue(padded) == TopoSort.DecimalValue(padded[..0]) * 10 + 0;
    } else {
      LeadingZero(digits[..|digits| - 1]);
      assert padded[..|padded| - 1] == "0" + digits[..|digits| - 1];
    }
  }

  lemma {:induction false} PaddedReadsBack(digits: string)
    requires TopoSort.AllDigits(digits)
    ensures |Padded(digits)| >= 3 && TopoSort.AllDigits(Padded(digits))
    ensures TopoSort.DecimalValue(Padded(digits)) == TopoSort.DecimalValue(digits)
    decreases 3 - |digits|
  {
    if |digits| < 3 {
      LeadingZero(digits);
      PaddedReadsBack("0" + digits);
    }
  }

  lemma {:induction false} NewIdReadsBack(n: nat)
    ensures IsNumbered(NewId(n)) && NumberOf(NewId(n)) == n
  {
    DecimalReadsBack(n);
    PaddedReadsBack(Decimal(n));
    assert NewId(n)[1..] == Padded(Decimal(n));
  }

  /** An id numbered past the largest one names no step of the plan, and numbers tell new ids apart. */
  lemma {:induction false} NewIdIsFresh(steps: seq<Step>, k: nat)
    ensures NewId(MaxNumber(steps) + 1 + k) !in Ids(steps)
  {
    var id := NewId(MaxNumber(steps) + 1 + k);
    NewIdReadsBack(MaxNumber(steps) + 1 + k);
    forall i | 0 <= i < |steps| ensures steps[i].id != id {
      assert NumberOf(steps[i].id) <= MaxNumber(steps);
    }
  }

  lemma {:induction false} NewIdsDiffer(m: nat, n: nat)
    requires m != n
    ensures NewId(m) != NewId(n)
  {
    NewIdReadsBack(m);
    NewIdReadsBack(n);
  }

  // ---- Plans that add unit test steps ---------------------------------------------------

  /** A kept step: same place in the V-model, and the dependencies it had. */
  ghost predicate Keeps(before: Step, after: Step) {
    && after.id == before.id && after.iterationId == before.iterationId && after.phase == before.phase
    && forall d :: d in before.dependsOn ==> d in after.dependsOn
  }

  /**
   * A dependency the repair may add to a kept step: a new step of its iteration, after which the step's phase comes.
   */
  ghost predicate NewLink(after: Step, d: string, n: nat, out: seq<Step>) {
    PhaseOrder(after.phase) > PhaseOrder(UnitTest) &&
    exists j :: n <= j < |out| && out[j].id == d && IterationOf(out[j]) == IterationOf(after)
  }

  /** A new step is a unit test step that depends on CODE steps of its iteration. */
  ghost predicate NewStep(p: seq<Step>, s: Step) {
    s.phase == UnitTest && forall d :: d in s.dependsOn ==>
      exists i :: 0 <= i < |p| && p[i].id == d && p[i].phase == Code && IterationOf(p[i]) == IterationOf(s)
  }

  ghost predicate Extends(p: seq<Step>, out: seq<Step>) {
    && |p| <= |out| && UniqueIds(out)
    && (forall i :: 0 <= i < |p| ==> Keeps(p[i], out[i]))
    && (forall i, d :: 0 <= i < |p| && d in out[i].dependsOn && d !in p[i].dependsOn ==> NewLink(out[i], d, |p|, out))
    && (forall j :: |p| <= j < |out| ==> NewStep(p, out[j]))
  }

  lemma {:induction false} ExtendsUnique(p: seq<Step>, out: seq<Step>)
    requires Extends(p, out)
    ensures UniqueIds(p) && Ids(p) <= Ids(out)
  {
    assert forall i :: 0 <= i < |p| ==> Keeps(p[i], out[i]);
    forall i, j | 0 <= i < j < |p| ensures p[i].id != p[j].id { assert out[i].id != out[j].id; }
    forall x | x in Ids(p) ensures x in Ids(out) {
      var i :| 0 <= i < |p| && p[i].id == x;
      assert out[i].id == x;
    }
  }

  /** No unknown dependency of the old plan names a new step. */
  ghost predicate NoCapture(p: seq<Step>, out: seq<Step>) {
    forall i, j :: 0 <= i < |p| && |p| <= j < |out| ==> out[j].id !in p[i].dependsOn
  }

  /** Where an edge of the extended plan comes from and how it ranks. */
  lemma {:induction false} ExtendedEdge(p: seq<Step>, out: seq<Step>, order: string -> int, i: nat, j: nat)
    requires Extends(p, out) && NoCapture(p, out) && PhaseMonotone(p, order)
    requires i < |out| && j < |out| && out[j].id in out[i].dependsOn
    ensures Rank(order, out[j]) <= Rank(order, out[i])
    ensures (i < |p| && j < |p| && p[j].id in p[i].dependsOn) || Rank(order, out[j]) < Rank(order, out[i])
  {
    hide PhaseMonotone;
    if i < |p| {
      assert Keeps(p[i], out[i]);
      if out[j].id in p[i].dependsOn {
        assert j < |p|;
        assert Keeps(p[j], out[j]);
        MonotoneMeansRanked(p, order);
      } else {
        assert NewLink(out[i], out[j].id, |p|, out);
        var k :| |p| <= k < |out| && out[k].id == out[j].id && IterationOf(out[k]) == IterationOf(out[i]);
        assert k == j && NewStep(p, out[j]);
      }
    } else {
      assert NewStep(p, out[i]);
      var k :| 0 <= k < |p| && p[k].id == out[j].id && p[k].phase == Code && IterationOf(p[k]) == IterationOf(out[i]);
      assert Keeps(p[k], out[k]) && out[k].id == out[j].id;
      assert k == j;
    }
  }

  /** Seen through `order`, the extended plan is as phase-monotone as the old one. */
  lemma {:induction false} ExtendedMonotone(p: seq<Step>, out: seq<Step>, order: string -> int)
    requires Extends(p, out) && NoCapture(p, out) && PhaseMonotone(p, order)
    ensures PhaseMonotone(out, order)
  {
    forall s, t | s in out && t in out && t.id in s.dependsOn ensures Rank(order, t) <= Rank(order, s) {
      var i :| 0 <= i < |out| && out[i] == s;
      var j :| 0 <= j < |out| && out[j] == t;
      ExtendedEdge(p, out, order, i, j);
    }
    MonotoneMeansRanked(out, order);
  }

  lemma {:induction false} KeptEdgeStays(p: seq<Step>, out: seq<Step>, a: string, b: string)
    requires Extends(p, out) && Edge(GraphOf(ById(p)), a, b)
    ensures Edge(GraphOf(ById(out)), a, b)
  {
    ExtendsUnique(p, out);
    var i := PositionOf(p, a);
    assert Keeps(p[i], out[i]);
    ByIdUnique(out, i);
  }

  lemma {:induction false} ExtendedClosed(p: seq<Step>, out: seq<Step>)
    requires Extends(p, out) && ClosedDeps(p)
    ensures ClosedDeps(out)
  {
    ExtendsUnique(p, out);
    forall i, d | 0 <= i < |out| && d in out[i].dependsOn ensures d in Ids(out) {
      if i >= |p| {
        assert NewStep(p, out[i]);
        var k :| 0 <= k < |p| && p[k].id == d && p[k].phase == Code && IterationOf(p[k]) == IterationOf(out[i]);
        assert d in Ids(p);
      } else if d in p[i].dependsOn {
        assert d in Ids(p);
      } else {
        assert NewLink(out[i], d, |p|, out);
      }
    }
  }

  // ---- Coverage -------------------------------------------------------------------------

  /** The unit test step, of the same iteration, transitively depends on the step. */
  ghost predicate CoveredBy(steps: seq<Step>, c: Step, t: Step) {
    t.phase == UnitTest && IterationOf(t) == IterationOf(c) && ReachesFrom(GraphOf(ById(steps)), t.dependsOn, c.id)
  }

  ghost predicate Covered(steps: seq<Step>, c: Step) {
    exists i :: 0 <= i < |steps| && CoveredBy(steps, c, steps[i])
  }

  /** The lint asks for the same coverage. */
  lemma {:induction false} CoveredMeansUnitTested(plan: Plan, c: Step)
    ensures Covered(plan.steps, c) <==> UnitTested(plan, c)
  {
    if Covered(plan.steps, c) {
      var i :| 0 <= i < |plan.steps| && CoveredBy(plan.steps, c, plan.steps[i]);
      assert plan.steps[i] in plan.steps && UnitTestedBy(plan, c, plan.steps[i]);
    }
    if UnitTested(plan, c) {
      var t :| t in plan.steps && UnitTestedBy(plan, c, t);
      var i :| 0 <= i < |plan.steps| && plan.steps[i] == t;
      assert CoveredBy(plan.steps, c, plan.steps[i]);
    }
  }

  lemma {:induction false} CoverageStays(p: seq<Step>, out: seq<Step>, c: Step, after: Step)
    requires Extends(p, out) && Covered(p, c) && after.id == c.id && IterationOf(after) == IterationOf(c)
    ensures Covered(out, after)
  {
    var i :| 0 <= i < |p| && CoveredBy(p, c, p[i]);
    var root :| root in p[i].dependsOn && Reaches(GraphOf(ById(p)), root, c.id);
    assert Keeps(p[i], out[i]);
    forall x, y | Edge(GraphOf(ById(p)), x, y) ensures Edge(GraphOf(ById(out)), x, y) { KeptEdgeStays(p, out, x, y); }
    ReachesMono(GraphOf(ById(p)), GraphOf(ById(out)), root, c.id);
    assert root in out[i].dependsOn;
    assert CoveredBy(out, after, out[i]);
  }

  lemma {:induction false} DirectCoverage(out: seq<Step>, j: nat, c: Step)
    requires j < |out| && out[j].phase == UnitTest && IterationOf(out[j]) == IterationOf(c) && c.id in out[j].dependsOn
    ensures Covered(out, c)
  {
    ReachesSelf(GraphOf(ById(out)), c.id);
    assert CoveredBy(out, c, out[j]);
  }

  // ---- The pass -------------------------------------------------------------------------

  datatype CoverageRules = CoverageRules(paths: Rules, codeFile: string -> bool, unitDoc: string -> string)

  predicate Implements(c: CoverageRules, output: string) {
    StartsWith(output, "src/") && c.codeFile(output)
  }

  /** The exemption of this pass: it looks at the implementation outputs only, the lint at all outputs. */
  predicate IsInitOnly(c: CoverageRules, s: Step) {
    (exists o :: o in s.outputs && Implements(c, o)) &&
    forall o :: o in s.outputs && Implements(c, o) ==> EndsWith(o, "/__init__.py")
  }

  predicate NeedsCover(c: CoverageRules, s: Step) {
    s.phase == Code && !IsInitOnly(c, s)
  }

  ghost predicate Uncovered(c: CoverageRules, p: seq<Step>, i: nat) {
    i < |p| && NeedsCover(c, p[i]) && !Covered(p, p[i])
  }

  predicate InRange(positions: seq<nat>, n: nat) {
    forall k :: 0 <= k < |positions| ==> positions[k] < n
  }

  /** The positions of the uncovered steps among the first `n`, in plan order. */
  ghost function UncoveredUpTo(c: CoverageRules, p: seq<Step>, n: nat): (u: seq<nat>)
    requires n <= |p|
    ensures InRange(u, n) && (forall k :: 0 <= k < |u| ==> Uncovered(c, p, u[k]))
    ensures forall a, b :: 0 <= a < b < |u| ==> u[a] < u[b]
  {
    if n == 0 then []
    else UncoveredUpTo(c, p, n - 1) + if Uncovered(c, p, n - 1) then [n - 1] else []
  }

  /** The bucket of one iteration. */
  function Bucket(p: seq<Step>, uncovered: seq<nat>, iteration: string): (b: seq<nat>)
    requires InRange(uncovered, |p|)
    ensures InRange(b, |p|) && forall k :: 0 <= k < |b| ==> b[k] in uncovered && IterationOf(p[b[k]]) == iteration
  {
    if uncovered == [] then []
    else
      var n := |uncovered| - 1;
      Bucket(p, uncovered[..n], iteration) + if IterationOf(p[uncovered[n]]) == iteration then [uncovered[n]] else []
  }

  predicate HasTest(r: Rules, s: Step) {
    exists o :: o in s.outputs && r.executable(o)
  }

  /** Gives every listed step without an executable test a generated one. */
  function NameTests(r: Rules, st: PairState, todo: seq<nat>): (out: PairState)
    requires InRange(todo, |st.steps|)
    ensures |out.steps| == |st.steps|
    decreases |todo|
  {
    if todo == [] then st
    else
      var i := todo[0];
      var s := st.steps[i];
      if HasTest(r, s) then NameTests(r, st, todo[1..])
      else
        var path := UniquePath(r, s.id, UnitTest, st.used);
        NameTests(r, PairState(st.steps[i := s.(outputs := Dedup(s.outputs + [path]))], st.used + {path}), todo[1..])
  }

  function AllOutputs(p: seq<Step>, positions: seq<nat>): seq<string>
    requires InRange(positions, |p|)
  {
    if positions == [] then []
    else
      var n := |positions| - 1;
      AllOutputs(p, positions[..n]) + p[positions[n]].outputs
  }

  function IdsAt(p: seq<Step>, positions: seq<nat>): (ids: seq<string>)
    requires InRange(positions, |p|)
    ensures |ids| == |positions| && forall k :: 0 <= k < |ids| ==> ids[k] == p[positions[k]].id
  {
    seq(|positions|, k requires 0 <= k < |positions| => p[positions[k]].id)
  }

  /** The unit test step added for one iteration. */
  function Synthetic(c: CoverageRules, mid: seq<Step>, bucket: seq<nat>, iteration: string, id: string): Step
    requires InRange(bucket, |mid|)
  {
    Step(id, Some(iteration), UnitTest, Dedup(AllOutputs(mid, bucket)), [c.unitDoc(iteration)], IdsAt(mid, bucket))
  }

  /** The iterations of the uncovered steps, in the order of their first one. */
  function IterationsAt(p: seq<Step>, positions: seq<nat>): (r: seq<string>)
    requires InRange(positions, |p|)
    ensures NoDup(r) && forall k :: 0 <= k < |positions| ==> IterationOf(p[positions[k]]) in r
  {
    var at := seq(|positions|, k requires 0 <= k < |positions| => p[positions[k]]);
    var r := IterationIds(at);
    assert Lists(at, r);
    assert forall k :: 0 <= k < |positions| ==> at[k] == p[positions[k]];
    r
  }

  /** Position of an iteration in the list of new steps. */
  function IndexOf(ids: seq<string>, x: string): (k: nat)
    ensures k <= |ids| && (x in ids <==> k < |ids|) && (k < |ids| ==> ids[k] == x)
  {
    if ids == [] then 0 else if ids[0] == x then 0 else 1 + IndexOf(ids[1..], x)
  }

  predicate DependsOnUnitTest(byId: map<string, Step>, s: Step) {
    exists d :: d in s.dependsOn && d in byId && byId[d].phase == UnitTest
  }

  /** A later verification step that depends on uncovered code directly, and on no unit test, also gets the new step. */
  function Rewired(
    byId: map<string, Step>, uncoveredIds: seq<string>, iterations: seq<string>, base: nat, s: Step): Step
  {
    if s.phase !in {IntegrationTest, ModuleTest, FunctionalTest} || DependsOnUnitTest(byId, s) then s
    else if !exists d :: d in s.dependsOn && d in uncoveredIds then s
    else
      var k := IndexOf(iterations, IterationOf(s));
      if k == |iterations| then s else s.(dependsOn := Dedup(s.dependsOn + [NewId(base + k)]))
  }

  datatype Added = Added(st: PairState, steps: seq<Step>)

  /** Names the tests of one bucket and makes its unit test step. */
  function AddOne(
      c: CoverageRules, p: seq<Step>, uncovered: seq<nat>, st: PairState, iteration: string, id: string
    ): (r: (PairState, Step))
    requires InRange(uncovered, |p|) && |st.steps| == |p|
    ensures |r.0.steps| == |p|
  {
    var bucket := Bucket(p, uncovered, iteration);
    var named := NameTests(c.paths, st, bucket);
    (named, Synthetic(c, named.steps, bucket, iteration, id))
  }

  /** One new step per iteration with uncovered code, after naming the tests of its bucket. */
  function AddSteps(
      c: CoverageRules, p: seq<Step>, uncovered: seq<nat>, st: PairState, iterations: seq<string>, base: nat
    ): (a: Added)
    requires InRange(uncovered, |p|) && |st.steps| == |p|
    ensures |a.st.steps| == |p| && |a.steps| == |iterations|
    decreases |iterations|
  {
    if iterations == [] then Added(st, [])
    else
      var (named, made) := AddOne(c, p, uncovered, st, iterations[0], NewId(base));
      var rest := AddSteps(c, p, uncovered, named, iterations[1..], base + 1);
      Added(rest.st, [made] + rest.steps)
  }

  function RewiredAll(
      byId: map<string, Step>, uncoveredIds: seq<string>, iterations: seq<string>, base: nat, steps: seq<Step>
    ): (out: seq<Step>)
    ensures |out| == |steps|
    ensures forall i :: 0 <= i < |steps| ==> out[i] == Rewired(byId, uncoveredIds, iterations, base, steps[i])
  {
    seq(|steps|, i requires 0 <= i < |steps| => Rewired(byId, uncoveredIds, iterations, base, steps[i]))
  }

  /** The plan before the last pairing pass: the rewired old steps, then the new ones. */
  function Joined(c: CoverageRules, p: seq<Step>, uncovered: seq<nat>): (out: seq<Step>)
    requires InRange(uncovered, |p|)
  {
    var iterations, base := IterationsAt(p, uncovered), MaxNumber(p) + 1;
    var added := AddSteps(c, p, uncovered, PairState(p, OutputsOf(p)), iterations, base);
    RewiredAll(ById(p), IdsAt(p, uncovered), iterations, base, added.st.steps) + added.steps
  }

  /** What `calibratePlanCoverage` returns. */
  ghost function Repaired(c: CoverageRules, steps: seq<Step>): seq<Step> {
    var p := Paired(c.paths, steps);
    var uncovered := UncoveredUpTo(c, p, |p|);
    if uncovered == [] then p else Paired(c.paths, Joined(c, p, uncovered))
  }

  method IsCovered(p: seq<Step>, byId: map<string, Step>, step: Step) returns (covered: bool)
    requires byId == ById(p)
    ensures covered <==> Covered(p, step)
  {
    for i := 0 to |p|
      invariant forall k :: 0 <= k < i ==> !CoveredBy(p, step, p[k])
    {
      if p[i].phase == UnitTest && IterationOf(p[i]) == IterationOf(step) {
        var depends := StepTransitivelyDependsOn(p[i], step.id, byId);
        if depends {
          assert CoveredBy(p, step, p[i]);
          return true;
        }
      }
    }
    return false;
  }

  method FindUncovered(c: CoverageRules, p: seq<Step>) returns (uncovered: seq<nat>)
    ensures uncovered == UncoveredUpTo(c, p, |p|)
  {
    var byId := ById(p);
    uncovered := [];
    for i := 0 to |p|
      invariant uncovered == UncoveredUpTo(c, p, i)
    {
      if NeedsCover(c, p[i]) {
        var covered := IsCovered(p, byId, p[i]);
        if !covered {
          uncovered := uncovered + [i];
        }
      }
    }
  }

  method CalibratePlanCoverage(c: CoverageRules, steps: seq<Step>) returns (out: seq<Step>)
    ensures out == Repaired(c, steps)
  {
    var p := EnsurePairedTestAssets(c.paths, steps);
    var uncovered := FindUncovered(c, p);
    if uncovered == [] {
      return p;
    }
    var iterations := IterationsAt(p, uncovered);
    var base := MaxNumber(p) + 1;
    var mid, synthetic := AddAllSteps(c, p, uncovered, iterations, base);
    var rewired := RewireSteps(ById(p), IdsAt(p, uncovered), iterations, base, mid);
    out := EnsurePairedTestAssets(c.paths, rewired + synthetic);
  }

  /** The loop over the uncovered iterations. */
  method AddAllSteps(c: CoverageRules, p: seq<Step>, uncovered: seq<nat>, iterations: seq<string>, base: nat)
    returns (mid: seq<Step>, synthetic: seq<Step>)
    requires InRange(uncovered, |p|)
    ensures mid == AddSteps(c, p, uncovered, PairState(p, OutputsOf(p)), iterations, base).st.steps
    ensures synthetic == AddSteps(c, p, uncovered, PairState(p, OutputsOf(p)), iterations, base).steps
  {
    hide AddOne;
    var st := PairState(p, OutputsOf(p));
    ghost var goal := AddSteps(c, p, uncovered, st, iterations, base);
    ghost var rest := goal;
    synthetic := [];
    var left, next := iterations, base;
    while left != []
      invariant |st.steps| == |p| && rest == AddSteps(c, p, uncovered, st, left, next)
      invariant rest.st == goal.st && synthetic + rest.steps == goal.steps
      decreases |left|
    {
      var named, made := AddOneStep(c, p, uncovered, st, left[0], NewId(next));
      rest := AddSteps(c, p, uncovered, named, left[1..], next + 1);
      AppendOne(synthetic, made, rest.steps);
      st, synthetic, left, next := named, synthetic + [made], left[1..], next + 1;
    }
    mid := st.steps;
  }

  method AddOneStep(c: CoverageRules, p: seq<Step>, uncovered: seq<nat>, st: PairState, iteration: string, id: string)
    returns (named: PairState, made: Step)
    requires InRange(uncovered, |p|) && |st.steps| == |p|
    ensures (named, made) == AddOne(c, p, uncovered, st, iteration, id)
  {
    var bucket := Bucket(p, uncovered, iteration);
    named := NameBucket(c.paths, st, bucket);
    made := Synthetic(c, named.steps, bucket, iteration, id);
  }

  lemma {:induction false} AppendOne(a: seq<Step>, s: Step, b: seq<Step>)
    ensures a + ([s] + b) == (a + [s]) + b
  {
  }

  method NameBucket(r: Rules, before: PairState, bucket: seq<nat>) returns (st: PairState)
    requires InRange(bucket, |before.steps|)
    ensures st == NameTests(r, before, bucket)
  {
    st := before;
    var todo := bucket;
    while todo != []
      invariant |st.steps| == |before.steps| && InRange(todo, |st.steps|)
      invariant NameTests(r, st, todo) == NameTests(r, before, bucket)
      decreases |todo|
    {
      var i := todo[0];
      if !HasTest(r, st.steps[i]) {
        var path := UniqueRunnableTestPath(r, st.steps[i].id, UnitTest, st.used);
        st := PairState(st.steps[i := st.steps[i].(outputs := Dedup(st.steps[i].outputs + [path]))], st.used + {path});
      }
      todo := todo[1..];
    }
  }

  method RewireSteps(
    byId: map<string, Step>, uncoveredIds: seq<string>, iterations: seq<string>, base: nat, mid: seq<Step>)
    returns (out: seq<Step>)
    ensures out == RewiredAll(byId, uncoveredIds, iterations, base, mid)
  {
    out := [];
    for i := 0 to |mid|
      invariant |out| == i && forall k :: 0 <= k < i ==> out[k] == Rewired(byId, uncoveredIds, iterations, base, mid[k])
    {
      out := out + [Rewired(byId, uncoveredIds, iterations, base, mid[i])];
    }
  }

  // ---- What the pass adds ---------------------------------------------------------------

  /** Outputs only grow, and what is added is an executable test that was not used. */
  ghost predicate NamedFrom(r: Rules, a: seq<Step>, b: seq<Step>, used: set<string>) {
    |a| == |b| && forall i :: 0 <= i < |a| ==>
      && b[i] == a[i].(outputs := b[i].outputs)
      && (forall o :: o in a[i].outputs ==> o in b[i].outputs)
      && (forall o :: o in b[i].outputs && o !in a[i].outputs ==> r.executable(o) && !r.reserved(o) && o !in used)
  }

  lemma {:induction false} NamedTrans(
    r: Rules, a: seq<Step>, b: seq<Step>, c: seq<Step>, used: set<string>, more: set<string>)
    requires NamedFrom(r, a, b, used) && NamedFrom(r, b, c, more) && used <= more
    ensures NamedFrom(r, a, c, used)
  {
  }

  lemma {:induction false} OneNamed(r: Rules, st: PairState, i: nat, path: string)
    requires i < |st.steps| && r.executable(path) && !r.reserved(path) && path !in st.used
    ensures NamedFrom(r, st.steps, st.steps[i := st.steps[i].(outputs := Dedup(st.steps[i].outputs + [path]))], st.used)
  {
  }

  lemma {:induction false} FreeNameIsTest(r: Rules, id: string, used: set<string>)
    requires NamesFit(r, id)
    ensures r.executable(UniquePath(r, id, UnitTest, used)) && !r.reserved(UniquePath(r, id, UnitTest, used))
  {
    var k := FreeFrom(r, id, UnitTest, used, 1);
    assert r.executable(Candidate(r, id, UnitTest, k));
  }

  lemma {:induction false} NamingKeeps(r: Rules, st: PairState, todo: seq<nat>)
    requires InRange(todo, |st.steps|) && forall k :: 0 <= k < |todo| ==> NamesFit(r, st.steps[todo[k]].id)
    ensures NamedFrom(r, st.steps, NameTests(r, st, todo).steps, st.used) && st.used <= NameTests(r, st, todo).used
    decreases |todo|
  {
    if todo != [] {
      var i := todo[0];
      var s := st.steps[i];
      if HasTest(r, s) {
        NamingKeeps(r, st, todo[1..]);
      } else {
        var path := UniquePath(r, s.id, UnitTest, st.used);
        var next := PairState(st.steps[i := s.(outputs := Dedup(s.outputs + [path]))], st.used + {path});
        FreeNameIsTest(r, s.id, st.used);
        OneNamed(r, st, i, path);
        NamingKeeps(r, next, todo[1..]);
        NamedTrans(r, st.steps, next.steps, NameTests(r, next, todo[1..]).steps, st.used, next.used);
      }
    }
  }

  /** Every listed position is a CODE step. */
  ghost predicate AllCode(p: seq<Step>, uncovered: seq<nat>) {
    InRange(uncovered, |p|) && forall m :: 0 <= m < |uncovered| ==> p[uncovered[m]].phase == Code
  }

  ghost predicate DependsOnAll(p: seq<Step>, uncovered: seq<nat>, iteration: string, s: Step)
    requires InRange(uncovered, |p|)
  {
    forall m :: 0 <= m < |uncovered| && IterationOf(p[uncovered[m]]) == iteration ==> p[uncovered[m]].id in s.dependsOn
  }

  /** A new step: its number, its iteration, and the uncovered steps of that iteration as dependencies. */
  ghost predicate MadeFor(c: CoverageRules, p: seq<Step>, uncovered: seq<nat>, s: Step, iteration: string, n: nat)
    requires InRange(uncovered, |p|)
  {
    && s.id == NewId(n) && s.iterationId == Some(iteration) && s.outputs == [c.unitDoc(iteration)]
    && NewStep(p, s) && DependsOnAll(p, uncovered, iteration, s)
  }

  lemma {:induction false} BucketLists(p: seq<Step>, uncovered: seq<nat>, iteration: string, m: nat)
    requires InRange(uncovered, |p|) && m < |uncovered| && IterationOf(p[uncovered[m]]) == iteration
    ensures exists k :: 0 <= k < |Bucket(p, uncovered, iteration)| && Bucket(p, uncovered, iteration)[k] == uncovered[m]
  {
    var n := |uncovered| - 1;
    var init := Bucket(p, uncovered[..n], iteration);
    if m < n {
      BucketLists(p, uncovered[..n], iteration, m);
      var k :| 0 <= k < |init| && init[k] == uncovered[m];
      assert Bucket(p, uncovered, iteration)[k] == uncovered[m];
    } else {
      assert Bucket(p, uncovered, iteration)[|init|] == uncovered[m];
    }
  }

  lemma {:induction false} SyntheticIsMade(
    c: CoverageRules, p: seq<Step>, uncovered: seq<nat>, mid: seq<Step>, iteration: string, n: nat)
    requires AllCode(p, uncovered) && |mid| == |p| && forall i :: 0 <= i < |p| ==> mid[i].id == p[i].id
    ensures MadeFor(c, p, uncovered, Synthetic(c, mid, Bucket(p, uncovered, iteration), iteration, NewId(n)),
        iteration, n)
  {
    var b := Bucket(p, uncovered, iteration);
    var s := Synthetic(c, mid, b, iteration, NewId(n));
    forall d | d in s.dependsOn
      ensures exists i :: 0 <= i < |p| && p[i].id == d && p[i].phase == Code && IterationOf(p[i]) == IterationOf(s)
    {
      var k :| 0 <= k < |b| && s.dependsOn[k] == d;
      assert b[k] in uncovered && p[b[k]].id == d;
    }
    forall m | 0 <= m < |uncovered| && IterationOf(p[uncovered[m]]) == iteration
      ensures p[uncovered[m]].id in s.dependsOn
    {
      BucketLists(p, uncovered, iteration, m);
      var k :| 0 <= k < |b| && b[k] == uncovered[m];
      assert s.dependsOn[k] == p[uncovered[m]].id;
    }
  }

  ghost predicate AllMade(
    c: CoverageRules, p: seq<Step>, uncovered: seq<nat>, made: seq<Step>, iterations: seq<string>, base: nat)
    requires InRange(uncovered, |p|)
  {
    |made| == |iterations| && forall k :: 0 <= k < |made| ==> MadeFor(c, p, uncovered, made[k], iterations[k], base + k)
  }

  lemma {:induction false} OneMoreMade(
    c: CoverageRules, p: seq<Step>, uncovered: seq<nat>, s: Step, made: seq<Step>, iterations: seq<string>,
    base: nat)
    requires InRange(uncovered, |p|) && iterations != []
    requires MadeFor(c, p, uncovered, s, iterations[0], base)
    requires AllMade(c, p, uncovered, made, iterations[1..], base + 1)
    ensures AllMade(c, p, uncovered, [s] + made, iterations, base)
  {
    var all := [s] + made;
    forall k | 0 <= k < |all| ensures MadeFor(c, p, uncovered, all[k], iterations[k], base + k) {
      if k > 0 { assert MadeFor(c, p, uncovered, made[k - 1], iterations[1..][k - 1], base + 1 + (k - 1)); }
    }
  }

  lemma {:induction false} BucketFits(
    c: CoverageRules, p: seq<Step>, uncovered: seq<nat>, st: PairState, iteration: string)
    requires PlanNamesFit(c.paths, p) && AllCode(p, uncovered) && NamedFrom(c.paths, p, st.steps, {})
    ensures
      var b := Bucket(p, uncovered, iteration);
      forall k :: 0 <= k < |b| ==> NamesFit(c.paths, st.steps[b[k]].id)
  {
    var b := Bucket(p, uncovered, iteration);
    forall k | 0 <= k < |b| ensures NamesFit(c.paths, st.steps[b[k]].id) {
      assert b[k] in uncovered;
      var m :| 0 <= m < |uncovered| && uncovered[m] == b[k];
      assert st.steps[b[k]].id == p[b[k]].id && Develops(p[b[k]].phase);
    }
  }

  lemma {:induction false} AddedFacts(
    c: CoverageRules, p: seq<Step>, uncovered: seq<nat>, st: PairState, iterations: seq<string>, base: nat)
    requires PlanNamesFit(c.paths, p) && AllCode(p, uncovered) && NamedFrom(c.paths, p, st.steps, {})
    ensures
      var a := AddSteps(c, p, uncovered, st, iterations, base);
      NamedFrom(c.paths, st.steps, a.st.steps, st.used) && AllMade(c, p, uncovered, a.steps, iterations, base)
    decreases |iterations|
  {
    hide Bucket;
    if iterations != [] {
      var (named, made) := AddOne(c, p, uncovered, st, iterations[0], NewId(base));
      BucketFits(c, p, uncovered, st, iterations[0]);
      NamingKeeps(c.paths, st, Bucket(p, uncovered, iterations[0]));
      NamedTrans(c.paths, p, st.steps, named.steps, {}, st.used);
      SyntheticIsMade(c, p, uncovered, named.steps, iterations[0], base);
      AddedFacts(c, p, uncovered, named, iterations[1..], base + 1);
      var rest := AddSteps(c, p, uncovered, named, iterations[1..], base + 1);
      NamedTrans(c.paths, st.steps, named.steps, rest.st.steps, st.used, named.used);
      OneMoreMade(c, p, uncovered, made, rest.steps, iterations, base);
    }
  }

  /** A kept step, with possibly the new step of its iteration as an added dependency. */
  ghost predicate KeptOrLinked(before: Step, after: Step, iterations: seq<string>, base: nat) {
    Keeps(before, after) && forall d :: d in after.dependsOn && d !in before.dependsOn ==>
      PhaseOrder(after.phase) > PhaseOrder(UnitTest) &&
      exists k: nat :: k < |iterations| && d == NewId(base + k) && iterations[k] == IterationOf(after)
  }

  lemma {:induction false} RewiredIsLinked(
    byId: map<string, Step>, ids: seq<string>, iterations: seq<string>, base: nat, s: Step)
    ensures KeptOrLinked(s, Rewired(byId, ids, iterations, base, s), iterations, base)
  {
    var k := IndexOf(iterations, IterationOf(s));
    var after := Rewired(byId, ids, iterations, base, s);
    forall d | d in after.dependsOn && d !in s.dependsOn
      ensures PhaseOrder(after.phase) > PhaseOrder(UnitTest)
      ensures exists k: nat :: k < |iterations| && d == NewId(base + k) && iterations[k] == IterationOf(after)
    {
      assert d == NewId(base + k);
    }
  }

  /** The joined plan: the old steps kept or linked, then the new ones. */
  ghost predicate JoinedFrom(
    c: CoverageRules, p: seq<Step>, uncovered: seq<nat>, out: seq<Step>, iterations: seq<string>, base: nat)
    requires InRange(uncovered, |p|)
  {
    && |out| == |p| + |iterations|
    && (forall i :: 0 <= i < |p| ==> KeptOrLinked(p[i], out[i], iterations, base))
    && AllMade(c, p, uncovered, out[|p|..], iterations, base)
  }

  /** Outputs of the joined plan's old steps: their own, and new executable tests. */
  ghost predicate OnlyTestsAdded(r: Rules, p: seq<Step>, out: seq<Step>) {
    |p| <= |out| && forall i :: 0 <= i < |p| ==>
      && out[i].inputs == p[i].inputs
      && (forall o :: o in p[i].outputs ==> o in out[i].outputs)
      && (forall o :: o in out[i].outputs && o !in p[i].outputs ==>
            r.executable(o) && !r.reserved(o) && o !in OutputsOf(p))
  }

  lemma {:induction false} RewiredSameLists(
    byId: map<string, Step>, ids: seq<string>, iterations: seq<string>, base: nat, s: Step)
    ensures Rewired(byId, ids, iterations, base, s).inputs == s.inputs
    ensures Rewired(byId, ids, iterations, base, s).outputs == s.outputs
  {
  }

  lemma {:induction false} JoinedParts(c: CoverageRules, p: seq<Step>, uncovered: seq<nat>)
    requires PlanNamesFit(c.paths, p) && AllCode(p, uncovered)
    ensures JoinedFrom(c, p, uncovered, Joined(c, p, uncovered), IterationsAt(p, uncovered), MaxNumber(p) + 1)
    ensures OnlyTestsAdded(c.paths, p, Joined(c, p, uncovered))
  {
    var iterations, base := IterationsAt(p, uncovered), MaxNumber(p) + 1;
    var st := PairState(p, OutputsOf(p));
    AddedFacts(c, p, uncovered, st, iterations, base);
    var a := AddSteps(c, p, uncovered, st, iterations, base);
    var kept := RewiredAll(ById(p), IdsAt(p, uncovered), iterations, base, a.st.steps);
    var out := Joined(c, p, uncovered);
    assert out == kept + a.steps && out[|p|..] == a.steps;
    forall i | 0 <= i < |p|
      ensures KeptOrLinked(p[i], out[i], iterations, base) && out[i].inputs == p[i].inputs
      ensures out[i].outputs == a.st.steps[i].outputs
    {
      RewiredIsLinked(ById(p), IdsAt(p, uncovered), iterations, base, a.st.steps[i]);
      RewiredSameLists(ById(p), IdsAt(p, uncovered), iterations, base, a.st.steps[i]);
      assert a.st.steps[i] == p[i].(outputs := a.st.steps[i].outputs);
    }
  }

  lemma {:induction false} JoinedUnique(
    c: CoverageRules, p: seq<Step>, uncovered: seq<nat>, out: seq<Step>, iterations: seq<string>)
    requires InRange(uncovered, |p|) && UniqueIds(p) && JoinedFrom(c, p, uncovered, out, iterations, MaxNumber(p) + 1)
    ensures UniqueIds(out)
  {
    var base, made := MaxNumber(p) + 1, out[|p|..];
    forall i | 0 <= i < |p| ensures out[i].id == p[i].id { assert KeptOrLinked(p[i], out[i], iterations, base); }
    forall j | |p| <= j < |out| ensures out[j].id == NewId(base + (j - |p|)) {
      assert MadeFor(c, p, uncovered, made[j - |p|], iterations[j - |p|], base + (j - |p|));
    }
    NumberedUnique(p, out, base);
  }

  lemma {:induction false} NumberedUnique(p: seq<Step>, out: seq<Step>, base: nat)
    requires UniqueIds(p) && |p| <= |out| && base == MaxNumber(p) + 1
    requires forall i :: 0 <= i < |p| ==> out[i].id == p[i].id
    requires forall j :: |p| <= j < |out| ==> out[j].id == NewId(base + (j - |p|))
    ensures UniqueIds(out)
  {
    forall i, j | 0 <= i < j < |out| ensures out[i].id != out[j].id {
      if i >= |p| {
        NewIdsDiffer(base + (i - |p|), base + (j - |p|));
      } else if j >= |p| {
        NewIdIsFresh(p, j - |p|);
        assert p[i].id in Ids(p);
      }
    }
  }

  lemma {:induction false} JoinedExtends(
    c: CoverageRules, p: seq<Step>, uncovered: seq<nat>, out: seq<Step>, iterations: seq<string>)
    requires InRange(uncovered, |p|) && UniqueIds(p) && JoinedFrom(c, p, uncovered, out, iterations, MaxNumber(p) + 1)
    ensures Extends(p, out)
  {
    var base, made := MaxNumber(p) + 1, out[|p|..];
    JoinedUnique(c, p, uncovered, out, iterations);
    forall j | |p| <= j < |out| ensures NewStep(p, out[j]) {
      assert MadeFor(c, p, uncovered, made[j - |p|], iterations[j - |p|], base + (j - |p|));
    }
    forall i | 0 <= i < |p|
      ensures Keeps(p[i], out[i])
      ensures forall d :: d in out[i].dependsOn && d !in p[i].dependsOn ==> NewLink(out[i], d, |p|, out)
    {
      assert KeptOrLinked(p[i], out[i], iterations, base);
      forall d | d in out[i].dependsOn && d !in p[i].dependsOn ensures NewLink(out[i], d, |p|, out) {
        var k: nat :| k < |iterations| && d == NewId(base + k) && iterations[k] == IterationOf(out[i]);
        assert MadeFor(c, p, uncovered, made[k], iterations[k], base + k) && made[k] == out[|p| + k];
      }
    }
  }

  /** An uncovered step is a dependency of the new step of its iteration. */
  lemma {:induction false} JoinedCovers(
    c: CoverageRules, p: seq<Step>, uncovered: seq<nat>, out: seq<Step>, iterations: seq<string>, base: nat, m: nat)
    requires InRange(uncovered, |p|) && JoinedFrom(c, p, uncovered, out, iterations, base) && m < |uncovered|
    requires IterationOf(p[uncovered[m]]) in iterations
    ensures Covered(out, p[uncovered[m]])
  {
    var made := out[|p|..];
    var k :| 0 <= k < |iterations| && iterations[k] == IterationOf(p[uncovered[m]]);
    assert MadeFor(c, p, uncovered, made[k], iterations[k], base + k);
    assert made[k] == out[|p| + k];
    DirectCoverage(out, |p| + k, p[uncovered[m]]);
  }

  /** Coverage depends on ids, iterations, phases and dependencies only. */
  lemma {:induction false} CoveredAlike(a: seq<Step>, b: seq<Step>, c: Step, d: Step)
    requires UniqueIds(a) && SameIdentity(a, b) && c.id == d.id && IterationOf(c) == IterationOf(d)
    ensures Covered(a, c) ==> Covered(b, d)
  {
    if Covered(a, c) {
      IdentityExtends(a, b);
      CoverageStays(a, b, c, d);
    }
  }

  lemma {:induction false} IdentityExtends(a: seq<Step>, b: seq<Step>)
    requires UniqueIds(a) && SameIdentity(a, b)
    ensures Extends(a, b) && UniqueIds(b)
  {
    assert forall i :: 0 <= i < |a| ==> b[i].id == a[i].id && b[i].dependsOn == a[i].dependsOn;
  }

  // ---- Outputs other than tests ---------------------------------------------------------

  /** The pairing pass moves executable tests only. */
  ghost predicate SamePlainOutputs(r: Rules, a: seq<Step>, b: seq<Step>) {
    |a| == |b| && forall i, o :: 0 <= i < |a| && !r.executable(o) ==> (o in b[i].outputs <==> o in a[i].outputs)
  }

  lemma {:induction false} PairKeepsPlain(r: Rules, st: PairState, g: PairGroup)
    requires PlanNamesFit(r, st.steps) && WellFormed(g)
    ensures SamePlainOutputs(r, st.steps, PairPhase(r, st, g.iteration, g.source, g.test).steps)
  {
    GroupsApart(g, g);
    PairUnfolds(r, st, g.iteration, g.source, g.test);
    if Present(st.steps, g.iteration, g.source) {
      var (a, generated) := PairAssets(r, st, g.iteration, g.source, g.test);
      AssetsAreTests(r, st.steps, g, a, generated);
      PlainThroughPair(r, st.steps, PairPhase(r, st, g.iteration, g.source, g.test).steps, FirstOf(st.steps,
          g.iteration, g.source), g, a);
    }
  }

  lemma {:induction false} AssetsAreTests(
    r: Rules, steps: seq<Step>, g: PairGroup, a: Assets, generated: Option<string>)
    requires AssetsFit(r, steps, g.iteration, g.source, g.test, a, generated)
    ensures forall x :: x in a.toOwner ==> r.executable(x)
  {
    forall x | x in a.toOwner ensures r.executable(x) { assert x in a.all; }
  }

  lemma {:induction false} PlainThroughPair(
    r: Rules, before: seq<Step>, after: seq<Step>, owner: nat, g: PairGroup, a: Assets)
    requires PairedWith(r, before, after, owner, g.iteration, g.test, a)
    requires forall x :: x in a.toOwner ==> r.executable(x)
    ensures SamePlainOutputs(r, before, after)
  {
  }

  lemma {:induction false} AllKeepPlain(r: Rules, st: PairState, groups: seq<PairGroup>)
    requires PlanNamesFit(r, st.steps) && forall g :: g in groups ==> WellFormed(g)
    ensures SamePlainOutputs(r, st.steps, PairAll(r, st, groups).steps)
    decreases |groups|
  {
    if groups != [] {
      assert WellFormed(groups[0]);
      PairKeepsIdentity(r, st, groups[0]);
      NamesStayFit(r, st.steps, PairPhase(r, st, groups[0].iteration, groups[0].source, groups[0].test).steps);
      var next := PairPhase(r, st, groups[0].iteration, groups[0].source, groups[0].test);
      PairKeepsPlain(r, st, groups[0]);
      AllKeepPlain(r, next, groups[1..]);
    }
  }

  /** No other output is added, moved or dropped, except reserved ones, which are dropped everywhere. */
  lemma {:induction false} PairedKeepsPlain(r: Rules, steps: seq<Step>, i: nat, o: string)
    requires PlanNamesFit(r, steps) && i < |steps| && !r.executable(o)
    ensures o in Paired(r, steps)[i].outputs <==> o in steps[i].outputs && !r.reserved(o)
  {
    NamesStayFit(r, steps, Cleaned(r, steps));
    GroupsWellFormed(IterationIds(Cleaned(r, steps)));
    AllKeepPlain(r, Start(r, steps), Groups(IterationIds(Cleaned(r, steps))));
    assert Cleaned(r, steps)[i] == CleanedStep(r, steps[i]);
  }

  // ---- The main results -----------------------------------------------------------------

  /** Test paths never lie under `src/`, and the plan's development steps have ids that make test names. */
  ghost predicate RulesHold(c: CoverageRules, steps: seq<Step>) {
    PlanNamesFit(c.paths, steps) &&
    forall o :: c.paths.executable(o) || c.paths.reserved(o) ==> !StartsWith(o, "src/")
  }

  lemma {:induction false} UncoveredListed(c: CoverageRules, p: seq<Step>, n: nat, i: nat)
    requires n <= |p| && i < n && Uncovered(c, p, i)
    ensures exists m :: 0 <= m < |UncoveredUpTo(c, p, n)| && UncoveredUpTo(c, p, n)[m] == i
  {
    var before, u := UncoveredUpTo(c, p, n - 1), UncoveredUpTo(c, p, n);
    if i == n - 1 {
      assert u[|before|] == i;
    } else {
      UncoveredListed(c, p, n - 1, i);
      var m :| 0 <= m < |before| && before[m] == i;
      assert u[m] == i;
    }
  }

  lemma {:induction false} SameImplementation(c: CoverageRules, s: Step, t: Step)
    requires s.phase == t.phase && forall o :: Implements(c, o) ==> (o in s.outputs <==> o in t.outputs)
    ensures NeedsCover(c, s) <==> NeedsCover(c, t)
  {
  }

  lemma {:induction false} NeedsCoverStays(c: CoverageRules, p: seq<Step>, joined: seq<Step>, i: nat)
    requires RulesHold(c, joined) && Clean(c.paths, p) && OnlyTestsAdded(c.paths, p, joined) && i < |p|
    requires joined[i].phase == p[i].phase
    ensures NeedsCover(c, Paired(c.paths, joined)[i]) <==> NeedsCover(c, p[i])
  {
    var out := Paired(c.paths, joined);
    PairedIsSettled(c.paths, joined);
    assert CleanStep(c.paths, p[i]);
    forall o | Implements(c, o) ensures o in p[i].outputs <==> o in out[i].outputs {
      PairedKeepsPlain(c.paths, joined, i, o);
    }
    assert out[i].phase == joined[i].phase;
    SameImplementation(c, p[i], out[i]);
  }

  ghost predicate AllCovered(c: CoverageRules, steps: seq<Step>) {
    forall i :: 0 <= i < |steps| && NeedsCover(c, steps[i]) ==> Covered(steps, steps[i])
  }

  /** A plan without uncovered steps is covered. */
  lemma {:induction false} NoneUncovered(c: CoverageRules, p: seq<Step>)
    ensures UncoveredUpTo(c, p, |p|) == [] <==> AllCovered(c, p)
  {
    var u := UncoveredUpTo(c, p, |p|);
    if u == [] {
      forall i | 0 <= i < |p| && NeedsCover(c, p[i]) ensures Covered(p, p[i]) {
        if !Covered(p, p[i]) { UncoveredListed(c, p, |p|, i); }
      }
    } else {
      assert Uncovered(c, p, u[0]);
    }
  }

  lemma {:induction false} UncoveredIsCode(c: CoverageRules, p: seq<Step>)
    ensures AllCode(p, UncoveredUpTo(c, p, |p|))
  {
    var u := UncoveredUpTo(c, p, |p|);
    forall m | 0 <= m < |u| ensures p[u[m]].phase == Code { assert Uncovered(c, p, u[m]); }
  }

  lemma {:induction false} JoinedUncovered(c: CoverageRules, p: seq<Step>, u: seq<nat>, joined: seq<Step>)
    requires RulesHold(c, p) && UniqueIds(p) && u == UncoveredUpTo(c, p, |p|) && joined == Joined(c, p, u)
    ensures RulesHold(c, joined)
    ensures JoinedFrom(c, p, u, joined, IterationsAt(p, u), MaxNumber(p) + 1)
    ensures Extends(p, joined) && OnlyTestsAdded(c.paths, p, joined)
  {
    UncoveredIsCode(c, p);
    JoinedParts(c, p, u);
    JoinedExtends(c, p, u, joined, IterationsAt(p, u));
    ExtendedFits(c.paths, p, joined);
  }

  /** New steps verify, so the extended plan fits if the old one does. */
  lemma {:induction false} ExtendedFits(r: Rules, p: seq<Step>, out: seq<Step>)
    requires PlanNamesFit(r, p) && Extends(p, out)
    ensures PlanNamesFit(r, out)
  {
    forall i | 0 <= i < |out| && Develops(out[i].phase) ensures NamesFit(r, out[i].id) {
      assert i < |p| || NewStep(p, out[i]);
      assert Keeps(p[i], out[i]);
    }
  }

  lemma {:induction false} JoinedCoversAll(c: CoverageRules, p: seq<Step>, joined: seq<Step>)
    requires RulesHold(c, p) && Clean(c.paths, p) && UniqueIds(p)
    requires joined == Joined(c, p, UncoveredUpTo(c, p, |p|))
    ensures Extends(p, joined) && AllCovered(c, Paired(c.paths, joined))
  {
    var u := UncoveredUpTo(c, p, |p|);
    var its := IterationsAt(p, u);
    JoinedUncovered(c, p, u, joined);
    var out := Paired(c.paths, joined);
    PairedIsSettled(c.paths, joined);
    forall i | 0 <= i < |out| && NeedsCover(c, out[i]) ensures Covered(out, out[i]) {
      StepCovered(c, p, joined, u, its, i);
    }
  }

  lemma {:induction false} StepCovered(
    c: CoverageRules, p: seq<Step>, joined: seq<Step>, u: seq<nat>, its: seq<string>, i: nat)
    requires RulesHold(c, joined) && Clean(c.paths, p) && u == UncoveredUpTo(c, p, |p|) && its == IterationsAt(p, u)
    requires JoinedFrom(c, p, u, joined, its, MaxNumber(p) + 1) && Extends(p, joined)
    requires OnlyTestsAdded(c.paths, p, joined)
    requires i < |joined| && SameIdentity(joined, Paired(c.paths, joined)) && NeedsCover(c, Paired(c.paths, joined)[i])
    ensures Covered(Paired(c.paths, joined), Paired(c.paths, joined)[i])
  {
    var out := Paired(c.paths, joined);
    assert out[i].phase == joined[i].phase;
    assert i < |p| || NewStep(p, joined[i]);
    assert i < |p| && Keeps(p[i], joined[i]);
    NeedsCoverStays(c, p, joined, i);
    assert Covered(joined, p[i]) by {
      if Covered(p, p[i]) {
        CoverageStays(p, joined, p[i], p[i]);
      } else {
        UncoveredListed(c, p, |p|, i);
        var m :| 0 <= m < |u| && u[m] == i;
        JoinedCovers(c, p, u, joined, its, MaxNumber(p) + 1, m);
      }
    }
    CoveredAlike(joined, out, p[i], out[i]);
  }

  /** Extending in two stages is extending. */
  lemma {:induction false} ExtendsThroughIdentity(a: seq<Step>, p: seq<Step>, joined: seq<Step>, out: seq<Step>)
    requires SameIdentity(a, p) && Extends(p, joined) && SameIdentity(joined, out)
    ensures Extends(a, out)
  {
    forall i | 0 <= i < |a|
      ensures Keeps(a[i], out[i])
      ensures forall d :: d in out[i].dependsOn && d !in a[i].dependsOn ==> NewLink(out[i], d, |a|, out)
    {
      assert Keeps(p[i], joined[i]);
      forall d | d in out[i].dependsOn && d !in a[i].dependsOn ensures NewLink(out[i], d, |a|, out) {
        assert NewLink(joined[i], d, |p|, joined);
        var j :| |p| <= j < |joined| && joined[j].id == d && IterationOf(joined[j]) == IterationOf(joined[i]);
        assert out[j].id == d;
      }
    }
    forall j | |a| <= j < |out| ensures NewStep(a, out[j]) {
      assert NewStep(p, joined[j]);
      forall d | d in out[j].dependsOn
        ensures exists i :: 0 <= i < |a| && a[i].id == d && a[i].phase == Code &&
                            IterationOf(a[i]) == IterationOf(out[j])
      {
        var i :| 0 <= i < |p| && p[i].id == d && p[i].phase == Code && IterationOf(p[i]) == IterationOf(joined[j]);
        assert a[i].id == d;
      }
    }
    forall i, j | 0 <= i < j < |out| ensures out[i].id != out[j].id { assert joined[i].id != joined[j].id; }
  }

  /**
   * The repaired plan keeps the old steps and adds unit test steps only, covers every CODE step that is
   * not init-only, and pairs every source phase with its tests.
   */
  lemma {:induction false} RepairEstablishes(c: CoverageRules, steps: seq<Step>)
    requires RulesHold(c, steps) && UniqueIds(steps)
    ensures Extends(steps, Repaired(c, steps)) && AllCovered(c, Repaired(c, steps))
    ensures Settled(c.paths, Repaired(c, steps))
  {
    var p := Paired(c.paths, steps);
    PairedIsSettled(c.paths, steps);
    IdentityExtends(steps, p);
    NamesStayFit(c.paths, steps, p);
    NoneUncovered(c, p);
    if UncoveredUpTo(c, p, |p|) != [] {
      var joined := Joined(c, p, UncoveredUpTo(c, p, |p|));
      JoinedUncovered(c, p, UncoveredUpTo(c, p, |p|), joined);
      JoinedCoversAll(c, p, joined);
      PairedIsSettled(c.paths, joined);
      ExtendsThroughIdentity(steps, p, joined, Repaired(c, steps));
    }
  }

  /**
   * Applying the repair to a plan it has repaired changes nothing; the plans it leaves alone are the settled, covered
   * ones.
   */
  lemma {:induction false} RepairFixedPoints(c: CoverageRules, steps: seq<Step>)
    requires RulesHold(c, steps) && UniqueIds(steps)
    ensures Repaired(c, steps) == steps <==> Settled(c.paths, steps) && AllCovered(c, steps)
    ensures Repaired(c, Repaired(c, steps)) == Repaired(c, steps)
  {
    RepairEstablishes(c, steps);
    ExtendedFits(c.paths, steps, Repaired(c, steps));
    CoveredStays(c, Repaired(c, steps));
    if Settled(c.paths, steps) && AllCovered(c, steps) { CoveredStays(c, steps); }
  }

  lemma {:induction false} CoveredStays(c: CoverageRules, steps: seq<Step>)
    requires RulesHold(c, steps) && Settled(c.paths, steps) && AllCovered(c, steps)
    ensures Repaired(c, steps) == steps
  {
    SettledIsFixed(c.paths, steps);
    NoneUncovered(c, steps);
  }
}
