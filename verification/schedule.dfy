/** What acceptance by the lint means for a run of the plan in scheduled order. */
module ScheduledRun {
  import opened Basics
  import opened Plans
  import opened DependencyGraph
  import opened TopoSort
  import opened PlanLint
  import TestPairing

  /** Iterations `P0` to `P999` run by number; any other iteration runs after them. */
  lemma {:induction false} IterationsByNumber(n: nat, id: string)
    requires n < 1000
    ensures IterationSortValue("P" + TestPairing.Decimal(n)) == n
    ensures IterationSortValue(id) < 1000 || IterationSortValue(id) == MAX_SAFE_INTEGER
  {
    var digits := TestPairing.Decimal(n);
    TestPairing.DecimalReadsBack(n);
    ShortDecimal(n, 3);
    assert ("P" + digits)[1..] == digits;
    if 2 <= |id| <= 4 && AllDigits(id[1..]) { ShortNumber(id[1..]); }
  }

  lemma {:induction false} ShortDecimal(n: nat, k: nat)
    requires 1 <= k <= 3 && n < (if k == 1 then 10 else if k == 2 then 100 else 1000)
    ensures |TestPairing.Decimal(n)| <= k
  {
    if n >= 10 { ShortDecimal(n / 10, k - 1); }
  }

  lemma {:induction false} ShortNumber(s: string)
    requires AllDigits(s) && |s| <= 3
    ensures DecimalValue(s) < (if |s| == 0 then 1 else if |s| == 1 then 10 else if |s| == 2 then 100 else 1000)
  {
    if s != [] {
      assert AllDigits(s[..|s| - 1]);
      ShortNumber(s[..|s| - 1]);
      assert IsDigit(s[|s| - 1]);
    }
  }

  /** The order the scheduler returns for this plan. */
  ghost predicate Scheduled(plan: Plan, rank: string -> int, out: seq<Step>) {
    StrictOrder(rank) && TopologicalOrder(plan.steps, out) && LeastFirst(plan.steps, rank, out)
  }

  /** An accepted plan never makes the scheduler throw. */
  lemma {:induction false} AcceptedIsSchedulable(plan: Plan, executable: string -> bool)
    requires Accepts(plan, executable)
    ensures Schedulable(plan.steps)
  {
    assert DepGraph(plan) == GraphOf(ById(plan.steps));
  }

  lemma {:induction false} OnlyCurrent(plan: Plan, s: Step)
    requires IterationsCurrent(plan) && SingleCurrent(plan) && s in plan.steps
    ensures IterationOf(s) == plan.phaseId
  {
    var current := CurrentPhases(plan.phases);
    assert current[0] in current;
    var id := IterationOf(s);
    assert id in CurrentIds(plan.phases);
    var p :| p in plan.phases && p.status == Current && p.id == id;
    assert p in current && p == current[0];
  }

  /** An accepted plan holds one iteration only. */
  lemma {:induction false} SingleIteration(plan: Plan, executable: string -> bool, s: Step)
    requires Accepts(plan, executable) && s in plan.steps
    ensures IterationOf(s) == plan.phaseId
  {
    OnlyCurrent(plan, s);
  }

  lemma {:induction false} OwnerOutputs(steps: seq<Step>, output: string)
    ensures FirstOwner(steps, output) == None <==> forall s :: s in steps ==> output !in s.outputs
    ensures FirstOwner(steps, output).Some? ==>
      exists s :: s in steps && s.id == FirstOwner(steps, output).value && output in s.outputs
  {
    if steps != [] {
      var n := |steps| - 1;
      assert steps == steps[..n] + [steps[n]];
      OwnerOutputs(steps[..n], output);
    }
  }

  /** In an accepted plan an output is listed by one step, once. */
  lemma {:induction false} OutputListedOnce(plan: Plan, executable: string -> bool, i: nat, a: nat, j: nat, b: nat)
    requires Accepts(plan, executable) && i < |plan.steps| && j < |plan.steps|
    requires a < |plan.steps[i].outputs| && b < |plan.steps[j].outputs|
    requires plan.steps[i].outputs[a] == plan.steps[j].outputs[b]
    ensures i == j && a == b
  {
    if i > j || (i == j && a > b) {
      EarlierListingRejected(plan, executable, j, b, i, a);
    } else if i < j || a < b {
      EarlierListingRejected(plan, executable, i, a, j, b);
    }
  }

  lemma {:induction false} EarlierListingRejected(
    plan: Plan, executable: string -> bool, i: nat, a: nat, j: nat, b: nat)
    requires Accepts(plan, executable) && j < |plan.steps| && b < |plan.steps[j].outputs|
    requires i < j || (i == j && a < b)
    requires a < |plan.steps[i].outputs|
    ensures plan.steps[i].outputs[a] != plan.steps[j].outputs[b]
  {
    var o := plan.steps[j].outputs[b];
    var read := ReadSoFar(plan.steps, j, b);
    assert OutputAccepted(plan, j, b);
    assert FirstOwner(read, o) == None by {
      if FirstOwner(read, o).Some? {
        var byId := ById(plan.steps);
        var owner := FirstOwner(read, o).value;
        SingleIteration(plan, executable, byId[owner]);
        SingleIteration(plan, executable, plan.steps[j]);
      }
    }
    OwnerOutputs(read, o);
    assert read[i] in read;
    if i == j { assert read[i].outputs[a] == plan.steps[i].outputs[a]; }
  }

  /** Everything a step reaches through `dependsOn` has run before it. */
  lemma {:induction false} UpstreamRunsEarlier(plan: Plan, rank: string -> int, out: seq<Step>, i: nat, x: string)
    requires UniqueIds(plan.steps) && Scheduled(plan, rank, out) && i < |out|
    requires DependsOn(plan, out[i], x)
    ensures x in Ids(out[..i])
  {
    var g := DepGraph(plan);
    var before := Ids(out[..i]);
    forall n, y | n in before && Edge(g, n, y) ensures y in before {
      var k :| 0 <= k < i && out[..i][k].id == n;
      EmittedEntry(plan.steps, out, k);
      assert y in Ids(out[..k]);
      var m :| 0 <= m < k && out[..k][m].id == y;
      assert out[..i][m].id == y;
    }
    var r :| r in out[i].dependsOn && Reaches(g, r, x);
    var p :| IsPath(g, p) && p[0] == r && p[|p| - 1] == x;
    ClosedKeepsPath(g, before, p, |p| - 1);
  }

  lemma {:induction false} EmittedEntry(steps: seq<Step>, out: seq<Step>, k: nat)
    requires UniqueIds(steps) && multiset(out) == multiset(steps) && k < |out|
    ensures out[k].id in ById(steps) && ById(steps)[out[k].id] == out[k]
  {
    InPlan(steps, out);
    assert out[k] in steps;
    var i :| 0 <= i < |steps| && steps[i] == out[k];
    ByIdUnique(steps, i);
  }

  /** The step at position `j` of the run is the only one that lists `file` as an output. */
  ghost predicate SoleProducer(out: seq<Step>, j: nat, file: string)
    requires j < |out|
  {
    file in out[j].outputs && forall k :: 0 <= k < |out| && file in out[k].outputs ==> k == j
  }

  lemma {:induction false} ProducerIsSole(
    plan: Plan, executable: string -> bool, rank: string -> int, out: seq<Step>, j: nat, file: string)
    requires Accepts(plan, executable) && Scheduled(plan, rank, out) && j < |out| && file in out[j].outputs
    ensures SoleProducer(out, j, file)
  {
    InPlan(plan.steps, out);
    UniqueOutput(plan.steps, out);
    forall k | 0 <= k < |out| && file in out[k].outputs ensures k == j {
      assert out[k] in plan.steps && out[j] in plan.steps;
      var ik :| 0 <= ik < |plan.steps| && plan.steps[ik] == out[k];
      var ij :| 0 <= ij < |plan.steps| && plan.steps[ij] == out[j];
      var a :| 0 <= a < |out[k].outputs| && out[k].outputs[a] == file;
      var b :| 0 <= b < |out[j].outputs| && out[j].outputs[b] == file;
      OutputListedOnce(plan, executable, ik, a, ij, b);
      assert out[k].id == out[j].id;
      DistinctIds(out, k, j);
    }
  }

  lemma {:induction false} DistinctIds(out: seq<Step>, k: nat, j: nat)
    requires UniqueIds(out) && k < |out| && j < |out| && out[k].id == out[j].id
    ensures k == j
  {
  }

  /**
   * Dataflow soundness. Run in scheduled order, an accepted plan hands every step each of its
   * inputs ready-made: the build-owned topic, or a file whose only producer ran strictly earlier.
   * Only an incremental plan may also read a file no step produces (its accepted baseline).
   */
  lemma {:induction false} InputsReady(
    plan: Plan, executable: string -> bool, rank: string -> int, out: seq<Step>, i: nat, input: string)
    requires Accepts(plan, executable) && Scheduled(plan, rank, out)
    requires i < |out| && input in out[i].inputs && input != Topic()
    ensures (exists j :: 0 <= j < i && SoleProducer(out, j, input)) ||
      (plan.intent != Greenfield && forall k :: 0 <= k < |out| ==> input !in out[k].outputs)
  {
    InPlan(plan.steps, out);
    OwnerOutputs(plan.steps, input);
    assert out[i] in plan.steps && InputAccepted(plan, out[i], input);
    if FirstOwner(plan.steps, input).Some? {
      var j := OwnerRunsEarlier(plan, executable, rank, out, i, input);
      ProducerIsSole(plan, executable, rank, out, j, input);
    }
  }

  lemma {:induction false} OwnerStepOutputs(steps: seq<Step>, input: string, owner: string)
    requires UniqueIds(steps) && FirstOwner(steps, input) == Some(owner)
    ensures owner in ById(steps) && input in ById(steps)[owner].outputs
  {
    OwnerOutputs(steps, input);
    var s :| s in steps && s.id == owner && input in s.outputs;
    var n :| 0 <= n < |steps| && steps[n] == s;
    ByIdUnique(steps, n);
  }

  lemma {:induction false} OwnerRunsEarlier(
    plan: Plan, executable: string -> bool, rank: string -> int, out: seq<Step>, i: nat, input: string)
    returns (j: nat)
    requires Accepts(plan, executable) && Scheduled(plan, rank, out) && i < |out|
    requires FirstOwner(plan.steps, input).Some? && DependsOn(plan, out[i], FirstOwner(plan.steps, input).value)
    ensures j < i && input in out[j].outputs
  {
    var owner := FirstOwner(plan.steps, input).value;
    UpstreamRunsEarlier(plan, rank, out, i, owner);
    j :| 0 <= j < i && out[..i][j].id == owner;
    OwnerStepOutputs(plan.steps, input, owner);
    EmittedEntry(plan.steps, out, j);
  }

  /** V-model order: the run goes through the phases from left to right, never back. */
  lemma {:induction false} PhasesRunInOrder(
    plan: Plan, executable: string -> bool, rank: string -> int, out: seq<Step>, i: nat, j: nat)
    requires Accepts(plan, executable) && Scheduled(plan, rank, out) && i <= j < |out|
    ensures PhaseOrder(out[i].phase) <= PhaseOrder(out[j].phase)
  {
    hide Accepts, LeastFirst, TopologicalOrder, PhaseOrder;
    AcceptedIsSchedulable(plan, executable);
    forall s, t | s in plan.steps && t in plan.steps ensures IterationOf(s) == IterationOf(t) {
      SingleIteration(plan, executable, s);
      SingleIteration(plan, executable, t);
    }
    forall s, d | s in plan.steps && d in plan.steps && d.id in s.dependsOn
      ensures PhaseOrder(d.phase) <= PhaseOrder(s.phase)
    {
      EdgeGoesBack(plan, executable, s, d);
    }
    PhasesAreSorted(plan.steps, rank, out, i, j);
  }

  lemma {:induction false} EdgeGoesBack(plan: Plan, executable: string -> bool, s: Step, d: Step)
    requires Accepts(plan, executable) && s in plan.steps && d in plan.steps && d.id in s.dependsOn
    requires IterationOf(s) == IterationOf(d)
    ensures PhaseOrder(d.phase) <= PhaseOrder(s.phase)
  {
    assert EdgeAccepted(plan, s, d.id);
    var n :| 0 <= n < |plan.steps| && plan.steps[n] == d;
    ByIdUnique(plan.steps, n);
  }

  /** `t` takes every executable test a step of that phase outputs. */
  ghost predicate ConsumesTestsOf(out: seq<Step>, phase: Phase, t: Step, executable: string -> bool) {
    forall k, o :: 0 <= k < |out| && out[k].phase == phase && o in out[k].outputs && executable(o) ==> o in t.inputs
  }

  /** The paired verification step acceptance promises. */
  lemma {:induction false} PairedTest(plan: Plan, executable: string -> bool, s: Step, pair: nat) returns (t: Step)
    requires Accepts(plan, executable) && s in plan.steps && pair < |VModelPairs()| && s.phase == VModelPairs()[pair].0
    ensures t in plan.steps && t.phase == VModelPairs()[pair].1 && DependsOn(plan, t, s.id)
    ensures forall q, o :: q in plan.steps && q.phase == s.phase && o in q.outputs && executable(o) ==> o in t.inputs
  {
    SingleIteration(plan, executable, s);
    var it := plan.phaseId;
    assert PairsAcceptedIn(plan, executable, CurrentPhases(plan.phases)[0].id, |VModelPairs()|);
    assert PairAccepted(plan, executable, it, VModelPairs()[pair].0, VModelPairs()[pair].1);
    var sources, tests := StepsOf(plan.steps, VModelPairs()[pair].0, it), StepsOf(plan.steps, VModelPairs()[pair].1,
        it);
    var assets := TestAssets(sources, executable);
    assert s in sources;
    var n :| 0 <= n < |sources| && sources[n] == s;
    assert SourceAccepted(plan, executable, sources[n], tests, assets);
    t :| t in tests && DependsOn(plan, t, s.id);
    assert ConsumesOnly(t, assets, executable);
    forall q, o | q in plan.steps && q.phase == s.phase && o in q.outputs && executable(o) ensures o in t.inputs {
      SingleIteration(plan, executable, q);
      assert q in sources && o in assets;
    }
  }

  /** Each verification step runs after every left-side step it is paired with. */
  lemma {:induction false} EverySourceIsVerifiedLater(
    plan: Plan, executable: string -> bool, rank: string -> int, out: seq<Step>, i: nat, pair: nat)
    requires Accepts(plan, executable) && Scheduled(plan, rank, out) && i < |out| && pair < |VModelPairs()|
    requires out[i].phase == VModelPairs()[pair].0
    ensures exists j :: i < j < |out| && out[j].phase == VModelPairs()[pair].1 &&
                        ConsumesTestsOf(out, out[i].phase, out[j], executable)
  {
    InPlan(plan.steps, out);
    UniqueOutput(plan.steps, out);
    var s := out[i];
    assert s in plan.steps;
    var t := PairedTest(plan, executable, s, pair);
    assert t in out;
    var j :| 0 <= j < |out| && out[j] == t;
    UpstreamRunsEarlier(plan, rank, out, j, s.id);
    var m :| 0 <= m < j && out[..j][m].id == s.id;
    DistinctIds(out, m, i);
    forall k, o | 0 <= k < |out| && out[k].phase == s.phase && o in out[k].outputs && executable(o)
      ensures o in t.inputs
    {
      assert out[k] in plan.steps;
    }
  }
}
