/** The plan lint: the rules as predicates of the plan, and the loops that check them. */
module PlanLint {
  import opened Basics
  import opened Plans
  import opened DependencyGraph
  import opened TopoSort

  datatype PhaseStatus = Current | Planned | Complete | Deferred

  datatype ImplementationPhase = ImplementationPhase(id: string, status: PhaseStatus)

  datatype Intent = Greenfield | Feature | Refactor | SelfBootstrap

  datatype Plan = Plan(steps: seq<Step>, phases: seq<ImplementationPhase>, phaseId: string, intent: Intent)

  datatype Issue =
    | DuplicateStepId(stepId: string)
    | DependsOnNotFound(stepId: string, dep: string)
    | UndeclaredIteration(stepId: string)
    | NonCurrentIteration(stepId: string)
    | MissingPhaseStep(iteration: string, phase: Phase)
    | DependencyCycle
    | OutputAlreadyProduced(stepId: string, output: string, owner: string)
    | InputNotProduced(stepId: string, input: string)
    | InputNotUpstream(stepId: string, input: string, owner: string)
    | LaterIteration(stepId: string, dep: string)
    | LaterPhase(stepId: string, dep: string)
    | CodeNotUnitTested(stepId: string)
    | NoSourceTests(stepId: string)
    | SourceNotPaired(stepId: string)
    | TestOwnsBaseline(stepId: string)
    | TestMissesInputs(stepId: string)
    | TopicIsOutput(stepId: string)
    | CurrentPhaseMismatch

  function Topic(): string {
    "docs/topic.md"
  }

  /** Index of the last phase declared with this id; an undeclared iteration counts as the first. */
  function IterationOrder(phases: seq<ImplementationPhase>, id: string): nat {
    if phases == [] then 0
    else if phases[|phases| - 1].id == id then |phases| - 1
    else IterationOrder(phases[..|phases| - 1], id)
  }

  /** The position of the last phase with this id; past every position, where there is none, the first. */
  lemma {:induction false} IterationPosition(phases: seq<ImplementationPhase>, id: string, k: nat)
    requires k <= |phases| && (k < |phases| ==> phases[k].id == id)
    requires forall j :: 0 <= j < |phases| && (j > k || k == |phases|) ==> phases[j].id != id
    ensures IterationOrder(phases, id) == if k < |phases| then k else 0
  {
    if phases != [] {
      var n := |phases| - 1;
      if k != n { IterationPosition(phases[..n], id, if k > n then n else k); }
    }
  }

  function CurrentIds(phases: seq<ImplementationPhase>): set<string> {
    set p | p in phases && p.status == Current :: p.id
  }

  function CurrentPhases(phases: seq<ImplementationPhase>): (r: seq<ImplementationPhase>)
    ensures forall p :: p in r <==> p in phases && p.status == Current
  {
    if phases == [] then []
    else
      var n := |phases| - 1;
      assert phases == phases[..n] + [phases[n]];
      CurrentPhases(phases[..n]) + if phases[n].status == Current then [phases[n]] else []
  }

  function StepsOf(steps: seq<Step>, phase: Phase, iteration: string): (r: seq<Step>)
    ensures forall s :: s in r <==> s in steps && s.phase == phase && IterationOf(s) == iteration
  {
    if steps == [] then []
    else
      var n := |steps| - 1;
      assert steps == steps[..n] + [steps[n]];
      StepsOf(steps[..n], phase, iteration) +
      if steps[n].phase == phase && IterationOf(steps[n]) == iteration then [steps[n]] else []
  }

  /** The first step that lists `output` owns it. */
  function FirstOwner(steps: seq<Step>, output: string): Option<string> {
    if steps == [] then None
    else
      var n := |steps| - 1;
      match FirstOwner(steps[..n], output)
      case Some(id) => Some(id)
      case None => if output in steps[n].outputs then Some(steps[n].id) else None
  }

  /** The plan as read when the owner loop reaches output `b` of step `j`. */
  function ReadSoFar(steps: seq<Step>, j: nat, b: nat): seq<Step>
    requires j < |steps| && b <= |steps[j].outputs|
  {
    steps[..j] + [steps[j].(outputs := steps[j].outputs[..b])]
  }

  // ---- The accepted plans, rule by rule -------------------------------------------------

  ghost predicate IterationsCurrent(plan: Plan) {
    plan.phases != [] ==> forall s :: s in plan.steps ==>
      (exists p :: p in plan.phases && p.id == IterationOf(s)) && IterationOf(s) in CurrentIds(plan.phases)
  }

  ghost predicate PhasesPresent(plan: Plan) {
    forall p, phase :: p in plan.phases && p.status == Current ==> HasStep(plan.steps, phase, p.id)
  }

  ghost predicate HasStep(steps: seq<Step>, phase: Phase, iteration: string) {
    exists s :: s in steps && s.phase == phase && IterationOf(s) == iteration
  }

  ghost function DepGraph(plan: Plan): Graph {
    GraphOf(ById(plan.steps))
  }

  ghost predicate DependsOn(plan: Plan, s: Step, target: string) {
    ReachesFrom(DepGraph(plan), s.dependsOn, target)
  }

  /** A later iteration may rewrite an output of a step it depends on. */
  ghost predicate MayRewrite(plan: Plan, s: Step, owner: string) {
    var byId := ById(plan.steps);
    && owner in byId
    && IterationOrder(plan.phases, IterationOf(byId[owner])) < IterationOrder(plan.phases, IterationOf(s))
    && DependsOn(plan, s, owner)
  }

  ghost predicate OutputAccepted(plan: Plan, j: nat, b: nat)
    requires j < |plan.steps| && b < |plan.steps[j].outputs|
  {
    match FirstOwner(ReadSoFar(plan.steps, j, b), plan.steps[j].outputs[b])
    case None => true
    case Some(owner) => MayRewrite(plan, plan.steps[j], owner)
  }

  ghost predicate OutputsOwned(plan: Plan) {
    forall j, b :: 0 <= j < |plan.steps| && 0 <= b < |plan.steps[j].outputs| ==> OutputAccepted(plan, j, b)
  }

  ghost predicate InputAccepted(plan: Plan, s: Step, input: string) {
    input == Topic() ||
    match FirstOwner(plan.steps, input)
    case None => plan.intent != Greenfield
    case Some(owner) => DependsOn(plan, s, owner)
  }

  ghost predicate InputsProvided(plan: Plan) {
    forall s, input :: s in plan.steps && input in s.inputs ==> InputAccepted(plan, s, input)
  }

  ghost predicate EdgeAccepted(plan: Plan, s: Step, dep: string) {
    var byId := ById(plan.steps);
    dep in byId ==>
      var d := byId[dep];
      var depOrder, order := IterationOrder(plan.phases, IterationOf(d)), IterationOrder(plan.phases, IterationOf(s));
      depOrder < order || (depOrder == order && PhaseOrder(d.phase) <= PhaseOrder(s.phase))
  }

  ghost predicate PhasesOrdered(plan: Plan) {
    forall s, dep :: s in plan.steps && dep in s.dependsOn ==> EdgeAccepted(plan, s, dep)
  }

  predicate IsInitFile(path: string) {
    path == "__init__.py" || EndsWith(path, "/__init__.py")
  }

  /** A package marker is a path whose last segment is `__init__.py`. */
  lemma {:induction false} MarkerIsLastSegment(path: string)
    ensures IsInitFile(path) <==> "/" + path == "/__init__.py" || exists d :: path == d + "/__init__.py"
  {
    var m := "/__init__.py";
    if "/" + path == m { assert ("/" + path)[1..] == path == m[1..]; }
    if EndsWith(path, m) { assert path == path[..|path| - |m|] + m; }
    if d :| path == d + m { assert path[|path| - |m|..] == m; }
    assert m == "/" + "__init__.py";
  }

  predicate OnlyInitFiles(s: Step) {
    s.outputs != [] && forall o :: o in s.outputs ==> IsInitFile(o)
  }

  ghost predicate UnitTestedBy(plan: Plan, c: Step, t: Step) {
    t.phase == UnitTest && IterationOf(t) == IterationOf(c) && DependsOn(plan, t, c.id)
  }

  ghost predicate UnitTested(plan: Plan, c: Step) {
    exists t :: t in plan.steps && UnitTestedBy(plan, c, t)
  }

  ghost predicate CodeCovered(plan: Plan) {
    forall c :: c in plan.steps && c.phase == Code && !OnlyInitFiles(c) ==> UnitTested(plan, c)
  }

  /** The left-side phases with the verification phase that consumes their tests. */
  function VModelPairs(): seq<(Phase, Phase)> {
    [(RequirementAnalysis, FunctionalTest), (HighLevelDesign, ModuleTest), (DetailedDesign, IntegrationTest), (Code,
        UnitTest)]
  }

  /** The executable tests the steps list as outputs. */
  function TestAssets(steps: seq<Step>, executable: string -> bool): set<string> {
    set s, o | s in steps && o in s.outputs && executable(o) :: o
  }

  predicate ConsumesOnly(t: Step, assets: set<string>, executable: string -> bool) {
    (forall o :: o in t.outputs ==> !executable(o)) && (forall a :: a in assets ==> a in t.inputs)
  }

  ghost predicate PairedBy(plan: Plan, source: Step, tests: seq<Step>) {
    exists t :: t in tests && DependsOn(plan, t, source.id)
  }

  /** Some paired test step depends on the source, and each that does owns no baseline test and consumes them all. */
  ghost predicate SourceAccepted(
    plan: Plan, executable: string -> bool, source: Step, tests: seq<Step>, assets: set<string>)
  {
    PairedBy(plan, source, tests) &&
    forall t :: t in tests && DependsOn(plan, t, source.id) ==> ConsumesOnly(t, assets, executable)
  }

  ghost predicate SourcesAccepted(
    plan: Plan, executable: string -> bool, sources: seq<Step>, n: nat, tests: seq<Step>, assets: set<string>)
    requires n <= |sources|
  {
    forall k :: 0 <= k < n ==> SourceAccepted(plan, executable, sources[k], tests, assets)
  }

  ghost predicate PairAccepted(
    plan: Plan, executable: string -> bool, iteration: string, sourcePhase: Phase, testPhase: Phase)
  {
    var sources := StepsOf(plan.steps, sourcePhase, iteration);
    var tests := StepsOf(plan.steps, testPhase, iteration);
    var assets := TestAssets(sources, executable);
    sources != [] ==>
      assets != {} && SourcesAccepted(plan, executable, sources, |sources|, tests, assets)
  }

  ghost predicate PairsAcceptedIn(plan: Plan, executable: string -> bool, iteration: string, n: nat)
    requires n <= |VModelPairs()|
  {
    forall m :: 0 <= m < n ==> PairAccepted(plan, executable, iteration, VModelPairs()[m].0, VModelPairs()[m].1)
  }

  ghost predicate PairsAccepted(plan: Plan, executable: string -> bool) {
    forall k :: 0 <= k < |CurrentPhases(plan.phases)| ==>
      PairsAcceptedIn(plan, executable, CurrentPhases(plan.phases)[k].id, |VModelPairs()|)
  }

  ghost predicate TopicUntouched(plan: Plan) {
    forall s :: s in plan.steps ==> Topic() !in s.outputs
  }

  ghost predicate SingleCurrent(plan: Plan) {
    |CurrentPhases(plan.phases)| == 1 && CurrentPhases(plan.phases)[0].id == plan.phaseId
  }

  ghost predicate StructureAccepted(plan: Plan) {
    && UniqueIds(plan.steps) && ClosedDeps(plan.steps)
    && IterationsCurrent(plan) && PhasesPresent(plan)
    && !Cyclic(DepGraph(plan))
  }

  ghost predicate Accepts(plan: Plan, executable: string -> bool) {
    && StructureAccepted(plan)
    && OutputsOwned(plan) && InputsProvided(plan) && PhasesOrdered(plan)
    && CodeCovered(plan) && PairsAccepted(plan, executable)
    && TopicUntouched(plan) && SingleCurrent(plan)
  }

  // ---- The checks -----------------------------------------------------------------------

  method LintIds(plan: Plan) returns (issues: seq<Issue>)
    ensures issues == [] <==> UniqueIds(plan.steps) && ClosedDeps(plan.steps)
  {
    issues := [];
    var ids: set<string> := {};
    for i := 0 to |plan.steps|
      invariant ids == Ids(plan.steps[..i])
      invariant issues == [] <==> UniqueIds(plan.steps[..i])
    {
      var s := plan.steps[i];
      if s.id in ids { issues := issues + [DuplicateStepId(s.id)]; }
      assert plan.steps[..i + 1] == plan.steps[..i] + [s];
      UniqueAppend(plan.steps[..i], s);
      IdsAppend(plan.steps[..i], s);
      ids := ids + {s.id};
    }
    assert plan.steps[..|plan.steps|] == plan.steps;
    var duplicates := issues;
    for i := 0 to |plan.steps|
      invariant issues == [] <==>
                duplicates == [] && forall k, d :: 0 <= k < i && d in plan.steps[k].dependsOn ==> d in ids
    {
      var s := plan.steps[i];
      for k := 0 to |s.dependsOn|
        invariant issues == [] <==>
          (duplicates == [] && (forall m, d :: 0 <= m < i && d in plan.steps[m].dependsOn ==> d in ids) &&
          forall m :: 0 <= m < k ==> s.dependsOn[m] in ids)
      {
        if s.dependsOn[k] !in ids { issues := issues + [DependsOnNotFound(s.id, s.dependsOn[k])]; }
      }
    }
  }

  lemma {:induction false} UniqueAppend(steps: seq<Step>, s: Step)
    ensures UniqueIds(steps + [s]) <==> UniqueIds(steps) && s.id !in Ids(steps)
  {
    var all := steps + [s];
    if UniqueIds(all) {
      forall i, j | 0 <= i < j < |steps| ensures steps[i].id != steps[j].id { assert all[i].id != all[j].id; }
      forall i | 0 <= i < |steps| ensures steps[i].id != s.id { assert all[i].id != all[|steps|].id; }
    }
  }

  method LintIterations(plan: Plan) returns (issues: seq<Issue>)
    ensures issues == [] <==> IterationsCurrent(plan)
  {
    issues := [];
    var declared := set p | p in plan.phases :: p.id;
    var current := CurrentIds(plan.phases);
    for i := 0 to |plan.steps|
      invariant issues == [] <==> (plan.phases != [] ==> forall k :: 0 <= k < i ==>
        IterationOf(plan.steps[k]) in declared && IterationOf(plan.steps[k]) in current)
    {
      var s := plan.steps[i];
      if plan.phases != [] && IterationOf(s) !in declared { issues := issues + [UndeclaredIteration(s.id)]; }
      if plan.phases != [] && IterationOf(s) !in current { issues := issues + [NonCurrentIteration(s.id)]; }
    }
    assert forall id :: id in declared <==> exists p :: p in plan.phases && p.id == id;
  }

  method LintRequiredPhases(plan: Plan) returns (issues: seq<Issue>)
    ensures issues == [] <==> PhasesPresent(plan)
  {
    issues := [];
    var current := CurrentPhases(plan.phases);
    for i := 0 to |current|
      invariant issues == [] <==> forall k, phase :: 0 <= k < i ==> HasStep(plan.steps, phase, current[k].id)
    {
      var id := current[i].id;
      var before := issues;
      for k := 0 to 8
        invariant issues == [] <==> before == [] && forall m :: 0 <= m < k ==> HasStep(plan.steps, Phases()[m], id)
      {
        var phase := Phases()[k];
        var found := StepsOf(plan.steps, phase, id);
        StepsOfFinds(plan.steps, phase, id);
        if found == [] { issues := issues + [MissingPhaseStep(id, phase)]; }
      }
      EveryPhase(plan.steps, id);
    }
  }

  lemma {:induction false} StepsOfFinds(steps: seq<Step>, phase: Phase, iteration: string)
    ensures StepsOf(steps, phase, iteration) != [] <==> HasStep(steps, phase, iteration)
  {
    var found := StepsOf(steps, phase, iteration);
    assert found != [] ==> found[0] in found;
  }

  lemma {:induction false} EveryPhase(steps: seq<Step>, iteration: string)
    ensures (forall m :: 0 <= m < 8 ==> HasStep(steps, Phases()[m], iteration)) <==>
            forall phase :: HasStep(steps, phase, iteration)
  {
    if forall m :: 0 <= m < 8 ==> HasStep(steps, Phases()[m], iteration) {
      forall phase ensures HasStep(steps, phase, iteration) {
        assert HasStep(steps, Phases()[PhaseOrder(phase)], iteration);
      }
    }
  }

  method LintOutputs(plan: Plan) returns (issues: seq<Issue>, owners: map<string, string>)
    requires forall s :: s in plan.steps ==> s.id != ""
    ensures issues == [] <==> OutputsOwned(plan)
    ensures OwnersRead(plan.steps, owners)
  {
    issues := [];
    owners := map[];
    for j := 0 to |plan.steps|
      invariant OwnersRead(plan.steps[..j], owners)
      invariant issues == [] <==> OutputsAcceptedTo(plan, j, 0)
    {
      var more;
      more, owners := LintStepOutputs(plan, j, owners);
      issues := issues + more;
      AcceptedNext(plan, j);
    }
    assert plan.steps[..|plan.steps|] == plan.steps;
  }

  method LintStepOutputs(
    plan: Plan, j: nat, before: map<string, string>)
    returns (issues: seq<Issue>, owners: map<string, string>)
    requires j < |plan.steps| && plan.steps[j].id != "" && OwnersRead(plan.steps[..j], before)
    ensures issues == [] <==> forall b :: 0 <= b < |plan.steps[j].outputs| ==> OutputAccepted(plan, j, b)
    ensures OwnersRead(plan.steps[..j + 1], owners)
  {
    var s := plan.steps[j];
    issues, owners := [], before;
    ReadNothing(plan.steps, j, owners);
    for b := 0 to |s.outputs|
      invariant OwnersRead(ReadSoFar(plan.steps, j, b), owners)
      invariant issues == [] <==> forall a :: 0 <= a < b ==> OutputAccepted(plan, j, a)
    {
      var out := s.outputs[b];
      OwnersStep(plan, j, b, owners);
      if out in owners && owners[out] != "" {
        var prev := owners[out];
        var allowed := AllowIterativeModify(plan, s, prev);
        if !allowed { issues := issues + [OutputAlreadyProduced(s.id, out, prev)]; }
      } else {
        owners := owners[out := s.id];
      }
    }
    ReadAll(plan.steps, j, owners);
  }

  method AllowIterativeModify(plan: Plan, s: Step, prev: string) returns (allowed: bool)
    ensures allowed <==> MayRewrite(plan, s, prev)
  {
    var byId := ById(plan.steps);
    allowed := false;
    if prev in byId && IterationOrder(plan.phases, IterationOf(byId[prev])) < IterationOrder(plan.phases,
        IterationOf(s)) {
      allowed := StepTransitivelyDependsOn(s, prev, byId);
    }
  }

  ghost predicate OwnersRead(steps: seq<Step>, owners: map<string, string>) {
    && (forall o :: FirstOwner(steps, o) == if o in owners then Some(owners[o]) else None)
    && (forall o :: o in owners ==> owners[o] != "")
  }

  /** All outputs before position (j, b) are accepted. */
  ghost predicate OutputsAcceptedTo(plan: Plan, j: nat, b: nat) {
    forall i, a :: 0 <= i < |plan.steps| && 0 <= a < |plan.steps[i].outputs| && (i < j || (i == j && a < b)) ==>
      OutputAccepted(plan, i, a)
  }

  lemma {:induction false} ReadNothing(steps: seq<Step>, j: nat, owners: map<string, string>)
    requires j < |steps| && OwnersRead(steps[..j], owners)
    ensures OwnersRead(ReadSoFar(steps, j, 0), owners)
  {
    assert ReadSoFar(steps, j, 0)[..j] == steps[..j];
  }

  lemma {:induction false} ReadAll(steps: seq<Step>, j: nat, owners: map<string, string>)
    requires j < |steps| && OwnersRead(ReadSoFar(steps, j, |steps[j].outputs|), owners)
    ensures OwnersRead(steps[..j + 1], owners)
  {
    assert steps[j].outputs[..|steps[j].outputs|] == steps[j].outputs;
    assert ReadSoFar(steps, j, |steps[j].outputs|) == steps[..j + 1];
  }

  /** What the owner map says at one output decides whether it is accepted, and how the map grows. */
  lemma {:induction false} OwnersStep(plan: Plan, j: nat, b: nat, owners: map<string, string>)
    requires j < |plan.steps| && b < |plan.steps[j].outputs| && plan.steps[j].id != ""
    requires OwnersRead(ReadSoFar(plan.steps, j, b), owners)
    ensures
      var s, out := plan.steps[j], plan.steps[j].outputs[b];
      && (OutputAccepted(plan, j, b) <==> (out in owners ==> MayRewrite(plan, s, owners[out])))
      && OwnersRead(ReadSoFar(plan.steps, j, b + 1), if out in owners then owners else owners[out := s.id])
  {
    ReadOne(plan.steps, j, b, plan.steps[j].outputs[b]);
  }

  /** Reading one more output only changes its own owner, and only if it had none. */
  lemma {:induction false} ReadOne(steps: seq<Step>, j: nat, b: nat, out: string)
    requires j < |steps| && b < |steps[j].outputs| && out == steps[j].outputs[b]
    ensures forall o ::
        FirstOwner(ReadSoFar(steps, j, b + 1), o) == (if FirstOwner(ReadSoFar(steps, j, b), o) == None &&
            o == out then Some(steps[j].id) else FirstOwner(ReadSoFar(steps, j, b), o))
  {
    var now, next := ReadSoFar(steps, j, b), ReadSoFar(steps, j, b + 1);
    assert now[..j] == steps[..j] && next[..j] == steps[..j];
    assert steps[j].outputs[..b + 1] == steps[j].outputs[..b] + [out];
  }

  lemma {:induction false} AcceptedNext(plan: Plan, j: nat)
    requires j < |plan.steps|
    ensures OutputsAcceptedTo(plan, j + 1, 0) <==>
      (OutputsAcceptedTo(plan, j, 0) && forall b :: 0 <= b < |plan.steps[j].outputs| ==> OutputAccepted(plan, j, b))
  {
  }

  method LintInputs(plan: Plan, owners: map<string, string>) returns (issues: seq<Issue>)
    requires OwnersRead(plan.steps, owners)
    ensures issues == [] <==> InputsProvided(plan)
  {
    issues := [];
    var byId := ById(plan.steps);
    for i := 0 to |plan.steps|
      invariant issues == [] <==>
                forall k, x :: 0 <= k < i && x in plan.steps[k].inputs ==> InputAccepted(plan, plan.steps[k], x)
    {
      var s := plan.steps[i];
      var upstream := TransitiveDependencyIds(s, byId);
      var before := issues;
      for k := 0 to |s.inputs|
        invariant issues == [] <==> before == [] && forall m :: 0 <= m < k ==> InputAccepted(plan, s, s.inputs[m])
      {
        var input := s.inputs[k];
        if input == Topic() { continue; }
        if input !in owners || owners[input] == "" {
          if plan.intent == Greenfield { issues := issues + [InputNotProduced(s.id, input)]; }
        } else if owners[input] !in upstream {
          issues := issues + [InputNotUpstream(s.id, input, owners[input])];
        }
      }
    }
    assert forall s :: s in plan.steps <==> exists k :: 0 <= k < |plan.steps| && plan.steps[k] == s;
  }

  method LintPhaseOrder(plan: Plan) returns (issues: seq<Issue>)
    ensures issues == [] <==> PhasesOrdered(plan)
  {
    issues := [];
    var byId := ById(plan.steps);
    for i := 0 to |plan.steps|
      invariant issues == [] <==>
                forall k, x :: 0 <= k < i && x in plan.steps[k].dependsOn ==> EdgeAccepted(plan, plan.steps[k], x)
    {
      var s := plan.steps[i];
      var before := issues;
      for k := 0 to |s.dependsOn|
        invariant issues == [] <==> before == [] && forall m :: 0 <= m < k ==> EdgeAccepted(plan, s, s.dependsOn[m])
      {
        var dep := s.dependsOn[k];
        if dep !in byId { continue; }
        var d := byId[dep];
        var depOrder := IterationOrder(plan.phases, IterationOf(d));
        var order := IterationOrder(plan.phases, IterationOf(s));
        if depOrder > order { issues := issues + [LaterIteration(s.id, dep)]; }
        if depOrder == order && PhaseOrder(d.phase) > PhaseOrder(s.phase) {
          issues := issues + [LaterPhase(s.id, dep)];
        }
      }
    }
    assert forall s :: s in plan.steps <==> exists k :: 0 <= k < |plan.steps| && plan.steps[k] == s;
  }

  method LintCoverage(plan: Plan) returns (issues: seq<Issue>)
    ensures issues == [] <==> CodeCovered(plan)
  {
    issues := [];
    var byId := ById(plan.steps);
    for i := 0 to |plan.steps|
      invariant issues == [] <==>
                forall k :: 0 <= k < i && plan.steps[k].phase == Code && !OnlyInitFiles(plan.steps[k]) ==>
        UnitTested(plan, plan.steps[k])
    {
      var c := plan.steps[i];
      if c.phase != Code || OnlyInitFiles(c) { continue; }
      var covered := false;
      for k := 0 to |plan.steps|
        invariant covered <==> exists m :: 0 <= m < k && UnitTestedBy(plan, c, plan.steps[m])
      {
        var t := plan.steps[k];
        if t.phase == UnitTest && IterationOf(t) == IterationOf(c) {
          var depends := StepTransitivelyDependsOn(t, c.id, byId);
          covered := covered || depends;
        }
      }
      if !covered { issues := issues + [CodeNotUnitTested(c.id)]; }
      assert covered <==> UnitTested(plan, c);
    }
  }

  method LintPair(plan: Plan, executable: string -> bool, iteration: string, sourcePhase: Phase, testPhase: Phase)
    returns (issues: seq<Issue>)
    ensures issues == [] <==> PairAccepted(plan, executable, iteration, sourcePhase, testPhase)
  {
    issues := [];
    var byId := ById(plan.steps);
    var sources := StepsOf(plan.steps, sourcePhase, iteration);
    if sources == [] { return; }
    var tests := StepsOf(plan.steps, testPhase, iteration);
    var assets := TestAssets(sources, executable);
    if assets == {} { issues := issues + [NoSourceTests(sources[0].id)]; }
    var more := LintSources(plan, executable, sources, tests, assets);
    issues := issues + more;
  }

  method LintSources(plan: Plan, executable: string -> bool, sources: seq<Step>, tests: seq<Step>, assets: set<string>)
    returns (issues: seq<Issue>)
    ensures issues == [] <==> SourcesAccepted(plan, executable, sources, |sources|, tests, assets)
  {
    issues := [];
    for i := 0 to |sources|
      invariant issues == [] <==> SourcesAccepted(plan, executable, sources, i, tests, assets)
    {
      var more := LintSource(plan, executable, sources[i], tests, assets);
      OneMoreSource(plan, executable, sources, i, tests, assets);
      issues := issues + more;
    }
  }

  lemma {:induction false} OneMoreSource(
    plan: Plan, executable: string -> bool, sources: seq<Step>, i: nat, tests: seq<Step>, assets: set<string>)
    requires i < |sources|
    ensures SourcesAccepted(plan, executable, sources, i + 1, tests, assets) <==>
      (SourcesAccepted(plan, executable, sources, i, tests, assets) &&
          SourceAccepted(plan, executable, sources[i], tests, assets))
  {
  }

  method LintSource(plan: Plan, executable: string -> bool, source: Step, tests: seq<Step>, assets: set<string>)
    returns (issues: seq<Issue>)
    ensures issues == [] <==> SourceAccepted(plan, executable, source, tests, assets)
  {
    issues := [];
    var byId := ById(plan.steps);
    var paired := false;
    for k := 0 to |tests|
      invariant paired <==> exists m :: 0 <= m < k && DependsOn(plan, tests[m], source.id)
      invariant issues == [] <==> forall m :: 0 <= m < k && DependsOn(plan, tests[m], source.id) ==>
        ConsumesOnly(tests[m], assets, executable)
    {
      var t := tests[k];
      var depends := StepTransitivelyDependsOn(t, source.id, byId);
      if depends {
        paired := true;
        if exists o :: o in t.outputs && executable(o) { issues := issues + [TestOwnsBaseline(t.id)]; }
        if exists a :: a in assets && a !in t.inputs { issues := issues + [TestMissesInputs(t.id)]; }
      }
    }
    assert forall t :: t in tests <==> exists k :: 0 <= k < |tests| && tests[k] == t;
    if !paired { issues := issues + [SourceNotPaired(source.id)]; }
  }

  method LintPairs(plan: Plan, executable: string -> bool) returns (issues: seq<Issue>)
    ensures issues == [] <==> PairsAccepted(plan, executable)
  {
    hide PairsAcceptedIn, CurrentPhases;
    issues := [];
    var current := CurrentPhases(plan.phases);
    for i := 0 to |current|
      invariant issues == [] <==>
                forall k :: 0 <= k < i ==> PairsAcceptedIn(plan, executable, current[k].id, |VModelPairs()|)
    {
      var more := LintIterationPairs(plan, executable, current[i].id);
      issues := issues + more;
    }
  }

  method LintIterationPairs(plan: Plan, executable: string -> bool, iteration: string) returns (issues: seq<Issue>)
    ensures issues == [] <==> PairsAcceptedIn(plan, executable, iteration, |VModelPairs()|)
  {
    issues := [];
    for k := 0 to |VModelPairs()|
      invariant issues == [] <==> PairsAcceptedIn(plan, executable, iteration, k)
    {
      var pair := VModelPairs()[k];
      var more := LintPair(plan, executable, iteration, pair.0, pair.1);
      assert PairsAcceptedIn(plan, executable, iteration, k + 1) <==>
        PairsAcceptedIn(plan, executable, iteration, k) && PairAccepted(plan, executable, iteration, pair.0, pair.1);
      issues := issues + more;
    }
  }

  method LintTopic(plan: Plan) returns (issues: seq<Issue>)
    ensures issues == [] <==> TopicUntouched(plan)
  {
    issues := [];
    for i := 0 to |plan.steps|
      invariant issues == [] <==> forall k :: 0 <= k < i ==> Topic() !in plan.steps[k].outputs
    {
      if Topic() in plan.steps[i].outputs { issues := issues + [TopicIsOutput(plan.steps[i].id)]; }
    }
  }

  method LintStructure(plan: Plan) returns (issues: seq<Issue>)
    ensures issues == [] <==> StructureAccepted(plan)
  {
    var ids := LintIds(plan);
    var iterations := LintIterations(plan);
    var required := LintRequiredPhases(plan);
    var cyclic := HasCycle(plan.steps);
    issues := ids + iterations + required + if cyclic then [DependencyCycle] else [];
  }

  method LintArtifacts(plan: Plan) returns (issues: seq<Issue>)
    requires forall s :: s in plan.steps ==> s.id != ""
    ensures issues == [] <==> OutputsOwned(plan) && InputsProvided(plan) && PhasesOrdered(plan) && TopicUntouched(plan)
  {
    var outputs, owners := LintOutputs(plan);
    var inputs := LintInputs(plan, owners);
    var order := LintPhaseOrder(plan);
    var topic := LintTopic(plan);
    issues := outputs + inputs + order + topic;
  }

  /** Step ids are never empty: the plan schema admits only `S` followed by digits. */
  method LintPlan(plan: Plan, executable: string -> bool) returns (issues: seq<Issue>)
    requires forall s :: s in plan.steps ==> s.id != ""
    ensures issues == [] <==> Accepts(plan, executable)
  {
    var structure := LintStructure(plan);
    var artifacts := LintArtifacts(plan);
    var coverage := LintCoverage(plan);
    var pairs := LintPairs(plan, executable);
    var current := CurrentPhases(plan.phases);
    var phase := if plan.phases == [] || |current| != 1 ||
        current[0].id != plan.phaseId then [CurrentPhaseMismatch] else [];
    issues := structure + artifacts + coverage + pairs + phase;
  }
}
