/** The architecture contract: which module paths are owned by which step, and what acceptance guarantees. */
module ArchitectureContract {
  import opened Basics
  import opened Plans
  import opened DependencyGraph
  import PlanLint
  import ScheduledRun
  import TopoSort

  datatype ArchitectureModule = ArchitectureModule(
    id: string,
    sourcePaths: seq<string>,
    assetPaths: seq<string>,
    testPaths: seq<string>,
    dependencies: seq<string>
  )

  datatype SubTask = SubTask(text: string, children: seq<SubTask>)

  /**
   * The target language, the demand, the sub-tasks of a step, and whether the joined text of some
   * sub-tasks contains a token.
   */
  datatype Setting = Setting(
    codeFile: string -> bool,
    nonTrivial: bool,
    subTasks: string -> seq<SubTask>,
    mentions: (seq<SubTask>, string) -> bool
  )

  datatype ContractIssue =
    | DuplicateModuleId(id: string)
    | BadSourcePath(id: string, path: string)
    | BadAssetPath(id: string, path: string)
    | BadTestPath(id: string, path: string)
    | OwnedTwice(path: string)
    | NoCodeOwner(id: string)
    | DuplicateOwners(id: string)
    | DisconnectedOwners(id: string)
    | TestsNotAuthored(id: string)
    | TestsNotConsumed(id: string)
    | TestsBeforeCode(id: string)
    | BadDependency(id: string, dependency: string)
    | SubTasksMissing(stepId: string)
    | NotDesigned(stepId: string, output: string)

  // ---- Paths ----------------------------------------------------------------------------

  function Slashes(s: string): string {
    seq(|s|, i requires 0 <= i < |s| => if s[i] == '\\' then '/' else s[i])
  }

  function WithoutTrailing(s: string): string {
    if s != [] && s[|s| - 1] == '/' then WithoutTrailing(s[..|s| - 1]) else s
  }

  function NormalizePath(s: string): string {
    var slashed := Slashes(s);
    WithoutTrailing(if StartsWith(slashed, "./") then slashed[2..] else slashed)
  }

  /** The path is listed itself, or lies in a listed directory. */
  predicate PathCoveredByOutputs(path: string, outputs: seq<string>) {
    exists o :: o in outputs &&
      (NormalizePath(path) == NormalizePath(o) || StartsWith(NormalizePath(path), NormalizePath(o) + "/"))
  }

  /** Written without backslashes, not from `./`, and with no slash at the end. */
  predicate IsPlainPath(p: string) {
    && p != [] && p != "." && p[|p| - 1] != '/' && !StartsWith(p, "./")
    && forall i :: 0 <= i < |p| ==> p[i] != '\\'
  }

  lemma {:induction false} PlainPathStays(p: string)
    requires IsPlainPath(p)
    ensures NormalizePath(p) == p
  {
    assert Slashes(p) == p;
  }

  /** `./`, slashes at the end, and backslashes make no difference. */
  lemma {:induction false} WrittenAlike(p: string, q: string)
    requires IsPlainPath(p)
    requires |q| == |p| && forall i :: 0 <= i < |p| ==> q[i] == p[i] || (q[i] == '\\' && p[i] == '/')
    ensures NormalizePath(q) == p && NormalizePath("./" + q) == p && NormalizePath(q + "/") == p
  {
    assert Slashes(q) == p;
    assert Slashes("./" + q) == "./" + p && ("./" + p)[2..] == p && ("./" + p)[..2] == "./";
    assert Slashes(q + "/") == p + "/" && (p + "/")[..|p|] == p;
    assert |p| >= 2 ==> (p + "/")[..2] == p[..2];
    assert |p| == 1 ==> (p + "/")[0] == p[0];
    assert WithoutTrailing(p + "/") == WithoutTrailing(p);
  }

  /** Paths written plainly: one is covered exactly by itself and by the directories it lies in. */
  lemma {:induction false} CoveredPlainly(path: string, outputs: seq<string>)
    requires IsPlainPath(path) && forall o :: o in outputs ==> IsPlainPath(o)
    ensures PathCoveredByOutputs(path, outputs) <==>
            exists o :: o in outputs && (path == o || IsBelow(path, o))
  {
    hide NormalizePath, IsPlainPath;
    PlainPathStays(path);
    forall o | o in outputs ensures NormalizePath(o) == o && (StartsWith(path, o + "/") <==> IsBelow(path, o)) {
      PlainPathStays(o);
      BelowStarts(path, o);
    }
  }

  ghost predicate IsBelow(path: string, directory: string) {
    exists rest :: path == directory + ("/" + rest)
  }

  lemma {:induction false} BelowStarts(path: string, directory: string)
    ensures StartsWith(path, directory + "/") <==> IsBelow(path, directory)
  {
    var d := directory + "/";
    if StartsWith(path, d) {
      assert path == path[..|d|] + path[|d|..];
      assert path == directory + ("/" + path[|d|..]);
    }
    if rest :| path == directory + ("/" + rest) { assert path == d + rest && path[..|d|] == d; }
  }

  predicate IsSourcePath(c: Setting, path: string) {
    StartsWith(path, "src/") && c.codeFile(path)
  }

  predicate IsAssetPath(c: Setting, path: string) {
    StartsWith(path, "src/") && !EndsWith(path, "/") && !c.codeFile(path)
  }

  predicate IsTestPath(c: Setting, path: string) {
    StartsWith(path, "tests/") && c.codeFile(path)
  }

  function Implementation(m: ArchitectureModule): seq<string> {
    m.sourcePaths + m.assetPaths
  }

  /** All implementation paths, module after module. */
  function AllImplementation(modules: seq<ArchitectureModule>): seq<string> {
    if modules == [] then [] else AllImplementation(modules[..|modules| - 1]) + Implementation(modules[|modules| - 1])
  }

  // ---- Sub-tasks ------------------------------------------------------------------------

  /** Each task before its children, siblings in order. */
  function Preorder(tasks: seq<SubTask>): seq<SubTask> {
    if tasks == [] then [] else [tasks[0]] + Preorder(tasks[0].children) + Preorder(tasks[1..])
  }

  function Size(tasks: seq<SubTask>): nat {
    if tasks == [] then 0 else 1 + Size(tasks[0].children) + Size(tasks[1..])
  }

  lemma {:induction false} PreorderAppend(a: seq<SubTask>, b: seq<SubTask>)
    ensures Preorder(a + b) == Preorder(a) + Preorder(b)
    ensures Size(a + b) == Size(a) + Size(b)
  {
    if a == [] {
      assert a + b == b;
    } else {
      assert (a + b)[1..] == a[1..] + b;
      PreorderAppend(a[1..], b);
    }
  }

  /** The stack pushes children in front, which makes it the preorder of the tree. */
  method FlattenSubTasks(tasks: seq<SubTask>) returns (out: seq<SubTask>)
    ensures out == Preorder(tasks)
  {
    out := [];
    var stack := tasks;
    while stack != []
      invariant out + Preorder(stack) == Preorder(tasks)
      decreases Size(stack)
    {
      FlattenStep(out, stack);
      out := out + [stack[0]];
      stack := stack[0].children + stack[1..];
    }
  }

  lemma {:induction false} FlattenStep(out: seq<SubTask>, stack: seq<SubTask>)
    requires stack != []
    ensures (out + [stack[0]]) + Preorder(stack[0].children + stack[1..]) == out + Preorder(stack)
    ensures Size(stack[0].children + stack[1..]) < Size(stack)
  {
    var below, rest := Preorder(stack[0].children), Preorder(stack[1..]);
    PreorderAppend(stack[0].children, stack[1..]);
    assert (out + [stack[0]]) + (below + rest) == out + ([stack[0]] + below + rest);
  }

  predicate NamesModule(c: Setting, flat: seq<SubTask>, m: ArchitectureModule) {
    c.mentions(flat, m.id) || exists p :: p in Implementation(m) && c.mentions(flat, p)
  }

  predicate HasModuleSubTasks(c: Setting, stepId: string, modules: seq<ArchitectureModule>) {
    forall m :: m in modules ==> NamesModule(c, Preorder(c.subTasks(stepId)), m)
  }

  // ---- Owners ---------------------------------------------------------------------------

  predicate Owns(m: ArchitectureModule, s: Step) {
    s.phase == Code && forall p :: p in Implementation(m) ==> PathCoveredByOutputs(p, s.outputs)
  }

  predicate Authors(m: ArchitectureModule, s: Step) {
    s.phase == HighLevelDesign && forall p :: p in m.testPaths ==> PathCoveredByOutputs(p, s.outputs)
  }

  predicate Consumes(m: ArchitectureModule, s: Step) {
    s.phase == ModuleTest && forall p :: p in m.testPaths ==> PathCoveredByOutputs(p, s.inputs)
  }

  function OwnersOf(m: ArchitectureModule, steps: seq<Step>): (r: seq<Step>)
    ensures forall s :: s in r <==> s in steps && Owns(m, s)
  {
    if steps == [] then []
    else
      var n := |steps| - 1;
      assert steps == steps[..n] + [steps[n]];
      OwnersOf(m, steps[..n]) + if Owns(m, steps[n]) then [steps[n]] else []
  }

  /** The index map keeps the last position of an id. */
  function LastIndex(steps: seq<Step>, id: string): nat {
    if steps == [] then 0
    else if steps[|steps| - 1].id == id then |steps| - 1
    else LastIndex(steps[..|steps| - 1], id)
  }

  /** The owner the stable sort by index puts first. */
  function Earliest(steps: seq<Step>, owners: seq<Step>): (o: Step)
    requires owners != []
    ensures o in owners && forall s :: s in owners ==> LastIndex(steps, o.id) <= LastIndex(steps, s.id)
  {
    if |owners| == 1 then owners[0]
    else
      var n := |owners| - 1;
      var before := Earliest(steps, owners[..n]);
      assert forall s :: s in owners ==> s in owners[..n] || s == owners[n];
      if LastIndex(steps, owners[n].id) < LastIndex(steps, before.id) then owners[n] else before
  }

  ghost predicate DependsOnStep(steps: seq<Step>, s: Step, target: string) {
    ReachesFrom(GraphOf(ById(steps)), s.dependsOn, target)
  }

  ghost predicate Connected(steps: seq<Step>, owners: seq<Step>, first: Step) {
    forall s :: s in owners && s.id != first.id ==> DependsOnStep(steps, s, first.id)
  }

  ghost predicate TestedAfter(m: ArchitectureModule, steps: seq<Step>, target: string) {
    exists t :: t in steps && Consumes(m, t) && DependsOnStep(steps, t, target)
  }

  ghost predicate Owned(m: ArchitectureModule, steps: seq<Step>) {
    var owners := OwnersOf(m, steps);
    owners != [] &&
    var first := Earliest(steps, owners);
    && (forall s :: s in owners && s.id != first.id ==> IterationOf(s) != IterationOf(first))
    && Connected(steps, owners, first)
    && (exists d :: d in steps && Authors(m, d))
    && TestedAfter(m, steps, first.id)
  }

  // ---- The contract ---------------------------------------------------------------------

  ghost predicate PathsFit(c: Setting, m: ArchitectureModule) {
    && (forall p :: p in m.sourcePaths ==> IsSourcePath(c, p))
    && (forall p :: p in m.assetPaths ==> IsAssetPath(c, p))
    && (forall p :: p in m.testPaths ==> IsTestPath(c, p))
  }

  function ModuleIds(modules: seq<ArchitectureModule>): (ids: seq<string>)
    ensures |ids| == |modules| && forall i :: 0 <= i < |ids| ==> ids[i] == modules[i].id
  {
    seq(|modules|, i requires 0 <= i < |modules| => modules[i].id)
  }

  /** What the first loop establishes for the modules it has passed. */
  ghost predicate ModulesFit(c: Setting, modules: seq<ArchitectureModule>, steps: seq<Step>) {
    && NoDup(ModuleIds(modules)) && NoDup(AllImplementation(modules))
    && (forall m :: m in modules ==> PathsFit(c, m) && Owned(m, steps))
  }

  ghost predicate DependenciesFit(modules: seq<ArchitectureModule>) {
    forall m :: m in modules ==> LinksFit(m, ModuleIds(modules))
  }

  predicate OwnerIs(m: ArchitectureModule, steps: seq<Step>, id: string) {
    OwnersOf(m, steps) != [] && Earliest(steps, OwnersOf(m, steps)).id == id
  }

  function ModulesOf(modules: seq<ArchitectureModule>, steps: seq<Step>, id: string): (r: seq<ArchitectureModule>)
    ensures forall m :: m in r <==> m in modules && OwnerIs(m, steps, id)
  {
    if modules == [] then []
    else
      var n := |modules| - 1;
      assert modules == modules[..n] + [modules[n]];
      ModulesOf(modules[..n], steps, id) + if OwnerIs(modules[n], steps, id) then [modules[n]] else []
  }

  ghost predicate SubTasksFit(c: Setting, modules: seq<ArchitectureModule>, steps: seq<Step>) {
    forall id :: |ModulesOf(modules, steps, id)| > 1 ==> HasModuleSubTasks(c, id, ModulesOf(modules, steps, id))
  }

  ghost predicate Designed(c: Setting, modules: seq<ArchitectureModule>, output: string) {
    IsSourcePath(c, output) && !EndsWith(output, "/__init__.py") ==> exists m :: m in modules && output in m.sourcePaths
  }

  ghost predicate NothingUndesigned(c: Setting, modules: seq<ArchitectureModule>, steps: seq<Step>) {
    c.nonTrivial ==> forall s, o :: s in steps && s.phase == Code && o in s.outputs ==> Designed(c, modules, o)
  }

  ghost predicate ContractHolds(c: Setting, modules: seq<ArchitectureModule>, steps: seq<Step>) {
    && ModulesFit(c, modules, steps) && DependenciesFit(modules)
    && SubTasksFit(c, modules, steps) && NothingUndesigned(c, modules, steps)
  }

  // ---- The check ------------------------------------------------------------------------

  lemma {:induction false} NoDupJoined(a: seq<string>, b: seq<string>)
    ensures NoDup(a + b) <==> NoDup(a) && NoDup(b) && forall x :: x in a ==> x !in b
  {
    var ab := a + b;
    if NoDup(ab) {
      forall i, j | 0 <= i < j < |a| ensures a[i] != a[j] { assert ab[i] != ab[j]; }
      forall i, j | 0 <= i < j < |b| ensures b[i] != b[j] { assert ab[|a| + i] != ab[|a| + j]; }
      forall x | x in a ensures x !in b {
        var i :| 0 <= i < |a| && a[i] == x;
        forall j | 0 <= j < |b| ensures b[j] != x { assert ab[i] != ab[|a| + j]; }
      }
    }
    if NoDup(a) && NoDup(b) && forall x :: x in a ==> x !in b {
      forall i, j | 0 <= i < j < |ab| ensures ab[i] != ab[j] {
        if i < |a| <= j {
          assert ab[i] in a && ab[j] == b[j - |a|] && b[j - |a|] in b;
        }
      }
    }
  }

  /** `x` comes after a list without repetition. */
  lemma {:induction false} NoDupSnoc(a: seq<string>, x: string)
    ensures NoDup(a + [x]) <==> NoDup(a) && x !in a
  {
    NoDupJoined(a, [x]);
    assert x in [x];
  }

  /** One list of implementation paths against all those met so far. */
  method CheckPaths(
    paths: seq<string>, seen: set<string>, ghost before: seq<string>)
    returns (issues: seq<ContractIssue>, after: set<string>)
    requires seen == Elems(before)
    ensures after == Elems(before + paths)
    ensures NoDup(before) ==> (issues == [] <==> NoDup(before + paths))
  {
    issues, after := [], seen;
    assert before + paths[..0] == before;
    for i := 0 to |paths|
      invariant after == Elems(before + paths[..i])
      invariant NoDup(before) ==> (issues == [] <==> NoDup(before + paths[..i]))
    {
      assert before + paths[..i + 1] == (before + paths[..i]) + [paths[i]];
      NoDupSnoc(before + paths[..i], paths[i]);
      if paths[i] in after {
        issues := issues + [OwnedTwice(paths[i])];
      }
      after := after + {paths[i]};
    }
    assert before + paths[..|paths|] == before + paths;
  }

  method CheckKinds(c: Setting, m: ArchitectureModule) returns (issues: seq<ContractIssue>)
    ensures issues == [] <==> PathsFit(c, m)
  {
    issues := [];
    for i := 0 to |m.sourcePaths|
      invariant issues == [] <==> forall k :: 0 <= k < i ==> IsSourcePath(c, m.sourcePaths[k])
    {
      if !IsSourcePath(c, m.sourcePaths[i]) { issues := issues + [BadSourcePath(m.id, m.sourcePaths[i])]; }
    }
    var sourceIssues := issues;
    for i := 0 to |m.assetPaths|
      invariant issues == [] <==> sourceIssues == [] && forall k :: 0 <= k < i ==> IsAssetPath(c, m.assetPaths[k])
    {
      if !IsAssetPath(c, m.assetPaths[i]) { issues := issues + [BadAssetPath(m.id, m.assetPaths[i])]; }
    }
    var pathIssues := issues;
    for i := 0 to |m.testPaths|
      invariant issues == [] <==> pathIssues == [] && forall k :: 0 <= k < i ==> IsTestPath(c, m.testPaths[k])
    {
      if !IsTestPath(c, m.testPaths[i]) { issues := issues + [BadTestPath(m.id, m.testPaths[i])]; }
    }
  }

  method FindOwners(m: ArchitectureModule, steps: seq<Step>) returns (owners: seq<Step>)
    ensures owners == OwnersOf(m, steps)
  {
    owners := [];
    for i := 0 to |steps|
      invariant owners == OwnersOf(m, steps[..i])
    {
      assert steps[..i + 1][..i] == steps[..i];
      if Owns(m, steps[i]) { owners := owners + [steps[i]]; }
    }
    assert steps[..|steps|] == steps;
  }

  method AllConnected(steps: seq<Step>, owners: seq<Step>, first: Step) returns (r: bool)
    ensures r <==> Connected(steps, owners, first)
  {
    var byId := ById(steps);
    for i := 0 to |owners|
      invariant forall k :: 0 <= k < i && owners[k].id != first.id ==> DependsOnStep(steps, owners[k], first.id)
    {
      if owners[i].id != first.id {
        var depends := StepTransitivelyDependsOn(owners[i], first.id, byId);
        if !depends {
          assert owners[i] in owners && !DependsOnStep(steps, owners[i], first.id);
          return false;
        }
      }
    }
    return true;
  }

  method SomeTestAfter(m: ArchitectureModule, steps: seq<Step>, target: string) returns (consumed: bool, after: bool)
    ensures consumed <==> exists t :: t in steps && Consumes(m, t)
    ensures after <==> TestedAfter(m, steps, target)
  {
    var byId := ById(steps);
    consumed, after := false, false;
    for i := 0 to |steps|
      invariant consumed <==> exists k :: 0 <= k < i && Consumes(m, steps[k])
      invariant after <==> exists k :: 0 <= k < i && Consumes(m, steps[k]) && DependsOnStep(steps, steps[k], target)
    {
      if Consumes(m, steps[i]) {
        consumed := true;
        var depends := StepTransitivelyDependsOn(steps[i], target, byId);
        assert depends <==> DependsOnStep(steps, steps[i], target);
        after := after || depends;
      }
    }
  }

  /** The part of the first loop that maps a module to its steps. */
  method CheckOwner(m: ArchitectureModule, steps: seq<Step>) returns (issues: seq<ContractIssue>, owner: Option<string>)
    ensures issues == [] <==> Owned(m, steps)
    ensures issues == [] ==> owner.Some? && OwnerIs(m, steps, owner.value)
  {
    var owners := FindOwners(m, steps);
    if owners == [] {
      return [NoCodeOwner(m.id)], None;
    }
    var first := Earliest(steps, owners);
    if exists s :: s in owners && s.id != first.id && IterationOf(s) == IterationOf(first) {
      return [DuplicateOwners(m.id)], None;
    }
    var connected := AllConnected(steps, owners, first);
    if !connected {
      return [DisconnectedOwners(m.id)], None;
    }
    issues := [];
    if !exists d :: d in steps && Authors(m, d) {
      issues := issues + [TestsNotAuthored(m.id)];
    }
    var consumed, after := SomeTestAfter(m, steps, first.id);
    if !consumed {
      issues := issues + [TestsNotConsumed(m.id)];
    } else if !after {
      issues := issues + [TestsBeforeCode(m.id)];
    }
    owner := Some(first.id);
  }

  lemma {:induction false} ModulesFitSnoc(
    c: Setting, before: seq<ArchitectureModule>, m: ArchitectureModule, steps: seq<Step>)
    ensures ModulesFit(c, before + [m], steps) <==>
      (&& NoDup(ModuleIds(before)) && NoDup(AllImplementation(before) + Implementation(m))
       && (forall x :: x in before ==> PathsFit(c, x) && Owned(x, steps))
       && m.id !in ModuleIds(before) && PathsFit(c, m) && Owned(m, steps))
  {
    var all := before + [m];
    assert all[..|all| - 1] == before;
    assert ModuleIds(all) == ModuleIds(before) + [m.id];
    NoDupSnoc(ModuleIds(before), m.id);
    assert m in all && forall x :: x in all <==> x in before || x == m;
  }

  /** The modules met so far, by the id of their first owner. */
  ghost predicate OwnedMap(
    modules: seq<ArchitectureModule>, steps: seq<Step>, owned: map<string, seq<ArchitectureModule>>)
  {
    forall id :: ModulesOf(modules, steps, id) == if id in owned then owned[id] else []
  }

  lemma {:induction false} OwnedMapSnoc(before: seq<ArchitectureModule>, m: ArchitectureModule, steps: seq<Step>,
    owned: map<string, seq<ArchitectureModule>>, id: string)
    requires OwnedMap(before, steps, owned) && OwnerIs(m, steps, id)
    ensures OwnedMap(before + [m], steps, owned[id := (if id in owned then owned[id] else []) + [m]])
  {
    assert (before + [m])[..|before|] == before;
  }

  /** One turn of the first loop. */
  method CheckModule(
    c: Setting, before: seq<ArchitectureModule>, m: ArchitectureModule, steps: seq<Step>, seen: set<string>)
    returns (issues: seq<ContractIssue>, after: set<string>, owner: Option<string>)
    requires seen == Elems(AllImplementation(before))
    ensures after == Elems(AllImplementation(before + [m]))
    ensures ModulesFit(c, before, steps) ==> (issues == [] <==> ModulesFit(c, before + [m], steps))
    ensures issues == [] ==> owner.Some? && OwnerIs(m, steps, owner.value)
  {
    ghost var impl := AllImplementation(before);
    assert (before + [m])[..|before|] == before;
    assert impl + m.sourcePaths + m.assetPaths == impl + Implementation(m);
    ModulesFitSnoc(c, before, m, steps);
    NoDupJoined(impl + m.sourcePaths, m.assetPaths);
    issues := if m.id in ModuleIds(before) then [DuplicateModuleId(m.id)] else [];
    var kinds := CheckKinds(c, m);
    var sources, seenSources := CheckPaths(m.sourcePaths, seen, impl);
    var assets, seenAll := CheckPaths(m.assetPaths, seenSources, impl + m.sourcePaths);
    after := seenAll;
    var owned, o := CheckOwner(m, steps);
    owner := o;
    issues := issues + kinds + sources + assets + owned;
  }

  method CheckModules(c: Setting, modules: seq<ArchitectureModule>, steps: seq<Step>)
    returns (issues: seq<ContractIssue>, owned: map<string, seq<ArchitectureModule>>)
    ensures issues == [] <==> ModulesFit(c, modules, steps)
    ensures issues == [] ==> OwnedMap(modules, steps, owned)
  {
    issues, owned := [], map[];
    var seen: set<string> := {};
    for i := 0 to |modules|
      invariant seen == Elems(AllImplementation(modules[..i]))
      invariant issues == [] <==> ModulesFit(c, modules[..i], steps)
      invariant issues == [] ==> OwnedMap(modules[..i], steps, owned)
    {
      var m := modules[i];
      assert modules[..i + 1] == modules[..i] + [m];
      PrefixFits(c, modules[..i], m, steps);
      var found, after, owner := CheckModule(c, modules[..i], m, steps, seen);
      seen := after;
      if issues == [] && found == [] {
        OwnedMapSnoc(modules[..i], m, steps, owned, owner.value);
      }
      issues := issues + found;
      if owner.Some? {
        owned := owned[owner.value := (if owner.value in owned then owned[owner.value] else []) + [m]];
      }
    }
    assert modules[..|modules|] == modules;
  }

  lemma {:induction false} PrefixFits(
    c: Setting, before: seq<ArchitectureModule>, m: ArchitectureModule, steps: seq<Step>)
    ensures ModulesFit(c, before + [m], steps) ==> ModulesFit(c, before, steps)
  {
    ModulesFitSnoc(c, before, m, steps);
    NoDupJoined(AllImplementation(before), Implementation(m));
  }

  method CheckDependencies(modules: seq<ArchitectureModule>) returns (issues: seq<ContractIssue>)
    ensures issues == [] <==> DependenciesFit(modules)
  {
    issues := [];
    var ids := ModuleIds(modules);
    for i := 0 to |modules|
      invariant issues == [] <==> forall k :: 0 <= k < i ==> LinksFit(modules[k], ids)
    {
      var found := CheckLinks(modules[i], ids);
      issues := issues + found;
    }
    if issues == [] {
      forall m | m in modules ensures LinksFit(m, ids) { var k :| 0 <= k < |modules| && modules[k] == m; }
    }
  }

  ghost predicate LinksFit(m: ArchitectureModule, ids: seq<string>) {
    forall d :: d in m.dependencies ==> d != m.id && d in ids
  }

  method CheckLinks(m: ArchitectureModule, ids: seq<string>) returns (issues: seq<ContractIssue>)
    ensures issues == [] <==> LinksFit(m, ids)
  {
    issues := [];
    for i := 0 to |m.dependencies|
      invariant issues == [] <==> forall k :: 0 <= k < i ==> m.dependencies[k] != m.id && m.dependencies[k] in ids
    {
      var d := m.dependencies[i];
      if d == m.id || d !in ids { issues := issues + [BadDependency(m.id, d)]; }
    }
    assert forall k :: 0 <= k < |m.dependencies| ==> m.dependencies[k] in m.dependencies;
    if issues == [] {
      forall d | d in m.dependencies ensures d != m.id && d in ids {
        var k :| 0 <= k < |m.dependencies| && m.dependencies[k] == d;
      }
    }
  }

  /** A step that owns several modules must name each of them in its sub-tasks. */
  ghost predicate StepFits(c: Setting, id: string, modules: seq<ArchitectureModule>) {
    |modules| > 1 ==> HasModuleSubTasks(c, id, modules)
  }

  method CheckStep(c: Setting, id: string, modules: seq<ArchitectureModule>) returns (fits: bool)
    ensures fits <==> StepFits(c, id, modules)
  {
    if |modules| <= 1 {
      return true;
    }
    var flat := FlattenSubTasks(c.subTasks(id));
    fits := forall m :: m in modules ==> NamesModule(c, flat, m);
  }

  method CheckSubTasks(c: Setting, owned: map<string, seq<ArchitectureModule>>) returns (issues: seq<ContractIssue>)
    ensures issues == [] <==> forall id :: id in owned ==> StepFits(c, id, owned[id])
  {
    issues := [];
    var left := owned.Keys;
    while left != {}
      invariant left <= owned.Keys
      invariant issues == [] <==> forall id :: id in owned && id !in left ==> StepFits(c, id, owned[id])
      decreases left
    {
      var id :| id in left;
      left := left - {id};
      var fits := CheckStep(c, id, owned[id]);
      if !fits { issues := issues + [SubTasksMissing(id)]; }
    }
  }

  lemma {:induction false} SubTasksByStep(
    c: Setting, modules: seq<ArchitectureModule>, steps: seq<Step>, owned: map<string, seq<ArchitectureModule>>)
    requires OwnedMap(modules, steps, owned)
    ensures SubTasksFit(c, modules, steps) <==> forall id :: id in owned ==> StepFits(c, id, owned[id])
  {
    forall id ensures ModulesOf(modules, steps, id) == if id in owned then owned[id] else [] {}
    if SubTasksFit(c, modules, steps) {
      forall id | id in owned ensures StepFits(c, id, owned[id]) { assert ModulesOf(modules, steps, id) == owned[id]; }
    }
  }

  method CheckUndesigned(
    c: Setting, modules: seq<ArchitectureModule>, steps: seq<Step>)
    returns (issues: seq<ContractIssue>)
    ensures issues == [] <==> NothingUndesigned(c, modules, steps)
  {
    issues := [];
    if !c.nonTrivial {
      return;
    }
    for i := 0 to |steps|
      invariant issues == [] <==>
                forall k, o :: 0 <= k < i && steps[k].phase == Code && o in steps[k].outputs ==> Designed(c, modules, o)
    {
      if steps[i].phase == Code {
        var found := CheckOutputs(c, modules, steps[i]);
        issues := issues + found;
      }
    }
  }

  method CheckOutputs(c: Setting, modules: seq<ArchitectureModule>, step: Step) returns (issues: seq<ContractIssue>)
    ensures issues == [] <==> forall o :: o in step.outputs ==> Designed(c, modules, o)
  {
    issues := [];
    for i := 0 to |step.outputs|
      invariant issues == [] <==> forall k :: 0 <= k < i ==> Designed(c, modules, step.outputs[k])
    {
      var output := step.outputs[i];
      if IsSourcePath(c, output) && !EndsWith(output, "/__init__.py") &&
        !exists m :: m in modules && output in m.sourcePaths {
        issues := issues + [NotDesigned(step.id, output)];
      }
    }
  }

  method ValidateArchitectureContract(
    c: Setting, modules: seq<ArchitectureModule>, steps: seq<Step>)
    returns (issues: seq<ContractIssue>)
    ensures issues == [] <==> ContractHolds(c, modules, steps)
  {
    var first, owned := CheckModules(c, modules, steps);
    var dependencies := CheckDependencies(modules);
    var subTasks := CheckSubTasks(c, owned);
    var undesigned := CheckUndesigned(c, modules, steps);
    if first == [] {
      SubTasksByStep(c, modules, steps, owned);
    }
    issues := first + dependencies + subTasks + undesigned;
  }

  // ---- What acceptance guarantees -------------------------------------------------------

  lemma {:induction false} PathOfModule(modules: seq<ArchitectureModule>, i: nat, p: string)
    requires i < |modules| && p in Implementation(modules[i])
    ensures p in AllImplementation(modules)
  {
    var n := |modules| - 1;
    if i < n { PathOfModule(modules[..n], i, p); }
  }

  /** No implementation path belongs to two modules, nor twice to one. */
  lemma {:induction false} ImplementationsDisjoint(modules: seq<ArchitectureModule>, i: nat, j: nat, p: string)
    requires NoDup(AllImplementation(modules)) && i < j < |modules| && p in Implementation(modules[i])
    ensures p !in Implementation(modules[j])
  {
    var n := |modules| - 1;
    NoDupJoined(AllImplementation(modules[..n]), Implementation(modules[n]));
    if j < n {
      ImplementationsDisjoint(modules[..n], i, j, p);
    } else {
      PathOfModule(modules[..n], i, p);
    }
  }

  lemma {:induction false} LastIndexUnique(steps: seq<Step>, i: nat)
    requires UniqueIds(steps) && i < |steps|
    ensures LastIndex(steps, steps[i].id) == i
  {
    var n := |steps| - 1;
    if i < n {
      assert steps[i].id != steps[n].id;
      LastIndexUnique(steps[..n], i);
    }
  }

  /**
   * The step at `i` owns the module first: before every other owner, alone in its iteration, and upstream of the
   * rest.
   */
  ghost predicate FirstOwnerAt(m: ArchitectureModule, steps: seq<Step>, i: nat) {
    && i < |steps| && Implements(m, steps[i])
    && (forall j :: 0 <= j < |steps| && Implements(m, steps[j]) && j != i ==>
          i < j && IterationOf(steps[j]) != IterationOf(steps[i]) && DependsOnStep(steps, steps[j], steps[i].id))
    && (exists d :: d in steps && d.phase == HighLevelDesign && AllCovered(m.testPaths, d.outputs))
    && (exists t :: t in steps && TestsModule(m, t) && DependsOnStep(steps, t, steps[i].id))
  }

  ghost predicate AllCovered(paths: seq<string>, listed: seq<string>) {
    forall p :: p in paths ==> PathCoveredByOutputs(p, listed)
  }

  /** A CODE step whose outputs cover the sources and assets of the module. */
  ghost predicate Implements(m: ArchitectureModule, s: Step) {
    s.phase == Code && AllCovered(m.sourcePaths + m.assetPaths, s.outputs)
  }

  /** A MODULE_TEST step whose inputs cover all tests of the module. */
  ghost predicate TestsModule(m: ArchitectureModule, s: Step) {
    s.phase == ModuleTest && AllCovered(m.testPaths, s.inputs)
  }

  /**
   * Each module of an accepted contract has exactly one CODE owner in its first owning iteration, every later
   * owner transitively depends on it, and so does a MODULE_TEST step that consumes all its tests, which a
   * HIGH_LEVEL_DESIGN step authored.
   */
  lemma {:induction false} OwnershipIsComplete(
    c: Setting, modules: seq<ArchitectureModule>, steps: seq<Step>, m: ArchitectureModule)
    returns (i: nat)
    requires ContractHolds(c, modules, steps) && UniqueIds(steps) && m in modules
    ensures FirstOwnerAt(m, steps, i)
  {
    assert Owned(m, steps);
    var owners := OwnersOf(m, steps);
    var first := Earliest(steps, owners);
    assert first in owners;
    i :| 0 <= i < |steps| && steps[i] == first;
    LastIndexUnique(steps, i);
    forall s ensures Owns(m, s) <==> Implements(m, s) {}
    forall s ensures Consumes(m, s) <==> TestsModule(m, s) {}
    forall j | 0 <= j < |steps| && Implements(m, steps[j]) && j != i
      ensures i < j && IterationOf(steps[j]) != IterationOf(steps[i]) && DependsOnStep(steps, steps[j], steps[i].id)
    {
      assert steps[j] in owners && steps[j].id != first.id;
      LastIndexUnique(steps, j);
    }
  }

  /**
   * Where the files of a module have to lie, and which have to be code: sources and assets under `src/`, tests under
   * `tests/`; sources and tests are code files, assets are files that are none.
   */
  lemma {:induction false} KindsMean(c: Setting, p: string)
    ensures IsSourcePath(c, p) <==> |p| >= 4 && p[..4] == "src/" && c.codeFile(p)
    ensures IsAssetPath(c, p) <==> |p| > 4 && p[..4] == "src/" && p[|p| - 1] != '/' && !c.codeFile(p)
    ensures IsTestPath(c, p) <==> |p| >= 6 && p[..6] == "tests/" && c.codeFile(p)
  {
    if |p| > 0 { assert p[|p| - 1..] == [p[|p| - 1]]; }
    if |p| >= 4 && p[..4] == "src/" { assert p[3] == p[..4][3] == '/'; }
  }

  lemma {:induction false} TwoElements<T>(s: seq<T>, a: T, b: T)
    requires a in s && b in s && a != b
    ensures |s| > 1
  {
    var i, j :| 0 <= i < |s| && 0 <= j < |s| && s[i] == a && s[j] == b;
    assert i != j;
  }

  /** A step that is first owner of several modules names each of them, or one of its files, in its sub-tasks. */
  lemma {:induction false} SharedStepNamesModules(
    c: Setting, modules: seq<ArchitectureModule>, steps: seq<Step>, id: string,
    m: ArchitectureModule, n: ArchitectureModule)
    requires ContractHolds(c, modules, steps) && m in modules && n in modules && m != n
    requires OwnerIs(m, steps, id) && OwnerIs(n, steps, id)
    ensures IsNamed(c, id, m)
  {
    var owned := ModulesOf(modules, steps, id);
    hide OwnerIs, ModulesFit, DependenciesFit, NothingUndesigned, Preorder;
    assert m in owned && n in owned;
    TwoElements(owned, m, n);
    assert HasModuleSubTasks(c, id, owned);
  }

  /** The text of the sub-tasks contains the id of the module or the path of one of its files. */
  ghost predicate IsNamed(c: Setting, id: string, m: ArchitectureModule) {
    var text := Preorder(c.subTasks(id));
    c.mentions(text, m.id) || exists p :: p in m.sourcePaths + m.assetPaths && c.mentions(text, p)
  }

  /** All that is asked of sub-tasks: a step that is first owner of several modules names each of them. */
  lemma {:induction false} SubTasksMean(c: Setting, modules: seq<ArchitectureModule>, steps: seq<Step>)
    ensures SubTasksFit(c, modules, steps) <==>
            forall id, m :: m in modules && OwnerIs(m, steps, id) && |ModulesOf(modules, steps, id)| > 1 ==>
              IsNamed(c, id, m)
  {
    hide OwnerIs, Preorder;
    forall id, m ensures NamesModule(c, Preorder(c.subTasks(id)), m) <==> IsNamed(c, id, m) {}
    forall id ensures HasModuleSubTasks(c, id, ModulesOf(modules, steps, id)) <==>
                      forall m :: m in modules && OwnerIs(m, steps, id) ==> IsNamed(c, id, m) {
      assert forall m :: m in ModulesOf(modules, steps, id) <==> m in modules && OwnerIs(m, steps, id);
    }
  }

  /** The first owner is determined by the plan alone. */
  lemma {:induction false} FirstOwnerUnique(m: ArchitectureModule, steps: seq<Step>, i: nat, j: nat)
    requires FirstOwnerAt(m, steps, i) && FirstOwnerAt(m, steps, j)
    ensures i == j
  {
    assert Implements(m, steps[i]) && Implements(m, steps[j]);
  }

  /**
   * In a nontrivial plan every source file a CODE step outputs, package markers aside, belongs to exactly one module.
   */
  lemma {:induction false} EverySourceHasOneModule(
    c: Setting, modules: seq<ArchitectureModule>, steps: seq<Step>, s: Step, output: string)
    returns (i: nat)
    requires ContractHolds(c, modules, steps) && c.nonTrivial && s in steps && s.phase == Code && output in s.outputs
    requires IsSourcePath(c, output) && !EndsWith(output, "/__init__.py")
    ensures i < |modules| && output in modules[i].sourcePaths
    ensures forall j :: 0 <= j < |modules| && j != i ==> output !in Implementation(modules[j])
  {
    assert Designed(c, modules, output);
    var m :| m in modules && output in m.sourcePaths;
    i :| 0 <= i < |modules| && modules[i] == m;
    assert output in Implementation(modules[i]);
    forall j | 0 <= j < |modules| && j != i ensures output !in Implementation(modules[j]) {
      if output in Implementation(modules[j]) {
        if i < j {
          ImplementationsDisjoint(modules, i, j, output);
        } else {
          ImplementationsDisjoint(modules, j, i, output);
        }
      }
    }
  }

  /**
   * In a scheduled run the module's first owner runs before every other owner and before a test that consumes all its
   * tests.
   */
  ghost predicate BuiltThenTested(m: ArchitectureModule, out: seq<Step>, a: nat) {
    && a < |out| && Implements(m, out[a])
    && (forall k :: 0 <= k < |out| && Implements(m, out[k]) && k != a ==> a < k)
    && exists b :: a < b < |out| && TestsModule(m, out[b])
  }

  lemma {:induction false} RunsAfter(plan: PlanLint.Plan, rank: string -> int, out: seq<Step>, a: nat, k: nat)
    requires UniqueIds(plan.steps) && ScheduledRun.Scheduled(plan, rank, out) && UniqueIds(out) && a < |out|
    requires k < |out|
    requires DependsOnStep(plan.steps, out[k], out[a].id)
    ensures a < k
  {
    ScheduledRun.UpstreamRunsEarlier(plan, rank, out, k, out[a].id);
    var n :| 0 <= n < k && out[..k][n].id == out[a].id;
    ScheduledRun.DistinctIds(out, a, n);
  }

  lemma {:induction false} OtherOwnersLater(
    m: ArchitectureModule, plan: PlanLint.Plan, rank: string -> int, out: seq<Step>, i: nat, a: nat, k: nat)
    requires UniqueIds(plan.steps) && ScheduledRun.Scheduled(plan, rank, out) && UniqueIds(out)
    requires FirstOwnerAt(m, plan.steps, i) && a < |out| && out[a] == plan.steps[i] && k < |out|
    requires Implements(m, out[k])
    requires k != a
    ensures a < k
  {
    TopoSort.InPlan(plan.steps, out);
    assert out[k] in plan.steps;
    var j :| 0 <= j < |plan.steps| && plan.steps[j] == out[k];
    assert out[a].id != out[k].id by {
      if out[a].id == out[k].id { ScheduledRun.DistinctIds(out, a, k); }
    }
    RunsAfter(plan, rank, out, a, k);
  }

  lemma {:induction false} SomeTestLater(
    m: ArchitectureModule, plan: PlanLint.Plan, rank: string -> int, out: seq<Step>, a: nat)
    returns (b: nat)
    requires UniqueIds(plan.steps) && ScheduledRun.Scheduled(plan, rank, out) && UniqueIds(out)
    requires a < |out|
    requires exists t :: t in plan.steps && TestsModule(m, t) && DependsOnStep(plan.steps, t, out[a].id)
    ensures a < b < |out| && TestsModule(m, out[b])
  {
    TopoSort.InPlan(plan.steps, out);
    var t :| t in plan.steps && TestsModule(m, t) && DependsOnStep(plan.steps, t, out[a].id);
    assert t in out;
    b :| 0 <= b < |out| && out[b] == t;
    RunsAfter(plan, rank, out, a, b);
  }

  lemma {:induction false} ModulesBuiltThenTested(c: Setting, modules: seq<ArchitectureModule>, plan: PlanLint.Plan,
          executable: string -> bool,
    rank: string -> int, out: seq<Step>, m: ArchitectureModule) returns (a: nat)
    requires PlanLint.Accepts(plan, executable) && ScheduledRun.Scheduled(plan, rank, out)
    requires ContractHolds(c, modules, plan.steps) && m in modules
    ensures BuiltThenTested(m, out, a)
  {
    var i := OwnershipIsComplete(c, modules, plan.steps, m);
    TopoSort.UniqueOutput(plan.steps, out);
    TopoSort.InPlan(plan.steps, out);
    assert plan.steps[i] in out;
    a :| 0 <= a < |out| && out[a] == plan.steps[i];
    forall k | 0 <= k < |out| && Implements(m, out[k]) && k != a ensures a < k {
      OtherOwnersLater(m, plan, rank, out, i, a, k);
    }
    var b := SomeTestLater(m, plan, rank, out, a);
  }
}
