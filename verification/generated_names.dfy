/** What the pairing pass returns, read off the plan it starts from, and when the names it generates are new. */
module GeneratedNames {
  import opened Basics
  import opened Plans
  import opened PlanLint
  import opened VModelDependencies
  import opened TestPairing

  // ---- The pass in closed form ----------------------------------------------------------

  /** The source phase is present, and neither it nor its test phase lists an executable test. */
  predicate Generates(r: Rules, plan: seq<Step>, g: PairGroup) {
    var sources, tests := StepsOf(plan, g.source, g.iteration), StepsOf(plan, g.test, g.iteration);
    sources != [] && ExecutableOutputs(r, sources) == [] && Claims(r, tests) == []
  }

  function NameFor(r: Rules, plan: seq<Step>, g: PairGroup, used: set<string>): (name: string)
    requires StepsOf(plan, g.source, g.iteration) != []
    ensures name !in used
  {
    UniquePath(r, StepsOf(plan, g.source, g.iteration)[0].id, g.test, used)
  }

  /** The outputs of the plan and the names generated for these pairs, in order. */
  function UsedAfter(r: Rules, plan: seq<Step>, groups: seq<PairGroup>): (used: set<string>)
    ensures OutputsOf(plan) <= used
  {
    if groups == [] then OutputsOf(plan)
    else
      var n := |groups| - 1;
      var before := UsedAfter(r, plan, groups[..n]);
      if Generates(r, plan, groups[n]) then before + {NameFor(r, plan, groups[n], before)} else before
  }

  /** The name pair `k` gets, if it gets one. */
  function NameAt(r: Rules, plan: seq<Step>, groups: seq<PairGroup>, k: nat): (name: Option<string>)
    requires k < |groups|
  {
    if Generates(r, plan, groups[k]) then Some(NameFor(r, plan, groups[k], UsedAfter(r, plan, groups[..k]))) else None
  }

  /** The tests of pair `k`, from the plan as it was before the pass. */
  function AssetsAt(r: Rules, plan: seq<Step>, groups: seq<PairGroup>, k: nat): Assets
    requires k < |groups|
  {
    var g := groups[k];
    var sources, tests := StepsOf(plan, g.source, g.iteration), StepsOf(plan, g.test, g.iteration);
    AssetsFrom(ExecutableOutputs(r, sources), Claims(r, tests), NameAt(r, plan, groups, k))
  }

  predicate InGroup(s: Step, g: PairGroup) {
    InPhase(s, g.iteration, g.source) || InPhase(s, g.iteration, g.test)
  }

  /** Step `i`, which belongs to pair `k`, after the pass. */
  function ClosedStep(r: Rules, plan: seq<Step>, groups: seq<PairGroup>, k: nat, i: nat): Step
    requires k < |groups| && i < |plan|
  {
    var g := groups[k];
    if StepsOf(plan, g.source, g.iteration) == [] then plan[i]
    else PairedStep(r, plan[i], i == FirstOf(plan, g.iteration, g.source), InPhase(plan[i], g.iteration, g.test),
      AssetsAt(r, plan, groups, k))
  }

  /** `st` is the state after these pairs. */
  ghost predicate RunTo(r: Rules, plan: seq<Step>, groups: seq<PairGroup>, st: PairState) {
    && SameIdentity(plan, st.steps) && st.used == UsedAfter(r, plan, groups)
    && (forall k, i :: 0 <= k < |groups| && 0 <= i < |plan| && InGroup(plan[i], groups[k]) ==>
          st.steps[i] == ClosedStep(r, plan, groups, k, i))
    && (forall h :: WellFormed(h) && h !in groups ==> SameIn(plan, st.steps, h.iteration, h.source, h.test))
  }

  lemma {:induction false} SameStepsOf(a: seq<Step>, b: seq<Step>, iteration: string, phase: Phase)
    requires SameIdentity(a, b)
    requires forall i :: 0 <= i < |a| && InPhase(a[i], iteration, phase) ==> b[i] == a[i]
    ensures StepsOf(b, phase, iteration) == StepsOf(a, phase, iteration)
  {
    if a != [] {
      var n := |a| - 1;
      SameStepsOf(a[..n], b[..n], iteration, phase);
      assert InPhase(a[n], iteration, phase) <==> InPhase(b[n], iteration, phase);
    }
  }

  lemma {:induction false} SameFirstOf(a: seq<Step>, b: seq<Step>, iteration: string, phase: Phase)
    requires SameIdentity(a, b)
    ensures FirstOf(b, iteration, phase) == FirstOf(a, iteration, phase)
  {
    if a != [] { SameFirstOf(a[..|a| - 1], b[..|a| - 1], iteration, phase); }
  }

  /** A pair whose own phases are untouched so far does what the first plan says it does. */
  lemma {:induction false} PairFromPlan(r: Rules, plan: seq<Step>, st: PairState, g: PairGroup)
    requires SameIn(plan, st.steps, g.iteration, g.source, g.test)
    ensures
      var sources, tests := StepsOf(plan, g.source, g.iteration), StepsOf(plan, g.test, g.iteration);
      var name := if Generates(r, plan, g) then Some(NameFor(r, plan, g, st.used)) else None;
      PairPhase(r, st, g.iteration, g.source, g.test) ==
        if sources == [] then st
        else
          PairState(
            PairedSteps(r, st.steps, FirstOf(plan, g.iteration, g.source), g.iteration, g.test,
              AssetsFrom(ExecutableOutputs(r, sources), Claims(r, tests), name)),
            if name.Some? then st.used + {name.value} else st.used)
  {
    SameStepsOf(plan, st.steps, g.iteration, g.source);
    SameStepsOf(plan, st.steps, g.iteration, g.test);
    SameFirstOf(plan, st.steps, g.iteration, g.source);
  }

  lemma {:induction false} PrefixClosed(r: Rules, plan: seq<Step>, groups: seq<PairGroup>, g: PairGroup, k: nat, i: nat)
    requires k < |groups| && i < |plan|
    ensures ClosedStep(r, plan, groups + [g], k, i) == ClosedStep(r, plan, groups, k, i)
  {
    assert (groups + [g])[..k] == groups[..k];
  }

  lemma {:induction false} LastClosed(r: Rules, plan: seq<Step>, groups: seq<PairGroup>, g: PairGroup, i: nat)
    requires i < |plan|
    ensures
      var sources, tests := StepsOf(plan, g.source, g.iteration), StepsOf(plan, g.test, g.iteration);
      var name := if Generates(r, plan, g) then Some(NameFor(r, plan, g, UsedAfter(r, plan, groups))) else None;
      ClosedStep(r, plan, groups + [g], |groups|, i) ==
        if sources == [] then plan[i]
        else PairedStep(r, plan[i], i == FirstOf(plan, g.iteration, g.source), InPhase(plan[i], g.iteration, g.test),
          AssetsFrom(ExecutableOutputs(r, sources), Claims(r, tests), name))
  {
    assert (groups + [g])[..|groups|] == groups;
  }

  lemma {:induction false} UsedNext(r: Rules, plan: seq<Step>, groups: seq<PairGroup>, g: PairGroup)
    ensures
      var used := UsedAfter(r, plan, groups);
      UsedAfter(r, plan, groups + [g]) ==
        if Generates(r, plan, g) then used + {NameFor(r, plan, g, used)} else used
  {
    assert (groups + [g])[..|groups|] == groups;
  }

  /** The pair leaves the steps of other pairs alone. */
  lemma {:induction false} PairLeavesOthers(r: Rules, plan: seq<Step>, st: PairState, g: PairGroup, i: nat)
    requires SameIn(plan, st.steps, g.iteration, g.source, g.test) && i < |plan| && !InGroup(plan[i], g)
    ensures PairPhase(r, st, g.iteration, g.source, g.test).steps[i] == st.steps[i]
  {
    assert !InPhase(st.steps[i], g.iteration, g.test) && !InPhase(st.steps[i], g.iteration, g.source);
    OwnerIsFirst(st.steps, g.iteration, g.source);
  }

  lemma {:induction false} PairKeepsIdentity(r: Rules, st: PairState, g: PairGroup)
    ensures SameIdentity(st.steps, PairPhase(r, st, g.iteration, g.source, g.test).steps)
  {
  }

  lemma {:induction false} ClosedNext(
    r: Rules, plan: seq<Step>, groups: seq<PairGroup>, st: PairState, g: PairGroup, k: nat, i: nat)
    requires RunTo(r, plan, groups, st) && WellFormed(g) && g !in groups && forall h :: h in groups ==> WellFormed(h)
    requires k <= |groups| && i < |plan| && InGroup(plan[i], (groups + [g])[k])
    ensures PairPhase(r, st, g.iteration, g.source, g.test).steps[i] == ClosedStep(r, plan, groups + [g], k, i)
  {
    if k < |groups| {
      GroupsApart(g, groups[k]);
      PairLeavesOthers(r, plan, st, g, i);
      PrefixClosed(r, plan, groups, g, k, i);
    } else {
      PairFromPlan(r, plan, st, g);
      LastClosed(r, plan, groups, g, i);
    }
  }

  lemma {:induction false} OthersNext(
    r: Rules, plan: seq<Step>, groups: seq<PairGroup>, st: PairState, g: PairGroup, h: PairGroup)
    requires RunTo(r, plan, groups, st) && WellFormed(g) && g !in groups
    requires WellFormed(h) && h !in groups && h != g
    ensures SameIn(plan, PairPhase(r, st, g.iteration, g.source, g.test).steps, h.iteration, h.source, h.test)
  {
    GroupsApart(g, h);
    PairKeepsIdentity(r, st, g);
    forall i | 0 <= i < |plan| && InGroup(plan[i], h)
      ensures PairPhase(r, st, g.iteration, g.source, g.test).steps[i] == plan[i]
    {
      PairLeavesOthers(r, plan, st, g, i);
    }
  }

  lemma {:induction false} RunNext(r: Rules, plan: seq<Step>, groups: seq<PairGroup>, st: PairState, g: PairGroup)
    requires RunTo(r, plan, groups, st) && WellFormed(g) && g !in groups && forall h :: h in groups ==> WellFormed(h)
    ensures RunTo(r, plan, groups + [g], PairPhase(r, st, g.iteration, g.source, g.test))
  {
    var out := PairPhase(r, st, g.iteration, g.source, g.test);
    assert SameIdentity(plan, out.steps) by { PairKeepsIdentity(r, st, g); }
    UsedInStep(r, plan, groups, st, g);
    forall k, i | 0 <= k < |groups + [g]| && 0 <= i < |plan| && InGroup(plan[i], (groups + [g])[k])
      ensures out.steps[i] == ClosedStep(r, plan, groups + [g], k, i)
    {
      ClosedNext(r, plan, groups, st, g, k, i);
    }
    forall h | WellFormed(h) && h !in groups + [g] ensures SameIn(plan, out.steps, h.iteration, h.source, h.test) {
      OthersNext(r, plan, groups, st, g, h);
    }
  }

  lemma {:induction false} UsedInStep(r: Rules, plan: seq<Step>, groups: seq<PairGroup>, st: PairState, g: PairGroup)
    requires SameIn(plan, st.steps, g.iteration, g.source, g.test) && st.used == UsedAfter(r, plan, groups)
    ensures PairPhase(r, st, g.iteration, g.source, g.test).used == UsedAfter(r, plan, groups + [g])
  {
    PairFromPlan(r, plan, st, g);
    UsedNext(r, plan, groups, g);
  }

  lemma {:induction false} PairAllLast(r: Rules, st: PairState, groups: seq<PairGroup>, g: PairGroup)
    ensures PairAll(r, st, groups + [g]) ==
            PairPhase(r, PairAll(r, st, groups), g.iteration, g.source, g.test)
    decreases |groups|
  {
    if groups == [] {
      assert groups + [g] == [g] && [g][1..] == [];
    } else {
      assert (groups + [g])[1..] == groups[1..] + [g];
      PairAllLast(r, PairPhase(r, st, groups[0].iteration, groups[0].source, groups[0].test), groups[1..], g);
    }
  }

  lemma {:induction false} RunsTo(r: Rules, plan: seq<Step>, groups: seq<PairGroup>)
    requires NoDup(groups) && forall h :: h in groups ==> WellFormed(h)
    ensures RunTo(r, plan, groups, PairAll(r, PairState(plan, OutputsOf(plan)), groups))
  {
    if groups == [] {
    } else {
      var init, g := groups[..|groups| - 1], groups[|groups| - 1];
      assert groups == init + [g];
      assert g in groups;
      RunsTo(r, plan, init);
      PairAllLast(r, PairState(plan, OutputsOf(plan)), init, g);
      RunNext(r, plan, init, PairAll(r, PairState(plan, OutputsOf(plan)), init), g);
    }
  }

  lemma {:induction false} GroupsDistinct(iterations: seq<string>)
    requires NoDup(iterations)
    ensures NoDup(Groups(iterations))
    ensures forall g :: g in Groups(iterations) ==> g.iteration in iterations
  {
    if iterations == [] {
    } else {
      var own, rest := GroupsOf(iterations[0]), Groups(iterations[1..]);
      GroupsDistinct(iterations[1..]);
      forall i, j | 0 <= i < j < |own + rest| ensures (own + rest)[i] != (own + rest)[j] {
        if i < 4 && j >= 4 { assert (own + rest)[j] in rest; }
      }
    }
  }

  /** The pairs of a plan, in the order the pass takes them. */
  function PairsOf(plan: seq<Step>): seq<PairGroup> {
    Groups(IterationIds(plan))
  }

  lemma {:induction false} PairsOfPlan(plan: seq<Step>)
    ensures NoDup(PairsOf(plan)) && forall g :: g in PairsOf(plan) ==> WellFormed(g)
  {
    GroupsDistinct(IterationIds(plan));
    GroupsWellFormed(IterationIds(plan));
  }

  /** Every step belongs to exactly one pair of its plan. */
  lemma {:induction false} PairOfStep(plan: seq<Step>, i: nat) returns (k: nat)
    requires i < |plan|
    ensures k < |PairsOf(plan)| && InGroup(plan[i], PairsOf(plan)[k])
    ensures forall m :: 0 <= m < |PairsOf(plan)| && InGroup(plan[i], PairsOf(plan)[m]) ==> m == k
  {
    var it := IterationOf(plan[i]);
    assert it in IterationIds(plan);
    PairsOfPlan(plan);
    GroupsWellFormed(IterationIds(plan));
    var g := GroupOfPhase(it, plan[i].phase);
    assert g in PairsOf(plan);
    k :| 0 <= k < |PairsOf(plan)| && PairsOf(plan)[k] == g;
    forall n | 0 <= n < |PairsOf(plan)| && InGroup(plan[i], PairsOf(plan)[n]) ensures n == k {
      GroupsApart(PairsOf(plan)[n], g);
    }
  }

  lemma {:induction false} GroupOfPhase(it: string, phase: Phase) returns (g: PairGroup)
    ensures g.iteration == it && (g.source == phase || g.test == phase)
    ensures exists m :: 0 <= m < 4 && GroupsOf(it)[m] == g
  {
    g := match phase
      case RequirementAnalysis => GroupsOf(it)[0]
      case FunctionalTest => GroupsOf(it)[0]
      case HighLevelDesign => GroupsOf(it)[1]
      case ModuleTest => GroupsOf(it)[1]
      case DetailedDesign => GroupsOf(it)[2]
      case IntegrationTest => GroupsOf(it)[2]
      case Code => GroupsOf(it)[3]
      case UnitTest => GroupsOf(it)[3];
  }

  /** The pass in closed form: each step is rewritten by the one pair it belongs to, from the cleaned plan alone. */
  lemma {:induction false} PairedClosedForm(r: Rules, steps: seq<Step>, i: nat, k: nat)
    requires i < |steps| && k < |PairsOf(Cleaned(r, steps))|
    requires InGroup(Cleaned(r, steps)[i], PairsOf(Cleaned(r, steps))[k])
    ensures Paired(r, steps)[i] == ClosedStep(r, Cleaned(r, steps), PairsOf(Cleaned(r, steps)), k, i)
  {
    var plan := Cleaned(r, steps);
    PairsOfPlan(plan);
    RunsTo(r, plan, PairsOf(plan));
  }

  // ---- When the generated names are new -------------------------------------------------

  /** `x` is an executable test that a test step of the pair lists as an input, the source phase being present. */
  ghost predicate Declares(r: Rules, plan: seq<Step>, g: PairGroup, x: string) {
    StepsOf(plan, g.source, g.iteration) != [] && r.executable(x) &&
    exists i :: 0 <= i < |plan| && InPhase(plan[i], g.iteration, g.test) && x in plan[i].inputs
  }

  ghost predicate DeclaredIn(r: Rules, plan: seq<Step>, groups: seq<PairGroup>, x: string) {
    exists g :: g in groups && Declares(r, plan, g, x)
  }

  /** The name the pair gets in this state, if it gets one. */
  function InventedAt(r: Rules, st: PairState, g: PairGroup): Option<string> {
    var sources, tests := StepsOf(st.steps, g.source, g.iteration), StepsOf(st.steps, g.test, g.iteration);
    if sources == [] then None else Invented(r, sources, tests, g.test, st.used)
  }

  /** No generated name is, at the moment it is assigned, an output of some step already. */
  ghost predicate GeneratesFresh(r: Rules, steps: seq<Step>) {
    var pairs := PairsOf(Cleaned(r, steps));
    forall j :: 0 <= j < |pairs| ==> FreshAt(r, PairAll(r, Start(r, steps), pairs[..j]), pairs[j])
  }

  ghost predicate FreshAt(r: Rules, st: PairState, g: PairGroup) {
    InventedAt(r, st, g).Some? ==> InventedAt(r, st, g).value !in OutputsOf(st.steps)
  }

  lemma {:induction false} OutputListed(steps: seq<Step>, x: string) returns (i: nat)
    requires x in OutputsOf(steps)
    ensures i < |steps| && x in steps[i].outputs
  {
    var s :| s in steps && x in s.outputs;
    i :| 0 <= i < |steps| && steps[i] == s;
  }

  lemma {:induction false} NewOutput(r: Rules, st: PairState, g: PairGroup, i: nat, x: string)
    requires i < |st.steps| && x !in st.steps[i].outputs
    requires x in PairPhase(r, st, g.iteration, g.source, g.test).steps[i].outputs
    ensures
      var sources, tests := StepsOf(st.steps, g.source, g.iteration), StepsOf(st.steps, g.test, g.iteration);
      && sources != []
      && x in AssetsFrom(ExecutableOutputs(r, sources), Claims(r, tests), InventedAt(r, st, g)).toOwner
  {
  }

  lemma {:induction false} NewOutputIs(r: Rules, st: PairState, g: PairGroup, x: string)
    requires
      var sources, tests := StepsOf(st.steps, g.source, g.iteration), StepsOf(st.steps, g.test, g.iteration);
      && sources != []
      && x in AssetsFrom(ExecutableOutputs(r, sources), Claims(r, tests), InventedAt(r, st, g)).toOwner
    ensures x in OutputsOf(st.steps) || Declares(r, st.steps, g, x) || InventedAt(r, st, g) == Some(x)
  {
    var sources, tests := StepsOf(st.steps, g.source, g.iteration), StepsOf(st.steps, g.test, g.iteration);
    AssetMembers(ExecutableOutputs(r, sources), Claims(r, tests), InventedAt(r, st, g));
    if InventedAt(r, st, g) != Some(x) {
      ClaimedCollected(r, st.steps, g.iteration, g.test, x);
      var k :| 0 <= k < |st.steps| && InPhase(st.steps[k], g.iteration, g.test) &&
        (x in st.steps[k].outputs || x in st.steps[k].inputs);
      assert st.steps[k] in st.steps;
    }
  }

  /** A pair adds to the outputs of the plan only what its test steps declare and the name it generates. */
  lemma {:induction false} OutputsFrom(r: Rules, st: PairState, g: PairGroup, x: string)
    requires x in OutputsOf(PairPhase(r, st, g.iteration, g.source, g.test).steps)
    ensures x in OutputsOf(st.steps) || Declares(r, st.steps, g, x) || InventedAt(r, st, g) == Some(x)
  {
    var i := OutputListed(PairPhase(r, st, g.iteration, g.source, g.test).steps, x);
    if x in st.steps[i].outputs {
      assert st.steps[i] in st.steps;
    } else {
      NewOutput(r, st, g, i, x);
      NewOutputIs(r, st, g, x);
    }
  }

  /** Every asset of the pair is an output of a source step afterwards. */
  lemma {:induction false} AssetsKept(r: Rules, st: PairState, g: PairGroup, x: string)
    requires g.source != g.test && StepsOf(st.steps, g.source, g.iteration) != []
    requires
      || Owned(r, st.steps, g.iteration, g.source, x)
      || Claimed(r, st.steps, g.iteration, g.test, x)
      || InventedAt(r, st, g) == Some(x)
    ensures x in OutputsOf(PairPhase(r, st, g.iteration, g.source, g.test).steps)
  {
    var out := PairPhase(r, st, g.iteration, g.source, g.test);
    var sources, tests := StepsOf(st.steps, g.source, g.iteration), StepsOf(st.steps, g.test, g.iteration);
    AssetMembers(ExecutableOutputs(r, sources), Claims(r, tests), InventedAt(r, st, g));
    ClaimedCollected(r, st.steps, g.iteration, g.test, x);
    OwnedCollected(r, st.steps, g.iteration, g.source, x);
    OwnerIsFirst(st.steps, g.iteration, g.source);
    if Owned(r, st.steps, g.iteration, g.source, x) {
      var k :| 0 <= k < |st.steps| && InPhase(st.steps[k], g.iteration, g.source) && x in st.steps[k].outputs;
      assert x in out.steps[k].outputs && out.steps[k] in out.steps;
    } else {
      var k := FirstOf(st.steps, g.iteration, g.source);
      assert x in out.steps[k].outputs && out.steps[k] in out.steps;
    }
  }

  lemma {:induction false} OutputsKept(r: Rules, st: PairState, g: PairGroup, x: string)
    requires g.source != g.test
    requires x in OutputsOf(st.steps) || Declares(r, st.steps, g, x) || InventedAt(r, st, g) == Some(x)
    ensures x in OutputsOf(PairPhase(r, st, g.iteration, g.source, g.test).steps)
  {
    var out := PairPhase(r, st, g.iteration, g.source, g.test);
    if StepsOf(st.steps, g.source, g.iteration) != [] {
      if x in OutputsOf(st.steps) {
        var i := OutputListed(st.steps, x);
        if InPhase(st.steps[i], g.iteration, g.test) && r.executable(x) {
          assert Claimed(r, st.steps, g.iteration, g.test, x);
          AssetsKept(r, st, g, x);
        } else {
          assert x in out.steps[i].outputs && out.steps[i] in out.steps;
        }
      } else {
        AssetsKept(r, st, g, x);
      }
    }
  }

  lemma {:induction false} SameDeclared(r: Rules, plan: seq<Step>, steps: seq<Step>, g: PairGroup, x: string)
    requires SameIn(plan, steps, g.iteration, g.source, g.test)
    ensures Declares(r, steps, g, x) <==> Declares(r, plan, g, x)
  {
    SameStepsOf(plan, steps, g.iteration, g.source);
    assert forall i :: 0 <= i < |plan| ==>
             (InPhase(steps[i], g.iteration, g.test) <==> InPhase(plan[i], g.iteration, g.test));
  }

  lemma {:induction false} SameInvented(r: Rules, plan: seq<Step>, st: PairState, g: PairGroup)
    requires SameIn(plan, st.steps, g.iteration, g.source, g.test)
    ensures InventedAt(r, st, g) == if Generates(r, plan, g) then Some(NameFor(r, plan, g, st.used)) else None
  {
    SameStepsOf(plan, st.steps, g.iteration, g.source);
    SameStepsOf(plan, st.steps, g.iteration, g.test);
  }

  lemma {:induction false} DeclaredNext(r: Rules, plan: seq<Step>, groups: seq<PairGroup>, g: PairGroup, x: string)
    ensures DeclaredIn(r, plan, groups + [g], x) <==> DeclaredIn(r, plan, groups, x) || Declares(r, plan, g, x)
  {
    if DeclaredIn(r, plan, groups, x) {
      var h :| h in groups && Declares(r, plan, h, x);
      assert h in groups + [g];
    }
    assert g in groups + [g];
  }

  /** `x` is an output exactly when it is used as a name or declared. */
  ghost predicate Explained(r: Rules, plan: seq<Step>, groups: seq<PairGroup>, st: PairState, x: string) {
    x in OutputsOf(st.steps) <==> x in UsedAfter(r, plan, groups) || DeclaredIn(r, plan, groups, x)
  }

  lemma {:induction false} ExplainedNext(
    r: Rules, plan: seq<Step>, groups: seq<PairGroup>, st: PairState, g: PairGroup, x: string)
    requires RunTo(r, plan, groups, st) && WellFormed(g) && g !in groups && Explained(r, plan, groups, st, x)
    ensures Explained(r, plan, groups + [g], PairPhase(r, st, g.iteration, g.source, g.test), x)
  {
    GroupsApart(g, g);
    assert SameIn(plan, st.steps, g.iteration, g.source, g.test);
    SameDeclared(r, plan, st.steps, g, x);
    SameInvented(r, plan, st, g);
    UsedNext(r, plan, groups, g);
    DeclaredNext(r, plan, groups, g, x);
    OutputsNext(r, st, g, x);
  }

  /** The outputs after these pairs: those used as names, and those their test steps declared. */
  lemma {:induction false} OutputsAlong(r: Rules, plan: seq<Step>, groups: seq<PairGroup>, x: string)
    requires NoDup(groups) && forall h :: h in groups ==> WellFormed(h)
    ensures Explained(r, plan, groups, PairAll(r, PairState(plan, OutputsOf(plan)), groups), x)
  {
    if groups == [] {
    } else {
      var init, g := groups[..|groups| - 1], groups[|groups| - 1];
      assert groups == init + [g] && g in groups;
      OutputsAlong(r, plan, init, x);
      RunsTo(r, plan, init);
      PairAllLast(r, PairState(plan, OutputsOf(plan)), init, g);
      ExplainedNext(r, plan, init, PairAll(r, PairState(plan, OutputsOf(plan)), init), g, x);
    }
  }

  lemma {:induction false} OutputsNext(r: Rules, st: PairState, g: PairGroup, x: string)
    requires g.source != g.test
    ensures x in OutputsOf(PairPhase(r, st, g.iteration, g.source, g.test).steps) <==>
            x in OutputsOf(st.steps) || Declares(r, st.steps, g, x) || InventedAt(r, st, g) == Some(x)
  {
    if x in OutputsOf(PairPhase(r, st, g.iteration, g.source, g.test).steps) { OutputsFrom(r, st, g, x); }
    if x in OutputsOf(st.steps) || Declares(r, st.steps, g, x) || InventedAt(r, st, g) == Some(x) {
      OutputsKept(r, st, g, x);
    }
  }

  /**
   * Exactly when generated names are new: no generated name is an executable input that a test step of an earlier
   * pair declares. The names are the first free ones over the plan's outputs and the names generated before.
   */
  lemma {:induction false} GeneratesFreshIff(r: Rules, steps: seq<Step>)
    ensures
      var plan := Cleaned(r, steps);
      var pairs := PairsOf(plan);
      GeneratesFresh(r, steps) <==>
        forall j :: 0 <= j < |pairs| && NameAt(r, plan, pairs, j).Some? ==>
          !DeclaredIn(r, plan, pairs[..j], NameAt(r, plan, pairs, j).value)
  {
    var plan := Cleaned(r, steps);
    var pairs := PairsOf(plan);
    forall j | 0 <= j < |pairs|
      ensures FreshAt(r, PairAll(r, Start(r, steps), pairs[..j]), pairs[j]) <==>
              NameAt(r, plan, pairs, j).Some? ==> !DeclaredIn(r, plan, pairs[..j], NameAt(r, plan, pairs, j).value)
    {
      FreshAtIff(r, plan, pairs, j);
    }
  }

  lemma {:induction false} FreshAtIff(r: Rules, plan: seq<Step>, pairs: seq<PairGroup>, j: nat)
    requires j < |pairs| && pairs == PairsOf(plan)
    ensures FreshAt(r, PairAll(r, PairState(plan, OutputsOf(plan)), pairs[..j]), pairs[j]) <==>
            (NameAt(r, plan, pairs, j).Some? ==> !DeclaredIn(r, plan, pairs[..j], NameAt(r, plan, pairs, j).value))
  {
    PairsOfPlan(plan);
    var st := PairAll(r, PairState(plan, OutputsOf(plan)), pairs[..j]);
    forall h | h in pairs[..j] ensures WellFormed(h) { assert h in pairs; }
    RunsTo(r, plan, pairs[..j]);
    assert pairs[j] in pairs && pairs[j] !in pairs[..j];
    SameInvented(r, plan, st, pairs[j]);
    if NameAt(r, plan, pairs, j).Some? {
      OutputsAlong(r, plan, pairs[..j], NameAt(r, plan, pairs, j).value);
    }
  }

  // ---- Who owns a generated name in the end ---------------------------------------------

  lemma {:induction false} NameIsUsed(r: Rules, plan: seq<Step>, groups: seq<PairGroup>, j: nat, x: string)
    requires j < |groups| && NameAt(r, plan, groups, j) == Some(x)
    ensures x in UsedAfter(r, plan, groups[..j + 1])
  {
    hide ExecutableOutputs, Claims, StepsOf, UniquePath;
    assert groups[..j + 1] == groups[..j] + [groups[j]];
    UsedNext(r, plan, groups[..j], groups[j]);
  }

  lemma {:induction false} UsedGrows(r: Rules, plan: seq<Step>, groups: seq<PairGroup>, j: nat, k: nat)
    requires j <= k <= |groups|
    ensures UsedAfter(r, plan, groups[..j]) <= UsedAfter(r, plan, groups[..k])
    decreases k
  {
    hide ExecutableOutputs, Claims, StepsOf, UniquePath;
    if j < k {
      UsedGrows(r, plan, groups, j, k - 1);
      assert groups[..k] == groups[..k - 1] + [groups[k - 1]];
      UsedNext(r, plan, groups[..k - 1], groups[k - 1]);
    }
  }

  /** No name is generated twice. */
  lemma {:induction false} NamesDiffer(r: Rules, plan: seq<Step>, groups: seq<PairGroup>, j: nat, k: nat, x: string)
    requires j < k < |groups| && NameAt(r, plan, groups, j) == Some(x)
    ensures NameAt(r, plan, groups, k) != Some(x)
  {
    NameIsUsed(r, plan, groups, j, x);
    UsedGrows(r, plan, groups, j + 1, k);
  }

  lemma {:induction false} NameIsNew(r: Rules, plan: seq<Step>, groups: seq<PairGroup>, j: nat, x: string)
    requires j < |groups| && NameAt(r, plan, groups, j) == Some(x)
    ensures x !in OutputsOf(plan) && forall i :: 0 <= i < |plan| ==> x !in plan[i].outputs
  {
    assert OutputsOf(plan) <= UsedAfter(r, plan, groups[..j]);
    forall i | 0 <= i < |plan| ensures x in plan[i].outputs ==> x in OutputsOf(plan) {
      assert plan[i] in plan;
    }
  }

  /** Pair `k` hands `x`, the name generated for pair `j`, to its first source step. */
  ghost predicate HandsOut(r: Rules, plan: seq<Step>, pairs: seq<PairGroup>, j: nat, x: string, k: nat)
    requires k < |pairs|
  {
    k == j || Declares(r, plan, pairs[k], x)
  }

  lemma {:induction false} ClaimsDeclared(r: Rules, plan: seq<Step>, g: PairGroup, x: string)
    requires StepsOf(plan, g.source, g.iteration) != [] && forall i :: 0 <= i < |plan| ==> x !in plan[i].outputs
    ensures x !in ExecutableOutputs(r, StepsOf(plan, g.source, g.iteration))
    ensures x in Claims(r, StepsOf(plan, g.test, g.iteration)) <==> Declares(r, plan, g, x)
  {
    OwnedCollected(r, plan, g.iteration, g.source, x);
    ClaimedCollected(r, plan, g.iteration, g.test, x);
  }

  lemma {:induction false} HandsOutIff(r: Rules, plan: seq<Step>, pairs: seq<PairGroup>, j: nat, x: string, k: nat)
    requires j < |pairs| && k < |pairs| && NameAt(r, plan, pairs, j) == Some(x)
    requires StepsOf(plan, pairs[k].source, pairs[k].iteration) != []
    ensures x in AssetsAt(r, plan, pairs, k).toOwner <==> HandsOut(r, plan, pairs, j, x, k)
  {
    var g := pairs[k];
    var sources, tests := StepsOf(plan, g.source, g.iteration), StepsOf(plan, g.test, g.iteration);
    AssetMembers(ExecutableOutputs(r, sources), Claims(r, tests), NameAt(r, plan, pairs, k));
    NameIsNew(r, plan, pairs, j, x);
    ClaimsDeclared(r, plan, g, x);
    if j < k {
      NamesDiffer(r, plan, pairs, j, k, x);
    } else if k < j && NameAt(r, plan, pairs, k) == Some(x) {
      NamesDiffer(r, plan, pairs, k, j, x);
    }
  }

  ghost predicate IsFirstSource(plan: seq<Step>, g: PairGroup, i: nat) {
    i < |plan| && i == FirstOf(plan, g.iteration, g.source)
  }

  lemma {:induction false} OwnsGenerated(
    r: Rules, plan: seq<Step>, pairs: seq<PairGroup>, j: nat, x: string, k: nat, i: nat)
    requires j < |pairs| && k < |pairs| && i < |plan| && NameAt(r, plan, pairs, j) == Some(x)
    ensures x in ClosedStep(r, plan, pairs, k, i).outputs <==>
            IsFirstSource(plan, pairs[k], i) && HandsOut(r, plan, pairs, j, x, k)
  {
    NameIsNew(r, plan, pairs, j, x);
    OwnerIsFirst(plan, pairs[k].iteration, pairs[k].source);
    if StepsOf(plan, pairs[k].source, pairs[k].iteration) != [] { HandsOutIff(r, plan, pairs, j, x, k); }
  }

  /**
   * The owners of a generated name in the result: the first source step of its own pair, and of each pair, earlier
   * or later, whose test steps declare that name as an input.
   */
  lemma {:induction false} GeneratedNameOwners(
    r: Rules, steps: seq<Step>, plan: seq<Step>, pairs: seq<PairGroup>, j: nat, x: string, i: nat)
    requires plan == Cleaned(r, steps) && pairs == PairsOf(plan) && i < |steps|
    requires j < |pairs| && NameAt(r, plan, pairs, j) == Some(x)
    ensures x in Paired(r, steps)[i].outputs <==>
            exists k :: 0 <= k < |pairs| && IsFirstSource(plan, pairs[k], i) && HandsOut(r, plan, pairs, j, x, k)
  {
    var own := PairOfStep(plan, i);
    PairedClosedForm(r, steps, i, own);
    OwnsGenerated(r, plan, pairs, j, x, own, i);
    forall k | 0 <= k < |pairs| && IsFirstSource(plan, pairs[k], i) ensures k == own {
      assert InGroup(plan[i], pairs[k]);
    }
  }

  /** The result lists `x` as an output of at most one step. */
  ghost predicate OneOwner(steps: seq<Step>, x: string) {
    forall i, k :: 0 <= i < |steps| && 0 <= k < |steps| && x in steps[i].outputs && x in steps[k].outputs ==> i == k
  }

  lemma {:induction false} FirstSourceExists(
    r: Rules, plan: seq<Step>, pairs: seq<PairGroup>, j: nat, x: string, k: nat)
    returns (i: nat)
    requires j < |pairs| && k < |pairs| && NameAt(r, plan, pairs, j) == Some(x) && HandsOut(r, plan, pairs, j, x, k)
    ensures IsFirstSource(plan, pairs[k], i)
  {
    OwnerIsFirst(plan, pairs[k].iteration, pairs[k].source);
    i := FirstOf(plan, pairs[k].iteration, pairs[k].source);
  }

  lemma {:induction false} FirstSourcesDiffer(plan: seq<Step>, g: PairGroup, h: PairGroup, i: nat)
    requires WellFormed(g) && WellFormed(h) && IsFirstSource(plan, g, i) && IsFirstSource(plan, h, i)
    ensures g == h
  {
    GroupsApart(g, h);
  }

  /** A generated name has one owner in the result exactly when no other pair declares it. */
  lemma {:induction false} GeneratedOwnerIsSoleIff(
    r: Rules, steps: seq<Step>, plan: seq<Step>, pairs: seq<PairGroup>, j: nat, x: string)
    requires plan == Cleaned(r, steps) && pairs == PairsOf(plan)
    requires j < |pairs| && NameAt(r, plan, pairs, j) == Some(x)
    ensures OneOwner(Paired(r, steps), x) <==>
            forall k :: 0 <= k < |pairs| && k != j ==> !Declares(r, plan, pairs[k], x)
  {
    PairsOfPlan(plan);
    forall i | 0 <= i < |steps|
      ensures x in Paired(r, steps)[i].outputs <==>
              exists k :: 0 <= k < |pairs| && IsFirstSource(plan, pairs[k], i) && HandsOut(r, plan, pairs, j, x, k)
    {
      GeneratedNameOwners(r, steps, plan, pairs, j, x, i);
    }
    OneOwnerIff(r, plan, pairs, j, x, Paired(r, steps));
  }

  lemma {:induction false} OneOwnerIff(
    r: Rules, plan: seq<Step>, pairs: seq<PairGroup>, j: nat, x: string, out: seq<Step>)
    requires j < |pairs| && NameAt(r, plan, pairs, j) == Some(x) && |out| == |plan|
    requires NoDup(pairs) && forall g :: g in pairs ==> WellFormed(g)
    requires forall i :: 0 <= i < |out| ==>
               (x in out[i].outputs <==>
                  exists k :: 0 <= k < |pairs| && IsFirstSource(plan, pairs[k], i) && HandsOut(r, plan, pairs, j, x, k))
    ensures OneOwner(out, x) <==> forall k :: 0 <= k < |pairs| && k != j ==> !Declares(r, plan, pairs[k], x)
  {
    hide NameAt, Declares, FirstOf;
    var i := FirstSourceExists(r, plan, pairs, j, x, j);
    if k :| 0 <= k < |pairs| && k != j && Declares(r, plan, pairs[k], x) {
      var m := FirstSourceExists(r, plan, pairs, j, x, k);
      if m == i { FirstSourcesDiffer(plan, pairs[j], pairs[k], i); }
      assert HandsOut(r, plan, pairs, j, x, k) && HandsOut(r, plan, pairs, j, x, j);
      assert x in out[m].outputs && x in out[i].outputs && m != i;
    }
  }

  // ---- A plan where a generated name gets a second owner --------------------------------

  /** A functional test declares, as an input nobody outputs, the very name the CODE step would generate. */
  function CollidingPlan(r: Rules, it: string, ids: seq<string>): (plan: seq<Step>)
    requires |ids| == 3
    ensures |plan| == 3 && plan[0].outputs == plan[1].outputs == plan[2].outputs == []
    ensures InPhase(plan[0], it, RequirementAnalysis) && InPhase(plan[1], it, Code)
    ensures InPhase(plan[2], it, FunctionalTest) && plan[1].id == ids[1]
    ensures plan[0].inputs == plan[1].inputs == [] && plan[2].inputs == [Candidate(r, ids[1], UnitTest, 1)]
  {
    [Step(ids[0], Some(it), RequirementAnalysis, [], [], []),
     Step(ids[1], Some(it), Code, [], [], [ids[0]]),
     Step(ids[2], Some(it), FunctionalTest, [Candidate(r, ids[1], UnitTest, 1)], [], [ids[1]])]
  }

  lemma {:induction false} OneElement(ids: seq<string>, x: string)
    requires NoDup(ids) && x in ids && forall y :: y in ids ==> y == x
    ensures ids == [x]
  {
    NoDupSize(ids);
    assert Elems(ids) == {x};
    assert ids[0] in ids;
  }

  lemma {:induction false} SoleIteration(plan: seq<Step>, it: string)
    requires plan != [] && forall i :: 0 <= i < |plan| ==> IterationOf(plan[i]) == it
    ensures PairsOf(plan) == GroupsOf(it)
  {
    var all := seq(|plan|, i requires 0 <= i < |plan| => IterationOf(plan[i]));
    var ids := IterationIds(plan);
    assert IterationOf(plan[0]) in ids;
    forall x | x in ids ensures x == it { assert x in all; }
    assert Lists(plan, ids) && IterationOf(plan[0]) in ids;
    OneElement(ids, it);
    assert Groups(ids[1..]) == [];
  }

  lemma {:induction false} NoSourceNoName(r: Rules, plan: seq<Step>, g: PairGroup)
    requires forall i :: 0 <= i < |plan| ==> !InPhase(plan[i], g.iteration, g.source)
    ensures !Generates(r, plan, g)
  {
    OwnerIsFirst(plan, g.iteration, g.source);
  }

  lemma {:induction false} ClaimedNoName(r: Rules, plan: seq<Step>, g: PairGroup, x: string)
    requires Claimed(r, plan, g.iteration, g.test, x)
    ensures !Generates(r, plan, g)
  {
    ClaimedCollected(r, plan, g.iteration, g.test, x);
  }

  lemma {:induction false} NothingListedName(r: Rules, plan: seq<Step>, g: PairGroup, i: nat)
    requires i < |plan| && InPhase(plan[i], g.iteration, g.source)
    requires forall k :: 0 <= k < |plan| && InPhase(plan[k], g.iteration, g.source) ==> k == i
    requires forall k :: 0 <= k < |plan| ==> !InPhase(plan[k], g.iteration, g.test)
    requires forall o :: o in plan[i].outputs ==> !r.executable(o)
    ensures Generates(r, plan, g) && StepsOf(plan, g.source, g.iteration)[0] == plan[i]
  {
    OwnerIsFirst(plan, g.iteration, g.source);
    var sources, tests := StepsOf(plan, g.source, g.iteration), StepsOf(plan, g.test, g.iteration);
    assert sources[0] in sources;
    if ExecutableOutputs(r, sources) != [] {
      var x := ExecutableOutputs(r, sources)[0];
      OwnedCollected(r, plan, g.iteration, g.source, x);
    }
    if Claims(r, tests) != [] {
      var x := Claims(r, tests)[0];
      ClaimedCollected(r, plan, g.iteration, g.test, x);
    }
  }

  lemma {:induction false} SkipName(r: Rules, plan: seq<Step>, groups: seq<PairGroup>, g: PairGroup)
    requires !Generates(r, plan, g)
    ensures UsedAfter(r, plan, groups + [g]) == UsedAfter(r, plan, groups)
  {
    UsedNext(r, plan, groups, g);
  }

  lemma {:induction false} FourthName(r: Rules, plan: seq<Step>, g: seq<PairGroup>, id: string)
    requires |g| == 4 && OutputsOf(plan) == {}
    requires !Generates(r, plan, g[0]) && !Generates(r, plan, g[1]) && !Generates(r, plan, g[2])
    requires Generates(r, plan, g[3]) && StepsOf(plan, g[3].source, g[3].iteration)[0].id == id
    ensures NameAt(r, plan, g, 3) == Some(Candidate(r, id, g[3].test, 1))
  {
    hide ExecutableOutputs, Claims, StepsOf;
    SkipName(r, plan, [], g[0]);
    SkipName(r, plan, [g[0]], g[1]);
    SkipName(r, plan, [g[0]] + [g[1]], g[2]);
    assert [] + [g[0]] == [g[0]];
    assert g[..3] == [g[0]] + [g[1]] + [g[2]];
  }

  lemma {:induction false} NoOutputs(plan: seq<Step>)
    requires forall i :: 0 <= i < |plan| ==> plan[i].outputs == []
    ensures OutputsOf(plan) == {}
  {
  }

  lemma {:induction false} CollidingName(r: Rules, it: string, ids: seq<string>)
    requires |ids| == 3 && r.executable(Candidate(r, ids[1], UnitTest, 1))
    ensures NameAt(r, CollidingPlan(r, it, ids), GroupsOf(it), 3) == Some(Candidate(r, ids[1], UnitTest, 1))
  {
    hide ExecutableOutputs, Claims, StepsOf, UniquePath;
    var plan, g := CollidingPlan(r, it, ids), GroupsOf(it);
    assert InPhase(plan[2], it, FunctionalTest);
    ClaimedNoName(r, plan, g[0], Candidate(r, ids[1], UnitTest, 1));
    NoSourceNoName(r, plan, g[1]);
    NoSourceNoName(r, plan, g[2]);
    NothingListedName(r, plan, g[3], 1);
    NoOutputs(plan);
    FourthName(r, plan, g, ids[1]);
  }

  lemma {:induction false} CollidingIsClean(r: Rules, it: string, ids: seq<string>)
    requires |ids| == 3 && !r.reserved(Candidate(r, ids[1], UnitTest, 1))
    ensures Cleaned(r, CollidingPlan(r, it, ids)) == CollidingPlan(r, it, ids)
  {
    hide Candidate;
    var plan := CollidingPlan(r, it, ids);
    forall i | 0 <= i < |plan| ensures CleanStep(r, plan[i]) {}
  }

  lemma {:induction false} CollidingShape(r: Rules, it: string, ids: seq<string>)
    requires |ids| == 3 && r.executable(Candidate(r, ids[1], UnitTest, 1))
    ensures
      var plan, g := CollidingPlan(r, it, ids), GroupsOf(it);
      && Declares(r, plan, g[0], Candidate(r, ids[1], UnitTest, 1))
      && IsFirstSource(plan, g[0], 0) && IsFirstSource(plan, g[3], 1)
  {
    var plan, g, c := CollidingPlan(r, it, ids), GroupsOf(it), Candidate(r, ids[1], UnitTest, 1);
    OwnerIsFirst(plan, it, RequirementAnalysis);
    assert Present(plan, it, RequirementAnalysis) by { assert InPhase(plan[0], it, RequirementAnalysis); }
    assert InPhase(plan[2], it, FunctionalTest) && c in plan[2].inputs;
    assert InPhase(plan[1], it, Code);
  }

  lemma {:induction false} TwoOwners(
    r: Rules, steps: seq<Step>, pairs: seq<PairGroup>, j: nat, k: nat, x: string, i: nat, m: nat)
    requires Cleaned(r, steps) == steps && pairs == PairsOf(steps) && k < j < |pairs| && i < |steps| && m < |steps|
    requires NameAt(r, steps, pairs, j) == Some(x) && Declares(r, steps, pairs[k], x)
    requires IsFirstSource(steps, pairs[k], i) && IsFirstSource(steps, pairs[j], m)
    ensures x in Paired(r, steps)[i].outputs && x in Paired(r, steps)[m].outputs && !GeneratesFresh(r, steps)
  {
    assert HandsOut(r, steps, pairs, j, x, k) && HandsOut(r, steps, pairs, j, x, j);
    GeneratedNameOwners(r, steps, steps, pairs, j, x, i);
    GeneratedNameOwners(r, steps, steps, pairs, j, x, m);
    assert pairs[..j][k] in pairs[..j] && DeclaredIn(r, steps, pairs[..j], x);
    GeneratesFreshIff(r, steps);
  }

  /** Names taken as inputs are not looked at: here the generated name is not new, and ends up with two owners. */
  lemma {:induction false} DeclaredNameCollides(r: Rules, it: string, ids: seq<string>)
    requires |ids| == 3 && NamesFit(r, ids[1])
    ensures
      var out, c := Paired(r, CollidingPlan(r, it, ids)), Candidate(r, ids[1], UnitTest, 1);
      c in out[0].outputs && c in out[1].outputs
    ensures !GeneratesFresh(r, CollidingPlan(r, it, ids))
  {
    var plan := CollidingPlan(r, it, ids);
    CollidingIsClean(r, it, ids);
    SoleIteration(plan, it);
    CollidingName(r, it, ids);
    CollidingShape(r, it, ids);
    TwoOwners(r, plan, GroupsOf(it), 3, 0, Candidate(r, ids[1], UnitTest, 1), 0, 1);
  }
}
