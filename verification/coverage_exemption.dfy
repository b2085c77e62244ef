/** Which steps the lint wants tested although the coverage repair exempts them, told from the input plan. */
module CoverageExemption {
  import opened Basics
  import opened Plans
  import opened PlanLint
  import opened VModelDependencies
  import opened TestPairing
  import opened GeneratedNames
  import opened CoverageRepair
  import opened CoverageEffects
  import opened CoverageResults
  import opened CoverageNames

  // ---- What the first pairing pass hands out --------------------------------------------

  /** Pair `k` gives `x` to its first source step: its generated name, or a test only its test steps list. */
  ghost predicate Handed(r: Rules, plan: seq<Step>, pairs: seq<PairGroup>, k: nat, x: string)
    requires k < |pairs|
  {
    var g := pairs[k];
    || NameAt(r, plan, pairs, k) == Some(x)
    || (Claimed(r, plan, g.iteration, g.test, x) && !Owned(r, plan, g.iteration, g.source, x))
  }

  lemma {:induction false} HandedIsAssigned(r: Rules, plan: seq<Step>, pairs: seq<PairGroup>, k: nat, x: string)
    requires k < |pairs| && StepsOf(plan, pairs[k].source, pairs[k].iteration) != []
    ensures x in AssetsAt(r, plan, pairs, k).toOwner <==> Handed(r, plan, pairs, k, x)
  {
    hide UsedAfter, NameFor;
    var g := pairs[k];
    var sources, tests := StepsOf(plan, g.source, g.iteration), StepsOf(plan, g.test, g.iteration);
    AssetMembers(ExecutableOutputs(r, sources), Claims(r, tests), NameAt(r, plan, pairs, k));
    OwnedCollected(r, plan, g.iteration, g.source, x);
    ClaimedCollected(r, plan, g.iteration, g.test, x);
  }

  lemma {:induction false} SourceOutputs(
    r: Rules, plan: seq<Step>, pairs: seq<PairGroup>, k: nat, i: nat, o: string)
    requires k < |pairs| && i < |plan| && InPhase(plan[i], pairs[k].iteration, pairs[k].source)
    requires pairs[k].source != pairs[k].test
    ensures o in ClosedStep(r, plan, pairs, k, i).outputs <==>
            o in plan[i].outputs || (IsFirstSource(plan, pairs[k], i) && Handed(r, plan, pairs, k, o))
  {
    hide AssetsAt, Handed;
    OwnerIsFirst(plan, pairs[k].iteration, pairs[k].source);
    assert Present(plan, pairs[k].iteration, pairs[k].source);
    HandedIsAssigned(r, plan, pairs, k, o);
  }

  /** The pass hands `x` to step `i`, read off the plan without its reserved paths. */
  ghost predicate HandedTo(r: Rules, steps: seq<Step>, i: nat, x: string) {
    var plan := Cleaned(r, steps);
    exists k :: 0 <= k < |PairsOf(plan)| && IsFirstSource(plan, PairsOf(plan)[k], i) &&
                Handed(r, plan, PairsOf(plan), k, x)
  }

  /** The outputs of a development step after the pairing pass: its own that are not reserved, and what it is handed. */
  lemma {:induction false} DevelopmentOutputs(r: Rules, steps: seq<Step>, i: nat, o: string)
    requires i < |steps| && Develops(steps[i].phase)
    ensures o in Paired(r, steps)[i].outputs <==>
            (o in steps[i].outputs && !r.reserved(o)) || HandedTo(r, steps, i, o)
  {
    hide Paired, PairsOf, Handed, ClosedStep;
    var plan := Cleaned(r, steps);
    var k := PairOfStep(plan, i);
    PairedClosedForm(r, steps, i, k);
    PairsOfPlan(plan);
    assert PairsOf(plan)[k] in PairsOf(plan);
    GroupsApart(PairsOf(plan)[k], PairsOf(plan)[k]);
    SourceOutputs(r, plan, PairsOf(plan), k, i, o);
    forall m | 0 <= m < |PairsOf(plan)| && IsFirstSource(plan, PairsOf(plan)[m], i) ensures m == k {
      assert InGroup(plan[i], PairsOf(plan)[m]);
    }
  }

  // ---- The exemption, before and after --------------------------------------------------

  /** An output that is kept by the pass and is no package marker. */
  predicate ListsOther(c: CoverageRules, s: Step) {
    exists o :: o in s.outputs && !c.paths.reserved(o) && !IsInitFile(o)
  }

  /** The pass hands the step a test that is no package marker. */
  ghost predicate HandedOther(c: CoverageRules, steps: seq<Step>, i: nat) {
    exists x :: HandedTo(c.paths, steps, i, x) && !IsInitFile(x)
  }

  /** The repair exempts the step, and after it the lint does not. */
  ghost predicate TestedByLintOnly(c: CoverageRules, steps: seq<Step>, i: nat)
    requires i < |steps|
  {
    steps[i].phase == Code && IsInitOnly(c, steps[i]) && (ListsOther(c, steps[i]) || HandedOther(c, steps, i))
  }

  lemma {:induction false} RepairKeepsInitOnly(c: CoverageRules, steps: seq<Step>, i: nat)
    requires RulesHold(c, steps) && UniqueIds(steps) && i < |steps|
    ensures i < |Repaired(c, steps)| && Repaired(c, steps)[i].phase == steps[i].phase
    ensures IsInitOnly(c, Repaired(c, steps)[i]) <==> IsInitOnly(c, steps[i])
  {
    hide Repaired, IsInitOnly, GapIterations;
    RepairEstablishes(c, steps);
    assert Keeps(steps[i], Repaired(c, steps)[i]);
    forall o | Implements(c, o) ensures o in Repaired(c, steps)[i].outputs <==> o in steps[i].outputs {
      RepairedPlainOutputs(c, steps, i, o);
    }
    SameInitOnly(c, Repaired(c, steps)[i], steps[i]);
  }

  /** A step the repair exempts gets its outputs from the first pairing pass alone. */
  lemma {:induction false} ExemptOutputsStay(c: CoverageRules, steps: seq<Step>, i: nat, o: string)
    requires RulesHold(c, steps) && UniqueIds(steps) && PlainReports(c, GapIterations(c, steps))
    requires i < |steps| && IsInitOnly(c, steps[i])
    ensures i < |Repaired(c, steps)|
    ensures o in Repaired(c, steps)[i].outputs <==> o in Paired(c.paths, steps)[i].outputs
  {
    hide Paired, UncoveredUpTo, IterationsAt, RulesHold, Settled, Joined, IsInitOnly, PlainReports;
    var p, u := Paired(c.paths, steps), Gaps(c, steps);
    RulesFit(c, steps);
    PairedIsSettled(c.paths, steps);
    RulesStay(c, steps, p);
    IdentityExtends(steps, p);
    UncoveredAlike(c, steps, |steps|);
    SameIterationsAt(steps, p, u);
    if u != [] {
      NeedsCoverAlike(c, steps, i);
      ExemptInJoined(c, p, u, IterationsAt(p, u), i, o);
    }
  }

  lemma {:induction false} ExemptInJoined(
    c: CoverageRules, p: seq<Step>, u: seq<nat>, its: seq<string>, i: nat, o: string)
    requires RulesHold(c, p) && UniqueIds(p) && u == UncoveredUpTo(c, p, |p|) && Settled(c.paths, p)
    requires its == IterationsAt(p, u) && PlainReports(c, its) && i < |p| && IsInitOnly(c, p[i])
    ensures i < |Paired(c.paths, Joined(c, p, u))|
    ensures o in Paired(c.paths, Joined(c, p, u))[i].outputs <==> o in p[i].outputs
  {
    hide Paired, UncoveredUpTo, IterationsAt, RulesHold, Settled, Joined, OnlyAt, PlainReports, IsInitOnly;
    var joined := Joined(c, p, u);
    UncoveredIsCode(c, p);
    RulesFit(c, p);
    JoinedHasNames(c, p, u);
    LastPassKeepsOutputs(c, p, u, joined, its, i);
    NotUncovered(c, p, u, i);
    assert joined[..|p|][i] == joined[i];
    assert AddedAt(p, joined[..|p|], i, o) ==> i in u;
  }

  lemma {:induction false} NotUncovered(c: CoverageRules, p: seq<Step>, u: seq<nat>, i: nat)
    requires u == UncoveredUpTo(c, p, |p|) && i < |p| && IsInitOnly(c, p[i])
    ensures i !in u
  {
    hide IsInitOnly, Covered;
    forall m | 0 <= m < |u| ensures u[m] != i { assert Uncovered(c, p, u[m]); }
  }

  lemma {:induction false} ExemptOutputs(c: CoverageRules, steps: seq<Step>, i: nat, o: string)
    requires RulesHold(c, steps) && UniqueIds(steps) && PlainReports(c, GapIterations(c, steps))
    requires i < |steps| && steps[i].phase == Code && IsInitOnly(c, steps[i])
    ensures i < |Repaired(c, steps)|
    ensures o in Repaired(c, steps)[i].outputs <==>
            (o in steps[i].outputs && !c.paths.reserved(o)) || HandedTo(c.paths, steps, i, o)
  {
    hide Repaired, HandedTo, PlainReports, IsInitOnly, Paired, RulesHold;
    ExemptOutputsStay(c, steps, i, o);
    DevelopmentOutputs(c.paths, steps, i, o);
  }

  lemma {:induction false} SourceIsKept(c: CoverageRules, steps: seq<Step>, o: string)
    requires RulesHold(c, steps) && Implements(c, o)
    ensures !c.paths.reserved(o) && !c.paths.executable(o)
  {
  }

  lemma {:induction false} ExemptListsSource(c: CoverageRules, steps: seq<Step>, i: nat) returns (o: string)
    requires RulesHold(c, steps) && i < |steps| && IsInitOnly(c, steps[i])
    ensures o in steps[i].outputs && !c.paths.reserved(o)
  {
    hide RulesHold, Implements, IsInitFile;
    o :| o in steps[i].outputs && Implements(c, o);
    SourceIsKept(c, steps, o);
  }

  /**
   * After the repair the lint exempts such a step exactly when it lists package markers only and is handed no other.
   */
  lemma {:induction false} LintExemptsIff(c: CoverageRules, steps: seq<Step>, i: nat)
    requires RulesHold(c, steps) && UniqueIds(steps) && PlainReports(c, GapIterations(c, steps))
    requires i < |steps| && steps[i].phase == Code && IsInitOnly(c, steps[i])
    ensures i < |Repaired(c, steps)|
    ensures OnlyInitFiles(Repaired(c, steps)[i]) <==> !ListsOther(c, steps[i]) && !HandedOther(c, steps, i)
  {
    hide Repaired, HandedTo, PlainReports, IsInitFile, RulesHold, IsInitOnly, GapIterations, UniqueIds;
    forall o {:trigger o in Repaired(c, steps)[i].outputs} {:trigger HandedTo(c.paths, steps, i, o)}
      ensures i < |Repaired(c, steps)|
      ensures o in Repaired(c, steps)[i].outputs <==>
              (o in steps[i].outputs && !c.paths.reserved(o)) || HandedTo(c.paths, steps, i, o)
    {
      ExemptOutputs(c, steps, i, o);
    }
    var o := ExemptListsSource(c, steps, i);
    ExemptOutputs(c, steps, i, o);
  }

  /** The steps the lint alone wants tested in the repaired plan, exactly, from the input. */
  lemma {:induction false} ExemptionIff(c: CoverageRules, steps: seq<Step>, i: nat)
    requires RulesHold(c, steps) && UniqueIds(steps) && PlainReports(c, GapIterations(c, steps)) && i < |steps|
    ensures i < |Repaired(c, steps)|
    ensures ExemptHereOnly(c, Repaired(c, steps)[i]) <==> TestedByLintOnly(c, steps, i)
  {
    hide Repaired, RulesHold, PlainReports, ListsOther, HandedOther, IsInitOnly, OnlyInitFiles;
    RepairKeepsInitOnly(c, steps, i);
    if steps[i].phase == Code && IsInitOnly(c, steps[i]) { LintExemptsIff(c, steps, i); }
  }

  /** The repair takes the exemption from a step that had it exactly when it hands the step a test that is no marker. */
  lemma {:induction false} ExemptionLostIff(c: CoverageRules, steps: seq<Step>, i: nat)
    requires RulesHold(c, steps) && UniqueIds(steps) && PlainReports(c, GapIterations(c, steps))
    requires i < |steps| && steps[i].phase == Code && IsInitOnly(c, steps[i]) && OnlyInitFiles(steps[i])
    ensures i < |Repaired(c, steps)|
    ensures !OnlyInitFiles(Repaired(c, steps)[i]) <==> HandedOther(c, steps, i)
  {
    hide Repaired, RulesHold, PlainReports, HandedOther, IsInitOnly, IsInitFile;
    LintExemptsIff(c, steps, i);
  }

  // ---- The coverage rule of the lint ----------------------------------------------------

  /**
   * Where the two exemptions differ: the repaired plan passes the coverage rule of the lint exactly when each step
   * that the lint alone wants tested was covered in the input, or the new steps lead to it.
   */
  lemma {:induction false} LintCoverageIff(c: CoverageRules, steps: seq<Step>, plan: Plan)
    requires RulesHold(c, steps) && UniqueIds(steps) && PlainReports(c, GapIterations(c, steps))
    requires plan.steps == Repaired(c, steps)
    ensures CodeCovered(plan) <==>
            forall i :: 0 <= i < |steps| && TestedByLintOnly(c, steps, i) ==>
              Covered(steps, steps[i]) ||
              CoveredAround(steps, Gaps(c, steps), GapIterations(c, steps), FirstNumber(steps), steps[i])
  {
    hide Covered, CoveredAround, Repaired, RulesHold, Gaps, GapIterations, FirstNumber, PlainReports;
    hide TestedByLintOnly, ExemptHereOnly, CodeCovered;
    RepairedCoverageIff(c, steps, plan);
    forall i | 0 <= i < |steps| ensures ExemptHereOnly(c, plan.steps[i]) <==> TestedByLintOnly(c, steps, i) {
      ExemptionIff(c, steps, i);
    }
  }

  /**
   * On phase-monotone plans that name no new id: it was covered, or an uncovered step of its iteration depends on it.
   */
  lemma {:induction false} MonotoneLintCoverageIff(
    c: CoverageRules, steps: seq<Step>, order: string -> int, plan: Plan)
    requires RulesHold(c, steps) && UniqueIds(steps) && PlainReports(c, GapIterations(c, steps))
    requires plan.steps == Repaired(c, steps)
    requires PhaseMonotone(steps, order) && NamesNoNewId(steps, FirstNumber(steps), |GapIterations(c, steps)|)
    ensures CodeCovered(plan) <==>
            forall i :: 0 <= i < |steps| && TestedByLintOnly(c, steps, i) ==>
              Covered(steps, steps[i]) || ReachedFromGap(steps, Gaps(c, steps), steps[i])
  {
    hide Covered, CoveredAround, Repaired, RulesHold, GapIterations, FirstNumber, Tidy, PlainReports;
    hide PhaseMonotone, NamesNoNewId, ListsOther, HandedOther, IsInitOnly, CodeCovered;
    LintCoverageIff(c, steps, plan);
    RepairIsTidy(c, steps, order);
    GapsListed(c, steps);
    forall i | 0 <= i < |steps| && steps[i].phase == Code
      ensures CoveredAround(steps, Gaps(c, steps), GapIterations(c, steps), FirstNumber(steps), steps[i]) <==>
              ReachedFromGap(steps, Gaps(c, steps), steps[i])
    {
      AroundIsGap(steps, Gaps(c, steps), GapIterations(c, steps), FirstNumber(steps), order, i);
    }
  }

  // ---- A plan that loses its exemption --------------------------------------------------

  /** One CODE step that outputs one file. */
  function LoneStep(id: string, it: string, path: string): seq<Step> {
    [Step(id, Some(it), Code, [], [path], [])]
  }

  lemma {:induction false} LoneIsClean(r: Rules, id: string, it: string, path: string)
    requires !r.reserved(path)
    ensures Cleaned(r, LoneStep(id, it, path)) == LoneStep(id, it, path)
  {
    assert CleanStep(r, LoneStep(id, it, path)[0]);
  }

  lemma {:induction false} LoneGenerates(r: Rules, id: string, it: string, path: string)
    requires !r.executable(path)
    ensures
      var plan, g := LoneStep(id, it, path), GroupsOf(it)[3];
      && Generates(r, plan, g) && StepsOf(plan, g.source, g.iteration)[0].id == id && IsFirstSource(plan, g, 0)
  {
    hide ExecutableOutputs, Claims, StepsOf, Generates;
    NothingListedName(r, LoneStep(id, it, path), GroupsOf(it)[3], 0);
  }

  lemma {:induction false} GeneratedIsCandidate(
    r: Rules, plan: seq<Step>, pairs: seq<PairGroup>, k: nat, id: string) returns (n: nat)
    requires k < |pairs| && Generates(r, plan, pairs[k])
    requires StepsOf(plan, pairs[k].source, pairs[k].iteration)[0].id == id
    ensures NameAt(r, plan, pairs, k) == Some(Candidate(r, id, pairs[k].test, n))
  {
    hide Candidate, UsedAfter, StepsOf, ExecutableOutputs, Claims;
    n := FreeFrom(r, id, pairs[k].test, UsedAfter(r, plan, pairs[..k]), 1);
  }

  /** Its pair generates a test for it. */
  lemma {:induction false} LoneIsHanded(r: Rules, id: string, it: string, path: string) returns (n: nat)
    requires !r.reserved(path) && !r.executable(path)
    ensures HandedTo(r, LoneStep(id, it, path), 0, Candidate(r, id, UnitTest, n))
  {
    hide Candidate, Cleaned, NameAt, StepsOf, Generates, PairsOf, LoneStep, IsFirstSource;
    var plan, pairs := LoneStep(id, it, path), GroupsOf(it);
    LoneIsClean(r, id, it, path);
    LoneIteration(id, it, path);
    LoneGenerates(r, id, it, path);
    n := GeneratedIsCandidate(r, plan, pairs, 3, id);
    assert Handed(r, plan, pairs, 3, Candidate(r, id, UnitTest, n));
  }

  lemma {:induction false} LoneIteration(id: string, it: string, path: string)
    ensures PairsOf(LoneStep(id, it, path)) == GroupsOf(it)
  {
    SoleIteration(LoneStep(id, it, path), it);
  }

  lemma {:induction false} LoneGaps(c: CoverageRules, id: string, it: string, path: string)
    requires IsInitOnly(c, LoneStep(id, it, path)[0])
    ensures Gaps(c, LoneStep(id, it, path)) == [] && GapIterations(c, LoneStep(id, it, path)) == []
  {
    hide IsInitOnly;
    var plan := LoneStep(id, it, path);
    assert !Uncovered(c, plan, 0);
    assert Gaps(c, plan) == UncoveredUpTo(c, plan, 0);
  }

  lemma {:induction false} OnlyMarker(c: CoverageRules, s: Step, path: string)
    requires s.outputs == [path] && EndsWith(path, "/__init__.py") && Implements(c, path)
    ensures IsInitOnly(c, s) && OnlyInitFiles(s)
  {
    assert path in s.outputs;
  }

  /**
   * A CODE step that outputs one package marker passes the coverage rule of the lint; the repair adds no unit test
   * step, but hands it a generated test, and then the rule fails.
   */
  lemma {:induction false} MarkerLosesExemption(
    c: CoverageRules, id: string, it: string, path: string, before: Plan, after: Plan)
    requires EndsWith(path, "/__init__.py") && Implements(c, path) && RulesHold(c, LoneStep(id, it, path))
    requires forall n :: !IsInitFile(Candidate(c.paths, id, UnitTest, n))
    requires before.steps == LoneStep(id, it, path) && after.steps == Repaired(c, LoneStep(id, it, path))
    ensures CodeCovered(before) && !CodeCovered(after)
    ensures |after.steps| == 1
  {
    hide Candidate, Repaired, RulesHold, HandedTo, Implements, IsInitFile, GapIterations, Gaps, OldWired;
    var steps := LoneStep(id, it, path);
    assert steps[0].outputs == [path] && [path][0] == path;
    OnlyMarker(c, steps[0], path);
    LoneGaps(c, id, it, path);
    SourceIsKept(c, steps, path);
    var n := LoneIsHanded(c.paths, id, it, path);
    assert HandedOther(c, steps, 0);
    LintCoverageIff(c, steps, after);
    RepairIsWired(c, steps);
    assert Wired(steps, after.steps, [], [], FirstNumber(steps));
    assert !Covered(steps, steps[0]);
    assert !CoveredAround(steps, [], [], FirstNumber(steps), steps[0]);
    assert TestedByLintOnly(c, steps, 0);
  }
}
