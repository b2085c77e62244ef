/** Dependency calibration followed by coverage repair, on plans with one step per phase. */
module Calibration {
  import opened Plans
  import opened DependencyGraph
  import opened PlanLint
  import opened VModelDependencies
  import opened TestPairing
  import opened CoverageRepair
  import opened CoverageEffects

  /** Every iteration of the plan has exactly one step of each phase. */
  ghost predicate OneStepEach(steps: seq<Step>) {
    forall i :: 0 <= i < |steps| ==> OneStepPerPhase(steps, IterationOf(steps[i]))
  }

  lemma {:induction false} StepOfPhase(steps: seq<Step>, i: nat, phase: Phase) returns (t: nat)
    requires OneStepEach(steps) && i < |steps|
    ensures t < |steps| && InPhase(steps[t], IterationOf(steps[i]), phase)
  {
    var ids := IdsOf(steps, IterationOf(steps[i]), phase);
    assert |ids| == 1;
    IdsOfListed(steps, IterationOf(steps[i]), phase, ids[0]);
    t :| 0 <= t < |steps| && steps[t].id == ids[0] && IterationOf(steps[t]) == IterationOf(steps[i]) &&
      steps[t].phase == phase;
  }

  lemma {:induction false} LinkedPlaces(steps: seq<Step>, i: nat)
    requires i < |steps|
    ensures i < |Linked(steps)|
    ensures
      var s := Linked(steps)[i];
      s.id == steps[i].id && s.phase == steps[i].phase && s.iterationId == steps[i].iterationId
  {
  }

  lemma {:induction false} LinkedIsUnique(steps: seq<Step>)
    requires UniqueIds(steps)
    ensures UniqueIds(Linked(steps))
  {
    hide Linked;
    var l := Linked(steps);
    forall i, j | 0 <= i < j < |l| ensures l[i].id != l[j].id {
      LinkedPlaces(steps, i);
      LinkedPlaces(steps, j);
    }
  }

  lemma {:induction false} LinkedFits(c: CoverageRules, steps: seq<Step>)
    requires RulesHold(c, steps)
    ensures RulesHold(c, Linked(steps))
  {
    hide Linked;
    forall i | 0 <= i < |Linked(steps)| && Develops(Linked(steps)[i].phase)
      ensures NamesFit(c.paths, Linked(steps)[i].id)
    {
      LinkedPlaces(steps, i);
    }
  }

  /** After calibration some step of each later phase of the iteration reaches the step. */
  lemma {:induction false} LaterPhaseReaches(steps: seq<Step>, j: nat, phase: Phase) returns (t: nat)
    requires UniqueIds(steps) && OneStepEach(steps) && j < |steps| && PhaseOrder(steps[j].phase) < PhaseOrder(phase)
    ensures t < |Linked(steps)| == |steps| && InPhase(Linked(steps)[t], IterationOf(steps[j]), phase)
    ensures Reaches(GraphOfPlan(Linked(steps)), Linked(steps)[t].id, steps[j].id) && steps[t].id != steps[j].id
  {
    hide Reaches, GraphOf, ById;
    t := StepOfPhase(steps, j, phase);
    SinglePhasesReachAll(steps, t, j);
    LinkedPlaces(steps, t);
  }

  lemma {:induction false} LinkedCovers(steps: seq<Step>, j: nat)
    requires UniqueIds(steps) && OneStepEach(steps) && j < |steps| && steps[j].phase == Code
    ensures j < |Linked(steps)| && Covered(Linked(steps), Linked(steps)[j])
  {
    hide Linked, Reaches, GraphOf, ById, Covered;
    LinkedIsUnique(steps);
    LinkedPlaces(steps, j);
    var t := LaterPhaseReaches(steps, j, UnitTest);
    assert TestReaches(Linked(steps), IterationOf(steps[j]), steps[j].id, t);
    assert Linked(steps)[j] in Linked(steps) && IterationOf(Linked(steps)[j]) == IterationOf(steps[j]);
    CoveredIsReached(Linked(steps), Linked(steps)[j]);
  }

  /** Nothing is left to repair but the test assets. */
  lemma {:induction false} LinkedNeedsNoStep(c: CoverageRules, steps: seq<Step>)
    requires RulesHold(c, steps) && UniqueIds(steps) && OneStepEach(steps)
    ensures Repaired(c, Linked(steps)) == Paired(c.paths, Linked(steps))
  {
    hide Linked, Covered, Paired, RulesHold, OneStepEach, UncoveredUpTo;
    var l := Linked(steps);
    LinkedFits(c, steps);
    LinkedIsUnique(steps);
    forall i | 0 <= i < |l| && NeedsCover(c, l[i]) ensures Covered(l, l[i]) {
      LinkedPlaces(steps, i);
      LinkedCovers(steps, i);
    }
    NoneUncovered(c, l);
    UncoveredAlike(c, l, |l|);
  }

  /** In the calibrated and repaired plan some test step of the paired phase depends on the source step. */
  lemma {:induction false} SourceIsPaired(c: CoverageRules, steps: seq<Step>, plan: Plan, j: nat, test: Phase)
    requires RulesHold(c, steps) && UniqueIds(steps) && OneStepEach(steps)
    requires SameIdentity(Linked(steps), plan.steps)
    requires j < |steps| && PhaseOrder(steps[j].phase) < PhaseOrder(test)
    ensures PairedBy(plan, plan.steps[j], StepsOf(plan.steps, test, IterationOf(steps[j])))
    ensures exists t :: 0 <= t < |plan.steps| && InPhase(plan.steps[t], IterationOf(steps[j]), test) &&
                        DependsOn(plan, plan.steps[t], steps[j].id)
  {
    hide Linked, Reaches, ReachesFrom, GraphOf, ById, RulesHold, OneStepEach;
    var l := Linked(steps);
    var t := LaterPhaseReaches(steps, j, test);
    LinkedPlaces(steps, j);
    LinkedPlaces(steps, t);
    LinkedIsUnique(steps);
    assert plan.steps[j].id == l[j].id && plan.steps[t].id == l[t].id;
    assert InPhase(plan.steps[t], IterationOf(steps[j]), test);
    SameGraph(l, plan.steps);
    SameUnique(l, plan.steps);
    RootsReach(plan.steps, t, steps[j].id);
    assert DependsOn(plan, plan.steps[t], steps[j].id);
    assert plan.steps[t] in StepsOf(plan.steps, test, IterationOf(steps[j]));
  }

  lemma {:induction false} SameUnique(a: seq<Step>, b: seq<Step>)
    requires UniqueIds(a) && SameIdentity(a, b)
    ensures UniqueIds(b)
  {
    IdentityExtends(a, b);
  }

  lemma {:induction false} CalibratedStepTested(c: CoverageRules, steps: seq<Step>, plan: Plan, j: nat)
    requires RulesHold(c, steps) && UniqueIds(steps) && OneStepEach(steps)
    requires SameIdentity(Linked(steps), plan.steps) && j < |plan.steps| && plan.steps[j].phase == Code
    ensures UnitTested(plan, plan.steps[j])
  {
    hide Linked, RulesHold, OneStepEach, DependsOn, PairedBy;
    LinkedPlaces(steps, j);
    SourceIsPaired(c, steps, plan, j, UnitTest);
    var t :| 0 <= t < |plan.steps| && InPhase(plan.steps[t], IterationOf(steps[j]), UnitTest) &&
      DependsOn(plan, plan.steps[t], steps[j].id);
    assert plan.steps[t] in plan.steps && UnitTestedBy(plan, plan.steps[j], plan.steps[t]);
  }

  lemma {:induction false} CalibratedCovered(c: CoverageRules, steps: seq<Step>, plan: Plan)
    requires RulesHold(c, steps) && UniqueIds(steps) && OneStepEach(steps)
    requires SameIdentity(Linked(steps), plan.steps)
    ensures CodeCovered(plan)
  {
    hide Linked, RulesHold, OneStepEach, UnitTested, OnlyInitFiles, SameIdentity;
    forall s | s in plan.steps && s.phase == Code ensures UnitTested(plan, s) {
      var j :| 0 <= j < |plan.steps| && plan.steps[j] == s;
      CalibratedStepTested(c, steps, plan, j);
    }
  }

  lemma {:induction false} CalibratedSource(
    c: CoverageRules, steps: seq<Step>, plan: Plan, it: string, source: Phase, test: Phase, s: Step)
    requires RulesHold(c, steps) && UniqueIds(steps) && OneStepEach(steps)
    requires SameIdentity(Linked(steps), plan.steps) && PhaseOrder(source) < PhaseOrder(test)
    requires s in StepsOf(plan.steps, source, it)
    ensures PairedBy(plan, s, StepsOf(plan.steps, test, it))
  {
    hide Linked, RulesHold, OneStepEach, PairedBy;
    var j :| 0 <= j < |plan.steps| && plan.steps[j] == s;
    LinkedPlaces(steps, j);
    SourceIsPaired(c, steps, plan, j, test);
  }

  lemma {:induction false} CalibratedPairs(c: CoverageRules, steps: seq<Step>, plan: Plan, it: string, m: nat)
    requires RulesHold(c, steps) && UniqueIds(steps) && OneStepEach(steps) && m < 4
    requires SameIdentity(Linked(steps), plan.steps) && Settled(c.paths, plan.steps)
    ensures PairAccepted(plan, c.paths.executable, it, VModelPairs()[m].0, VModelPairs()[m].1)
  {
    hide Linked, RulesHold, OneStepEach, Settled, PairAccepted, PairedBy, StepsOf, SameIdentity;
    SettledPairAccepted(c.paths, plan, it, m);
    var source, test := VModelPairs()[m].0, VModelPairs()[m].1;
    var sources := StepsOf(plan.steps, source, it);
    forall n | 0 <= n < |sources| ensures PairedBy(plan, sources[n], StepsOf(plan.steps, test, it)) {
      CalibratedSource(c, steps, plan, it, source, test, sources[n]);
    }
  }

  /**
   * Both passes together: a plan with one step per phase comes back with the same steps, every CODE step unit
   * tested and every pair accepted, whatever dependencies and test assets it came with.
   */
  lemma {:induction false} CalibratedPlanAccepted(c: CoverageRules, steps: seq<Step>, plan: Plan)
    requires RulesHold(c, steps) && UniqueIds(steps) && OneStepEach(steps)
    requires plan.steps == Repaired(c, Linked(steps))
    ensures SameIdentity(Linked(steps), plan.steps)
    ensures CodeCovered(plan) && PairsAccepted(plan, c.paths.executable)
  {
    hide Linked, RulesHold, OneStepEach, Paired, Settled, PairAccepted, CodeCovered, Repaired;
    LinkedNeedsNoStep(c, steps);
    LinkedFits(c, steps);
    RulesFit(c, Linked(steps));
    PairedIsSettled(c.paths, Linked(steps));
    CalibratedCovered(c, steps, plan);
    forall k, m | 0 <= k < |CurrentPhases(plan.phases)| && 0 <= m < 4
      ensures PairAccepted(plan, c.paths.executable, CurrentPhases(plan.phases)[k].id, VModelPairs()[m].0,
          VModelPairs()[m].1)
    {
      CalibratedPairs(c, steps, plan, CurrentPhases(plan.phases)[k].id, m);
    }
  }
}
