/** What the coverage repair guarantees, on phase-monotone plans and for the lint that follows. */
module CoverageResults {
  import opened Basics
  import opened Plans
  import opened DependencyGraph
  import opened GraphContraction
  import opened PlanLint
  import opened VModelDependencies
  import opened TestPairing
  import opened GeneratedNames
  import opened CoverageRepair
  import opened CoverageEffects

  // ---- Phase-monotone plans -------------------------------------------------------------

  lemma {:induction false} ReachedAreNodes(g: Graph, p: seq<string>)
    requires IsPath(g, p) && p[|p| - 1] in g
    ensures forall k :: 0 <= k < |p| ==> p[k] in g
  {
    forall k | 0 <= k < |p| - 1 ensures p[k] in g { assert Edge(g, p[k], p[k + 1]); }
  }

  /** Where no dependency leads to a later phase, nothing reached lies in a later one. */
  lemma {:induction false} RankFalls(steps: seq<Step>, order: string -> int, i: nat, j: nat)
    requires UniqueIds(steps) && PhaseMonotone(steps, order) && i < |steps| && j < |steps|
    requires Reaches(GraphOfPlan(steps), steps[i].id, steps[j].id)
    ensures Rank(order, steps[j]) <= Rank(order, steps[i])
  {
    hide Rank, PhaseMonotone, Reaches;
    var g, byId := GraphOfPlan(steps), ById(steps);
    var weight := map id | id in g :: Rank(order, byId[id]);
    forall a, b | Edge(g, a, b) && b in g ensures weight[b] <= weight[a] { EdgeFalls(steps, order, a, b); }
    ByIdUnique(steps, i);
    ByIdUnique(steps, j);
    WeightFallsAlong(g, weight, steps[i].id, steps[j].id);
  }

  lemma {:induction false} WeightFallsAlong(g: Graph, weight: map<string, int>, a: string, b: string)
    requires weight.Keys == g.Keys && forall x, y :: Edge(g, x, y) && y in g ==> weight[y] <= weight[x]
    requires Reaches(g, a, b) && b in g
    ensures a in g && weight[b] <= weight[a]
  {
    var p :| IsPath(g, p) && p[0] == a && p[|p| - 1] == b;
    ReachedAreNodes(g, p);
    WeightFalls(g, weight, p, 0, |p| - 1);
  }

  lemma {:induction false} EdgeFalls(steps: seq<Step>, order: string -> int, a: string, b: string)
    requires UniqueIds(steps) && PhaseMonotone(steps, order) && Edge(GraphOfPlan(steps), a, b) && b in ById(steps)
    ensures Rank(order, ById(steps)[b]) <= Rank(order, ById(steps)[a])
  {
    var s, t := ById(steps)[a], ById(steps)[b];
    assert s in steps && t in steps && t.id in s.dependsOn;
    MonotoneMeansRanked(steps, order);
  }

  /** No dependency of the plan names an id a new step gets. */
  predicate NamesNoNewId(steps: seq<Step>, base: nat, n: nat) {
    forall i, k :: 0 <= i < |steps| && 0 <= k < n ==> NthId(base, k) !in steps[i].dependsOn
  }

  lemma {:induction false} NewIdNotReached(steps: seq<Step>, base: nat, n: nat, i: nat, k: nat)
    requires UniqueIds(steps) && NamesNoNewId(steps, base, n) && i < |steps| && k < n
    requires NthId(base, k) !in Ids(steps)
    ensures !Reaches(GraphOfPlan(steps), steps[i].id, NthId(base, k))
  {
    hide NthId, Reaches;
    var g := GraphOfPlan(steps);
    assert steps[i].id in Ids(steps);
    forall y ensures !Edge(g, y, NthId(base, k)) { NoEdgeToNew(steps, base, n, k, y); }
    if Reaches(g, steps[i].id, NthId(base, k)) { LastEdge(g, steps[i].id, NthId(base, k)); }
  }

  lemma {:induction false} NoEdgeToNew(steps: seq<Step>, base: nat, n: nat, k: nat, y: string)
    requires NamesNoNewId(steps, base, n) && k < n
    ensures !Edge(GraphOfPlan(steps), y, NthId(base, k))
  {
    hide NthId;
    if y in ById(steps) {
      var j :| 0 <= j < |steps| && steps[j] == ById(steps)[y];
    }
  }

  /** The setting of the lemmas below. */
  ghost predicate Tidy(steps: seq<Step>, u: seq<nat>, its: seq<string>, base: nat, order: string -> int) {
    && UniqueIds(steps) && AllCode(steps, u) && PhaseMonotone(steps, order)
    && forall k :: 0 <= k < |its| ==> NthId(base, k) !in Ids(steps)
  }

  /** A step leads to a new step without naming its id only by a later phase of an iteration placed no later. */
  lemma {:induction false} LeadsDown(
    steps: seq<Step>, u: seq<nat>, its: seq<string>, base: nat, order: string -> int, i: nat, m: nat)
    requires Tidy(steps, u, its, base, order) && i < |steps| && LeadsTo(steps, u, its, base, steps[i].id, m)
    requires !Reaches(GraphOfPlan(steps), steps[i].id, NthId(base, m))
    ensures 8 * order(its[m]) + 5 <= Rank(order, steps[i])
  {
    hide Reaches, NthId, GraphOfPlan, NamesUnitTest, DependsOnUncovered;
    var j :| 0 <= j < |steps| && RewiredTo(steps, u, its, j, m) &&
        Reaches(GraphOfPlan(steps), steps[i].id, steps[j].id);
    RankFalls(steps, order, i, j);
  }

  lemma {:induction false} CodeRank(
    steps: seq<Step>, u: seq<nat>, its: seq<string>, order: string -> int, k: nat, id: string)
    returns (i: nat)
    requires AllCode(steps, u) && UncoveredId(steps, u, its, k, id)
    ensures i < |steps| && steps[i].id == id && IterationOf(steps[i]) == its[k]
    ensures Rank(order, steps[i]) == 8 * order(its[k]) + 3
  {
    var n :| 0 <= n < |u| && IterationOf(steps[u[n]]) == its[k] && steps[u[n]].id == id;
    i := u[n];
  }

  lemma {:induction false} LeadsDescends(
    steps: seq<Step>, u: seq<nat>, its: seq<string>, base: nat, order: string -> int, k: nat, m: nat)
    requires Tidy(steps, u, its, base, order) && NamesNoNewId(steps, base, |its|)
    requires k < |its| && m < |its| && Leads(steps, u, its, base, k, m)
    ensures order(its[m]) < order(its[k])
  {
    hide UncoveredId, LeadsTo, NthId, PhaseMonotone;
    var id :| UncoveredId(steps, u, its, k, id) && LeadsTo(steps, u, its, base, id, m);
    var i := CodeRank(steps, u, its, order, k, id);
    NewIdNotReached(steps, base, |its|, i, m);
    LeadsDown(steps, u, its, base, order, i, m);
  }

  /** The place of the iteration a new id stands for. */
  function NewOrder(its: seq<string>, base: nat, order: string -> int, id: string): int {
    var k := NumberOf(id) - base;
    if 0 <= k < |its| then order(its[k]) else 0
  }

  lemma {:induction false} NewOrderAt(its: seq<string>, base: nat, order: string -> int, k: nat)
    requires k < |its|
    ensures NewOrder(its, base, order, NthId(base, k)) == order(its[k])
  {
    NewIdReadsBack(base + k);
  }

  lemma {:induction false} NewEdgeDescends(
    steps: seq<Step>, u: seq<nat>, its: seq<string>, base: nat, order: string -> int, a: string, b: string)
    requires Tidy(steps, u, its, base, order) && NamesNoNewId(steps, base, |its|)
    requires Edge(NewGraph(steps, u, its, base), a, b)
    ensures NewOrder(its, base, order, b) < NewOrder(its, base, order, a)
  {
    hide Leads, NthId, NewGraph, NewOrder, Tidy;
    assert AllCode(steps, u) by { TidyIsCode(steps, u, its, base, order); }
    NewGraphShape(steps, u, its, base);
    var k :| 0 <= k < |its| && a == NthId(base, k);
    var m :| 0 <= m < |its| && b == NthId(base, m);
    NewEdgeIff(steps, u, its, base, k, m);
    LeadsDescends(steps, u, its, base, order, k, m);
    NewOrderAt(its, base, order, k);
    NewOrderAt(its, base, order, m);
  }

  lemma {:induction false} TidyIsCode(steps: seq<Step>, u: seq<nat>, its: seq<string>, base: nat, order: string -> int)
    requires Tidy(steps, u, its, base, order)
    ensures AllCode(steps, u)
  {
  }

  lemma {:induction false} NewPathDescends(
    steps: seq<Step>, u: seq<nat>, its: seq<string>, base: nat, order: string -> int, p: seq<string>)
    requires Tidy(steps, u, its, base, order) && NamesNoNewId(steps, base, |its|) && InRange(u, |steps|)
    requires IsPath(NewGraph(steps, u, its, base), p)
    ensures |p| == 1 || NewOrder(its, base, order, p[|p| - 1]) < NewOrder(its, base, order, p[0])
  {
    hide NewGraph, NewOrder, Tidy, NamesNoNewId;
    var n := |p| - 1;
    if n > 0 {
      NewPathDescends(steps, u, its, base, order, p[..n]);
      assert Edge(NewGraph(steps, u, its, base), p[n - 1], p[n]);
      NewEdgeDescends(steps, u, its, base, order, p[n - 1], p[n]);
    }
  }

  lemma {:induction false} NewGraphAcyclic(
    steps: seq<Step>, u: seq<nat>, its: seq<string>, base: nat, order: string -> int)
    requires Tidy(steps, u, its, base, order) && NamesNoNewId(steps, base, |its|) && InRange(u, |steps|)
    ensures !Cyclic(NewGraph(steps, u, its, base))
  {
    hide NewGraph, NewOrder, Tidy, NamesNoNewId;
    if p :| IsPath(NewGraph(steps, u, its, base), p) && |p| >= 2 && p[0] == p[|p| - 1] {
      NewPathDescends(steps, u, its, base, order, p);
      assert false;
    }
  }

  lemma {:induction false} RepairIsTidy(c: CoverageRules, steps: seq<Step>, order: string -> int)
    requires RulesHold(c, steps) && UniqueIds(steps) && PhaseMonotone(steps, order)
    ensures Tidy(steps, Gaps(c, steps), GapIterations(c, steps), FirstNumber(steps), order)
  {
    hide RulesHold, PhaseMonotone, GapIterations, FirstNumber;
    UncoveredIsCode(c, steps);
    RepairIsWired(c, steps);
    WiredUnique(steps, Repaired(c, steps), Gaps(c, steps), GapIterations(c, steps), FirstNumber(steps));
  }

  /** On a phase-monotone plan that names none of the new ids, the repair neither makes nor breaks a cycle. */
  lemma {:induction false} RepairKeepsAcyclic(c: CoverageRules, steps: seq<Step>, order: string -> int)
    requires RulesHold(c, steps) && UniqueIds(steps) && PhaseMonotone(steps, order)
    requires NamesNoNewId(steps, FirstNumber(steps), |GapIterations(c, steps)|)
    ensures Cyclic(GraphOfPlan(Repaired(c, steps))) <==> Cyclic(GraphOfPlan(steps))
  {
    hide Repaired, RulesHold, PhaseMonotone, GapIterations, FirstNumber, NamesNoNewId, NewGraph, Gaps, Tidy;
    RepairIsTidy(c, steps, order);
    NewGraphAcyclic(steps, Gaps(c, steps), GapIterations(c, steps), FirstNumber(steps), order);
    RepairCyclicIff(c, steps);
  }

  // ---- One uncovered iteration ----------------------------------------------------------

  /** An uncovered step reaches the next free id. */
  ghost predicate ReachesNextId(c: CoverageRules, steps: seq<Step>) {
    exists n :: 0 <= n < |Gaps(c, steps)| &&
                Reaches(GraphOfPlan(steps), steps[Gaps(c, steps)[n]].id, NewId(FirstNumber(steps)))
  }

  lemma {:induction false} SoleLeads(
    steps: seq<Step>, u: seq<nat>, its: seq<string>, base: nat, order: string -> int)
    requires Tidy(steps, u, its, base, order) && |its| == 1
    requires forall n :: 0 <= n < |u| ==> IterationOf(steps[u[n]]) == its[0]
    ensures Leads(steps, u, its, base, 0, 0) <==>
            exists n :: 0 <= n < |u| && Reaches(GraphOfPlan(steps), steps[u[n]].id, NthId(base, 0))
  {
    hide NthId, PhaseMonotone, Reaches, GraphOfPlan;
    if Leads(steps, u, its, base, 0, 0) {
      var id :| UncoveredId(steps, u, its, 0, id) && LeadsTo(steps, u, its, base, id, 0);
      var n :| 0 <= n < |u| && steps[u[n]].id == id;
      var i := CodeRank(steps, u, its, order, 0, id);
      if !Reaches(GraphOfPlan(steps), id, NthId(base, 0)) {
        LeadsDown(steps, u, its, base, order, i, 0);
        assert false;
      }
      assert Reaches(GraphOfPlan(steps), steps[u[n]].id, NthId(base, 0));
    }
    if n :| 0 <= n < |u| && Reaches(GraphOfPlan(steps), steps[u[n]].id, NthId(base, 0)) {
      assert UncoveredId(steps, u, its, 0, steps[u[n]].id);
      assert LeadsTo(steps, u, its, base, steps[u[n]].id, 0);
    }
  }

  lemma {:induction false} SoleCyclic(steps: seq<Step>, u: seq<nat>, its: seq<string>, base: nat)
    requires InRange(u, |steps|) && |its| == 1
    ensures Cyclic(NewGraph(steps, u, its, base)) <==> Leads(steps, u, its, base, 0, 0)
  {
    hide NthId, NewGraph, Leads;
    var l := NewGraph(steps, u, its, base);
    NewGraphShape(steps, u, its, base);
    NewEdgeIff(steps, u, its, base, 0, 0);
    if Cyclic(l) {
      var p :| IsPath(l, p) && |p| >= 2 && p[0] == p[|p| - 1];
      assert Edge(l, p[0], p[1]);
      assert IsNewId(its, base, p[0]) && IsNewId(its, base, p[1]);
    }
    if Leads(steps, u, its, base, 0, 0) {
      ReachesSelf(l, NthId(base, 0));
      EdgeBackIsCycle(l, NthId(base, 0), NthId(base, 0));
    }
  }

  /**
   * With one uncovered iteration, the repair of a phase-monotone plan is cyclic exactly when the plan was, or some
   * uncovered CODE step transitively depends on the next free id.
   */
  lemma {:induction false} OneIterationCyclicIff(c: CoverageRules, steps: seq<Step>, order: string -> int)
    requires RulesHold(c, steps) && UniqueIds(steps) && PhaseMonotone(steps, order)
    requires |GapIterations(c, steps)| == 1
    ensures Cyclic(GraphOfPlan(Repaired(c, steps))) <==> Cyclic(GraphOfPlan(steps)) || ReachesNextId(c, steps)
  {
    hide Repaired, RulesHold, PhaseMonotone, FirstNumber, NewGraph, Tidy, Leads, Reaches, NewId;
    var u, its, base := Gaps(c, steps), GapIterations(c, steps), FirstNumber(steps);
    RepairIsTidy(c, steps, order);
    RepairCyclicIff(c, steps);
    SoleCyclic(steps, u, its, base);
    SoleLeads(steps, u, its, base, order);
    assert NthId(base, 0) == NewId(base);
  }

  // ---- Coverage, on phase-monotone plans ------------------------------------------------

  /** An uncovered CODE step of the step's iteration transitively depends on it. */
  ghost predicate ReachedFromGap(steps: seq<Step>, u: seq<nat>, c: Step)
    requires InRange(u, |steps|)
  {
    exists n :: 0 <= n < |u| && IterationOf(steps[u[n]]) == IterationOf(c) &&
                Reaches(GraphOfPlan(steps), steps[u[n]].id, c.id)
  }

  lemma {:induction false} ExitsNotLater(
    steps: seq<Step>, u: seq<nat>, its: seq<string>, base: nat, order: string -> int, m: nat, i: nat)
    requires Tidy(steps, u, its, base, order) && m < |its| && i < |steps| && steps[i].phase == Code
    requires Exits(steps, u, its, m, steps[i].id)
    ensures order(IterationOf(steps[i])) <= order(its[m])
  {
    hide UncoveredId, Reaches, PhaseMonotone;
    var x :| UncoveredId(steps, u, its, m, x) && Reaches(GraphOfPlan(steps), x, steps[i].id);
    var j := CodeRank(steps, u, its, order, m, x);
    RankFalls(steps, order, j, i);
  }

  lemma {:induction false} StartsNotLater(
    steps: seq<Step>, u: seq<nat>, its: seq<string>, base: nat, order: string -> int, iteration: string, k: nat)
    requires Tidy(steps, u, its, base, order) && NamesNoNewId(steps, base, |its|)
    requires Starts(steps, u, its, base, iteration, k)
    ensures its[k] == iteration || order(its[k]) < order(iteration)
  {
    hide LeadsTo, NthId, PhaseMonotone;
    if its[k] != iteration {
      var t :| 0 <= t < |steps| && InPhase(steps[t], iteration, UnitTest) &&
        LeadsTo(steps, u, its, base, steps[t].id, k);
      NewIdNotReached(steps, base, |its|, t, k);
      LeadsDown(steps, u, its, base, order, t, k);
    }
  }

  lemma {:induction false} NewReachesNotLater(
    steps: seq<Step>, u: seq<nat>, its: seq<string>, base: nat, order: string -> int, k: nat, m: nat)
    requires Tidy(steps, u, its, base, order) && NamesNoNewId(steps, base, |its|) && InRange(u, |steps|)
    requires k < |its| && m < |its| && Reaches(NewGraph(steps, u, its, base), NthId(base, k), NthId(base, m))
    ensures k == m || order(its[m]) < order(its[k])
  {
    hide NewGraph, NthId, Tidy, NewOrder, NamesNoNewId;
    var p :| IsPath(NewGraph(steps, u, its, base), p) && p[0] == NthId(base, k) && p[|p| - 1] == NthId(base, m);
    NewPathDescends(steps, u, its, base, order, p);
    NewOrderAt(its, base, order, k);
    NewOrderAt(its, base, order, m);
    if |p| == 1 && k != m {
      NthIdsDiffer(base, k, m);
      assert false;
    }
  }

  lemma {:induction false} AroundIsGap(
    steps: seq<Step>, u: seq<nat>, its: seq<string>, base: nat, order: string -> int, i: nat)
    requires Tidy(steps, u, its, base, order) && NamesNoNewId(steps, base, |its|) && InRange(u, |steps|)
    requires i < |steps| && steps[i].phase == Code
    requires forall n :: 0 <= n < |u| ==> IterationOf(steps[u[n]]) in its
    ensures CoveredAround(steps, u, its, base, steps[i]) <==> ReachedFromGap(steps, u, steps[i])
  {
    hide NewGraph, NthId, Tidy, NamesNoNewId, Reaches, Starts, Exits;
    var c := steps[i];
    if CoveredAround(steps, u, its, base, c) {
      var k: nat, m: nat :| Starts(steps, u, its, base, IterationOf(c), k) && Exits(steps, u, its, m, c.id) &&
        Reaches(NewGraph(steps, u, its, base), NthId(base, k), NthId(base, m));
      StartsInRange(steps, u, its, base, IterationOf(c), k);
      ExitsInRange(steps, u, its, m, c.id);
      StartsNotLater(steps, u, its, base, order, IterationOf(c), k);
      NewReachesNotLater(steps, u, its, base, order, k, m);
      ExitsNotLater(steps, u, its, base, order, m, i);
      assert its[m] == IterationOf(c);
      ExitIsGap(steps, u, its, m, c);
    }
    if ReachedFromGap(steps, u, c) { GapIsAround(steps, u, its, base, c); }
  }

  lemma {:induction false} StartsInRange(
    steps: seq<Step>, u: seq<nat>, its: seq<string>, base: nat, iteration: string, k: nat)
    requires InRange(u, |steps|) && Starts(steps, u, its, base, iteration, k)
    ensures k < |its|
  {
  }

  lemma {:induction false} ExitIsGap(steps: seq<Step>, u: seq<nat>, its: seq<string>, m: nat, c: Step)
    requires InRange(u, |steps|) && m < |its| && its[m] == IterationOf(c) && Exits(steps, u, its, m, c.id)
    ensures ReachedFromGap(steps, u, c)
  {
  }

  lemma {:induction false} GapIsAround(steps: seq<Step>, u: seq<nat>, its: seq<string>, base: nat, c: Step)
    requires InRange(u, |steps|) && ReachedFromGap(steps, u, c)
    requires forall n :: 0 <= n < |u| ==> IterationOf(steps[u[n]]) in its
    ensures CoveredAround(steps, u, its, base, c)
  {
    hide NewGraph, NthId, LeadsTo, Reaches;
    var n :| 0 <= n < |u| && IterationOf(steps[u[n]]) == IterationOf(c) &&
      Reaches(GraphOfPlan(steps), steps[u[n]].id, c.id);
    var k :| 0 <= k < |its| && its[k] == IterationOf(c);
    assert UncoveredId(steps, u, its, k, steps[u[n]].id);
    ReachesSelf(NewGraph(steps, u, its, base), NthId(base, k));
    assert Starts(steps, u, its, base, IterationOf(c), k) && Exits(steps, u, its, k, c.id);
  }

  /**
   * On a phase-monotone plan that names none of the new ids, a CODE step is covered in the repaired plan exactly
   * when it was covered, or some uncovered CODE step of its iteration transitively depends on it.
   */
  lemma {:induction false} MonotoneCoversIff(c: CoverageRules, steps: seq<Step>, order: string -> int, i: nat)
    requires RulesHold(c, steps) && UniqueIds(steps) && PhaseMonotone(steps, order)
    requires NamesNoNewId(steps, FirstNumber(steps), |GapIterations(c, steps)|)
    requires i < |steps| && steps[i].phase == Code
    ensures i < |Repaired(c, steps)|
    ensures Covered(Repaired(c, steps), Repaired(c, steps)[i]) <==>
            Covered(steps, steps[i]) || ReachedFromGap(steps, Gaps(c, steps), steps[i])
  {
    hide Repaired, RulesHold, PhaseMonotone, FirstNumber, Tidy, NamesNoNewId, Covered, CoveredAround;
    RepairIsTidy(c, steps, order);
    RepairCoversIff(c, steps, i);
    AroundIsGap(steps, Gaps(c, steps), GapIterations(c, steps), FirstNumber(steps), order, i);
  }

  /** The repaired plan is phase-monotone again, and its dependencies known if they were. */
  lemma {:induction false} RepairKeepsOrder(c: CoverageRules, steps: seq<Step>, order: string -> int)
    requires RulesHold(c, steps) && UniqueIds(steps) && PhaseMonotone(steps, order)
    requires NamesNoNewId(steps, FirstNumber(steps), |GapIterations(c, steps)|)
    ensures PhaseMonotone(Repaired(c, steps), order)
    ensures ClosedDeps(steps) ==> ClosedDeps(Repaired(c, steps))
  {
    hide Repaired, RulesHold, PhaseMonotone, FirstNumber, GapIterations, Extends, NthId;
    var out := Repaired(c, steps);
    RepairIsWired(c, steps);
    RepairEstablishes(c, steps);
    forall i, j | 0 <= i < |steps| && |steps| <= j < |out| ensures out[j].id !in steps[i].dependsOn {
      var its := GapIterations(c, steps);
      assert NewWired(steps, out[j], Gaps(c, steps), its, FirstNumber(steps), j - |steps|);
    }
    ExtendedMonotone(steps, out, order);
    if ClosedDeps(steps) { ExtendedClosed(steps, out); }
  }

  // ---- A plan the repair makes cyclic ---------------------------------------------------

  /** A CODE step that depends on the id the next step will get. */
  function CapturingPlan(id: string, it: string): seq<Step> {
    [Step(id, Some(it), Code, [], [], [NewId(NumberOf(id) + 1)])]
  }

  lemma {:induction false} CapturingGaps(c: CoverageRules, id: string, it: string)
    ensures
      var plan := CapturingPlan(id, it);
      Gaps(c, plan) == [0] && GapIterations(c, plan) == [it] && FirstNumber(plan) == NumberOf(id) + 1
  {
    hide NewId, NumberOf;
    var plan := CapturingPlan(id, it);
    assert !Covered(plan, plan[0]);
    assert Uncovered(c, plan, 0);
    assert Gaps(c, plan) == UncoveredUpTo(c, plan, 0) + [0];
    assert plan[..0] == [];
    assert MaxNumber(plan) == NumberOf(id);
    OneIterationAt(plan, it);
  }

  lemma {:induction false} OneIterationAt(plan: seq<Step>, it: string)
    requires |plan| == 1 && IterationOf(plan[0]) == it
    ensures IterationsAt(plan, [0]) == [it]
  {
    var at := seq(1, k requires 0 <= k < 1 => plan[[0][k]]);
    var ids := IterationIds(at);
    assert at == plan;
    assert IterationsAt(plan, [0]) == ids;
    assert IterationOf(at[0]) in ids;
    forall x | x in ids ensures x == it { assert exists i :: 0 <= i < |at| && IterationOf(at[i]) == x; }
    OneElement(ids, it);
  }

  lemma {:induction false} CapturingIsAcyclic(id: string, it: string)
    ensures !Cyclic(GraphOfPlan(CapturingPlan(id, it)))
  {
    var g, d := GraphOfPlan(CapturingPlan(id, it)), NewId(NumberOf(id) + 1);
    NewIdReadsBack(NumberOf(id) + 1);
    assert d != id;
    if p :| IsPath(g, p) && |p| >= 2 && p[0] == p[|p| - 1] {
      assert Edge(g, p[0], p[1]);
      CapturingEdges(id, it, p[0], p[1]);
      if |p| > 2 {
        assert Edge(g, p[1], p[2]);
        CapturingEdges(id, it, p[1], p[2]);
      }
      assert false;
    }
  }

  lemma {:induction false} CapturingEdges(id: string, it: string, a: string, b: string)
    requires Edge(GraphOfPlan(CapturingPlan(id, it)), a, b)
    ensures a == id && b == NewId(NumberOf(id) + 1)
  {
    hide NewId, NumberOf;
    var plan := CapturingPlan(id, it);
    assert ById(plan)[a] in plan;
  }

  /** An unknown dependency that happens to name the next free id: acyclic before the repair, cyclic after it. */
  lemma {:induction false} CapturedDependencyMakesCycle(c: CoverageRules, id: string, it: string)
    requires RulesHold(c, CapturingPlan(id, it))
    ensures !Cyclic(GraphOfPlan(CapturingPlan(id, it)))
    ensures Cyclic(GraphOfPlan(Repaired(c, CapturingPlan(id, it))))
  {
    hide Repaired, RulesHold, NewId, NumberOf, NewGraph;
    var plan := CapturingPlan(id, it);
    CapturingIsAcyclic(id, it);
    CapturingGaps(c, id, it);
    SoleEdges(plan);
    var g, d := GraphOfPlan(plan), NewId(NumberOf(id) + 1);
    ReachesSelf(g, id);
    ReachesStep(g, id, id, d);
    assert UncoveredId(plan, [0], [it], 0, id);
    assert NthId(NumberOf(id) + 1, 0) == d;
    assert LeadsTo(plan, [0], [it], NumberOf(id) + 1, id, 0);
    SoleCyclic(plan, [0], [it], NumberOf(id) + 1);
    RepairCyclicIff(c, plan);
  }

  lemma {:induction false} SoleEdges(plan: seq<Step>)
    requires |plan| == 1
    ensures forall d :: d in plan[0].dependsOn ==> Edge(GraphOfPlan(plan), plan[0].id, d)
  {
    ByIdUnique(plan, 0);
  }

  // ---- The coverage rule of the lint ----------------------------------------------------

  /**
   * Exempt here, because its implementation outputs are all package markers, but not in the lint, which looks at
   * every output.
   */
  predicate ExemptHereOnly(c: CoverageRules, s: Step) {
    s.phase == Code && IsInitOnly(c, s) && !OnlyInitFiles(s)
  }

  lemma {:induction false} LintReadsCoverage(c: CoverageRules, plan: Plan)
    requires AllCovered(c, plan.steps)
    ensures CodeCovered(plan) <==>
            forall i :: 0 <= i < |plan.steps| && ExemptHereOnly(c, plan.steps[i]) ==> Covered(plan.steps, plan.steps[i])
  {
    hide Covered, UnitTested, OnlyInitFiles, IsInitOnly;
    forall i | 0 <= i < |plan.steps| ensures Covered(plan.steps, plan.steps[i]) <==> UnitTested(plan, plan.steps[i]) {
      CoveredMeansUnitTested(plan, plan.steps[i]);
    }
    if CodeCovered(plan) {
      forall i | 0 <= i < |plan.steps| && ExemptHereOnly(c, plan.steps[i]) ensures Covered(plan.steps, plan.steps[i]) {
        assert plan.steps[i] in plan.steps;
      }
    }
  }

  /** The coverage rule of the lint, read off the repaired plan. */
  lemma {:induction false} RepairedCoverageIff(c: CoverageRules, steps: seq<Step>, plan: Plan)
    requires RulesHold(c, steps) && UniqueIds(steps) && plan.steps == Repaired(c, steps)
    ensures |steps| <= |plan.steps|
    ensures CodeCovered(plan) <==>
            forall i :: 0 <= i < |steps| && ExemptHereOnly(c, plan.steps[i]) ==>
              Covered(steps, steps[i]) ||
              CoveredAround(steps, Gaps(c, steps), GapIterations(c, steps), FirstNumber(steps), steps[i])
  {
    hide Covered, CoveredAround, Repaired, RulesHold, Gaps, GapIterations, FirstNumber, OnlyInitFiles, IsInitOnly;
    RepairEstablishes(c, steps);
    LintReadsCoverage(c, plan);
    forall j | 0 <= j < |plan.steps| && plan.steps[j].phase == Code ensures j < |steps| && steps[j].phase == Code {
      assert j < |steps| || NewStep(steps, plan.steps[j]);
      assert Keeps(steps[j], plan.steps[j]);
    }
    forall i | 0 <= i < |steps| && steps[i].phase == Code
      ensures Covered(plan.steps, plan.steps[i]) <==>
              Covered(steps, steps[i]) ||
              CoveredAround(steps, Gaps(c, steps), GapIterations(c, steps), FirstNumber(steps), steps[i])
    {
      RepairCoversIff(c, steps, i);
    }
  }

  lemma {:induction false} GapsListed(c: CoverageRules, steps: seq<Step>)
    ensures forall n :: 0 <= n < |Gaps(c, steps)| ==> IterationOf(steps[Gaps(c, steps)[n]]) in GapIterations(c, steps)
  {
    hide Gaps;
  }

  // ---- The report of a new step ---------------------------------------------------------

  /** An output that is neither an executable test nor reserved. */
  predicate Plain(c: CoverageRules, o: string) {
    !c.paths.executable(o) && !c.paths.reserved(o)
  }

  lemma {:induction false} JoinedPlainOutputs(c: CoverageRules, p: seq<Step>, u: seq<nat>, i: nat, o: string)
    requires RulesHold(c, p) && UniqueIds(p) && u == UncoveredUpTo(c, p, |p|) && Plain(c, o)
    requires i < |Joined(c, p, u)|
    ensures |Joined(c, p, u)| == |p| + |IterationsAt(p, u)|
    ensures o in Joined(c, p, u)[i].outputs <==>
            if i < |p| then o in p[i].outputs else o == c.unitDoc(IterationsAt(p, u)[i - |p|])
  {
    hide Joined, UncoveredUpTo, IterationsAt, Extends, RulesHold;
    var its, joined := IterationsAt(p, u), Joined(c, p, u);
    JoinedUncovered(c, p, u, joined);
    if i >= |p| {
      var made := joined[|p|..];
      assert MadeFor(c, p, u, made[i - |p|], its[i - |p|], MaxNumber(p) + 1 + (i - |p|)) && made[i - |p|] == joined[i];
    }
  }

  /** Plain outputs: the old steps keep theirs, a new step has its report only. */
  lemma {:induction false} RepairedPlainOutputs(c: CoverageRules, steps: seq<Step>, i: nat, o: string)
    requires RulesHold(c, steps) && UniqueIds(steps) && Plain(c, o) && i < |Repaired(c, steps)|
    ensures |Repaired(c, steps)| == |steps| + |GapIterations(c, steps)|
    ensures o in Repaired(c, steps)[i].outputs <==>
            if i < |steps| then o in steps[i].outputs else o == c.unitDoc(GapIterations(c, steps)[i - |steps|])
  {
    hide Paired, UncoveredUpTo, Joined, Extends, IterationsAt, Wired, RulesHold, Settled;
    var p := Paired(c.paths, steps);
    RepairIsWired(c, steps);
    RepairLength(c, steps);
    RulesFit(c, steps);
    PairedIsSettled(c.paths, steps);
    RulesStay(c, steps, p);
    IdentityExtends(steps, p);
    UncoveredAlike(c, steps, |steps|);
    SameIterationsAt(steps, p, Gaps(c, steps));
    if i < |steps| { PairedKeepsPlain(c.paths, steps, i, o); }
    if Gaps(c, steps) != [] {
      var joined := Joined(c, p, Gaps(c, steps));
      JoinedUncovered(c, p, Gaps(c, steps), joined);
      RulesFit(c, joined);
      PairedKeepsPlain(c.paths, joined, i, o);
      JoinedPlainOutputs(c, p, Gaps(c, steps), i, o);
    }
  }

  lemma {:induction false} RepairLength(c: CoverageRules, steps: seq<Step>)
    requires RulesHold(c, steps) && UniqueIds(steps)
    ensures |Repaired(c, steps)| == |steps| + |GapIterations(c, steps)|
  {
    hide Repaired, Gaps, GapIterations, RulesHold;
    RepairIsWired(c, steps);
  }

  /** No other uncovered iteration has the same report. */
  predicate OwnReport(c: CoverageRules, its: seq<string>, k: nat)
    requires k < |its|
  {
    forall m :: 0 <= m < |its| && m != k ==> c.unitDoc(its[m]) != c.unitDoc(its[k])
  }

  /** The owners of a new step's report: the new step, and whatever steps of the plan list it already. */
  lemma {:induction false} ReportOwners(c: CoverageRules, steps: seq<Step>, k: nat, i: nat)
    requires RulesHold(c, steps) && UniqueIds(steps) && k < |GapIterations(c, steps)| && i < |Repaired(c, steps)|
    requires Plain(c, c.unitDoc(GapIterations(c, steps)[k])) && OwnReport(c, GapIterations(c, steps), k)
    ensures
      var report := c.unitDoc(GapIterations(c, steps)[k]);
      report in Repaired(c, steps)[i].outputs <==>
        i == |steps| + k || (i < |steps| && report in steps[i].outputs)
  {
    hide Repaired, GapIterations, RulesHold, Plain;
    RepairedPlainOutputs(c, steps, i, c.unitDoc(GapIterations(c, steps)[k]));
  }

  /** The report has a single owner exactly when no step of the plan lists it already. */
  lemma {:induction false} ReportOwnedOnceIff(c: CoverageRules, steps: seq<Step>, k: nat)
    requires RulesHold(c, steps) && UniqueIds(steps) && k < |GapIterations(c, steps)|
    requires Plain(c, c.unitDoc(GapIterations(c, steps)[k])) && OwnReport(c, GapIterations(c, steps), k)
    ensures
      var report := c.unitDoc(GapIterations(c, steps)[k]);
      OneOwner(Repaired(c, steps), report) <==> forall i :: 0 <= i < |steps| ==> report !in steps[i].outputs
  {
    hide Repaired, GapIterations, RulesHold, Plain, OwnReport;
    var report, out, j := c.unitDoc(GapIterations(c, steps)[k]), Repaired(c, steps), |steps| + k;
    RepairLength(c, steps);
    forall i | 0 <= i < |out|
      ensures report in out[i].outputs <==> i == j || (i < |steps| && report in steps[i].outputs)
    {
      ReportOwners(c, steps, k, i);
    }
    if i :| 0 <= i < |steps| && report in steps[i].outputs {
      assert report in out[i].outputs && report in out[j].outputs && i != j;
    }
  }

  lemma {:induction false} FirstOwnerIs(steps: seq<Step>, o: string, i: nat)
    requires i < |steps| && o in steps[i].outputs && forall m :: 0 <= m < i ==> o !in steps[m].outputs
    ensures FirstOwner(steps, o) == Some(steps[i].id)
  {
    var n := |steps| - 1;
    if i < n { FirstOwnerIs(steps[..n], o, i); } else { NoOwnerYet(steps[..n], o); }
  }

  lemma {:induction false} NoOwnerYet(steps: seq<Step>, o: string)
    requires forall m :: 0 <= m < |steps| ==> o !in steps[m].outputs
    ensures FirstOwner(steps, o) == None
  {
    if steps != [] { NoOwnerYet(steps[..|steps| - 1], o); }
  }

  lemma {:induction false} SecondOwner(plan: Plan, j: nat, b: nat, i: nat)
    requires i < j < |plan.steps| && b < |plan.steps[j].outputs|
    requires plan.steps[j].outputs[b] in plan.steps[i].outputs
    requires forall m :: 0 <= m < i ==> plan.steps[j].outputs[b] !in plan.steps[m].outputs
    ensures OutputAccepted(plan, j, b) <==> MayRewrite(plan, plan.steps[j], plan.steps[i].id)
  {
    hide MayRewrite;
    FirstOwnerIs(ReadSoFar(plan.steps, j, b), plan.steps[j].outputs[b], i);
  }

  /** The first step of the plan that lists the report. */
  predicate FirstLists(steps: seq<Step>, report: string, i: nat) {
    i < |steps| && report in steps[i].outputs && forall m :: 0 <= m < i ==> report !in steps[m].outputs
  }

  /** The output rule of the lint accepts each listing of the report by step `j`. */
  ghost predicate ReportAccepted(plan: Plan, j: nat, report: string) {
    j < |plan.steps| &&
    forall b :: 0 <= b < |plan.steps[j].outputs| && plan.steps[j].outputs[b] == report ==> OutputAccepted(plan, j, b)
  }

  ghost predicate MayRewriteAt(plan: Plan, j: nat, owner: string) {
    j < |plan.steps| && MayRewrite(plan, plan.steps[j], owner)
  }

  lemma {:induction false} SecondListing(plan: Plan, j: nat, i: nat, report: string)
    requires i < j < |plan.steps| && FirstLists(plan.steps, report, i) && report in plan.steps[j].outputs
    ensures ReportAccepted(plan, j, report) <==> MayRewriteAt(plan, j, plan.steps[i].id)
  {
    hide MayRewrite, OutputAccepted;
    forall b | 0 <= b < |plan.steps[j].outputs| && plan.steps[j].outputs[b] == report
      ensures OutputAccepted(plan, j, b) <==> MayRewrite(plan, plan.steps[j], plan.steps[i].id)
    {
      SecondOwner(plan, j, b, i);
    }
  }

  lemma {:induction false} ReportRewriteRule(
    c: CoverageRules, steps: seq<Step>, plan: Plan, report: string, k: nat, i: nat)
    requires FirstLists(steps, report, i) && Plain(c, report)
    requires RulesHold(c, steps) && UniqueIds(steps) && plan.steps == Repaired(c, steps)
    requires k < |GapIterations(c, steps)| && report == c.unitDoc(GapIterations(c, steps)[k])
    requires OwnReport(c, GapIterations(c, steps), k)
    ensures ReportAccepted(plan, |steps| + k, report) <==> MayRewriteAt(plan, |steps| + k, steps[i].id)
  {
    hide Repaired, GapIterations, RulesHold, Plain, OwnReport, ReportAccepted, MayRewriteAt, Wired;
    RepairLength(c, steps);
    forall m | 0 <= m <= i ensures report in plan.steps[m].outputs <==> report in steps[m].outputs {
      ReportOwners(c, steps, k, m);
    }
    ReportOwners(c, steps, k, |steps| + k);
    RepairEstablishes(c, steps);
    assert Keeps(steps[i], plan.steps[i]);
    SecondListing(plan, |steps| + k, i, report);
  }

  /**
   * The dependencies of new step `k` lead to the id: through new steps, and out by an uncovered step that reaches it.
   */
  ghost predicate NewStepReaches(steps: seq<Step>, u: seq<nat>, its: seq<string>, base: nat, k: nat, id: string)
    requires InRange(u, |steps|)
  {
    exists m :: Exits(steps, u, its, m, id) && Reaches(NewGraph(steps, u, its, base), NthId(base, k), NthId(base, m))
  }

  lemma {:induction false} NewStepDepends(
    steps: seq<Step>, plan: Plan, u: seq<nat>, its: seq<string>, base: nat, k: nat, i: nat)
    requires InRange(u, |steps|) && Wired(steps, plan.steps, u, its, base) && k < |its| && i < |steps|
    ensures |steps| + k < |plan.steps|
    ensures DependsOn(plan, plan.steps[|steps| + k], steps[i].id) <==>
            NewStepReaches(steps, u, its, base, k, steps[i].id)
  {
    hide NewGraph, NthId, Reaches, ReachesFrom, Exits, GraphOf, ById, UncoveredId;
    var j := |steps| + k;
    assert NewWired(steps, plan.steps[j], u, its, base, j - |steps|);
    assert OldWired(steps, plan.steps[i], u, its, base, i);
    assert plan.steps[i].id != plan.steps[j].id;
    assert steps[i] in steps;
    RootsReach(plan.steps, j, steps[i].id);
    NewTestReaches(steps, plan.steps, u, its, base, steps[i], k);
  }

  lemma {:induction false} NewStepMayRewriteIff(
    steps: seq<Step>, plan: Plan, u: seq<nat>, its: seq<string>, base: nat, k: nat, i: nat)
    requires InRange(u, |steps|) && Wired(steps, plan.steps, u, its, base) && k < |its| && i < |steps|
    ensures MayRewriteAt(plan, |steps| + k, steps[i].id) <==>
              && IterationOrder(plan.phases, IterationOf(steps[i])) < IterationOrder(plan.phases, its[k])
              && NewStepReaches(steps, u, its, base, k, steps[i].id)
  {
    hide NthId, NewStepReaches, DependsOn, IterationOrder, UncoveredId, RewiredTo;
    var j := |steps| + k;
    NewStepDepends(steps, plan, u, its, base, k, i);
    assert NewWired(steps, plan.steps[j], u, its, base, j - |steps|);
    assert OldWired(steps, plan.steps[i], u, its, base, i);
    ByIdUnique(plan.steps, i);
  }

  /**
   * Where some step lists the report already, the output rule of the lint accepts the new step's listing exactly
   * when the first such step lies in an earlier iteration and the new step's dependencies lead to it.
   */
  lemma {:induction false} ReportAcceptedIff(
    c: CoverageRules, steps: seq<Step>, plan: Plan, report: string, k: nat, i: nat)
    requires FirstLists(steps, report, i) && Plain(c, report)
    requires RulesHold(c, steps) && UniqueIds(steps) && plan.steps == Repaired(c, steps)
    requires k < |GapIterations(c, steps)| && report == c.unitDoc(GapIterations(c, steps)[k])
    requires OwnReport(c, GapIterations(c, steps), k)
    ensures
      var its := GapIterations(c, steps);
      ReportAccepted(plan, |steps| + k, report) <==>
        && IterationOrder(plan.phases, IterationOf(steps[i])) < IterationOrder(plan.phases, its[k])
        && NewStepReaches(steps, Gaps(c, steps), its, FirstNumber(steps), k, steps[i].id)
  {
    hide Repaired, GapIterations, RulesHold, Plain, OwnReport, ReportAccepted, MayRewriteAt, Wired, NewStepReaches;
    hide IterationOrder, FirstNumber;
    ReportRewriteRule(c, steps, plan, report, k, i);
    RepairIsWired(c, steps);
    NewStepMayRewriteIff(steps, plan, Gaps(c, steps), GapIterations(c, steps), FirstNumber(steps), k, i);
  }

  /** A report whose first owner lies in the same or a later iteration is a lint error of the repaired plan. */
  lemma {:induction false} ReportRejected(
    c: CoverageRules, steps: seq<Step>, plan: Plan, report: string, k: nat, i: nat)
    requires FirstLists(steps, report, i) && Plain(c, report)
    requires RulesHold(c, steps) && UniqueIds(steps) && plan.steps == Repaired(c, steps)
    requires k < |GapIterations(c, steps)| && report == c.unitDoc(GapIterations(c, steps)[k])
    requires OwnReport(c, GapIterations(c, steps), k)
    requires IterationOrder(plan.phases, IterationOf(steps[i])) >=
             IterationOrder(plan.phases, GapIterations(c, steps)[k])
    ensures !OutputsOwned(plan)
  {
    hide Repaired, RulesHold, Plain, OwnReport, OutputAccepted, IterationOrder, NewStepReaches, GapIterations;
    RepairLength(c, steps);
    ReportAcceptedIff(c, steps, plan, report, k, i);
    assert !ReportAccepted(plan, |steps| + k, report);
  }

  // ---- A plan whose report gets two owners ----------------------------------------------

  /** A unit test step that outputs its iteration's report but depends on nothing, beside a CODE step. */
  function ReportPlan(c: CoverageRules, ids: (string, string), it: string): seq<Step> {
    [Step(ids.0, Some(it), Code, [], [], []), Step(ids.1, Some(it), UnitTest, [], [c.unitDoc(it)], [])]
  }

  lemma {:induction false} ReportGaps(c: CoverageRules, ids: (string, string), it: string)
    requires ids.0 != ids.1
    ensures
      var plan := ReportPlan(c, ids, it);
      Gaps(c, plan) == [0] && GapIterations(c, plan) == [it]
  {
    var plan := ReportPlan(c, ids, it);
    assert plan[1].dependsOn == [];
    assert !CoveredBy(plan, plan[0], plan[1]);
    assert Uncovered(c, plan, 0) && !Uncovered(c, plan, 1);
    assert UncoveredUpTo(c, plan, 1) == UncoveredUpTo(c, plan, 0) + [0];
    FirstIterationAt(plan, it);
  }

  lemma {:induction false} FirstIterationAt(plan: seq<Step>, it: string)
    requires |plan| >= 1 && IterationOf(plan[0]) == it
    ensures IterationsAt(plan, [0]) == [it]
  {
    OneIterationAt(plan[..1], it);
    SameIterationIds(
      seq(1, k requires 0 <= k < 1 => plan[..1][[0][k]]), seq(1, k requires 0 <= k < 1 => plan[[0][k]]));
  }

  /** The repaired plan then fails the output rule of the lint, whatever the phase plan. */
  lemma {:induction false} ReportOwnedTwice(c: CoverageRules, ids: (string, string), it: string, plan: Plan)
    requires ids.0 != ids.1 && RulesHold(c, ReportPlan(c, ids, it)) && Plain(c, c.unitDoc(it))
    requires plan.steps == Repaired(c, ReportPlan(c, ids, it))
    ensures !OneOwner(plan.steps, c.unitDoc(it)) && !OutputsOwned(plan)
  {
    hide Repaired, RulesHold, Plain, OneOwner, OutputsOwned, Gaps, GapIterations;
    var steps := ReportPlan(c, ids, it);
    ReportGaps(c, ids, it);
    ReportOwnedOnceIff(c, steps, 0);
    ReportRejected(c, steps, plan, c.unitDoc(it), 0, 1);
  }
}
