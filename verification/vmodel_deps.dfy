/** The dependency repair pass: every macro step is linked to the phase before its own. */
module VModelDependencies {
  import opened Basics
  import opened Plans
  import opened DependencyGraph

  /** `[...new Set(items)]`: first occurrences, in order. */
  function Dedup(items: seq<string>): (r: seq<string>)
    ensures NoDup(r) && forall x :: x in r <==> x in items
    ensures NoDup(items) ==> r == items
  {
    if items == [] then []
    else
      var n := |items| - 1;
      assert items == items[..n] + [items[n]];
      var init := Dedup(items[..n]);
      if items[n] in items[..n] then init else init + [items[n]]
  }

  /** The ids of one phase of one iteration, in plan order. */
  function IdsOf(steps: seq<Step>, iteration: string, phase: Phase): seq<string> {
    if steps == [] then []
    else
      var n := |steps| - 1;
      IdsOf(steps[..n], iteration, phase) +
      if IterationOf(steps[n]) == iteration && steps[n].phase == phase then [steps[n].id] else []
  }

  lemma {:induction false} IdsOfListed(steps: seq<Step>, iteration: string, phase: Phase, x: string)
    ensures x in IdsOf(steps, iteration, phase) <==>
      exists i :: 0 <= i < |steps| && steps[i].id == x && IterationOf(steps[i]) == iteration && steps[i].phase == phase
  {
    if steps != [] {
      var n := |steps| - 1;
      assert forall i :: 0 <= i < n ==> steps[..n][i] == steps[i];
      IdsOfListed(steps[..n], iteration, phase, x);
    }
  }

  /** The phase one before, for every phase but the first. */
  function PhaseBefore(p: Phase): (r: Phase)
    requires PhaseOrder(p) > 0
    ensures PhaseOrder(r) == PhaseOrder(p) - 1
  {
    Phases()[PhaseOrder(p) - 1]
  }

  function PreviousIds(steps: seq<Step>, s: Step): seq<string> {
    if PhaseOrder(s.phase) == 0 then [] else IdsOf(steps, IterationOf(s), PhaseBefore(s.phase))
  }

  /** A step that depends on none of the previous phase's steps gets all of them. */
  function Link(previous: seq<string>, s: Step): Step {
    if previous == [] || exists d :: d in s.dependsOn && d in previous then s
    else s.(dependsOn := Dedup(s.dependsOn + previous))
  }

  function Linked(steps: seq<Step>): (r: seq<Step>)
    ensures |r| == |steps| && forall i :: 0 <= i < |r| ==> r[i] == Link(PreviousIds(steps, steps[i]), steps[i])
  {
    seq(|steps|, i requires 0 <= i < |steps| => Link(PreviousIds(steps, steps[i]), steps[i]))
  }

  // ---- The pass -------------------------------------------------------------------------

  /** The positions of one iteration: the group the pass shares with its output list. */
  function Group(steps: seq<Step>, iteration: string): (r: seq<nat>)
    ensures forall i :: i in r <==> 0 <= i < |steps| && IterationOf(steps[i]) == iteration
  {
    if steps == [] then []
    else
      var n := |steps| - 1;
      assert forall i :: 0 <= i < n ==> steps[..n][i] == steps[i];
      Group(steps[..n], iteration) + if IterationOf(steps[n]) == iteration then [n] else []
  }

  /** `out` so far: the iterations in `done` are linked, and of `iteration` the phases below `k`. */
  ghost predicate LinkedUpTo(steps: seq<Step>, out: seq<Step>, done: set<string>, iteration: string, k: nat) {
    |out| == |steps| && forall i :: 0 <= i < |steps| ==>
      out[i] == if IterationOf(steps[i]) in done || (IterationOf(steps[i]) == iteration &&
          PhaseOrder(steps[i].phase) < k)
                then Linked(steps)[i] else steps[i]
  }

  /** The inner loop: links the steps of one phase of one group. */
  method LinkPhase(before: seq<Step>, group: seq<nat>, prevIds: seq<string>, phase: Phase) returns (out: seq<Step>)
    requires forall i :: i in group ==> i < |before|
    ensures |out| == |before| && forall i :: 0 <= i < |out| ==>
      out[i] == if i in group && before[i].phase == phase then Link(prevIds, before[i]) else before[i]
  {
    out := before;
    for m := 0 to |group|
      invariant |out| == |before|
      invariant forall i :: 0 <= i < |out| ==>
        out[i] == if i in group[..m] && before[i].phase == phase then Link(prevIds, before[i]) else before[i]
    {
      var i := group[m];
      assert i in group && group[..m + 1] == group[..m] + [i];
      LinkKeeps(prevIds, before[i]);
      if out[i].phase == phase {
        out := out[i := Link(prevIds, out[i])];
      }
    }
    assert group[..|group|] == group;
  }

  /** Linking a step a second time changes nothing, so a position may come up twice. */
  lemma {:induction false} LinkKeeps(previous: seq<string>, s: Step)
    ensures Link(previous, Link(previous, s)) == Link(previous, s)
    ensures Link(previous, s).phase == s.phase
  {
    LinkFinds(previous, s);
  }

  lemma {:induction false} PhaseLinked(
    steps: seq<Step>, before: seq<Step>, out: seq<Step>, done: set<string>, iteration: string, phase: Phase)
    requires LinkedUpTo(steps, before, done, iteration, PhaseOrder(phase)) && iteration !in done
    requires PhaseOrder(phase) > 0
    requires |out| == |before| && forall i :: 0 <= i < |out| ==>
      out[i] == if i in Group(steps, iteration) && before[i].phase == phase
                then Link(IdsOf(steps, iteration, PhaseBefore(phase)), before[i]) else before[i]
    ensures LinkedUpTo(steps, out, done, iteration, PhaseOrder(phase) + 1)
  {
    forall i | 0 <= i < |steps|
      ensures out[i] == if IterationOf(steps[i]) in done || (IterationOf(steps[i]) == iteration &&
          PhaseOrder(steps[i].phase) < PhaseOrder(phase) + 1)
                        then Linked(steps)[i] else steps[i]
    {
      LinkKeeps(PreviousIds(steps, steps[i]), steps[i]);
      assert Phases()[PhaseOrder(steps[i].phase)] == steps[i].phase && Phases()[PhaseOrder(phase)] == phase;
      assert i in Group(steps, iteration) <==> IterationOf(steps[i]) == iteration;
    }
  }

  /** A phase whose predecessor is missing stays as it is. */
  lemma {:induction false} NothingBefore(
    steps: seq<Step>, out: seq<Step>, done: set<string>, iteration: string, phase: Phase)
    requires LinkedUpTo(steps, out, done, iteration, PhaseOrder(phase))
    requires PhaseOrder(phase) > 0 ==> IdsOf(steps, iteration, PhaseBefore(phase)) == []
    ensures LinkedUpTo(steps, out, done, iteration, PhaseOrder(phase) + 1)
  {
    forall i | 0 <= i < |steps| && IterationOf(steps[i]) == iteration && PhaseOrder(steps[i].phase) == PhaseOrder(phase)
      ensures Linked(steps)[i] == steps[i]
    {
      assert Phases()[PhaseOrder(steps[i].phase)] == steps[i].phase;
    }
  }

  function IterationIds(steps: seq<Step>): (r: seq<string>)
    ensures NoDup(r) && Lists(steps, r)
  {
    var all := seq(|steps|, i requires 0 <= i < |steps| => IterationOf(steps[i]));
    var r := Dedup(all);
    assert forall i :: 0 <= i < |steps| ==> all[i] == IterationOf(steps[i]);
    r
  }

  /** The phases of one iteration, first to last. */
  method LinkIteration(ghost steps: seq<Step>, before: seq<Step>, ghost done: set<string>, iteration: string)
    returns (out: seq<Step>)
    requires LinkedUpTo(steps, before, done, "", 0) && iteration !in done
    ensures LinkedUpTo(steps, out, done + {iteration}, "", 0)
  {
    out := before;
    SameGroup(steps, out, iteration);
    var group := Group(out, iteration);
    assert LinkedUpTo(steps, out, done, iteration, 0);
    NothingBefore(steps, out, done, iteration, RequirementAnalysis);
    for k := 1 to 8
      invariant LinkedUpTo(steps, out, done, iteration, k)
    {
      out := LinkNext(steps, out, group, done, iteration, k);
    }
    IterationDone(steps, out, done, iteration);
  }

  /** One phase of one iteration, unless the phase before is missing. */
  method LinkNext(
    ghost steps: seq<Step>, before: seq<Step>, group: seq<nat>, ghost done: set<string>, iteration: string, k: nat)
    returns (out: seq<Step>)
    requires 1 <= k < 8 && LinkedUpTo(steps, before, done, iteration, k) && iteration !in done
    requires group == Group(steps, iteration)
    ensures LinkedUpTo(steps, out, done, iteration, k + 1)
  {
    var phase := Phases()[k];
    assert PhaseOrder(phase) == k && PhaseBefore(phase) == Phases()[k - 1];
    SameIdsSoFar(steps, before, done, iteration, k);
    var prevIds := IdsOf(before, iteration, Phases()[k - 1]);
    if prevIds == [] {
      NothingBefore(steps, before, done, iteration, phase);
      return before;
    }
    out := LinkPhase(before, group, prevIds, phase);
    PhaseLinked(steps, before, out, done, iteration, phase);
  }

  lemma {:induction false} SameIdsSoFar(steps: seq<Step>, out: seq<Step>, done: set<string>, iteration: string, k: nat)
    requires LinkedUpTo(steps, out, done, iteration, k)
    ensures forall phase :: IdsOf(out, iteration, phase) == IdsOf(steps, iteration, phase)
  {
    LinkedOnlyAdds(steps);
    assert OnlyAddsDependencies(steps, out);
    forall phase ensures IdsOf(out, iteration, phase) == IdsOf(steps, iteration, phase) {
      SameIdsOf(steps, out, iteration, phase);
    }
  }

  method CalibrateVModelDependencies(steps: seq<Step>) returns (out: seq<Step>)
    ensures out == Linked(steps)
  {
    hide IterationIds;
    out := steps;
    var iterations := IterationIds(steps);
    ghost var done: set<string> := {};
    NoneDone(steps);
    for g := 0 to |iterations|
      invariant LinkedUpTo(steps, out, done, "", 0)
      invariant forall k :: 0 <= k < |iterations| ==> (iterations[k] in done <==> k < g)
    {
      out := LinkIteration(steps, out, done, iterations[g]);
      done := done + {iterations[g]};
    }
    AllDone(steps, out, iterations, done);
  }

  ghost predicate Lists(steps: seq<Step>, iterations: seq<string>) {
    forall i :: 0 <= i < |steps| ==> IterationOf(steps[i]) in iterations
  }

  lemma {:induction false} NoneDone(steps: seq<Step>)
    ensures LinkedUpTo(steps, steps, {}, "", 0)
  {
  }

  lemma {:induction false} AllDone(steps: seq<Step>, out: seq<Step>, iterations: seq<string>, done: set<string>)
    requires LinkedUpTo(steps, out, done, "", 0) && Lists(steps, iterations)
    requires forall k :: 0 <= k < |iterations| ==> iterations[k] in done
    ensures out == Linked(steps)
  {
  }

  lemma {:induction false} SameGroup(steps: seq<Step>, out: seq<Step>, iteration: string)
    requires |out| == |steps| && forall i :: 0 <= i < |steps| ==> IterationOf(out[i]) == IterationOf(steps[i])
    ensures Group(out, iteration) == Group(steps, iteration)
  {
    if steps != [] {
      SameGroup(steps[..|steps| - 1], out[..|steps| - 1], iteration);
    }
  }

  lemma {:induction false} IterationDone(steps: seq<Step>, out: seq<Step>, done: set<string>, iteration: string)
    requires LinkedUpTo(steps, out, done, iteration, 8)
    ensures LinkedUpTo(steps, out, done + {iteration}, "", 0)
  {
  }

  // ---- What the pass keeps --------------------------------------------------------------

  /** Ids, iterations, phases and artifacts stay; dependencies only grow, at the end of the list. */
  ghost predicate OnlyAddsDependencies(before: seq<Step>, after: seq<Step>) {
    |after| == |before| && forall i :: 0 <= i < |before| ==>
      && after[i] == before[i].(dependsOn := after[i].dependsOn)
      && (forall d :: d in before[i].dependsOn ==> d in after[i].dependsOn)
  }

  lemma {:induction false} LinkedOnlyAdds(steps: seq<Step>)
    ensures OnlyAddsDependencies(steps, Linked(steps))
  {
    forall i | 0 <= i < |steps|
      ensures Linked(steps)[i] == steps[i].(dependsOn := Linked(steps)[i].dependsOn)
      ensures forall d :: d in steps[i].dependsOn ==> d in Linked(steps)[i].dependsOn
    {
      var previous := PreviousIds(steps, steps[i]);
      forall d | d in steps[i].dependsOn ensures d in Linked(steps)[i].dependsOn {
      }
    }
  }

  lemma {:induction false} SameIdsOf(a: seq<Step>, b: seq<Step>, iteration: string, phase: Phase)
    requires OnlyAddsDependencies(a, b)
    ensures IdsOf(a, iteration, phase) == IdsOf(b, iteration, phase)
  {
    if a != [] {
      var n := |a| - 1;
      assert OnlyAddsDependencies(a[..n], b[..n]);
      SameIdsOf(a[..n], b[..n], iteration, phase);
      assert b[n] == a[n].(dependsOn := b[n].dependsOn);
    }
  }

  lemma {:induction false} SamePrevious(steps: seq<Step>, i: nat)
    requires i < |steps|
    ensures PreviousIds(Linked(steps), Linked(steps)[i]) == PreviousIds(steps, steps[i])
  {
    LinkedOnlyAdds(steps);
    assert Linked(steps)[i] == steps[i].(dependsOn := Linked(steps)[i].dependsOn);
    if PhaseOrder(steps[i].phase) > 0 {
      SameIdsOf(steps, Linked(steps), IterationOf(steps[i]), PhaseBefore(steps[i].phase));
    }
  }

  /** Running the pass again changes nothing. */
  lemma {:induction false} LinkedTwice(steps: seq<Step>)
    ensures Linked(Linked(steps)) == Linked(steps)
  {
    forall i | 0 <= i < |steps| ensures Linked(Linked(steps))[i] == Linked(steps)[i] {
      SamePrevious(steps, i);
      LinkKeeps(PreviousIds(steps, steps[i]), steps[i]);
    }
  }

  /** After linking, the step depends on some step of the previous phase, if there is one. */
  lemma {:induction false} LinkFinds(previous: seq<string>, s: Step)
    ensures previous != [] ==> exists d :: d in Link(previous, s).dependsOn && d in previous
  {
    if previous != [] && !exists d :: d in s.dependsOn && d in previous {
      var all := s.dependsOn + previous;
      assert previous[0] in all;
      assert previous[0] in Link(previous, s).dependsOn && previous[0] in previous;
    }
  }

  // ---- Acyclicity -----------------------------------------------------------------------

  /**
   * A weight that no edge increases and every new edge decreases keeps the new edges off every cycle:
   * the larger graph has a cycle only if the smaller one had it.
   */
  lemma {:induction false} NewEdgesOffCycles(g: Graph, h: Graph, weight: map<string, int>)
    requires weight.Keys == h.Keys
    requires forall a, b :: Edge(h, a, b) && b in h ==> weight[b] <= weight[a]
    requires forall a, b :: Edge(h, a, b) && b in h && weight[b] == weight[a] ==> Edge(g, a, b)
    requires Cyclic(h)
    ensures Cyclic(g)
  {
    var p :| IsPath(h, p) && |p| >= 2 && p[0] == p[|p| - 1];
    assert Edge(h, p[0], p[1]);
    forall k | 0 <= k < |p| ensures p[k] in h {
      if k < |p| - 1 { assert Edge(h, p[k], p[k + 1]); }
    }
    forall i | 0 <= i < |p| - 1 ensures Edge(g, p[i], p[i + 1]) {
      assert Edge(h, p[i], p[i + 1]);
      WeightFalls(h, weight, p, 0, i);
      WeightFalls(h, weight, p, i + 1, |p| - 1);
    }
    assert IsPath(g, p);
  }

  lemma {:induction false} WeightFalls(h: Graph, weight: map<string, int>, p: seq<string>, i: nat, j: nat)
    requires weight.Keys == h.Keys && IsPath(h, p) && i <= j < |p| && forall k :: 0 <= k < |p| ==> p[k] in h
    requires forall a, b :: Edge(h, a, b) && b in h ==> weight[b] <= weight[a]
    ensures weight[p[j]] <= weight[p[i]]
    decreases j
  {
    if i < j {
      WeightFalls(h, weight, p, i, j - 1);
      assert Edge(h, p[j - 1], p[j]);
    }
  }

  /** Iteration first, then phase; `order` places the iterations. */
  function Rank(order: string -> int, s: Step): int {
    8 * order(IterationOf(s)) + PhaseOrder(s.phase)
  }

  /** No dependency leads to a later iteration, nor to a later phase of an iteration placed equally. */
  ghost predicate PhaseMonotone(steps: seq<Step>, order: string -> int) {
    forall s, t :: s in steps && t in steps && t.id in s.dependsOn ==>
      order(IterationOf(t)) < order(IterationOf(s)) ||
      (order(IterationOf(t)) == order(IterationOf(s)) && PhaseOrder(t.phase) <= PhaseOrder(s.phase))
  }

  lemma {:induction false} MonotoneMeansRanked(steps: seq<Step>, order: string -> int)
    ensures PhaseMonotone(steps, order) <==>
      (forall s, t :: s in steps && t in steps && t.id in s.dependsOn ==> Rank(order, t) <= Rank(order, s))
  {
  }

  /** What a new dependency of the pass looks like. */
  lemma {:induction false} NewDependency(steps: seq<Step>, i: nat, d: string)
    requires UniqueIds(steps) && i < |steps| && d in Linked(steps)[i].dependsOn && d !in steps[i].dependsOn
    ensures d in Ids(steps)
    ensures forall t :: t in steps && t.id == d ==>
              IterationOf(t) == IterationOf(steps[i]) && PhaseOrder(t.phase) == PhaseOrder(steps[i].phase) - 1
  {
    var previous := PreviousIds(steps, steps[i]);
    assert d in previous;
    IdsOfListed(steps, IterationOf(steps[i]), PhaseBefore(steps[i].phase), d);
    var k :| 0 <= k < |steps| && steps[k].id == d && IterationOf(steps[k]) == IterationOf(steps[i]) &&
        steps[k].phase == PhaseBefore(steps[i].phase);
    assert steps[k].id in Ids(steps);
    forall t | t in steps && t.id == d ensures t == steps[k] {
      var m :| 0 <= m < |steps| && steps[m] == t;
      assert m == k;
    }
  }

  /** The shape of the plan after the pass: same ids, known dependencies, same order of phases. */
  lemma {:induction false} LinkedShape(steps: seq<Step>)
    requires UniqueIds(steps)
    ensures UniqueIds(Linked(steps)) && Ids(Linked(steps)) == Ids(steps)
    ensures ClosedDeps(steps) ==> ClosedDeps(Linked(steps))
  {
    LinkedOnlyAdds(steps);
    var out := Linked(steps);
    assert forall i :: 0 <= i < |steps| ==> out[i].id == steps[i].id;
    IdSeqFacts(steps);
    IdSeqFacts(out);
    assert IdSeq(out) == IdSeq(steps);
    if ClosedDeps(steps) {
      forall i, d | 0 <= i < |out| && d in out[i].dependsOn ensures d in Ids(out) {
        if d !in steps[i].dependsOn { NewDependency(steps, i, d); }
        assert d in Ids(steps);
      }
    }
  }

  lemma {:induction false} LinkedEdge(steps: seq<Step>, order: string -> int, i: nat, j: nat)
    requires UniqueIds(steps) && PhaseMonotone(steps, order) && i < |steps| && j < |steps|
    requires steps[j].id in Linked(steps)[i].dependsOn
    ensures Rank(order, steps[j]) <= Rank(order, steps[i])
    ensures steps[j].id in steps[i].dependsOn || Rank(order, steps[j]) < Rank(order, steps[i])
  {
    MonotoneMeansRanked(steps, order);
    if steps[j].id !in steps[i].dependsOn { NewDependency(steps, i, steps[j].id); }
  }

  /** A phase-monotone plan stays phase-monotone and keeps its cycles and its freedom from cycles. */
  lemma {:induction false} LinkedKeepsAcyclic(steps: seq<Step>, order: string -> int)
    requires UniqueIds(steps) && PhaseMonotone(steps, order)
    ensures PhaseMonotone(Linked(steps), order)
    ensures Cyclic(GraphOf(ById(Linked(steps)))) <==> Cyclic(GraphOf(ById(steps)))
  {
    hide ById, PhaseMonotone, Ids;
    LinkedStaysMonotone(steps, order);
    LinkedShape(steps);
    LinkedOnlyAdds(steps);
    var out := Linked(steps);
    var g, h := GraphOf(ById(steps)), GraphOf(ById(out));
    if Cyclic(h) {
      var weight := map id | id in h :: Rank(order, ById(steps)[id]);
      forall a, b | Edge(h, a, b) && b in h
        ensures weight[b] <= weight[a] && (weight[b] == weight[a] ==> Edge(g, a, b))
      {
        var i := PositionOf(steps, a);
        var j := PositionOf(steps, b);
        ByIdUnique(out, i);
        LinkedEdge(steps, order, i, j);
      }
      NewEdgesOffCycles(g, h, weight);
    }
    if Cyclic(g) {
      var p :| IsPath(g, p) && |p| >= 2 && p[0] == p[|p| - 1];
      forall k | 0 <= k < |p| - 1 ensures Edge(h, p[k], p[k + 1]) {
        assert Edge(g, p[k], p[k + 1]);
        EdgeStays(steps, p[k], p[k + 1]);
      }
      assert IsPath(h, p);
    }
  }

  lemma {:induction false} PositionOf(steps: seq<Step>, id: string) returns (i: nat)
    requires UniqueIds(steps) && id in Ids(steps)
    ensures i < |steps| && steps[i].id == id && ById(steps)[id] == steps[i]
  {
    i :| 0 <= i < |steps| && steps[i].id == id;
    ByIdUnique(steps, i);
  }

  lemma {:induction false} EdgeStays(steps: seq<Step>, a: string, b: string)
    requires UniqueIds(steps) && Edge(GraphOf(ById(steps)), a, b)
    ensures Edge(GraphOf(ById(Linked(steps))), a, b)
  {
    LinkedShape(steps);
    LinkedOnlyAdds(steps);
    var i := PositionOf(steps, a);
    ByIdUnique(Linked(steps), i);
  }

  lemma {:induction false} LinkedStaysMonotone(steps: seq<Step>, order: string -> int)
    requires UniqueIds(steps) && PhaseMonotone(steps, order)
    ensures PhaseMonotone(Linked(steps), order)
  {
    var out := Linked(steps);
    forall s, t | s in out && t in out && t.id in s.dependsOn ensures Rank(order, t) <= Rank(order, s) {
      var i :| 0 <= i < |out| && out[i] == s;
      var j :| 0 <= j < |out| && out[j] == t;
      RankStays(steps, order, i);
      RankStays(steps, order, j);
      LinkedEdge(steps, order, i, j);
    }
    MonotoneMeansRanked(out, order);
  }

  lemma {:induction false} RankStays(steps: seq<Step>, order: string -> int, i: nat)
    requires i < |steps|
    ensures Linked(steps)[i].id == steps[i].id && Rank(order, Linked(steps)[i]) == Rank(order, steps[i])
  {
    LinkedOnlyAdds(steps);
    assert Linked(steps)[i] == steps[i].(dependsOn := Linked(steps)[i].dependsOn);
  }

  // ---- Reaching the earlier phases ------------------------------------------------------

  ghost predicate HasPhases(steps: seq<Step>, iteration: string, below: nat) {
    forall p: Phase :: PhaseOrder(p) < below ==> IdsOf(steps, iteration, p) != []
  }

  ghost predicate ReachesPhase(g: Graph, ids: seq<string>, from: string) {
    exists t :: t in ids && Reaches(g, from, t)
  }

  /**
   * In an iteration with every phase, after the pass each step transitively depends on some step of every
   * earlier phase; where phases hold one step each, that is every earlier step.
   */
  lemma {:induction false} EveryEarlierPhaseReached(steps: seq<Step>, i: nat, p: Phase)
    requires UniqueIds(steps) && i < |steps|
    requires HasPhases(steps, IterationOf(steps[i]), PhaseOrder(steps[i].phase))
    requires PhaseOrder(p) < PhaseOrder(steps[i].phase)
    ensures ReachesPhase(GraphOf(ById(Linked(steps))), IdsOf(steps, IterationOf(steps[i]), p), steps[i].id)
    decreases PhaseOrder(steps[i].phase)
  {
    var g := GraphOf(ById(Linked(steps)));
    var d, j := DirectLink(steps, i);
    ReachesSelf(g, steps[i].id);
    ReachesStep(g, steps[i].id, steps[i].id, d);
    if PhaseOrder(p) == PhaseOrder(steps[j].phase) {
      assert Phases()[PhaseOrder(p)] == p && Phases()[PhaseOrder(steps[j].phase)] == steps[j].phase;
    } else {
      EveryEarlierPhaseReached(steps, j, p);
      var t :| t in IdsOf(steps, IterationOf(steps[i]), p) && Reaches(g, d, t);
      ReachesTrans(g, steps[i].id, d, t);
    }
  }

  lemma {:induction false} DirectLink(steps: seq<Step>, i: nat) returns (d: string, j: nat)
    requires UniqueIds(steps) && i < |steps| && PhaseOrder(steps[i].phase) > 0
    requires HasPhases(steps, IterationOf(steps[i]), PhaseOrder(steps[i].phase))
    ensures j < |steps| && steps[j].id == d && steps[j].phase == PhaseBefore(steps[i].phase)
    ensures IterationOf(steps[j]) == IterationOf(steps[i])
    ensures Edge(GraphOf(ById(Linked(steps))), steps[i].id, d)
    ensures d in IdsOf(steps, IterationOf(steps[i]), steps[j].phase)
  {
    var previous := PreviousIds(steps, steps[i]);
    LinkFinds(previous, steps[i]);
    d :| d in Linked(steps)[i].dependsOn && d in previous;
    IdsOfListed(steps, IterationOf(steps[i]), PhaseBefore(steps[i].phase), d);
    j :| 0 <= j < |steps| && steps[j].id == d && IterationOf(steps[j]) == IterationOf(steps[i]) &&
        steps[j].phase == PhaseBefore(steps[i].phase);
    LinkedShape(steps);
    LinkedOnlyAdds(steps);
    ByIdUnique(Linked(steps), i);
  }

  ghost predicate OneStepPerPhase(steps: seq<Step>, iteration: string) {
    forall p :: |IdsOf(steps, iteration, p)| == 1
  }

  /** With one step per phase, every verification step transitively depends on its paired source step. */
  lemma {:induction false} SingleMeansPresent(steps: seq<Step>, iteration: string, below: nat)
    requires OneStepPerPhase(steps, iteration)
    ensures HasPhases(steps, iteration, below)
  {
    forall p: Phase ensures IdsOf(steps, iteration, p) != [] { assert |IdsOf(steps, iteration, p)| == 1; }
  }

  lemma {:induction false} SoleReached(ids: seq<string>, x: string, g: Graph, from: string)
    requires |ids| == 1 && x in ids && ReachesPhase(g, ids, from)
    ensures Reaches(g, from, x)
  {
  }

  lemma {:induction false} StepIsListed(steps: seq<Step>, j: nat)
    requires j < |steps|
    ensures steps[j].id in IdsOf(steps, IterationOf(steps[j]), steps[j].phase)
  {
    IdsOfListed(steps, IterationOf(steps[j]), steps[j].phase, steps[j].id);
  }

  lemma {:induction false} SinglePhasesReachAll(steps: seq<Step>, i: nat, j: nat)
    requires UniqueIds(steps) && i < |steps| && j < |steps| && IterationOf(steps[i]) == IterationOf(steps[j])
    requires OneStepPerPhase(steps, IterationOf(steps[i])) && PhaseOrder(steps[j].phase) < PhaseOrder(steps[i].phase)
    ensures Reaches(GraphOf(ById(Linked(steps))), steps[i].id, steps[j].id)
  {
    SingleMeansPresent(steps, IterationOf(steps[i]), PhaseOrder(steps[i].phase));
    EveryEarlierPhaseReached(steps, i, steps[j].phase);
    StepIsListed(steps, j);
    SoleReached(IdsOf(steps, IterationOf(steps[j]), steps[j].phase), steps[j].id, GraphOf(ById(Linked(steps))),
        steps[i].id);
  }
}
