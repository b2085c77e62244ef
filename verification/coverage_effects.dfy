/** What the coverage repair does to dependencies: cycles and coverage of the result, told from the input plan. */
module CoverageEffects {
  import opened Basics
  import opened Plans
  import opened DependencyGraph
  import opened GraphContraction
  import opened PlanLint
  import opened VModelDependencies
  import opened TestPairing
  import opened CoverageRepair

  // ---- The repaired dependencies --------------------------------------------------------

  function GraphOfPlan(steps: seq<Step>): Graph {
    GraphOf(ById(steps))
  }

  predicate DependsOnUncovered(steps: seq<Step>, u: seq<nat>, s: Step)
    requires InRange(u, |steps|)
  {
    exists n :: 0 <= n < |u| && steps[u[n]].id in s.dependsOn
  }

  /** The id of the k-th new step. */
  function NthId(base: nat, k: nat): string {
    NewId(base + k)
  }

  lemma {:induction false} NthIdsDiffer(base: nat, k: nat, m: nat)
    requires k != m
    ensures NthId(base, k) != NthId(base, m)
  {
    NewIdsDiffer(base + k, base + m);
  }

  /** The step names a unit test step of the plan. */
  predicate NamesUnitTest(steps: seq<Step>, s: Step) {
    exists j :: 0 <= j < |steps| && steps[j].phase == UnitTest && steps[j].id in s.dependsOn
  }

  lemma {:induction false} UnitTestNamed(steps: seq<Step>, s: Step)
    requires UniqueIds(steps)
    ensures DependsOnUnitTest(ById(steps), s) <==> NamesUnitTest(steps, s)
  {
    if d :| d in s.dependsOn && d in ById(steps) && ById(steps)[d].phase == UnitTest {
      assert ById(steps)[d] in steps && ById(steps)[d].id == d;
    }
    if j :| 0 <= j < |steps| && steps[j].phase == UnitTest && steps[j].id in s.dependsOn { ByIdUnique(steps, j); }
  }

  /** The repair links step `i` to new step `k`. */
  predicate RewiredTo(steps: seq<Step>, u: seq<nat>, its: seq<string>, i: nat, k: nat)
    requires InRange(u, |steps|) && i < |steps|
  {
    && PhaseOrder(steps[i].phase) > PhaseOrder(UnitTest) && !NamesUnitTest(steps, steps[i])
    && DependsOnUncovered(steps, u, steps[i])
    && k < |its| && its[k] == IterationOf(steps[i])
  }

  /** An uncovered step of the iteration of new step `k` has this id. */
  predicate UncoveredId(steps: seq<Step>, u: seq<nat>, its: seq<string>, k: nat, id: string)
    requires InRange(u, |steps|)
  {
    k < |its| && exists n :: 0 <= n < |u| && IterationOf(steps[u[n]]) == its[k] && steps[u[n]].id == id
  }

  ghost predicate OldWired(steps: seq<Step>, after: Step, u: seq<nat>, its: seq<string>, base: nat, i: nat)
    requires InRange(u, |steps|) && i < |steps|
  {
    && after.id == steps[i].id && after.phase == steps[i].phase && IterationOf(after) == IterationOf(steps[i])
    && forall d :: d in after.dependsOn <==>
         d in steps[i].dependsOn || exists k :: 0 <= k < |its| && RewiredTo(steps, u, its, i, k) && d == NthId(base, k)
  }

  ghost predicate NewWired(steps: seq<Step>, after: Step, u: seq<nat>, its: seq<string>, base: nat, k: nat)
    requires InRange(u, |steps|) && k < |its|
  {
    && after.id == NthId(base, k) && after.phase == UnitTest && IterationOf(after) == its[k]
    && forall d :: d in after.dependsOn <==> UncoveredId(steps, u, its, k, d)
  }

  /** `out` is the plan with one new unit test step for each listed iteration, and nothing else rewired. */
  ghost predicate Wired(steps: seq<Step>, out: seq<Step>, u: seq<nat>, its: seq<string>, base: nat) {
    && InRange(u, |steps|) && |out| == |steps| + |its| && NoDup(its) && UniqueIds(out)
    && (forall i :: 0 <= i < |steps| ==> OldWired(steps, out[i], u, its, base, i))
    && (forall j :: |steps| <= j < |out| ==> NewWired(steps, out[j], u, its, base, j - |steps|))
  }

  lemma {:induction false} UncoveredIdsAt(steps: seq<Step>, u: seq<nat>, s: Step)
    requires InRange(u, |steps|)
    ensures (exists d :: d in s.dependsOn && d in IdsAt(steps, u)) <==> DependsOnUncovered(steps, u, s)
  {
    var ids := IdsAt(steps, u);
    if d :| d in s.dependsOn && d in ids {
      var n :| 0 <= n < |ids| && ids[n] == d;
      assert steps[u[n]].id in s.dependsOn;
    }
    if n :| 0 <= n < |u| && steps[u[n]].id in s.dependsOn {
      assert ids[n] in ids;
    }
  }

  lemma {:induction false} RewiredDependency(
    byId: map<string, Step>, ids: seq<string>, its: seq<string>, base: nat, s: Step, d: string)
    ensures d in Rewired(byId, ids, its, base, s).dependsOn <==>
            d in s.dependsOn ||
            (&& PhaseOrder(s.phase) > PhaseOrder(UnitTest) && !DependsOnUnitTest(byId, s)
             && (exists x :: x in s.dependsOn && x in ids)
             && IterationOf(s) in its && d == NthId(base, IndexOf(its, IterationOf(s))))
  {
    hide NewId, DependsOnUnitTest;
  }

  lemma {:induction false} RewiredExact(
    steps: seq<Step>, u: seq<nat>, its: seq<string>, base: nat, i: nat, s: Step)
    requires InRange(u, |steps|) && i < |steps| && NoDup(its) && UniqueIds(steps)
    requires s.phase == steps[i].phase && s.iterationId == steps[i].iterationId && s.id == steps[i].id
    requires s.dependsOn == steps[i].dependsOn
    ensures OldWired(steps, Rewired(ById(steps), IdsAt(steps, u), its, base, s), u, its, base, i)
  {
    hide NthId, ById, NamesUnitTest, DependsOnUncovered, Rewired;
    var k := IndexOf(its, IterationOf(s));
    forall d
      ensures d in Rewired(ById(steps), IdsAt(steps, u), its, base, s).dependsOn <==>
              d in steps[i].dependsOn || (RewiredTo(steps, u, its, i, k) && d == NthId(base, k))
    {
      RewiredAt(steps, u, its, base, i, s, d);
    }
    forall m: nat ensures RewiredTo(steps, u, its, i, m) <==> m == k && RewiredTo(steps, u, its, i, k) {}
    RewiredKeepsPlace(ById(steps), IdsAt(steps, u), its, base, s);
  }

  lemma {:induction false} RewiredKeepsPlace(
    byId: map<string, Step>, ids: seq<string>, its: seq<string>, base: nat, s: Step)
    ensures
      var after := Rewired(byId, ids, its, base, s);
      after.id == s.id && after.phase == s.phase && after.iterationId == s.iterationId
  {
    hide NthId, DependsOnUnitTest;
  }

  lemma {:induction false} RewiredAt(
    steps: seq<Step>, u: seq<nat>, its: seq<string>, base: nat, i: nat, s: Step, d: string)
    requires InRange(u, |steps|) && i < |steps| && UniqueIds(steps)
    requires s.phase == steps[i].phase && s.iterationId == steps[i].iterationId && s.dependsOn == steps[i].dependsOn
    ensures
      var k := IndexOf(its, IterationOf(s));
      d in Rewired(ById(steps), IdsAt(steps, u), its, base, s).dependsOn <==>
        d in steps[i].dependsOn || (RewiredTo(steps, u, its, i, k) && d == NthId(base, k))
  {
    hide NthId, ById, Rewired;
    UncoveredIdsAt(steps, u, s);
    UnitTestNamed(steps, s);
    assert NamesUnitTest(steps, s) <==> NamesUnitTest(steps, steps[i]);
    assert DependsOnUncovered(steps, u, s) <==> DependsOnUncovered(steps, u, steps[i]);
    RewiredDependency(ById(steps), IdsAt(steps, u), its, base, s, d);
  }

  lemma {:induction false} BucketIds(
    c: CoverageRules, p: seq<Step>, u: seq<nat>, mid: seq<Step>, its: seq<string>, base: nat, k: nat)
    requires InRange(u, |p|) && |mid| == |p| && k < |its| && forall i :: 0 <= i < |p| ==> mid[i].id == p[i].id
    ensures NewWired(p, Synthetic(c, mid, Bucket(p, u, its[k]), its[k], NthId(base, k)), u, its, base, k)
  {
    var b := Bucket(p, u, its[k]);
    var s := Synthetic(c, mid, b, its[k], NthId(base, k));
    forall d ensures d in s.dependsOn <==> UncoveredId(p, u, its, k, d) {
      if d in s.dependsOn {
        var n :| 0 <= n < |b| && s.dependsOn[n] == d;
        assert b[n] in u;
        var m :| 0 <= m < |u| && u[m] == b[n];
        assert IterationOf(p[u[m]]) == its[k] && p[u[m]].id == d;
      }
      if UncoveredId(p, u, its, k, d) {
        var m :| 0 <= m < |u| && IterationOf(p[u[m]]) == its[k] && p[u[m]].id == d;
        BucketLists(p, u, its[k], m);
        var n :| 0 <= n < |b| && b[n] == u[m];
        assert s.dependsOn[n] == d;
      }
    }
  }

  lemma {:induction false} ShiftNew(
    p: seq<Step>, s: Step, u: seq<nat>, its: seq<string>, base: nat, k: nat)
    requires InRange(u, |p|) && 0 < k < |its| && NewWired(p, s, u, its[1..], base + 1, k - 1)
    ensures NewWired(p, s, u, its, base, k)
  {
    forall d ensures UncoveredId(p, u, its[1..], k - 1, d) <==> UncoveredId(p, u, its, k, d) {}
  }

  lemma {:induction false} FirstWired(
    c: CoverageRules, p: seq<Step>, u: seq<nat>, st: PairState, its: seq<string>, base: nat)
    requires PlanNamesFit(c.paths, p) && AllCode(p, u) && NamedFrom(c.paths, p, st.steps, {}) && its != []
    ensures
      |st.steps| == |p| &&
      var (named, made) := AddOne(c, p, u, st, its[0], NewId(base));
      NamedFrom(c.paths, p, named.steps, {}) && NewWired(p, made, u, its, base, 0)
  {
    hide NewWired, NameTests, NewId;
    var (named, made) := AddOne(c, p, u, st, its[0], NewId(base));
    BucketFits(c, p, u, st, its[0]);
    NamingKeeps(c.paths, st, Bucket(p, u, its[0]));
    NamedTrans(c.paths, p, st.steps, named.steps, {}, st.used);
    BucketIds(c, p, u, named.steps, its, base, 0);
  }

  /** The k-th step the pass makes. */
  lemma {:induction false} AddedWired(
    c: CoverageRules, p: seq<Step>, u: seq<nat>, st: PairState, its: seq<string>, base: nat, k: nat)
    requires PlanNamesFit(c.paths, p) && AllCode(p, u) && NamedFrom(c.paths, p, st.steps, {}) && k < |its|
    ensures NewWired(p, AddSteps(c, p, u, st, its, base).steps[k], u, its, base, k)
    decreases |its|
  {
    hide NewWired, NamedFrom, AddOne, NthId, PlanNamesFit;
    FirstWired(c, p, u, st, its, base);
    if k > 0 {
      var named := AddOne(c, p, u, st, its[0], NewId(base)).0;
      AddedWired(c, p, u, named, its[1..], base + 1, k - 1);
      ShiftNew(p, AddSteps(c, p, u, named, its[1..], base + 1).steps[k - 1], u, its, base, k);
    }
  }

  lemma {:induction false} JoinedAt(c: CoverageRules, p: seq<Step>, u: seq<nat>, j: nat)
    requires InRange(u, |p|) && j < |p| + |IterationsAt(p, u)|
    ensures
      var its, base := IterationsAt(p, u), MaxNumber(p) + 1;
      var a := AddSteps(c, p, u, PairState(p, OutputsOf(p)), its, base);
      j < |Joined(c, p, u)| == |p| + |its| &&
      Joined(c, p, u)[j] ==
        if j < |p| then Rewired(ById(p), IdsAt(p, u), its, base, a.st.steps[j]) else a.steps[j - |p|]
  {
    hide AddSteps, Rewired, ById, IterationsAt, MaxNumber, IdsAt;
  }

  lemma {:induction false} JoinedOldWired(c: CoverageRules, p: seq<Step>, u: seq<nat>, i: nat)
    requires PlanNamesFit(c.paths, p) && AllCode(p, u) && i < |p| && UniqueIds(p)
    ensures i < |Joined(c, p, u)|
    ensures OldWired(p, Joined(c, p, u)[i], u, IterationsAt(p, u), MaxNumber(p) + 1, i)
  {
    hide AddSteps, Rewired, ById, OldWired, MaxNumber, IterationsAt, Joined, PlanNamesFit, IdsAt;
    var its, base := IterationsAt(p, u), MaxNumber(p) + 1;
    var s := AddSteps(c, p, u, PairState(p, OutputsOf(p)), its, base).st.steps[i];
    AddedKeeps(c, p, u, its, base, i);
    JoinedAt(c, p, u, i);
    IterationsNoDup(p, u);
    RewiredExact(p, u, its, base, i, s);
  }

  lemma {:induction false} IterationsNoDup(p: seq<Step>, u: seq<nat>)
    requires InRange(u, |p|)
    ensures NoDup(IterationsAt(p, u))
  {
    hide IterationsAt;
  }

  lemma {:induction false} AddedKeeps(
    c: CoverageRules, p: seq<Step>, u: seq<nat>, its: seq<string>, base: nat, i: nat)
    requires PlanNamesFit(c.paths, p) && AllCode(p, u) && i < |p|
    ensures
      var s := AddSteps(c, p, u, PairState(p, OutputsOf(p)), its, base).st.steps[i];
      s == p[i].(outputs := s.outputs)
  {
    hide AddSteps, MaxNumber, IterationsAt, AllMade;
    AddedFacts(c, p, u, PairState(p, OutputsOf(p)), its, base);
  }

  lemma {:induction false} JoinedNewWired(c: CoverageRules, p: seq<Step>, u: seq<nat>, k: nat)
    requires PlanNamesFit(c.paths, p) && AllCode(p, u) && k < |IterationsAt(p, u)|
    ensures |p| + k < |Joined(c, p, u)|
    ensures NewWired(p, Joined(c, p, u)[|p| + k], u, IterationsAt(p, u), MaxNumber(p) + 1, k)
  {
    hide AddSteps, Rewired, ById, NewWired, MaxNumber, IterationsAt, Joined;
    JoinedAt(c, p, u, |p| + k);
    AddedWired(c, p, u, PairState(p, OutputsOf(p)), IterationsAt(p, u), MaxNumber(p) + 1, k);
  }

  lemma {:induction false} JoinedWired(c: CoverageRules, p: seq<Step>, u: seq<nat>)
    requires RulesHold(c, p) && UniqueIds(p) && u == UncoveredUpTo(c, p, |p|)
    ensures Wired(p, Joined(c, p, u), u, IterationsAt(p, u), MaxNumber(p) + 1)
  {
    hide Joined, UncoveredUpTo, IterationsAt, NewWired, OldWired, MaxNumber, Extends;
    var its, base, out := IterationsAt(p, u), MaxNumber(p) + 1, Joined(c, p, u);
    UncoveredIsCode(c, p);
    JoinedUncovered(c, p, u, out);
    assert UniqueIds(out) by { ExtendsUniqueOut(p, out); }
    forall i | 0 <= i < |p| ensures OldWired(p, out[i], u, its, base, i) { JoinedOldWired(c, p, u, i); }
    forall j | |p| <= j < |out| ensures NewWired(p, out[j], u, its, base, j - |p|) {
      JoinedNewWired(c, p, u, j - |p|);
    }
  }

  lemma {:induction false} ExtendsUniqueOut(p: seq<Step>, out: seq<Step>)
    requires Extends(p, out)
    ensures UniqueIds(out)
  {
  }

  lemma {:induction false} WiredThrough(
    p: seq<Step>, joined: seq<Step>, out: seq<Step>, u: seq<nat>, its: seq<string>, base: nat)
    requires Wired(p, joined, u, its, base) && SameIdentity(joined, out)
    ensures Wired(p, out, u, its, base)
  {
    forall i, j | 0 <= i < j < |out| ensures out[i].id != out[j].id { assert joined[i].id != joined[j].id; }
    forall i | 0 <= i < |p| ensures OldWired(p, out[i], u, its, base, i) {
      assert OldWired(p, joined[i], u, its, base, i);
    }
    forall j | |p| <= j < |out| ensures NewWired(p, out[j], u, its, base, j - |p|) {
      assert NewWired(p, joined[j], u, its, base, j - |p|);
    }
  }

  // ---- The repair looks at nothing the first pairing pass changes ------------------------

  lemma {:induction false} SameGraph(a: seq<Step>, b: seq<Step>)
    requires SameIdentity(a, b)
    ensures ById(a).Keys == ById(b).Keys && GraphOfPlan(a) == GraphOfPlan(b)
    ensures forall d :: d in ById(a) ==> ById(a)[d].phase == ById(b)[d].phase
  {
    hide Ids;
    if a != [] {
      var n := |a| - 1;
      SameGraph(a[..n], b[..n]);
      assert b[n].id == a[n].id && b[n].phase == a[n].phase && b[n].dependsOn == a[n].dependsOn;
    }
  }

  lemma {:induction false} RewiredAlike(a: seq<Step>, b: seq<Step>, u: seq<nat>, its: seq<string>, i: nat, k: nat)
    requires SameIdentity(a, b) && InRange(u, |a|) && i < |a|
    ensures RewiredTo(a, u, its, i, k) <==> RewiredTo(b, u, its, i, k)
  {
    assert forall j :: 0 <= j < |a| ==> a[j].id == b[j].id && a[j].phase == b[j].phase;
    assert NamesUnitTest(a, a[i]) <==> NamesUnitTest(b, b[i]);
    assert DependsOnUncovered(a, u, a[i]) <==> DependsOnUncovered(b, u, b[i]);
  }

  lemma {:induction false} UncoveredIdAlike(
    a: seq<Step>, b: seq<Step>, u: seq<nat>, its: seq<string>, k: nat, d: string)
    requires SameIdentity(a, b) && InRange(u, |a|)
    ensures UncoveredId(a, u, its, k, d) <==> UncoveredId(b, u, its, k, d)
  {
    assert forall n :: 0 <= n < |u| ==> IterationOf(a[u[n]]) == IterationOf(b[u[n]]) && a[u[n]].id == b[u[n]].id;
  }

  lemma {:induction false} WiredAlike(
    a: seq<Step>, b: seq<Step>, out: seq<Step>, u: seq<nat>, its: seq<string>, base: nat)
    requires SameIdentity(a, b) && Wired(b, out, u, its, base)
    ensures Wired(a, out, u, its, base)
  {
    forall i | 0 <= i < |a| ensures OldWired(a, out[i], u, its, base, i) {
      assert OldWired(b, out[i], u, its, base, i);
      forall k: nat ensures RewiredTo(a, u, its, i, k) <==> RewiredTo(b, u, its, i, k) {
        RewiredAlike(a, b, u, its, i, k);
      }
    }
    forall j | |a| <= j < |out| ensures NewWired(a, out[j], u, its, base, j - |a|) {
      assert NewWired(b, out[j], u, its, base, j - |b|);
      var k := j - |a|;
      forall d ensures UncoveredId(a, u, its, k, d) <==> UncoveredId(b, u, its, k, d) {
        UncoveredIdAlike(a, b, u, its, k, d);
      }
    }
  }

  lemma {:induction false} SameMaxNumber(a: seq<Step>, b: seq<Step>)
    requires SameIdentity(a, b)
    ensures MaxNumber(a) == MaxNumber(b)
  {
    if a != [] { SameMaxNumber(a[..|a| - 1], b[..|a| - 1]); }
  }

  lemma {:induction false} SameIterationsAt(a: seq<Step>, b: seq<Step>, u: seq<nat>)
    requires SameIdentity(a, b) && InRange(u, |a|)
    ensures IterationsAt(a, u) == IterationsAt(b, u)
  {
    var n := |u|;
    var x := seq(n, k requires 0 <= k < n => a[u[k]]);
    var y := seq(n, k requires 0 <= k < n => b[u[k]]);
    assert forall k :: 0 <= k < n ==> x[k] == a[u[k]] && y[k] == b[u[k]];
    assert IterationsAt(a, u) == IterationIds(x) && IterationsAt(b, u) == IterationIds(y);
    SameIterationIds(x, y);
  }

  lemma {:induction false} SameIterationIds(a: seq<Step>, b: seq<Step>)
    requires |a| == |b| && forall i :: 0 <= i < |a| ==> IterationOf(a[i]) == IterationOf(b[i])
    ensures IterationIds(a) == IterationIds(b)
  {
    assert seq(|a|, i requires 0 <= i < |a| => IterationOf(a[i])) ==
           seq(|b|, i requires 0 <= i < |b| => IterationOf(b[i]));
  }

  /** Pairing moves tests only, so it does not change what needs cover. */
  lemma {:induction false} NeedsCoverAlike(c: CoverageRules, steps: seq<Step>, i: nat)
    requires RulesHold(c, steps) && i < |steps|
    ensures NeedsCover(c, Paired(c.paths, steps)[i]) <==> NeedsCover(c, steps[i])
    ensures IsInitOnly(c, Paired(c.paths, steps)[i]) <==> IsInitOnly(c, steps[i])
  {
    hide Paired, Settled;
    var out := Paired(c.paths, steps);
    PairedIsSettled(c.paths, steps);
    forall o | Implements(c, o) ensures o in out[i].outputs <==> o in steps[i].outputs {
      PairedKeepsPlain(c.paths, steps, i, o);
    }
    assert out[i].phase == steps[i].phase;
    SameInitOnly(c, out[i], steps[i]);
  }

  lemma {:induction false} SameInitOnly(c: CoverageRules, s: Step, t: Step)
    requires s.phase == t.phase && forall o :: Implements(c, o) ==> (o in s.outputs <==> o in t.outputs)
    ensures (NeedsCover(c, s) <==> NeedsCover(c, t)) && (IsInitOnly(c, s) <==> IsInitOnly(c, t))
  {
  }

  lemma {:induction false} UncoveredAt(c: CoverageRules, steps: seq<Step>, i: nat)
    requires RulesHold(c, steps) && UniqueIds(steps) && i < |steps|
    ensures Uncovered(c, Paired(c.paths, steps), i) <==> Uncovered(c, steps, i)
  {
    hide Paired, Covered, NeedsCover, RulesHold, Extends, Settled;
    var p := Paired(c.paths, steps);
    NeedsCoverAlike(c, steps, i);
    RulesFit(c, steps);
    PairedIsSettled(c.paths, steps);
    IdentityExtends(steps, p);
    CoveredAlike(steps, p, steps[i], p[i]);
    CoveredAlike(p, steps, p[i], steps[i]);
  }

  lemma {:induction false} RulesFit(c: CoverageRules, steps: seq<Step>)
    requires RulesHold(c, steps)
    ensures PlanNamesFit(c.paths, steps)
  {
  }

  lemma {:induction false} UncoveredAlike(c: CoverageRules, steps: seq<Step>, n: nat)
    requires RulesHold(c, steps) && UniqueIds(steps) && n <= |steps|
    ensures UncoveredUpTo(c, Paired(c.paths, steps), n) == UncoveredUpTo(c, steps, n)
  {
    hide Paired, Uncovered, RulesHold, UniqueIds;
    if n > 0 {
      UncoveredAlike(c, steps, n - 1);
      UncoveredAt(c, steps, n - 1);
    }
  }

  /** The uncovered steps of the plan, their iterations, and the number of the first new step. */
  ghost function Gaps(c: CoverageRules, steps: seq<Step>): (u: seq<nat>)
    ensures InRange(u, |steps|)
  {
    UncoveredUpTo(c, steps, |steps|)
  }

  ghost function GapIterations(c: CoverageRules, steps: seq<Step>): seq<string> {
    IterationsAt(steps, Gaps(c, steps))
  }

  function FirstNumber(steps: seq<Step>): nat {
    MaxNumber(steps) + 1
  }

  /** The repaired plan's dependencies, told from the input plan. */
  lemma {:induction false} RepairIsWired(c: CoverageRules, steps: seq<Step>)
    requires RulesHold(c, steps) && UniqueIds(steps)
    ensures Wired(steps, Repaired(c, steps), Gaps(c, steps), GapIterations(c, steps), FirstNumber(steps))
  {
    hide Paired, UncoveredUpTo, IterationsAt, MaxNumber, Wired, Joined, Settled, Extends, RulesHold;
    var p, u := Paired(c.paths, steps), Gaps(c, steps);
    RulesFit(c, steps);
    PairedIsSettled(c.paths, steps);
    IdentityExtends(steps, p);
    UncoveredAlike(c, steps, |steps|);
    SameMaxNumber(steps, p);
    SameIterationsAt(steps, p, u);
    if u == [] {
      NothingWired(steps, p, FirstNumber(steps));
    } else {
      RulesStay(c, steps, p);
      JoinedIsWired(c, p, u);
      WiredAlike(steps, p, Repaired(c, steps), u, GapIterations(c, steps), FirstNumber(steps));
    }
  }

  lemma {:induction false} RulesStay(c: CoverageRules, a: seq<Step>, b: seq<Step>)
    requires RulesHold(c, a) && SameIdentity(a, b)
    ensures RulesHold(c, b)
  {
    NamesStayFit(c.paths, a, b);
  }

  lemma {:induction false} JoinedIsWired(c: CoverageRules, p: seq<Step>, u: seq<nat>)
    requires RulesHold(c, p) && UniqueIds(p) && u == UncoveredUpTo(c, p, |p|)
    ensures Wired(p, Paired(c.paths, Joined(c, p, u)), u, IterationsAt(p, u), MaxNumber(p) + 1)
  {
    hide Paired, UncoveredUpTo, IterationsAt, MaxNumber, Wired, Joined, Settled, Extends;
    var joined := Joined(c, p, u);
    JoinedUncovered(c, p, u, joined);
    JoinedWired(c, p, u);
    PairedIsSettled(c.paths, joined);
    WiredThrough(p, joined, Paired(c.paths, joined), u, IterationsAt(p, u), MaxNumber(p) + 1);
  }

  lemma {:induction false} NothingWired(steps: seq<Step>, p: seq<Step>, base: nat)
    requires SameIdentity(steps, p) && UniqueIds(p)
    ensures Wired(steps, p, [], IterationsAt(steps, []), base)
  {
    var its := IterationsAt(steps, []);
    forall i | 0 <= i < |steps| ensures OldWired(steps, p[i], [], its, base, i) {
      assert p[i].dependsOn == steps[i].dependsOn;
    }
  }

  // ---- The induced graph on the new steps -----------------------------------------------

  /** From this id the plan's dependencies lead to the id new step `m` gets, or to a step rewired to it. */
  ghost predicate LeadsTo(steps: seq<Step>, u: seq<nat>, its: seq<string>, base: nat, from: string, m: nat)
    requires InRange(u, |steps|)
  {
    m < |its| &&
    (Reaches(GraphOfPlan(steps), from, NthId(base, m)) ||
     exists i :: 0 <= i < |steps| && RewiredTo(steps, u, its, i, m) && Reaches(GraphOfPlan(steps), from, steps[i].id))
  }

  /** Some uncovered step of the iteration of new step `k` leads to new step `m`. */
  ghost predicate Leads(steps: seq<Step>, u: seq<nat>, its: seq<string>, base: nat, k: nat, m: nat)
    requires InRange(u, |steps|)
  {
    exists id :: UncoveredId(steps, u, its, k, id) && LeadsTo(steps, u, its, base, id, m)
  }

  ghost function LedTo(steps: seq<Step>, u: seq<nat>, its: seq<string>, base: nat, k: nat, n: nat): seq<string>
    requires InRange(u, |steps|)
  {
    if n == 0 then []
    else
      LedTo(steps, u, its, base, k, n - 1) +
      if Leads(steps, u, its, base, k, n - 1) then [NthId(base, n - 1)] else []
  }

  ghost function NewGraphTo(steps: seq<Step>, u: seq<nat>, its: seq<string>, base: nat, n: nat): Graph
    requires InRange(u, |steps|)
  {
    if n == 0 then map[]
    else
      NewGraphTo(steps, u, its, base, n - 1)[NthId(base, n - 1) := LedTo(steps, u, its, base, n - 1, |its|)]
  }

  /** The new steps, with an edge where one leads to another. */
  ghost function NewGraph(steps: seq<Step>, u: seq<nat>, its: seq<string>, base: nat): Graph
    requires InRange(u, |steps|)
  {
    NewGraphTo(steps, u, its, base, |its|)
  }

  lemma {:induction false} LedToMembers(
    steps: seq<Step>, u: seq<nat>, its: seq<string>, base: nat, k: nat, n: nat, d: string)
    requires InRange(u, |steps|)
    ensures d in LedTo(steps, u, its, base, k, n) <==>
            exists m :: 0 <= m < n && Leads(steps, u, its, base, k, m) && d == NthId(base, m)
  {
    hide Leads, NthId;
    if n > 0 {
      LedToMembers(steps, u, its, base, k, n - 1, d);
    }
  }

  lemma {:induction false} NewGraphAt(
    steps: seq<Step>, u: seq<nat>, its: seq<string>, base: nat, n: nat, id: string)
    requires InRange(u, |steps|)
    ensures id in NewGraphTo(steps, u, its, base, n) <==> exists k :: 0 <= k < n && id == NthId(base, k)
    ensures forall k :: 0 <= k < n && id == NthId(base, k) ==>
              id in NewGraphTo(steps, u, its, base, n) &&
              NewGraphTo(steps, u, its, base, n)[id] == LedTo(steps, u, its, base, k, |its|)
  {
    hide Leads, NthId, LedTo;
    if n > 0 {
      NewGraphAt(steps, u, its, base, n - 1, id);
      forall k | 0 <= k < n - 1 ensures NthId(base, k) != NthId(base, n - 1) {
        NthIdsDiffer(base, k, n - 1);
      }
    }
  }

  ghost predicate IsNewId(its: seq<string>, base: nat, id: string) {
    exists k :: 0 <= k < |its| && id == NthId(base, k)
  }

  lemma {:induction false} NewEdgeIff(
    steps: seq<Step>, u: seq<nat>, its: seq<string>, base: nat, k: nat, m: nat)
    requires InRange(u, |steps|) && k < |its| && m < |its|
    ensures Edge(NewGraph(steps, u, its, base), NthId(base, k), NthId(base, m)) <==>
            Leads(steps, u, its, base, k, m)
  {
    hide Leads, NthId, LedTo, NewGraphTo;
    NewGraphAt(steps, u, its, base, |its|, NthId(base, k));
    LedToMembers(steps, u, its, base, k, |its|, NthId(base, m));
    forall n: nat | NthId(base, n) == NthId(base, m) ensures n == m {
      if n != m { NthIdsDiffer(base, n, m); }
    }
  }

  lemma {:induction false} NewGraphShape(steps: seq<Step>, u: seq<nat>, its: seq<string>, base: nat)
    requires InRange(u, |steps|)
    ensures forall id :: id in NewGraph(steps, u, its, base) <==> IsNewId(its, base, id)
    ensures forall a, b :: Edge(NewGraph(steps, u, its, base), a, b) ==> b in NewGraph(steps, u, its, base)
  {
    hide Leads, NthId, LedTo, NewGraphTo;
    forall id ensures id in NewGraph(steps, u, its, base) <==> IsNewId(its, base, id) {
      NewGraphAt(steps, u, its, base, |its|, id);
    }
    forall a, b | Edge(NewGraph(steps, u, its, base), a, b) ensures IsNewId(its, base, b) {
      NewGraphAt(steps, u, its, base, |its|, a);
      var k :| 0 <= k < |its| && a == NthId(base, k);
      LedToMembers(steps, u, its, base, k, |its|, b);
    }
  }

  // ---- Edges of the repaired plan -------------------------------------------------------

  lemma {:induction false} WiredUnique(
    steps: seq<Step>, out: seq<Step>, u: seq<nat>, its: seq<string>, base: nat)
    requires Wired(steps, out, u, its, base)
    ensures UniqueIds(steps) && forall k :: 0 <= k < |its| ==> NthId(base, k) !in Ids(steps)
  {
    assert forall i :: 0 <= i < |steps| ==> OldWired(steps, out[i], u, its, base, i);
    forall i, j | 0 <= i < j < |steps| ensures steps[i].id != steps[j].id { assert out[i].id != out[j].id; }
    forall k | 0 <= k < |its| ensures NthId(base, k) !in Ids(steps) {
      var j := |steps| + k;
      assert NewWired(steps, out[j], u, its, base, j - |steps|);
      forall i | 0 <= i < |steps| ensures steps[i].id != NthId(base, k) { assert out[i].id != out[j].id; }
    }
  }

  lemma {:induction false} OldEdge(
    steps: seq<Step>, out: seq<Step>, u: seq<nat>, its: seq<string>, base: nat, i: nat, d: string)
    requires Wired(steps, out, u, its, base) && i < |steps|
    ensures Edge(GraphOfPlan(steps), steps[i].id, d) <==> d in steps[i].dependsOn
    ensures Edge(GraphOfPlan(out), steps[i].id, d) <==>
            d in steps[i].dependsOn ||
            exists k :: 0 <= k < |its| && RewiredTo(steps, u, its, i, k) && d == NthId(base, k)
  {
    hide RewiredTo, NthId;
    WiredUnique(steps, out, u, its, base);
    ByIdUnique(steps, i);
    ByIdUnique(out, i);
    assert OldWired(steps, out[i], u, its, base, i);
  }

  lemma {:induction false} NewEdge(
    steps: seq<Step>, out: seq<Step>, u: seq<nat>, its: seq<string>, base: nat, k: nat, d: string)
    requires Wired(steps, out, u, its, base) && k < |its|
    ensures Edge(GraphOfPlan(out), NthId(base, k), d) <==> UncoveredId(steps, u, its, k, d)
  {
    hide UncoveredId, NthId;
    ByIdUnique(out, |steps| + k);
    assert NewWired(steps, out[|steps| + k], u, its, base, |steps| + k - |steps|);
  }

  lemma {:induction false} WiredIds(
    steps: seq<Step>, out: seq<Step>, u: seq<nat>, its: seq<string>, base: nat, id: string)
    requires Wired(steps, out, u, its, base)
    ensures id in Ids(out) <==> id in Ids(steps) || IsNewId(its, base, id)
  {
    assert forall i :: 0 <= i < |steps| ==> OldWired(steps, out[i], u, its, base, i);
    if id in Ids(out) {
      var j :| 0 <= j < |out| && out[j].id == id;
      if j >= |steps| {
        assert NewWired(steps, out[j], u, its, base, j - |steps|);
      } else {
        assert steps[j].id == id;
      }
    }
    if id in Ids(steps) {
      var i :| 0 <= i < |steps| && steps[i].id == id;
      assert out[i].id == id;
    }
    if IsNewId(its, base, id) {
      var k :| 0 <= k < |its| && id == NthId(base, k);
      assert NewWired(steps, out[|steps| + k], u, its, base, |steps| + k - |steps|);
    }
  }

  lemma {:induction false} LastEdge(g: Graph, a: string, b: string)
    requires Reaches(g, a, b) && a != b
    ensures exists y :: Reaches(g, a, y) && Edge(g, y, b)
  {
    var p :| IsPath(g, p) && p[0] == a && p[|p| - 1] == b;
    var q := p[..|p| - 1];
    assert IsPath(g, q) && q[0] == a;
    assert Edge(g, p[|p| - 2], p[|p| - 1]) && Reaches(g, a, q[|q| - 1]);
  }

  lemma {:induction false} HopLeads(
    steps: seq<Step>, out: seq<Step>, u: seq<nat>, its: seq<string>, base: nat, k: nat, m: nat)
    requires Wired(steps, out, u, its, base) && k < |its| && m < |its|
    requires Hop(GraphOfPlan(steps), GraphOfPlan(out), NthId(base, k), NthId(base, m))
    ensures Leads(steps, u, its, base, k, m)
  {
    hide RewiredTo, UncoveredId, NthId;
    var g, h := GraphOfPlan(steps), GraphOfPlan(out);
    var x, y :| Enters(g, h, NthId(base, k), x) && Reaches(g, x, y) && Leaves(g, h, y, NthId(base, m));
    NewEdge(steps, out, u, its, base, k, x);
    LeavesLeads(steps, out, u, its, base, x, y, m);
  }

  lemma {:induction false} LeavesLeads(
    steps: seq<Step>, out: seq<Step>, u: seq<nat>, its: seq<string>, base: nat, x: string, y: string, m: nat)
    requires Wired(steps, out, u, its, base) && m < |its| && Reaches(GraphOfPlan(steps), x, y)
    requires Leaves(GraphOfPlan(steps), GraphOfPlan(out), y, NthId(base, m))
    ensures LeadsTo(steps, u, its, base, x, m)
  {
    hide RewiredTo, UncoveredId, NthId;
    hide Reaches, GraphOf, ById;
    WiredUnique(steps, out, u, its, base);
    var i := PositionOf(steps, y);
    OldEdge(steps, out, u, its, base, i, NthId(base, m));
    if Edge(GraphOfPlan(steps), y, NthId(base, m)) {
      ReachesStep(GraphOfPlan(steps), x, y, NthId(base, m));
    } else {
      RewiredToOnly(steps, u, its, base, i, m);
    }
  }

  lemma {:induction false} RewiredToOnly(
    steps: seq<Step>, u: seq<nat>, its: seq<string>, base: nat, i: nat, m: nat)
    requires InRange(u, |steps|) && i < |steps| && m < |its|
    requires exists n :: 0 <= n < |its| && RewiredTo(steps, u, its, i, n) && NthId(base, m) == NthId(base, n)
    ensures RewiredTo(steps, u, its, i, m)
  {
    hide RewiredTo, NthId;
    var n :| 0 <= n < |its| && RewiredTo(steps, u, its, i, n) && NthId(base, m) == NthId(base, n);
    if n != m { NthIdsDiffer(base, n, m); }
  }

  lemma {:induction false} LeadsLeaves(
    steps: seq<Step>, out: seq<Step>, u: seq<nat>, its: seq<string>, base: nat, x: string, m: nat)
    returns (y: string)
    requires Wired(steps, out, u, its, base) && LeadsTo(steps, u, its, base, x, m) && x in Ids(steps)
    ensures Reaches(GraphOfPlan(steps), x, y) && Leaves(GraphOfPlan(steps), GraphOfPlan(out), y, NthId(base, m))
  {
    hide RewiredTo, UncoveredId, NthId;
    var g := GraphOfPlan(steps);
    WiredUnique(steps, out, u, its, base);
    if Reaches(g, x, NthId(base, m)) {
      LastEdge(g, x, NthId(base, m));
      y :| Reaches(g, x, y) && Edge(g, y, NthId(base, m));
      var i := PositionOf(steps, y);
      OldEdge(steps, out, u, its, base, i, NthId(base, m));
    } else {
      var i :| 0 <= i < |steps| && RewiredTo(steps, u, its, i, m) && Reaches(g, x, steps[i].id);
      y := steps[i].id;
      OldEdge(steps, out, u, its, base, i, NthId(base, m));
      assert y in Ids(steps);
    }
  }

  lemma {:induction false} LeadsHop(
    steps: seq<Step>, out: seq<Step>, u: seq<nat>, its: seq<string>, base: nat, k: nat, m: nat)
    requires Wired(steps, out, u, its, base) && k < |its| && m < |its| && Leads(steps, u, its, base, k, m)
    ensures Hop(GraphOfPlan(steps), GraphOfPlan(out), NthId(base, k), NthId(base, m))
  {
    hide RewiredTo, NthId, LeadsTo;
    var id :| UncoveredId(steps, u, its, k, id) && LeadsTo(steps, u, its, base, id, m);
    var n :| 0 <= n < |u| && steps[u[n]].id == id;
    var y := LeadsLeaves(steps, out, u, its, base, id, m);
    NewEdge(steps, out, u, its, base, k, id);
    WiredUnique(steps, out, u, its, base);
    assert Enters(GraphOfPlan(steps), GraphOfPlan(out), NthId(base, k), id);
  }

  /** The repaired graph is the old one with the new steps added. */
  lemma {:induction false} RepairContracts(
    steps: seq<Step>, out: seq<Step>, u: seq<nat>, its: seq<string>, base: nat)
    requires InRange(u, |steps|) && Wired(steps, out, u, its, base)
    ensures Contracts(GraphOfPlan(steps), GraphOfPlan(out), NewGraph(steps, u, its, base))
  {
    hide RewiredTo, NthId, Leads, UncoveredId, NewGraph, IsNewId, Edge, Hop, Wired, GraphOfPlan;
    var g, h, l := GraphOfPlan(steps), GraphOfPlan(out), NewGraph(steps, u, its, base);
    NewGraphShape(steps, u, its, base);
    ContractKeys(steps, out, u, its, base);
    forall a, b
      ensures Edge(g, a, b) ==> Edge(h, a, b)
      ensures Edge(h, a, b) && a in g && b !in l ==> Edge(g, a, b)
      ensures Edge(h, a, b) && a in l ==> b !in l
      ensures a in l && b in l ==> (Edge(l, a, b) <==> Hop(g, h, a, b))
    {
      ContractEdge(steps, out, u, its, base, a, b);
    }
  }

  lemma {:induction false} ContractKeys(
    steps: seq<Step>, out: seq<Step>, u: seq<nat>, its: seq<string>, base: nat)
    requires InRange(u, |steps|) && Wired(steps, out, u, its, base)
    ensures
      var g, h, l := GraphOfPlan(steps), GraphOfPlan(out), NewGraph(steps, u, its, base);
      h.Keys == g.Keys + l.Keys && g.Keys !! l.Keys
  {
    hide RewiredTo, NthId, Leads, UncoveredId, Wired, NewGraph;
    var g, h, l := GraphOfPlan(steps), GraphOfPlan(out), NewGraph(steps, u, its, base);
    NewGraphShape(steps, u, its, base);
    WiredUnique(steps, out, u, its, base);
    forall id ensures id in h <==> id in g || id in l { WiredIds(steps, out, u, its, base, id); }
  }

  lemma {:induction false} ContractEdge(
    steps: seq<Step>, out: seq<Step>, u: seq<nat>, its: seq<string>, base: nat, a: string, b: string)
    requires InRange(u, |steps|) && Wired(steps, out, u, its, base)
    ensures
      var g, h, l := GraphOfPlan(steps), GraphOfPlan(out), NewGraph(steps, u, its, base);
      && (Edge(g, a, b) ==> Edge(h, a, b))
      && (Edge(h, a, b) && a in g && b !in l ==> Edge(g, a, b))
      && (Edge(h, a, b) && a in l ==> b !in l)
      && (a in l && b in l ==> (Edge(l, a, b) <==> Hop(g, h, a, b)))
  {
    hide RewiredTo, NthId, Leads, Wired, NewGraph, Hop;
    var g, h, l := GraphOfPlan(steps), GraphOfPlan(out), NewGraph(steps, u, its, base);
    NewGraphShape(steps, u, its, base);
    WiredUnique(steps, out, u, its, base);
    if a in g {
      var i := PositionOf(steps, a);
      OldEdge(steps, out, u, its, base, i, b);
    } else if a in l {
      var k :| 0 <= k < |its| && a == NthId(base, k);
      NewEdge(steps, out, u, its, base, k, b);
      if b in l {
        var m :| 0 <= m < |its| && b == NthId(base, m);
        NewEdgeIff(steps, u, its, base, k, m);
        if Leads(steps, u, its, base, k, m) { LeadsHop(steps, out, u, its, base, k, m); }
        if Hop(g, h, a, b) { HopLeads(steps, out, u, its, base, k, m); }
      }
    }
  }

  /**
   * Exactly when the repaired plan has a cycle: the plan had one, or the new steps lead to each other in a circle,
   * where one leads to another if some uncovered step of its iteration reaches, in the plan, the id the other one
   * gets or a step rewired to it.
   */
  lemma {:induction false} RepairCyclicIff(c: CoverageRules, steps: seq<Step>)
    requires RulesHold(c, steps) && UniqueIds(steps)
    ensures Cyclic(GraphOfPlan(Repaired(c, steps))) <==>
            Cyclic(GraphOfPlan(steps)) ||
            Cyclic(NewGraph(steps, Gaps(c, steps), GapIterations(c, steps), FirstNumber(steps)))
  {
    hide Repaired, Gaps, GapIterations, FirstNumber, Wired, NewGraph, RulesHold;
    RepairIsWired(c, steps);
    RepairContracts(steps, Repaired(c, steps), Gaps(c, steps), GapIterations(c, steps), FirstNumber(steps));
    CyclicWithNewNodes(GraphOfPlan(steps), GraphOfPlan(Repaired(c, steps)),
      NewGraph(steps, Gaps(c, steps), GapIterations(c, steps), FirstNumber(steps)));
  }

  // ---- Coverage of the repaired plan ----------------------------------------------------

  lemma {:induction false} FirstEdge(g: Graph, a: string, b: string)
    requires Reaches(g, a, b) && a != b
    ensures exists d :: Edge(g, a, d) && Reaches(g, d, b)
  {
    var p :| IsPath(g, p) && p[0] == a && p[|p| - 1] == b;
    var q := p[1..];
    forall i | 0 <= i < |q| - 1 ensures Edge(g, q[i], q[i + 1]) { assert Edge(g, p[i + 1], p[i + 2]); }
    assert IsPath(g, q) && q[0] == p[1] && q[|q| - 1] == b;
    assert Edge(g, p[0], p[1]);
  }

  /** A unit test step of the iteration reaches the id. */
  ghost predicate TestReaches(steps: seq<Step>, iteration: string, id: string, t: nat) {
    t < |steps| && InPhase(steps[t], iteration, UnitTest) && Reaches(GraphOfPlan(steps), steps[t].id, id)
  }

  lemma {:induction false} RootsReach(steps: seq<Step>, t: nat, id: string)
    requires UniqueIds(steps) && t < |steps| && steps[t].id != id
    ensures ReachesFrom(GraphOfPlan(steps), steps[t].dependsOn, id) <==>
            Reaches(GraphOfPlan(steps), steps[t].id, id)
  {
    hide ById, Reaches;
    var g := GraphOfPlan(steps);
    ByIdUnique(steps, t);
    assert steps[t].id in g && g[steps[t].id] == steps[t].dependsOn;
    if d :| d in steps[t].dependsOn && Reaches(g, d, id) {
      ReachesSelf(g, steps[t].id);
      ReachesStep(g, steps[t].id, steps[t].id, d);
      ReachesTrans(g, steps[t].id, d, id);
    }
    if Reaches(g, steps[t].id, id) { FirstEdge(g, steps[t].id, id); }
  }

  lemma {:induction false} CoveredIsReached(steps: seq<Step>, c: Step)
    requires UniqueIds(steps) && c in steps && c.phase != UnitTest
    ensures Covered(steps, c) <==> exists t :: TestReaches(steps, IterationOf(c), c.id, t)
  {
    hide Reaches, ReachesFrom, GraphOfPlan;
    var i :| 0 <= i < |steps| && steps[i] == c;
    forall t | 0 <= t < |steps|
      ensures CoveredBy(steps, c, steps[t]) <==> TestReaches(steps, IterationOf(c), c.id, t)
    {
      TestIsRoot(steps, c, i, t);
    }
    if t: nat :| TestReaches(steps, IterationOf(c), c.id, t) { assert CoveredBy(steps, c, steps[t]); }
  }

  lemma {:induction false} TestIsRoot(steps: seq<Step>, c: Step, i: nat, t: nat)
    requires UniqueIds(steps) && i < |steps| && steps[i] == c && c.phase != UnitTest && t < |steps|
    ensures CoveredBy(steps, c, steps[t]) <==> TestReaches(steps, IterationOf(c), c.id, t)
  {
    hide Reaches, ReachesFrom;
    if InPhase(steps[t], IterationOf(c), UnitTest) { RootsReach(steps, t, c.id); }
  }

  /** A unit test step of the iteration is new step `k`, or leads to it. */
  ghost predicate Starts(steps: seq<Step>, u: seq<nat>, its: seq<string>, base: nat, iteration: string, k: nat)
    requires InRange(u, |steps|)
  {
    k < |its| &&
    (its[k] == iteration ||
     exists t :: 0 <= t < |steps| && InPhase(steps[t], iteration, UnitTest) &&
                 LeadsTo(steps, u, its, base, steps[t].id, k))
  }

  /** An uncovered step of the iteration of new step `m` reaches the id. */
  ghost predicate Exits(steps: seq<Step>, u: seq<nat>, its: seq<string>, m: nat, id: string)
    requires InRange(u, |steps|)
  {
    exists x :: UncoveredId(steps, u, its, m, x) && Reaches(GraphOfPlan(steps), x, id)
  }

  /** Some unit test step of the step's iteration is, or leads to, a new step, and from there to the step. */
  ghost predicate CoveredAround(steps: seq<Step>, u: seq<nat>, its: seq<string>, base: nat, c: Step)
    requires InRange(u, |steps|)
  {
    exists k, m :: Starts(steps, u, its, base, IterationOf(c), k) && Exits(steps, u, its, m, c.id) &&
                   Reaches(NewGraph(steps, u, its, base), NthId(base, k), NthId(base, m))
  }

  lemma {:induction false} ToOldExits(
    steps: seq<Step>, out: seq<Step>, u: seq<nat>, its: seq<string>, base: nat, m: nat, id: string)
    requires Wired(steps, out, u, its, base) && m < |its|
    ensures ToOld(GraphOfPlan(steps), GraphOfPlan(out), NthId(base, m), id) <==> Exits(steps, u, its, m, id)
  {
    hide UncoveredId, NthId, Reaches, Wired;
    var g, h := GraphOfPlan(steps), GraphOfPlan(out);
    NewIsNew(steps, out, u, its, base, m);
    forall x ensures Enters(g, h, NthId(base, m), x) <==> UncoveredId(steps, u, its, m, x) {
      NewEdge(steps, out, u, its, base, m, x);
    }
  }

  lemma {:induction false} NewIsNew(
    steps: seq<Step>, out: seq<Step>, u: seq<nat>, its: seq<string>, base: nat, m: nat)
    requires Wired(steps, out, u, its, base) && m < |its|
    ensures InRange(u, |steps|) && NthId(base, m) !in GraphOfPlan(steps)
    ensures NthId(base, m) in NewGraph(steps, u, its, base)
  {
    hide NewGraph, NthId;
    WiredUnique(steps, out, u, its, base);
    NewGraphShape(steps, u, its, base);
    assert IsNewId(its, base, NthId(base, m));
  }

  lemma {:induction false} OldTestReaches(
    steps: seq<Step>, out: seq<Step>, u: seq<nat>, its: seq<string>, base: nat, c: Step, t: nat)
    requires InRange(u, |steps|) && Wired(steps, out, u, its, base) && c in steps && t < |steps|
    requires InPhase(steps[t], IterationOf(c), UnitTest) && Reaches(GraphOfPlan(out), steps[t].id, c.id)
    ensures Reaches(GraphOfPlan(steps), steps[t].id, c.id) || CoveredAround(steps, u, its, base, c)
  {
    hide NewGraph, NthId, LeadsTo, UncoveredId, Wired, Reaches, Exits, GraphOf;
    var g, h, l := GraphOfPlan(steps), GraphOfPlan(out), NewGraph(steps, u, its, base);
    RepairContracts(steps, out, u, its, base);
    OldIsOld(steps, out, u, its, base, steps[t]);
    OldIsOld(steps, out, u, its, base, c);
    OldReachesIff(g, h, l, steps[t].id, c.id);
    if !Reaches(g, steps[t].id, c.id) {
      var n :| n in l && ToNew(g, h, l, steps[t].id, n) && ToOld(g, h, n, c.id);
      var y, n0 :| Reaches(g, steps[t].id, y) && Leaves(g, h, y, n0) && n0 in l && Reaches(l, n0, n);
      NewGraphShape(steps, u, its, base);
      var m :| 0 <= m < |its| && n == NthId(base, m);
      var k :| 0 <= k < |its| && n0 == NthId(base, k);
      ToOldExits(steps, out, u, its, base, m, c.id);
      LeavesLeads(steps, out, u, its, base, steps[t].id, y, k);
      assert Starts(steps, u, its, base, IterationOf(c), k);
    }
  }

  lemma {:induction false} OldIsOld(
    steps: seq<Step>, out: seq<Step>, u: seq<nat>, its: seq<string>, base: nat, s: Step)
    requires InRange(u, |steps|) && Wired(steps, out, u, its, base) && s in steps
    ensures s.id !in NewGraph(steps, u, its, base) && s.id in GraphOfPlan(steps)
  {
    hide NewGraph, NthId;
    WiredUnique(steps, out, u, its, base);
    NewGraphShape(steps, u, its, base);
    var i :| 0 <= i < |steps| && steps[i] == s;
    assert s.id in Ids(steps);
  }

  lemma {:induction false} NewTestReaches(
    steps: seq<Step>, out: seq<Step>, u: seq<nat>, its: seq<string>, base: nat, c: Step, k: nat)
    requires InRange(u, |steps|) && Wired(steps, out, u, its, base) && c in steps && k < |its|
    ensures Reaches(GraphOfPlan(out), NthId(base, k), c.id) <==>
            exists m :: Exits(steps, u, its, m, c.id) &&
                        Reaches(NewGraph(steps, u, its, base), NthId(base, k), NthId(base, m))
  {
    hide NewGraph, NthId, Wired, Reaches, Exits, GraphOf;
    var g, h, l := GraphOfPlan(steps), GraphOfPlan(out), NewGraph(steps, u, its, base);
    RepairContracts(steps, out, u, its, base);
    NewIsNew(steps, out, u, its, base, k);
    OldIsOld(steps, out, u, its, base, c);
    NewReachesIff(g, h, l, NthId(base, k), c.id);
    NewGraphShape(steps, u, its, base);
    if FromNew(g, h, l, NthId(base, k), c.id) {
      var n :| n in l && Reaches(l, NthId(base, k), n) && ToOld(g, h, n, c.id);
      var m :| 0 <= m < |its| && n == NthId(base, m);
      ToOldExits(steps, out, u, its, base, m, c.id);
    }
    if m :| Exits(steps, u, its, m, c.id) && Reaches(l, NthId(base, k), NthId(base, m)) {
      ExitsInRange(steps, u, its, m, c.id);
      NewIsNew(steps, out, u, its, base, m);
      ToOldExits(steps, out, u, its, base, m, c.id);
    }
  }

  lemma {:induction false} ExitsInRange(steps: seq<Step>, u: seq<nat>, its: seq<string>, m: nat, id: string)
    requires InRange(u, |steps|) && Exits(steps, u, its, m, id)
    ensures m < |its|
  {
  }

  lemma {:induction false} LeadingTestReaches(
    steps: seq<Step>, out: seq<Step>, u: seq<nat>, its: seq<string>, base: nat, c: Step, t: nat, k: nat, m: nat)
    requires InRange(u, |steps|) && Wired(steps, out, u, its, base) && c in steps && t < |steps|
    requires LeadsTo(steps, u, its, base, steps[t].id, k) && Exits(steps, u, its, m, c.id)
    requires Reaches(NewGraph(steps, u, its, base), NthId(base, k), NthId(base, m))
    ensures Reaches(GraphOfPlan(out), steps[t].id, c.id)
  {
    hide NewGraph, NthId, Wired, Reaches, Exits, GraphOf, RewiredTo;
    var g, h, l := GraphOfPlan(steps), GraphOfPlan(out), NewGraph(steps, u, its, base);
    RepairContracts(steps, out, u, its, base);
    OldIsOld(steps, out, u, its, base, steps[t]);
    OldIsOld(steps, out, u, its, base, c);
    ExitsInRange(steps, u, its, m, c.id);
    NewIsNew(steps, out, u, its, base, k);
    NewIsNew(steps, out, u, its, base, m);
    ToOldExits(steps, out, u, its, base, m, c.id);
    var y := LeadsLeaves(steps, out, u, its, base, steps[t].id, k);
    assert ToNew(g, h, l, steps[t].id, NthId(base, m));
    assert Around(g, h, l, steps[t].id, c.id);
    OldReachesIff(g, h, l, steps[t].id, c.id);
  }

  lemma {:induction false} TestsOfOut(
    steps: seq<Step>, out: seq<Step>, u: seq<nat>, its: seq<string>, base: nat, iteration: string, id: string)
    requires Wired(steps, out, u, its, base)
    ensures (exists t :: TestReaches(out, iteration, id, t)) <==>
              || (exists t :: 0 <= t < |steps| && InPhase(steps[t], iteration, UnitTest) &&
                              Reaches(GraphOfPlan(out), steps[t].id, id))
              || (exists k :: 0 <= k < |its| && its[k] == iteration && Reaches(GraphOfPlan(out), NthId(base, k), id))
  {
    hide NthId, Reaches, GraphOfPlan;
    forall t | 0 <= t < |steps|
      ensures out[t].id == steps[t].id
      ensures (InPhase(out[t], iteration, UnitTest) <==> InPhase(steps[t], iteration, UnitTest))
    {
      assert OldWired(steps, out[t], u, its, base, t);
    }
    forall j | |steps| <= j < |out|
      ensures out[j].id == NthId(base, j - |steps|)
      ensures InPhase(out[j], iteration, UnitTest) <==> its[j - |steps|] == iteration
    {
      assert NewWired(steps, out[j], u, its, base, j - |steps|);
    }
    if k :| 0 <= k < |its| && its[k] == iteration && Reaches(GraphOfPlan(out), NthId(base, k), id) {
      var j := |steps| + k;
      assert out[j].id == NthId(base, j - |steps|) && j - |steps| == k;
      assert TestReaches(out, iteration, id, j);
    }
    if t :| 0 <= t < |steps| && InPhase(steps[t], iteration, UnitTest) && Reaches(GraphOfPlan(out), steps[t].id, id) {
      assert TestReaches(out, iteration, id, t);
    }
  }

  /** Exactly which CODE steps the repaired plan covers: those covered before, and those its new steps lead to. */
  lemma {:induction false} WiredCoveredIff(
    steps: seq<Step>, out: seq<Step>, u: seq<nat>, its: seq<string>, base: nat, i: nat)
    requires InRange(u, |steps|) && Wired(steps, out, u, its, base) && i < |steps| && steps[i].phase == Code
    ensures Covered(out, out[i]) <==> Covered(steps, steps[i]) || CoveredAround(steps, u, its, base, steps[i])
  {
    hide NthId, Reaches, GraphOfPlan, Covered, CoveredAround, LeadsTo, Exits;
    var c := steps[i];
    WiredUnique(steps, out, u, its, base);
    assert OldWired(steps, out[i], u, its, base, i);
    CoveredIsReached(steps, c);
    CoveredIsReached(out, out[i]);
    TestsOfOut(steps, out, u, its, base, IterationOf(c), c.id);
    if Covered(out, out[i]) { OutCovered(steps, out, u, its, base, c); }
    if Covered(steps, c) { KeptCovered(steps, out, u, its, base, c); }
    if CoveredAround(steps, u, its, base, c) { AroundCovered(steps, out, u, its, base, c); }
  }

  ghost predicate OutTestReaches(steps: seq<Step>, out: seq<Step>, its: seq<string>, base: nat, c: Step) {
    || (exists t :: 0 <= t < |steps| && InPhase(steps[t], IterationOf(c), UnitTest) &&
                    Reaches(GraphOfPlan(out), steps[t].id, c.id))
    || (exists k :: 0 <= k < |its| && its[k] == IterationOf(c) && Reaches(GraphOfPlan(out), NthId(base, k), c.id))
  }

  lemma {:induction false} OutCovered(
    steps: seq<Step>, out: seq<Step>, u: seq<nat>, its: seq<string>, base: nat, c: Step)
    requires InRange(u, |steps|) && Wired(steps, out, u, its, base) && c in steps
    requires OutTestReaches(steps, out, its, base, c)
    ensures CoveredAround(steps, u, its, base, c) || exists t :: TestReaches(steps, IterationOf(c), c.id, t)
  {
    hide NthId, Reaches, GraphOfPlan, LeadsTo, Exits, Wired, NewGraph;
    if t :| 0 <= t < |steps| && InPhase(steps[t], IterationOf(c), UnitTest) &&
            Reaches(GraphOfPlan(out), steps[t].id, c.id) {
      OldTestReaches(steps, out, u, its, base, c, t);
      if Reaches(GraphOfPlan(steps), steps[t].id, c.id) {
        assert TestReaches(steps, IterationOf(c), c.id, t);
      }
    } else {
      var k :| 0 <= k < |its| && its[k] == IterationOf(c) && Reaches(GraphOfPlan(out), NthId(base, k), c.id);
      NewTestReaches(steps, out, u, its, base, c, k);
      assert Starts(steps, u, its, base, IterationOf(c), k);
    }
  }

  lemma {:induction false} KeptCovered(
    steps: seq<Step>, out: seq<Step>, u: seq<nat>, its: seq<string>, base: nat, c: Step)
    requires InRange(u, |steps|) && Wired(steps, out, u, its, base) && c in steps
    requires exists t :: TestReaches(steps, IterationOf(c), c.id, t)
    ensures OutTestReaches(steps, out, its, base, c)
  {
    hide NthId, NewGraph, Wired;
    var t: nat :| TestReaches(steps, IterationOf(c), c.id, t);
    RepairContracts(steps, out, u, its, base);
    ReachesMono(GraphOfPlan(steps), GraphOfPlan(out), steps[t].id, c.id);
  }

  lemma {:induction false} AroundCovered(
    steps: seq<Step>, out: seq<Step>, u: seq<nat>, its: seq<string>, base: nat, c: Step)
    requires InRange(u, |steps|) && Wired(steps, out, u, its, base) && c in steps
    requires CoveredAround(steps, u, its, base, c)
    ensures OutTestReaches(steps, out, its, base, c)
  {
    hide NthId, NewGraph, Wired, LeadsTo, Exits, Reaches;
    var k: nat, m: nat :| Starts(steps, u, its, base, IterationOf(c), k) && Exits(steps, u, its, m, c.id) &&
      Reaches(NewGraph(steps, u, its, base), NthId(base, k), NthId(base, m));
    if its[k] == IterationOf(c) {
      NewTestReaches(steps, out, u, its, base, c, k);
    } else {
      var t :| 0 <= t < |steps| && InPhase(steps[t], IterationOf(c), UnitTest) &&
        LeadsTo(steps, u, its, base, steps[t].id, k);
      LeadingTestReaches(steps, out, u, its, base, c, t, k, m);
    }
  }

  /** The same for the repair itself. */
  lemma {:induction false} RepairCoversIff(c: CoverageRules, steps: seq<Step>, i: nat)
    requires RulesHold(c, steps) && UniqueIds(steps) && i < |steps| && steps[i].phase == Code
    ensures i < |Repaired(c, steps)|
    ensures Covered(Repaired(c, steps), Repaired(c, steps)[i]) <==>
            Covered(steps, steps[i]) ||
            CoveredAround(steps, Gaps(c, steps), GapIterations(c, steps), FirstNumber(steps), steps[i])
  {
    hide Repaired, Gaps, GapIterations, FirstNumber, RulesHold, Covered, CoveredAround, OldWired, NewWired;
    RepairIsWired(c, steps);
    WiredCoveredIff(steps, Repaired(c, steps), Gaps(c, steps), GapIterations(c, steps), FirstNumber(steps), i);
  }
}
