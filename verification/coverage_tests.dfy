/** Which uncovered steps the coverage repair gives a test, and what the new steps read. */
module CoverageTests {
  import opened Basics
  import opened Plans
  import opened PlanLint
  import opened VModelDependencies
  import opened TestPairing
  import opened GeneratedNames
  import opened CoverageRepair
  import opened CoverageEffects
  import opened CoverageResults
  import opened CoverageNames

  /** The step owns one more output, an executable test, and is otherwise the same. */
  ghost predicate GetsOne(r: Rules, a: Step, b: Step) {
    b == a.(outputs := b.outputs) &&
    exists x :: r.executable(x) && forall o :: o in b.outputs <==> o in a.outputs || o == x
  }

  /** A listed step without a test gets one; all others stay as they are. */
  ghost predicate NamedRightly(r: Rules, a: Step, b: Step, listed: bool) {
    if listed && !HasTest(r, a) then GetsOne(r, a, b) else b == a
  }

  lemma {:induction false} GetsOneHasTest(r: Rules, a: Step, b: Step)
    requires GetsOne(r, a, b)
    ensures HasTest(r, b)
  {
    var x :| r.executable(x) && forall o :: o in b.outputs <==> o in a.outputs || o == x;
    assert x in b.outputs;
  }

  lemma {:induction false} NamesListed(r: Rules, st: PairState, todo: seq<nat>, i: nat)
    requires InRange(todo, |st.steps|) && i < |st.steps|
    requires forall k :: 0 <= k < |todo| ==> NamesFit(r, st.steps[todo[k]].id)
    ensures NamedRightly(r, st.steps[i], NameTests(r, st, todo).steps[i], i in todo)
    decreases |todo|
  {
    hide HasTest, NamesFit, UniquePath;
    if todo != [] {
      var j := todo[0];
      var s := st.steps[j];
      assert i in todo <==> i == j || i in todo[1..];
      if HasTest(r, s) {
        NamesListed(r, st, todo[1..], i);
      } else {
        var path := UniquePath(r, s.id, UnitTest, st.used);
        var named := s.(outputs := Dedup(s.outputs + [path]));
        FreeNameIsTest(r, s.id, st.used);
        assert GetsOne(r, s, named);
        GetsOneHasTest(r, s, named);
        NamesListed(r, PairState(st.steps[j := named], st.used + {path}), todo[1..], i);
      }
    }
  }

  lemma {:induction false} InBucket(p: seq<Step>, u: seq<nat>, iteration: string, i: nat)
    requires InRange(u, |p|) && i < |p|
    ensures i in Bucket(p, u, iteration) <==> i in u && IterationOf(p[i]) == iteration
  {
    if u != [] {
      var n := |u| - 1;
      assert u == u[..n] + [u[n]];
      InBucket(p, u[..n], iteration, i);
    }
  }

  lemma {:induction false} AddsListed(
    c: CoverageRules, p: seq<Step>, u: seq<nat>, st: PairState, its: seq<string>, base: nat, i: nat)
    requires InRange(u, |p|) && |st.steps| == |p| && i < |p|
    requires forall k :: 0 <= k < |p| && k in u ==> NamesFit(c.paths, st.steps[k].id)
    ensures NamedRightly(c.paths, st.steps[i], AddSteps(c, p, u, st, its, base).st.steps[i],
              i in u && IterationOf(p[i]) in its)
    decreases |its|
  {
    hide HasTest, NamesFit, NameTests, Synthetic, NewId, Bucket, GetsOne;
    if its != [] {
      var bucket := Bucket(p, u, its[0]);
      var named := NameTests(c.paths, st, bucket);
      forall k | 0 <= k < |p| ensures NamedRightly(c.paths, st.steps[k], named.steps[k], k in bucket) {
        NamesListed(c.paths, st, bucket, k);
      }
      InBucket(p, u, its[0], i);
      forall k | 0 <= k < |p|
        ensures named.steps[k].id == st.steps[k].id
      {
        SameId(c.paths, st.steps[k], named.steps[k], k in bucket);
      }
      AddsListed(c, p, u, named, its[1..], base + 1, i);
      if i in bucket && !HasTest(c.paths, st.steps[i]) { GetsOneHasTest(c.paths, st.steps[i], named.steps[i]); }
      assert IterationOf(p[i]) in its <==> IterationOf(p[i]) == its[0] || IterationOf(p[i]) in its[1..];
    }
  }

  lemma {:induction false} SameId(r: Rules, a: Step, b: Step, listed: bool)
    requires NamedRightly(r, a, b, listed)
    ensures b.id == a.id
  {
  }

  lemma {:induction false} JoinedListed(c: CoverageRules, p: seq<Step>, u: seq<nat>, i: nat)
    requires PlanNamesFit(c.paths, p) && AllCode(p, u) && i < |p|
    ensures i < |Joined(c, p, u)|
    ensures
      var before, after := p[i].outputs, Joined(c, p, u)[i].outputs;
      if i in u && !HasTest(c.paths, p[i]) then
        exists x :: c.paths.executable(x) && forall o :: o in after <==> o in before || o == x
      else after == before
  {
    hide AddSteps, IterationsAt, MaxNumber, Joined, HasTest, PlanNamesFit;
    var its, base := IterationsAt(p, u), MaxNumber(p) + 1;
    JoinedKeepsLists(c, p, u, i);
    assert i in u ==> exists m :: 0 <= m < |u| && u[m] == i;
    FitOnCode(c.paths, p, u);
    AddsListed(c, p, u, PairState(p, OutputsOf(p)), its, base, i);
  }

  lemma {:induction false} FitOnCode(r: Rules, p: seq<Step>, u: seq<nat>)
    requires PlanNamesFit(r, p) && AllCode(p, u)
    ensures forall k :: 0 <= k < |p| && k in u ==> NamesFit(r, p[k].id)
  {
    hide NamesFit;
    forall k | 0 <= k < |p| && k in u ensures NamesFit(r, p[k].id) {
      var m :| 0 <= m < |u| && u[m] == k;
      assert p[u[m]].phase == Code;
    }
  }

  /**
   * After the first pairing pass the repair changes the outputs of an old step exactly where it is uncovered and owns
   * no executable test: it gets one test, and nothing else. So every uncovered step ends up with one.
   */
  lemma {:induction false} UncoveredGetTests(c: CoverageRules, steps: seq<Step>, i: nat)
    requires RulesHold(c, steps) && UniqueIds(steps) && PlainReports(c, GapIterations(c, steps)) && i < |steps|
    ensures i < |Repaired(c, steps)|
    ensures
      var before, after := Paired(c.paths, steps)[i], Repaired(c, steps)[i];
      if i in Gaps(c, steps) && !HasTest(c.paths, before) then
        exists x :: c.paths.executable(x) && forall o :: o in after.outputs <==> o in before.outputs || o == x
      else after.outputs == before.outputs
    ensures i in Gaps(c, steps) ==> HasTest(c.paths, Repaired(c, steps)[i])
  {
    hide Paired, UncoveredUpTo, IterationsAt, RulesHold, Settled, Joined, HasTest, PlainReports;
    var p, u := Paired(c.paths, steps), Gaps(c, steps);
    RulesFit(c, steps);
    PairedIsSettled(c.paths, steps);
    RulesStay(c, steps, p);
    IdentityExtends(steps, p);
    UncoveredAlike(c, steps, |steps|);
    SameIterationsAt(steps, p, u);
    if u != [] {
      TestsInJoined(c, p, u, IterationsAt(p, u), i);
      if i in u && !HasTest(c.paths, p[i]) { OneMoreHasTest(c.paths, p[i], Repaired(c, steps)[i]); }
      if i in u && HasTest(c.paths, p[i]) { SameHasTest(c.paths, p[i], Repaired(c, steps)[i]); }
    }
  }

  lemma {:induction false} OneMoreHasTest(r: Rules, a: Step, b: Step)
    requires exists x :: r.executable(x) && forall o :: o in b.outputs <==> o in a.outputs || o == x
    ensures HasTest(r, b)
  {
    var x :| r.executable(x) && forall o :: o in b.outputs <==> o in a.outputs || o == x;
    assert x in b.outputs;
  }

  lemma {:induction false} SameHasTest(r: Rules, a: Step, b: Step)
    requires HasTest(r, a) && b.outputs == a.outputs
    ensures HasTest(r, b)
  {
  }

  lemma {:induction false} TestsInJoined(c: CoverageRules, p: seq<Step>, u: seq<nat>, its: seq<string>, i: nat)
    requires RulesHold(c, p) && UniqueIds(p) && u == UncoveredUpTo(c, p, |p|) && Settled(c.paths, p)
    requires its == IterationsAt(p, u) && PlainReports(c, its) && i < |p|
    ensures i < |Paired(c.paths, Joined(c, p, u))|
    ensures
      var before, after := p[i].outputs, Paired(c.paths, Joined(c, p, u))[i].outputs;
      if i in u && !HasTest(c.paths, p[i]) then
        exists x :: c.paths.executable(x) && forall o :: o in after <==> o in before || o == x
      else after == before
  {
    hide Paired, UncoveredUpTo, IterationsAt, RulesHold, Settled, Joined, HasTest, PlainReports, PlanNamesFit;
    UncoveredIsCode(c, p);
    RulesFit(c, p);
    JoinedListed(c, p, u, i);
    LastPassKeepsOutputs(c, p, u, Joined(c, p, u), its, i);
  }

  // ---- What verification steps list -----------------------------------------------------

  /** A test of pair `k`: its sources or its test steps list it, or it is generated for them. */
  ghost predicate TestOfPair(r: Rules, plan: seq<Step>, pairs: seq<PairGroup>, k: nat, x: string)
    requires k < |pairs|
  {
    var g := pairs[k];
    Owned(r, plan, g.iteration, g.source, x) || Claimed(r, plan, g.iteration, g.test, x) ||
    NameAt(r, plan, pairs, k) == Some(x)
  }

  lemma {:induction false} PairTests(r: Rules, plan: seq<Step>, pairs: seq<PairGroup>, k: nat, x: string)
    requires k < |pairs| && StepsOf(plan, pairs[k].source, pairs[k].iteration) != []
    ensures x in AssetsAt(r, plan, pairs, k).all <==> TestOfPair(r, plan, pairs, k, x)
  {
    hide UsedAfter, NameFor, ExecutableOutputs, Claims, StepsOf;
    var g := pairs[k];
    OwnedCollected(r, plan, g.iteration, g.source, x);
    ClaimedCollected(r, plan, g.iteration, g.test, x);
    assert NameAt(r, plan, pairs, k).Some? ==>
        x !in ExecutableOutputs(r, StepsOf(plan, g.source, g.iteration)) &&
        x !in Claims(r, StepsOf(plan, g.test, g.iteration));
  }

  /**
   * A verification step after the pairing pass, told from the cleaned plan: where the source phase of its pair is
   * present, it reads what it read and all tests of the pair, and outputs what it did apart from executable tests;
   * elsewhere it stays as it was.
   */
  lemma {:induction false} VerificationLists(r: Rules, steps: seq<Step>, i: nat, k: nat, x: string)
    requires i < |steps| && k < |PairsOf(Cleaned(r, steps))|
    requires InPhase(Cleaned(r, steps)[i], PairsOf(Cleaned(r, steps))[k].iteration, PairsOf(Cleaned(r, steps))[k].test)
    ensures
      var plan, out := Cleaned(r, steps), Paired(r, steps)[i];
      var pairs := PairsOf(plan);
      if Present(plan, pairs[k].iteration, pairs[k].source) then
        && (x in out.inputs <==> x in plan[i].inputs || TestOfPair(r, plan, pairs, k, x))
        && (x in out.outputs <==> x in plan[i].outputs && !r.executable(x))
      else out == plan[i]
  {
    hide Paired, PairsOf, AssetsAt, TestOfPair;
    var plan := Cleaned(r, steps);
    PairedClosedForm(r, steps, i, k);
    PairsOfPlan(plan);
    assert PairsOf(plan)[k] in PairsOf(plan);
    GroupsApart(PairsOf(plan)[k], PairsOf(plan)[k]);
    OwnerIsFirst(plan, PairsOf(plan)[k].iteration, PairsOf(plan)[k].source);
    if Present(plan, PairsOf(plan)[k].iteration, PairsOf(plan)[k].source) { PairTests(r, plan, PairsOf(plan), k, x); }
  }

  // ---- What the new steps read ----------------------------------------------------------

  lemma {:induction false} InAllOutputs(mid: seq<Step>, positions: seq<nat>, n: nat, x: string)
    requires InRange(positions, |mid|) && n < |positions| && x in mid[positions[n]].outputs
    ensures x in AllOutputs(mid, positions)
  {
    var last := |positions| - 1;
    if n < last { InAllOutputs(mid, positions[..last], n, x); }
  }

  /** Whatever an uncovered step of the iteration outputs in the end, the new step reads. */
  lemma {:induction false} ReadsGapOutputs(
    c: CoverageRules, p: seq<Step>, u: seq<nat>, st: PairState, its: seq<string>, base: nat, k: nat, i: nat, x: string)
    requires InRange(u, |p|) && |st.steps| == |p| && k < |its| && i < |p| && i in u && IterationOf(p[i]) == its[k]
    requires forall m :: 0 <= m < |p| && m in u ==> NamesFit(c.paths, st.steps[m].id)
    requires NoDup(its) && x in AddSteps(c, p, u, st, its, base).st.steps[i].outputs
    ensures x in AddSteps(c, p, u, st, its, base).steps[k].inputs
    decreases |its|
  {
    hide HasTest, NamesFit, NameTests, NewId, Bucket, GetsOne, AllOutputs;
    var bucket := Bucket(p, u, its[0]);
    var named := NameTests(c.paths, st, bucket);
    forall m | 0 <= m < |p| ensures named.steps[m].id == st.steps[m].id {
      NamesListed(c.paths, st, bucket, m);
      SameId(c.paths, st.steps[m], named.steps[m], m in bucket);
    }
    if k == 0 {
      InBucket(p, u, its[0], i);
      var n :| 0 <= n < |bucket| && bucket[n] == i;
      assert IterationOf(p[i]) !in its[1..];
      AddsListed(c, p, u, named, its[1..], base + 1, i);
      InAllOutputs(named.steps, bucket, n, x);
    } else {
      ReadsGapOutputs(c, p, u, named, its[1..], base + 1, k - 1, i, x);
    }
  }

  lemma {:induction false} JoinedReads(c: CoverageRules, p: seq<Step>, u: seq<nat>, k: nat, x: string)
    requires PlanNamesFit(c.paths, p) && AllCode(p, u) && k < |IterationsAt(p, u)|
    ensures |Joined(c, p, u)| == |p| + |IterationsAt(p, u)|
    ensures x in Joined(c, p, u)[|p| + k].inputs <==>
            exists i :: 0 <= i < |p| && i in u && IterationOf(p[i]) == IterationsAt(p, u)[k] &&
                        x in Joined(c, p, u)[i].outputs
  {
    hide AddSteps, IterationsAt, MaxNumber, Joined, PlanNamesFit, JoinedNames;
    var its, base, st := IterationsAt(p, u), MaxNumber(p) + 1, PairState(p, OutputsOf(p));
    JoinedSize(c, p, u);
    JoinedAt(c, p, u, |p| + k);
    FitOnCode(c.paths, p, u);
    IterationsNoDup(p, u);
    JoinedHasNames(c, p, u);
    ReadsBackwards(c, p, u, Joined(c, p, u), its, k, x);
    if i :| 0 <= i < |p| && i in u && IterationOf(p[i]) == its[k] && x in Joined(c, p, u)[i].outputs {
      JoinedKeepsLists(c, p, u, i);
      ReadsGapOutputs(c, p, u, st, its, base, k, i, x);
    }
  }

  lemma {:induction false} ReadsBackwards(
    c: CoverageRules, p: seq<Step>, u: seq<nat>, joined: seq<Step>, its: seq<string>, k: nat, x: string)
    requires JoinedNames(c, p, u, joined, its) && k < |its|
    ensures x in joined[|p| + k].inputs ==>
              exists i :: 0 <= i < |p| && i in u && IterationOf(p[i]) == its[k] && x in joined[i].outputs
  {
    hide NamesSpread, OutputsGrow;
    if x in joined[|p| + k].inputs {
      assert GapOutputs(p, u, joined[..|p|], its[k], x);
      var n :| 0 <= n < |u| && IterationOf(p[u[n]]) == its[k] && x in joined[..|p|][u[n]].outputs;
      assert u[n] in u;
    }
  }

  /** What new step `k` has to read: outputs of uncovered steps, and tests of CODE steps, of its iteration. */
  ghost predicate ToRead(
    c: CoverageRules, steps: seq<Step>, out: seq<Step>, u: seq<nat>, iteration: string, x: string)
    requires |steps| <= |out|
  {
    exists i :: 0 <= i < |steps| && IterationOf(steps[i]) == iteration && x in out[i].outputs &&
                (i in u || (steps[i].phase == Code && c.paths.executable(x)))
  }

  /** The inputs of a new step of the repaired plan, exactly. */
  lemma {:induction false} NewStepReads(c: CoverageRules, steps: seq<Step>, k: nat, x: string)
    requires RulesHold(c, steps) && UniqueIds(steps) && PlainReports(c, GapIterations(c, steps))
    requires k < |GapIterations(c, steps)|
    ensures |Repaired(c, steps)| == |steps| + |GapIterations(c, steps)|
    ensures x in Repaired(c, steps)[|steps| + k].inputs <==>
            ToRead(c, steps, Repaired(c, steps), Gaps(c, steps), GapIterations(c, steps)[k], x)
  {
    hide Paired, UncoveredUpTo, IterationsAt, RulesHold, Settled, Joined, PlainReports, ToRead;
    var p, u := Paired(c.paths, steps), Gaps(c, steps);
    RulesFit(c, steps);
    PairedIsSettled(c.paths, steps);
    RulesStay(c, steps, p);
    IdentityExtends(steps, p);
    UncoveredAlike(c, steps, |steps|);
    SameIterationsAt(steps, p, u);
    NoGapNoIteration(steps, u);
    ReadsInJoined(c, p, u, IterationsAt(p, u), k, x);
    ToReadAlike(c, steps, p, Repaired(c, steps), u, GapIterations(c, steps)[k], x);
  }

  lemma {:induction false} NoGapNoIteration(steps: seq<Step>, u: seq<nat>)
    requires InRange(u, |steps|)
    ensures u == [] ==> IterationsAt(steps, u) == []
  {
  }

  lemma {:induction false} ToReadAlike(
    c: CoverageRules, a: seq<Step>, b: seq<Step>, out: seq<Step>, u: seq<nat>, iteration: string, x: string)
    requires SameIdentity(a, b) && |a| <= |out|
    ensures ToRead(c, a, out, u, iteration, x) <==> ToRead(c, b, out, u, iteration, x)
  {
    assert forall i :: 0 <= i < |a| ==> IterationOf(a[i]) == IterationOf(b[i]) && a[i].phase == b[i].phase;
  }

  lemma {:induction false} ReadsInJoined(
    c: CoverageRules, p: seq<Step>, u: seq<nat>, its: seq<string>, k: nat, x: string)
    requires RulesHold(c, p) && UniqueIds(p) && u == UncoveredUpTo(c, p, |p|) && Settled(c.paths, p)
    requires its == IterationsAt(p, u) && PlainReports(c, its) && k < |its|
    ensures |Paired(c.paths, Joined(c, p, u))| == |p| + |its|
    ensures x in Paired(c.paths, Joined(c, p, u))[|p| + k].inputs <==>
            ToRead(c, p, Paired(c.paths, Joined(c, p, u)), u, its[k], x)
  {
    hide Paired, UncoveredUpTo, IterationsAt, RulesHold, Settled, Joined, PlainReports, ToRead, JoinedPlaces;
    var joined := Joined(c, p, u);
    UncoveredIsCode(c, p);
    RulesFit(c, p);
    JoinedSize(c, p, u);
    JoinedIsPlaced(c, p, u, joined, its);
    JoinedHasNames(c, p, u);
    JoinedReads(c, p, u, k, x);
    SettledIsClean(c.paths, p);
    JoinedIsClean(c, p, u, joined, its);
    JoinedFed(c, p, u, joined, its, GroupsOf(its[k])[3]);
    var i := SomeGap(p, u, k);
    FedReads(c, p, u, joined, its, k, x, i);
    forall j | 0 <= j < |joined| ensures Paired(c.paths, joined)[j].outputs == joined[j].outputs {
      LastPassKeepsOutputs(c, p, u, joined, its, j);
    }
    SameOutputsToRead(c, p, joined, Paired(c.paths, joined), u, its[k], x);
  }

  lemma {:induction false} SettledIsClean(r: Rules, steps: seq<Step>)
    requires Settled(r, steps)
    ensures Clean(r, steps)
  {
  }

  lemma {:induction false} SameOutputsToRead(
    c: CoverageRules, p: seq<Step>, a: seq<Step>, b: seq<Step>, u: seq<nat>, iteration: string, x: string)
    requires |p| <= |a| == |b| && forall j :: 0 <= j < |a| ==> b[j].outputs == a[j].outputs
    ensures ToRead(c, p, a, u, iteration, x) <==> ToRead(c, p, b, u, iteration, x)
  {
  }

  /** Some uncovered step belongs to the iteration. */
  lemma {:induction false} SomeGap(p: seq<Step>, u: seq<nat>, k: nat) returns (i: nat)
    requires AllCode(p, u) && k < |IterationsAt(p, u)|
    ensures i < |p| && i in u && InPhase(p[i], IterationsAt(p, u)[k], Code)
  {
    var at := seq(|u|, n requires 0 <= n < |u| => p[u[n]]);
    assert IterationsAt(p, u)[k] in IterationIds(at);
    var n :| 0 <= n < |at| && IterationOf(at[n]) == IterationsAt(p, u)[k];
    i := u[n];
  }

  /** The last pairing pass adds the tests of the iteration's CODE steps to what the new step reads. */
  lemma {:induction false} FedReads(
    c: CoverageRules, p: seq<Step>, u: seq<nat>, joined: seq<Step>, its: seq<string>, k: nat, x: string, i: nat)
    requires Clean(c.paths, joined) && JoinedPlaces(c, p, joined, its) && k < |its| && AllCode(p, u)
    requires Fed(c.paths, joined, GroupsOf(its[k])[3]) && i < |p| && InPhase(p[i], its[k], Code)
    requires x in joined[|p| + k].inputs <==>
             exists m :: 0 <= m < |p| && m in u && IterationOf(p[m]) == its[k] && x in joined[m].outputs
    ensures |Paired(c.paths, joined)| == |joined|
    ensures x in Paired(c.paths, joined)[|p| + k].inputs <==> ToRead(c, p, joined, u, its[k], x)
  {
    hide Paired, Clean, Fed, Owned, WellFormed;
    assert WellFormed(GroupsOf(its[k])[3]) by { FourthGroup(its[k]); }
    assert InPhase(joined[i], its[k], Code);
    FedInputs(c.paths, joined, |p| + k, GroupsOf(its[k])[3], x);
    OwnedIsOld(c, p, u, joined, its, k, x);
  }

  lemma {:induction false} FourthGroup(iteration: string)
    ensures WellFormed(GroupsOf(iteration)[3])
    ensures GroupsOf(iteration)[3].iteration == iteration
    ensures GroupsOf(iteration)[3].source == Code && GroupsOf(iteration)[3].test == UnitTest
  {
  }

  /** A test step of a fed pair reads what it read and the tests its source phase owns. */
  lemma {:induction false} FedInputs(r: Rules, steps: seq<Step>, i: nat, g: PairGroup, x: string)
    requires Clean(r, steps) && WellFormed(g) && Fed(r, steps, g) && Present(steps, g.iteration, g.source)
    requires i < |steps| && InPhase(steps[i], g.iteration, g.test)
    ensures x in Paired(r, steps)[i].inputs <==> x in steps[i].inputs || Owned(r, steps, g.iteration, g.source, x)
  {
    hide Paired, PairsOf, Clean, NameAt, Fed, WellFormed, Owned, Claimed;
    CleanedAlready(r, steps);
    var n := PairOfStep(steps, i);
    PairsOfPlan(steps);
    assert PairsOf(steps)[n] in PairsOf(steps);
    GroupsApart(PairsOf(steps)[n], g);
    SameGroup(PairsOf(steps)[n], g);
    VerificationLists(r, steps, i, n, x);
    FedNamesNothing(r, steps, PairsOf(steps), n);
    ClaimedIsOwned(r, steps, g, x);
  }

  lemma {:induction false} CleanedAlready(r: Rules, steps: seq<Step>)
    requires Clean(r, steps)
    ensures Cleaned(r, steps) == steps && |Paired(r, steps)| == |steps|
  {
  }

  lemma {:induction false} SameGroup(g: PairGroup, h: PairGroup)
    requires WellFormed(g) && WellFormed(h) && g.iteration == h.iteration
    requires Verifies(h.test) && (g.test == h.test || g.source == h.test)
    ensures g == h
  {
  }

  lemma {:induction false} ClaimedIsOwned(r: Rules, steps: seq<Step>, g: PairGroup, x: string)
    requires Fed(r, steps, g) && Present(steps, g.iteration, g.source)
    ensures Claimed(r, steps, g.iteration, g.test, x) ==> Owned(r, steps, g.iteration, g.source, x)
  {
  }

  lemma {:induction false} OwnedIsOld(
    c: CoverageRules, p: seq<Step>, u: seq<nat>, joined: seq<Step>, its: seq<string>, k: nat, x: string)
    requires JoinedPlaces(c, p, joined, its) && k < |its|
    ensures Owned(c.paths, joined, its[k], Code, x) <==>
            c.paths.executable(x) &&
            exists m :: 0 <= m < |p| && InPhase(p[m], its[k], Code) && x in joined[m].outputs
  {
    if m :| 0 <= m < |p| && InPhase(p[m], its[k], Code) && x in joined[m].outputs {
      assert InPhase(joined[m], its[k], Code);
    }
  }
}
