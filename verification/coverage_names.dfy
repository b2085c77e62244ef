/** The test names the coverage repair adds: new, one owner each, and left alone by the last pairing pass. */
module CoverageNames {
  import opened Basics
  import opened Plans
  import opened PlanLint
  import opened VModelDependencies
  import opened TestPairing
  import opened GeneratedNames
  import opened CoverageRepair
  import opened CoverageEffects
  import opened CoverageResults

  // ---- Pairs the pairing pass gives nothing ---------------------------------------------

  /** The sources of the pair own a test and all its test steps list, and its test steps own none. */
  ghost predicate Fed(r: Rules, steps: seq<Step>, g: PairGroup) {
    Present(steps, g.iteration, g.source) ==>
      && OwnsSome(r, steps, g.iteration, g.source)
      && (forall x :: Claimed(r, steps, g.iteration, g.test, x) ==> Owned(r, steps, g.iteration, g.source, x))
      && (forall i, o :: 0 <= i < |steps| && InPhase(steps[i], g.iteration, g.test) && o in steps[i].outputs ==>
            !r.executable(o))
  }

  lemma {:induction false} FedGivesNothing(r: Rules, plan: seq<Step>, pairs: seq<PairGroup>, k: nat)
    requires k < |pairs| && Fed(r, plan, pairs[k]) && StepsOf(plan, pairs[k].source, pairs[k].iteration) != []
    ensures NameAt(r, plan, pairs, k) == None && AssetsAt(r, plan, pairs, k).toOwner == []
  {
    hide UsedAfter, NameFor;
    var g := pairs[k];
    var sources, tests := StepsOf(plan, g.source, g.iteration), StepsOf(plan, g.test, g.iteration);
    OwnerIsFirst(plan, g.iteration, g.source);
    var x :| Owned(r, plan, g.iteration, g.source, x);
    OwnedCollected(r, plan, g.iteration, g.source, x);
    forall y | y in Claims(r, tests) ensures y in ExecutableOutputs(r, sources) {
      ClaimedCollected(r, plan, g.iteration, g.test, y);
      OwnedCollected(r, plan, g.iteration, g.source, y);
    }
    HasMember(AssetsAt(r, plan, pairs, k).toOwner);
  }

  /** Where every pair is fed, the pass changes no outputs and generates no name. */
  lemma {:induction false} FedKeepsOutputs(r: Rules, steps: seq<Step>, i: nat)
    requires Clean(r, steps) && i < |steps| && forall g :: g in PairsOf(steps) ==> Fed(r, steps, g)
    ensures Paired(r, steps)[i].outputs == steps[i].outputs
    ensures forall k :: 0 <= k < |PairsOf(steps)| ==> NameAt(r, steps, PairsOf(steps), k) == None
  {
    hide Paired, PairsOf, NameAt, AssetsAt, Fed, ClosedStep;
    assert Cleaned(r, steps) == steps;
    var pairs := PairsOf(steps);
    var k := PairOfStep(steps, i);
    assert pairs[k] in pairs;
    PairedClosedForm(r, steps, i, k);
    FedStepKeeps(r, steps, pairs, k, i);
    forall m | 0 <= m < |pairs| ensures NameAt(r, steps, pairs, m) == None { FedNamesNothing(r, steps, pairs, m); }
  }

  lemma {:induction false} FedStepKeeps(r: Rules, steps: seq<Step>, pairs: seq<PairGroup>, k: nat, i: nat)
    requires Clean(r, steps) && i < |steps| && k < |pairs| && Fed(r, steps, pairs[k])
    ensures ClosedStep(r, steps, pairs, k, i).outputs == steps[i].outputs
  {
    hide NameAt, AssetsAt;
    assert CleanStep(r, steps[i]);
    if StepsOf(steps, pairs[k].source, pairs[k].iteration) != [] {
      FedGivesNothing(r, steps, pairs, k);
      OwnerIsFirst(steps, pairs[k].iteration, pairs[k].source);
      DedupAbsorbs(steps[i].outputs, []);
    }
  }

  lemma {:induction false} FedNamesNothing(r: Rules, plan: seq<Step>, pairs: seq<PairGroup>, k: nat)
    requires k < |pairs| && (pairs[k] in pairs ==> Fed(r, plan, pairs[k]))
    ensures NameAt(r, plan, pairs, k) == None
  {
    hide ExecutableOutputs, Claims, UsedAfter, NameFor;
    if StepsOf(plan, pairs[k].source, pairs[k].iteration) != [] { FedGivesNothing(r, plan, pairs, k); }
  }

  // ---- Naming the tests of uncovered steps ----------------------------------------------

  /** Only these steps get new outputs, none of which was an output, and no two steps the same. */
  ghost predicate NamesSpread(a: seq<Step>, b: seq<Step>, positions: seq<nat>) {
    |a| == |b| && forall i, o :: 0 <= i < |a| && AddedAt(a, b, i, o) ==>
      i in positions && o !in OutputsOf(a) && OnlyAt(b, i, o)
  }

  predicate AddedAt(a: seq<Step>, b: seq<Step>, i: nat, o: string)
    requires i < |a| && i < |b|
  {
    o in b[i].outputs && o !in a[i].outputs
  }

  predicate OnlyAt(b: seq<Step>, i: nat, o: string) {
    forall k :: 0 <= k < |b| && k != i ==> o !in b[k].outputs
  }

  ghost predicate OutputsGrow(a: seq<Step>, b: seq<Step>) {
    |a| == |b| && forall i, o :: 0 <= i < |a| && o in a[i].outputs ==> o in b[i].outputs
  }

  lemma {:induction false} OutputsIncluded(a: seq<Step>, i: nat, o: string)
    requires i < |a| && o in a[i].outputs
    ensures o in OutputsOf(a)
  {
    assert a[i] in a;
  }

  lemma {:induction false} GrowOutputs(a: seq<Step>, b: seq<Step>)
    requires OutputsGrow(a, b)
    ensures OutputsOf(a) <= OutputsOf(b)
  {
    forall o | o in OutputsOf(a) ensures o in OutputsOf(b) {
      var i := OutputListed(a, o);
      OutputsIncluded(b, i, o);
    }
  }

  lemma {:induction false} SpreadTrans(a: seq<Step>, b: seq<Step>, c: seq<Step>, positions: seq<nat>)
    requires NamesSpread(a, b, positions) && NamesSpread(b, c, positions) && OutputsGrow(a, b) && OutputsGrow(b, c)
    ensures NamesSpread(a, c, positions) && OutputsGrow(a, c)
  {
    GrowOutputs(a, b);
    forall i, o | 0 <= i < |a| && AddedAt(a, c, i, o)
      ensures i in positions && o !in OutputsOf(a) && OnlyAt(c, i, o)
    {
      SpreadThrough(a, b, c, positions, i, o);
    }
  }

  lemma {:induction false} SpreadThrough(
    a: seq<Step>, b: seq<Step>, c: seq<Step>, positions: seq<nat>, i: nat, o: string)
    requires NamesSpread(a, b, positions) && NamesSpread(b, c, positions) && OutputsOf(a) <= OutputsOf(b)
    requires i < |a| && AddedAt(a, c, i, o)
    ensures i in positions && o !in OutputsOf(a) && OnlyAt(c, i, o)
  {
    if o in b[i].outputs {
      assert AddedAt(a, b, i, o);
      OutputsIncluded(b, i, o);
      forall k | 0 <= k < |c| && k != i ensures o !in c[k].outputs { assert !AddedAt(b, c, k, o); }
    } else {
      assert AddedAt(b, c, i, o);
    }
  }

  lemma {:induction false} SpreadOne(st: PairState, i: nat, path: string, positions: seq<nat>)
    requires i < |st.steps| && i in positions && OutputsOf(st.steps) <= st.used && path !in st.used
    ensures
      var next := st.steps[i := st.steps[i].(outputs := Dedup(st.steps[i].outputs + [path]))];
      && NamesSpread(st.steps, next, positions) && OutputsGrow(st.steps, next)
      && OutputsOf(next) <= st.used + {path}
  {
    var s := st.steps[i];
    var next := st.steps[i := s.(outputs := Dedup(s.outputs + [path]))];
    forall k | 0 <= k < |st.steps| ensures path !in st.steps[k].outputs {
      if path in st.steps[k].outputs {
        OutputsIncluded(st.steps, k, path);
        assert false;
      }
    }
    forall o | o in OutputsOf(next) ensures o in st.used + {path} {
      var k := OutputListed(next, o);
      if o != path { OutputsIncluded(st.steps, k, o); }
    }
  }

  lemma {:induction false} SpreadNone(a: seq<Step>, positions: seq<nat>)
    ensures NamesSpread(a, a, positions) && OutputsGrow(a, a)
  {
  }

  lemma {:induction false} NamingSpreads(r: Rules, st: PairState, todo: seq<nat>, positions: seq<nat>)
    requires InRange(todo, |st.steps|) && OutputsOf(st.steps) <= st.used && forall k :: k in todo ==> k in positions
    ensures
      var out := NameTests(r, st, todo);
      NamesSpread(st.steps, out.steps, positions) && OutputsGrow(st.steps, out.steps) &&
          OutputsOf(out.steps) <= out.used
    decreases |todo|
  {
    hide NamesSpread, OutputsGrow, OutputsOf, UniquePath, HasTest;
    if todo == [] {
      SpreadNone(st.steps, positions);
    } else {
      var i := todo[0];
      var s := st.steps[i];
      if HasTest(r, s) {
        NamingSpreads(r, st, todo[1..], positions);
      } else {
        var path := UniquePath(r, s.id, UnitTest, st.used);
        var next := PairState(st.steps[i := s.(outputs := Dedup(s.outputs + [path]))], st.used + {path});
        SpreadOne(st, i, path, positions);
        NamingSpreads(r, next, todo[1..], positions);
        SpreadTrans(st.steps, next.steps, NameTests(r, next, todo[1..]).steps, positions);
      }
    }
  }

  lemma {:induction false} AddedSpreads(
    c: CoverageRules, p: seq<Step>, u: seq<nat>, st: PairState, its: seq<string>, base: nat)
    requires InRange(u, |p|) && |st.steps| == |p| && OutputsOf(st.steps) <= st.used
    ensures
      var out := AddSteps(c, p, u, st, its, base).st;
      NamesSpread(st.steps, out.steps, u) && OutputsGrow(st.steps, out.steps) && OutputsOf(out.steps) <= out.used
    decreases |its|
  {
    hide NamesSpread, OutputsGrow, OutputsOf, NameTests, Synthetic, NewId;
    if its == [] {
      SpreadNone(st.steps, u);
    } else {
      var named := AddOne(c, p, u, st, its[0], NewId(base)).0;
      NamingSpreads(c.paths, st, Bucket(p, u, its[0]), u);
      AddedSpreads(c, p, u, named, its[1..], base + 1);
      SpreadTrans(st.steps, named.steps, AddSteps(c, p, u, named, its[1..], base + 1).st.steps, u);
    }
  }

  // ---- The inputs of the new steps ------------------------------------------------------

  lemma {:induction false} FromBucket(mid: seq<Step>, positions: seq<nat>, x: string)
    requires InRange(positions, |mid|) && x in AllOutputs(mid, positions)
    ensures exists n :: 0 <= n < |positions| && x in mid[positions[n]].outputs
  {
    var n := |positions| - 1;
    if x in AllOutputs(mid, positions[..n]) {
      FromBucket(mid, positions[..n], x);
      var m :| 0 <= m < n && x in mid[positions[..n][m]].outputs;
      assert x in mid[positions[m]].outputs;
    }
  }

  /** An uncovered step of the iteration outputs `x`. */
  predicate GapOutputs(p: seq<Step>, u: seq<nat>, mid: seq<Step>, iteration: string, x: string)
    requires InRange(u, |p|) && |mid| == |p|
  {
    exists n :: 0 <= n < |u| && IterationOf(p[u[n]]) == iteration && x in mid[u[n]].outputs
  }

  lemma {:induction false} AddedInputs(
    c: CoverageRules, p: seq<Step>, u: seq<nat>, st: PairState, its: seq<string>, base: nat, k: nat, x: string)
    requires InRange(u, |p|) && |st.steps| == |p| && OutputsOf(st.steps) <= st.used && k < |its|
    requires x in AddSteps(c, p, u, st, its, base).steps[k].inputs
    ensures GapOutputs(p, u, AddSteps(c, p, u, st, its, base).st.steps, its[k], x)
    decreases |its|
  {
    hide NameTests, NewId, OutputsOf, AllOutputs, NamesSpread;
    var (named, made) := AddOne(c, p, u, st, its[0], NewId(base));
    NamingSpreads(c.paths, st, Bucket(p, u, its[0]), u);
    var rest := AddSteps(c, p, u, named, its[1..], base + 1);
    AddedSpreads(c, p, u, named, its[1..], base + 1);
    if k == 0 {
      var b := Bucket(p, u, its[0]);
      FromBucket(named.steps, b, x);
      var n :| 0 <= n < |b| && x in named.steps[b[n]].outputs;
      assert b[n] in u;
      var m :| 0 <= m < |u| && u[m] == b[n];
      assert x in rest.st.steps[u[m]].outputs;
    } else {
      AddedInputs(c, p, u, named, its[1..], base + 1, k - 1, x);
    }
  }

  // ---- The joined plan is fed -----------------------------------------------------------

  /** What the joined plan adds to the plan before it. */
  ghost predicate JoinedNames(c: CoverageRules, p: seq<Step>, u: seq<nat>, joined: seq<Step>, its: seq<string>) {
    && InRange(u, |p|) && |joined| == |p| + |its|
    && NamesSpread(p, joined[..|p|], u) && OutputsGrow(p, joined[..|p|])
    && (forall i :: 0 <= i < |p| ==> joined[i].inputs == p[i].inputs)
    && forall j, x :: |p| <= j < |joined| && x in joined[j].inputs ==>
         GapOutputs(p, u, joined[..|p|], its[j - |p|], x)
  }

  lemma {:induction false} SameOutputs(a: seq<Step>, b: seq<Step>, c: seq<Step>, u: seq<nat>)
    requires |b| == |c| && (forall i :: 0 <= i < |b| ==> c[i].outputs == b[i].outputs)
    requires NamesSpread(a, b, u) && OutputsGrow(a, b)
    ensures NamesSpread(a, c, u) && OutputsGrow(a, c)
  {
    forall i, o | 0 <= i < |a| && AddedAt(a, c, i, o) ensures i in u && o !in OutputsOf(a) && OnlyAt(c, i, o) {
      assert AddedAt(a, b, i, o);
    }
  }

  lemma {:induction false} JoinedKeepsLists(c: CoverageRules, p: seq<Step>, u: seq<nat>, i: nat)
    requires PlanNamesFit(c.paths, p) && AllCode(p, u) && i < |p|
    ensures
      var a := AddSteps(c, p, u, PairState(p, OutputsOf(p)), IterationsAt(p, u), MaxNumber(p) + 1);
      && i < |Joined(c, p, u)| == |p| + |IterationsAt(p, u)|
      && Joined(c, p, u)[i].outputs == a.st.steps[i].outputs && Joined(c, p, u)[i].inputs == p[i].inputs
  {
    hide AddSteps, IterationsAt, MaxNumber, Rewired, Joined, IdsAt, ById;
    var its, base := IterationsAt(p, u), MaxNumber(p) + 1;
    var a := AddSteps(c, p, u, PairState(p, OutputsOf(p)), its, base);
    JoinedAt(c, p, u, i);
    RewiredSameLists(ById(p), IdsAt(p, u), its, base, a.st.steps[i]);
    AddedKeeps(c, p, u, its, base, i);
  }

  lemma {:induction false} JoinedHasNames(c: CoverageRules, p: seq<Step>, u: seq<nat>)
    requires PlanNamesFit(c.paths, p) && AllCode(p, u)
    ensures JoinedNames(c, p, u, Joined(c, p, u), IterationsAt(p, u))
  {
    hide AddSteps, IterationsAt, MaxNumber, Joined, NamesSpread, OutputsGrow, GapOutputs, OutputsOf;
    var its, base, joined := IterationsAt(p, u), MaxNumber(p) + 1, Joined(c, p, u);
    var st := PairState(p, OutputsOf(p));
    var a := AddSteps(c, p, u, st, its, base);
    JoinedSize(c, p, u);
    AddedSpreads(c, p, u, st, its, base);
    forall i | 0 <= i < |p| ensures joined[i].outputs == a.st.steps[i].outputs && joined[i].inputs == p[i].inputs {
      JoinedKeepsLists(c, p, u, i);
    }
    SameOutputs(p, a.st.steps, joined[..|p|], u);
    forall j, x | |p| <= j < |joined| && x in joined[j].inputs
      ensures GapOutputs(p, u, joined[..|p|], its[j - |p|], x)
    {
      JoinedAt(c, p, u, j);
      AddedInputs(c, p, u, st, its, base, j - |p|, x);
      SameGapOutputs(p, u, a.st.steps, joined[..|p|], its[j - |p|], x);
    }
  }

  lemma {:induction false} JoinedSize(c: CoverageRules, p: seq<Step>, u: seq<nat>)
    requires InRange(u, |p|)
    ensures |Joined(c, p, u)| == |p| + |IterationsAt(p, u)|
  {
    hide AddSteps, IterationsAt, MaxNumber, IdsAt, ById;
  }

  lemma {:induction false} SameGapOutputs(
    p: seq<Step>, u: seq<nat>, a: seq<Step>, b: seq<Step>, iteration: string, x: string)
    requires InRange(u, |p|) && |a| == |b| == |p| && GapOutputs(p, u, a, iteration, x)
    requires forall i :: 0 <= i < |b| ==> b[i].outputs == a[i].outputs
    ensures GapOutputs(p, u, b, iteration, x)
  {
  }

  /** Old steps keep their place; new ones are unit test steps that own no test. */
  ghost predicate JoinedPlaces(c: CoverageRules, p: seq<Step>, joined: seq<Step>, its: seq<string>) {
    && |joined| == |p| + |its|
    && (forall i :: 0 <= i < |p| ==> joined[i].phase == p[i].phase && joined[i].iterationId == p[i].iterationId)
    && forall j :: |p| <= j < |joined| ==>
         && joined[j].phase == UnitTest && IterationOf(joined[j]) == its[j - |p|]
         && forall o :: o in joined[j].outputs ==> !c.paths.executable(o)
  }

  lemma {:induction false} OwnedGrows(
    c: CoverageRules, p: seq<Step>, u: seq<nat>, joined: seq<Step>, its: seq<string>, it: string, phase: Phase,
        x: string)
    requires JoinedNames(c, p, u, joined, its) && JoinedPlaces(c, p, joined, its)
    requires Owned(c.paths, p, it, phase, x)
    ensures Owned(c.paths, joined, it, phase, x)
  {
    hide NamesSpread, GapOutputs;
    var i :| 0 <= i < |p| && InPhase(p[i], it, phase) && x in p[i].outputs;
    assert joined[..|p|][i] == joined[i];
    assert InPhase(joined[i], it, phase) && x in joined[i].outputs;
  }

  /** A verification step of the old plan lists the same outputs. */
  lemma {:induction false} TestOutputsStay(
    c: CoverageRules, p: seq<Step>, u: seq<nat>, joined: seq<Step>, its: seq<string>, i: nat, o: string)
    requires JoinedNames(c, p, u, joined, its) && AllCode(p, u) && i < |p| && Verifies(p[i].phase)
    ensures i < |joined| && (o in joined[i].outputs ==> o in p[i].outputs)
  {
    hide GapOutputs, OutputsOf, OnlyAt;
    assert joined[..|p|][i] == joined[i];
    assert i !in u by {
      forall m | 0 <= m < |u| ensures u[m] != i { assert p[u[m]].phase == Code; }
    }
    assert AddedAt(p, joined[..|p|], i, o) ==> i in u;
  }

  lemma {:induction false} OldClaimOwned(
    c: CoverageRules, p: seq<Step>, u: seq<nat>, joined: seq<Step>, its: seq<string>, g: PairGroup, i: nat, x: string)
    requires Settled(c.paths, p) && AllCode(p, u) && JoinedNames(c, p, u, joined, its)
    requires JoinedPlaces(c, p, joined, its)
    requires WellFormed(g) && Present(p, g.iteration, g.source) && c.paths.executable(x)
    requires i < |p| && InPhase(joined[i], g.iteration, g.test) && (x in joined[i].outputs || x in joined[i].inputs)
    ensures Owned(c.paths, joined, g.iteration, g.source, x) && x !in joined[i].outputs
  {
    hide JoinedNames;
    GroupsApart(g, g);
    PairIsSettled(c.paths, p, g);
    assert InPhase(p[i], g.iteration, g.test);
    assert TestSettled(c.paths, p, g.iteration, g.source, p[i]);
    TestOutputsStay(c, p, u, joined, its, i, x);
    JoinedInputs(c, p, u, joined, its, i);
    OwnedGrows(c, p, u, joined, its, g.iteration, g.source, x);
  }

  lemma {:induction false} JoinedInputs(
    c: CoverageRules, p: seq<Step>, u: seq<nat>, joined: seq<Step>, its: seq<string>, i: nat)
    requires JoinedNames(c, p, u, joined, its) && i < |p|
    ensures i < |joined| && joined[i].inputs == p[i].inputs
  {
  }

  lemma {:induction false} PairIsSettled(r: Rules, p: seq<Step>, g: PairGroup)
    requires Settled(r, p) && WellFormed(g)
    ensures PhaseSettled(r, p, g.iteration, g.source, g.test)
  {
    hide PhaseSettled, Clean;
    var k :| 0 <= k < 4 && g == GroupsOf(g.iteration)[k];
    assert GroupSettled(r, p, GroupsOf(g.iteration)[k]);
  }

  lemma {:induction false} NewClaimOwned(
    c: CoverageRules, p: seq<Step>, u: seq<nat>, joined: seq<Step>, its: seq<string>, g: PairGroup, j: nat, x: string)
    requires AllCode(p, u) && JoinedNames(c, p, u, joined, its) && JoinedPlaces(c, p, joined, its)
    requires WellFormed(g) && c.paths.executable(x)
    requires |p| <= j < |joined| && InPhase(joined[j], g.iteration, g.test) && x in joined[j].inputs
    ensures Owned(c.paths, joined, g.iteration, g.source, x)
  {
    hide NamesSpread, OutputsGrow;
    var k :| 0 <= k < 4 && g == GroupsOf(g.iteration)[k];
    assert g.source == Code;
    assert GapOutputs(p, u, joined[..|p|], its[j - |p|], x);
    var n :| 0 <= n < |u| && IterationOf(p[u[n]]) == g.iteration && x in joined[..|p|][u[n]].outputs;
    assert InPhase(joined[u[n]], g.iteration, Code) && x in joined[u[n]].outputs;
  }

  lemma {:induction false} JoinedFed(
    c: CoverageRules, p: seq<Step>, u: seq<nat>, joined: seq<Step>, its: seq<string>, g: PairGroup)
    requires Settled(c.paths, p) && AllCode(p, u) && JoinedNames(c, p, u, joined, its)
    requires JoinedPlaces(c, p, joined, its)
    requires WellFormed(g)
    ensures Fed(c.paths, joined, g)
  {
    hide JoinedNames, Settled, Owned, WellFormed;
    GroupsApart(g, g);
    if Present(joined, g.iteration, g.source) {
      var s :| 0 <= s < |joined| && InPhase(joined[s], g.iteration, g.source);
      assert InPhase(p[s], g.iteration, g.source);
      assert Present(p, g.iteration, g.source);
      PairIsSettled(c.paths, p, g);
      var y :| Owned(c.paths, p, g.iteration, g.source, y);
      OwnedGrows(c, p, u, joined, its, g.iteration, g.source, y);
      forall i, x | 0 <= i < |joined| && InPhase(joined[i], g.iteration, g.test) && c.paths.executable(x) &&
                    (x in joined[i].outputs || x in joined[i].inputs)
        ensures Owned(c.paths, joined, g.iteration, g.source, x) && x !in joined[i].outputs
      {
        if i < |p| {
          OldClaimOwned(c, p, u, joined, its, g, i, x);
        } else {
          NewClaimOwned(c, p, u, joined, its, g, i, x);
        }
      }
    }
  }

  // ---- The whole repair -----------------------------------------------------------------

  /** Every new step's report is a plain output. */
  predicate PlainReports(c: CoverageRules, its: seq<string>) {
    forall k :: 0 <= k < |its| ==> Plain(c, c.unitDoc(its[k]))
  }

  lemma {:induction false} JoinedIsPlaced(
    c: CoverageRules, p: seq<Step>, u: seq<nat>, joined: seq<Step>, its: seq<string>)
    requires RulesHold(c, p) && UniqueIds(p) && u == UncoveredUpTo(c, p, |p|) && joined == Joined(c, p, u)
    requires its == IterationsAt(p, u) && PlainReports(c, its)
    ensures JoinedPlaces(c, p, joined, its)
    ensures forall j :: |p| <= j < |joined| ==> joined[j].outputs == [c.unitDoc(its[j - |p|])]
  {
    hide UncoveredUpTo, IterationsAt, Joined, RulesHold, NewStep, MaxNumber;
    JoinedUncovered(c, p, u, joined);
    forall j | |p| <= j < |joined|
      ensures joined[j].phase == UnitTest && IterationOf(joined[j]) == its[j - |p|]
      ensures joined[j].outputs == [c.unitDoc(its[j - |p|])] && Plain(c, c.unitDoc(its[j - |p|]))
    {
      var made := joined[|p|..];
      assert MadeFor(c, p, u, made[j - |p|], its[j - |p|], MaxNumber(p) + 1 + (j - |p|)) && made[j - |p|] == joined[j];
      NewIsUnitTest(p, made[j - |p|]);
    }
    forall i | 0 <= i < |p| ensures joined[i].phase == p[i].phase && joined[i].iterationId == p[i].iterationId {
      assert Keeps(p[i], joined[i]);
    }
  }

  lemma {:induction false} NewIsUnitTest(p: seq<Step>, s: Step)
    requires NewStep(p, s)
    ensures s.phase == UnitTest
  {
  }

  lemma {:induction false} NewStepIsClean(
    c: CoverageRules, p: seq<Step>, u: seq<nat>, joined: seq<Step>, its: seq<string>, j: nat)
    requires JoinedNames(c, p, u, joined, its) && |p| <= j < |joined| && NoDup(joined[j].inputs)
    requires joined[j].outputs == [c.unitDoc(its[j - |p|])] && Plain(c, c.unitDoc(its[j - |p|]))
    requires forall i :: 0 <= i < |p| ==> CleanStep(c.paths, joined[i])
    ensures CleanStep(c.paths, joined[j])
  {
    hide NamesSpread, OutputsGrow;
    forall x | x in joined[j].inputs ensures !c.paths.reserved(x) {
      assert GapOutputs(p, u, joined[..|p|], its[j - |p|], x);
      var n :| 0 <= n < |u| && x in joined[..|p|][u[n]].outputs;
      assert CleanStep(c.paths, joined[u[n]]);
    }
  }

  lemma {:induction false} AddedInputsDistinct(
    c: CoverageRules, p: seq<Step>, u: seq<nat>, st: PairState, its: seq<string>, base: nat, k: nat)
    requires InRange(u, |p|) && |st.steps| == |p| && k < |its|
    ensures NoDup(AddSteps(c, p, u, st, its, base).steps[k].inputs)
    decreases |its|
  {
    hide NameTests, NewId, AllOutputs, Bucket;
    if k > 0 {
      AddedInputsDistinct(c, p, u, AddOne(c, p, u, st, its[0], NewId(base)).0, its[1..], base + 1, k - 1);
    }
  }

  lemma {:induction false} AddedOutputsDistinct(r: Rules, st: PairState, todo: seq<nat>, i: nat)
    requires InRange(todo, |st.steps|) && i < |st.steps| && NoDup(st.steps[i].outputs)
    ensures NoDup(NameTests(r, st, todo).steps[i].outputs)
    decreases |todo|
  {
    hide UniquePath, HasTest;
    if todo != [] {
      var j := todo[0];
      var s := st.steps[j];
      if HasTest(r, s) {
        AddedOutputsDistinct(r, st, todo[1..], i);
      } else {
        var path := UniquePath(r, s.id, UnitTest, st.used);
        var next := PairState(st.steps[j := s.(outputs := Dedup(s.outputs + [path]))], st.used + {path});
        AddedOutputsDistinct(r, next, todo[1..], i);
      }
    }
  }

  lemma {:induction false} AllOutputsDistinct(
    c: CoverageRules, p: seq<Step>, u: seq<nat>, st: PairState, its: seq<string>, base: nat, i: nat)
    requires InRange(u, |p|) && |st.steps| == |p| && i < |p| && NoDup(st.steps[i].outputs)
    ensures NoDup(AddSteps(c, p, u, st, its, base).st.steps[i].outputs)
    decreases |its|
  {
    hide NameTests, NewId, Synthetic;
    if its != [] {
      AddedOutputsDistinct(c.paths, st, Bucket(p, u, its[0]), i);
      AllOutputsDistinct(c, p, u, AddOne(c, p, u, st, its[0], NewId(base)).0, its[1..], base + 1, i);
    }
  }

  lemma {:induction false} OldStepIsClean(c: CoverageRules, p: seq<Step>, u: seq<nat>, i: nat)
    requires PlanNamesFit(c.paths, p) && AllCode(p, u) && i < |p| && CleanStep(c.paths, p[i])
    ensures i < |Joined(c, p, u)| && CleanStep(c.paths, Joined(c, p, u)[i])
  {
    hide AddSteps, IterationsAt, MaxNumber, Joined;
    JoinedKeepsLists(c, p, u, i);
    AllOutputsDistinct(c, p, u, PairState(p, OutputsOf(p)), IterationsAt(p, u), MaxNumber(p) + 1, i);
    JoinedParts(c, p, u);
  }

  lemma {:induction false} JoinedIsClean(
    c: CoverageRules, p: seq<Step>, u: seq<nat>, joined: seq<Step>, its: seq<string>)
    requires RulesHold(c, p) && UniqueIds(p) && u == UncoveredUpTo(c, p, |p|) && joined == Joined(c, p, u)
    requires its == IterationsAt(p, u) && PlainReports(c, its) && Clean(c.paths, p)
    ensures Clean(c.paths, joined)
  {
    hide UncoveredUpTo, IterationsAt, Joined, AddSteps, MaxNumber, CleanStep, JoinedNames, JoinedPlaces;
    UncoveredIsCode(c, p);
    JoinedIsPlaced(c, p, u, joined, its);
    JoinedHasNames(c, p, u);
    JoinedSize(c, p, u);
    forall i | 0 <= i < |p| ensures CleanStep(c.paths, joined[i]) { OldStepIsClean(c, p, u, i); }
    forall j | |p| <= j < |joined| ensures CleanStep(c.paths, joined[j]) {
      JoinedAt(c, p, u, j);
      AddedInputsDistinct(c, p, u, PairState(p, OutputsOf(p)), its, MaxNumber(p) + 1, j - |p|);
      NewStepIsClean(c, p, u, joined, its, j);
    }
  }

  /** The last pairing pass generates nothing and moves no output. */
  lemma {:induction false} LastPassKeepsOutputs(
    c: CoverageRules, p: seq<Step>, u: seq<nat>, joined: seq<Step>, its: seq<string>, i: nat)
    requires RulesHold(c, p) && UniqueIds(p) && u == UncoveredUpTo(c, p, |p|) && joined == Joined(c, p, u)
    requires its == IterationsAt(p, u) && PlainReports(c, its) && Settled(c.paths, p) && i < |joined|
    ensures Paired(c.paths, joined)[i].outputs == joined[i].outputs
    ensures forall k :: 0 <= k < |PairsOf(joined)| ==> NameAt(c.paths, joined, PairsOf(joined), k) == None
  {
    hide UncoveredUpTo, IterationsAt, Joined, JoinedNames, JoinedPlaces, RulesHold, NameAt, Paired, PairsOf, Fed;
    UncoveredIsCode(c, p);
    RulesFit(c, p);
    JoinedIsPlaced(c, p, u, joined, its);
    JoinedHasNames(c, p, u);
    JoinedIsClean(c, p, u, joined, its);
    PairsOfPlan(joined);
    forall g | g in PairsOf(joined) ensures Fed(c.paths, joined, g) { JoinedFed(c, p, u, joined, its, g); }
    FedKeepsOutputs(c.paths, joined, i);
  }

  /**
   * The names the repair adds after its first pairing pass: each goes to an uncovered step, was no output of the
   * paired plan, and ends up as the output of that step only.
   */
  lemma {:induction false} AddedTestsAreNew(c: CoverageRules, steps: seq<Step>, i: nat, o: string)
    requires RulesHold(c, steps) && UniqueIds(steps) && PlainReports(c, GapIterations(c, steps)) && i < |steps|
    requires i < |Repaired(c, steps)| && o in Repaired(c, steps)[i].outputs
    requires o !in Paired(c.paths, steps)[i].outputs
    ensures c.paths.executable(o) && i in Gaps(c, steps) && o !in OutputsOf(Paired(c.paths, steps))
    ensures OneOwner(Repaired(c, steps), o)
  {
    hide Paired, UncoveredUpTo, IterationsAt, RulesHold, Settled, Joined, OneOwner;
    var p, u := Paired(c.paths, steps), Gaps(c, steps);
    RulesFit(c, steps);
    PairedIsSettled(c.paths, steps);
    RulesStay(c, steps, p);
    IdentityExtends(steps, p);
    UncoveredAlike(c, steps, |steps|);
    SameIterationsAt(steps, p, u);
    assert u != [];
    AddedInJoined(c, p, u, IterationsAt(p, u), i, o);
  }

  lemma {:induction false} AddedInJoined(
    c: CoverageRules, p: seq<Step>, u: seq<nat>, its: seq<string>, i: nat, o: string)
    requires RulesHold(c, p) && UniqueIds(p) && u == UncoveredUpTo(c, p, |p|) && Settled(c.paths, p)
    requires its == IterationsAt(p, u) && PlainReports(c, its) && i < |p| && o !in p[i].outputs
    requires i < |Joined(c, p, u)| && o in Paired(c.paths, Joined(c, p, u))[i].outputs
    ensures c.paths.executable(o) && i in u && o !in OutputsOf(p)
    ensures OneOwner(Paired(c.paths, Joined(c, p, u)), o)
  {
    hide Paired, UncoveredUpTo, IterationsAt, RulesHold, Settled, Joined, OnlyAt;
    var joined := Joined(c, p, u);
    UncoveredIsCode(c, p);
    RulesFit(c, p);
    JoinedHasNames(c, p, u);
    JoinedIsPlaced(c, p, u, joined, its);
    JoinedUncovered(c, p, u, joined);
    LastPassKeepsOutputs(c, p, u, joined, its, i);
    assert joined[..|p|][i] == joined[i];
    assert AddedAt(p, joined[..|p|], i, o);
    assert c.paths.executable(o);
    forall k | 0 <= k < |joined| && o in Paired(c.paths, joined)[k].outputs ensures k == i {
      LastPassKeepsOutputs(c, p, u, joined, its, k);
      OnlyOld(joined[..|p|], joined, i, k, o);
    }
  }

  lemma {:induction false} OnlyOld(before: seq<Step>, joined: seq<Step>, i: nat, k: nat, o: string)
    requires |before| <= |joined| && before == joined[..|before|] && OnlyAt(before, i, o)
    requires k < |before| && o in joined[k].outputs
    ensures k == i
  {
    assert before[k] == joined[k];
  }
}
