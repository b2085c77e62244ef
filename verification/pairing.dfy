/** The test-pairing repair pass: left-side steps own the executable tests that verification steps consume. */
module TestPairing {
  import opened Basics
  import opened Plans
  import opened PlanLint
  import opened VModelDependencies
  import TopoSort

  /** Path classification and naming, kept abstract except for the shape of generated names. */
  datatype Rules = Rules(
    executable: string -> bool,
    reserved: string -> bool,
    lower: string -> string,
    typescript: bool
  )

  // ---- Generated test paths -------------------------------------------------------------

  function Digit(n: nat): char
    requires n < 10
  {
    "0123456789"[n]
  }

  function Decimal(n: nat): (s: string)
    ensures |s| > 0 && TopoSort.AllDigits(s)
  {
    if n < 10 then [Digit(n)] else Decimal(n / 10) + [Digit(n % 10)]
  }

  lemma {:induction false} DecimalReadsBack(n: nat)
    ensures TopoSort.DecimalValue(Decimal(n)) == n
  {
    var s := Decimal(n);
    if n >= 10 {
      DecimalReadsBack(n / 10);
      assert s[..|s| - 1] == Decimal(n / 10);
    } else {
      assert s[..|s| - 1] == "";
    }
  }

  function PathPrefix(phase: Phase): string {
    match phase
    case ModuleTest => "module"
    case IntegrationTest => "integration"
    case FunctionalTest => "functional"
    case _ => "unit"
  }

  function PathBase(r: Rules, id: string, phase: Phase): string {
    (if r.typescript then "tests/" else "tests/test_") + PathPrefix(phase) + "_" + r.lower(id)
  }

  function Extension(r: Rules): string {
    if r.typescript then ".test.ts" else ".py"
  }

  /** The n-th candidate: the bare name first, then suffixes from 2 on. */
  function Candidate(r: Rules, id: string, phase: Phase, n: nat): string {
    PathBase(r, id, phase) + (if n <= 1 then "" else "_" + Decimal(n)) + Extension(r)
  }

  lemma {:induction false} CandidatesDiffer(r: Rules, id: string, phase: Phase, m: nat, n: nat)
    requires 1 <= m < n
    ensures Candidate(r, id, phase, m) != Candidate(r, id, phase, n)
  {
    var base, ext := PathBase(r, id, phase), Extension(r);
    var a, b := Candidate(r, id, phase, m), Candidate(r, id, phase, n);
    if a == b {
      assert m > 1;
      assert a[|base| + 1..|a| - |ext|] == Decimal(m);
      assert b[|base| + 1..|b| - |ext|] == Decimal(n);
      DecimalReadsBack(m);
      DecimalReadsBack(n);
    }
  }

  ghost function Candidates(r: Rules, id: string, phase: Phase, n: nat): (c: set<string>)
    ensures forall m :: 1 <= m <= n ==> Candidate(r, id, phase, m) in c
    ensures forall x :: x in c ==> exists m :: 1 <= m <= n && x == Candidate(r, id, phase, m)
  {
    set m | 1 <= m <= n :: Candidate(r, id, phase, m)
  }

  lemma {:induction false} LastIsNew(r: Rules, id: string, phase: Phase, n: nat)
    requires n > 0
    ensures Candidate(r, id, phase, n) !in Candidates(r, id, phase, n - 1)
  {
    if Candidate(r, id, phase, n) in Candidates(r, id, phase, n - 1) {
      var m :| 1 <= m <= n - 1 && Candidate(r, id, phase, n) == Candidate(r, id, phase, m);
      CandidatesDiffer(r, id, phase, m, n);
    }
  }

  lemma {:induction false} OneMore(small: set<string>, x: string, large: set<string>)
    requires x !in small && forall y :: y in large <==> y in small || y == x
    ensures |large| == |small| + 1
  {
    assert large == small + {x};
  }

  lemma {:induction false} CandidateCount(r: Rules, id: string, phase: Phase, n: nat)
    ensures |Candidates(r, id, phase, n)| == n
  {
    if n > 0 {
      CandidateCount(r, id, phase, n - 1);
      LastIsNew(r, id, phase, n);
      forall y
        ensures y in Candidates(r, id, phase, n) <==>
                y in Candidates(r, id, phase, n - 1) || y == Candidate(r, id, phase, n)
      {
        if y in Candidates(r, id, phase, n) {
          var m :| 1 <= m <= n && y == Candidate(r, id, phase, m);
          assert m <= n - 1 || m == n;
        }
      }
      OneMore(Candidates(r, id, phase, n - 1), Candidate(r, id, phase, n), Candidates(r, id, phase, n));
    }
  }

  ghost predicate AllTaken(r: Rules, id: string, phase: Phase, used: set<string>, n: nat) {
    forall m :: 1 <= m <= n ==> Candidate(r, id, phase, m) in used
  }

  /** Finitely many used paths cannot take every candidate. */
  lemma {:induction false} SomeCandidateFree(r: Rules, id: string, phase: Phase, used: set<string>, n: nat)
    requires AllTaken(r, id, phase, used, n)
    ensures n <= |used|
  {
    CandidateCount(r, id, phase, n);
    SubsetSize(Candidates(r, id, phase, n), used);
  }

  /** The first candidate from the n-th on that is not used. */
  function FreeFrom(r: Rules, id: string, phase: Phase, used: set<string>, n: nat): (k: nat)
    requires n >= 1 && AllTaken(r, id, phase, used, n - 1)
    ensures k >= n && Candidate(r, id, phase, k) !in used && AllTaken(r, id, phase, used, k - 1)
    decreases |used| + 1 - n
  {
    SomeCandidateFree(r, id, phase, used, n - 1);
    if Candidate(r, id, phase, n) in used then
      SomeCandidateFree(r, id, phase, used, n);
      FreeFrom(r, id, phase, used, n + 1)
    else n
  }

  function UniquePath(r: Rules, id: string, phase: Phase, used: set<string>): (path: string)
    ensures path !in used
  {
    Candidate(r, id, phase, FreeFrom(r, id, phase, used, 1))
  }

  /** The suffix counts up until the name is free; it gets there after at most as many tries as there are used paths. */
  method UniqueRunnableTestPath(r: Rules, id: string, phase: Phase, used: set<string>) returns (candidate: string)
    ensures candidate == UniquePath(r, id, phase, used)
    ensures candidate !in used
  {
    candidate := PathBase(r, id, phase) + Extension(r);
    assert candidate == Candidate(r, id, phase, 1);
    var suffix := 2;
    while candidate in used
      invariant suffix >= 2 && candidate == Candidate(r, id, phase, suffix - 1)
      invariant AllTaken(r, id, phase, used, suffix - 2)
      invariant FreeFrom(r, id, phase, used, 1) == FreeFrom(r, id, phase, used, suffix - 1)
      decreases |used| + 2 - suffix
    {
      SomeCandidateFree(r, id, phase, used, suffix - 1);
      candidate := PathBase(r, id, phase) + ("_" + Decimal(suffix)) + Extension(r);
      suffix := suffix + 1;
    }
  }

  // ---- One pair of phases ---------------------------------------------------------------

  function Select(items: seq<string>, p: string -> bool): (r: seq<string>)
    ensures forall x :: x in r <==> x in items && p(x)
    ensures NoDup(items) ==> NoDup(r)
    ensures (forall x :: x in items ==> p(x)) ==> r == items
  {
    if items == [] then []
    else
      var n := |items| - 1;
      assert items == items[..n] + [items[n]];
      Select(items[..n], p) + if p(items[n]) then [items[n]] else []
  }

  function Without(items: seq<string>, p: string -> bool): (r: seq<string>)
    ensures forall x :: x in r <==> x in items && !p(x)
    ensures NoDup(items) ==> NoDup(r)
    ensures (forall x :: x in items ==> !p(x)) ==> r == items
  {
    if items == [] then []
    else
      var n := |items| - 1;
      assert items == items[..n] + [items[n]];
      Without(items[..n], p) + if p(items[n]) then [] else [items[n]]
  }

  /** `steps.flatMap((step) => step.outputs.filter(executable))`. */
  function ExecutableOutputs(r: Rules, steps: seq<Step>): seq<string> {
    if steps == [] then []
    else ExecutableOutputs(r, steps[..|steps| - 1]) + Select(steps[|steps| - 1].outputs, r.executable)
  }

  function ExecutableInputs(r: Rules, steps: seq<Step>): seq<string> {
    if steps == [] then []
    else ExecutableInputs(r, steps[..|steps| - 1]) + Select(steps[|steps| - 1].inputs, r.executable)
  }

  lemma {:induction false} OutputCollected(r: Rules, steps: seq<Step>, x: string)
    ensures x in ExecutableOutputs(r, steps) <==> exists s :: s in steps && x in s.outputs && r.executable(x)
  {
    if steps != [] {
      var n := |steps| - 1;
      assert steps == steps[..n] + [steps[n]];
      OutputCollected(r, steps[..n], x);
    }
  }

  lemma {:induction false} InputCollected(r: Rules, steps: seq<Step>, x: string)
    ensures x in ExecutableInputs(r, steps) <==> exists s :: s in steps && x in s.inputs && r.executable(x)
  {
    if steps != [] {
      var n := |steps| - 1;
      assert steps == steps[..n] + [steps[n]];
      InputCollected(r, steps[..n], x);
    }
  }

  predicate InPhase(s: Step, iteration: string, phase: Phase) {
    s.phase == phase && IterationOf(s) == iteration
  }

  /** The position of the first step of a phase, which owns what the pass assigns; past the end if there is none. */
  function FirstOf(steps: seq<Step>, iteration: string, phase: Phase): (i: nat)
    ensures i <= |steps| && (i < |steps| ==> InPhase(steps[i], iteration, phase))
    ensures forall k :: 0 <= k < i && k < |steps| ==> !InPhase(steps[k], iteration, phase)
  {
    if steps == [] then 0
    else
      var n := |steps| - 1;
      var i := FirstOf(steps[..n], iteration, phase);
      assert forall k :: 0 <= k < n ==> steps[..n][k] == steps[k];
      if i < n then i else if InPhase(steps[n], iteration, phase) then n else n + 1
  }

  /** The tests of a pair, and those of them its owner gets. */
  datatype Assets = Assets(all: seq<string>, toOwner: seq<string>)

  function AssetsFrom(own: seq<string>, claimed: seq<string>, invented: Option<string>): Assets {
    if invented.Some? then Assets([invented.value], [invented.value])
    else Assets(Dedup(own + claimed), Without(Dedup(claimed), x => x in own))
  }

  /** The name to invent when the pair lists no test at all. */
  function Invented(
    r: Rules, sources: seq<Step>, tests: seq<Step>, testPhase: Phase, used: set<string>): (g: Option<string>)
    requires sources != []
    ensures g.Some? ==> g.value !in used
  {
    if ExecutableOutputs(r, sources) == [] &&
        Claims(r, tests) == [] then Some(UniquePath(r, sources[0].id, testPhase, used))
    else None
  }

  function Claims(r: Rules, tests: seq<Step>): seq<string> {
    ExecutableOutputs(r, tests) + ExecutableInputs(r, tests)
  }

  function PairedStep(r: Rules, s: Step, owner: bool, test: bool, assets: Assets): Step {
    if owner then s.(outputs := Dedup(s.outputs + assets.toOwner))
    else if test then s.(inputs := Dedup(s.inputs + assets.all), outputs := Without(s.outputs, r.executable))
    else s
  }

  datatype PairState = PairState(steps: seq<Step>, used: set<string>)

  function PairPhase(r: Rules, st: PairState, iteration: string, source: Phase, test: Phase): (out: PairState)
    ensures |out.steps| == |st.steps|
  {
    var sources, tests := StepsOf(st.steps, source, iteration), StepsOf(st.steps, test, iteration);
    if sources == [] then st
    else
      var invented := Invented(r, sources, tests, test, st.used);
      var assets := AssetsFrom(ExecutableOutputs(r, sources), Claims(r, tests), invented);
      PairState(
        PairedSteps(r, st.steps, FirstOf(st.steps, iteration, source), iteration, test, assets),
        if invented.Some? then st.used + {invented.value} else st.used)
  }

  function PairedSteps(
    r: Rules, steps: seq<Step>, owner: nat, iteration: string, test: Phase, assets: Assets): (out: seq<Step>)
    ensures |out| == |steps|
    ensures forall i :: 0 <= i < |steps| ==>
      out[i] == PairedStep(r, steps[i], i == owner, InPhase(steps[i], iteration, test), assets)
  {
    seq(|steps|, i requires 0 <= i < |steps| => PairedStep(r, steps[i], i == owner, InPhase(steps[i], iteration,
        test), assets))
  }

  // ---- What one pair establishes --------------------------------------------------------

  predicate Develops(p: Phase) {
    PhaseOrder(p) < 4
  }

  predicate Verifies(p: Phase) {
    PhaseOrder(p) >= 4
  }

  /** The names generated for this id are executable tests and not reserved for verification steps. */
  ghost predicate NamesFit(r: Rules, id: string) {
    forall phase, n {:trigger Candidate(r, id, phase, n)} ::
      r.executable(Candidate(r, id, phase, n)) && !r.reserved(Candidate(r, id, phase, n))
  }

  /** The plan's development steps, the only ones names are generated for, have such ids. */
  ghost predicate PlanNamesFit(r: Rules, steps: seq<Step>) {
    forall i :: 0 <= i < |steps| && Develops(steps[i].phase) ==> NamesFit(r, steps[i].id)
  }

  ghost predicate CleanStep(r: Rules, s: Step) {
    NoDup(s.inputs) && NoDup(s.outputs)
    && (forall p :: p in s.inputs ==> !r.reserved(p)) && (forall p :: p in s.outputs ==> !r.reserved(p))
  }

  ghost predicate Clean(r: Rules, steps: seq<Step>) {
    forall i :: 0 <= i < |steps| ==> CleanStep(r, steps[i])
  }

  /** `x` is an executable test that some step of the phase lists as an output. */
  ghost predicate Owned(r: Rules, steps: seq<Step>, iteration: string, phase: Phase, x: string) {
    r.executable(x) && exists i :: 0 <= i < |steps| && InPhase(steps[i], iteration, phase) && x in steps[i].outputs
  }

  /** The test step owns no executable test and consumes exactly those its source phase owns. */
  ghost predicate TestSettled(r: Rules, steps: seq<Step>, iteration: string, source: Phase, t: Step) {
    && (forall o :: o in t.outputs ==> !r.executable(o))
    && (forall x :: Owned(r, steps, iteration, source, x) ==> x in t.inputs)
    && (forall x :: x in t.inputs && r.executable(x) ==> Owned(r, steps, iteration, source, x))
  }

  ghost predicate OwnsSome(r: Rules, steps: seq<Step>, iteration: string, source: Phase) {
    exists x :: Owned(r, steps, iteration, source, x)
  }

  ghost predicate Present(steps: seq<Step>, iteration: string, phase: Phase) {
    exists i :: 0 <= i < |steps| && InPhase(steps[i], iteration, phase)
  }

  ghost predicate PhaseSettled(r: Rules, steps: seq<Step>, iteration: string, source: Phase, test: Phase) {
    Present(steps, iteration, source) ==>
      OwnsSome(r, steps, iteration, source) &&
      forall i :: 0 <= i < |steps| && InPhase(steps[i], iteration, test) ==> TestSettled(r, steps, iteration, source,
          steps[i])
  }

  lemma {:induction false} OwnerIsFirst(steps: seq<Step>, iteration: string, phase: Phase)
    ensures FirstOf(steps, iteration, phase) < |steps| <==> StepsOf(steps, phase, iteration) != []
    ensures Present(steps, iteration, phase) <==> StepsOf(steps, phase, iteration) != []
  {
    if steps != [] {
      var n := |steps| - 1;
      OwnerIsFirst(steps[..n], iteration, phase);
      assert forall i :: 0 <= i < n ==> steps[..n][i] == steps[i];
    }
  }

  /** A test step of the pair lists `x` as an executable output or input. */
  ghost predicate Claimed(r: Rules, steps: seq<Step>, iteration: string, test: Phase, x: string) {
    r.executable(x) &&
    exists i :: 0 <= i < |steps| && InPhase(steps[i], iteration, test) &&
                (x in steps[i].outputs || x in steps[i].inputs)
  }

  lemma {:induction false} OwnedCollected(r: Rules, steps: seq<Step>, iteration: string, phase: Phase, x: string)
    ensures x in ExecutableOutputs(r, StepsOf(steps, phase, iteration)) <==> Owned(r, steps, iteration, phase, x)
  {
    var own := StepsOf(steps, phase, iteration);
    OutputCollected(r, own, x);
    if x in ExecutableOutputs(r, own) {
      var s :| s in own && x in s.outputs && r.executable(x);
      var i :| 0 <= i < |steps| && steps[i] == s;
      assert InPhase(steps[i], iteration, phase);
    }
    if Owned(r, steps, iteration, phase, x) {
      var i :| 0 <= i < |steps| && InPhase(steps[i], iteration, phase) && x in steps[i].outputs;
      assert steps[i] in own;
    }
  }

  lemma {:induction false} ClaimedCollected(r: Rules, steps: seq<Step>, iteration: string, test: Phase, x: string)
    ensures x in Claims(r, StepsOf(steps, test, iteration)) <==> Claimed(r, steps, iteration, test, x)
  {
    var tests := StepsOf(steps, test, iteration);
    OutputCollected(r, tests, x);
    InputCollected(r, tests, x);
    if x in Claims(r, tests) {
      var s :| s in tests && (x in s.outputs || x in s.inputs) && r.executable(x);
      var i :| 0 <= i < |steps| && steps[i] == s;
      assert InPhase(steps[i], iteration, test);
    }
    if Claimed(r, steps, iteration, test, x) {
      var i :| 0 <= i < |steps| && InPhase(steps[i], iteration, test) &&
          (x in steps[i].outputs || x in steps[i].inputs);
      assert steps[i] in tests;
    }
  }

  /** The assets of a pair, in terms of the plan. */
  ghost predicate AssetsFit(
    r: Rules, steps: seq<Step>, iteration: string, source: Phase, test: Phase, a: Assets, generated: Option<string>)
  {
    && a.all != []
    && (forall x :: x in a.all <==>
          Owned(r, steps, iteration, source, x) || Claimed(r, steps, iteration, test, x) || Some(x) == generated)
    && (forall x :: x in a.toOwner <==> x in a.all && !Owned(r, steps, iteration, source, x))
    && (generated.Some? ==> r.executable(generated.value) && !r.reserved(generated.value))
  }

  lemma {:induction false} AssetMembers(own: seq<string>, claimed: seq<string>, invented: Option<string>)
    requires invented.Some? <==> own == [] && claimed == []
    ensures
      var a := AssetsFrom(own, claimed, invented);
      && a.all != []
      && (forall x :: x in a.all <==> x in own || x in claimed || Some(x) == invented)
      && (forall x :: x in a.toOwner <==> x in a.all && x !in own)
  {
    if invented.None? {
      var x := (own + claimed)[0];
      assert x in Dedup(own + claimed);
    }
  }

  lemma {:induction false} InventedIsTest(
    r: Rules, sources: seq<Step>, tests: seq<Step>, testPhase: Phase, used: set<string>)
    requires sources != [] && NamesFit(r, sources[0].id) && Invented(r, sources, tests, testPhase, used).Some?
    ensures r.executable(Invented(r, sources, tests, testPhase, used).value)
    ensures !r.reserved(Invented(r, sources, tests, testPhase, used).value)
  {
    var k := FreeFrom(r, sources[0].id, testPhase, used, 1);
    assert r.executable(Candidate(r, sources[0].id, testPhase, k));
  }

  lemma {:induction false} AssetsFound(
    r: Rules, steps: seq<Step>, iteration: string, source: Phase, test: Phase, used: set<string>)
    requires PlanNamesFit(r, steps) && Develops(source) && StepsOf(steps, source, iteration) != []
    ensures
      var sources, tests := StepsOf(steps, source, iteration), StepsOf(steps, test, iteration);
      var invented := Invented(r, sources, tests, test, used);
      AssetsFit(r, steps, iteration, source, test, AssetsFrom(ExecutableOutputs(r, sources), Claims(r, tests),
          invented), invented)
  {
    var sources, tests := StepsOf(steps, source, iteration), StepsOf(steps, test, iteration);
    var invented := Invented(r, sources, tests, test, used);
    AssetMembers(ExecutableOutputs(r, sources), Claims(r, tests), invented);
    if invented.Some? {
      assert sources[0] in sources;
      var i :| 0 <= i < |steps| && steps[i] == sources[0];
      InventedIsTest(r, sources, tests, test, used);
    }
    forall x
      ensures x in ExecutableOutputs(r, sources) <==> Owned(r, steps, iteration, source, x)
      ensures x in Claims(r, tests) <==> Claimed(r, steps, iteration, test, x)
    {
      OwnedCollected(r, steps, iteration, source, x);
      ClaimedCollected(r, steps, iteration, test, x);
    }
  }

  lemma {:induction false} DedupAbsorbs(a: seq<string>, b: seq<string>)
    requires NoDup(a) && forall x :: x in b ==> x in a
    ensures Dedup(a + b) == a
  {
    if b == [] {
      assert a + b == a;
    } else {
      var n := |b| - 1;
      assert (a + b)[..|a + b| - 1] == a + b[..n];
      DedupAbsorbs(a, b[..n]);
    }
  }

  /** A step keeps its identity through the pass; only its artifact lists change. */
  ghost predicate SameIdentity(a: seq<Step>, b: seq<Step>) {
    |a| == |b| && forall i :: 0 <= i < |a| ==> b[i] == a[i].(inputs := b[i].inputs, outputs := b[i].outputs)
  }

  lemma {:induction false} SameIdentityPhases(a: seq<Step>, b: seq<Step>, iteration: string, phase: Phase)
    requires SameIdentity(a, b)
    ensures Present(a, iteration, phase) <==> Present(b, iteration, phase)
  {
    assert forall i :: 0 <= i < |a| ==> (InPhase(a[i], iteration, phase) <==> InPhase(b[i], iteration, phase));
  }

  lemma {:induction false} NamesStayFit(r: Rules, a: seq<Step>, b: seq<Step>)
    requires PlanNamesFit(r, a) && SameIdentity(a, b)
    ensures PlanNamesFit(r, b)
  {
    forall i | 0 <= i < |b| && Develops(b[i].phase) ensures NamesFit(r, b[i].id) { assert b[i].id == a[i].id; }
  }

  /** What `PairPhase` does to each step of a pair with sources, given the assets of the pair. */
  ghost predicate PairedWith(
    r: Rules, before: seq<Step>, after: seq<Step>, owner: nat, iteration: string, test: Phase, a: Assets)
  {
    |after| == |before| && forall i :: 0 <= i < |before| ==>
      after[i] == PairedStep(r, before[i], i == owner, InPhase(before[i], iteration, test), a)
  }

  lemma {:induction false} PairedOwns(r: Rules, before: seq<Step>, after: seq<Step>, owner: nat, iteration: string,
          source: Phase, test: Phase,
    a: Assets, generated: Option<string>, x: string)
    requires source != test && owner < |before| && InPhase(before[owner], iteration, source)
    requires AssetsFit(r, before, iteration, source, test, a, generated)
    requires PairedWith(r, before, after, owner, iteration, test, a)
    ensures Owned(r, after, iteration, source, x) <==> x in a.all
  {
    if Owned(r, after, iteration, source, x) {
      var i :| 0 <= i < |after| && InPhase(after[i], iteration, source) && x in after[i].outputs;
      assert InPhase(before[i], iteration, source);
      if x in before[i].outputs {
        assert Owned(r, before, iteration, source, x);
      } else {
        assert x in a.toOwner;
      }
    }
    if x in a.all {
      if Owned(r, before, iteration, source, x) {
        var i :| 0 <= i < |before| && InPhase(before[i], iteration, source) && x in before[i].outputs;
        assert InPhase(after[i], iteration, source) && x in after[i].outputs;
      } else {
        assert x in a.toOwner && x in after[owner].outputs && InPhase(after[owner], iteration, source);
      }
      assert r.executable(x);
    }
  }

  lemma {:induction false} PairedConsumes(r: Rules, before: seq<Step>, after: seq<Step>, owner: nat,
          iteration: string, source: Phase, test: Phase,
    a: Assets, generated: Option<string>, i: nat)
    requires source != test && owner < |before| && InPhase(before[owner], iteration, source)
    requires AssetsFit(r, before, iteration, source, test, a, generated)
    requires PairedWith(r, before, after, owner, iteration, test, a)
    requires i < |after| && InPhase(after[i], iteration, test)
    ensures TestSettled(r, after, iteration, source, after[i])
  {
    assert i != owner && InPhase(before[i], iteration, test);
    forall x ensures Owned(r, after, iteration, source, x) <==> x in a.all {
      PairedOwns(r, before, after, owner, iteration, source, test, a, generated, x);
    }
    forall x | x in after[i].inputs && r.executable(x) ensures x in a.all {
      if x in before[i].inputs { assert Claimed(r, before, iteration, test, x); }
    }
  }

  lemma {:induction false} PairedStaysClean(r: Rules, before: seq<Step>, iteration: string, source: Phase,
          test: Phase, a: Assets,
    generated: Option<string>, owner: bool, i: nat)
    requires Clean(r, before) && AssetsFit(r, before, iteration, source, test, a, generated) && i < |before|
    ensures CleanStep(r, PairedStep(r, before[i], owner, InPhase(before[i], iteration, test), a))
  {
    forall x | x in a.all ensures !r.reserved(x) {
      if Owned(r, before, iteration, source, x) {
        var k :| 0 <= k < |before| && InPhase(before[k], iteration, source) && x in before[k].outputs;
        assert CleanStep(r, before[k]);
      } else if Claimed(r, before, iteration, test, x) {
        var k :| 0 <= k < |before| && InPhase(before[k], iteration, test) &&
            (x in before[k].outputs || x in before[k].inputs);
        assert CleanStep(r, before[k]);
      }
    }
    assert CleanStep(r, before[i]);
  }

  lemma {:induction false} PairedSettles(r: Rules, before: seq<Step>, after: seq<Step>, owner: nat,
          iteration: string, source: Phase, test: Phase,
    a: Assets, generated: Option<string>)
    requires Clean(r, before) && source != test && owner < |before| && InPhase(before[owner], iteration, source)
    requires AssetsFit(r, before, iteration, source, test, a, generated)
    requires PairedWith(r, before, after, owner, iteration, test, a)
    ensures Clean(r, after) && SameIdentity(before, after) && PhaseSettled(r, after, iteration, source, test)
  {
    PairedOwns(r, before, after, owner, iteration, source, test, a, generated, a.all[0]);
    forall i | 0 <= i < |after| && InPhase(after[i], iteration, test)
      ensures TestSettled(r, after, iteration, source, after[i])
    {
      PairedConsumes(r, before, after, owner, iteration, source, test, a, generated, i);
    }
    forall i | 0 <= i < |after| ensures CleanStep(r, after[i]) {
      PairedStaysClean(r, before, iteration, source, test, a, generated, i == owner, i);
    }
  }

  /** The assets `PairPhase` works with when the source phase is present. */
  function PairAssets(r: Rules, st: PairState, iteration: string, source: Phase, test: Phase): (Assets, Option<string>)
    requires StepsOf(st.steps, source, iteration) != []
  {
    var sources, tests := StepsOf(st.steps, source, iteration), StepsOf(st.steps, test, iteration);
    var invented := Invented(r, sources, tests, test, st.used);
    (AssetsFrom(ExecutableOutputs(r, sources), Claims(r, tests), invented), invented)
  }

  lemma {:induction false} PairUnfolds(r: Rules, st: PairState, iteration: string, source: Phase, test: Phase)
    requires PlanNamesFit(r, st.steps) && Develops(source)
    ensures !Present(st.steps, iteration, source) ==> PairPhase(r, st, iteration, source, test) == st
    ensures Present(st.steps, iteration, source) ==>
      StepsOf(st.steps, source, iteration) != [] &&
      var out, owner := PairPhase(r, st, iteration, source, test), FirstOf(st.steps, iteration, source);
      var (a, generated) := PairAssets(r, st, iteration, source, test);
      && owner < |st.steps| && InPhase(st.steps[owner], iteration, source)
      && AssetsFit(r, st.steps, iteration, source, test, a, generated)
      && PairedWith(r, st.steps, out.steps, owner, iteration, test, a)
      && out.used == (if generated.Some? then st.used + {generated.value} else st.used)
      && (generated.Some? ==> generated.value !in st.used)
  {
    OwnerIsFirst(st.steps, iteration, source);
    if Present(st.steps, iteration, source) {
      AssetsFound(r, st.steps, iteration, source, test, st.used);
    }
  }

  /** One pair, after the pass: its sources own a test, its test steps consume all of them and own none. */
  lemma {:induction false} PairSettles(r: Rules, st: PairState, iteration: string, source: Phase, test: Phase)
    requires PlanNamesFit(r, st.steps) && Develops(source) && Clean(r, st.steps) && source != test
    ensures
      var out := PairPhase(r, st, iteration, source, test).steps;
      Clean(r, out) && SameIdentity(st.steps, out) && PhaseSettled(r, out, iteration, source, test)
  {
    PairUnfolds(r, st, iteration, source, test);
    if Present(st.steps, iteration, source) {
      var (a, generated) := PairAssets(r, st, iteration, source, test);
      PairedSettles(r, st.steps, PairPhase(r, st, iteration, source, test).steps, FirstOf(st.steps, iteration, source),
        iteration, source, test, a, generated);
    }
  }

  lemma {:induction false} HasMember(s: seq<string>)
    ensures s != [] ==> exists x :: x in s
  {
    assert s != [] ==> s[0] in s;
  }

  /** In a settled pair the assets are the owned tests, none of them new. */
  lemma {:induction false} SettledAssets(
    r: Rules, steps: seq<Step>, iteration: string, source: Phase, test: Phase, a: Assets, generated: Option<string>)
    requires Present(steps, iteration, source) && PhaseSettled(r, steps, iteration, source, test)
    requires AssetsFit(r, steps, iteration, source, test, a, generated) && generated.None?
    ensures a.toOwner == [] && forall y :: y in a.all ==> Owned(r, steps, iteration, source, y)
  {
    forall y | y in a.all ensures Owned(r, steps, iteration, source, y) {
      if Claimed(r, steps, iteration, test, y) { ClaimIsOwned(r, steps, iteration, source, test, y); }
    }
    HasMember(a.toOwner);
  }

  lemma {:induction false} SettledStepStays(
    r: Rules, steps: seq<Step>, iteration: string, source: Phase, test: Phase, a: Assets, owner: bool, i: nat)
    requires Clean(r, steps) && i < |steps| && Present(steps, iteration, source)
    requires PhaseSettled(r, steps, iteration, source, test)
    requires a.toOwner == [] && forall y :: y in a.all ==> Owned(r, steps, iteration, source, y)
    ensures PairedStep(r, steps[i], owner, InPhase(steps[i], iteration, test), a) == steps[i]
  {
    assert CleanStep(r, steps[i]);
    if owner {
      DedupAbsorbs(steps[i].outputs, []);
    } else if InPhase(steps[i], iteration, test) {
      assert TestSettled(r, steps, iteration, source, steps[i]);
      DedupAbsorbs(steps[i].inputs, a.all);
    }
  }

  lemma {:induction false} SettledStepsStay(
    r: Rules, before: seq<Step>, after: seq<Step>, owner: nat, iteration: string, source: Phase, test: Phase,
    a: Assets)
    requires Clean(r, before) && Present(before, iteration, source) && PhaseSettled(r, before, iteration, source, test)
    requires a.toOwner == [] && forall y :: y in a.all ==> Owned(r, before, iteration, source, y)
    requires PairedWith(r, before, after, owner, iteration, test, a)
    ensures after == before
  {
    forall i | 0 <= i < |before| ensures after[i] == before[i] {
      SettledStepStays(r, before, iteration, source, test, a, i == owner, i);
    }
  }

  lemma {:induction false} NothingInvented(r: Rules, st: PairState, iteration: string, source: Phase, test: Phase)
    requires StepsOf(st.steps, source, iteration) != [] && OwnsSome(r, st.steps, iteration, source)
    ensures PairAssets(r, st, iteration, source, test).1 == None
  {
    var x :| Owned(r, st.steps, iteration, source, x);
    OwnedCollected(r, st.steps, iteration, source, x);
  }

  /** A settled pair is left alone. */
  lemma {:induction false} SettledPairStays(r: Rules, st: PairState, iteration: string, source: Phase, test: Phase)
    requires PlanNamesFit(r, st.steps) && Develops(source) && Clean(r, st.steps) && source != test
    requires PhaseSettled(r, st.steps, iteration, source, test)
    ensures PairPhase(r, st, iteration, source, test) == st
  {
    PairUnfolds(r, st, iteration, source, test);
    if Present(st.steps, iteration, source) {
      NothingInvented(r, st, iteration, source, test);
      var (a, generated) := PairAssets(r, st, iteration, source, test);
      SettledAssets(r, st.steps, iteration, source, test, a, generated);
      SettledStepsStay(r, st.steps, PairPhase(r, st, iteration, source, test).steps, FirstOf(st.steps, iteration,
          source),
        iteration, source, test, a);
    }
  }

  lemma {:induction false} ClaimIsOwned(
    r: Rules, steps: seq<Step>, iteration: string, source: Phase, test: Phase, y: string)
    requires Present(steps, iteration, source) && PhaseSettled(r, steps, iteration, source, test)
    requires Claimed(r, steps, iteration, test, y)
    ensures Owned(r, steps, iteration, source, y)
  {
    var i :| 0 <= i < |steps| && InPhase(steps[i], iteration, test) && (y in steps[i].outputs || y in steps[i].inputs);
    assert TestSettled(r, steps, iteration, source, steps[i]);
  }

  // ---- Pairs do not disturb each other --------------------------------------------------

  /** The steps of these phases are untouched. */
  ghost predicate SameIn(a: seq<Step>, b: seq<Step>, iteration: string, source: Phase, test: Phase) {
    SameIdentity(a, b) &&
    forall i :: 0 <= i < |a| && (InPhase(a[i], iteration, source) || InPhase(a[i], iteration, test)) ==>
      b[i] == a[i]
  }

  lemma {:induction false} SettledElsewhere(
    r: Rules, a: seq<Step>, b: seq<Step>, iteration: string, source: Phase, test: Phase)
    requires SameIn(a, b, iteration, source, test) && PhaseSettled(r, a, iteration, source, test)
    ensures PhaseSettled(r, b, iteration, source, test)
  {
    SameIdentityPhases(a, b, iteration, source);
    if Present(a, iteration, source) {
      forall x ensures Owned(r, b, iteration, source, x) <==> Owned(r, a, iteration, source, x) {
        OwnedElsewhere(r, a, b, iteration, source, test, x);
      }
      var y :| Owned(r, a, iteration, source, y);
      assert Owned(r, b, iteration, source, y);
      forall i | 0 <= i < |b| && InPhase(b[i], iteration, test) ensures TestSettled(r, b, iteration, source, b[i]) {
        assert InPhase(a[i], iteration, test) && TestSettled(r, a, iteration, source, a[i]);
      }
    }
  }

  lemma {:induction false} OwnedElsewhere(
    r: Rules, a: seq<Step>, b: seq<Step>, iteration: string, source: Phase, test: Phase, x: string)
    requires SameIn(a, b, iteration, source, test)
    ensures Owned(r, b, iteration, source, x) <==> Owned(r, a, iteration, source, x)
  {
    if Owned(r, a, iteration, source, x) {
      var i :| 0 <= i < |a| && InPhase(a[i], iteration, source) && x in a[i].outputs;
      assert InPhase(b[i], iteration, source) && x in b[i].outputs;
    }
    if Owned(r, b, iteration, source, x) {
      var i :| 0 <= i < |b| && InPhase(b[i], iteration, source) && x in b[i].outputs;
      assert InPhase(a[i], iteration, source) && x in a[i].outputs;
    }
  }

  // ---- The whole pass -------------------------------------------------------------------

  /** One pair of one iteration. */
  datatype PairGroup = PairGroup(iteration: string, source: Phase, test: Phase)

  function GroupsOf(iteration: string): (g: seq<PairGroup>)
    ensures |g| == 4 && forall k :: 0 <= k < 4 ==> g[k] == PairGroup(iteration, VModelPairs()[k].0, VModelPairs()[k].1)
  {
    seq(4, k requires 0 <= k < 4 => PairGroup(iteration, VModelPairs()[k].0, VModelPairs()[k].1))
  }

  /** Every iteration in order, and in each the four pairs in order. */
  function Groups(iterations: seq<string>): seq<PairGroup> {
    if iterations == [] then [] else GroupsOf(iterations[0]) + Groups(iterations[1..])
  }

  function PairAll(r: Rules, st: PairState, groups: seq<PairGroup>): (out: PairState)
    ensures |out.steps| == |st.steps|
    decreases |groups|
  {
    if groups == [] then st
    else PairAll(r, PairPhase(r, st, groups[0].iteration, groups[0].source, groups[0].test), groups[1..])
  }

  function CleanedStep(r: Rules, s: Step): (c: Step)
    ensures CleanStep(r, c) && (CleanStep(r, s) ==> c == s)
  {
    s.(inputs := Dedup(Without(s.inputs, r.reserved)), outputs := Dedup(Without(s.outputs, r.reserved)))
  }

  function Cleaned(r: Rules, steps: seq<Step>): (out: seq<Step>)
    ensures |out| == |steps| && forall i :: 0 <= i < |steps| ==> out[i] == CleanedStep(r, steps[i])
  {
    seq(|steps|, i requires 0 <= i < |steps| => CleanedStep(r, steps[i]))
  }

  function OutputsOf(steps: seq<Step>): set<string> {
    set s, o | s in steps && o in s.outputs :: o
  }

  function Start(r: Rules, steps: seq<Step>): PairState {
    PairState(Cleaned(r, steps), OutputsOf(Cleaned(r, steps)))
  }

  /** What `ensurePairedTestAssets` returns. */
  function Paired(r: Rules, steps: seq<Step>): (out: seq<Step>)
    ensures |out| == |steps|
  {
    PairAll(r, Start(r, steps), Groups(IterationIds(Cleaned(r, steps)))).steps
  }

  method EnsurePairedTestAssets(r: Rules, steps: seq<Step>) returns (out: seq<Step>)
    ensures out == Paired(r, steps)
  {
    var st := Start(r, steps);
    var iterations := IterationIds(st.steps);
    ghost var all := Groups(iterations);
    while iterations != []
      invariant PairAll(r, st, Groups(iterations)) == PairAll(r, Start(r, steps), all)
    {
      st := PairIteration(r, st, iterations[0], Groups(iterations[1..]));
      iterations := iterations[1..];
    }
    out := st.steps;
  }

  /** The four pairs of one iteration; `later` are the groups after them. */
  method PairIteration(
    r: Rules, before: PairState, iteration: string, ghost later: seq<PairGroup>)
    returns (st: PairState)
    ensures PairAll(r, st, later) == PairAll(r, before, GroupsOf(iteration) + later)
  {
    st := before;
    var own := GroupsOf(iteration);
    while own != []
      invariant PairAll(r, st, own + later) == PairAll(r, before, GroupsOf(iteration) + later)
    {
      PairAllStep(r, st, own, later);
      st := PairOnePhase(r, st, own[0].iteration, own[0].source, own[0].test);
      own := own[1..];
    }
    assert own + later == later;
  }

  lemma {:induction false} PairAllStep(r: Rules, st: PairState, own: seq<PairGroup>, later: seq<PairGroup>)
    requires own != []
    ensures PairAll(r, st, own + later) == PairAll(r, PairPhase(r, st, own[0].iteration, own[0].source, own[0].test),
        own[1..] + later)
  {
    assert (own + later)[1..] == own[1..] + later;
  }

  /** The body of the inner loop: collects the tests of the pair, then rewrites its copied steps. */
  method PairOnePhase(r: Rules, st: PairState, iteration: string, source: Phase, test: Phase) returns (out: PairState)
    ensures out == PairPhase(r, st, iteration, source, test)
  {
    var sources, tests := StepsOf(st.steps, source, iteration), StepsOf(st.steps, test, iteration);
    if sources == [] {
      return st;
    }
    var own, claimed := ExecutableOutputs(r, sources), Claims(r, tests);
    var used := st.used;
    var invented: Option<string> := None;
    if own == [] && claimed == [] {
      var generated := UniqueRunnableTestPath(r, sources[0].id, test, used);
      used := used + {generated};
      invented := Some(generated);
    }
    var steps := RewriteSteps(r, st.steps, FirstOf(st.steps, iteration, source), iteration, test, AssetsFrom(own,
        claimed, invented));
    out := PairState(steps, used);
  }

  method RewriteSteps(
    r: Rules, before: seq<Step>, owner: nat, iteration: string, test: Phase, assets: Assets)
    returns (steps: seq<Step>)
    ensures steps == PairedSteps(r, before, owner, iteration, test, assets)
  {
    steps := before;
    for i := 0 to |before|
      invariant |steps| == |before| && forall k :: i <= k < |before| ==> steps[k] == before[k]
      invariant forall k :: 0 <= k < i ==>
                  steps[k] == PairedStep(r, before[k], k == owner, InPhase(before[k], iteration, test), assets)
    {
      var s := steps[i];
      if i == owner {
        s := s.(outputs := Dedup(s.outputs + assets.toOwner));
      } else if InPhase(s, iteration, test) {
        s := s.(outputs := Without(s.outputs, r.executable));
        s := s.(inputs := Dedup(s.inputs + assets.all));
      }
      steps := steps[i := s];
    }
  }

  // ---- The pass settles every pair, and settled plans are fixed points ------------------

  ghost predicate GroupSettled(r: Rules, steps: seq<Step>, g: PairGroup) {
    PhaseSettled(r, steps, g.iteration, g.source, g.test)
  }

  /** Every pair of every iteration is settled and no list repeats a path or holds a reserved one. */
  ghost predicate Settled(r: Rules, steps: seq<Step>) {
    Clean(r, steps) && forall iteration, k :: 0 <= k < 4 ==> GroupSettled(r, steps, GroupsOf(iteration)[k])
  }

  /** Either the same pair or no phase in common. */
  ghost predicate Apart(g: PairGroup, h: PairGroup) {
    g == h || g.iteration != h.iteration ||
      (g.source != h.source && g.source != h.test && g.test != h.source && g.test != h.test)
  }

  ghost predicate WellFormed(g: PairGroup) {
    exists k :: 0 <= k < 4 && g == GroupsOf(g.iteration)[k]
  }

  lemma {:induction false} GroupsApart(g: PairGroup, h: PairGroup)
    requires WellFormed(g) && WellFormed(h)
    ensures Apart(g, h) && g.source != g.test && Develops(g.source) && Verifies(g.test)
  {
    var k :| 0 <= k < 4 && g == GroupsOf(g.iteration)[k];
    var m :| 0 <= m < 4 && h == GroupsOf(h.iteration)[m];
  }

  lemma {:induction false} PairKeepsOthers(r: Rules, st: PairState, g: PairGroup, h: PairGroup)
    requires PlanNamesFit(r, st.steps) && Clean(r, st.steps) && WellFormed(g) && WellFormed(h) && g != h
    requires GroupSettled(r, st.steps, h)
    ensures GroupSettled(r, PairPhase(r, st, g.iteration, g.source, g.test).steps, h)
  {
    GroupsApart(g, h);
    PairSettles(r, st, g.iteration, g.source, g.test);
    PairUnfolds(r, st, g.iteration, g.source, g.test);
    if Present(st.steps, g.iteration, g.source) {
      var after := PairPhase(r, st, g.iteration, g.source, g.test).steps;
      PairedElsewhere(r, st.steps, after, FirstOf(st.steps, g.iteration, g.source), g, h, PairAssets(r, st,
          g.iteration, g.source, g.test).0);
      SettledElsewhere(r, st.steps, after, h.iteration, h.source, h.test);
    }
  }

  lemma {:induction false} PairedElsewhere(
    r: Rules, before: seq<Step>, after: seq<Step>, owner: nat, g: PairGroup, h: PairGroup, a: Assets)
    requires Apart(g, h) && g != h && owner < |before| && InPhase(before[owner], g.iteration, g.source)
    requires PairedWith(r, before, after, owner, g.iteration, g.test, a)
    ensures SameIn(before, after, h.iteration, h.source, h.test)
  {
  }

  lemma {:induction false} AllSettles(r: Rules, st: PairState, groups: seq<PairGroup>)
    requires PlanNamesFit(r, st.steps) && Clean(r, st.steps) && forall g :: g in groups ==> WellFormed(g)
    ensures
      var out := PairAll(r, st, groups).steps;
      && Clean(r, out) && SameIdentity(st.steps, out)
      && forall h :: WellFormed(h) && (h in groups || GroupSettled(r, st.steps, h)) ==> GroupSettled(r, out, h)
    decreases |groups|
  {
    hide Clean;
    if groups != [] {
      var g := groups[0];
      assert WellFormed(g);
      GroupsApart(g, g);
      var next := PairPhase(r, st, g.iteration, g.source, g.test);
      PairSettles(r, st, g.iteration, g.source, g.test);
      NamesStayFit(r, st.steps, next.steps);
      AllSettles(r, next, groups[1..]);
      forall h | WellFormed(h) && (h in groups || GroupSettled(r, st.steps, h))
        ensures h in groups[1..] || GroupSettled(r, next.steps, h)
      {
        if h != g && GroupSettled(r, st.steps, h) { PairKeepsOthers(r, st, g, h); }
      }
    }
  }

  lemma {:induction false} GroupsWellFormed(iterations: seq<string>)
    ensures forall g :: g in Groups(iterations) ==> WellFormed(g)
    ensures forall it, k :: it in iterations && 0 <= k < 4 ==> GroupsOf(it)[k] in Groups(iterations)
  {
    if iterations != [] {
      GroupsWellFormed(iterations[1..]);
      forall g | g in GroupsOf(iterations[0]) ensures WellFormed(g) {
        var k :| 0 <= k < 4 && GroupsOf(iterations[0])[k] == g;
        assert g == GroupsOf(g.iteration)[k];
      }
    }
  }

  /** Whatever the plan, the pass returns it with every pair settled. */
  lemma {:induction false} PairedIsSettled(r: Rules, steps: seq<Step>)
    requires PlanNamesFit(r, steps)
    ensures Settled(r, Paired(r, steps)) && SameIdentity(steps, Paired(r, steps))
  {
    var st := Start(r, steps);
    var iterations := IterationIds(st.steps);
    GroupsWellFormed(iterations);
    NamesStayFit(r, steps, st.steps);
    AllSettles(r, st, Groups(iterations));
    var out := Paired(r, steps);
    forall iteration, k | 0 <= k < 4 ensures GroupSettled(r, out, GroupsOf(iteration)[k]) {
      var g := GroupsOf(iteration)[k];
      assert WellFormed(g);
      if iteration !in iterations {
        assert !Present(st.steps, iteration, g.source);
        assert GroupSettled(r, st.steps, g);
      }
    }
  }

  lemma {:induction false} AllStay(r: Rules, st: PairState, groups: seq<PairGroup>)
    requires PlanNamesFit(r, st.steps) && Settled(r, st.steps) && forall g :: g in groups ==> WellFormed(g)
    ensures PairAll(r, st, groups) == st
    decreases |groups|
  {
    if groups != [] {
      var g := groups[0];
      GroupsApart(g, g);
      var k :| 0 <= k < 4 && g == GroupsOf(g.iteration)[k];
      assert GroupSettled(r, st.steps, GroupsOf(g.iteration)[k]);
      SettledPairStays(r, st, g.iteration, g.source, g.test);
      AllStay(r, st, groups[1..]);
    }
  }

  /**
   * The pass leaves a plan alone exactly when it is settled; in particular applying it twice equals applying it once.
   */
  lemma {:induction false} PairedFixedPoints(r: Rules, steps: seq<Step>)
    requires PlanNamesFit(r, steps)
    ensures Paired(r, steps) == steps <==> Settled(r, steps)
    ensures Paired(r, Paired(r, steps)) == Paired(r, steps)
  {
    PairedIsSettled(r, steps);
    NamesStayFit(r, steps, Paired(r, steps));
    SettledIsFixed(r, Paired(r, steps));
    if Settled(r, steps) { SettledIsFixed(r, steps); }
  }

  lemma {:induction false} SettledIsFixed(r: Rules, steps: seq<Step>)
    requires PlanNamesFit(r, steps) && Settled(r, steps)
    ensures Paired(r, steps) == steps
  {
    assert Cleaned(r, steps) == steps;
    GroupsWellFormed(IterationIds(steps));
    AllStay(r, Start(r, steps), Groups(IterationIds(steps)));
  }

  // ---- What the lint then asks of a settled plan ----------------------------------------

  lemma {:induction false} OwnedIsAsset(r: Rules, steps: seq<Step>, iteration: string, source: Phase, x: string)
    ensures x in TestAssets(StepsOf(steps, source, iteration), r.executable) <==> Owned(r, steps, iteration, source, x)
  {
    OwnedCollected(r, steps, iteration, source, x);
    OutputCollected(r, StepsOf(steps, source, iteration), x);
  }

  lemma {:induction false} SettledConsumes(
    r: Rules, steps: seq<Step>, iteration: string, source: Phase, test: Phase, t: Step)
    requires Present(steps, iteration, source) && PhaseSettled(r, steps, iteration, source, test)
    requires t in steps && InPhase(t, iteration, test)
    ensures ConsumesOnly(t, TestAssets(StepsOf(steps, source, iteration), r.executable), r.executable)
  {
    var i :| 0 <= i < |steps| && steps[i] == t;
    assert TestSettled(r, steps, iteration, source, steps[i]);
    forall a | a in TestAssets(StepsOf(steps, source, iteration), r.executable) ensures a in t.inputs {
      OwnedIsAsset(r, steps, iteration, source, a);
    }
  }

  /**
   * For a settled plan the pairing rule of the lint comes down to dependencies: every source has a dependent test
   * step.
   */
  lemma {:induction false} SettledPairAccepted(r: Rules, plan: Plan, iteration: string, k: nat)
    requires Settled(r, plan.steps) && k < 4
    ensures
      var sources := StepsOf(plan.steps, VModelPairs()[k].0, iteration);
      var tests := StepsOf(plan.steps, VModelPairs()[k].1, iteration);
      PairAccepted(plan, r.executable, iteration, VModelPairs()[k].0, VModelPairs()[k].1) <==>
        (forall n :: 0 <= n < |sources| ==> PairedBy(plan, sources[n], tests))
  {
    hide Owned, PairedBy, StepsOf;
    var g := GroupsOf(iteration)[k];
    var sources, tests := StepsOf(plan.steps, g.source, iteration), StepsOf(plan.steps, g.test, iteration);
    var assets := TestAssets(sources, r.executable);
    assert GroupSettled(r, plan.steps, g);
    OwnerIsFirst(plan.steps, iteration, g.source);
    if sources != [] {
      var x :| Owned(r, plan.steps, iteration, g.source, x);
      OwnedIsAsset(r, plan.steps, iteration, g.source, x);
      forall t | t in tests ensures ConsumesOnly(t, assets, r.executable) {
        SettledConsumes(r, plan.steps, iteration, g.source, g.test, t);
      }
      forall n | 0 <= n < |sources|
        ensures SourceAccepted(plan, r.executable, sources[n], tests, assets) <==> PairedBy(plan, sources[n], tests)
      {
      }
    }
  }
}
