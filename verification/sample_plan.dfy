/**
 * A smallest plan: one step per phase, each after the one before. It shows that acceptance asks for nothing
 * impossible.
 */
module SamplePlan {
  import opened Basics
  import opened Plans
  import opened DependencyGraph
  import opened TopoSort
  import opened PlanLint
  import opened ScheduledRun

  function ChainId(k: nat): (id: string)
    requires k < 8
    ensures |id| == 1
  {
    ["abcdefgh"[k]]
  }

  function ChainTest(k: nat): (path: string)
    requires k < 4
    ensures |path| == 2 && path[0] == 't'
  {
    ['t', "wxyz"[k]]
  }

  /** The k-th source phase owns the test that the k-th phase from the end consumes. */
  function ChainStep(k: nat): Step
    requires k < 8
  {
    Step(ChainId(k), None, Phases()[k],
      if k < 4 then [] else [ChainTest(7 - k)],
      if k < 4 then [ChainTest(k)] else [],
      if k == 0 then [] else [ChainId(k - 1)])
  }

  function Chain(): (steps: seq<Step>)
    ensures |steps| == 8 && forall k :: 0 <= k < 8 ==> steps[k] == ChainStep(k)
  {
    seq(8, k requires 0 <= k < 8 => ChainStep(k))
  }

  function Sample(): Plan {
    Plan(Chain(), [ImplementationPhase("P1", Current)], "P1", Greenfield)
  }

  function IsTest(): string -> bool {
    o => o != [] && o[0] == 't'
  }

  lemma {:induction false} IdsDiffer(i: nat, j: nat)
    requires i < 8 && j < 8
    ensures ChainId(i) == ChainId(j) <==> i == j
  {
    assert ChainId(i)[0] == "abcdefgh"[i] && ChainId(j)[0] == "abcdefgh"[j];
  }

  lemma {:induction false} TestsDiffer(i: nat, j: nat)
    requires i < 4 && j < 4
    ensures ChainTest(i) == ChainTest(j) <==> i == j
  {
    assert ChainTest(i)[1] == "wxyz"[i] && ChainTest(j)[1] == "wxyz"[j];
  }

  lemma {:induction false} PhaseAt(k: nat)
    requires k < 8
    ensures PhaseOrder(Phases()[k]) == k
  {
  }

  lemma {:induction false} ChainUnique()
    ensures UniqueIds(Chain())
  {
    forall i, j | 0 <= i < j < 8 ensures Chain()[i].id != Chain()[j].id { IdsDiffer(i, j); }
  }

  lemma {:induction false} ChainAt(s: Step) returns (k: nat)
    requires s in Chain()
    ensures k < 8 && s == ChainStep(k)
  {
    k :| 0 <= k < 8 && Chain()[k] == s;
  }

  lemma {:induction false} ChainById(k: nat)
    requires k < 8
    ensures ChainId(k) in ById(Chain()) && ById(Chain())[ChainId(k)] == ChainStep(k)
  {
    ChainUnique();
    ByIdUnique(Chain(), k);
  }

  lemma {:induction false} ChainClosed()
    ensures ClosedDeps(Chain())
  {
    forall i, d | 0 <= i < 8 && d in Chain()[i].dependsOn ensures d in Ids(Chain()) {
      assert d == Chain()[i - 1].id;
    }
  }

  lemma {:induction false} ChainAcyclic()
    ensures !Cyclic(DepGraph(Sample()))
  {
    var g, order := DepGraph(Sample()), IdSeq(Chain());
    forall i, d | 0 <= i < 8 && Edge(g, order[i], d) && d in g ensures d in order[..i] {
      ChainById(i);
      assert d == order[..i][i - 1];
    }
    forall x | x in g ensures x in Elems(order) {
      var i :| 0 <= i < 8 && Chain()[i].id == x;
      assert order[i] == x;
    }
    OrderedIsAcyclic(g, order);
  }

  lemma {:induction false} ChainReaches(i: nat, j: nat)
    requires j <= i < 8
    ensures Reaches(DepGraph(Sample()), ChainId(i), ChainId(j))
    decreases i
  {
    var g := DepGraph(Sample());
    ReachesSelf(g, ChainId(i));
    if j < i {
      ChainById(i);
      assert Edge(g, ChainId(i), ChainId(i - 1));
      ReachesStep(g, ChainId(i), ChainId(i), ChainId(i - 1));
      ChainReaches(i - 1, j);
      ReachesTrans(g, ChainId(i), ChainId(i - 1), ChainId(j));
    }
  }

  lemma {:induction false} ChainDepends(i: nat, j: nat)
    requires j < i < 8
    ensures DependsOn(Sample(), ChainStep(i), ChainId(j))
  {
    ChainReaches(i - 1, j);
    assert ChainId(i - 1) in ChainStep(i).dependsOn;
  }

  lemma {:induction false} OneCurrent()
    ensures CurrentPhases(Sample().phases) == Sample().phases && SingleCurrent(Sample())
  {
    assert Sample().phases[..0] == [];
  }

  lemma {:induction false} ChainStructure()
    ensures StructureAccepted(Sample())
  {
    ChainUnique();
    ChainClosed();
    ChainAcyclic();
    var p := Sample().phases[0];
    assert p in Sample().phases && p.id in CurrentIds(Sample().phases);
    forall s | s in Chain() ensures IterationOf(s) == "P1" { var k := ChainAt(s); }
    forall phase: Phase ensures HasStep(Chain(), phase, "P1") {
      assert Chain()[PhaseOrder(phase)] in Chain();
    }
  }

  lemma {:induction false} ChainOutputs()
    ensures OutputsOwned(Sample()) && TopicUntouched(Sample())
  {
    var steps := Chain();
    forall j, b | 0 <= j < 8 && 0 <= b < |steps[j].outputs| ensures OutputAccepted(Sample(), j, b) {
      var read := ReadSoFar(steps, j, b);
      var o := steps[j].outputs[b];
      forall s | s in read ensures o !in s.outputs {
        var i :| 0 <= i < |read| && read[i] == s;
        if i < j && i < 4 { TestsDiffer(i, j); }
      }
      OwnerOutputs(read, o);
    }
    forall s | s in steps ensures Topic() !in s.outputs { var k := ChainAt(s); }
  }

  lemma {:induction false} ChainOwner(m: nat)
    requires m < 4
    ensures FirstOwner(Chain(), ChainTest(m)) == Some(ChainId(m))
  {
    OwnerOutputs(Chain(), ChainTest(m));
    assert Chain()[m] in Chain() && ChainTest(m) in Chain()[m].outputs;
    var owner := FirstOwner(Chain(), ChainTest(m)).value;
    var s :| s in Chain() && s.id == owner && ChainTest(m) in s.outputs;
    var k := ChainAt(s);
    TestsDiffer(k, m);
  }

  lemma {:induction false} ChainInputs()
    ensures InputsProvided(Sample())
  {
    forall s, input | s in Chain() && input in s.inputs ensures InputAccepted(Sample(), s, input) {
      var k := ChainAt(s);
      ChainOwner(7 - k);
      ChainDepends(k, 7 - k);
    }
  }

  lemma {:induction false} ChainOrdered()
    ensures PhasesOrdered(Sample())
  {
    forall s, dep | s in Chain() && dep in s.dependsOn ensures EdgeAccepted(Sample(), s, dep) {
      var k := ChainAt(s);
      ChainById(k - 1);
      PhaseAt(k);
      PhaseAt(k - 1);
    }
  }

  lemma {:induction false} ChainCovered()
    ensures CodeCovered(Sample())
  {
    forall c | c in Chain() && c.phase == Code ensures UnitTested(Sample(), c) {
      var k := ChainAt(c);
      PhaseAt(k);
      ChainDepends(4, 3);
      assert Chain()[4] in Chain() && UnitTestedBy(Sample(), c, Chain()[4]);
    }
  }

  lemma {:induction false} ChainPhase(k: nat, it: string, found: seq<Step>)
    requires k < 8 && it == "P1" && found == StepsOf(Chain(), Phases()[k], it)
    ensures ChainStep(k) in found && forall s :: s in found ==> s == ChainStep(k)
  {
    forall s | s in found ensures s == ChainStep(k) {
      var i := ChainAt(s);
      PhaseAt(i);
      PhaseAt(k);
    }
    assert Chain()[k] in Chain();
  }

  lemma {:induction false} ChainSource(m: nat, source: Step, tests: seq<Step>, assets: set<string>)
    requires m < 4 && source == ChainStep(m) && ChainStep(7 - m) in tests
    requires (forall t :: t in tests ==> t == ChainStep(7 - m)) && forall a :: a in assets ==> a == ChainTest(m)
    ensures SourceAccepted(Sample(), IsTest(), source, tests, assets)
  {
    ChainDepends(7 - m, m);
    assert PairedBy(Sample(), source, tests);
    assert ConsumesOnly(ChainStep(7 - m), assets, IsTest());
  }

  lemma {:induction false} ChainAssets(m: nat, sources: seq<Step>)
    requires m < 4 && ChainStep(m) in sources && forall s :: s in sources ==> s == ChainStep(m)
    ensures TestAssets(sources, IsTest()) == {ChainTest(m)}
  {
    var assets := TestAssets(sources, IsTest());
    assert ChainTest(m) in ChainStep(m).outputs && IsTest()(ChainTest(m));
    assert ChainTest(m) in assets;
  }

  lemma {:induction false} ChainPair(m: nat)
    requires m < 4
    ensures PairAccepted(Sample(), IsTest(), "P1", Phases()[m], Phases()[7 - m])
  {
    var sources, tests := StepsOf(Chain(), Phases()[m], "P1"), StepsOf(Chain(), Phases()[7 - m], "P1");
    var assets := TestAssets(sources, IsTest());
    ChainPhase(m, "P1", sources);
    ChainPhase(7 - m, "P1", tests);
    ChainAssets(m, sources);
    forall i | 0 <= i < |sources| ensures SourceAccepted(Sample(), IsTest(), sources[i], tests, assets) {
      assert sources[i] in sources;
      ChainSource(m, sources[i], tests, assets);
    }
  }

  /** The chain is accepted. */
  lemma {:induction false} SampleIsAccepted()
    ensures Accepts(Sample(), IsTest())
  {
    ChainStructure();
    ChainOutputs();
    ChainInputs();
    ChainOrdered();
    ChainCovered();
    OneCurrent();
    ChainPairs();
  }

  lemma {:induction false} ChainPairs()
    ensures PairsAccepted(Sample(), IsTest())
  {
    OneCurrent();
    forall m | 0 <= m < 4 ensures PairAccepted(Sample(), IsTest(), "P1", VModelPairs()[m].0, VModelPairs()[m].1) {
      ChainPair(m);
      SamePair(m);
    }
    assert PairsAcceptedIn(Sample(), IsTest(), Sample().phases[0].id, |VModelPairs()|);
  }

  lemma {:induction false} SamePair(m: nat)
    requires m < 4
    ensures VModelPairs()[m] == (Phases()[m], Phases()[7 - m])
  {
  }

  lemma {:induction false} EmittedBefore(k: nat, i: nat)
    requires k <= 8 && i < 8
    ensures i < k ==> ChainId(i) in Ids(Chain()[..k])
  {
    assert i < k ==> Chain()[..k][i].id == ChainId(i);
  }

  /** And its own order is the one the scheduler returns. */
  lemma {:induction false} SampleIsScheduled(rank: string -> int)
    requires StrictOrder(rank)
    ensures Scheduled(Sample(), rank, Chain())
  {
    forall k, d | 0 <= k < 8 && d in Chain()[k].dependsOn ensures d in Ids(Chain()[..k]) {
      assert Chain()[..k][k - 1].id == d;
    }
    forall k, s | 0 <= k < 8 && s in Chain() && Ready(s, Ids(Chain()[..k])) ensures s == Chain()[k] {
      var i := ChainAt(s);
      EmittedBefore(k, i);
      if i > k {
        assert ChainId(i - 1) in s.dependsOn;
        var m :| 0 <= m < k && Chain()[..k][m].id == ChainId(i - 1);
        IdsDiffer(m, i - 1);
      }
    }
  }
}
