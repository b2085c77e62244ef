/** The plan vocabulary shared by the lint, scheduling and repair models. */
module Plans {

  import opened Basics

  /** The V-model phases, left side first, then the verification side bottom-up. */
  datatype Phase =
    | RequirementAnalysis
    | HighLevelDesign
    | DetailedDesign
    | Code
    | UnitTest
    | IntegrationTest
    | ModuleTest
    | FunctionalTest

  function Phases(): seq<Phase> {
    [RequirementAnalysis, HighLevelDesign, DetailedDesign, Code, UnitTest, IntegrationTest, ModuleTest, FunctionalTest]
  }

  function PhaseOrder(p: Phase): (n: nat)
    ensures n < 8 && Phases()[n] == p
  {
    match p
    case RequirementAnalysis => 0
    case HighLevelDesign => 1
    case DetailedDesign => 2
    case Code => 3
    case UnitTest => 4
    case IntegrationTest => 5
    case ModuleTest => 6
    case FunctionalTest => 7
  }

  /** A macro step, without the prose fields no modelled rule reads. */
  datatype Step = Step(
    id: string,
    iterationId: Option<string>,
    phase: Phase,
    inputs: seq<string>,
    outputs: seq<string>,
    dependsOn: seq<string>
  )

  function IterationOf(s: Step): string {
    match s.iterationId
    case Some(id) => id
    case None => "P1"
  }

  ghost predicate UniqueIds(steps: seq<Step>) {
    forall i, j :: 0 <= i < j < |steps| ==> steps[i].id != steps[j].id
  }

  ghost function Ids(steps: seq<Step>): set<string> {
    set i | 0 <= i < |steps| :: steps[i].id
  }

  /** Every `dependsOn` entry names a step of the plan. */
  ghost predicate ClosedDeps(steps: seq<Step>) {
    forall i, d :: 0 <= i < |steps| && d in steps[i].dependsOn ==> d in Ids(steps)
  }

  /** `new Map(steps.map((s) => [s.id, s]))`: a later step with the same id wins. */
  function ById(steps: seq<Step>): (m: map<string, Step>)
    ensures m.Keys == Ids(steps)
    ensures forall id :: id in m ==> m[id] in steps && m[id].id == id
  {
    if steps == [] then map[]
    else
      var n := |steps| - 1;
      assert steps == steps[..n] + [steps[n]];
      assert Ids(steps) == Ids(steps[..n]) + {steps[n].id} by {
        forall x | x in Ids(steps) ensures x in Ids(steps[..n]) + {steps[n].id} {
          var i :| 0 <= i < |steps| && steps[i].id == x;
          if i < n { assert steps[..n][i].id == x; }
        }
        forall x | x in Ids(steps[..n]) + {steps[n].id} ensures x in Ids(steps) {
          if x in Ids(steps[..n]) {
            var i :| 0 <= i < n && steps[..n][i].id == x;
            assert steps[i].id == x;
          }
        }
      }
      ById(steps[..n])[steps[n].id := steps[n]]
  }

  lemma {:induction false} ByIdUnique(steps: seq<Step>, i: nat)
    requires UniqueIds(steps) && i < |steps|
    ensures steps[i].id in ById(steps) && ById(steps)[steps[i].id] == steps[i]
  {
    assert steps[i].id in Ids(steps);
    var s := ById(steps)[steps[i].id];
    var j :| 0 <= j < |steps| && steps[j] == s;
  }

  function IdSeq(steps: seq<Step>): (ids: seq<string>)
    ensures |ids| == |steps| && forall i :: 0 <= i < |steps| ==> ids[i] == steps[i].id
  {
    seq(|steps|, i requires 0 <= i < |steps| => steps[i].id)
  }

  lemma {:induction false} IdSeqFacts(steps: seq<Step>)
    ensures UniqueIds(steps) <==> NoDup(IdSeq(steps))
    ensures Elems(IdSeq(steps)) == Ids(steps)
  {
    var ids := IdSeq(steps);
    forall x | x in Ids(steps) ensures x in ids {
      var i :| 0 <= i < |steps| && steps[i].id == x;
      assert ids[i] == x;
    }
    if NoDup(ids) {
      forall i, j | 0 <= i < j < |steps| ensures steps[i].id != steps[j].id { assert ids[i] != ids[j]; }
    }
  }
}
