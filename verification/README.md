# XCompiler planning and runtime core: a Dafny model

XCompiler turns a requirement into a V-model plan (a graph of macro steps), checks and repairs that plan,
executes it step by step with an LLM in the loop, serves clients over ACP, and remembers debugging fixes in
a wiki. This project models the parts of it that carry state or graph algorithms, and proves what they
promise for all inputs, all runs and all schedules.

| file | modules | what is modelled |
|---|---|---|
| `basics.dfy`, `plans.dfy` | `Basics`, `Plans` | options, results, counting; steps, phases, plans |
| `graph.dfy`, `contraction.dfy` | `DependencyGraph`, `GraphContraction` | the worklist closures and the three-colour cycle search; what a graph reaches after nodes are added |
| `topo.dfy` | `TopoSort` | Kahn's algorithm with a sorted ready queue |
| `lint.dfy`, `schedule.dfy`, `sample_plan.dfy` | `PlanLint`, `ScheduledRun`, `SamplePlan` | which plans the lint accepts; what a run of an accepted plan in scheduled order guarantees; a plan that is accepted |
| `vmodel_deps.dfy`, `pairing.dfy`, `coverage.dfy` | `VModelDependencies`, `TestPairing`, `CoverageRepair` | the three plan repair passes |
| `generated_names.dfy` | `GeneratedNames` | the pairing pass in closed form, and when the test names it generates are new |
| `coverage_effects.dfy`, `coverage_results.dfy`, `coverage_names.dfy` | `CoverageEffects`, `CoverageResults`, `CoverageNames` | what the coverage repair does to cycles, coverage, report ownership and test names, told from its input |
| `coverage_tests.dfy` | `CoverageTests` | which uncovered steps the repair gives a test, and what the verification steps and the new steps list |
| `coverage_exemption.dfy` | `CoverageExemption` | the steps the coverage repair exempts and the lint does not, told from the input |
| `calibration.dfy` | `Calibration` | the dependency pass followed by the coverage repair |
| `test_paths.dfy` | `TestPaths` | the path rules of both languages, and the repair results for plans with schema ids |
| `architecture.dfy` | `ArchitectureContract` | ownership of module paths |
| `phase_plan.dfy` | `PhaseProgress` | advancing the implementation phases |
| `rwlock.dfy` | `RwLock` | the read/write lock under every interleaving |
| `acp_protocol.dfy`, `acp_tables.dfy`, `acp_outcomes.dfy`, `acp_server.dfy` | `AcpProtocol`, `AcpRuns`, `AcpOutcomes`, `AcpServerObject` | the ACP server: task life cycle, pending-request tables, cancellation, close; how prompts end |
| `executor.dfy` | `Executor` | verification generations, the duplicate guard, the round budget |
| `debug_wiki.dfy`, `debug_wiki_outcomes.dfy` | `DebugWiki`, `WikiOutcomes` | live entries against a fresh load that replays the feedback log; what each operation leaves behind |
| `strip_comments.dfy` | `CommentStripper` | the comment and string stripper |
| `quality_gate.dfy`, `quality_input.dfy` | `QualityGate`, `QualityInput` | the stage quality gate, and normalising what it is given |

Conventions. A step carries only the fields some modelled rule reads. `localeCompare` on ids is an injective `rank`.
The pairing and coverage passes take file classification and lower-casing as parameters, under the hypothesis
`RulesHold` about the ids of the plan at hand; `TestPaths` models the program's own rules and proves the hypothesis
for every plan whose ids match the plan schema. Both callers renumber ids first (src/agents/calibration.ts:526-548,
src/agents/planner.ts:453 and 881), so other ids do not reach the passes; with a slash in an id the hypothesis could
fail (`SlashMayMisname`). LLM turns, tool results, permissions, clocks and file contents are arbitrary parameters.
Files are sequences or maps of records, and parsing is the identity. `assertStateTransition` returns unchanged on an
equal state, changes on a listed transition, and otherwise fails. Code between `await`s is one atomic event.

## Findings

Each item is a lemma below; the code is modelled as it is written.

- The lock is not exclusive under every schedule (src/core/rwlock.ts:49-88): a granted waiter changes the lock only
  when it resumes, and a newcomer can enter in between (`OverlapWitness`). `ExclusionIffHazardFree` gives the exact
  condition, and `EagerGrantsExclude` shows that recording the grant inside `admitNext` excludes under every
  schedule.
- An ACP request whose status change is refused has its waiter rejected at once, yet both tables keep it, and a
  later answer settles it a second time (src/acp/session.ts:66-90, `RefusedWitness`). A waiter of an open session is
  listed and settled already exactly when the task's status refused its asking (`ListedYetSettledIffRefused`).
- Closing an ACP session leaves its requests in the server's own table, so a late answer to one of them
  reports a missing session (src/acp/session.ts:28-37, `ResponseOutcome`, with the run `LateAnswerWitness`).
- The prompt of a closed session runs on, and a question it asks then is never settled, whatever happens later: its
  answer finds no session, and cancelling or closing does not reach it (src/acp/session.ts:28-37,
  `AskedAfterCloseHangs`, with the run `AskedAfterCloseWitness`). Whatever was asked before the close has been settled
  (`CloseSettlesAll`).
- A failed verification command whose error text is empty is run again by the duplicate guard
  (src/agents/executor.ts:926-949, `RepeatRunsIffMessageEmpty`).
- Changing the writable wiki tier counts an old use twice (src/core/debug_wiki.ts:408-430,
  `TierChangeCountsTwice`): an entry the writable tier has persisted loads with its live counts exactly when no log
  line names it (`PersistedCountsIff`).
- Feedback that asks a superseded entry for a new status is counted live, then throws before it is logged or
  persisted (src/core/debug_wiki.ts:224-238, `SupersededDiverges`). An operation throws exactly when it names such
  an entry (`RecordThrowsIff`, `ResolveThrowsIff`), and a run stays in step with a fresh load exactly when none of
  its operations throws after changing something (`InStepIffUnbroken`).
- An active entry with a legacy merged solution reads differently after a load, and no other does
  (src/core/debug_wiki.ts:164-183, `ReplayAgreesWithLive`). Live operations make such an entry: a ticket that
  confirms three texts, each new, leaves it active, and the next load puts it under review
  (`ThirdConfirmationQuarantined`, with the run `QuarantineWitness`).
- The pairing pass looks at outputs only when it invents a test path, so it can give two steps the same path
  when a verification step already declared that path as an input (src/agents/calibration.ts:1199-1212,
  `PairingDuplicatesName`). Generated names are new when assigned exactly when no earlier pair declares them
  (`GeneratesFreshIff`), and have one owner in the result exactly when no other pair does
  (`GeneratedOwnerIsSoleIff`).
- The coverage pass can close a cycle through a dependency that named no step before the pass numbered its
  new one (src/agents/calibration.ts:1088-1135, `RepairMakesCycle`). It has a cycle afterwards exactly when it had
  one or the new steps lead to each other in a circle (`RepairCyclicIff`); with one uncovered iteration, exactly
  when an uncovered CODE step transitively depends on the next free id (`OneIterationCyclicIff`).
- The coverage pass gives a verification report a second owner exactly when some step outputs it already
  (src/agents/calibration.ts:1101-1134, `ReportOwnedOnceIff`). The lint's output rule accepts the new step's listing
  exactly when the first such step belongs to an earlier iteration and the new step reaches it, through an uncovered
  step that it or a new step it leads to depends on (`ReportAcceptedIff`); otherwise it rejects the plan, as it does
  with the plan of `RepairDuplicatesReport`.
- The coverage pass exempts a step by its `src/` outputs, the lint by all of its outputs
  (src/agents/calibration.ts:1044-1055, src/core/lint.ts:180-208). The repair can take the lint's exemption away
  itself: a plan whose one CODE step outputs one `__init__.py` passes the lint's coverage rule, is handed a
  generated test by the first pairing, and then fails it (`RepairLosesExemption`). It happens exactly to the first
  CODE step of an iteration whose pair hands it a test that is no package marker (`ExemptionLostIff`). The repaired
  plan passes the rule exactly when each CODE step that outputs only package markers under `src/`, and lists or is
  handed another file, was covered in the input, or the new steps lead to it (`LintCoverageIff`; on phase-monotone
  plans, some uncovered step depends on it, `MonotoneLintCoverageIff`).

## Model

| member | source | states |
|---|---|---|
| `DependencyGraph.TransitiveDependencyIds` | src/core/lint.ts:548-558 | the worklist returns exactly the ids reachable from the step's dependencies, on any graph, cyclic or with unknown ids |
| `DependencyGraph.StepTransitivelyDependsOn` | src/core/workflow_state.ts:3-19 | the stack search answers true exactly when the target is reachable through `dependsOn` |
| `DependencyGraph.CycleSearch.Dfs` | src/core/lint.ts:533-542 | a colouring search that finds a gray successor exhibits a cycle; otherwise everything reached is finished in an order without forward edges |
| `DependencyGraph.HasCycle` | src/core/lint.ts:526-546 | true if and only if the dependency graph has a cycle |
| `GraphContraction.CyclicWithNewNodes` | src/agents/calibration.ts:1086-1155 | adding nodes that lead into an old graph makes a cycle exactly when the old graph had one or the new nodes reach each other in a circle through it |
| `TopoSort.Sort` | src/core/lint.ts:583-629 | succeeds exactly for unique ids, closed dependencies and no cycle; then returns a permutation with every dependency earlier that always picks, among the ready steps, the lower iteration number, then the earlier phase, then the id the locale puts first, and otherwise the cycle error |
| `TopoSort.OrderIsUnique` | src/core/lint.ts:589-628 | the result does not depend on the order of the plan's steps nor of any dependency list |
| `TopoSort.PhasesAreSorted` | src/core/lint.ts:603-628 | over one iteration whose dependencies never go to a later phase, least-first selection returns the steps in non-decreasing phase order |
| `PlanLint.IterationPosition` | src/core/lint.ts:55-57 | an iteration's order is the position of the last phase declared with its id, and the first position if none is |
| `PlanLint.MarkerIsLastSegment` | src/core/lint.ts:185-187 | a package marker is a path whose last segment is `__init__.py` |
| `PlanLint.LintIds` | src/core/lint.ts:37-48 | no issue exactly when ids are unique and every dependency is known |
| `PlanLint.LintIterations` | src/core/lint.ts:59-77 | no issue exactly when every step belongs to a declared, current iteration |
| `PlanLint.LintRequiredPhases` | src/core/lint.ts:79-92 | no issue exactly when each current iteration has a step of every phase |
| `PlanLint.LintOutputs` | src/core/lint.ts:101-123 | no issue exactly when each output is listed once, or rewritten by a later iteration that depends on its first owner; the owner map is the first-owner function |
| `PlanLint.LintInputs` | src/core/lint.ts:125-153 | no issue exactly when each input but the topic is an output of a transitive dependency, or unowned in an incremental plan |
| `PlanLint.LintPhaseOrder` | src/core/lint.ts:155-178 | no issue exactly when no dependency leads to a later iteration or, within one, to a later phase |
| `PlanLint.LintCoverage` | src/core/lint.ts:180-208 | no issue exactly when every CODE step that does not output package markers only has a unit test step of its iteration that depends on it |
| `PlanLint.LintPairs` | src/core/lint.ts:332-396 | no issue exactly when every left-side phase owns executable tests, each of its steps has a dependent paired test step, and each such step owns none and consumes all of them |
| `PlanLint.LintTopic` | src/core/lint.ts:398-408 | no issue exactly when no step outputs the topic document |
| `PlanLint.LintPlan` | src/core/lint.ts:32-208 | no issue of the modelled rules exactly when the plan satisfies the conjunction of the rules, stated independently of the loops |
| `ScheduledRun.IterationsByNumber` | src/core/lint.ts:631-634 | the iterations `P0` to `P999` sort by their number, and any other after them |
| `ScheduledRun.SingleIteration` | src/core/lint.ts:458-465 | all steps of an accepted plan belong to the plan's own phase |
| `ScheduledRun.OutputListedOnce` | src/core/lint.ts:99-123 | in an accepted plan no path is listed twice as an output, by any steps or positions |
| `ScheduledRun.UpstreamRunsEarlier` | src/core/lint.ts:603-618 | in a scheduled run everything a step reaches through `dependsOn` has run before it |
| `ScheduledRun.ProducerIsSole` | src/core/lint.ts:99-123 | in a run of an accepted plan a file has one producer |
| `ScheduledRun.InputsReady` | src/core/lint.ts:125-153 | dataflow soundness: in a scheduled run of an accepted plan every input except the topic was output by exactly one, strictly earlier step; only an incremental plan may read an unowned file |
| `ScheduledRun.PhasesRunInOrder` | src/core/lint.ts:155-178 | V-model order: a scheduled run of an accepted plan never goes back to an earlier phase |
| `ScheduledRun.EverySourceIsVerifiedLater` | src/core/lint.ts:356-394 | every left-side step is followed by a step of its paired verification phase that consumes all executable tests of that source phase |
| `SamplePlan.SampleIsAccepted` | src/core/lint.ts:32-208 | acceptance is satisfiable: the plan with one step per phase, each after the one before, is accepted |
| `SamplePlan.SampleIsScheduled` | src/core/lint.ts:583-629 | that plan's own order is a scheduled run of it, whatever the locale |
| `VModelDependencies.CalibrateVModelDependencies` | src/agents/calibration.ts:265-289 | the grouped in-place loops compute the pointwise link to the previous phase's steps |
| `VModelDependencies.LinkPhase` | src/agents/calibration.ts:281-284 | the inner loop links exactly the group's steps of the phase, each at most once |
| `VModelDependencies.LinkedOnlyAdds` | src/agents/calibration.ts:266-284 | only dependency lists change, and they only grow |
| `VModelDependencies.LinkedTwice` | src/agents/calibration.ts:265-289 | idempotence |
| `VModelDependencies.LinkedShape` | src/agents/calibration.ts:265-289 | ids stay unique and the same, known dependencies stay known |
| `VModelDependencies.LinkedKeepsAcyclic` | src/agents/calibration.ts:265-289 | a phase-monotone plan stays phase-monotone and has a cycle afterwards exactly when it had one |
| `VModelDependencies.EveryEarlierPhaseReached` | src/agents/calibration.ts:275-286 | where the earlier phases are present, each step transitively depends on some step of every one of them |
| `VModelDependencies.SinglePhasesReachAll` | src/agents/calibration.ts:275-286 | with one step per phase every step depends on every earlier one, so each verification step on its paired source |
| `TestPairing.UniqueRunnableTestPath` | src/agents/calibration.ts:1260-1279 | the suffix loop ends and returns the first candidate name that is not used |
| `TestPairing.CandidatesDiffer` | src/agents/calibration.ts:1266-1276 | two suffixes never render the same name |
| `TestPairing.PairOnePhase` | src/agents/calibration.ts:1179-1237 | one turn of the inner loop: collects the pair's tests, assigns them to the first source, empties and feeds the test steps |
| `TestPairing.EnsurePairedTestAssets` | src/agents/calibration.ts:1160-1258 | the nested loops compute the pass over every iteration and pair, threading the used paths |
| `TestPairing.PairSettles` | src/agents/calibration.ts:1187-1237 | after one pair its sources own a test, its test steps consume exactly those and own none, nothing is reserved or repeated |
| `TestPairing.PairKeepsOthers` | src/agents/calibration.ts:1175-1185 | a pair does not disturb another pair that is settled |
| `TestPairing.PairedIsSettled` | src/agents/calibration.ts:1160-1258 | whatever the plan, every pair of every iteration is settled afterwards and steps keep ids, phases and dependencies |
| `TestPairing.PairedFixedPoints` | src/agents/calibration.ts:1160-1258 | the pass leaves exactly the settled plans alone, so it is idempotent |
| `TestPairing.SettledPairAccepted` | src/core/lint.ts:332-396 | for a settled plan the lint's pairing rule reduces to: every source step has a dependent paired test step |
| `GeneratedNames.PairedClosedForm` | src/agents/calibration.ts:1160-1258 | the pass in closed form: each step is rewritten by the one pair it belongs to, from the cleaned plan and the names generated before |
| `GeneratedNames.GeneratesFreshIff` | src/agents/calibration.ts:1172-1211 | every generated path is new when assigned exactly when none is a test that an earlier pair, its source present, declares as an input |
| `GeneratedNames.NamesDiffer` | src/agents/calibration.ts:1199-1202 | no name is generated twice |
| `GeneratedNames.GeneratedNameOwners` | src/agents/calibration.ts:1187-1211 | a generated name ends up with the first source of its own pair and of every pair that declares it, and nobody else |
| `GeneratedNames.GeneratedOwnerIsSoleIff` | src/agents/calibration.ts:1187-1211 | it has one owner in the result exactly when no other pair declares it |
| `GeneratedNames.DeclaredNameCollides` | src/agents/calibration.ts:1199-1212 | a plan family in which the generated name is an output already and ends up with two owners |
| `CoverageRepair.NewIdReadsBack` | src/agents/calibration.ts:1089-1100 | the padded number of a new id reads back as that number |
| `CoverageRepair.MaxNumberIsTaken` | src/agents/calibration.ts:1088-1092 | numbering goes on from the largest number of a schema id, and starts at one where there is none |
| `CoverageRepair.NewIdIsFresh` | src/agents/calibration.ts:1088-1100 | an id numbered past the maximum names no step |
| `CoverageRepair.FindUncovered` | src/agents/calibration.ts:1057-1085 | finds exactly the CODE steps, not init-only, that no unit test step of their iteration reaches |
| `CoverageRepair.CalibratePlanCoverage` | src/agents/calibration.ts:1040-1158 | the loops compute the repaired plan: pairing, one new step per uncovered iteration, rewiring, pairing |
| `CoverageRepair.RepairEstablishes` | src/agents/calibration.ts:1040-1158 | old steps keep their place and dependencies, only unit test steps over CODE steps of their own iteration are added, with fresh ids, every CODE step that is not init-only is covered, every pair is settled |
| `CoverageRepair.RepairFixedPoints` | src/agents/calibration.ts:1040-1158 | the pass leaves exactly the settled and covered plans alone; applying it twice equals applying it once |
| `CoverageRepair.JoinedParts` | src/agents/calibration.ts:1094-1155 | each new step has its number, iteration, document and uncovered dependencies; old steps are kept or linked to it; added outputs are unused executable tests |
| `CoverageRepair.PairedKeepsPlain` | src/agents/calibration.ts:1160-1212 | outputs that are not executable tests are never added, moved or dropped, reserved ones aside |
| `CoverageRepair.CoveredMeansUnitTested` | src/core/lint.ts:188-190 | the pass and the lint mean the same by coverage |
| `CoverageEffects.RepairIsWired` | src/agents/calibration.ts:1086-1155 | every dependency of the repaired plan, told from the input: a step of a phase after UNIT_TEST that names an uncovered step and no unit test step gets the new step of its iteration, all others keep theirs; a new step has exactly the uncovered steps of its iteration |
| `CoverageEffects.RepairCyclicIff` | src/agents/calibration.ts:1086-1155 | the repaired plan has a cycle exactly when the input had one, or the new steps lead to each other in a circle, through uncovered steps that reach, in the input, another new id or a step rewired to it |
| `CoverageEffects.RepairCoversIff` | src/agents/calibration.ts:1057-1155 | a CODE step is covered afterwards exactly when it was, or a unit test step of its iteration is or leads to a new step from which an uncovered step reaches it |
| `CoverageResults.RepairKeepsAcyclic` | src/agents/calibration.ts:1086-1157 | on a phase-monotone plan that names none of the new ids, unknown dependencies allowed, a cycle exists afterwards exactly when one existed before |
| `CoverageResults.RepairKeepsOrder` | src/agents/calibration.ts:1086-1157 | such a plan stays phase-monotone, and its dependencies known if they were |
| `CoverageResults.OneIterationCyclicIff` | src/agents/calibration.ts:1088-1135 | with one uncovered iteration, a phase-monotone plan is cyclic afterwards exactly when it was, or some uncovered CODE step transitively depends on the next free id |
| `CoverageResults.MonotoneCoversIff` | src/agents/calibration.ts:1057-1155 | on a phase-monotone plan that names no new id, a CODE step is covered afterwards exactly when it was, or an uncovered CODE step of its iteration transitively depends on it |
| `CoverageResults.ReportOwners` | src/agents/calibration.ts:1101-1134 | a new step's report, where no other uncovered iteration has the same, is output by the new step and by exactly the steps that output it before |
| `CoverageResults.ReportOwnedOnceIff` | src/agents/calibration.ts:1101-1134 | it has a single owner exactly when no step of the input outputs it |
| `CoverageResults.ReportAcceptedIff` | src/core/lint.ts:99-123 | where some step outputs it, the lint accepts the new step's listing exactly when the first such step belongs to an earlier iteration and the new step reaches it in the graph of the new steps, told from the input |
| `CoverageResults.ReportRejected` | src/core/lint.ts:99-123 | a first owner of the same or a later iteration makes the repaired plan fail the output rule |
| `CoverageNames.LastPassKeepsOutputs` | src/agents/calibration.ts:1157-1258 | the pairing pass that ends the repair generates no name and changes no output |
| `CoverageNames.AddedTestsAreNew` | src/agents/calibration.ts:1110-1117 | each test name the repair adds after its first pairing goes to an uncovered step, was no output before, and is the output of that step only |
| `CoverageTests.UncoveredGetTests` | src/agents/calibration.ts:1110-1117 | after the first pairing the repair changes outputs exactly where an uncovered step owns no executable test: it gets one and nothing else; so every uncovered step ends up with one |
| `CoverageTests.VerificationLists` | src/agents/calibration.ts:1213-1237 | after the pairing pass a verification step reads what it read and all tests of its pair, and outputs what it did apart from executable tests, where its source phase is present, and stays as it was elsewhere |
| `CoverageTests.NewStepReads` | src/agents/calibration.ts:1118-1143 | a new step reads exactly the outputs of the uncovered steps, and the executable tests of all CODE steps, of its iteration |
| `CoverageExemption.DevelopmentOutputs` | src/agents/calibration.ts:1175-1212 | after the pairing pass a development step outputs what it did, reserved paths aside, and what its pair hands it as the first source step: the generated name, or a test that only the test steps list |
| `CoverageExemption.ExemptionIff` | src/agents/calibration.ts:1044-1055 | the lint alone wants a step of the repaired plan tested exactly when in the input its `src/` code outputs are package markers, and it lists or is handed a file that is none |
| `CoverageExemption.ExemptionLostIff` | src/core/lint.ts:183-187 | a CODE step the lint exempted is no longer exempt after the repair exactly when its pair hands it a test that is no package marker |
| `CoverageExemption.LintCoverageIff` | src/core/lint.ts:180-208 | the repaired plan passes the lint's coverage rule exactly when each such step was covered in the input or the new steps lead to it |
| `CoverageExemption.MonotoneLintCoverageIff` | src/core/lint.ts:180-208 | on phase-monotone plans that name no new id: was covered, or an uncovered CODE step of its iteration depends on it |
| `CoverageExemption.MarkerLosesExemption` | src/core/lint.ts:180-191 | a CODE step that outputs one package marker passes the coverage rule before the repair and fails it after, with no step added, for any rules whose generated names are no markers |
| `Calibration.CalibratedPlanAccepted` | src/agents/planner.ts:452-465 | dependency calibration then coverage repair, on a plan with one step per phase in each iteration: no step is added, every CODE step is unit tested and every pair accepted by the lint, whatever dependencies and tests it came with |
| `TestPaths.NameParts` | src/agents/calibration.ts:1260-1279 | a generated name is the directory, the prefix of the phase, the lowered id, a count from two on, and the extension of the language |
| `TestPaths.ExecutableMeans` | src/core/test_assets.ts:9-17 | under `tests/`, exactly the names with an extension of the language are executable tests |
| `TestPaths.SupplementMeans` | src/core/test_assets.ts:32-39 | a path names a supplement exactly when a segment starts with one of three words that a separator follows |
| `TestPaths.WrittenAlike` | src/core/test_assets.ts:113-115 | a leading `./`, further slashes, and backslashes make no difference |
| `TestPaths.LetterByLetter` | src/agents/calibration.ts:1267 | lower-casing, letter by letter |
| `TestPaths.SlashlessNamesFit` | src/core/test_assets.ts:9-39 | every name generated for an id without slashes is an executable test path and not a reserved one, in both languages |
| `TestPaths.SlashMayMisname` | src/core/test_assets.ts:32-39 | why the ids matter: the id `/supplement` yields a reserved name |
| `TestPaths.SchemaRulesHold` | src/core/plan.ts:220 | the hypothesis of the repair lemmas holds for every plan with schema ids |
| `TestPaths.SchemaPlanRepaired` | src/agents/calibration.ts:1040-1258 | with the program's own path rules: both passes settle every pair, the repair covers every CODE step that is not init-only, and each pass applied twice equals once |
| `TestPaths.ReportsDiffer` | src/core/docs.ts:92-98 | different iterations have different unit test reports |
| `TestPaths.SchemaReportOwnedOnceIff` | src/agents/calibration.ts:1101-1134 | with the program's own report names, a new report has a single owner exactly when no step of the input outputs it |
| `TestPaths.SlashlessNamesAreNoMarkers` | src/agents/calibration.ts:1260-1279 | no name generated for an id without slashes is a package marker |
| `TestPaths.SchemaLintCoverageIff` | src/core/lint.ts:180-208 | with the program's own rules, the exact condition under which a repaired plan passes the lint's coverage rule |
| `TestPaths.RepairMakesCycle` | src/agents/calibration.ts:1099-1135 | one CODE step `S001` that depends on the missing `S002`: acyclic, and cyclic after the repair |
| `TestPaths.RepairDuplicatesReport` | src/agents/calibration.ts:1101-1134 | a CODE step and an idle unit test step that outputs the report: two owners and a lint error after the repair |
| `TestPaths.PairingDuplicatesName` | src/agents/calibration.ts:1199-1212 | a three-step plan whose generated name gets two owners |
| `TestPaths.RepairLosesExemption` | src/core/lint.ts:180-191 | the plan with one CODE step that outputs `src/a/__init__.py`: the coverage rule passes before the repair and fails after |
| `ArchitectureContract.FlattenSubTasks` | src/core/architecture.ts:433-442 | the shift/unshift stack is the preorder of the task tree |
| `ArchitectureContract.CoveredPlainly` | src/core/architecture.ts:444-450 | a path is covered exactly by itself and by the directories it lies in |
| `ArchitectureContract.WrittenAlike` | src/core/architecture.ts:481-483 | a leading `./`, a slash at the end, and backslashes make no difference |
| `ArchitectureContract.CheckPaths` | src/core/architecture.ts:299-316 | the path sets report an issue exactly when a path repeats one met before |
| `ArchitectureContract.CheckOwner` | src/core/architecture.ts:324-382 | no issue exactly when the module has an owner, alone in its iteration, upstream of later owners, with authored tests consumed downstream of it |
| `ArchitectureContract.ValidateArchitectureContract` | src/core/architecture.ts:273-417 | no issue exactly when the contract, stated rule by rule, holds |
| `ArchitectureContract.ImplementationsDisjoint` | src/core/architecture.ts:299-316 | implementation paths of different modules are disjoint |
| `ArchitectureContract.OwnershipIsComplete` | src/core/architecture.ts:324-382 | each module of an accepted contract has exactly one CODE owner in its first owning iteration, before and upstream of every other, a MODULE_TEST step that consumes all its tests depends on it, and a HIGH_LEVEL_DESIGN step authored them |
| `ArchitectureContract.KindsMean` | src/core/architecture.ts:465-479 | where the files of a module have to lie and which have to be code: sources and assets under `src/`, tests under `tests/`; sources and tests are code files, assets files that are none |
| `ArchitectureContract.SubTasksMean` | src/core/architecture.ts:392-401 | all that is asked of sub-tasks: a step that is first owner of several modules names each of them, or one of its files |
| `ArchitectureContract.SharedStepNamesModules` | src/core/architecture.ts:392-401 | so in an accepted contract two modules with one first owner are both named by it |
| `ArchitectureContract.FirstOwnerUnique` | src/core/architecture.ts:325-335 | that owner is unique |
| `ArchitectureContract.EverySourceHasOneModule` | src/core/architecture.ts:404-414 | in a nontrivial plan every source output of a CODE step, package markers aside, belongs to exactly one module |
| `ArchitectureContract.ModulesBuiltThenTested` | src/core/architecture.ts:347-381 | in a scheduled run of an accepted plan a module's first owner runs before its other owners and before a test that consumes all its tests |
| `PhaseProgress.AdvancePhasePlan` | src/core/phase_plan.ts:167-200 | the method completes the current phase, starts the first ready planned one, or fails with the code's three errors |
| `PhaseProgress.AdvanceKeeps` | src/core/phase_plan.ts:176-198 | a call keeps at most one current phase, the named one, moves exactly the completed and the started phase, and leaves current and complete phases grounded in complete ones if they were |
| `PhaseProgress.StartsFirstReady` | src/core/phase_plan.ts:178-187 | the started phase is the first in the list that is planned and waits for nothing |
| `PhaseProgress.BlockedExactly` | src/core/phase_plan.ts:178-186 | a call throws exactly when phases are planned and each of them waits for one that is not done |
| `PhaseProgress.RunCounts` | src/core/phase_plan.ts:167-200 | a run that does not throw takes the planned count plus one calls and completes the current and then every planned phase |
| `PhaseProgress.EachPhaseOnce` | src/core/phase_plan.ts:167-200 | no phase is completed twice |
| `PhaseProgress.RunRespectsDependencies` | src/core/phase_plan.ts:178-187 | each phase is completed after all its dependencies |
| `PhaseProgress.RunEndsIffRunnable` | src/core/phase_plan.ts:178-187 | the run reaches its end exactly when planned dependencies are acyclic and lie among complete, current or planned phases |
| `RwLock.ReadWriteLock.AcquireRead` | src/core/rwlock.ts:49-57 | the fields change as the reader's fast path or queueing says |
| `RwLock.ReadWriteLock.AcquireReadResumed` | src/core/rwlock.ts:57-58 | a granted reader counts itself only when it resumes |
| `RwLock.ReadWriteLock.AcquireWrite` | src/core/rwlock.ts:66-71 | the fields change as the writer's fast path or queueing says |
| `RwLock.ReadWriteLock.AcquireWriteResumed` | src/core/rwlock.ts:71-72 | a granted writer takes the lock only when it resumes |
| `RwLock.ReadWriteLock.ReleaseRead` | src/core/rwlock.ts:61-64 | the last reader out admits the next waiters |
| `RwLock.ReadWriteLock.ReleaseWrite` | src/core/rwlock.ts:75-78 | the writer out admits the next waiters |
| `RwLock.BooksAlwaysBalance` | src/core/rwlock.ts:49-88 | in every run the counters match who is inside, and queues and grants partition the waiters |
| `RwLock.NoLostWakeup` | src/core/rwlock.ts:61-88 | with nobody inside and no grant outstanding both queues are empty |
| `RwLock.ReadersWaitForWriters` | src/core/rwlock.ts:80-88 | in every run a reader waits only while a writer holds the lock, waits or is granted, so readers are let in together |
| `RwLock.EveryGrantIsRight` | src/core/rwlock.ts:61-88 | only a release grants, and it grants the first waiting writer alone, or all readers where no writer waits |
| `RwLock.GrantsAreFifo` | src/core/rwlock.ts:80-88 | waiters are granted in order of arrival, each at most once |
| `RwLock.NoWriterStarvation` | src/core/rwlock.ts:50-57 | while a writer waits, only readers already granted enter |
| `RwLock.ExclusionIffHazardFree` | src/core/rwlock.ts:53-88 | a run never overlaps, even if granted waiters resume at any point, exactly when it contains none of three hazards a caller can see beforehand |
| `RwLock.PromptResumeExcludes` | src/core/rwlock.ts:53-88 | where granted waiters resume before any fresh acquire, a writer inside never coexists with anybody |
| `RwLock.OverlapWitness` | src/core/rwlock.ts:66-86 | a five-event run puts two writers inside |
| `RwLock.EagerGrantsExclude` | src/core/rwlock.ts:80-88 | recording the grant in `admitNext` excludes under every schedule |
| `AcpServerObject.AcpServer.RequestClient` | src/acp/server.ts:380-475 | a request enters both tables before the task's status changes; where the change is refused the waiter is rejected at once and both tables keep it |
| `AcpServerObject.AcpServer.DispatchClientResponse` | src/acp/server.ts:501-527 | an answer leaves the server's table, then the session's, and resumes the waiting task |
| `AcpServerObject.RejectIn` | src/acp/session.ts:102-118 | one table loop drops and reports exactly the task's requests |
| `AcpServerObject.AcpServer.StopTask` | src/acp/server.ts:225-240 | aborting a task empties its entries from all tables and rejects each waiter |
| `AcpServerObject.AcpServer.CancelTask` | src/acp/server.ts:213-241 | cancellation marks, checks the transition, then aborts and rejects; refused transitions leave only the mark |
| `AcpServerObject.AcpServer.CloseSession` | src/acp/session.ts:28-37 | close rejects every waiter and forgets the session, not the server's table |
| `AcpServerObject.AcpServer.ResumeAfterBuild` | src/acp/server.ts:243-320 | the segment after the build starts the run only for an uncancelled task with a plan |
| `AcpServerObject.AcpServer.ResumeAfterRun` | src/acp/server.ts:243-320 | the segment after the run finishes the task |
| `AcpRuns.TablesAlwaysAgree` | src/acp/server.ts:403-475 | in every reachable state each open session's tables list exactly the server's pending requests of that session and kind, and a waiter is settled once at its asking if that was refused, and once more when it leaves the tables |
| `AcpRuns.ResponseOutcome` | src/acp/server.ts:501-527 | an answer never raises the missing-request error; it settles its waiter exactly when the session is open, for the first time exactly when the asking was not refused, and otherwise reports the session |
| `AcpRuns.SettledStays` | src/acp/session.ts:66-118 | a waiter that has left the tables never comes back, and is settled at most once, or twice if its asking was refused |
| `AcpRuns.ListedYetSettledIffRefused` | src/acp/session.ts:66-90 | at any later time a waiter of an open session is listed and settled already exactly when the task's status refused its asking |
| `AcpRuns.RefusedWitness` | src/acp/session.ts:66-90 | a run with such a waiter: a task whose cancellation was accepted asks its build question |
| `AcpRuns.LateAnswerWitness` | src/acp/session.ts:28-37 | a run in which a late answer finds the server's entry but no session |
| `AcpRuns.TasksAlwaysConsistent` | src/acp/task_state.ts:4-51 | where the prompt is suspended decides phase and possible statuses in every run |
| `AcpRuns.AcceptedMarks` | src/acp/server.ts:213-241 | an accepted cancellation marks and aborts the task and clears its requests |
| `AcpRuns.CancellationIsFinal` | src/acp/server.ts:213-320 | in every continuation the task is never again running, waiting or completed, `runtime.run` is not started, and a finished prompt is cancelled and complete |
| `AcpRuns.CancelAcceptedIff` | src/acp/server.ts:213-241 | a cancellation is accepted exactly for a task whose prompt has not finished |
| `AcpRuns.AcceptedCancellationIsFinal` | src/acp/server.ts:213-320 | a cancellation accepted at any point of a run is final in every continuation: the task stays marked and aborted and its run is not started |
| `AcpOutcomes.PromptStarts` | src/acp/session.ts:43-57 | a prompt starts a running task in the build phase, the latest of its session, and touches nothing else |
| `AcpOutcomes.BuildOutcome` | src/acp/server.ts:255-293 | after the build: cancelled if a cancellation was accepted; without a plan cancelled if stopped, else failed; with a plan and no automatic run completed exactly when running; otherwise, and only then, the run starts |
| `AcpOutcomes.RunOutcome` | src/acp/server.ts:306-312 | after the run: cancelled if a cancellation was accepted, else completed exactly when the run succeeded and the task was running, else failed |
| `AcpOutcomes.ThrowOutcome` | src/acp/server.ts:203-209 | an exception ends the prompt, cancelled if a cancellation was accepted and failed otherwise |
| `AcpOutcomes.SegmentsTouchOneTask` | src/acp/server.ts:243-320 | a segment of one prompt leaves every other task, and all tables, as they were |
| `AcpOutcomes.FinishedStays` | src/acp/task_state.ts:4-28 | in every continuation a finished prompt stays as it is, the mark of a late cancellation aside |
| `AcpOutcomes.AskedStatus` | src/acp/session.ts:66-90 | a running task that asks waits for a confirmation or a permission, after what it asks for |
| `AcpOutcomes.AskedAndAnswered` | src/acp/session.ts:66-100 | asking and answering in an open session leave every session, task and table as they were, and settle the waiter once |
| `AcpOutcomes.LatestActive` | src/acp/server.ts:213-222 | a cancellation that names no task is about the latest one whose prompt has not finished |
| `AcpOutcomes.CancelLeavesOthers` | src/acp/session.ts:102-118 | a cancellation leaves the requests of all other tasks listed, pending and unsettled |
| `AcpOutcomes.CloseSettlesAll` | src/acp/session.ts:28-37 | closing settles every waiter the session still has |
| `AcpOutcomes.AskedAfterCloseHangs` | src/acp/session.ts:28-37 | a request asked after its session was closed is settled in no continuation, unless the task's status refused it at once |
| `AcpOutcomes.AskedAfterCloseWitness` | src/acp/session.ts:28-37 | a run with such a request |
| `Executor.GenerationGuard.RunAction` | src/agents/executor.ts:905-1102 | one action moves the generations and the failure record as the guard, permission and result branches say |
| `Executor.GenerationGuard.RunActions` | src/agents/executor.ts:905-1102 | the action loop: it stops at the first entry that ends the round, a failed test run of a test phase that is not advisory and no missing manifest, and nowhere else |
| `Executor.VerifiedMeansVerified` | src/agents/executor.ts:346-351 | in every run baseline is at most verified is at most mutation; verified is current exactly when no relevant mutation followed the last successful verification, baseline exactly when a passed test run had none since |
| `Executor.GenerationCountsChanges` | src/agents/executor.ts:1039-1055 | in every run the mutation generation is the number of actions that changed files, told tool by tool |
| `Executor.FateFromHistory` | src/agents/executor.ts:905-1030 | in every run the history decides whether an action is reused, refused as a duplicate, not allowed, denied or executed |
| `Executor.ReuseIsJustified` | src/agents/executor.ts:905-922 | a test run is skipped exactly when the history contains a passed one with no relevant mutation since |
| `Executor.NoRepeatedFailure` | src/agents/executor.ts:923-949 | within one generation a verification that failed with a message is never executed again with the same arguments |
| `Executor.RepeatRunsIffMessageEmpty` | src/agents/executor.ts:926-949 | after an owned failure the same request runs again exactly when the failure text was empty |
| `Executor.HardLimit` | src/agents/executor.ts:333 | the hard limit leaves four to twelve extra rounds, two for each missing output in between |
| `Executor.RoundGoesOn` | src/agents/executor.ts:546-552 | exactly when a round is followed by another, and by how much each kind of round moves the limit |
| `Executor.RoundBounds` | src/agents/executor.ts:546-552 | a round moves on by one or stops; the limit only grows and stays within the hard limit |
| `Executor.RunRounds` | src/agents/executor.ts:333-382 | the loop ends, within a hard limit of at most twelve extra rounds, whatever the rounds do |
| `Executor.TwoRejectionsStop` | src/agents/executor.ts:542-552 | two rejected responses in a row end the run |
| `DebugWiki.Store.Load` | src/core/debug_wiki.ts:164-183 | loading replays the log over the pages, quarantines merged solutions, and persists the writable tier if one was |
| `DebugWiki.Store.ApplyFeedbackLog` | src/core/debug_wiki.ts:355-374 | the log loop computes each page's replay and throws exactly where a transition is refused |
| `DebugWiki.Store.Persist` | src/core/debug_wiki.ts:408-419 | only writable entries are written back |
| `DebugWiki.Store.Record` | src/core/debug_wiki.ts:197-250 | uses and failures touch the live entries, log the shared ones, then persist |
| `DebugWiki.Store.RecordResolution` | src/core/debug_wiki.ts:252-306 | a resolution revises its ticket's entries in list order or creates one, and corrects the shared ones; a superseded target stops it with the earlier ones revised |
| `DebugWiki.OpsKeepSync` | src/core/debug_wiki.ts:197-306 | every operation that does not break keeps live entries, pages and log in agreement, superseded entries and stale log lines included |
| `DebugWiki.ReplayAgreesWithLive` | src/core/debug_wiki.ts:164-374 | open a store that loads and whose log names no writable page: after any operations that do not break, a fresh load gives every entry the live stats, time and last feedback, and the live status exactly when it is not an active merged solution |
| `DebugWiki.MergedIffNew` | src/core/debug_wiki.ts:821-826 | merging changes a solution exactly when the text says something new, and merging the same text twice is merging it once |
| `DebugWiki.MergedTwiceIsThreeParts` | src/core/debug_wiki.ts:828-830 | a solution counts as merged exactly when the mark splits it into more than two parts |
| `DebugWiki.ThirdTextMerges` | src/core/debug_wiki.ts:821-830 | with the program's own merging: the third text that says something new makes the solution count as merged |
| `DebugWiki.ThirdConfirmationQuarantined` | src/core/debug_wiki.ts:164-306 | a ticket that confirms three texts, each new, in an empty store: its entry is active live and under review after a load |
| `DebugWiki.QuarantineWitness` | src/core/debug_wiki.ts:164-306 | such a run with three concrete texts |
| `DebugWiki.LoadThrowsIff` | src/core/debug_wiki.ts:355-374 | a load throws exactly when a logged failure or correction names a page that is superseded on disk |
| `DebugWiki.RecordThrowsIff` | src/core/debug_wiki.ts:197-250 | recorded feedback throws exactly when it asks a superseded entry for a new status; a plain use never does |
| `DebugWiki.ResolveThrowsIff` | src/core/debug_wiki.ts:252-306 | a resolution throws exactly when it would revise a superseded entry of its ticket or correct a superseded shared one |
| `DebugWiki.OpKeepsSyncIff` | src/core/debug_wiki.ts:197-306 | one operation leaves a load in step exactly when it does not throw after changing something, a condition read off the state it starts in |
| `DebugWiki.InStepIffUnbroken` | src/core/debug_wiki.ts:164-374 | a run is in step with a fresh load all along exactly when none of its operations breaks |
| `DebugWiki.ReplayCounts` | src/core/debug_wiki.ts:355-374 | a replayed entry counts each log item that names it once on top of its page |
| `DebugWiki.TierChangeCountsTwice` | src/core/debug_wiki.ts:408-430 | a run in which moving a tier to writable counts a logged use again |
| `DebugWiki.PersistedCountsIff` | src/core/debug_wiki.ts:355-419 | an entry the writable tier has persisted loads with its live counts exactly when no log line names it |
| `DebugWiki.SupersededDiverges` | src/core/debug_wiki.ts:224-238 | a failure on a superseded entry is counted live, then throws before it is logged or persisted |
| `WikiOutcomes.RecordedEffect` | src/core/debug_wiki.ts:197-250 | feedback that does not throw puts the entries it names under review if it is a failure, changes no status if it is a use, counts once, and leaves all others alone |
| `WikiOutcomes.RecordedLog` | src/core/debug_wiki.ts:421-430 | exactly the items on named entries outside the writable tier are appended to the log, each once |
| `WikiOutcomes.FailureMeansReview` | src/core/debug_wiki.ts:224-374 | after any operations that do not break, a recorded failure leaves each entry it names under review, live and after a fresh load |
| `WikiOutcomes.FailureStops` | src/core/debug_wiki.ts:224-238 | a failure stops at the first superseded entry it names: those before it are under review, it is only counted, those after it are untouched, and neither log nor pages change |
| `WikiOutcomes.ResolutionStops` | src/core/debug_wiki.ts:252-271 | a resolution whose ticket owns a superseded entry throws after revising exactly the ticket's entries listed before it, and changes neither log nor pages |
| `WikiOutcomes.ResolvedEffect` | src/core/debug_wiki.ts:252-406 | a resolution that does not throw makes its ticket's entries active with the new or merged text, makes the shared entries it used active, and leaves all others alone |
| `WikiOutcomes.ResolvedCreates` | src/core/debug_wiki.ts:271-279 | it adds an entry of its own exactly when the ticket had none |
| `WikiOutcomes.LastVerdictDecides` | src/core/debug_wiki.ts:355-374 | the last logged failure or correction of a page decides its replayed status |
| `WikiOutcomes.ReplayKeepsTwenty` | src/core/debug_wiki.ts:833-836 | a replayed entry shows the last twenty items of its page and the log |
| `CommentStripper.StripCommentsAndStrings` | src/core/paired_test_contract.ts:481-547 | the loop with its lookahead computes the scan |
| `CommentStripper.StripOverlays` | src/core/paired_test_contract.ts:481-547 | length and every newline position stay; each output character is the input's or a space |
| `CommentStripper.StripLeavesNoMarkers` | src/core/paired_test_contract.ts:521-544 | no quote, backtick or hash is left, nor two characters that start a comment |
| `CommentStripper.StripFixedPoints` | src/core/paired_test_contract.ts:481-547 | exactly the texts without markers are left alone, so stripping twice equals stripping once |
| `CommentStripper.StripBlanksTokens` | src/core/paired_test_contract.ts:481-547 | against a grammar of plain characters, string literals and comments: exactly the plain characters survive, in place |
| `QualityGate.EvaluateQualityGate` | src/core/quality_gate.ts:219-303 | passes exactly when the policy is met; every finding is reported as often as made, in exactly one list, dependency problems in none |
| `QualityGate.CompareRatio` | src/core/quality_gate.ts:337-354 | adds at most one failure, and none exactly when no threshold is set or the ratio is measured and within tolerance |
| `QualityGate.ImprovingKeepsPassing` | src/core/quality_gate.ts:219-303 | higher ratios, lower counts, fewer gaps or findings never turn a pass into a failure |
| `QualityInput.NormalizeQualityAssessment` | src/core/quality_gate.ts:114-168 | a report is refused exactly when it is no record or a prose list or the findings have the wrong shape; otherwise its ratios lie between 0 and 1 and its lists hold distinct trimmed texts |
| `QualityInput.AcceptedMeans` | src/core/quality_gate.ts:114-138 | which reports are refused, field by field, with the second names of two lists and of the findings |
| `QualityInput.NormalizeTwice` | src/core/quality_gate.ts:114-138 | normalising a normalised report again accepts it and changes nothing |

## Left out

- PlanLint.LintPlan: does not model the rules on dependency manifests, phase purity, prompts, canonical documents, architecture demand, complexity and verification gates (src/core/lint.ts:210-330, 398-512), which read prose or file names only; the architecture contract the lint calls is modelled on its own.
- PlanLint.LintOutputs: requires step ids to be nonempty, as the plan schema does, because the code tests the owner for truthiness.
- PlanLint.LintInputs: requires step ids to be nonempty, for the same reason.
- TopoSort.Sort: models `localeCompare` as an injective rank; two distinct ids that a locale compares as equal are not modelled.
- TestPairing.PairOnePhase: leaves out delivery gates, prompts, acceptance texts and tool lists, which no modelled rule reads; aliasing between the copied steps and their groups becomes positions in one sequence.
- CoverageRepair.NewIdIsFresh: does not model that JavaScript numbers lose precision past 2^53 or render with an exponent past 10^21.
- CoverageRepair.CalibratePlanCoverage: leaves out titles and prompts of the new step; the report it outputs is an arbitrary function of the iteration, made concrete in `TestPaths`.
- TestPaths.SchemaRulesHold: lower-casing is that of ASCII letters, which decides the reserved words and the schema's ids; other letters of a path are left as they are.
- Calibration.CalibratedPlanAccepted: leaves out the glob, language and architecture adjustments the planner makes between the two passes.
- ArchitectureContract.ValidateArchitectureContract: takes "the joined sub-task text contains this token" as a parameter, and leaves demand estimation from prose to a flag.
- PhaseProgress.AdvancePhasePlan: leaves out timestamps and the plan paths; the builders of phase plans are adapters.
- AcpServerObject.AcpServer.RequestClient: leaves out that an ordinary interaction asked during the run phase is rejected before it reaches any table (src/acp/server.ts:389-393); covers interactions and permissions by their kind; what is asked and answered does not influence the tables.
- AcpRuns.TablesAlwaysAgree: covers more runs than the code has, because a task may ask for a permission in the build phase too (src/acp/server.ts:341-343 offers it in the run phase only).
- AcpServerObject.AcpServer.ResumeAfterBuild: takes the runtime's answers as arbitrary input; transport, JSON-RPC parsing and notifications are left out.
- Executor.RunRounds: a round is an arbitrary outcome of four kinds; prompts, stall detection and output verification decide which kind and are input.
- Executor.NoRepeatedFailure: holds for failures that left a text, which `RepeatRunsIffMessageEmpty` shows is the exact condition.
- DebugWiki.Store.RecordResolution: entries are keyed by id and carry one opaque body; the order of the entry list and the id of a new page are given with the resolution.
- DebugWiki.ReplayAgreesWithLive: `lastUsedAt` is live-only, so it is left out of the comparison; the index and the operation log are not modelled.
- QualityGate.EvaluateQualityGate: ratios are exact reals; the rendered messages are left out, and gap excuses are a parameter.
- QualityInput.NormalizeQualityAssessment: whether findings pass their schema is a parameter, and what the schema makes of them is not part of this model.
- `src/core/lock.ts`, configuration, CLI, i18n, prompts, sandboxes, file and process I/O: adapters whose behaviour is the environment's.
- Progress counts, health scores and report rendering: pure reports that no modelled rule reads.
