/** The executor's verification generations, its duplicate guard, and its round budget. */
module Executor {
  import opened Basics

  datatype Tool =
    | ApplyPatch
    | WriteFile
    | AppendFile
    | ReplaceInFile
    | HttpFetch
    | AddDependency
    | RunTests
    | RunProgram
    | OtherTool(name: string)

  /** `args` is the stable rendering of the arguments; the other fields are what the code reads of them. */
  datatype Action = Action(tool: Tool, args: string, savesFile: bool, hasContent: bool, targets: seq<string>)

  /** What a tool answered; `record` holds its data when that is a plain record. */
  datatype ToolResult = ToolResult(
    ok: bool,
    unowned: bool,
    manifestMissing: bool,
    error: Option<string>,
    summary: Option<string>,
    record: Option<Data>
  )

  datatype Data = Data(changed: Option<bool>, added: nat, updated: nat, changedFiles: Option<seq<string>>)

  /** `document` recognises the prose files under docs/. */
  datatype Config = Config(
    deferred: bool,
    allowed: set<Tool>,
    testPhase: bool,
    advisory: set<Tool>,
    document: string -> bool
  )

  predicate IsOutputMutationTool(t: Tool) {
    t == AddDependency || t == AppendFile || t == ApplyPatch || t == ReplaceInFile || t == WriteFile || t == HttpFetch
  }

  predicate IsVerificationTool(t: Tool) {
    t == RunProgram || t == RunTests
  }

  predicate DidPerformSuccessfulMutation(a: Action, r: ToolResult) {
    if !r.ok || !IsOutputMutationTool(a.tool) then false
    else if a.tool == HttpFetch then a.savesFile
    else if a.tool == WriteFile then r.record.None? || r.record.value.changed != Some(false)
    else if a.tool == AppendFile then a.hasContent
    else if a.tool != AddDependency then true
    else r.record.Some? && (r.record.value.added > 0 || r.record.value.updated > 0)
  }

  function ChangedFiles(a: Action, r: ToolResult): seq<string> {
    if a.tool == ApplyPatch then
      if r.record.Some? && r.record.value.changedFiles.Some? then r.record.value.changedFiles.value else []
    else if IsOutputMutationTool(a.tool) then a.targets
    else []
  }

  predicate MutationRequiresVerification(cfg: Config, a: Action, r: ToolResult) {
    if cfg.deferred then false
    else if a.tool == AddDependency then true
    else
      var files := ChangedFiles(a, r);
      files == [] || exists f :: f in files && !cfg.document(f)
  }

  function FailureMessage(r: ToolResult): string {
    if r.error.Some? then r.error.value else if r.summary.Some? then r.summary.value else "unknown error"
  }

  /** A verification request as the exact-duplicate guard keys it. */
  datatype Request = Request(generation: nat, tool: Tool, args: string)

  datatype Guard = Guard(mutation: nat, verified: int, baseline: int, failedExact: map<Request, string>)

  function Fresh(): Guard {
    Guard(0, 0, -1, map[])
  }

  datatype Fate = Reused | Duplicate | NotAllowed | Denied | Executed(result: ToolResult)

  /** One action of the run, with the generation it started in and what became of it. */
  datatype Entry = Entry(action: Action, generation: nat, fate: Fate)

  /** The outside world's answer to one action: a permission decision and, if it runs, a result. */
  datatype Answer = Answer(denied: bool, result: ToolResult)

  function FateOf(cfg: Config, g: Guard, a: Action, ans: Answer): Fate {
    var key := Request(g.mutation, a.tool, a.args);
    if a.tool == RunTests && g.baseline == g.mutation then Reused
    // The recorded message is tested for truth, so an empty one does not block.
    else if IsVerificationTool(a.tool) && key in g.failedExact && g.failedExact[key] != "" then Duplicate
    else if a.tool !in cfg.allowed then NotAllowed
    else if ans.denied then Denied
    else Executed(ans.result)
  }

  function AfterMutation(cfg: Config, g: Guard, a: Action, r: ToolResult): Guard {
    var relevant := MutationRequiresVerification(cfg, a, r);
    var next := g.mutation + 1;
    g.(mutation := next,
       verified := if g.mutation <= g.verified && !relevant then next else g.verified,
       baseline := if g.baseline == g.mutation && !relevant then next else g.baseline)
  }

  function AfterVerification(g: Guard, a: Action, r: ToolResult): Guard {
    var key := Request(g.mutation, a.tool, a.args);
    if r.ok then
      g.(failedExact := g.failedExact - {key},
         verified := g.mutation,
         baseline := if a.tool == RunTests then g.mutation else g.baseline)
    else if r.unowned then g
    else g.(failedExact := g.failedExact[key := FailureMessage(r)])
  }

  function AfterAction(cfg: Config, g: Guard, a: Action, f: Fate): Guard {
    match f
    case Executed(r) =>
      if DidPerformSuccessfulMutation(a, r) then AfterMutation(cfg, g, a, r)
      else if IsVerificationTool(a.tool) then AfterVerification(g, a, r)
      else g
    case _ => g
  }

  /** The whole history of a run and the guard it leaves. */
  datatype Run = Run(guard: Guard, entries: seq<Entry>)

  function Perform(cfg: Config, run: Run, a: Action, ans: Answer): Run {
    var f := FateOf(cfg, run.guard, a, ans);
    Run(AfterAction(cfg, run.guard, a, f), run.entries + [Entry(a, run.guard.mutation, f)])
  }

  function PerformAll(cfg: Config, run: Run, todo: seq<(Action, Answer)>): Run {
    if todo == [] then run
    else
      var n := |todo| - 1;
      Perform(cfg, PerformAll(cfg, run, todo[..n]), todo[n].0, todo[n].1)
  }

  /**
   * The test gate of a verification phase: the tests ran and failed, for another reason than a missing manifest, and
   * are not advisory.
   */
  ghost predicate EndsRound(cfg: Config, e: Entry) {
    && cfg.testPhase && RunTests !in cfg.advisory
    && e.action.tool == RunTests && e.fate.Executed? && !e.fate.result.ok && !e.fate.result.manifestMissing
  }

  /** The counters as fields, changed action by action as in the round loop. */
  class GenerationGuard {
    var mutationGeneration: nat
    var verifiedMutationGeneration: int
    var baselineTestVerifiedMutationGeneration: int
    var failedExactVerificationAttempts: map<Request, string>
    ghost var entries: seq<Entry>

    ghost function View(): Run
      reads this
    {
      Run(Guard(mutationGeneration, verifiedMutationGeneration, baselineTestVerifiedMutationGeneration,
                failedExactVerificationAttempts), entries)
    }

    constructor ()
      ensures View() == Run(Fresh(), [])
    {
      mutationGeneration, verifiedMutationGeneration, baselineTestVerifiedMutationGeneration := 0, 0, -1;
      failedExactVerificationAttempts := map[];
      entries := [];
    }

    /** One round's actions in order; a failed test gate of a verification phase ends the round early. */
    method RunActions(cfg: Config, todo: seq<(Action, Answer)>) returns (performed: nat)
      modifies this
      ensures performed <= |todo|
      ensures View() == PerformAll(cfg, old(View()), todo[..performed])
      ensures |View().entries| == |old(View()).entries| + performed
      ensures forall k :: |old(View()).entries| <= k < |View().entries| - 1 ==> !EndsRound(cfg, View().entries[k])
      ensures performed < |todo| ==> performed > 0 && EndsRound(cfg, View().entries[|View().entries| - 1])
    {
      performed := 0;
      assert todo[..0] == [];
      while performed < |todo|
        invariant performed <= |todo|
        invariant View() == PerformAll(cfg, old(View()), todo[..performed])
        invariant |View().entries| == |old(View()).entries| + performed
        invariant forall k :: |old(View()).entries| <= k < |View().entries| ==> !EndsRound(cfg, View().entries[k])
      {
        var a, ans := todo[performed].0, todo[performed].1;
        assert todo[..performed + 1][..performed] == todo[..performed];
        var fate := RunAction(cfg, a, ans);
        performed := performed + 1;
        if fate.Executed? && a.tool == RunTests && !fate.result.ok && !fate.result.manifestMissing &&
           cfg.testPhase && RunTests !in cfg.advisory {
          return;
        }
      }
    }

    method RunAction(cfg: Config, a: Action, ans: Answer) returns (fate: Fate)
      modifies this
      ensures View() == Perform(cfg, old(View()), a, ans)
      ensures View().entries == old(View()).entries + [Entry(a, old(mutationGeneration), fate)]
    {
      var generation := mutationGeneration;
      var key := Request(generation, a.tool, a.args);
      if a.tool == RunTests && baselineTestVerifiedMutationGeneration == mutationGeneration {
        fate := Reused;
      } else if IsVerificationTool(a.tool) && key in failedExactVerificationAttempts &&
          failedExactVerificationAttempts[key] != "" {
        fate := Duplicate;
      } else if a.tool !in cfg.allowed {
        fate := NotAllowed;
      } else if ans.denied {
        fate := Denied;
      } else {
        fate := Executed(ans.result);
        var r := ans.result;
        var successfulMutation := DidPerformSuccessfulMutation(a, r);
        if successfulMutation {
          var hadPendingVerification := mutationGeneration > verifiedMutationGeneration;
          var baselineWasVerified := baselineTestVerifiedMutationGeneration == mutationGeneration;
          var requiresExecutionVerification := MutationRequiresVerification(cfg, a, r);
          mutationGeneration := mutationGeneration + 1;
          if !hadPendingVerification && !requiresExecutionVerification {
            verifiedMutationGeneration := mutationGeneration;
          }
          if baselineWasVerified && !requiresExecutionVerification {
            baselineTestVerifiedMutationGeneration := mutationGeneration;
          }
        }
        if IsVerificationTool(a.tool) {
          if r.ok {
            failedExactVerificationAttempts := failedExactVerificationAttempts - {key};
            verifiedMutationGeneration := mutationGeneration;
            if a.tool == RunTests {
              baselineTestVerifiedMutationGeneration := mutationGeneration;
            }
          } else if !r.unowned {
            failedExactVerificationAttempts := failedExactVerificationAttempts[key := FailureMessage(r)];
          }
        }
      }
      entries := entries + [Entry(a, generation, fate)];
    }
  }

  // ---- What the history says ------------------------------------------------------------

  /** The action ran and wrote files: what each tool has to report for that. */
  ghost predicate ChangesFiles(e: Entry) {
    && e.fate.Executed? && e.fate.result.ok
    && var record := e.fate.result.record;
       match e.action.tool
       case ApplyPatch => true
       case ReplaceInFile => true
       case WriteFile => record.Some? ==> record.value.changed != Some(false)
       case AppendFile => e.action.hasContent
       case HttpFetch => e.action.savesFile
       case AddDependency => record.Some? && record.value.added + record.value.updated > 0
       case _ => false
  }

  /** The files are known, and all of them are prose. */
  ghost predicate OnlyProse(cfg: Config, e: Entry)
    requires e.fate.Executed?
  {
    var record := e.fate.result.record;
    if e.action.tool == ApplyPatch then
      && record.Some? && record.value.changedFiles.Some? && record.value.changedFiles.value != []
      && forall f :: f in record.value.changedFiles.value ==> cfg.document(f)
    else e.action.targets != [] && forall f :: f in e.action.targets ==> cfg.document(f)
  }

  /** A change that execution depends on, where verification is not deferred. */
  ghost predicate Relevant(cfg: Config, e: Entry) {
    ChangesFiles(e) && !cfg.deferred && (e.action.tool == AddDependency || !OnlyProse(cfg, e))
  }

  /** A run of the program or of the tests that succeeded. */
  ghost predicate Verifies(e: Entry) {
    e.fate.Executed? && e.fate.result.ok && (e.action.tool == RunProgram || e.action.tool == RunTests)
  }

  ghost predicate TestsPass(e: Entry) {
    e.fate.Executed? && e.fate.result.ok && e.action.tool == RunTests
  }

  lemma {:induction false} ToolsAgree(cfg: Config, e: Entry)
    requires e.fate.Executed?
    ensures DidPerformSuccessfulMutation(e.action, e.fate.result) <==> ChangesFiles(e)
    ensures ChangesFiles(e) ==>
      (MutationRequiresVerification(cfg, e.action, e.fate.result) <==> Relevant(cfg, e))
  {
  }

  /** No relevant mutation since the last successful verification, or since the start. */
  ghost predicate VerifiedByHistory(cfg: Config, h: seq<Entry>) {
    forall i :: 0 <= i < |h| && Relevant(cfg, h[i]) ==> exists j :: i < j < |h| && Verifies(h[j])
  }

  /** Some run of the tests passed and no relevant mutation followed it. */
  ghost predicate BaselineByHistory(cfg: Config, h: seq<Entry>) {
    exists j :: 0 <= j < |h| && TestsPass(h[j]) && forall i :: j < i < |h| ==> !Relevant(cfg, h[i])
  }

  lemma {:induction false} VerifiedAppend(cfg: Config, h: seq<Entry>, e: Entry)
    ensures VerifiedByHistory(cfg, h + [e]) <==> (Verifies(e) || (VerifiedByHistory(cfg, h) && !Relevant(cfg, e)))
  {
    var all := h + [e];
    assert all[|h|] == e;
    if Verifies(e) {
      forall i | 0 <= i < |all| && Relevant(cfg, all[i]) ensures exists j :: i < j < |all| && Verifies(all[j]) {
        assert Verifies(all[|h|]);
      }
    } else {
      if VerifiedByHistory(cfg, all) { VerifiedShrinks(cfg, h, e); }
      if VerifiedByHistory(cfg, h) && !Relevant(cfg, e) { VerifiedGrows(cfg, h, e); }
    }
  }

  lemma {:induction false} VerifiedShrinks(cfg: Config, h: seq<Entry>, e: Entry)
    requires !Verifies(e) && VerifiedByHistory(cfg, h + [e])
    ensures VerifiedByHistory(cfg, h) && !Relevant(cfg, e)
  {
    var all := h + [e];
    assert all[|h|] == e;
    forall i | 0 <= i < |h| && Relevant(cfg, h[i]) ensures exists j :: i < j < |h| && Verifies(h[j]) {
      assert Relevant(cfg, all[i]);
      var j :| i < j < |all| && Verifies(all[j]);
      assert Verifies(h[j]);
    }
  }

  lemma {:induction false} VerifiedGrows(cfg: Config, h: seq<Entry>, e: Entry)
    requires VerifiedByHistory(cfg, h) && !Relevant(cfg, e)
    ensures VerifiedByHistory(cfg, h + [e])
  {
    var all := h + [e];
    forall i | 0 <= i < |all| && Relevant(cfg, all[i]) ensures exists j :: i < j < |all| && Verifies(all[j]) {
      assert Relevant(cfg, h[i]);
      var j :| i < j < |h| && Verifies(h[j]);
      assert Verifies(all[j]);
    }
  }

  lemma {:induction false} BaselineAppend(cfg: Config, h: seq<Entry>, e: Entry)
    ensures BaselineByHistory(cfg, h + [e]) <==> (TestsPass(e) || (BaselineByHistory(cfg, h) && !Relevant(cfg, e)))
  {
    var all := h + [e];
    if TestsPass(e) {
      assert TestsPass(all[|h|]);
    } else {
      if BaselineByHistory(cfg, all) { BaselineShrinks(cfg, h, e); }
      if BaselineByHistory(cfg, h) && !Relevant(cfg, e) { BaselineGrows(cfg, h, e); }
    }
  }

  lemma {:induction false} BaselineShrinks(cfg: Config, h: seq<Entry>, e: Entry)
    requires !TestsPass(e) && BaselineByHistory(cfg, h + [e])
    ensures BaselineByHistory(cfg, h) && !Relevant(cfg, e)
  {
    var all := h + [e];
    var j :| 0 <= j < |all| && TestsPass(all[j]) && forall i :: j < i < |all| ==> !Relevant(cfg, all[i]);
    assert all[|h|] == e;
    forall i | j < i < |h| ensures !Relevant(cfg, h[i]) { assert !Relevant(cfg, all[i]); }
    assert TestsPass(h[j]);
  }

  lemma {:induction false} BaselineGrows(cfg: Config, h: seq<Entry>, e: Entry)
    requires BaselineByHistory(cfg, h) && !Relevant(cfg, e)
    ensures BaselineByHistory(cfg, h + [e])
  {
    var all := h + [e];
    var j :| 0 <= j < |h| && TestsPass(h[j]) && forall i :: j < i < |h| ==> !Relevant(cfg, h[i]);
    assert TestsPass(all[j]);
  }

  /** The counters say exactly what the history says. */
  ghost predicate CountersAgree(cfg: Config, run: Run) {
    var g := run.guard;
    && g.baseline <= g.verified <= g.mutation
    && (g.verified == g.mutation <==> VerifiedByHistory(cfg, run.entries))
    && (g.baseline == g.mutation <==> BaselineByHistory(cfg, run.entries))
  }

  lemma {:induction false} PerformKeepsCounters(cfg: Config, run: Run, a: Action, ans: Answer)
    requires CountersAgree(cfg, run)
    ensures CountersAgree(cfg, Perform(cfg, run, a, ans))
  {
    var f := FateOf(cfg, run.guard, a, ans);
    var e := Entry(a, run.guard.mutation, f);
    hide VerifiedByHistory, BaselineByHistory, DidPerformSuccessfulMutation, MutationRequiresVerification, OnlyProse;
    VerifiedAppend(cfg, run.entries, e);
    BaselineAppend(cfg, run.entries, e);
    if f.Executed? { ToolsAgree(cfg, e); }
  }

  ghost function CountChanges(h: seq<Entry>): nat {
    if h == [] then 0 else CountChanges(h[..|h| - 1]) + if ChangesFiles(h[|h| - 1]) then 1 else 0
  }

  /** In every run the mutation generation is the number of actions that changed files. */
  lemma {:induction false} GenerationCountsChanges(cfg: Config, todo: seq<(Action, Answer)>)
    ensures
      var run := PerformAll(cfg, Run(Fresh(), []), todo);
      run.guard.mutation == CountChanges(run.entries)
  {
    hide ChangesFiles, DidPerformSuccessfulMutation, MutationRequiresVerification, FateOf;
    if todo != [] {
      var n := |todo| - 1;
      GenerationCountsChanges(cfg, todo[..n]);
      var before := PerformAll(cfg, Run(Fresh(), []), todo[..n]);
      var f := FateOf(cfg, before.guard, todo[n].0, todo[n].1);
      var e := Entry(todo[n].0, before.guard.mutation, f);
      assert (before.entries + [e])[..|before.entries|] == before.entries;
      if f.Executed? { ToolsAgree(cfg, e); } else { NotRun(e); }
    }
  }

  lemma {:induction false} NotRun(e: Entry)
    requires !e.fate.Executed?
    ensures !ChangesFiles(e)
  {
  }

  /** Verified means verified, in every run from the start. */
  lemma {:induction false} VerifiedMeansVerified(cfg: Config, todo: seq<(Action, Answer)>)
    ensures CountersAgree(cfg, PerformAll(cfg, Run(Fresh(), []), todo))
  {
    if todo != [] {
      var n := |todo| - 1;
      VerifiedMeansVerified(cfg, todo[..n]);
      PerformKeepsCounters(cfg, PerformAll(cfg, Run(Fresh(), []), todo[..n]), todo[n].0, todo[n].1);
    }
  }

  /** A test run is skipped exactly when the history justifies it. */
  lemma {:induction false} ReuseIsJustified(cfg: Config, todo: seq<(Action, Answer)>, a: Action, ans: Answer)
    requires a.tool == RunTests
    ensures
      var run := PerformAll(cfg, Run(Fresh(), []), todo);
      FateOf(cfg, run.guard, a, ans) == Reused <==> BaselineByHistory(cfg, run.entries)
  {
    VerifiedMeansVerified(cfg, todo);
  }

  // ---- The duplicate guard --------------------------------------------------------------

  /** A verification that ran and failed for a reason the step owns. */
  predicate OwnedFailure(e: Entry) {
    && e.fate.Executed? && !e.fate.result.ok && !e.fate.result.unowned
    && (e.action.tool == RunProgram || e.action.tool == RunTests)
  }

  predicate SameRequest(e: Entry, f: Entry) {
    e.generation == f.generation && e.action.tool == f.action.tool && e.action.args == f.action.args
  }

  /** Generations only grow, and every owned failure of the current one that left a message is on record. */
  ghost predicate FailuresRecorded(run: Run) {
    && (forall i :: 0 <= i < |run.entries| ==> run.entries[i].generation <= run.guard.mutation)
    && (forall i :: 0 <= i < |run.entries| && Blocking(run.entries[i], run.guard.mutation) ==>
          Recorded(run.guard, run.entries[i].action))
  }

  /** An owned failure of this generation that left a message. */
  predicate Blocking(e: Entry, generation: nat) {
    OwnedFailure(e) && !NoText(e.fate.result) && e.generation == generation
  }

  ghost predicate Recorded(g: Guard, a: Action) {
    var key := Request(g.mutation, a.tool, a.args);
    key in g.failedExact && g.failedExact[key] != ""
  }

  lemma {:induction false} PerformKeepsRecords(cfg: Config, run: Run, a: Action, ans: Answer)
    requires FailuresRecorded(run)
    ensures FailuresRecorded(Perform(cfg, run, a, ans))
  {
    var next := Perform(cfg, run, a, ans);
    forall i | 0 <= i < |next.entries| && Blocking(next.entries[i], next.guard.mutation)
      ensures Recorded(next.guard, next.entries[i].action)
    {
      if i < |run.entries| {
        assert next.entries[i] == run.entries[i];
        assert next.guard.mutation == run.guard.mutation;
        assert Recorded(run.guard, run.entries[i].action);
      }
    }
  }

  lemma {:induction false} FailuresStayRecorded(cfg: Config, todo: seq<(Action, Answer)>)
    ensures FailuresRecorded(PerformAll(cfg, Run(Fresh(), []), todo))
  {
    if todo != [] {
      var n := |todo| - 1;
      FailuresStayRecorded(cfg, todo[..n]);
      PerformKeepsRecords(cfg, PerformAll(cfg, Run(Fresh(), []), todo[..n]), todo[n].0, todo[n].1);
    }
  }

  /** Nothing else is on record. */
  ghost predicate RecordsFailures(run: Run) {
    forall key :: key in run.guard.failedExact && run.guard.failedExact[key] != "" ==> FailedAs(run.entries, key)
  }

  /** Some owned failure with a message answered this request. */
  ghost predicate FailedAs(h: seq<Entry>, key: Request) {
    exists i :: 0 <= i < |h| && Blocking(h[i], key.generation) && h[i].action.tool == key.tool &&
                h[i].action.args == key.args
  }

  lemma {:induction false} FailedStays(h: seq<Entry>, e: Entry, key: Request)
    requires FailedAs(h, key)
    ensures FailedAs(h + [e], key)
  {
    var i :| 0 <= i < |h| && Blocking(h[i], key.generation) && h[i].action.tool == key.tool &&
        h[i].action.args == key.args;
    assert (h + [e])[i] == h[i];
  }

  lemma {:induction false} PerformRecordsFailures(cfg: Config, run: Run, a: Action, ans: Answer)
    requires RecordsFailures(run)
    ensures RecordsFailures(Perform(cfg, run, a, ans))
  {
    var next := Perform(cfg, run, a, ans);
    var e := next.entries[|run.entries|];
    forall key | key in next.guard.failedExact && next.guard.failedExact[key] != ""
      ensures FailedAs(next.entries, key)
    {
      if key in run.guard.failedExact && run.guard.failedExact[key] != "" {
        FailedStays(run.entries, e, key);
      } else {
        assert Blocking(next.entries[|run.entries|], key.generation);
      }
    }
  }

  lemma {:induction false} OnlyFailuresRecorded(cfg: Config, todo: seq<(Action, Answer)>)
    ensures RecordsFailures(PerformAll(cfg, Run(Fresh(), []), todo))
  {
    if todo != [] {
      var n := |todo| - 1;
      OnlyFailuresRecorded(cfg, todo[..n]);
      PerformRecordsFailures(cfg, PerformAll(cfg, Run(Fresh(), []), todo[..n]), todo[n].0, todo[n].1);
    }
  }

  /**
   * What becomes of the next action, in every run, told from the history: a test run is reused exactly when one has
   * passed and no relevant change followed; another verification is a duplicate exactly when the same request has
   * failed in this generation, for a reason the step owns and with a message; the rest runs if allowed and granted.
   */
  lemma {:induction false} FateFromHistory(cfg: Config, todo: seq<(Action, Answer)>, a: Action, ans: Answer)
    ensures
      var run := PerformAll(cfg, Run(Fresh(), []), todo);
      var verification := a.tool == RunProgram || a.tool == RunTests;
      FateOf(cfg, run.guard, a, ans) ==
        if a.tool == RunTests && BaselineByHistory(cfg, run.entries) then Reused
        else if verification && FailedAs(run.entries, Request(CountChanges(run.entries), a.tool, a.args)) then Duplicate
        else if a.tool !in cfg.allowed then NotAllowed
        else if ans.denied then Denied
        else Executed(ans.result)
  {
    hide BaselineByHistory, VerifiedByHistory, Blocking;
    VerifiedMeansVerified(cfg, todo);
    GenerationCountsChanges(cfg, todo);
    FailedIsRecorded(cfg, todo, a);
  }

  lemma {:induction false} FailedIsRecorded(cfg: Config, todo: seq<(Action, Answer)>, a: Action)
    ensures
      var run := PerformAll(cfg, Run(Fresh(), []), todo);
      Recorded(run.guard, a) <==> FailedAs(run.entries, Request(run.guard.mutation, a.tool, a.args))
  {
    FailuresStayRecorded(cfg, todo);
    OnlyFailuresRecorded(cfg, todo);
  }

  /**
   * Within one generation a verification that failed with a message is never executed again with the same arguments.
   */
  lemma {:induction false} NoRepeatedFailure(cfg: Config, todo: seq<(Action, Answer)>, i: nat, j: nat)
    requires i < j < |PerformAll(cfg, Run(Fresh(), []), todo).entries|
    ensures
      var h := PerformAll(cfg, Run(Fresh(), []), todo).entries;
      OwnedFailure(h[i]) && !NoText(h[i].fate.result) && SameRequest(h[i], h[j]) ==> !h[j].fate.Executed?
  {
    var n := |todo| - 1;
    var before := PerformAll(cfg, Run(Fresh(), []), todo[..n]);
    FailuresStayRecorded(cfg, todo[..n]);
    if j < |before.entries| {
      NoRepeatedFailure(cfg, todo[..n], i, j);
    }
  }

  /** The error text is empty, or there is none and the summary is empty. */
  predicate NoText(r: ToolResult) {
    r.error == Some("") || (r.error == None && r.summary == Some(""))
  }

  /**
   * The exact condition: after an owned failure, repeating the request runs it again if and only if the failure left
   * no text.
   */
  lemma {:induction false} RepeatRunsIffMessageEmpty(cfg: Config, run: Run, a: Action, r: ToolResult, again: Answer)
    requires FateOf(cfg, run.guard, a, Answer(false, r)) == Executed(r)
    requires IsVerificationTool(a.tool) && !r.ok && !r.unowned && !again.denied
    ensures
      var next := Perform(cfg, run, a, Answer(false, r));
      FateOf(cfg, next.guard, a, again) == if NoText(r) then Executed(again.result) else Duplicate
  {
  }

  // ---- The round budget -----------------------------------------------------------------

  function Min(a: int, b: int): int {
    if a < b then a else b
  }

  function Max(a: int, b: int): int {
    if a > b then a else b
  }

  function HardRoundLimit(maxRounds: int, initialMissing: nat): int {
    Max(maxRounds, maxRounds + Min(12, Max(4, initialMissing * 2)))
  }

  /**
   * What a round amounted to for the budget. `denials` counts refused permissions, `progress` stands
   * for the productivity tests at the end of a round, `finished` for every return and throw.
   */
  datatype Round =
    | LowQualityResponse
    | PlanMissing
    | Turn(denials: nat, finished: bool, progress: bool)

  /** The round counter, the current limit, and the run of rejected responses. */
  datatype Budget = Budget(round: int, limit: int, rejections: nat, stopped: bool)

  function ExtendByOne(b: Budget, hard: int): Budget {
    if b.round >= b.limit && b.limit < hard then b.(limit := Min(hard, b.limit + 1)) else b
  }

  function Deny(b: Budget, hard: int, n: nat): Budget {
    if n == 0 then b else ExtendByOne(Deny(b, hard, n - 1), hard)
  }

  /** One round under the limit. */
  function AfterRound(b: Budget, hard: int, r: Round): Budget {
    match r
    case LowQualityResponse =>
      var n := b.rejections + 1;
      if n < 2 && b.round < hard then
        var longer := if b.round >= b.limit then b.(limit := Min(hard, b.limit + 1)) else b;
        longer.(round := b.round + 1, rejections := n)
      else b.(rejections := n, stopped := true)
    case PlanMissing =>
      var longer := ExtendByOne(b.(rejections := 0), hard);
      if b.round < longer.limit then longer.(round := b.round + 1) else longer.(stopped := true)
    case Turn(denials, finished, progress) =>
      var asked := Deny(b.(rejections := 0), hard, denials);
      if finished then asked.(stopped := true)
      else
        var longer :=
          if asked.round >= asked.limit && asked.limit < hard &&
              progress then asked.(limit := Min(hard, asked.limit + 2))
          else asked;
        longer.(round := b.round + 1)
  }

  lemma {:induction false} DenyBounds(b: Budget, hard: int, n: nat)
    requires b.limit <= hard
    ensures var d := Deny(b, hard, n); d.round == b.round && b.limit <= d.limit <= hard && d.rejections == b.rejections
    ensures Deny(b, hard, n).stopped == b.stopped
  {
    if n > 0 { DenyBounds(b, hard, n - 1); }
  }

  /** A round moves on by one or stops, and moves the limit only up and never past the hard limit. */
  lemma {:induction false} RoundBounds(b: Budget, hard: int, r: Round)
    requires b.round <= b.limit <= hard && !b.stopped
    ensures
      var c := AfterRound(b, hard, r);
      && b.limit <= c.limit <= hard
      && (c.stopped ==> c.round == b.round)
      && (!c.stopped ==> c.round == b.round + 1)
      && (c.rejections == 0 || (r == LowQualityResponse && c.rejections == b.rejections + 1))
      && (!c.stopped ==> c.rejections < 2)
  {
    if r.Turn? { DenyBounds(b.(rejections := 0), hard, r.denials); }
  }

  /** The hard limit leaves four to twelve rounds beyond the nominal one, two for each missing output in between. */
  lemma {:induction false} HardLimit(maxRounds: int, missing: nat)
    ensures maxRounds + 4 <= HardRoundLimit(maxRounds, missing) <= maxRounds + 12
    ensures missing <= 2 ==> HardRoundLimit(maxRounds, missing) == maxRounds + 4
    ensures 2 <= missing <= 6 ==> HardRoundLimit(maxRounds, missing) == maxRounds + 2 * missing
    ensures missing >= 6 ==> HardRoundLimit(maxRounds, missing) == maxRounds + 12
  {
  }

  lemma {:induction false} DenialsExtendOnce(b: Budget, hard: int, n: nat)
    requires b.round <= b.limit <= hard
    ensures Deny(b, hard, n) ==
            if n > 0 && b.round == b.limit && b.limit < hard then b.(limit := b.limit + 1) else b
  {
    if n > 0 { DenialsExtendOnce(b, hard, n - 1); }
  }

  /**
   * When a run of rounds goes on, and how far: a rejected response is followed by one more round unless it is the
   * second in a row or the hard limit is reached; a missing plan too, unless the hard limit is reached; a turn ends the
   * run exactly when it finishes it, leaves a round after a refused permission while the hard limit allows it, and a
   * productive turn at the limit gains two more.
   */
  lemma {:induction false} RoundGoesOn(b: Budget, hard: int, r: Round)
    requires b.round <= b.limit <= hard && !b.stopped
    ensures
      var c := AfterRound(b, hard, r);
      match r
      case LowQualityResponse =>
        && (c.stopped <==> b.rejections >= 1 || b.round == hard)
        && c.limit == (if !c.stopped && b.round == b.limit then b.limit + 1 else b.limit)
      case PlanMissing =>
        && (c.stopped <==> b.round == hard)
        && c.limit == (if b.round == b.limit && b.limit < hard then b.limit + 1 else b.limit)
      case Turn(denials, finished, progress) =>
        && (c.stopped <==> finished)
        && c.limit == (if b.round < b.limit || b.limit == hard then b.limit
                       else if denials > 0 then b.limit + 1
                       else if finished || !progress then b.limit
                       else if b.limit + 2 <= hard then b.limit + 2 else hard)
  {
    if r.Turn? { DenialsExtendOnce(b.(rejections := 0), hard, r.denials); }
  }

  /** The budget after a run whose k-th round is `rounds(k)`. */
  function RunBudget(b: Budget, hard: int, rounds: int -> Round): (r: Budget)
    requires b.limit <= hard
    decreases hard - b.round, !b.stopped
  {
    if b.stopped || b.round > b.limit then b
    else
      RoundBounds(b, hard, rounds(b.round));
      RunBudget(AfterRound(b, hard, rounds(b.round)), hard, rounds)
  }

  /** The round loop; `rounds` is whatever the model and the tools make of each round. */
  method RunRounds(maxRounds: int, initialMissing: nat, rounds: int -> Round) returns (last: Budget)
    ensures last == RunBudget(Budget(1, maxRounds, 0, false), HardRoundLimit(maxRounds, initialMissing), rounds)
    ensures last.limit <= HardRoundLimit(maxRounds, initialMissing) <= maxRounds + 12
    ensures maxRounds <= last.limit
    ensures !last.stopped ==> last.round == Max(1, last.limit + 1)
    ensures last.stopped ==> 1 <= last.round <= last.limit
  {
    var hardRoundLimit := HardRoundLimit(maxRounds, initialMissing);
    last := Budget(1, maxRounds, 0, false);
    while !last.stopped && last.round <= last.limit
      invariant maxRounds <= last.limit <= hardRoundLimit
      invariant 1 <= last.round <= Max(1, last.limit + 1) && (last.stopped ==> last.round <= last.limit)
      invariant RunBudget(Budget(1, maxRounds, 0, false), hardRoundLimit, rounds) == RunBudget(last, hardRoundLimit,
          rounds)
      decreases hardRoundLimit - last.round, !last.stopped
    {
      RoundBounds(last, hardRoundLimit, rounds(last.round));
      last := AfterRound(last, hardRoundLimit, rounds(last.round));
    }
  }

  /** Two rejected responses in a row end the run. */
  lemma {:induction false} TwoRejectionsStop(b: Budget, hard: int)
    requires b.round <= b.limit <= hard && !b.stopped && b.rejections == 0
    ensures
      var once := AfterRound(b, hard, LowQualityResponse);
      once.stopped || (once.round <= once.limit && AfterRound(once, hard, LowQualityResponse).stopped)
  {
  }
}
