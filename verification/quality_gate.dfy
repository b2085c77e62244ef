/** The stage quality gate over exact ratios: where every shortfall is reported, and why improving never fails it. */
module QualityGate {
  import opened Basics
  import opened Plans

  datatype Category = TestDefect | ProductDefect | ChangeRequest | DependencyProblem | OtherCategory(name: string)

  datatype Finding = Finding(category: Category, summary: string)

  /** Counts are already normalised; an unmeasured ratio is `None`. */
  datatype Assessment = Assessment(
    completion: Option<real>,
    upstreamAlignment: Option<real>,
    metrics: map<string, real>,
    failedTests: nat,
    skippedTests: nat,
    warnings: nat,
    evidence: seq<string>,
    gaps: seq<string>,
    findings: seq<Finding>
  )

  /** The metric thresholds in the order the gate lists them; the two minimums may be left open. */
  datatype Policy = Policy(
    completionMin: Option<real>,
    upstreamAlignmentMin: Option<real>,
    metrics: seq<(string, real)>,
    shortfall: real,
    maxFailedTests: nat,
    maxSkippedTests: nat,
    maxWarnings: nat
  )

  datatype Failure =
    | NoAssessment
    | Missing(metric: string)
    | Below(metric: string)
    | FailedTests
    | SkippedTests
    | Warnings
    | NoEvidence
    | Gap(text: string)
    | Reported(finding: Finding)

  datatype Evaluation = Evaluation(passed: bool, enhancement: seq<Failure>, bug: seq<Failure>,
      changeRequest: seq<Failure>)

  predicate Develops(p: Phase) {
    PhaseOrder(p) < 4
  }

  /** A threshold that is not set asks for nothing, not even a measurement. */
  predicate Reaches(actual: Option<real>, threshold: Option<real>, shortfall: real) {
    threshold.Some? ==> actual.Some? && actual.value + shortfall >= threshold.value
  }

  function Metric(a: Assessment, name: string): Option<real> {
    if name in a.metrics then Some(a.metrics[name]) else None
  }

  predicate MetricReaches(p: Policy, a: Assessment, k: nat)
    requires k < |p.metrics|
  {
    Reaches(Metric(a, p.metrics[k].0), Some(p.metrics[k].1), p.shortfall)
  }

  predicate RatiosReach(phase: Phase, p: Policy, a: Assessment) {
    if phase in {RequirementAnalysis, HighLevelDesign, DetailedDesign, Code} then
      && Reaches(a.completion, p.completionMin, p.shortfall)
      && Reaches(a.upstreamAlignment, p.upstreamAlignmentMin, p.shortfall)
    else forall k :: 0 <= k < |p.metrics| ==> MetricReaches(p, a, k)
  }

  /** The gate is passed; `excused` tells the gaps that name a tool the step was not given. */
  ghost predicate Passes(phase: Phase, p: Policy, excused: string -> bool, a: Assessment) {
    && RatiosReach(phase, p, a)
    && a.failedTests <= p.maxFailedTests && a.skippedTests <= p.maxSkippedTests && a.warnings <= p.maxWarnings
    && a.evidence != []
    && (forall g :: g in a.gaps ==> excused(g))
    && (forall f :: f in a.findings ==> f.category == DependencyProblem)
  }

  predicate IsBug(f: Finding) {
    f.category == TestDefect || f.category == ProductDefect
  }

  predicate IsRequest(f: Finding) {
    f.category == ChangeRequest
  }

  predicate IsEnhancement(f: Finding) {
    f.category.OtherCategory?
  }

  function Select(findings: seq<Finding>, want: Finding -> bool): seq<Failure> {
    if findings == [] then []
    else
      var last := findings[|findings| - 1];
      Select(findings[..|findings| - 1], want) + if want(last) then [Reported(last)] else []
  }

  /** How often a finding is reported in a list of failures. */
  function Count(failures: seq<Failure>, f: Finding): nat {
    multiset(failures)[Reported(f)]
  }

  method CompareRatio(
    name: string, actual: Option<real>, threshold: Option<real>, shortfall: real, failures: seq<Failure>)
    returns (out: seq<Failure>)
    ensures failures <= out && |out| <= |failures| + 1
    ensures out == failures <==>
            threshold == None || (actual.Some? && threshold.value - shortfall <= actual.value)
    ensures forall x :: x in out[|failures|..] ==> !x.Reported?
  {
    if threshold.None? {
      return failures;
    }
    if actual.None? {
      return failures + [Missing(name)];
    }
    if actual.value + shortfall < threshold.value {
      return failures + [Below(name)];
    }
    return failures;
  }

  /** The ratio checks of the phase. */
  method CompareRatios(phase: Phase, p: Policy, a: Assessment) returns (failures: seq<Failure>)
    ensures failures == [] <==> RatiosReach(phase, p, a)
    ensures forall x :: x in failures ==> !x.Reported?
  {
    failures := [];
    if Develops(phase) {
      failures := CompareRatio("completion", a.completion, p.completionMin, p.shortfall, failures);
      failures := CompareRatio(
        "upstreamAlignment", a.upstreamAlignment, p.upstreamAlignmentMin, p.shortfall, failures);
      return;
    }
    for i := 0 to |p.metrics|
      invariant failures == [] <==> forall k :: 0 <= k < i ==> MetricReaches(p, a, k)
      invariant forall x :: x in failures ==> !x.Reported?
    {
      var (name, threshold) := p.metrics[i];
      var before := failures;
      failures := CompareRatio(name, Metric(a, name), Some(threshold), p.shortfall, before);
      assert failures == before <==> MetricReaches(p, a, i);
    }
  }

  method DeclaredGaps(gaps: seq<string>, excused: string -> bool) returns (failures: seq<Failure>)
    ensures failures == [] <==> forall g :: g in gaps ==> excused(g)
    ensures forall x :: x in failures ==> !x.Reported?
  {
    failures := [];
    for i := 0 to |gaps|
      invariant failures == [] <==> forall k :: 0 <= k < i ==> excused(gaps[k])
      invariant forall x :: x in failures ==> !x.Reported?
    {
      if !excused(gaps[i]) { failures := failures + [Gap(gaps[i])]; }
    }
  }

  /** Sorts the findings into the three lists. */
  method SortFindings(
    findings: seq<Finding>)
    returns (enhancement: seq<Failure>, bug: seq<Failure>, changeRequest: seq<Failure>)
    ensures enhancement == Select(findings, IsEnhancement) && bug == Select(findings, IsBug)
    ensures changeRequest == Select(findings, IsRequest)
  {
    enhancement, bug, changeRequest := [], [], [];
    for i := 0 to |findings|
      invariant enhancement == Select(findings[..i], IsEnhancement) && bug == Select(findings[..i], IsBug)
      invariant changeRequest == Select(findings[..i], IsRequest)
    {
      assert findings[..i + 1][..i] == findings[..i];
      var f := findings[i];
      if f.category == TestDefect || f.category == ProductDefect {
        bug := bug + [Reported(f)];
      } else if f.category == ChangeRequest {
        changeRequest := changeRequest + [Reported(f)];
      } else if f.category != DependencyProblem {
        enhancement := enhancement + [Reported(f)];
      }
    }
    assert findings[..|findings|] == findings;
  }

  lemma {:induction false} SelectNone(findings: seq<Finding>, want: Finding -> bool)
    ensures Select(findings, want) == [] <==> forall f :: f in findings ==> !want(f)
  {
    if findings != [] {
      var n := |findings| - 1;
      assert findings == findings[..n] + [findings[n]];
      SelectNone(findings[..n], want);
    }
  }

  lemma {:induction false} SelectCount(findings: seq<Finding>, want: Finding -> bool, f: Finding)
    ensures Count(Select(findings, want), f) == if want(f) then multiset(findings)[f] else 0
  {
    if findings != [] {
      var n := |findings| - 1;
      assert findings == findings[..n] + [findings[n]];
      SelectCount(findings[..n], want, f);
    }
  }

  /** A finding is reported as often as it was made, in exactly one list; dependency problems in none. */
  ghost predicate ReportedOnce(findings: seq<Finding>, e: Evaluation, f: Finding) {
    var made := multiset(findings)[f];
    var inBug, inRequest, inEnhancement := Count(e.bug, f), Count(e.changeRequest, f), Count(e.enhancement, f);
    match f.category
    case DependencyProblem => inBug == inRequest == inEnhancement == 0
    case ChangeRequest => inRequest == made && inBug == inEnhancement == 0
    case OtherCategory(_) => inEnhancement == made && inBug == inRequest == 0
    case _ => inBug == made && inRequest == inEnhancement == 0
  }

  lemma {:induction false} CountJoined(a: seq<Failure>, b: seq<Failure>, f: Finding)
    requires forall x :: x in a ==> !x.Reported?
    ensures Count(a + b, f) == Count(b, f)
  {
    assert Reported(f) !in a;
    assert multiset(a + b) == multiset(a) + multiset(b);
  }

  ghost predicate FindingsClear(findings: seq<Finding>) {
    forall f :: f in findings ==> f.category == DependencyProblem
  }

  /** The failures that do not come from findings. */
  method OwnFailures(
    phase: Phase, p: Policy, excused: string -> bool, a: Assessment)
    returns (own: seq<Failure>, bug: seq<Failure>)
    ensures own == [] && bug == [] && FindingsClear(a.findings) <==> Passes(phase, p, excused, a)
    ensures forall x :: x in own + bug ==> !x.Reported?
  {
    own := CompareRatios(phase, p, a);
    bug := if a.failedTests > p.maxFailedTests then [FailedTests] else [];
    if a.skippedTests > p.maxSkippedTests { own := own + [SkippedTests]; }
    if a.warnings > p.maxWarnings { own := own + [Warnings]; }
    if a.evidence == [] { own := own + [NoEvidence]; }
    var gaps := DeclaredGaps(a.gaps, excused);
    own := own + gaps;
  }

  lemma {:induction false} SortedClear(findings: seq<Finding>)
    ensures Select(findings, IsEnhancement) == [] && Select(findings, IsBug) == [] && Select(findings, IsRequest) == []
      <==> FindingsClear(findings)
  {
    SelectNone(findings, IsEnhancement);
    SelectNone(findings, IsBug);
    SelectNone(findings, IsRequest);
  }

  lemma {:induction false} SortedOnce(
    findings: seq<Finding>, own: seq<Failure>, bug: seq<Failure>, e: Evaluation, f: Finding)
    requires forall x :: x in own + bug ==> !x.Reported?
    requires e.enhancement == own + Select(findings, IsEnhancement) && e.bug == bug + Select(findings, IsBug)
    requires e.changeRequest == Select(findings, IsRequest)
    ensures ReportedOnce(findings, e, f)
  {
    SelectCount(findings, IsEnhancement, f);
    SelectCount(findings, IsBug, f);
    SelectCount(findings, IsRequest, f);
    CountJoined(own, Select(findings, IsEnhancement), f);
    CountJoined(bug, Select(findings, IsBug), f);
  }

  method EvaluateQualityGate(
    phase: Phase, p: Policy, excused: string -> bool, given: Option<Assessment>)
    returns (e: Evaluation)
    ensures e.passed <==> given.Some? && Passes(phase, p, excused, given.value)
    ensures e.passed <==> e.enhancement == [] && e.bug == [] && e.changeRequest == []
    ensures given.Some? ==> forall f :: ReportedOnce(given.value.findings, e, f)
  {
    if given.None? {
      return Evaluation(false, [NoAssessment], [], []);
    }
    var findings := given.value.findings;
    var own, bug := OwnFailures(phase, p, excused, given.value);
    var enhancement, defects, requests := SortFindings(findings);
    e := Evaluation(own + enhancement == [] && bug + defects == [] &&
        requests == [], own + enhancement, bug + defects, requests);
    SortedClear(findings);
    forall f ensures ReportedOnce(findings, e, f) {
      SortedOnce(findings, own, bug, e, f);
    }
  }

  /** A ratio that is measured stays measured and does not fall. */
  predicate NoLower(a: Option<real>, b: Option<real>) {
    a.Some? ==> b.Some? && b.value >= a.value
  }

  /** Ratios no lower, counts no higher, evidence still there, no new gap and no new finding. */
  ghost predicate Improves(a: Assessment, b: Assessment) {
    && NoLower(a.completion, b.completion) && NoLower(a.upstreamAlignment, b.upstreamAlignment)
    && (forall name :: NoLower(Metric(a, name), Metric(b, name)))
    && b.failedTests <= a.failedTests && b.skippedTests <= a.skippedTests && b.warnings <= a.warnings
    && (a.evidence != [] ==> b.evidence != [])
    && (forall g :: g in b.gaps ==> g in a.gaps) && (forall f :: f in b.findings ==> f in a.findings)
  }

  /** Improving an assessment never turns a pass into a failure. */
  lemma {:induction false} ImprovingKeepsPassing(
    phase: Phase, p: Policy, excused: string -> bool, a: Assessment, b: Assessment)
    requires Passes(phase, p, excused, a) && Improves(a, b)
    ensures Passes(phase, p, excused, b)
  {
    if !Develops(phase) {
      forall k | 0 <= k < |p.metrics| ensures MetricReaches(p, b, k) {
        assert MetricReaches(p, a, k);
        assert NoLower(Metric(a, p.metrics[k].0), Metric(b, p.metrics[k].0));
      }
    }
  }
}
