/** Normalising the quality assessment a model reports: what is accepted, what it becomes, and that twice is once. */
module QualityInput {
  import opened Basics
  import opened VModelDependencies

  /** A decoded JSON value; a field that is absent reads as `Undefined`. */
  datatype Value =
    | Undefined
    | Null
    | Number(value: real)
    | NotFinite
    | Text(text: string)
    | Array(items: seq<Value>)
    | Record(fields: map<string, Value>)
    | Other

  /** The findings are checked by a schema of their own and are not part of this record. */
  datatype Normal = Normal(
    completion: Option<real>,
    upstreamAlignment: Option<real>,
    metrics: map<string, real>,
    failedTests: nat,
    skippedTests: nat,
    warnings: nat,
    evidence: seq<string>,
    unavailableMetrics: seq<string>,
    gaps: seq<string>,
    blockedBy: seq<string>
  )

  /** The texts of a list, trimmed, without the blank ones. */
  function Texts(items: seq<Value>): (r: seq<string>)
    ensures forall x :: x in r ==> Trimmed(x)
  {
    if items == [] then []
    else
      var n := |items| - 1;
      if items[n].Text? && Trim(items[n].text) != [] then
        TrimTrims(items[n].text);
        Texts(items[..n]) + [Trim(items[n].text)]
      else Texts(items[..n])
  }

  function Strings(v: Value): (r: seq<string>)
    ensures CleanList(r)
  {
    if v.Array? then Dedup(Texts(v.items)) else []
  }

  ghost predicate CleanList(r: seq<string>) {
    NoDup(r) && forall x :: x in r ==> Trimmed(x)
  }

  function AsTexts(r: seq<string>): (items: seq<Value>)
    ensures |items| == |r| && forall i :: 0 <= i < |r| ==> items[i] == Text(r[i])
  {
    seq(|r|, i requires 0 <= i < |r| => Text(r[i]))
  }

  lemma {:induction false} CleanTexts(r: seq<string>)
    requires forall x :: x in r ==> Trimmed(x)
    ensures Texts(AsTexts(r)) == r
  {
    if r != [] {
      var n := |r| - 1;
      assert r == r[..n] + [r[n]];
      var items := AsTexts(r);
      assert items[..n] == AsTexts(r[..n]) && items[n] == Text(r[n]);
      forall x | x in r[..n] ensures Trimmed(x) { assert x in r; }
      CleanTexts(r[..n]);
      assert r[n] in r;
      TrimTrims(r[n]);
    }
  }

  lemma {:induction false} DistinctStay(r: seq<string>)
    requires NoDup(r)
    ensures Dedup(r) == r
  {
    if r != [] { DistinctStay(r[..|r| - 1]); }
  }

  lemma {:induction false} CleanListStays(r: seq<string>)
    requires CleanList(r)
    ensures Strings(Array(AsTexts(r))) == r
  {
    CleanTexts(r);
    DistinctStay(r);
  }

  // ---- Numbers --------------------------------------------------------------------------

  function Clamp(x: real): (r: real)
    ensures 0.0 <= r <= 1.0 && (0.0 <= x <= 1.0 ==> r == x)
  {
    if x < 0.0 then 0.0 else if x > 1.0 then 1.0 else x
  }

  function Ratio(v: Value): (r: Option<real>)
    ensures r.Some? <==> v.Number?
    ensures r.Some? ==> 0.0 <= r.value <= 1.0
  {
    if v.Number? then Some(Clamp(v.value)) else None
  }

  function Ratios(v: Value): map<string, real> {
    if v.Record? then map k | k in v.fields && v.fields[k].Number? :: Clamp(v.fields[k].value) else map[]
  }

  /** Cut towards zero, and never negative. */
  function CountOf(v: Value): nat {
    if v.Number? && v.value > 0.0 then v.value.Floor else 0
  }

  // ---- The record -----------------------------------------------------------------------

  function Field(v: Value, name: string): Value {
    if v.Record? && name in v.fields then v.fields[name] else Undefined
  }

  /** `a ?? b`. */
  function OrElse(a: Value, b: Value): Value {
    if a == Undefined || a == Null then b else a
  }

  /** The four prose lists, two of them under either of two names. */
  function Prose(v: Value, k: nat): Value
    requires k < 4
  {
    match k
    case 0 => Field(v, "evidence")
    case 1 => OrElse(Field(v, "unavailableMetrics"), Field(v, "unavailable_metrics"))
    case 2 => Field(v, "gaps")
    case _ => OrElse(Field(v, "blockedBy"), Field(v, "blocked_by"))
  }

  /** An absent list is fine; a present one must hold texts only. */
  predicate ListShape(v: Value) {
    v == Undefined || (v.Array? && forall i :: 0 <= i < |v.items| ==> v.items[i].Text?)
  }

  function Findings(v: Value): Value {
    OrElse(Field(v, "findings"), Field(v, "deliveryFindings"))
  }

  /** `schema` tells whether a findings value passes its schema. */
  predicate Accepted(schema: Value -> bool, v: Value) {
    && v.Record? && (forall k :: 0 <= k < 4 ==> ListShape(Prose(v, k)))
    && (Findings(v) == Undefined || schema(Findings(v)))
  }

  /** A list of texts. */
  ghost predicate IsTexts(v: Value) {
    exists r: seq<string> :: v == Array(AsTexts(r))
  }

  lemma {:induction false} ListShapeIsTexts(v: Value)
    ensures ListShape(v) <==> v == Undefined || IsTexts(v)
  {
    if v.Array? && forall i :: 0 <= i < |v.items| ==> v.items[i].Text? {
      var r := seq(|v.items|, i requires 0 <= i < |v.items| => v.items[i].text);
      assert AsTexts(r) == v.items;
    }
  }

  /** The field says something: it is there, and not null. */
  predicate Says(v: Value, name: string) {
    v.Record? && name in v.fields && v.fields[name] != Null && v.fields[name] != Undefined
  }

  ghost predicate TextsIfPresent(v: Value, name: string)
    requires v.Record?
  {
    name in v.fields && v.fields[name] != Undefined ==> IsTexts(v.fields[name])
  }

  /** Which reports are refused, field by field; two lists and the findings may come under a second name. */
  lemma {:induction false} AcceptedMeans(schema: Value -> bool, v: Value)
    ensures Accepted(schema, v) <==>
      && v.Record?
      && TextsIfPresent(v, "evidence") && TextsIfPresent(v, "gaps")
      && TextsIfPresent(v, if Says(v, "unavailableMetrics") then "unavailableMetrics" else "unavailable_metrics")
      && TextsIfPresent(v, if Says(v, "blockedBy") then "blockedBy" else "blocked_by")
      && var findings := if Says(v, "findings") then "findings" else "deliveryFindings";
         (findings in v.fields && v.fields[findings] != Undefined ==> schema(v.fields[findings]))
  {
    hide ListShape, IsTexts;
    if v.Record? {
      forall k | 0 <= k < 4 ensures ListShape(Prose(v, k)) <==> Prose(v, k) == Undefined || IsTexts(Prose(v, k)) {
        ListShapeIsTexts(Prose(v, k));
      }
      assert ListShape(Prose(v, 0)) <==> TextsIfPresent(v, "evidence");
      assert ListShape(Prose(v, 2)) <==> TextsIfPresent(v, "gaps");
      assert ListShape(Prose(v, 1)) <==>
          TextsIfPresent(v, if Says(v, "unavailableMetrics") then "unavailableMetrics" else "unavailable_metrics");
      assert ListShape(Prose(v, 3)) <==> TextsIfPresent(v, if Says(v, "blockedBy") then "blockedBy" else "blocked_by");
      assert (forall k :: 0 <= k < 4 ==> ListShape(Prose(v, k))) <==>
          ListShape(Prose(v, 0)) && ListShape(Prose(v, 1)) && ListShape(Prose(v, 2)) && ListShape(Prose(v, 3));
    }
  }

  function Normalized(v: Value): Normal {
    var t := Field(v, "tolerance");
    Normal(
      Ratio(Field(v, "completion")), Ratio(Field(v, "upstreamAlignment")), Ratios(Field(v, "metrics")),
      CountOf(Field(t, "failedTests")), CountOf(Field(t, "skippedTests")), CountOf(Field(t, "warnings")),
      Strings(Prose(v, 0)), Strings(Prose(v, 1)), Strings(Prose(v, 2)), Strings(Prose(v, 3)))
  }

  method HasListShape(v: Value) returns (ok: bool)
    ensures ok <==> ListShape(v)
  {
    if !v.Array? {
      return v == Undefined;
    }
    for i := 0 to |v.items|
      invariant forall k :: 0 <= k < i ==> v.items[k].Text?
    {
      if !v.items[i].Text? {
        return false;
      }
    }
    return true;
  }

  /** Refused when a prose list or the findings have the wrong shape; otherwise every field is made regular. */
  method NormalizeQualityAssessment(schema: Value -> bool, v: Value) returns (r: Option<Normal>)
    ensures r.Some? <==> Accepted(schema, v)
    ensures r.Some? ==> r.value == Normalized(v) && Regular(r.value)
  {
    if !v.Record? {
      return None;
    }
    for k := 0 to 4
      invariant forall j :: 0 <= j < k ==> ListShape(Prose(v, j))
    {
      var ok := HasListShape(Prose(v, k));
      if !ok {
        return None;
      }
    }
    if Findings(v) != Undefined && !schema(Findings(v)) {
      return None;
    }
    return Some(Normalized(v));
  }

  predicate InUnit(x: Option<real>) {
    x.Some? ==> 0.0 <= x.value <= 1.0
  }

  /** Ratios between 0 and 1; lists of distinct trimmed texts. */
  ghost predicate Regular(n: Normal) {
    && InUnit(n.completion) && InUnit(n.upstreamAlignment)
    && (forall k :: k in n.metrics ==> 0.0 <= n.metrics[k] <= 1.0)
    && CleanList(n.evidence) && CleanList(n.unavailableMetrics) && CleanList(n.gaps) && CleanList(n.blockedBy)
  }

  // ---- Twice is once --------------------------------------------------------------------

  function OfRatio(x: Option<real>): Value {
    if x.Some? then Number(x.value) else Undefined
  }

  /** The normalised record written out again, with these findings. */
  function Rendered(n: Normal, findings: Value): Value {
    Record(map[
      "completion" := OfRatio(n.completion),
      "upstreamAlignment" := OfRatio(n.upstreamAlignment),
      "metrics" := Record(map k | k in n.metrics :: Number(n.metrics[k])),
      "tolerance" := Record(map[
        "failedTests" := Number(n.failedTests as real),
        "skippedTests" := Number(n.skippedTests as real),
        "warnings" := Number(n.warnings as real)]),
      "evidence" := Array(AsTexts(n.evidence)),
      "unavailableMetrics" := Array(AsTexts(n.unavailableMetrics)),
      "gaps" := Array(AsTexts(n.gaps)),
      "blockedBy" := Array(AsTexts(n.blockedBy)),
      "findings" := findings])
  }

  lemma {:induction false} RatiosStay(m: map<string, real>)
    requires forall k :: k in m ==> 0.0 <= m[k] <= 1.0
    ensures Ratios(Record(map k | k in m :: Number(m[k]))) == m
  {
  }

  lemma {:induction false} CountStays(n: nat)
    ensures CountOf(Number(n as real)) == n
  {
  }

  /** A regular record reads back as itself, whatever its findings. */
  lemma {:induction false} RegularReadsBack(n: Normal, findings: Value)
    requires Regular(n)
    ensures Normalized(Rendered(n, findings)) == n
  {
    hide Strings, AsTexts, Ratios, CountOf, CleanList;
    RatiosStay(n.metrics);
    CountStays(n.failedTests);
    CountStays(n.skippedTests);
    CountStays(n.warnings);
    CleanListStays(n.evidence);
    CleanListStays(n.unavailableMetrics);
    CleanListStays(n.gaps);
    CleanListStays(n.blockedBy);
  }

  /** Normalising what normalising made, with findings its schema takes, is accepted and changes nothing. */
  lemma {:induction false} NormalizeTwice(schema: Value -> bool, v: Value, findings: Value)
    requires Accepted(schema, v) && (findings == Undefined || findings == Null || schema(findings))
    ensures Normalized(Rendered(Normalized(v), findings)) == Normalized(v)
    ensures Accepted(schema, Rendered(Normalized(v), findings))
  {
    hide Strings, Ratios, CountOf, CleanList, Normalized;
    NormalizedIsRegular(v);
    RegularReadsBack(Normalized(v), findings);
    RenderedIsAccepted(schema, Normalized(v), findings);
  }

  lemma {:induction false} NormalizedIsRegular(v: Value)
    ensures Regular(Normalized(v))
  {
    hide Strings, CleanList, Prose;
  }

  lemma {:induction false} RenderedIsAccepted(schema: Value -> bool, n: Normal, findings: Value)
    requires findings == Undefined || findings == Null || schema(findings)
    ensures Accepted(schema, Rendered(n, findings))
  {
  }
}
