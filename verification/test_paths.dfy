/** The repository's own path rules, and the repair results for plans whose step ids match the plan schema. */
module TestPaths {
  import opened Basics
  import opened Plans
  import opened DependencyGraph
  import opened PlanLint
  import opened TestPairing
  import opened GeneratedNames
  import opened CoverageRepair
  import opened CoverageEffects
  import opened CoverageResults
  import opened CoverageNames
  import opened CoverageExemption
  import TopoSort

  // ---- The rules ------------------------------------------------------------------------

  function Slashed(path: string): (r: string)
    ensures |r| == |path| && forall i :: 0 <= i < |r| ==> r[i] == if path[i] == '\\' then '/' else path[i]
  {
    seq(|path|, i requires 0 <= i < |path| => if path[i] == '\\' then '/' else path[i])
  }

  function SkipSlashes(s: string): string {
    if s != [] && s[0] == '/' then SkipSlashes(s[1..]) else s
  }

  /** Slashes one way; a leading `./`, with all its slashes, is dropped. */
  function Normalized(path: string): string {
    var s := Slashed(path);
    if StartsWith(s, "./") then SkipSlashes(s[1..]) else s
  }

  function LowerChar(c: char): char {
    if 'A' <= c <= 'Z' then ((c as int) + 32) as char else c
  }

  /** Lower-casing, for the letters the reserved words and the schema's ids are made of. */
  function Lower(s: string): (r: string)
    ensures |r| == |s| && forall i :: 0 <= i < |r| ==> r[i] == LowerChar(s[i])
  {
    seq(|s|, i requires 0 <= i < |s| => LowerChar(s[i]))
  }

  predicate HasCodeExtension(path: string, typescript: bool) {
    if typescript then EndsWith(path, ".ts") || EndsWith(path, ".tsx") else EndsWith(path, ".py")
  }

  predicate IsExecutableTestPath(path: string, typescript: bool) {
    var n := Normalized(path);
    StartsWith(n, "tests/") && !EndsWith(n, "/") && HasCodeExtension(n, typescript)
  }

  /** The word stands at position `i` and is followed by a separator. */
  predicate WordAt(s: string, i: nat, word: string) {
    && i + |word| < |s| && s[i..i + |word|] == word
    && (s[i + |word|] == '/' || s[i + |word|] == '.' || s[i + |word|] == '_' || s[i + |word|] == '-')
  }

  /** Some path segment starts with one of the reserved words. */
  predicate NamesSupplement(s: string) {
    exists i :: 0 <= i < |s| && (i == 0 || s[i - 1] == '/') &&
                (WordAt(s, i, "supplement") || WordAt(s, i, "supplements") || WordAt(s, i, "supplemental"))
  }

  predicate IsRuntimeOwnedPath(path: string) {
    var n := Lower(Normalized(path));
    StartsWith(n, "tests/") && (StartsWith(n, "tests/verification/") || NamesSupplement(n[6..]))
  }

  function UnitTestDoc(iteration: string): string {
    if iteration == "P1" then "docs/05-unit-test.md" else "docs/iterations/" + iteration + "/05-unit-test.md"
  }

  function LanguageRules(typescript: bool): CoverageRules {
    CoverageRules(
      Rules(p => IsExecutableTestPath(p, typescript), p => IsRuntimeOwnedPath(p), s => Lower(s), typescript),
      p => HasCodeExtension(p, typescript),
      it => UnitTestDoc(it))
  }

  // ---- The rules, spelled out -----------------------------------------------------------

  predicate IsReservedWord(word: string) {
    word == "supplement" || word == "supplements" || word == "supplemental"
  }

  /** `word` starts a path segment, and a separator follows it. */
  ghost predicate SegmentStarts(s: string, before: string, word: string, after: string) {
    && s == before + (word + after)
    && (before == [] || before[|before| - 1] == '/') && after != [] && after[0] in "/._-"
  }

  /** Some segment of the path starts with a reserved word that a separator follows. */
  lemma {:induction false} SupplementMeans(s: string)
    ensures NamesSupplement(s) <==>
            exists before, word, after :: SegmentStarts(s, before, word, after) && IsReservedWord(word)
  {
    hide NamesSupplement, SegmentStarts, IsReservedWord;
    if NamesSupplement(s) { var before, word, after := FindSegment(s); }
    if before, word, after :| SegmentStarts(s, before, word, after) && IsReservedWord(word) {
      SegmentNames(s, before, word, after);
    }
  }

  lemma {:induction false} FindSegment(s: string) returns (before: string, word: string, after: string)
    requires NamesSupplement(s)
    ensures SegmentStarts(s, before, word, after) && IsReservedWord(word)
  {
    hide WordAt, SegmentStarts;
    var i :| 0 <= i < |s| && (i == 0 || s[i - 1] == '/') &&
        (WordAt(s, i, "supplement") || WordAt(s, i, "supplements") || WordAt(s, i, "supplemental"));
    word := if WordAt(s, i, "supplement") then "supplement"
            else if WordAt(s, i, "supplements") then "supplements" else "supplemental";
    WordStarts(s, i, word);
    before, after := s[..i], s[i + |word|..];
  }

  lemma {:induction false} SegmentNames(s: string, before: string, word: string, after: string)
    requires SegmentStarts(s, before, word, after) && IsReservedWord(word)
    ensures NamesSupplement(s)
  {
    hide WordAt, SegmentStarts;
    StartsWord(s, before, word, after);
  }

  lemma {:induction false} WordStarts(s: string, i: nat, word: string)
    requires i < |s| && WordAt(s, i, word) && (i == 0 || s[i - 1] == '/')
    ensures i + |word| <= |s| && SegmentStarts(s, s[..i], word, s[i + |word|..])
  {
    WordSplits(s, i, word);
  }

  lemma {:induction false} StartsWord(s: string, before: string, word: string, after: string)
    requires SegmentStarts(s, before, word, after)
    ensures WordAt(s, |before|, word) && |before| < |s| && (|before| == 0 || s[|before| - 1] == '/')
  {
    SplitWord(before, word, after);
  }

  lemma {:induction false} WordSplits(s: string, i: nat, word: string)
    requires WordAt(s, i, word)
    ensures s == s[..i] + (word + s[i + |word|..]) && s[i + |word|..] != [] && s[i + |word|..][0] in "/._-"
  {
    assert s[i..] == s[i..i + |word|] + s[i + |word|..];
  }

  lemma {:induction false} SplitWord(before: string, word: string, after: string)
    requires after != [] && after[0] in "/._-"
    ensures WordAt(before + (word + after), |before|, word)
  {
    var s := before + (word + after);
    assert s[|before|..|before| + |word|] == word && s[|before| + |word|] == after[0];
  }

  /** Test files under `tests/`, in plain spelling: TypeScript has two extensions, Python one. */
  lemma {:induction false} ExecutableMeans(name: string, typescript: bool)
    requires NoBackslash(name) && name != []
    ensures IsExecutableTestPath("tests/" + name, typescript) <==>
            if typescript then EndsWith(name, ".ts") || EndsWith(name, ".tsx") else EndsWith(name, ".py")
  {
    hide EndsWith, Normalized;
    var p := "tests/" + name;
    PlainName(name);
    LastCharacter(p, name, ".ts");
    LastCharacter(p, name, ".tsx");
    LastCharacter(p, name, ".py");
  }

  lemma {:induction false} PlainName(name: string)
    requires NoBackslash(name)
    ensures Normalized("tests/" + name) == "tests/" + name && StartsWith("tests/" + name, "tests/")
  {
    var p := "tests/" + name;
    assert p[..6] == "tests/";
    assert p[0] == 't';
    assert Slashed(p) == p;
    assert p[..2] != "./";
  }

  predicate NoBackslash(s: string) {
    forall i :: 0 <= i < |s| ==> s[i] != '\\'
  }

  lemma {:induction false} LastCharacter(p: string, name: string, extension: string)
    requires p == "tests/" + name && name != [] && 3 <= |extension| <= 4 && extension[0] == '.'
    requires extension[|extension| - 1] != '/'
    ensures EndsWith(p, extension) <==> EndsWith(name, extension)
    ensures EndsWith(p, extension) ==> !EndsWith(p, "/")
  {
    var at := |p| - |extension|;
    if EndsWith(p, extension) {
      assert p[at..][0] == p[at] == '.';
      assert p[at..][|extension| - 1] == p[|p| - 1];
      assert p[|p| - 1..] == [p[|p| - 1]];
      assert at >= 6;
      assert p[at..] == name[at - 6..];
    }
    if EndsWith(name, extension) { assert p[at..] == name[|name| - |extension|..]; }
  }

  /** A leading `./`, with any number of further slashes, and backslashes make no difference. */
  lemma {:induction false} WrittenAlike(p: string, n: nat)
    requires NoBackslash(p) && p != [] && p[0] != '/'
    ensures Normalized("." + Repeat('/', n + 1) + p) == p
    ensures Normalized("." + Repeat('\\', n + 1) + p) == p
  {
    var slashes, q := Repeat('/', n + 1), "." + Repeat('/', n + 1) + p;
    assert Slashed("." + Repeat('\\', n + 1) + p) == Slashed(q) == q;
    assert q[..2] == "./";
    assert q[1..] == slashes + p;
    SkipAll(p, n + 1);
  }

  function Repeat(c: char, n: nat): (r: string)
    ensures |r| == n && forall i :: 0 <= i < n ==> r[i] == c
  {
    seq(n, i => c)
  }

  lemma {:induction false} SkipAll(p: string, n: nat)
    requires p != [] && p[0] != '/'
    ensures SkipSlashes(Repeat('/', n) + p) == p
  {
    if n > 0 {
      assert (Repeat('/', n) + p)[1..] == Repeat('/', n - 1) + p;
      SkipAll(p, n - 1);
    } else {
      assert Repeat('/', 0) + p == p;
    }
  }

  /** The alphabet, lowered. */
  lemma {:induction false} LetterByLetter(i: nat)
    requires i < 26
    ensures LowerChar("ABCDEFGHIJKLMNOPQRSTUVWXYZ"[i]) == "abcdefghijklmnopqrstuvwxyz"[i]
  {
  }

  // ---- Paths that do not start under `tests/` -------------------------------------------

  lemma {:induction false} OtherStart(s: string, prefix: string)
    requires |s| > 0 && |prefix| > 0 && s[0] != prefix[0]
    ensures !StartsWith(s, prefix)
  {
    assert |prefix| <= |s| ==> s[..|prefix|][0] == s[0];
  }

  lemma {:induction false} OtherRoot(path: string, typescript: bool)
    requires |path| > 0 && path[0] != 't' && path[0] != 'T' && path[0] != '.'
    ensures !IsExecutableTestPath(path, typescript) && !IsRuntimeOwnedPath(path)
  {
    hide StartsWith;
    OtherStart(Slashed(path), "./");
    OtherStart(Slashed(path), "tests/");
    OtherStart(Lower(Slashed(path)), "tests/");
  }

  lemma {:induction false} SourceIsNoTest(path: string, typescript: bool)
    requires StartsWith(path, "src/")
    ensures !IsExecutableTestPath(path, typescript) && !IsRuntimeOwnedPath(path)
  {
    assert path[0] == path[..4][0] == 's';
    OtherRoot(path, typescript);
  }

  lemma {:induction false} ReportIsPlain(iteration: string, typescript: bool)
    ensures Plain(LanguageRules(typescript), UnitTestDoc(iteration))
  {
    assert UnitTestDoc(iteration)[0] == 'd';
    OtherRoot(UnitTestDoc(iteration), typescript);
  }

  /** Iterations have different reports. */
  lemma {:induction false} ReportsDiffer(a: string, b: string)
    requires a != b
    ensures UnitTestDoc(a) != UnitTestDoc(b)
  {
    assert "docs/05-unit-test.md"[5] == '0' && "docs/iterations/"[5] == 'i';
    assert ("docs/iterations/" + a + "/05-unit-test.md")[5] == 'i';
    assert ("docs/iterations/" + b + "/05-unit-test.md")[5] == 'i';
    MiddleReadsBack("docs/iterations/", a, "/05-unit-test.md");
    MiddleReadsBack("docs/iterations/", b, "/05-unit-test.md");
  }

  lemma {:induction false} MiddleReadsBack(head: string, s: string, tail: string)
    ensures |head + s + tail| == |head| + |s| + |tail| && (head + s + tail)[|head|..|head| + |s|] == s
  {
  }

  // ---- Generated names ------------------------------------------------------------------

  predicate NoSlash(s: string) {
    forall i :: 0 <= i < |s| ==> s[i] != '/' && s[i] != '\\'
  }

  lemma {:induction false} DigitsHaveNoSlash(s: string)
    requires TopoSort.AllDigits(s)
    ensures NoSlash(s)
  {
  }

  lemma {:induction false} LowerHasNoSlash(s: string)
    requires NoSlash(s)
    ensures NoSlash(Lower(s))
  {
  }

  /** The part of a generated name after `tests/`. */
  function NameTail(r: Rules, id: string, phase: Phase, n: nat): string {
    (if r.typescript then "" else "test_") + PathPrefix(phase) + "_" + r.lower(id) +
    (if n <= 1 then "" else "_" + Decimal(n)) + Extension(r)
  }

  lemma {:induction false} CandidateSplits(r: Rules, id: string, phase: Phase, n: nat)
    ensures Candidate(r, id, phase, n) == "tests/" + NameTail(r, id, phase, n)
  {
    hide PathPrefix, Decimal, Extension;
    if !r.typescript { assert "tests/test_" == "tests/" + "test_"; }
  }

  lemma {:induction false} PrefixShape(phase: Phase)
    ensures NoSlash(PathPrefix(phase)) && |PathPrefix(phase)| > 0
    ensures PathPrefix(phase)[0] != 's' && PathPrefix(phase)[0] != 'S' && PathPrefix(phase)[0] != '_'
  {
  }

  lemma {:induction false} TailShape(typescript: bool, id: string, phase: Phase, n: nat)
    requires NoSlash(id)
    ensures
      var t := NameTail(LanguageRules(typescript).paths, id, phase, n);
      NoSlash(t) && |t| > 0 && t[0] != 's' && t[0] != 'S' && t[0] != '_' && HasCodeExtension(t, typescript)
  {
    hide PathPrefix, Decimal, Lower;
    LowerHasNoSlash(id);
    DigitsHaveNoSlash(Decimal(n));
    PrefixShape(phase);
    var r := LanguageRules(typescript).paths;
    var t, ext := NameTail(r, id, phase, n), Extension(r);
    assert t[|t| - |ext|..] == ext;
    if typescript { assert ext[5..] == ".ts" && t[|t| - 3..] == ".ts"; }
  }

  lemma {:induction false} NoSlashNormalized(t: string)
    requires NoSlash(t)
    ensures Normalized("tests/" + t) == "tests/" + t
  {
    var p := "tests/" + t;
    assert forall i :: 0 <= i < |p| ==> p[i] != '\\';
    assert Slashed(p) == p;
    assert p[0] == 't';
  }

  lemma {:induction false} TailEnds(head: string, t: string, suffix: string)
    requires EndsWith(t, suffix)
    ensures EndsWith(head + t, suffix)
  {
    var p := head + t;
    assert p[|p| - |suffix|..] == t[|t| - |suffix|..];
  }

  lemma {:induction false} NoSlashIsExecutable(t: string, typescript: bool)
    requires NoSlash(t) && |t| > 0 && HasCodeExtension(t, typescript)
    ensures IsExecutableTestPath("tests/" + t, typescript)
  {
    hide NoSlash, Slashed;
    var p := "tests/" + t;
    NoSlashNormalized(t);
    assert p[..6] == "tests/";
    LastIsNoSlash(t);
    assert p[|p| - 1..][0] == p[|p| - 1] == t[|t| - 1];
    forall suffix | EndsWith(t, suffix) ensures EndsWith(p, suffix) { TailEnds("tests/", t, suffix); }
  }

  lemma {:induction false} LastIsNoSlash(t: string)
    requires NoSlash(t) && |t| > 0
    ensures t[|t| - 1] != '/'
  {
  }

  lemma {:induction false} NoWordAtStart(s: string, word: string)
    requires |s| > 0 && |word| > 0 && s[0] != word[0]
    ensures !WordAt(s, 0, word)
  {
    assert |word| <= |s| ==> s[0..|word|][0] == s[0];
  }

  lemma {:induction false} NoSupplement(s: string)
    requires NoSlash(s) && |s| > 0 && s[0] != 's'
    ensures !NamesSupplement(s)
  {
    hide WordAt;
    NoWordAtStart(s, "supplement");
    NoWordAtStart(s, "supplements");
    NoWordAtStart(s, "supplemental");
  }

  lemma {:induction false} NotVerification(t: string)
    requires NoSlash(t)
    ensures !StartsWith("tests/" + t, "tests/verification/")
  {
    var n, dir := "tests/" + t, "tests/verification/";
    assert |dir| == 19 && dir[18] == '/';
    assert |t| > 12 ==> n[18] == t[12];
    assert |n| >= 19 ==> n[..19][18] == n[18];
  }

  lemma {:induction false} NoSlashIsFree(t: string)
    requires NoSlash(t) && |t| > 0 && t[0] != 's' && t[0] != 'S'
    ensures !IsRuntimeOwnedPath("tests/" + t)
  {
    hide NoSlash, NamesSupplement, Slashed;
    NoSlashNormalized(t);
    LowerTail(t);
    LowerHasNoSlash(t);
    NotVerification(Lower(t));
    NoSupplement(Lower(t));
    assert ("tests/" + Lower(t))[6..] == Lower(t);
  }

  lemma {:induction false} LowerTail(t: string)
    ensures Lower("tests/" + t) == "tests/" + Lower(t)
  {
    var p := "tests/" + t;
    assert Lower(p)[..6] == "tests/";
    assert Lower(p)[6..] == Lower(t);
    assert Lower(p) == Lower(p)[..6] + Lower(p)[6..];
  }

  /** Every name generated for an id without slashes is an executable test and not reserved. */
  lemma {:induction false} SlashlessNamesFit(typescript: bool, id: string)
    requires NoSlash(id)
    ensures NamesFit(LanguageRules(typescript).paths, id)
  {
    var r := LanguageRules(typescript).paths;
    forall phase, n ensures r.executable(Candidate(r, id, phase, n)) && !r.reserved(Candidate(r, id, phase, n)) {
      CandidateSplits(r, id, phase, n);
      TailShape(typescript, id, phase, n);
      NoSlashIsExecutable(NameTail(r, id, phase, n), typescript);
      NoSlashIsFree(NameTail(r, id, phase, n));
    }
  }

  /** No generated name is a package marker. */
  lemma {:induction false} SlashlessNamesAreNoMarkers(typescript: bool, id: string, phase: Phase, n: nat)
    requires NoSlash(id)
    ensures !IsInitFile(Candidate(LanguageRules(typescript).paths, id, phase, n))
  {
    hide Candidate, NameTail, NoSlash, EndsWith;
    var r := LanguageRules(typescript).paths;
    CandidateSplits(r, id, phase, n);
    TailShape(typescript, id, phase, n);
    NoMarker(NameTail(r, id, phase, n));
  }

  /** The only marker right under `tests/` is called `__init__.py`. */
  lemma {:induction false} NoMarker(t: string)
    requires NoSlash(t) && |t| > 0 && t[0] != '_'
    ensures !IsInitFile("tests/" + t)
  {
    var p, m := "tests/" + t, "/__init__.py";
    assert p[0] == 't';
    SuffixAt(p, m, 0);
    SuffixAt(p, m, 1);
  }

  lemma {:induction false} SuffixAt(s: string, suffix: string, k: nat)
    requires k < |suffix|
    ensures EndsWith(s, suffix) ==> s[|s| - |suffix| + k] == suffix[k]
  {
    assert EndsWith(s, suffix) ==> s[|s| - |suffix|..][k] == suffix[k];
  }

  /** Written as the path rules read it: lower case, no backslash. */
  predicate Canonical(s: string) {
    forall i :: 0 <= i < |s| ==> LowerChar(s[i]) == s[i] && s[i] != '\\'
  }

  lemma {:induction false} CanonicalRead(path: string)
    requires Canonical(path) && |path| > 0 && path[0] != '.'
    ensures Lower(Normalized(path)) == path
  {
    assert Slashed(path) == path;
    assert !StartsWith(path, "./") by { assert "./"[0] == '.'; }
  }

  lemma {:induction false} SupplementIsReserved(a: string, b: string)
    requires Canonical("tests/" + (a + "/supplement." + b))
    ensures IsRuntimeOwnedPath("tests/" + (a + "/supplement." + b))
  {
    hide Canonical, Slashed, Normalized;
    var rest := a + "/supplement." + b;
    var p, i := "tests/" + rest, |a| + 1;
    CanonicalRead(p);
    assert p[..6] == "tests/" && p[6..] == rest;
    assert rest[i - 1] == '/' && rest[i..i + 10] == "supplement" && rest[i + 10] == '.';
    assert WordAt(rest, i, "supplement");
  }

  lemma {:induction false} MisnamedPath(r: Rules)
    requires !r.typescript && r.lower("/supplement") == "/supplement"
    ensures Candidate(r, "/supplement", UnitTest, 1) == "tests/" + ("test_unit_" + "/supplement." + "py")
  {
    assert PathBase(r, "/supplement", UnitTest) == "tests/test_" + "unit" + "_" + "/supplement";
    assert Candidate(r, "/supplement", UnitTest, 1) == PathBase(r, "/supplement", UnitTest) + "" + ".py";
    assert "tests/test_" + "unit" + "_" + "/supplement" + "" + ".py" ==
        "tests/" + ("test_unit_" + "/supplement." + "py");
  }

  /** With a slash the name may be a reserved one, so a condition on the ids is needed. */
  lemma {:induction false} SlashMayMisname()
    ensures !NamesFit(LanguageRules(false).paths, "/supplement")
  {
    hide IsRuntimeOwnedPath, IsExecutableTestPath, Candidate;
    var r := LanguageRules(false).paths;
    assert Lower("/supplement") == "/supplement";
    MisnamedPath(r);
    assert Canonical("tests/" + ("test_unit_" + "/supplement." + "py"));
    SupplementIsReserved("test_unit_", "py");
    assert r.reserved(Candidate(r, "/supplement", UnitTest, 1));
  }

  // ---- Plans whose ids match the schema -------------------------------------------------

  /** Step ids as the plan schema has them: `S` and at least three digits, no two alike. */
  ghost predicate SchemaIds(steps: seq<Step>) {
    UniqueIds(steps) && forall i :: 0 <= i < |steps| ==> IsNumbered(steps[i].id)
  }

  lemma {:induction false} NumberedHasNoSlash(id: string)
    requires IsNumbered(id)
    ensures NoSlash(id)
  {
    DigitsHaveNoSlash(id[1..]);
    forall i | 0 <= i < |id| ensures id[i] != '/' && id[i] != '\\' {
      if i > 0 { assert id[i] == id[1..][i - 1]; }
    }
  }

  /** The path rules of both languages meet what the repair passes ask, on every plan with schema ids. */
  lemma {:induction false} SchemaRulesHold(typescript: bool, steps: seq<Step>)
    requires SchemaIds(steps)
    ensures RulesHold(LanguageRules(typescript), steps)
  {
    hide IsExecutableTestPath, IsRuntimeOwnedPath;
    var c := LanguageRules(typescript);
    forall i | 0 <= i < |steps| && Develops(steps[i].phase) ensures NamesFit(c.paths, steps[i].id) {
      NumberedHasNoSlash(steps[i].id);
      SlashlessNamesFit(typescript, steps[i].id);
    }
    forall o | StartsWith(o, "src/") ensures !c.paths.executable(o) && !c.paths.reserved(o) {
      SourceIsNoTest(o, typescript);
    }
  }

  /** Both repair passes, for the repository's own rules: what they establish, and that a second run changes nothing. */
  lemma {:induction false} SchemaPlanRepaired(typescript: bool, steps: seq<Step>)
    requires SchemaIds(steps)
    ensures
      var c := LanguageRules(typescript);
      && Settled(c.paths, Paired(c.paths, steps)) && Paired(c.paths, Paired(c.paths, steps)) == Paired(c.paths, steps)
      && Extends(steps, Repaired(c, steps)) && AllCovered(c, Repaired(c, steps))
      && Settled(c.paths, Repaired(c, steps)) && Repaired(c, Repaired(c, steps)) == Repaired(c, steps)
  {
    hide Paired, Repaired, Settled, Extends, AllCovered, LanguageRules;
    var c := LanguageRules(typescript);
    SchemaRulesHold(typescript, steps);
    RulesFit(c, steps);
    PairedIsSettled(c.paths, steps);
    PairedFixedPoints(c.paths, steps);
    RepairEstablishes(c, steps);
    RepairFixedPoints(c, steps);
  }

  lemma {:induction false} SchemaReports(typescript: bool, its: seq<string>)
    requires NoDup(its)
    ensures PlainReports(LanguageRules(typescript), its)
    ensures forall k :: 0 <= k < |its| ==> OwnReport(LanguageRules(typescript), its, k)
  {
    hide UnitTestDoc, Plain;
    forall k | 0 <= k < |its| ensures Plain(LanguageRules(typescript), UnitTestDoc(its[k])) {
      ReportIsPlain(its[k], typescript);
    }
    forall k, m | 0 <= k < |its| && 0 <= m < |its| && k != m ensures UnitTestDoc(its[m]) != UnitTestDoc(its[k]) {
      ReportsDiffer(its[m], its[k]);
    }
  }

  /** Each new step's report has a single owner exactly when no step of the plan lists it already. */
  lemma {:induction false} SchemaReportOwnedOnceIff(typescript: bool, steps: seq<Step>, k: nat)
    requires SchemaIds(steps) && k < |GapIterations(LanguageRules(typescript), steps)|
    ensures
      var c := LanguageRules(typescript);
      var report := UnitTestDoc(GapIterations(c, steps)[k]);
      OneOwner(Repaired(c, steps), report) <==> forall i :: 0 <= i < |steps| ==> report !in steps[i].outputs
  {
    hide UnitTestDoc, Repaired, OneOwner, GapIterations, Plain, OwnReport, RulesHold, Wired;
    var c := LanguageRules(typescript);
    SchemaRulesHold(typescript, steps);
    GapIterationsDistinct(c, steps);
    SchemaReports(typescript, GapIterations(c, steps));
    ReportOwnedOnceIff(c, steps, k);
  }

  lemma {:induction false} GapIterationsDistinct(c: CoverageRules, steps: seq<Step>)
    ensures NoDup(GapIterations(c, steps))
  {
    hide Gaps;
  }

  /** The lint's coverage rule after the repair, exactly, for plans with schema ids. */
  lemma {:induction false} SchemaLintCoverageIff(typescript: bool, steps: seq<Step>, plan: Plan)
    requires SchemaIds(steps) && plan.steps == Repaired(LanguageRules(typescript), steps)
    ensures
      var c := LanguageRules(typescript);
      CodeCovered(plan) <==>
        forall i :: 0 <= i < |steps| && TestedByLintOnly(c, steps, i) ==>
          Covered(steps, steps[i]) ||
          CoveredAround(steps, Gaps(c, steps), GapIterations(c, steps), FirstNumber(steps), steps[i])
  {
    hide Repaired, CodeCovered, RulesHold, TestedByLintOnly, Covered, CoveredAround, OwnReport, FirstNumber, Gaps;
    hide GapIterations, LanguageRules, PlainReports;
    SchemaRulesHold(typescript, steps);
    GapIterationsDistinct(LanguageRules(typescript), steps);
    SchemaReports(typescript, GapIterations(LanguageRules(typescript), steps));
    LintCoverageIff(LanguageRules(typescript), steps, plan);
  }

  // ---- Concrete plans -------------------------------------------------------------------

  lemma {:induction false} FirstIds()
    ensures NewId(1) == "S001" && NewId(2) == "S002" && NewId(3) == "S003"
    ensures NumberOf("S001") == 1 && IsNumbered("S001") && IsNumbered("S002") && IsNumbered("S003")
  {
    forall n: nat | 1 <= n <= 3 ensures NewId(n) == "S00" + Decimal(n) {
      assert |Decimal(n)| == 1;
      assert Padded(Decimal(n)) == Padded("0" + Decimal(n)) == Padded("0" + ("0" + Decimal(n)));
      assert "0" + ("0" + Decimal(n)) == "00" + Decimal(n);
      assert "S" + ("00" + Decimal(n)) == "S00" + Decimal(n);
    }
    assert Decimal(1) == "1" && Decimal(2) == "2" && Decimal(3) == "3";
    assert "S00" + "1" == "S001" && "S00" + "2" == "S002" && "S00" + "3" == "S003";
    NewIdReadsBack(1);
    NewIdReadsBack(2);
    NewIdReadsBack(3);
  }

  /** One CODE step `S001` that depends on the missing `S002`: acyclic, and cyclic after the repair. */
  lemma {:induction false} RepairMakesCycle(typescript: bool)
    ensures
      var steps := [Step("S001", Some("P1"), Code, [], [], ["S002"])];
      && !Cyclic(GraphOfPlan(steps))
      && Cyclic(GraphOfPlan(Repaired(LanguageRules(typescript), steps)))
  {
    hide Repaired, Cyclic, RulesHold;
    FirstIds();
    var steps := CapturingPlan("S001", "P1");
    assert steps == [Step("S001", Some("P1"), Code, [], [], ["S002"])];
    SchemaRulesHold(typescript, steps);
    CapturedDependencyMakesCycle(LanguageRules(typescript), "S001", "P1");
  }

  /** A CODE step and an idle unit test step that outputs the report: two owners, and a lint error. */
  lemma {:induction false} RepairDuplicatesReport(typescript: bool, plan: Plan)
    requires plan.steps == Repaired(LanguageRules(typescript), ReportPlan(LanguageRules(typescript), ("S001",
        "S002"), "P1"))
    ensures !OneOwner(plan.steps, "docs/05-unit-test.md") && !OutputsOwned(plan)
  {
    hide Repaired, OneOwner, RulesHold, OutputsOwned, Plain;
    FirstIds();
    var c := LanguageRules(typescript);
    SchemaRulesHold(typescript, ReportPlan(c, ("S001", "S002"), "P1"));
    ReportIsPlain("P1", typescript);
    ReportOwnedTwice(c, ("S001", "S002"), "P1", plan);
  }

  /** A functional test that declares the CODE step's future test name: that name gets two owners. */
  lemma {:induction false} PairingDuplicatesName(typescript: bool)
    ensures
      var r := LanguageRules(typescript).paths;
      var steps := CollidingPlan(r, "P1", ["S001", "S002", "S003"]);
      !GeneratesFresh(r, steps) && !OneOwner(Paired(r, steps), Candidate(r, "S002", UnitTest, 1))
  {
    hide Paired, GeneratesFresh, Candidate;
    FirstIds();
    NumberedHasNoSlash("S002");
    SlashlessNamesFit(typescript, "S002");
    DeclaredNameCollides(LanguageRules(typescript).paths, "P1", ["S001", "S002", "S003"]);
  }

  /** A package with nothing but its `__init__.py`: the lint asks for no test of it until the repair hands it one. */
  lemma {:induction false} RepairLosesExemption(before: Plan, after: Plan)
    requires before.steps == [Step("S001", Some("P1"), Code, [], ["src/a/__init__.py"], [])]
    requires after.steps == Repaired(LanguageRules(false), before.steps)
    ensures CodeCovered(before) && !CodeCovered(after)
    ensures |after.steps| == 1
  {
    hide Repaired, CodeCovered, RulesHold, IsInitFile;
    FirstIds();
    var c, path := LanguageRules(false), "src/a/__init__.py";
    var steps := LoneStep("S001", "P1", path);
    SchemaRulesHold(false, steps);
    NumberedHasNoSlash("S001");
    forall n ensures !IsInitFile(Candidate(c.paths, "S001", UnitTest, n)) {
      SlashlessNamesAreNoMarkers(false, "S001", UnitTest, n);
    }
    MarkerPath();
    MarkerLosesExemption(c, "S001", "P1", path, before, after);
  }

  lemma {:induction false} MarkerPath()
    ensures Implements(LanguageRules(false), "src/a/__init__.py") && EndsWith("src/a/__init__.py", "/__init__.py")
  {
    var p := "src/a/__init__.py";
    assert p[..4] == "src/" && p[5..] == "/__init__.py" && p[14..] == ".py";
  }

  /** Generated names are a directory, a prefix, the lowered id, a count from two on, and an extension. */
  lemma {:induction false} NameParts(r: Rules, id: string, phase: Phase, n: nat)
    ensures n <= 1 ==> Candidate(r, id, phase, n) == NameStart(r, phase) + r.lower(id) + NameEnd(r)
    ensures n > 1 ==> Candidate(r, id, phase, n) == NameStart(r, phase) + r.lower(id) + "_" + Decimal(n) + NameEnd(r)
  {
    hide Decimal, PathPrefix, NameStart;
    NameStartsWith(r, phase);
    var first, low := (if r.typescript then "tests/" else "tests/test_") + PathPrefix(phase) + "_", r.lower(id);
    assert PathBase(r, id, phase) == first + low;
    assert first + low + "" == first + low;
    assert first + low + ("_" + Decimal(n)) == first + low + "_" + Decimal(n);
  }

  lemma {:induction false} NameStartsWith(r: Rules, phase: Phase)
    ensures (if r.typescript then "tests/" else "tests/test_") + PathPrefix(phase) + "_" == NameStart(r, phase)
  {
    hide Word, PathPrefix;
    WordOf(phase);
  }

  lemma {:induction false} WordOf(phase: Phase)
    ensures PathPrefix(phase) + "_" == Word(phase)
  {
  }

  function NameStart(r: Rules, phase: Phase): string {
    (if r.typescript then "tests/" else "tests/test_") + Word(phase)
  }

  function Word(phase: Phase): string {
    match phase
    case ModuleTest => "module_"
    case IntegrationTest => "integration_"
    case FunctionalTest => "functional_"
    case _ => "unit_"
  }

  function NameEnd(r: Rules): string {
    if r.typescript then ".test.ts" else ".py"
  }
}
