/** Values shared by the health checkers, the dashboard and the correlators
    (internal/checker/checker.go).  A Go string is a sequence of bytes; here each
    `char` of a `string` stands for one byte.  A nil metadata map is an empty map. */
module CheckerTypes {

  datatype Option<+T> = None | Some(value: T)

  const SEVERITY_CRITICAL := "Critical"
  const SEVERITY_WARNING := "Warning"
  const SEVERITY_INFO := "Info"

  /** Metadata key under which the AI root cause is stored. */
  const ROOT_CAUSE_KEY := "aiRootCause"

  /** Marks a suggestion as enhanced; the display form is what follows `AI_PREFIX`. */
  const AI_TAG := "AI Analysis:"
  const AI_PREFIX := "AI Analysis: "

  datatype Issue = Issue(
    kind: string, severity: string, resource: string, namespace: string,
    message: string, suggestion: string, metadata: map<string, string>)

  datatype CheckResult = CheckResult(
    checkerName: string, healthy: int, issues: seq<Issue>, error: Option<string>)

  type Results = map<string, CheckResult>

  /** The effect of one accepted AI suggestion on one issue. */
  function Enhance(issue: Issue, suggestion: string, rootCause: string): Issue {
    issue.(
      suggestion :=
        if issue.suggestion != "" then issue.suggestion + "\n\n" + AI_PREFIX + suggestion
        else AI_PREFIX + suggestion,
      metadata :=
        if rootCause != "" then issue.metadata[ROOT_CAUSE_KEY := rootCause] else issue.metadata)
  }

  /** `enhanced` is `base` as one batch call leaves it: untouched or enhanced once. */
  ghost predicate AIVersionOf(base: Issue, enhanced: Issue) {
    enhanced == base || exists s, rc :: enhanced == Enhance(base, s, rc)
  }

  ghost predicate AIVersionOfIssues(base: seq<Issue>, enhanced: seq<Issue>) {
    && |base| == |enhanced|
    && forall i | 0 <= i < |base| :: AIVersionOf(base[i], enhanced[i])
  }

  /** `enhanced` is a whole result set after one batch call on `base`. */
  ghost predicate AIVersionOfResults(base: Results, enhanced: Results) {
    && base.Keys == enhanced.Keys
    && forall name | name in base ::
         && enhanced[name] == base[name].(issues := enhanced[name].issues)
         && AIVersionOfIssues(base[name].issues, enhanced[name].issues)
         && (base[name].error.Some? ==> enhanced[name].issues == base[name].issues)
  }
}

/** Finite sets. */
module FiniteSets {

  lemma {:induction false} SubsetSize<T>(a: set<T>, b: set<T>)
    requires a <= b
    ensures |a| <= |b|
  {
    if a != {} {
      var x :| x in a;
      SubsetSize(a - {x}, b - {x});
    }
  }
}

/** Substring search, as strings.Contains and strings.Index do it. */
module TextSearch {

  predicate OccursAt(s: string, sub: string, i: nat) {
    i + |sub| <= |s| && s[i..i + |sub|] == sub
  }

  /** The first occurrence of `sub` in `s` at or after `from`, or -1. */
  function IndexFrom(s: string, sub: string, from: nat): (r: int)
    ensures r == -1 || (from <= r && OccursAt(s, sub, r))
    ensures forall k: nat | from <= k && (r == -1 || k < r) :: !OccursAt(s, sub, k)
    decreases |s| - from
  {
    if from + |sub| > |s| then -1
    else if OccursAt(s, sub, from) then from
    else IndexFrom(s, sub, from + 1)
  }

  function Index(s: string, sub: string): int {
    IndexFrom(s, sub, 0)
  }

  predicate Contains(s: string, sub: string) {
    Index(s, sub) >= 0
  }

  lemma FirstOccurrence(s: string, sub: string, i: nat)
    requires OccursAt(s, sub, i) && forall k: nat | k < i :: !OccursAt(s, sub, k)
    ensures Index(s, sub) == i
  {
  }

  /** A text cut at the first separator is cut in one way. */
  lemma SameCut(a: string, x: string, b: string, y: string, c: char)
    requires a + [c] + x == b + [c] + y && c !in a && c !in b
    ensures a == b && x == y
  {
    CutIsNotEarlier(a, x, b, y, c);
    CutIsNotEarlier(b, y, a, x, c);
    var s := a + [c] + x;
    assert a == s[..|a|] && b == s[..|b|];
    assert x == s[|a| + 1..] && y == s[|b| + 1..];
  }

  lemma CutIsNotEarlier(a: string, x: string, b: string, y: string, c: char)
    requires a + [c] + x == b + [c] + y && c !in b
    ensures |a| >= |b|
  {
    var s := a + [c] + x;
    assert s[|a|] == c;
    forall k | 0 <= k < |b| ensures s[k] in b {
      assert s[k] == b[k];
    }
  }
}
