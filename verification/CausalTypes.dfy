/** Issues on a timeline and groups of them (internal/causal/types.go).  Titles, identifiers and root-cause texts
    are left out; confidences are real numbers. */
module CausalTypes {
  import opened CheckerTypes
  import opened TextSearch

  datatype Event = Event(timestamp: int, checker: string, issue: Issue)

  datatype Group = Group(rule: string, scope: string, severity: string, events: seq<Event>, confidence: real)

  datatype Input = Input(results: map<string, Option<CheckResult>>, timestamp: int)

  const CLUSTER_SCOPE := "_cluster"

  function Scope(e: Event): string {
    if e.issue.namespace == "" then CLUSTER_SCOPE else e.issue.namespace
  }

  // Issues without a namespace share one scope of their own, all others are with those of
  // their namespace.
  lemma SameScopeIff(a: Event, b: Event)
    requires a.issue.namespace != "_cluster" && b.issue.namespace != "_cluster"
    ensures Scope(a) == Scope(b) <==> a.issue.namespace == b.issue.namespace
    ensures Scope(a) == "_cluster" <==> a.issue.namespace == ""
  {
  }

  function Key(e: Event): string {
    e.checker + ":" + e.issue.namespace + "/" + e.issue.resource + ":" + e.issue.kind
  }

  // How events are identified; `Key` is the one in use, but nothing depends on it.
  type KeyFunction = Event -> string

  function KeysOf(key: KeyFunction, es: seq<Event>): set<string> {
    if es == [] then {} else KeysOf(key, es[..|es| - 1]) + {key(es[|es| - 1])}
  }

  lemma KeysOfSnoc(key: KeyFunction, es: seq<Event>, e: Event)
    ensures KeysOf(key, es + [e]) == KeysOf(key, es) + {key(e)}
  {
    assert (es + [e])[..|es|] == es;
  }

  lemma {:induction false} KeyIsIn(key: KeyFunction, es: seq<Event>, i: nat)
    requires i < |es|
    ensures key(es[i]) in KeysOf(key, es)
  {
    if i < |es| - 1 {
      KeyIsIn(key, es[..|es| - 1], i);
    }
  }

  lemma {:induction false} KeysOfSome(key: KeyFunction, part: seq<Event>, whole: seq<Event>)
    requires forall i :: 0 <= i < |part| ==> part[i] in whole
    ensures KeysOf(key, part) <= KeysOf(key, whole)
  {
    if part != [] {
      KeysOfSome(key, part[..|part| - 1], whole);
      var e := part[|part| - 1];
      var i :| 0 <= i < |whole| && whole[i] == e;
      KeyIsIn(key, whole, i);
    }
  }

  lemma {:induction false} FewerKeysThanEvents(key: KeyFunction, es: seq<Event>)
    ensures |KeysOf(key, es)| <= |es|
  {
    if es != [] {
      FewerKeysThanEvents(key, es[..|es| - 1]);
    }
  }

  // ---------------------------------------------------------------- severities

  function Priority(severity: string): nat {
    if severity == SEVERITY_CRITICAL then 3
    else if severity == SEVERITY_WARNING then 2
    else if severity == SEVERITY_INFO then 1
    else 0
  }

  // At least as severe as every event.
  predicate Bounds(severity: string, es: seq<Event>) {
    forall i :: 0 <= i < |es| ==> Priority(es[i].issue.severity) <= Priority(severity)
  }

  // The severity of some event, at least as severe as every one; empty when no event
  // has a known severity.
  predicate Highest(severity: string, es: seq<Event>) {
    && Bounds(severity, es)
    && (severity == "" || exists i :: 0 <= i < |es| && es[i].issue.severity == severity)
  }

  // In words: critical if any event is, else a warning if any is, else a note if any is.
  predicate Worst(severity: string, es: seq<Event>) {
    if exists i :: 0 <= i < |es| && es[i].issue.severity == "Critical" then severity == "Critical"
    else if exists i :: 0 <= i < |es| && es[i].issue.severity == "Warning" then severity == "Warning"
    else if exists i :: 0 <= i < |es| && es[i].issue.severity == "Info" then severity == "Info"
    else severity !in {"Critical", "Warning", "Info"}
  }

  lemma {:induction false} HighestIsWorst(severity: string, es: seq<Event>)
    requires Highest(severity, es)
    ensures Worst(severity, es)
  {
    if i :| 0 <= i < |es| && es[i].issue.severity == "Critical" {
      assert Priority(es[i].issue.severity) <= Priority(severity);
    } else if i :| 0 <= i < |es| && es[i].issue.severity == "Warning" {
      assert Priority(es[i].issue.severity) <= Priority(severity);
    } else if i :| 0 <= i < |es| && es[i].issue.severity == "Info" {
      assert Priority(es[i].issue.severity) <= Priority(severity);
    }
  }

  /** Two events have the same key if and only if checker, namespace, resource and kind are
      equal, as long as the separators do not occur in the parts before them. */
  lemma KeysIdentifyEvents(a: Event, b: Event)
    requires ':' !in a.checker && ':' !in b.checker && '/' !in a.issue.namespace && '/' !in b.issue.namespace
    requires ':' !in a.issue.resource && ':' !in b.issue.resource
    ensures Key(a) == Key(b) <==>
            && a.checker == b.checker && a.issue.namespace == b.issue.namespace
            && a.issue.resource == b.issue.resource && a.issue.kind == b.issue.kind
  {
    if Key(a) == Key(b) {
      var x, y := BehindChecker(a), BehindChecker(b);
      assert Key(a) == a.checker + [':'] + x && Key(b) == b.checker + [':'] + y;
      SameCut(a.checker, x, b.checker, y, ':');
      var u, v := BehindNamespace(a), BehindNamespace(b);
      assert x == a.issue.namespace + ['/'] + u && y == b.issue.namespace + ['/'] + v;
      SameCut(a.issue.namespace, u, b.issue.namespace, v, '/');
      assert u == a.issue.resource + [':'] + a.issue.kind && v == b.issue.resource + [':'] + b.issue.kind;
      SameCut(a.issue.resource, a.issue.kind, b.issue.resource, b.issue.kind, ':');
    }
  }

  function BehindNamespace(e: Event): string {
    e.issue.resource + ":" + e.issue.kind
  }

  function BehindChecker(e: Event): string {
    e.issue.namespace + "/" + BehindNamespace(e)
  }

  method HighestSeverity(es: seq<Event>) returns (best: string)
    ensures Highest(best, es)
  {
    best := "";
    var bestPriority := 0;
    for i := 0 to |es|
      invariant bestPriority == Priority(best) && Highest(best, es[..i])
    {
      var p := Priority(es[i].issue.severity);
      if p > bestPriority {
        bestPriority, best := p, es[i].issue.severity;
        assert es[..i + 1][i] == es[i];
      } else if best != "" {
        var k :| 0 <= k < i && es[..i][k].issue.severity == best;
        assert es[..i + 1][k] == es[k];
      }
    }
    assert es[..|es|] == es;
  }
}
