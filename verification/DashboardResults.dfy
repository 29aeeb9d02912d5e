/** Dashboard form of the checker results and the three routes by which AI
    suggestions reach it (internal/dashboard/ai_analysis.go). */
module DashboardResults {
  import opened CheckerTypes
  import opened TextSearch

  datatype DashIssue = DashIssue(
    kind: string, severity: string, resource: string, namespace: string, message: string,
    suggestion: string, aiEnhanced: bool, rootCause: string, metadata: map<string, string>)

  datatype DashResult = DashResult(name: string, healthy: int, issues: seq<DashIssue>, error: string)

  type Dashboard = map<string, DashResult>

  datatype AIEnhancement = AIEnhancement(suggestion: string, rootCause: string)

  /** checker name -> issue key -> cached suggestion */
  type Enhancements = map<string, map<string, AIEnhancement>>

  // ---------------------------------------------------------------- one issue

  predicate Tagged(suggestion: string) {
    Contains(suggestion, AI_TAG)
  }

  function DisplayText(suggestion: string): string {
    var i := Index(suggestion, AI_PREFIX);
    if i >= 0 then suggestion[i + |AI_PREFIX|..] else suggestion
  }

  function RootCauseOf(metadata: map<string, string>): string {
    if ROOT_CAUSE_KEY in metadata then metadata[ROOT_CAUSE_KEY] else ""
  }

  function ShowIssue(issue: Issue): DashIssue {
    DashIssue(
      issue.kind, issue.severity, issue.resource, issue.namespace, issue.message,
      if Tagged(issue.suggestion) then DisplayText(issue.suggestion) else issue.suggestion,
      Tagged(issue.suggestion), RootCauseOf(issue.metadata), issue.metadata)
  }

  function PatchIssue(shown: DashIssue, enriched: Issue): DashIssue {
    if !Tagged(enriched.suggestion) then shown
    else shown.(
           suggestion := DisplayText(enriched.suggestion),
           aiEnhanced := true,
           rootCause := if ROOT_CAUSE_KEY in enriched.metadata
                        then enriched.metadata[ROOT_CAUSE_KEY] else shown.rootCause)
  }

  function IssueKey(issue: Issue): string {
    issue.kind + "|" + issue.resource + "|" + issue.namespace
  }

  function ReapplyIssue(issue: Issue, cached: map<string, AIEnhancement>): Issue {
    if IssueKey(issue) !in cached then issue
    else
      var e := cached[IssueKey(issue)];
      issue.(
        suggestion := e.suggestion,
        metadata := if e.rootCause != "" then issue.metadata[ROOT_CAUSE_KEY := e.rootCause]
                    else issue.metadata)
  }

  // ------------------------------------------------------- whole result sets

  function ShowIssues(issues: seq<Issue>): seq<DashIssue> {
    seq(|issues|, i requires 0 <= i < |issues| => ShowIssue(issues[i]))
  }

  function ShowResult(name: string, result: CheckResult): DashResult {
    match result.error
    case Some(text) => DashResult(name, result.healthy, [], text)
    case None => DashResult(name, result.healthy, ShowIssues(result.issues), "")
  }

  function Show(results: Results): Dashboard {
    map name | name in results :: ShowResult(name, results[name])
  }

  function PatchIssues(shown: seq<DashIssue>, enriched: seq<Issue>): seq<DashIssue> {
    seq(|shown|, i requires 0 <= i < |shown| =>
      if i < |enriched| then PatchIssue(shown[i], enriched[i]) else shown[i])
  }

  function PatchResult(shown: DashResult, enriched: CheckResult): DashResult {
    if enriched.error.Some? then shown
    else shown.(issues := PatchIssues(shown.issues, enriched.issues))
  }

  function Patch(dash: Dashboard, enriched: Results): Dashboard {
    map name | name in dash ::
      if name in enriched then PatchResult(dash[name], enriched[name]) else dash[name]
  }

  /** Later issues overwrite earlier ones with the same key. */
  function SnapshotIssues(issues: seq<Issue>): map<string, AIEnhancement> {
    if issues == [] then map[]
    else
      var last := issues[|issues| - 1];
      var before := SnapshotIssues(issues[..|issues| - 1]);
      if Tagged(last.suggestion)
      then before[IssueKey(last) := AIEnhancement(last.suggestion, RootCauseOf(last.metadata))]
      else before
  }

  function Snapshot(results: Results): Enhancements {
    map name | name in results && results[name].error.None?
               && SnapshotIssues(results[name].issues) != map[]
      :: SnapshotIssues(results[name].issues)
  }

  function ReapplyIssues(issues: seq<Issue>, cached: map<string, AIEnhancement>): seq<Issue> {
    seq(|issues|, i requires 0 <= i < |issues| => ReapplyIssue(issues[i], cached))
  }

  function Reapply(results: Results, cached: Enhancements): Results {
    map name | name in results ::
      if name in cached && results[name].error.None?
      then results[name].(issues := ReapplyIssues(results[name].issues, cached[name]))
      else results[name]
  }

  // ------------------------------------------------------------------ methods

  method BuildDashboardResults(results: Results) returns (dash: Dashboard)
    ensures dash == Show(results)
  {
    dash := map[];
    var todo := results.Keys;
    while todo != {}
      invariant todo <= results.Keys
      invariant dash.Keys == results.Keys - todo
      invariant forall name | name in dash :: dash[name] == ShowResult(name, results[name])
      decreases todo
    {
      var name :| name in todo;
      var shown: seq<DashIssue> := [];
      if results[name].error.None? {
        for i := 0 to |results[name].issues|
          invariant shown == ShowIssues(results[name].issues)[..i]
        {
          shown := shown + [ShowIssue(results[name].issues[i])];
        }
      }
      dash := dash[name := DashResult(name, results[name].healthy, shown,
                                      if results[name].error.Some? then results[name].error.value else "")];
      todo := todo - {name};
    }
  }

  method PatchIssuesInPlace(shown: array<DashIssue>, enriched: seq<Issue>)
    modifies shown
    ensures shown[..] == PatchIssues(old(shown[..]), enriched)
  {
    var i := 0;
    while i < shown.Length && i < |enriched|
      invariant 0 <= i <= shown.Length && (i <= |enriched|)
      invariant forall k | 0 <= k < i :: shown[k] == PatchIssue(old(shown[k]), enriched[k])
      invariant forall k | i <= k < shown.Length :: shown[k] == old(shown[k])
    {
      if Tagged(enriched[i].suggestion) {
        shown[i] := shown[i].(suggestion := DisplayText(enriched[i].suggestion), aiEnhanced := true);
        if ROOT_CAUSE_KEY in enriched[i].metadata {
          shown[i] := shown[i].(rootCause := enriched[i].metadata[ROOT_CAUSE_KEY]);
        }
      }
      i := i + 1;
    }
  }

  method PatchDashboardResults(dash: Dashboard, enriched: Results) returns (patched: Dashboard)
    ensures patched == Patch(dash, enriched)
  {
    patched := dash;
    var todo := enriched.Keys;
    while todo != {}
      invariant todo <= enriched.Keys
      invariant patched.Keys == dash.Keys
      invariant forall name | name in dash ::
        patched[name] == if name in enriched && name !in todo
                         then PatchResult(dash[name], enriched[name]) else dash[name]
      decreases todo
    {
      var name :| name in todo;
      todo := todo - {name};
      if name in patched && enriched[name].error.None? {
        var shown := patched[name].issues;
        var slots := new DashIssue[|shown|](i requires 0 <= i < |shown| => shown[i]);
        assert slots[..] == shown;
        PatchIssuesInPlace(slots, enriched[name].issues);
        patched := patched[name := patched[name].(issues := slots[..])];
      }
    }
  }

  method SnapshotResult(issues: seq<Issue>) returns (entries: map<string, AIEnhancement>)
    ensures entries == SnapshotIssues(issues)
  {
    entries := map[];
    for i := 0 to |issues|
      invariant entries == SnapshotIssues(issues[..i])
    {
      assert issues[..i + 1][..i] == issues[..i];
      if Tagged(issues[i].suggestion) {
        entries := entries[IssueKey(issues[i]) :=
          AIEnhancement(issues[i].suggestion, RootCauseOf(issues[i].metadata))];
      }
    }
    assert issues[..|issues|] == issues;
  }

  method SnapshotAIEnhancements(results: Results) returns (snapshot: Enhancements)
    ensures snapshot == Snapshot(results)
  {
    snapshot := map[];
    var todo := results.Keys;
    while todo != {}
      invariant todo <= results.Keys
      invariant snapshot == map name | name in Snapshot(results) && name !in todo :: Snapshot(results)[name]
      decreases todo
    {
      var name :| name in todo;
      todo := todo - {name};
      if results[name].error.None? {
        var entries := SnapshotResult(results[name].issues);
        if entries != map[] {
          snapshot := snapshot[name := entries];
        }
      }
    }
  }

  method ReapplyIssuesInPlace(issues: array<Issue>, cached: map<string, AIEnhancement>)
    modifies issues
    ensures issues[..] == ReapplyIssues(old(issues[..]), cached)
  {
    for i := 0 to issues.Length
      invariant forall k | 0 <= k < i :: issues[k] == ReapplyIssue(old(issues[k]), cached)
      invariant forall k | i <= k < issues.Length :: issues[k] == old(issues[k])
    {
      var key := IssueKey(issues[i]);
      if key in cached {
        issues[i] := issues[i].(suggestion := cached[key].suggestion);
        if cached[key].rootCause != "" {
          issues[i] := issues[i].(metadata := issues[i].metadata[ROOT_CAUSE_KEY := cached[key].rootCause]);
        }
      }
    }
  }

  method ReapplyAIEnhancements(results: Results, cached: Enhancements) returns (restored: Results)
    ensures restored == Reapply(results, cached)
  {
    restored := results;
    var todo := cached.Keys;
    while todo != {}
      invariant todo <= cached.Keys
      invariant restored.Keys == results.Keys
      invariant forall name | name in results ::
        restored[name] == if name in cached && name !in todo
                          then Reapply(results, cached)[name] else results[name]
      decreases todo
    {
      var name :| name in todo;
      todo := todo - {name};
      if name in restored && restored[name].error.None? {
        var issues := restored[name].issues;
        var slots := new Issue[|issues|](i requires 0 <= i < |issues| => issues[i]);
        assert slots[..] == issues;
        ReapplyIssuesInPlace(slots, cached[name]);
        restored := restored[name := restored[name].(issues := slots[..])];
      }
    }
  }

  // ------------------------------------------------ the three routes agree

  /** Equal in every field a user sees; metadata is not rendered. */
  ghost predicate SameDisplay(a: Dashboard, b: Dashboard) {
    && a.Keys == b.Keys
    && forall name | name in a ::
         && a[name] == b[name].(issues := a[name].issues)
         && |a[name].issues| == |b[name].issues|
         && forall i | 0 <= i < |a[name].issues| ::
              a[name].issues[i] == b[name].issues[i].(metadata := a[name].issues[i].metadata)
  }

  /** Within each checker that did not fail no two issues share type, resource and
      namespace. */
  ghost predicate UniqueKeys(results: Results) {
    forall name | name in results && results[name].error.None? :: UniqueIssueKeys(results[name].issues)
  }

  ghost predicate UniqueIssueKeys(issues: seq<Issue>) {
    forall i, j | 0 <= i < j < |issues| :: IssueKey(issues[i]) != IssueKey(issues[j])
  }

  lemma OccurrenceIsFound(s: string, sub: string, i: nat)
    requires OccursAt(s, sub, i)
    ensures Contains(s, sub)
  {
  }

  lemma EnhancedIsTagged(base: Issue, s: string, rc: string)
    ensures Tagged(Enhance(base, s, rc).suggestion)
  {
    var text := Enhance(base, s, rc).suggestion;
    var at := if base.suggestion != "" then |base.suggestion| + 2 else 0;
    assert text[at..at + |AI_TAG|] == AI_TAG;
    OccurrenceIsFound(text, AI_TAG, at);
  }

  /** An issue without the tag was not touched by the AI. */
  lemma UntaggedIsUntouched(base: Issue, enhanced: Issue)
    requires AIVersionOf(base, enhanced)
    requires !Tagged(enhanced.suggestion)
    ensures enhanced == base
  {
    if enhanced != base {
      var s, rc :| enhanced == Enhance(base, s, rc);
      EnhancedIsTagged(base, s, rc);
    }
  }

  // ------------------------------------------------------ what one issue shows

  lemma PrefixIsTagged(s: string, i: nat)
    requires OccursAt(s, AI_PREFIX, i)
    ensures Tagged(s)
  {
    assert AI_PREFIX[..|AI_TAG|] == AI_TAG;
    assert s[i..i + |AI_TAG|] == s[i..i + |AI_PREFIX|][..|AI_TAG|];
    OccurrenceIsFound(s, AI_TAG, i);
  }

  /** In an enhanced suggestion nothing before the AI's part can be taken for its start. */
  lemma NoEarlierPrefix(t: string, s: string, i: nat)
    requires !Tagged(t) && i < |t| + 2
    ensures !OccursAt(t + "\n\n" + AI_PREFIX + s, AI_PREFIX, i)
  {
    var text := t + "\n\n" + AI_PREFIX + s;
    if i + |AI_PREFIX| <= |t| {
      assert t[i..i + |AI_PREFIX|] == text[i..i + |AI_PREFIX|];
      if OccursAt(t, AI_PREFIX, i) {
        PrefixIsTagged(t, i);
      }
    } else {
      var at := if i <= |t| then |t| else |t| + 1;
      assert text[at] == '\n' && '\n' !in AI_PREFIX;
      assert text[i..i + |AI_PREFIX|][at - i] == '\n';
    }
  }

  lemma EnhancedDisplaysSuggestion(base: Issue, s: string, rc: string)
    requires !Tagged(base.suggestion)
    ensures DisplayText(Enhance(base, s, rc).suggestion) == s
  {
    var text, t := Enhance(base, s, rc).suggestion, base.suggestion;
    var at := if t != "" then |t| + 2 else 0;
    assert text[at..at + |AI_PREFIX|] == AI_PREFIX && text[at + |AI_PREFIX|..] == s;
    if t != "" {
      assert text == t + "\n\n" + AI_PREFIX + s;
      forall k: nat | k < at ensures !OccursAt(text, AI_PREFIX, k) {
        NoEarlierPrefix(t, s, k);
      }
    }
    FirstOccurrence(text, AI_PREFIX, at);
  }

  /** The displayed issue describes the same problem. */
  predicate Describes(d: DashIssue, issue: Issue) {
    && d.kind == issue.kind && d.severity == issue.severity && d.resource == issue.resource
    && d.namespace == issue.namespace && d.message == issue.message
  }

  predicate ShowsSuggestion(d: DashIssue, text: string, ai: bool, rootCause: string) {
    d.suggestion == text && d.aiEnhanced == ai && d.rootCause == rootCause
  }

  /** An untagged issue is displayed with its own suggestion, by both routes; once enhanced
      it is displayed by both with exactly the AI's suggestion and root cause. */
  lemma DisplayedIssue(base: Issue, s: string, rc: string)
    requires !Tagged(base.suggestion)
    ensures var own := ShowIssue(base);
            && Describes(own, base) && ShowsSuggestion(own, base.suggestion, false, RootCauseOf(base.metadata))
            && PatchIssue(own, base) == own
    ensures var cause := if rc != "" then rc else RootCauseOf(base.metadata);
            var built, patched := ShowIssue(Enhance(base, s, rc)), PatchIssue(ShowIssue(base), Enhance(base, s, rc));
            && Describes(built, base) && ShowsSuggestion(built, s, true, cause)
            && Describes(patched, base) && ShowsSuggestion(patched, s, true, cause)
  {
    EnhancedIsTagged(base, s, rc);
    EnhancedDisplaysSuggestion(base, s, rc);
  }

  /** The same on whole dashboards: checker by checker and issue by issue, both routes show
      what the checkers found, with the AI's words exactly where the AI spoke. */
  lemma DashboardShowsWhatWasFound(base: Results, enhanced: Results, name: string, i: nat)
    requires AIVersionOfResults(base, enhanced) && name in base && base[name].error.None?
    requires i < |base[name].issues| && !Tagged(base[name].issues[i].suggestion)
    ensures var shown, patched, built := Show(base), Patch(Show(base), enhanced), Show(enhanced);
            && shown.Keys == patched.Keys == built.Keys == base.Keys
            && |shown[name].issues| == |patched[name].issues| == |built[name].issues| == |base[name].issues|
            && Describes(shown[name].issues[i], base[name].issues[i])
            && Describes(patched[name].issues[i], base[name].issues[i])
            && Describes(built[name].issues[i], base[name].issues[i])
            && shown[name].issues[i].suggestion == base[name].issues[i].suggestion && !shown[name].issues[i].aiEnhanced
    ensures var patched, built := Patch(Show(base), enhanced)[name].issues[i], Show(enhanced)[name].issues[i];
            && patched.aiEnhanced == built.aiEnhanced == (enhanced[name].issues[i] != base[name].issues[i])
            && forall s, rc | enhanced[name].issues[i] == Enhance(base[name].issues[i], s, rc) ::
                 patched.suggestion == built.suggestion == s && (rc != "" ==> patched.rootCause == built.rootCause == rc)
  {
    var issue, e := base[name].issues[i], enhanced[name].issues[i];
    assert AIVersionOf(issue, e);
    DisplayedIssue(issue, "", "");
    forall s, rc | e == Enhance(issue, s, rc)
      ensures ShowIssue(e).suggestion == s && PatchIssue(ShowIssue(issue), e).suggestion == s
      ensures rc != "" ==> ShowIssue(e).rootCause == rc && PatchIssue(ShowIssue(issue), e).rootCause == rc
      ensures ShowIssue(e).aiEnhanced && PatchIssue(ShowIssue(issue), e).aiEnhanced && e != issue
    {
      DisplayedIssue(issue, s, rc);
    }
  }

  /** A checker that failed is displayed with its error and no issues, any other with its
      healthy count and no error; names are those of the checkers. */
  lemma DisplayedChecker(results: Results, name: string)
    requires name in results
    ensures var d := Show(results)[name];
            && d.name == name && d.healthy == results[name].healthy
            && (results[name].error.Some? ==> d.issues == [] && d.error == results[name].error.value)
            && (results[name].error.None? ==> |d.issues| == |results[name].issues| && d.error == "")
  {
  }

  /** Issues have equal keys if and only if kind, resource and namespace are equal, as long
      as these do not contain the separator. */
  lemma KeysIdentifyIssues(a: Issue, b: Issue)
    requires '|' !in a.kind && '|' !in b.kind && '|' !in a.resource && '|' !in b.resource
    ensures IssueKey(a) == IssueKey(b) <==>
            a.kind == b.kind && a.resource == b.resource && a.namespace == b.namespace
  {
    if IssueKey(a) == IssueKey(b) {
      var x, y := a.resource + "|" + a.namespace, b.resource + "|" + b.namespace;
      assert IssueKey(a) == a.kind + ['|'] + x && IssueKey(b) == b.kind + ['|'] + y;
      SameCut(a.kind, x, b.kind, y, '|');
      assert x == a.resource + ['|'] + a.namespace && y == b.resource + ['|'] + b.namespace;
      SameCut(a.resource, a.namespace, b.resource, b.namespace, '|');
    }
  }

  lemma PatchedIssueMatches(base: Issue, enhanced: Issue)
    requires AIVersionOf(base, enhanced)
    ensures PatchIssue(ShowIssue(base), enhanced) == ShowIssue(enhanced).(metadata := base.metadata)
  {
    if !Tagged(enhanced.suggestion) {
      UntaggedIsUntouched(base, enhanced);
    }
  }

  /** Patching the published baseline by index shows what building from the
      enhanced results would show. */
  lemma PatchRouteMatches(base: Results, enhanced: Results)
    requires AIVersionOfResults(base, enhanced)
    ensures SameDisplay(Patch(Show(base), enhanced), Show(enhanced))
  {
    var patched, built := Patch(Show(base), enhanced), Show(enhanced);
    forall name, i | name in patched && 0 <= i < |patched[name].issues|
      ensures i < |built[name].issues|
      ensures patched[name].issues[i] == built[name].issues[i].(metadata := patched[name].issues[i].metadata)
    {
      PatchedIssueMatches(base[name].issues[i], enhanced[name].issues[i]);
    }
  }

  lemma {:induction false} SnapshotLookup(issues: seq<Issue>, i: nat)
    requires UniqueIssueKeys(issues) && i < |issues|
    ensures IssueKey(issues[i]) in SnapshotIssues(issues) <==> Tagged(issues[i].suggestion)
    ensures Tagged(issues[i].suggestion) ==>
      SnapshotIssues(issues)[IssueKey(issues[i])]
      == AIEnhancement(issues[i].suggestion, RootCauseOf(issues[i].metadata))
  {
    var n := |issues| - 1;
    if i < n {
      SnapshotLookup(issues[..n], i);
    } else {
      SnapshotKeysComeFromIssues(issues[..n], IssueKey(issues[n]));
    }
  }

  lemma {:induction false} SnapshotKeysComeFromIssues(issues: seq<Issue>, key: string)
    requires forall i | 0 <= i < |issues| :: IssueKey(issues[i]) != key
    ensures key !in SnapshotIssues(issues)
  {
    if issues != [] {
      SnapshotKeysComeFromIssues(issues[..|issues| - 1], key);
    }
  }

  lemma ReappliedIssueMatches(base: Issue, enhanced: Issue)
    requires AIVersionOf(base, enhanced) && Tagged(enhanced.suggestion)
    ensures IssueKey(base) == IssueKey(enhanced)
    ensures ReapplyIssue(base,
              map[IssueKey(base) := AIEnhancement(enhanced.suggestion, RootCauseOf(enhanced.metadata))])
            == enhanced
  {
    if enhanced != base {
      var s, rc :| enhanced == Enhance(base, s, rc);
      assert rc == "" ==> enhanced.metadata == base.metadata;
    }
    if ROOT_CAUSE_KEY in base.metadata {
      assert base.metadata[ROOT_CAUSE_KEY := base.metadata[ROOT_CAUSE_KEY]] == base.metadata;
    }
  }

  /** Reapplying a snapshot of enhanced results to identical fresh results gives the
      enhanced results back exactly, hence also the same dashboard. */
  lemma ReapplyRouteMatches(base: Results, enhanced: Results)
    requires AIVersionOfResults(base, enhanced) && UniqueKeys(base)
    ensures Reapply(base, Snapshot(enhanced)) == enhanced
    ensures Show(Reapply(base, Snapshot(enhanced))) == Show(enhanced)
  {
    forall name | name in base
      ensures Reapply(base, Snapshot(enhanced))[name] == enhanced[name]
    {
      ReapplyResultMatches(name, base, enhanced);
    }
  }

  lemma ReapplyResultMatches(name: string, base: Results, enhanced: Results)
    requires AIVersionOfResults(base, enhanced) && UniqueKeys(base)
    requires name in base
    ensures Reapply(base, Snapshot(enhanced))[name] == enhanced[name]
  {
    var bs, es := base[name].issues, enhanced[name].issues;
    if base[name].error.None? {
      assert UniqueIssueKeys(es) by {
        forall i, j | 0 <= i < j < |es| ensures IssueKey(es[i]) != IssueKey(es[j]) {
          assert AIVersionOf(bs[i], es[i]) && AIVersionOf(bs[j], es[j]);
          assert IssueKey(es[i]) == IssueKey(bs[i]) && IssueKey(es[j]) == IssueKey(bs[j]);
        }
      }
      var cached := SnapshotIssues(es);
      forall i | 0 <= i < |bs| ensures ReapplyIssue(bs[i], cached) == es[i] {
        assert AIVersionOf(bs[i], es[i]);
        SnapshotLookup(es, i);
        if Tagged(es[i].suggestion) {
          ReappliedIssueMatches(bs[i], es[i]);
        } else {
          UntaggedIsUntouched(bs[i], es[i]);
        }
      }
      assert ReapplyIssues(bs, cached) == es;
      if cached == map[] {
        assert bs == es;
      }
    }
  }

  // ------------------------------------------------- why the keys must be unique

  // The last issue with the key of issue i.
  lemma LastWithKey(issues: seq<Issue>, i: nat) returns (j: nat)
    requires i < |issues|
    ensures i <= j < |issues| && IssueKey(issues[j]) == IssueKey(issues[i])
    ensures forall k | j < k < |issues| :: IssueKey(issues[k]) != IssueKey(issues[i])
    decreases |issues| - i
  {
    if k :| i < k < |issues| && IssueKey(issues[k]) == IssueKey(issues[i]) {
      j := LastWithKey(issues, k);
    } else {
      j := i;
    }
  }

  lemma {:induction false} SnapshotKeepsLast(issues: seq<Issue>, j: nat)
    requires j < |issues| && Tagged(issues[j].suggestion)
    requires forall k | j < k < |issues| :: IssueKey(issues[k]) != IssueKey(issues[j])
    ensures IssueKey(issues[j]) in SnapshotIssues(issues)
    ensures SnapshotIssues(issues)[IssueKey(issues[j])].suggestion == issues[j].suggestion
  {
    var n := |issues| - 1;
    if j < n {
      SnapshotKeepsLast(issues[..n], j);
    }
  }

  // The text shown after an enhancement is at least as long as what the AI wrote.
  lemma EnhancementIsShownInFull(base: Issue, text: string)
    ensures |DisplayText(Enhance(base, text, "").suggestion)| >= |text|
  {
    var whole := Enhance(base, text, "").suggestion;
    var at := if base.suggestion != "" then |base.suggestion| + 2 else 0;
    assert OccursAt(whole, AI_PREFIX, at) by {
      assert whole[at..at + |AI_PREFIX|] == AI_PREFIX;
    }
  }

  // One enhancement that shows up on two issues.
  function EnhanceOnly(base: Results, name: string, j: nat, text: string): Results
    requires name in base && j < |base[name].issues|
  {
    base[name := base[name].(issues := base[name].issues[j := Enhance(base[name].issues[j], text, "")])]
  }

  lemma EnhanceOnlyIsAIVersion(base: Results, name: string, j: nat, text: string)
    requires name in base && base[name].error.None? && j < |base[name].issues|
    ensures AIVersionOfResults(base, EnhanceOnly(base, name, j, text))
  {
    var bs, es := base[name].issues, EnhanceOnly(base, name, j, text)[name].issues;
    forall i | 0 <= i < |bs| ensures AIVersionOf(bs[i], es[i]) {
    }
  }

  lemma DuplicateShowsTwice(base: Results, name: string, i: nat, j: nat, text: string)
    requires name in base && base[name].error.None? && i < j < |base[name].issues|
    requires IssueKey(base[name].issues[i]) == IssueKey(base[name].issues[j])
    requires forall k | j < k < |base[name].issues| :: IssueKey(base[name].issues[k]) != IssueKey(base[name].issues[j])
    requires |text| > |base[name].issues[i].suggestion|
    ensures var enhanced := EnhanceOnly(base, name, j, text);
            !SameDisplay(Show(Reapply(base, Snapshot(enhanced))), Show(enhanced))
  {
    var enhanced := EnhanceOnly(base, name, j, text);
    var bs, es := base[name].issues, enhanced[name].issues;
    EnhancedIsTagged(bs[j], text, "");
    SnapshotKeepsLast(es, j);
    EnhancementIsShownInFull(bs[j], text);
    var reapplied := Reapply(base, Snapshot(enhanced));
    assert reapplied[name].issues[i].suggestion == es[j].suggestion;
    var shown, expected := Show(reapplied)[name].issues[i], Show(enhanced)[name].issues[i];
    assert shown.aiEnhanced && |shown.suggestion| >= |text|;
    assert expected == ShowIssue(bs[i]);
    assert expected.aiEnhanced ==> |expected.suggestion| <= |bs[i].suggestion|;
  }

  lemma {:induction false} LongText(n: nat) returns (text: string)
    ensures |text| > n
  {
    text := seq(n + 1, _ => 'x');
  }

  /** If a checker that did not fail has two issues with equal keys, there is an AI answer
      for which the snapshot route shows the enhancement of one on the other. */
  lemma DuplicateKeysDiverge(base: Results, name: string, i: nat, j: nat) returns (enhanced: Results)
    requires name in base && base[name].error.None? && i < j < |base[name].issues|
    requires IssueKey(base[name].issues[i]) == IssueKey(base[name].issues[j])
    ensures AIVersionOfResults(base, enhanced)
    ensures !SameDisplay(Show(Reapply(base, Snapshot(enhanced))), Show(enhanced))
  {
    var last := LastWithKey(base[name].issues, j);
    var text := LongText(|base[name].issues[i].suggestion|);
    enhanced := EnhanceOnly(base, name, last, text);
    EnhanceOnlyIsAIVersion(base, name, last, text);
    DuplicateShowsTwice(base, name, i, last, text);
  }

  ghost predicate ReapplyAlwaysMatches(base: Results) {
    forall enhanced: Results | AIVersionOfResults(base, enhanced) ::
      SameDisplay(Show(Reapply(base, Snapshot(enhanced))), Show(enhanced))
  }

  /** The snapshot route shows what the AI answered, whatever it answers, if and only if
      every checker that did not fail has issues with different keys. */
  lemma ReapplyMatchesIffUniqueKeys(base: Results)
    ensures ReapplyAlwaysMatches(base) <==> UniqueKeys(base)
  {
    if UniqueKeys(base) {
      forall enhanced: Results | AIVersionOfResults(base, enhanced)
        ensures SameDisplay(Show(Reapply(base, Snapshot(enhanced))), Show(enhanced))
      {
        ReapplyRouteMatches(base, enhanced);
      }
    } else {
      var name :| name in base && base[name].error.None? && !UniqueIssueKeys(base[name].issues);
      var i, j :| 0 <= i < j < |base[name].issues| && IssueKey(base[name].issues[i]) == IssueKey(base[name].issues[j]);
      var enhanced := DuplicateKeysDiverge(base, name, i, j);
    }
  }
}
