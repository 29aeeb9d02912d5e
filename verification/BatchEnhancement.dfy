/** Selection, deduplication and fan-out of one batched AI call
    (internal/checker/checker.go). */
module BatchEnhancement {
  import opened CheckerTypes
  import opened StableSort
  import opened FiniteSets
  import opened TextSearch

  const DEFAULT_MAX_ISSUES: nat := 15
  const DEFAULT_MIN_CONFIDENCE := 0.3

  datatype IssueRef = IssueRef(checker: string, idx: nat)

  datatype IssueContext = IssueContext(
    kind: string, severity: string, resource: string, namespace: string, message: string,
    staticSuggestion: string)

  /** An issue chosen for the call, with the place it came from. */
  datatype Entry = Entry(ctx: IssueContext, ref: IssueRef)

  datatype Suggestion = Suggestion(text: string, rootCause: string, confidence: real)

  datatype Reply = Failed(error: string) | Answer(suggestions: map<string, Suggestion>)

  // ------------------------------------------------------------------- collecting

  predicate ValidRef(results: Results, ref: IssueRef) {
    ref.checker in results && ref.idx < |results[ref.checker].issues|
  }

  function IssueAt(results: Results, ref: IssueRef): Issue
    requires ValidRef(results, ref)
  {
    results[ref.checker].issues[ref.idx]
  }

  /** What the batch may contain: non-Info issues of checkers that did not fail. */
  predicate Eligible(results: Results, ref: IssueRef) {
    && ValidRef(results, ref) && results[ref.checker].error.None?
    && IssueAt(results, ref).severity != SEVERITY_INFO
  }

  function ContextOf(issue: Issue): IssueContext {
    IssueContext(issue.kind, issue.severity, issue.resource, issue.namespace, issue.message,
                 issue.suggestion)
  }

  function EntriesOf(name: string, issues: seq<Issue>): seq<Entry> {
    if issues == [] then []
    else
      var n := |issues| - 1;
      EntriesOf(name, issues[..n])
      + if issues[n].severity == SEVERITY_INFO then []
        else [Entry(ContextOf(issues[n]), IssueRef(name, n))]
  }

  function Collected(names: seq<string>, results: Results): seq<Entry>
    requires forall name | name in names :: name in results
  {
    if names == [] then []
    else
      var n := |names| - 1;
      Collected(names[..n], results)
      + if results[names[n]].error.Some? then [] else EntriesOf(names[n], results[names[n]].issues)
  }

  method CollectIssuesForAI(results: Results) returns (entries: seq<Entry>)
    ensures exists names :: SortedKeys(names, results.Keys) && entries == Collected(names, results)
  {
    var order := SortKeys(results.Keys);
    entries := [];
    for n := 0 to |order|
      invariant entries == Collected(order[..n], results)
    {
      assert order[..n + 1][..n] == order[..n];
      if results[order[n]].error.None? {
        var more := CollectIssuesOf(order[n], results[order[n]].issues);
        entries := entries + more;
      }
    }
    assert order[..|order|] == order;
  }

  method CollectIssuesOf(name: string, issues: seq<Issue>) returns (entries: seq<Entry>)
    ensures entries == EntriesOf(name, issues)
  {
    entries := [];
    for i := 0 to |issues|
      invariant entries == EntriesOf(name, issues[..i])
    {
      assert issues[..i + 1][..i] == issues[..i];
      if issues[i].severity != SEVERITY_INFO {
        entries := entries + [Entry(ContextOf(issues[i]), IssueRef(name, i))];
      }
    }
    assert issues[..|issues|] == issues;
  }

  ghost predicate DistinctRefs(entries: seq<Entry>) {
    forall i, j | 0 <= i < j < |entries| :: entries[i].ref != entries[j].ref
  }

  lemma {:induction false} EntriesOfExact(name: string, issues: seq<Issue>)
    ensures forall e :: e in EntriesOf(name, issues) <==>
              && e.ref.checker == name && e.ref.idx < |issues|
              && issues[e.ref.idx].severity != SEVERITY_INFO && e.ctx == ContextOf(issues[e.ref.idx])
    ensures DistinctRefs(EntriesOf(name, issues))
  {
    if issues != [] {
      var n := |issues| - 1;
      EntriesOfExact(name, issues[..n]);
      forall e | e in EntriesOf(name, issues[..n]) ensures e.ref != IssueRef(name, n) {
      }
    }
  }

  lemma {:induction false} CollectedFrom(names: seq<string>, results: Results)
    requires forall name | name in names :: name in results
    requires forall i, j | 0 <= i < j < |names| :: names[i] != names[j]
    ensures forall e :: e in Collected(names, results) <==>
              e.ref.checker in names && Eligible(results, e.ref) && e.ctx == ContextOf(IssueAt(results, e.ref))
    ensures DistinctRefs(Collected(names, results))
  {
    if names != [] {
      var n := |names| - 1;
      CollectedFrom(names[..n], results);
      EntriesOfExact(names[n], results[names[n]].issues);
      assert names[n] !in names[..n];
      assert names == names[..n] + [names[n]];
    }
  }

  /** Every eligible issue is collected exactly once, and nothing else is. */
  lemma CollectedExactlyOnce(names: seq<string>, results: Results)
    requires SortedKeys(names, results.Keys)
    ensures forall e :: e in Collected(names, results) <==>
              Eligible(results, e.ref) && e.ctx == ContextOf(IssueAt(results, e.ref))
    ensures DistinctRefs(Collected(names, results))
  {
    forall i, j | 0 <= i < j < |names| ensures names[i] != names[j] {
      StringLessTotal(names[i], names[j]);
    }
    CollectedFrom(names, results);
  }

  // ------------------------------------------------------------------- capping

  function SeverityRank(severity: string): nat {
    if severity == SEVERITY_CRITICAL then 0
    else if severity == SEVERITY_WARNING then 1
    else if severity == SEVERITY_INFO then 2
    else 3
  }

  predicate Outranks(a: Entry, b: Entry) {
    SeverityRank(a.ctx.severity) < SeverityRank(b.ctx.severity)
  }

  function Limit(maxIssues: int): nat {
    if maxIssues <= 0 then DEFAULT_MAX_ISSUES else maxIssues
  }

  function Kept(entries: seq<Entry>, maxIssues: int): (kept: seq<Entry>)
    ensures |kept| == if |entries| > Limit(maxIssues) then Limit(maxIssues) else |entries|
  {
    if |entries| > Limit(maxIssues) then
      SortPermutes(entries, Outranks);
      Sort(entries, Outranks)[..Limit(maxIssues)]
    else entries
  }

  lemma SameElementsDistinctRefs(a: seq<Entry>, b: seq<Entry>)
    requires multiset(a) == multiset(b) && DistinctRefs(a)
    ensures DistinctRefs(b)
    ensures forall e :: e in a <==> e in b
  {
    forall e ensures e in a <==> e in b {
      assert e in multiset(a) <==> e in multiset(b);
    }
    forall i, j | 0 <= i < j < |a| ensures a[i] != a[j] {
      assert a[i].ref != a[j].ref;
    }
    DistinctIsMultiplicityFree(a);
    forall i, j | 0 <= i < j < |b| ensures b[i].ref != b[j].ref {
      TwiceMeansTwo(b, i, j);
      assert b[i] in a && b[j] in a;
    }
  }

  /** The cap keeps as many issues as allowed, each once, and no issue left out outranks
      a kept one. */
  lemma KeptAreTheMostSevere(entries: seq<Entry>, maxIssues: int)
    requires DistinctRefs(entries)
    ensures DistinctRefs(Kept(entries, maxIssues))
    ensures var limit := if maxIssues <= 0 then 15 else maxIssues;
            |Kept(entries, maxIssues)| == if |entries| > limit then limit else |entries|
    ensures forall e | e in Kept(entries, maxIssues) :: e in entries
    ensures forall k, e | k in Kept(entries, maxIssues) && e in entries && e !in Kept(entries, maxIssues) ::
              !Outranks(e, k)
  {
    if |entries| > Limit(maxIssues) {
      var sorted := Sort(entries, Outranks);
      SortPermutes(entries, Outranks);
      SortSorts(entries, Outranks);
      SameElementsDistinctRefs(entries, sorted);
      HeadOutranksTail(sorted, Limit(maxIssues));
    }
  }

  /** A critical issue is left out only if every kept one is critical, a warning only if
      every kept one is critical or a warning. */
  lemma LeftOutIsLessSevere(entries: seq<Entry>, maxIssues: int, k: Entry, e: Entry)
    requires DistinctRefs(entries)
    requires k in Kept(entries, maxIssues) && e in entries && e !in Kept(entries, maxIssues)
    ensures e.ctx.severity == "Critical" ==> k.ctx.severity == "Critical"
    ensures e.ctx.severity == "Warning" ==> k.ctx.severity == "Critical" || k.ctx.severity == "Warning"
  {
    KeptAreTheMostSevere(entries, maxIssues);
  }

  ghost function Criticals(entries: seq<Entry>): set<Entry> {
    set e | e in entries && e.ctx.severity == "Critical"
  }

  /** No critical issue is left out as long as the limit, fifteen if none is given, has room
      for all of them. */
  lemma {:induction false} CriticalsAreKept(entries: seq<Entry>, maxIssues: int, e: Entry)
    requires DistinctRefs(entries) && e in Criticals(entries)
    requires |Criticals(entries)| <= if maxIssues <= 0 then 15 else maxIssues
    ensures e in Kept(entries, maxIssues)
  {
    var kept := Kept(entries, maxIssues);
    KeptAreTheMostSevere(entries, maxIssues);
    if e !in kept && |entries| > Limit(maxIssues) {
      forall k | k in kept ensures k in Criticals(entries) {
        LeftOutIsLessSevere(entries, maxIssues, k, e);
      }
      forall i, j | 0 <= i < j < |kept| ensures kept[i] != kept[j] {
        assert kept[i].ref != kept[j].ref;
      }
      SetOfDistinct(kept);
      var all := (set k | k in kept) + {e};
      SubsetSize(all, Criticals(entries));
    }
  }

  lemma HeadOutranksTail(sorted: seq<Entry>, n: nat)
    requires Sorted(sorted, Outranks) && n <= |sorted|
    ensures forall k, e | k in sorted[..n] && e in sorted && e !in sorted[..n] :: !Outranks(e, k)
  {
    var head, tail := sorted[..n], sorted[n..];
    assert sorted == head + tail;
    forall k, e | k in head && e in sorted && e !in head ensures !Outranks(e, k) {
      var i :| 0 <= i < n && head[i] == k;
      var j :| 0 <= j < |tail| && tail[j] == e;
      assert sorted[i] == k && sorted[n + j] == e;
    }
  }

  lemma {:induction false} TiesOfPrefix(s: seq<Entry>, n: nat, x: Entry)
    requires n <= |s|
    ensures Ties(s[..n], x, Outranks) <= Ties(s, x, Outranks)
  {
    if n < |s| {
      TiesOfPrefix(s[..|s| - 1], n, x);
      assert s[..|s| - 1][..n] == s[..n];
    } else {
      assert s[..n] == s;
    }
  }

  /** Within a severity the earliest issues are the ones kept. */
  lemma KeptPreferEarlier(entries: seq<Entry>, maxIssues: int, x: Entry)
    ensures Ties(Kept(entries, maxIssues), x, Outranks) <= Ties(entries, x, Outranks)
  {
    if |entries| > Limit(maxIssues) {
      SortPermutes(entries, Outranks);
      SortIsStable(entries, x, Outranks);
      TiesOfPrefix(Sort(entries, Outranks), Limit(maxIssues), x);
    }
  }

  // ------------------------------------------------------------------- deduplicating

  /** Message normalisation is a parameter; the namespace part is always empty here. */
  function Signature(ctx: IssueContext, normalize: string -> string): string {
    ctx.kind + "|" + ctx.severity + "|" + "" + "|" + normalize(ctx.message)
  }

  /** Two issues are merged if and only if kind, severity and normalised message agree, as
      long as kind and severity do not contain the separator. */
  lemma SignaturesIdentify(a: IssueContext, b: IssueContext, normalize: string -> string)
    requires '|' !in a.kind && '|' !in b.kind && '|' !in a.severity && '|' !in b.severity
    ensures Signature(a, normalize) == Signature(b, normalize) <==>
            a.kind == b.kind && a.severity == b.severity && normalize(a.message) == normalize(b.message)
  {
    if Signature(a, normalize) == Signature(b, normalize) {
      var x, y := a.severity + "||" + normalize(a.message), b.severity + "||" + normalize(b.message);
      assert Signature(a, normalize) == a.kind + ['|'] + x && Signature(b, normalize) == b.kind + ['|'] + y;
      SameCut(a.kind, x, b.kind, y, '|');
      assert x == a.severity + ['|'] + ("|" + normalize(a.message)) && y == b.severity + ['|'] + ("|" + normalize(b.message));
      SameCut(a.severity, "|" + normalize(a.message), b.severity, "|" + normalize(b.message), '|');
      assert normalize(a.message) == ("|" + normalize(a.message))[1..];
      assert normalize(b.message) == ("|" + normalize(b.message))[1..];
    }
  }

  /** Distinct signatures in order of first appearance. */
  function Signatures(entries: seq<Entry>, normalize: string -> string): seq<string> {
    if entries == [] then []
    else
      var before := Signatures(entries[..|entries| - 1], normalize);
      var sig := Signature(entries[|entries| - 1].ctx, normalize);
      if sig in before then before else before + [sig]
  }

  function RefsWith(entries: seq<Entry>, sig: string, normalize: string -> string): seq<IssueRef> {
    if entries == [] then []
    else
      var last := entries[|entries| - 1];
      RefsWith(entries[..|entries| - 1], sig, normalize)
      + if Signature(last.ctx, normalize) == sig then [last.ref] else []
  }

  lemma {:induction false} SignaturesExact(entries: seq<Entry>, normalize: string -> string)
    ensures forall sig :: sig in Signatures(entries, normalize) <==>
              exists e | e in entries :: Signature(e.ctx, normalize) == sig
    ensures forall i, j | 0 <= i < j < |Signatures(entries, normalize)| ::
              Signatures(entries, normalize)[i] != Signatures(entries, normalize)[j]
  {
    if entries != [] {
      var init, last := entries[..|entries| - 1], entries[|entries| - 1];
      SignaturesExact(init, normalize);
      assert entries == init + [last];
    }
  }

  lemma {:induction false} RefsWithExact(entries: seq<Entry>, sig: string, normalize: string -> string)
    requires DistinctRefs(entries)
    ensures forall ref :: ref in RefsWith(entries, sig, normalize) <==>
              exists e | e in entries :: e.ref == ref && Signature(e.ctx, normalize) == sig
    ensures forall i, j | 0 <= i < j < |RefsWith(entries, sig, normalize)| ::
              RefsWith(entries, sig, normalize)[i] != RefsWith(entries, sig, normalize)[j]
  {
    RefsWithMembers(entries, sig, normalize);
    if entries != [] {
      var init, last := entries[..|entries| - 1], entries[|entries| - 1];
      LastRefIsNew(entries);
      RefsWithExact(init, sig, normalize);
      RefsWithMembers(init, sig, normalize);
      assert last.ref !in RefsWith(init, sig, normalize);
    }
  }

  lemma LastRefIsNew(entries: seq<Entry>)
    requires DistinctRefs(entries) && entries != []
    ensures DistinctRefs(entries[..|entries| - 1])
    ensures forall e | e in entries[..|entries| - 1] :: e.ref != entries[|entries| - 1].ref
  {
    var init := entries[..|entries| - 1];
    forall e | e in init ensures e.ref != entries[|entries| - 1].ref {
      var i :| 0 <= i < |init| && init[i] == e;
      assert entries[i] == e;
    }
  }

  lemma {:induction false} RefsWithMembers(entries: seq<Entry>, sig: string, normalize: string -> string)
    ensures forall ref :: ref in RefsWith(entries, sig, normalize) <==>
              exists e | e in entries :: e.ref == ref && Signature(e.ctx, normalize) == sig
  {
    if entries != [] {
      var init, last := entries[..|entries| - 1], entries[|entries| - 1];
      RefsWithMembers(init, sig, normalize);
      assert entries == init + [last];
    }
  }

  /** The groups partition the kept issues: each is in exactly one. */
  lemma GroupsPartition(entries: seq<Entry>, normalize: string -> string, e: Entry) returns (k: nat)
    requires DistinctRefs(entries) && e in entries
    ensures k < |Signatures(entries, normalize)|
    ensures Signatures(entries, normalize)[k] == Signature(e.ctx, normalize)
    ensures forall m | 0 <= m < |Signatures(entries, normalize)| ::
              e.ref in RefsWith(entries, Signatures(entries, normalize)[m], normalize) <==> m == k
  {
    var order := Signatures(entries, normalize);
    SignaturesExact(entries, normalize);
    assert Signature(e.ctx, normalize) in order;
    k :| 0 <= k < |order| && order[k] == Signature(e.ctx, normalize);
    forall m | 0 <= m < |order|
      ensures e.ref in RefsWith(entries, order[m], normalize) <==> m == k
    {
      RefsWithExact(entries, order[m], normalize);
      if e.ref in RefsWith(entries, order[m], normalize) {
        var f :| f in entries && f.ref == e.ref && Signature(f.ctx, normalize) == order[m];
        assert f == e;
      }
    }
  }

  /** The first kept entry with a signature stands for all of them. */
  function FirstWith(entries: seq<Entry>, sig: string, normalize: string -> string): Option<IssueContext> {
    if entries == [] then None
    else
      var before, last := FirstWith(entries[..|entries| - 1], sig, normalize), entries[|entries| - 1];
      if before.Some? then before
      else if Signature(last.ctx, normalize) == sig then Some(last.ctx)
      else None
  }

  lemma {:induction false} FirstWithIsFirst(entries: seq<Entry>, sig: string, normalize: string -> string)
    returns (n: nat)
    requires FirstWith(entries, sig, normalize).Some?
    ensures n < |entries| && FirstWith(entries, sig, normalize) == Some(entries[n].ctx)
    ensures Signature(entries[n].ctx, normalize) == sig
    ensures forall m | 0 <= m < n :: Signature(entries[m].ctx, normalize) != sig
  {
    var init := entries[..|entries| - 1];
    if FirstWith(init, sig, normalize).Some? {
      n := FirstWithIsFirst(init, sig, normalize);
      assert forall m | 0 <= m <= n :: init[m] == entries[m];
    } else {
      n := |entries| - 1;
      forall m | 0 <= m < n ensures Signature(entries[m].ctx, normalize) != sig {
        NoneWith(init, sig, normalize, m);
      }
    }
  }

  lemma {:induction false} NoneWith(entries: seq<Entry>, sig: string, normalize: string -> string, m: nat)
    requires FirstWith(entries, sig, normalize).None? && m < |entries|
    ensures Signature(entries[m].ctx, normalize) != sig
  {
    if m < |entries| - 1 {
      NoneWith(entries[..|entries| - 1], sig, normalize, m);
    }
  }

  // What the two maps hold for one signature.
  predicate DedupedAt(kept: seq<Entry>, normalize: string -> string, groups: map<string, seq<IssueRef>>,
                      representatives: map<string, IssueContext>, sig: string)
  {
    if sig in groups then
      && groups[sig] == RefsWith(kept, sig, normalize)
      && sig in representatives && FirstWith(kept, sig, normalize) == Some(representatives[sig])
    else
      RefsWith(kept, sig, normalize) == [] && sig !in representatives && FirstWith(kept, sig, normalize) == None
  }

  ghost predicate Deduped(kept: seq<Entry>, normalize: string -> string, order: seq<string>,
                          groups: map<string, seq<IssueRef>>, representatives: map<string, IssueContext>)
  {
    && order == Signatures(kept, normalize)
    && (forall sig :: sig in order <==> sig in groups)
    && (forall sig :: DedupedAt(kept, normalize, groups, representatives, sig))
  }

  function AddRef(groups: map<string, seq<IssueRef>>, sig: string, ref: IssueRef): map<string, seq<IssueRef>> {
    groups[sig := (if sig in groups then groups[sig] else []) + [ref]]
  }

  lemma {:induction false} DedupAtStep(kept: seq<Entry>, e: Entry, normalize: string -> string,
                                       groups: map<string, seq<IssueRef>>,
                                       representatives: map<string, IssueContext>, s: string)
    requires DedupedAt(kept, normalize, groups, representatives, s)
    ensures var sig := Signature(e.ctx, normalize);
            DedupedAt(kept + [e], normalize, AddRef(groups, sig, e.ref),
                      if sig in groups then representatives else representatives[sig := e.ctx], s)
  {
    assert (kept + [e])[..|kept|] == kept;
  }

  lemma {:induction false} DedupStep(kept: seq<Entry>, e: Entry, normalize: string -> string, order: seq<string>,
                                     groups: map<string, seq<IssueRef>>, representatives: map<string, IssueContext>)
    requires Deduped(kept, normalize, order, groups, representatives)
    ensures var sig := Signature(e.ctx, normalize);
            Deduped(kept + [e], normalize, if sig in groups then order else order + [sig], AddRef(groups, sig, e.ref),
                    if sig in groups then representatives else representatives[sig := e.ctx])
  {
    var sig := Signature(e.ctx, normalize);
    var reps := if sig in groups then representatives else representatives[sig := e.ctx];
    forall s ensures DedupedAt(kept + [e], normalize, AddRef(groups, sig, e.ref), reps, s) {
      DedupAtStep(kept, e, normalize, groups, representatives, s);
    }
    assert (kept + [e])[..|kept|] == kept;
  }

  method Deduplicate(kept: seq<Entry>, normalize: string -> string)
    returns (order: seq<string>, groups: map<string, seq<IssueRef>>, representatives: map<string, IssueContext>)
    ensures Deduped(kept, normalize, order, groups, representatives)
  {
    order, groups, representatives := [], map[], map[];
    for i := 0 to |kept|
      invariant Deduped(kept[..i], normalize, order, groups, representatives)
    {
      DedupStep(kept[..i], kept[i], normalize, order, groups, representatives);
      assert kept[..i + 1] == kept[..i] + [kept[i]];
      var sig := Signature(kept[i].ctx, normalize);
      if sig !in groups {
        representatives := representatives[sig := kept[i].ctx];
        order := order + [sig];
      }
      groups := AddRef(groups, sig, kept[i].ref);
    }
    assert kept[..|kept|] == kept;
  }

  // ------------------------------------------------------------------- fanning out

  function Digits(n: nat): string {
    if n < 10 then [['0', '1', '2', '3', '4', '5', '6', '7', '8', '9'][n]]
    else Digits(n / 10) + Digits(n % 10)
  }

  function Value(s: string): nat {
    if s == "" then 0
    else
      var c := s[|s| - 1];
      10 * Value(s[..|s| - 1]) + if '0' <= c <= '9' then (c - '0') as nat else 0
  }

  lemma {:induction false} DigitsRoundTrip(n: nat)
    ensures Value(Digits(n)) == n
  {
    if n >= 10 {
      DigitsRoundTrip(n / 10);
      assert Digits(n)[..|Digits(n)| - 1] == Digits(n / 10);
    }
  }

  /** The reply key of the i-th issue sent. */
  function ReplyKey(i: nat): string {
    "issue_" + Digits(i)
  }

  lemma ReplyKeysDiffer(i: nat, j: nat)
    requires i != j
    ensures ReplyKey(i) != ReplyKey(j)
  {
    DigitsRoundTrip(i);
    DigitsRoundTrip(j);
    assert ReplyKey(i)[6..] == Digits(i) && ReplyKey(j)[6..] == Digits(j);
  }

  /** A reply key is "issue_" and the position in decimal digits, without leading zeros. */
  lemma {:induction false} ReplyKeyIsNumbered(i: nat)
    ensures var digits := ReplyKey(i)[6..];
            && ReplyKey(i) == "issue_" + digits && Value(digits) == i && digits != ""
            && (forall k :: 0 <= k < |digits| ==> '0' <= digits[k] <= '9') && (i > 0 ==> digits[0] != '0')
  {
    DigitsRoundTrip(i);
    DigitsAreDigits(i);
    assert ReplyKey(i)[6..] == Digits(i);
  }

  lemma {:induction false} DigitsAreDigits(n: nat)
    ensures Digits(n) != "" && (forall k :: 0 <= k < |Digits(n)| ==> '0' <= Digits(n)[k] <= '9')
    ensures n > 0 ==> Digits(n)[0] != '0'
  {
    if n >= 10 {
      DigitsAreDigits(n / 10);
      DigitsAreDigits(n % 10);
    }
  }

  function Threshold(minConfidence: real): real {
    if minConfidence <= 0.0 then DEFAULT_MIN_CONFIDENCE else minConfidence
  }

  /** Reply number `i`, if the provider gave one that counts. */
  function AcceptedReply(suggestions: map<string, Suggestion>, i: nat, minConfidence: real): Option<Suggestion> {
    if ReplyKey(i) !in suggestions then None
    else
      var s := suggestions[ReplyKey(i)];
      if s.text == "" || s.confidence <= Threshold(minConfidence) then None else Some(s)
  }

  function AcceptedReplies(suggestions: map<string, Suggestion>, n: nat, minConfidence: real)
    : seq<Option<Suggestion>>
  {
    seq(n, i requires 0 <= i < n => AcceptedReply(suggestions, i, minConfidence))
  }

  /** Applies to each issue of a checker the suggestion planned for it. */
  function ApplyTo(name: string, issues: seq<Issue>, plan: map<IssueRef, Suggestion>): seq<Issue> {
    seq(|issues|, i requires 0 <= i < |issues| =>
      var ref := IssueRef(name, i);
      if ref in plan then Enhance(issues[i], plan[ref].text, plan[ref].rootCause) else issues[i])
  }

  function Apply(results: Results, plan: map<IssueRef, Suggestion>): Results {
    map name | name in results ::
      results[name].(issues := ApplyTo(name, results[name].issues, plan))
  }

  /** One suggestion for every member of a group. */
  function Spread(refs: seq<IssueRef>, s: Suggestion): (plan: map<IssueRef, Suggestion>)
    ensures plan.Keys == set ref | ref in refs
    ensures forall ref | ref in refs :: plan[ref] == s
  {
    if refs == [] then map[] else Spread(refs[..|refs| - 1], s)[refs[|refs| - 1] := s]
  }

  /** The groups of references, one per signature sent. */
  function Groups(kept: seq<Entry>, normalize: string -> string): seq<seq<IssueRef>> {
    var order := Signatures(kept, normalize);
    seq(|order|, k requires 0 <= k < |order| => RefsWith(kept, order[k], normalize))
  }

  /** The accepted replies, spread over the members of their groups. */
  function Plan(groups: seq<seq<IssueRef>>, replies: seq<Option<Suggestion>>): map<IssueRef, Suggestion>
    requires |replies| == |groups|
  {
    if groups == [] then map[]
    else
      var n := |groups| - 1;
      var before := Plan(groups[..n], replies[..n]);
      if replies[n].Some? then before + Spread(groups[n], replies[n].value) else before
  }

  lemma ApplyNothing(results: Results)
    ensures Apply(results, map[]) == results
  {
    forall name | name in results ensures Apply(results, map[])[name] == results[name] {
      assert ApplyTo(name, results[name].issues, map[]) == results[name].issues;
    }
  }

  lemma ApplyComposes(results: Results, first: map<IssueRef, Suggestion>, second: map<IssueRef, Suggestion>)
    requires first.Keys !! second.Keys
    ensures Apply(Apply(results, first), second) == Apply(results, first + second)
  {
    forall name | name in results
      ensures Apply(Apply(results, first), second)[name] == Apply(results, first + second)[name]
    {
      var issues := results[name].issues;
      assert ApplyTo(name, ApplyTo(name, issues, first), second) == ApplyTo(name, issues, first + second);
    }
  }

  // Enhances one issue in place.
  method EnhanceOne(results: Results, ref: IssueRef, s: Suggestion) returns (out: Results)
    requires ValidRef(results, ref)
    ensures out == Apply(results, map[ref := s])
  {
    var issues := results[ref.checker].issues;
    out := results[ref.checker := results[ref.checker].(issues :=
             issues[ref.idx := Enhance(issues[ref.idx], s.text, s.rootCause)])];
    OneAtATime(results, ref, s, out);
  }

  lemma SpreadOneMore(refs: seq<IssueRef>, ref: IssueRef, s: Suggestion)
    requires ref !in refs
    ensures Spread(refs + [ref], s) == Spread(refs, s) + map[ref := s]
    ensures Spread(refs, s).Keys !! (map[ref := s]).Keys
  {
    assert (refs + [ref])[..|refs|] == refs;
  }

  method ApplyToGroup(results: Results, refs: seq<IssueRef>, s: Suggestion)
    returns (out: Results, count: nat)
    requires forall ref | ref in refs :: ValidRef(results, ref)
    requires forall i, j | 0 <= i < j < |refs| :: refs[i] != refs[j]
    ensures out == Apply(results, Spread(refs, s))
    ensures count == |refs|
  {
    out, count := results, 0;
    ApplyNothing(results);
    ghost var done: seq<IssueRef> := [];
    for i := 0 to |refs|
      invariant done == refs[..i] && count == i
      invariant out == Apply(results, Spread(done, s))
    {
      var ref := refs[i];
      assert ref in refs && ref !in done;
      AppliedKeepsRefs(results, Spread(done, s), ref);
      out := EnhanceOne(out, ref, s);
      count := count + 1;
      ApplyComposes(results, Spread(done, s), map[ref := s]);
      SpreadOneMore(done, ref, s);
      done := done + [ref];
    }
    assert done == refs;
  }

  lemma OneAtATime(results: Results, ref: IssueRef, s: Suggestion, out: Results)
    requires ValidRef(results, ref)
    requires out == results[ref.checker := results[ref.checker].(issues :=
               results[ref.checker].issues[ref.idx := Enhance(IssueAt(results, ref), s.text, s.rootCause)])]
    ensures out == Apply(results, map[ref := s])
  {
    forall name | name in results ensures out[name] == Apply(results, map[ref := s])[name] {
      assert out[name].issues == ApplyTo(name, results[name].issues, map[ref := s]);
    }
  }

  ghost predicate DisjointGroups(groups: seq<seq<IssueRef>>) {
    && (forall k, m, ref | 0 <= k < |groups| && 0 <= m < |groups| && ref in groups[k] && ref in groups[m] ::
          k == m)
    && (forall k | 0 <= k < |groups| ::
          forall i, j | 0 <= i < j < |groups[k]| :: groups[k][i] != groups[k][j])
  }

  lemma {:induction false} PlanMisses(groups: seq<seq<IssueRef>>, replies: seq<Option<Suggestion>>, ref: IssueRef)
    requires |replies| == |groups|
    requires forall m | 0 <= m < |groups| :: ref !in groups[m]
    ensures ref !in Plan(groups, replies)
  {
    if groups != [] {
      PlanMisses(groups[..|groups| - 1], replies[..|groups| - 1], ref);
    }
  }

  /** A member of group k is changed exactly when reply k is accepted, and then by it. */
  lemma {:induction false} PlanExact(groups: seq<seq<IssueRef>>, replies: seq<Option<Suggestion>>,
                                     ref: IssueRef, k: nat)
    requires |replies| == |groups| && k < |groups| && ref in groups[k]
    requires forall m | 0 <= m < |groups| && ref in groups[m] :: m == k
    ensures ref in Plan(groups, replies) <==> replies[k].Some?
    ensures ref in Plan(groups, replies) ==> Plan(groups, replies)[ref] == replies[k].value
  {
    var n := |groups| - 1;
    if k < n {
      PlanExact(groups[..n], replies[..n], ref, k);
    } else {
      PlanMisses(groups[..n], replies[..n], ref);
    }
  }

  lemma GroupsAreDisjoint(kept: seq<Entry>, normalize: string -> string)
    requires DistinctRefs(kept)
    ensures DisjointGroups(Groups(kept, normalize))
    ensures forall k, ref | 0 <= k < |Groups(kept, normalize)| && ref in Groups(kept, normalize)[k] ::
              exists e | e in kept :: e.ref == ref
  {
    var order := Signatures(kept, normalize);
    SignaturesExact(kept, normalize);
    forall k | 0 <= k < |order|
      ensures forall ref | ref in RefsWith(kept, order[k], normalize) ::
                exists e | e in kept :: e.ref == ref && Signature(e.ctx, normalize) == order[k]
      ensures forall i, j | 0 <= i < j < |RefsWith(kept, order[k], normalize)| ::
                RefsWith(kept, order[k], normalize)[i] != RefsWith(kept, order[k], normalize)[j]
    {
      RefsWithExact(kept, order[k], normalize);
    }
  }

  lemma {:induction false} SetOfDistinct<T>(s: seq<T>)
    requires forall i, j | 0 <= i < j < |s| :: s[i] != s[j]
    ensures |set x | x in s| == |s|
  {
    if s != [] {
      SetOfDistinct(s[1..]);
      assert (set x | x in s) == {s[0]} + set x | x in s[1..];
    }
  }

  lemma PlanStep(groups: seq<seq<IssueRef>>, replies: seq<Option<Suggestion>>, i: nat)
    requires |replies| == |groups| && DisjointGroups(groups) && i < |groups|
    ensures var plan, plan' := Plan(groups[..i], replies[..i]), Plan(groups[..i + 1], replies[..i + 1]);
            if replies[i].None? then plan' == plan
            else
              var more := Spread(groups[i], replies[i].value);
              plan' == plan + more && plan.Keys !! more.Keys && |plan'| == |plan| + |groups[i]|
  {
    assert groups[..i + 1][..i] == groups[..i] && replies[..i + 1][..i] == replies[..i];
    if replies[i].Some? {
      var plan, more := Plan(groups[..i], replies[..i]), Spread(groups[i], replies[i].value);
      forall ref | ref in groups[i] ensures ref !in plan {
        PlanMisses(groups[..i], replies[..i], ref);
      }
      SetOfDistinct(groups[i]);
      assert (plan + more).Keys == plan.Keys + more.Keys;
    }
  }

  lemma AppliedKeepsRefs(results: Results, plan: map<IssueRef, Suggestion>, ref: IssueRef)
    ensures ValidRef(Apply(results, plan), ref) <==> ValidRef(results, ref)
  {
  }

  method FanOut(results: Results, groups: seq<seq<IssueRef>>, replies: seq<Option<Suggestion>>)
    returns (out: Results, enhanced: nat)
    requires |replies| == |groups| && DisjointGroups(groups)
    requires forall k, ref | 0 <= k < |groups| && ref in groups[k] :: ValidRef(results, ref)
    ensures out == Apply(results, Plan(groups, replies))
    ensures enhanced == |Plan(groups, replies)|
  {
    out, enhanced := results, 0;
    ApplyNothing(results);
    for i := 0 to |groups|
      invariant out == Apply(results, Plan(groups[..i], replies[..i]))
      invariant enhanced == |Plan(groups[..i], replies[..i])|
    {
      PlanStep(groups, replies, i);
      if replies[i].Some? {
        ghost var plan := Plan(groups[..i], replies[..i]);
        forall ref | ref in groups[i] ensures ValidRef(out, ref) {
          AppliedKeepsRefs(results, plan, ref);
        }
        var count;
        out, count := ApplyToGroup(out, groups[i], replies[i].value);
        enhanced := enhanced + count;
        ApplyComposes(results, plan, Spread(groups[i], replies[i].value));
      }
    }
    assert groups[..|groups|] == groups && replies[..|groups|] == replies;
  }

  // ------------------------------------------------------------------- the whole call

  lemma DedupedInOrder(kept: seq<Entry>, normalize: string -> string, order: seq<string>,
                       groups: map<string, seq<IssueRef>>, representatives: map<string, IssueContext>)
    requires Deduped(kept, normalize, order, groups, representatives)
    ensures forall k | 0 <= k < |order| ::
              && order[k] in groups && groups[order[k]] == RefsWith(kept, order[k], normalize)
              && order[k] in representatives
              && FirstWith(kept, order[k], normalize) == Some(representatives[order[k]])
  {
    forall k | 0 <= k < |order| ensures DedupedAt(kept, normalize, groups, representatives, order[k]) && order[k] in groups {
      assert order[k] in order;
    }
  }

  // The entries of a map in the order of the reply keys.
  method InOrder<V>(order: seq<string>, m: map<string, V>) returns (vs: seq<V>)
    requires forall sig | sig in order :: sig in m
    ensures |vs| == |order| && forall k | 0 <= k < |order| :: vs[k] == m[order[k]]
  {
    vs := [];
    for i := 0 to |order|
      invariant |vs| == i && forall k | 0 <= k < i :: vs[k] == m[order[k]]
    {
      vs := vs + [m[order[i]]];
    }
  }

  datatype Outcome = Outcome(results: Results, enhanced: nat, total: nat, error: Option<string>)

  /** What a batch call does with the collected issues: it sends the first issue of each
      signature among the kept ones, in order, applies the plan of the accepted replies and
      counts it; without a request or an answer it changes nothing. */
  ghost predicate BatchOutcome(o: Outcome, sent: seq<IssueContext>, results: Results, entries: seq<Entry>, enabled: bool,
                               maxIssues: int, minConfidence: real, normalize: string -> string,
                               analyze: seq<IssueContext> -> Reply)
  {
    var kept := Kept(entries, maxIssues);
    && o.total == (if enabled then |entries| else 0)
    && if !enabled || entries == [] then o.results == results && o.enhanced == 0 && o.error == None
       else
         && |sent| == |Signatures(kept, normalize)|
         && (forall i | 0 <= i < |sent| ::
               FirstWith(kept, Signatures(kept, normalize)[i], normalize) == Some(sent[i]))
         && match analyze(sent)
            case Failed(error) => o.results == results && o.enhanced == 0 && o.error == Some(error)
            case Answer(suggestions) =>
              var groups := Groups(kept, normalize);
              var plan := Plan(groups, AcceptedReplies(suggestions, |groups|, minConfidence));
              o.results == Apply(results, plan) && o.enhanced == |plan| && o.error == None
  }

  /** `analyze` is the provider, enriched and sanitised on the way: any function of the
      issues sent.  `sent[i]` is what reply key i is about. */
  method EnhanceAllWithAI(results: Results, enabled: bool, maxIssues: int, minConfidence: real,
                          normalize: string -> string, analyze: seq<IssueContext> -> Reply)
    returns (o: Outcome, sent: seq<IssueContext>)
    ensures exists names :: SortedKeys(names, results.Keys) &&
              BatchOutcome(o, sent, results, Collected(names, results), enabled, maxIssues, minConfidence, normalize, analyze)
  {
    sent := [];
    var entries := CollectIssuesForAI(results);
    ghost var names :| SortedKeys(names, results.Keys) && entries == Collected(names, results);
    if !enabled || entries == [] {
      return Outcome(results, 0, 0, None), sent;
    }
    CollectedExactlyOnce(names, results);
    o, sent := EnhanceEntries(results, entries, maxIssues, minConfidence, normalize, analyze);
  }

  lemma KeptGroupsAreValid(results: Results, entries: seq<Entry>, maxIssues: int, normalize: string -> string)
    requires DistinctRefs(entries) && forall e | e in entries :: Eligible(results, e.ref)
    ensures var groups := Groups(Kept(entries, maxIssues), normalize);
            && DisjointGroups(groups)
            && forall k, ref | 0 <= k < |groups| && ref in groups[k] :: ValidRef(results, ref)
  {
    KeptAreTheMostSevere(entries, maxIssues);
    GroupsAreDisjoint(Kept(entries, maxIssues), normalize);
  }

  method EnhanceEntries(results: Results, entries: seq<Entry>, maxIssues: int, minConfidence: real,
                        normalize: string -> string, analyze: seq<IssueContext> -> Reply)
    returns (o: Outcome, sent: seq<IssueContext>)
    requires entries != [] && DistinctRefs(entries)
    requires forall e | e in entries :: Eligible(results, e.ref)
    ensures BatchOutcome(o, sent, results, entries, true, maxIssues, minConfidence, normalize, analyze)
  {
    KeptGroupsAreValid(results, entries, maxIssues, normalize);
    var chosen := Kept(entries, maxIssues);
    var order, groups, representatives := Deduplicate(chosen, normalize);
    DedupedInOrder(chosen, normalize, order, groups, representatives);
    sent := InOrder(order, representatives);
    var members := InOrder(order, groups);
    assert members == Groups(chosen, normalize);
    match analyze(sent)
    case Failed(error) =>
      o := Outcome(results, 0, |entries|, Some(error));
    case Answer(suggestions) =>
      var replies := AcceptedReplies(suggestions, |members|, minConfidence);
      var out, enhanced := FanOut(results, members, replies);
      o := Outcome(out, enhanced, |entries|, None);
  }

  /** A batch call only ever enhances issues, once each, and only eligible ones; so its
      outcome is the kind of result the dashboard routes agree on. */
  lemma BatchOnlyEnhances(results: Results, names: seq<string>, maxIssues: int, normalize: string -> string,
                          replies: seq<Option<Suggestion>>)
    requires SortedKeys(names, results.Keys)
    requires |replies| == |Groups(Kept(Collected(names, results), maxIssues), normalize)|
    ensures var kept := Kept(Collected(names, results), maxIssues);
            var plan := Plan(Groups(kept, normalize), replies);
            && (forall ref | ref in plan :: Eligible(results, ref))
            && AIVersionOfResults(results, Apply(results, plan))
  {
    var entries := Collected(names, results);
    var kept := Kept(entries, maxIssues);
    var groups := Groups(kept, normalize);
    var plan := Plan(groups, replies);
    CollectedExactlyOnce(names, results);
    KeptAreTheMostSevere(entries, maxIssues);
    GroupsAreDisjoint(kept, normalize);
    forall ref | ref in plan ensures Eligible(results, ref) {
      if forall m | 0 <= m < |groups| :: ref !in groups[m] {
        PlanMisses(groups, replies, ref);
      }
    }
    AppliedIsAIVersion(results, plan);
  }

  lemma AppliedIsAIVersion(results: Results, plan: map<IssueRef, Suggestion>)
    requires forall ref | ref in plan :: Eligible(results, ref)
    ensures AIVersionOfResults(results, Apply(results, plan))
  {
    var out := Apply(results, plan);
    forall name | name in results
      ensures AIVersionOfIssues(results[name].issues, out[name].issues)
      ensures results[name].error.Some? ==> out[name].issues == results[name].issues
    {
      if results[name].error.Some? {
        assert forall i :: IssueRef(name, i) !in plan;
      }
    }
  }

  /** What is sent describes an eligible issue, the first kept one of its signature. */
  lemma {:induction false} SentDescribesFirstIssue(results: Results, names: seq<string>, maxIssues: int,
                                                   normalize: string -> string, sig: string, ctx: IssueContext)
    returns (n: nat)
    requires SortedKeys(names, results.Keys)
    requires FirstWith(Kept(Collected(names, results), maxIssues), sig, normalize) == Some(ctx)
    ensures var kept := Kept(Collected(names, results), maxIssues);
            && n < |kept| && Eligible(results, kept[n].ref)
            && (forall m | 0 <= m < n :: Signature(kept[m].ctx, normalize) != sig)
            && var issue := IssueAt(results, kept[n].ref);
               && ctx.kind == issue.kind && ctx.severity == issue.severity && ctx.resource == issue.resource
               && ctx.namespace == issue.namespace && ctx.message == issue.message
               && ctx.staticSuggestion == issue.suggestion
  {
    var entries := Collected(names, results);
    var kept := Kept(entries, maxIssues);
    n := FirstWithIsFirst(kept, sig, normalize);
    CollectedExactlyOnce(names, results);
    KeptAreTheMostSevere(entries, maxIssues);
    assert kept[n] in entries;
  }

  /** Index soundness of the whole call: the issue at `ref` ends up enhanced by reply
      number k exactly when it was kept, its signature is the k-th one sent and that
      reply has a text and more than the demanded confidence; every other issue is
      untouched. */
  lemma BatchIsIndexSound(results: Results, names: seq<string>, maxIssues: int, normalize: string -> string,
                          suggestions: map<string, Suggestion>, minConfidence: real, ref: IssueRef)
    requires SortedKeys(names, results.Keys) && ValidRef(results, ref)
    ensures var kept := Kept(Collected(names, results), maxIssues);
            var order := Signatures(kept, normalize);
            var replies := AcceptedReplies(suggestions, |order|, minConfidence);
            var out := Apply(results, Plan(Groups(kept, normalize), replies));
            var issue := IssueAt(results, ref);
            && ValidRef(out, ref)
            && if Entry(ContextOf(issue), ref) in kept then
                 exists k | 0 <= k < |order| ::
                   && order[k] == Signature(ContextOf(issue), normalize)
                   && IssueAt(out, ref) ==
                      if && ReplyKey(k) in suggestions && suggestions[ReplyKey(k)].text != ""
                         && suggestions[ReplyKey(k)].confidence > (if minConfidence <= 0.0 then 0.3 else minConfidence)
                      then Enhance(issue, suggestions[ReplyKey(k)].text, suggestions[ReplyKey(k)].rootCause)
                      else issue
               else IssueAt(out, ref) == issue
  {
    var entries := Collected(names, results);
    var kept := Kept(entries, maxIssues);
    var groups := Groups(kept, normalize);
    CollectedExactlyOnce(names, results);
    KeptAreTheMostSevere(entries, maxIssues);
    var e := Entry(ContextOf(IssueAt(results, ref)), ref);
    var replies := AcceptedReplies(suggestions, |groups|, minConfidence);
    if e in kept {
      var k := GroupsPartition(kept, normalize, e);
      assert groups[k] == RefsWith(kept, Signatures(kept, normalize)[k], normalize);
      PlanExact(groups, replies, ref, k);
    } else {
      GroupsAreDisjoint(kept, normalize);
      assert forall m | 0 <= m < |groups| :: ref !in groups[m];
      PlanMisses(groups, replies, ref);
    }
  }
}
