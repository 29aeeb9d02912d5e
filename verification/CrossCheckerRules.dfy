/** Rules that connect issues of different checkers in one namespace. */
module CrossCheckerRules {
  import opened CheckerTypes
  import opened CausalTypes
  import opened Timeline
  import TextSearch

  datatype Rule = Rule(
    name: string, matches: (string, Issue) -> Option<string>, requiredTags: seq<string>, confidence: real)

  datatype Tagged = Tagged(event: Event, tag: string)

  // ------------------------------------------------------------ specification

  function Tag(rule: Rule, e: Event): Option<string> {
    rule.matches(e.checker, e.issue)
  }

  // The matching events of a scope with their tags.
  function TaggedIn(rule: Rule, es: seq<Event>, scope: string): seq<Tagged> {
    if es == [] then []
    else
      var e := es[|es| - 1];
      TaggedIn(rule, es[..|es| - 1], scope)
      + if Scope(e) == scope && Tag(rule, e).Some? then [Tagged(e, Tag(rule, e).value)] else []
  }

  predicate HasTag(ts: seq<Tagged>, tag: string) {
    exists i :: 0 <= i < |ts| && ts[i].tag == tag
  }

  // Something matches and every required tag occurs.
  predicate FiresOn(rule: Rule, ts: seq<Tagged>) {
    ts != [] && forall k :: 0 <= k < |rule.requiredTags| ==> HasTag(ts, rule.requiredTags[k])
  }

  function Untag(ts: seq<Tagged>): (r: seq<Event>)
    ensures |r| == |ts|
  {
    seq(|ts|, i requires 0 <= i < |ts| => ts[i].event)
  }

  // The group of a rule in a scope: exactly the given events.
  predicate GroupOn(g: Group, rule: Rule, ts: seq<Tagged>, scope: string) {
    && g.rule == rule.name && g.scope == scope && g.confidence == rule.confidence
    && g.events == Untag(ts) && Highest(g.severity, g.events)
  }

  // Rules of one name share their matches: those of all of them, rule by rule, each on
  // the events in the order it saw them.
  function Matches(rules: seq<Rule>, flats: seq<seq<Event>>, name: string, scope: string): seq<Tagged>
    requires |flats| == |rules|
  {
    if rules == [] then []
    else
      var n := |rules| - 1;
      Matches(rules[..n], flats[..n], name, scope)
      + if rules[n].name == name then TaggedIn(rules[n], flats[n], scope) else []
  }

  predicate Fires(rules: seq<Rule>, flats: seq<seq<Event>>, k: nat, scope: string)
    requires k < |rules| == |flats|
  {
    FiresOn(rules[k], Matches(rules, flats, rules[k].name, scope))
  }

  predicate RuleGroup(g: Group, rules: seq<Rule>, flats: seq<seq<Event>>, k: nat, scope: string)
    requires k < |rules| == |flats|
  {
    GroupOn(g, rules[k], Matches(rules, flats, rules[k].name, scope), scope)
  }

  ghost predicate UniqueNames(rules: seq<Rule>) {
    forall i, j :: 0 <= i < j < |rules| ==> rules[i].name != rules[j].name
  }

  /** When names differ, as those of the built-in rules do, the matches are the rule's own. */
  lemma {:induction false} OwnMatches(rules: seq<Rule>, flats: seq<seq<Event>>, k: nat, scope: string)
    requires UniqueNames(rules) && k < |rules| == |flats|
    ensures Matches(rules, flats, rules[k].name, scope) == TaggedIn(rules[k], flats[k], scope)
  {
    var n := |rules| - 1;
    if k < n {
      OwnMatches(rules[..n], flats[..n], k, scope);
      LastHasOtherName(rules, flats, k, scope);
    } else {
      NoMatches(rules[..n], flats[..n], rules[k].name, scope);
      assert Matches(rules, flats, rules[k].name, scope) == [] + TaggedIn(rules[k], flats[k], scope);
    }
  }

  lemma {:induction false} LastHasOtherName(rules: seq<Rule>, flats: seq<seq<Event>>, k: nat, scope: string)
    requires UniqueNames(rules) && k < |rules| - 1 && |flats| == |rules|
    ensures Matches(rules, flats, rules[k].name, scope)
            == Matches(rules[..|rules| - 1], flats[..|rules| - 1], rules[k].name, scope)
  {
  }

  lemma {:induction false} NoMatches(rules: seq<Rule>, flats: seq<seq<Event>>, name: string, scope: string)
    requires |flats| == |rules| && forall k :: 0 <= k < |rules| ==> rules[k].name != name
    ensures Matches(rules, flats, name, scope) == []
  {
    if rules != [] {
      NoMatches(rules[..|rules| - 1], flats[..|rules| - 1], name, scope);
    }
  }

  // ------------------------------------------------------------------ buckets

  type Buckets = map<string, map<string, seq<Tagged>>>

  function Bucket(m: Buckets, scope: string, name: string): seq<Tagged> {
    if scope in m && name in m[scope] then m[scope][name] else []
  }

  function Add(m: Buckets, scope: string, name: string, t: Tagged): Buckets {
    var inner := if scope in m then m[scope] else map[];
    m[scope := inner[name := Bucket(m, scope, name) + [t]]]
  }

  lemma AddedToBucket(m: Buckets, scope: string, name: string, t: Tagged, s: string, n: string)
    ensures Bucket(Add(m, scope, name, t), s, n)
            == Bucket(m, s, n) + if s == scope && n == name then [t] else []
  {
  }

  lemma {:induction false} TaggedInSnoc(rule: Rule, es: seq<Event>, e: Event, scope: string)
    ensures TaggedIn(rule, es + [e], scope) == TaggedIn(rule, es, scope)
              + if Scope(e) == scope && Tag(rule, e).Some? then [Tagged(e, Tag(rule, e).value)] else []
  {
    assert (es + [e])[..|es|] == es;
  }

  // Bucket contents after one rule has seen the events of a list.
  ghost predicate Extended(before: Buckets, m: Buckets, rule: Rule, es: seq<Event>) {
    forall s, n :: ExtendedAt(before, m, rule, es, s, n)
  }

  predicate ExtendedAt(before: Buckets, m: Buckets, rule: Rule, es: seq<Event>, s: string, n: string) {
    Bucket(m, s, n) == Bucket(before, s, n) + if n == rule.name then TaggedIn(rule, es, s) else []
  }

  function Step(m: Buckets, rule: Rule, e: Event): Buckets {
    if Tag(rule, e).Some? then Add(m, Scope(e), rule.name, Tagged(e, Tag(rule, e).value)) else m
  }

  lemma {:induction false} ExtendedAtByOne(before: Buckets, m: Buckets, rule: Rule, es: seq<Event>, e: Event, s: string, n: string)
    requires ExtendedAt(before, m, rule, es, s, n)
    ensures ExtendedAt(before, Step(m, rule, e), rule, es + [e], s, n)
  {
    TaggedInSnoc(rule, es, e, s);
    if Tag(rule, e).Some? {
      AddedToBucket(m, Scope(e), rule.name, Tagged(e, Tag(rule, e).value), s, n);
    }
  }

  lemma {:induction false} ExtendedByOne(before: Buckets, m: Buckets, rule: Rule, es: seq<Event>, e: Event)
    requires Extended(before, m, rule, es)
    ensures Extended(before, Step(m, rule, e), rule, es + [e])
  {
    forall s, n ensures ExtendedAt(before, Step(m, rule, e), rule, es + [e], s, n) {
      assert ExtendedAt(before, m, rule, es, s, n);
      ExtendedAtByOne(before, m, rule, es, e, s, n);
    }
  }

  lemma ExtendedByNone(m: Buckets, rule: Rule)
    ensures Extended(m, m, rule, [])
  {
  }

  method AddMatches(rule: Rule, events: seq<Event>, before: Buckets) returns (m: Buckets)
    ensures Extended(before, m, rule, events)
  {
    m := before;
    ExtendedByNone(before, rule);
    for i := 0 to |events|
      invariant Extended(before, m, rule, events[..i])
    {
      ExtendedByOne(before, m, rule, events[..i], events[i]);
      assert events[..i + 1] == events[..i] + [events[i]];
      m := Step(m, rule, events[i]);
    }
    assert events[..|events|] == events;
  }

  method CollectRule(rule: Rule, input: Input, before: Buckets) returns (m: Buckets)
    ensures exists flat :: SeenAs(input, flat) && Extended(before, m, rule, flat)
  {
    var events := FlattenEvents(input);
    m := AddMatches(rule, events, before);
  }

  // Every bucket holds the matches of the rules of its name.
  ghost predicate Filled(m: Buckets, rules: seq<Rule>, flats: seq<seq<Event>>) {
    |flats| == |rules| && forall s, n :: FilledAt(m, rules, flats, s, n)
  }

  predicate FilledAt(m: Buckets, rules: seq<Rule>, flats: seq<seq<Event>>, s: string, n: string)
    requires |flats| == |rules|
  {
    Bucket(m, s, n) == Matches(rules, flats, n, s)
  }

  lemma {:induction false} FillOne(before: Buckets, m: Buckets, rules: seq<Rule>, flats: seq<seq<Event>>, rule: Rule, es: seq<Event>)
    requires Filled(before, rules, flats) && Extended(before, m, rule, es)
    ensures Filled(m, rules + [rule], flats + [es])
  {
    forall s, n ensures FilledAt(m, rules + [rule], flats + [es], s, n) {
      assert FilledAt(before, rules, flats, s, n);
      assert ExtendedAt(before, m, rule, es, s, n);
      assert (rules + [rule])[..|rules|] == rules && (flats + [es])[..|flats|] == flats;
    }
  }

  // Each rule saw the events of the input in some order.
  ghost predicate AllSeen(input: Input, flats: seq<seq<Event>>) {
    forall k :: 0 <= k < |flats| ==> SeenAs(input, flats[k])
  }

  method CollectAll(rules: seq<Rule>, input: Input) returns (m: Buckets)
    ensures exists flats :: Filled(m, rules, flats) && AllSeen(input, flats)
  {
    m := map[];
    ghost var flats: seq<seq<Event>> := [];
    ghost var done: seq<Rule> := [];
    for k := 0 to |rules|
      invariant done == rules[..k] && Filled(m, done, flats) && AllSeen(input, flats)
    {
      ghost var before := m;
      m := CollectRule(rules[k], input, m);
      ghost var flat :| SeenAs(input, flat) && Extended(before, m, rules[k], flat);
      FillOne(before, m, done, flats, rules[k], flat);
      flats, done := flats + [flat], done + [rules[k]];
    }
    assert done == rules;
  }

  // ------------------------------------------------------------------- groups

  method AllTagsPresent(ts: seq<Tagged>, required: seq<string>) returns (ok: bool)
    ensures ok == forall k :: 0 <= k < |required| ==> HasTag(ts, required[k])
  {
    var tagSet: set<string> := {};
    for i := 0 to |ts|
      invariant forall tag :: tag in tagSet <==> HasTag(ts[..i], tag)
    {
      tagSet := tagSet + {ts[i].tag};
      forall tag ensures tag in tagSet <==> HasTag(ts[..i + 1], tag) {
        if HasTag(ts[..i], tag) {
          var j :| 0 <= j < i && ts[..i][j].tag == tag;
          assert ts[..i + 1][j].tag == tag;
        }
        if HasTag(ts[..i + 1], tag) && tag != ts[i].tag {
          var j :| 0 <= j < i + 1 && ts[..i + 1][j].tag == tag;
          assert ts[..i][j].tag == tag;
        }
        assert ts[..i + 1][i] == ts[i];
      }
    }
    assert ts[..|ts|] == ts;
    ok := true;
    for k := 0 to |required|
      invariant forall j :: 0 <= j < k ==> HasTag(ts, required[j])
    {
      if required[k] !in tagSet {
        return false;
      }
    }
  }

  method Fire(rule: Rule, ts: seq<Tagged>, scope: string) returns (g: Option<Group>)
    ensures g.Some? <==> FiresOn(rule, ts)
    ensures g.Some? ==> GroupOn(g.value, rule, ts, scope)
  {
    if |ts| == 0 {
      return None;
    }
    var present := AllTagsPresent(ts, rule.requiredTags);
    if !present {
      return None;
    }
    var severity := HighestSeverity(Untag(ts));
    return Some(Group(rule.name, scope, severity, Untag(ts), rule.confidence));
  }

  // g is the group of one of the rules that fires in its scope.
  ghost predicate Justified(g: Group, rules: seq<Rule>, flats: seq<seq<Event>>) {
    |flats| == |rules| &&
    exists k :: 0 <= k < |rules| && Fires(rules, flats, k, g.scope) && RuleGroup(g, rules, flats, k, g.scope)
  }

  ghost predicate Reported(gs: seq<Group>, rules: seq<Rule>, flats: seq<seq<Event>>, k: nat, scope: string)
    requires k < |rules| == |flats|
  {
    exists i :: 0 <= i < |gs| && RuleGroup(gs[i], rules, flats, k, scope)
  }

  ghost predicate AllJustified(gs: seq<Group>, rules: seq<Rule>, flats: seq<seq<Event>>) {
    forall i :: 0 <= i < |gs| ==> Justified(gs[i], rules, flats)
  }

  lemma {:induction false} ReportedStays(gs: seq<Group>, more: seq<Group>, rules: seq<Rule>, flats: seq<seq<Event>>, k: nat, scope: string)
    requires k < |rules| == |flats|
    requires Reported(gs, rules, flats, k, scope) || Reported(more, rules, flats, k, scope)
    ensures Reported(gs + more, rules, flats, k, scope)
  {
    if Reported(gs, rules, flats, k, scope) {
      var i :| 0 <= i < |gs| && RuleGroup(gs[i], rules, flats, k, scope);
      assert (gs + more)[i] == gs[i];
    } else {
      var i :| 0 <= i < |more| && RuleGroup(more[i], rules, flats, k, scope);
      assert (gs + more)[|gs| + i] == more[i];
    }
  }

  ghost predicate ReportedUpTo(gs: seq<Group>, rules: seq<Rule>, flats: seq<seq<Event>>, scope: string, n: nat)
    requires n <= |rules| == |flats|
  {
    forall k :: 0 <= k < n && Fires(rules, flats, k, scope) ==> Reported(gs, rules, flats, k, scope)
  }

  lemma {:induction false} ReportOne(gs: seq<Group>, rules: seq<Rule>, flats: seq<seq<Event>>, scope: string, n: nat, g: Group)
    requires n < |rules| == |flats| && ReportedUpTo(gs, rules, flats, scope, n)
    requires AllJustified(gs, rules, flats)
    requires Fires(rules, flats, n, scope) && RuleGroup(g, rules, flats, n, scope)
    ensures ReportedUpTo(gs + [g], rules, flats, scope, n + 1) && AllJustified(gs + [g], rules, flats)
  {
    assert RuleGroup([g][0], rules, flats, n, scope);
    forall k | 0 <= k < n + 1 && Fires(rules, flats, k, scope)
      ensures Reported(gs + [g], rules, flats, k, scope)
    {
      ReportedStays(gs, [g], rules, flats, k, scope);
    }
    assert Justified(g, rules, flats);
  }

  // No rule name has two groups in one scope.
  ghost predicate OnePerRuleAndScope(gs: seq<Group>) {
    forall i, j :: 0 <= i < j < |gs| ==> gs[i].rule != gs[j].rule || gs[i].scope != gs[j].scope
  }

  // The groups of the first n rules in a scope.
  ghost predicate Fired(gs: seq<Group>, rules: seq<Rule>, flats: seq<seq<Event>>, scope: string, n: nat)
    requires n <= |rules| == |flats|
  {
    && AllJustified(gs, rules, flats) && ReportedUpTo(gs, rules, flats, scope, n)
    && (forall i :: 0 <= i < |gs| ==> gs[i].scope == scope)
    && (UniqueNames(rules) ==> OnlyEarlierRules(gs, rules, scope, n))
  }

  ghost predicate OnlyEarlierRules(gs: seq<Group>, rules: seq<Rule>, scope: string, n: nat) {
    && OnePerRuleAndScope(gs)
    && (forall i :: 0 <= i < |gs| ==> gs[i].scope == scope)
    && (forall i, j :: 0 <= i < |gs| && n <= j < |rules| ==> gs[i].rule != rules[j].name)
  }

  lemma NextRuleIsNew(gs: seq<Group>, rules: seq<Rule>, scope: string, n: nat, g: Group)
    requires UniqueNames(rules) && n < |rules| && OnlyEarlierRules(gs, rules, scope, n)
    requires g.rule == rules[n].name && g.scope == scope
    ensures OnlyEarlierRules(gs + [g], rules, scope, n + 1)
  {
    var all := gs + [g];
    forall i | 0 <= i < |all|
      ensures all[i].scope == scope && forall j :: n + 1 <= j < |rules| ==> all[i].rule != rules[j].name
    {
      assert i < |gs| ==> all[i] == gs[i];
    }
  }

  lemma {:induction false} FiredOne(gs: seq<Group>, rules: seq<Rule>, flats: seq<seq<Event>>, scope: string, n: nat, g: Option<Group>)
    requires n < |rules| == |flats| && Fired(gs, rules, flats, scope, n)
    requires g.Some? <==> Fires(rules, flats, n, scope)
    requires g.Some? ==> RuleGroup(g.value, rules, flats, n, scope)
    ensures Fired(if g.Some? then gs + [g.value] else gs, rules, flats, scope, n + 1)
  {
    if g.Some? {
      ReportOne(gs, rules, flats, scope, n, g.value);
      if UniqueNames(rules) {
        NextRuleIsNew(gs, rules, scope, n, g.value);
      }
    } else {
      assert UniqueNames(rules) ==> OnlyEarlierRules(gs, rules, scope, n + 1);
    }
  }

  method FireInScope(m: Buckets, rules: seq<Rule>, scope: string, ghost flats: seq<seq<Event>>)
    returns (groups: seq<Group>)
    requires Filled(m, rules, flats)
    ensures Fired(groups, rules, flats, scope, |rules|)
  {
    groups := [];
    for k := 0 to |rules|
      invariant Fired(groups, rules, flats, scope, k)
    {
      assert FilledAt(m, rules, flats, scope, rules[k].name);
      var g := Fire(rules[k], Bucket(m, scope, rules[k].name), scope);
      FiredOne(groups, rules, flats, scope, k, g);
      if g.Some? {
        groups := groups + [g.value];
      }
    }
  }

  // Every match of some rules is an event of the list one of them saw.
  lemma {:induction false} MatchesMembers(rules: seq<Rule>, flats: seq<seq<Event>>, name: string, scope: string, i: nat)
    returns (k: nat)
    requires |flats| == |rules| && i < |Matches(rules, flats, name, scope)|
    ensures k < |rules|
    ensures var t := Matches(rules, flats, name, scope)[i];
            t.event in flats[k] && Scope(t.event) == scope && Tag(rules[k], t.event) == Some(t.tag)
  {
    var n := |rules| - 1;
    var before := Matches(rules[..n], flats[..n], name, scope);
    if i < |before| {
      k := MatchesMembers(rules[..n], flats[..n], name, scope, i);
    } else {
      TaggedMembers(rules[n], flats[n], scope, i - |before|);
      k := n;
    }
  }

  lemma {:induction false} RuleEventsAreSound(input: Input, rules: seq<Rule>, flats: seq<seq<Event>>, k: nat, g: Group)
    requires k < |rules| == |flats| && AllSeen(input, flats) && RuleGroup(g, rules, flats, k, g.scope)
    ensures SoundGroup(input, g)
  {
    var ts := Matches(rules, flats, rules[k].name, g.scope);
    forall i | 0 <= i < |g.events| ensures FromInput(input, g.events[i]) && Scope(g.events[i]) == g.scope {
      var j := MatchesMembers(rules, flats, rules[k].name, g.scope, i);
      SeenIsInput(input, flats[j], ts[i].event);
    }
  }

  lemma {:induction false} TaggedMembers(rule: Rule, es: seq<Event>, scope: string, i: nat)
    requires i < |TaggedIn(rule, es, scope)|
    ensures var t := TaggedIn(rule, es, scope)[i];
            t.event in es && Scope(t.event) == scope && Tag(rule, t.event) == Some(t.tag)
  {
    if i < |TaggedIn(rule, es[..|es| - 1], scope)| {
      TaggedMembers(rule, es[..|es| - 1], scope, i);
    }
  }

  ghost predicate ReportedIn(gs: seq<Group>, rules: seq<Rule>, flats: seq<seq<Event>>, scopes: seq<string>)
    requires |flats| == |rules|
  {
    forall s :: s in scopes ==> ReportedUpTo(gs, rules, flats, s, |rules|)
  }

  /** The groups are exactly those of the rules that fire; when names differ, one for each
      rule and scope. */
  ghost predicate RuleGroups(gs: seq<Group>, rules: seq<Rule>, flats: seq<seq<Event>>) {
    && |flats| == |rules| && AllJustified(gs, rules, flats)
    && (UniqueNames(rules) ==> OnePerRuleAndScope(gs))
    && forall s :: ReportedUpTo(gs, rules, flats, s, |rules|)
  }

  lemma {:induction false} AddScope(gs: seq<Group>, more: seq<Group>, rules: seq<Rule>, flats: seq<seq<Event>>, scopes: seq<string>, scope: string)
    requires |flats| == |rules| && ReportedIn(gs, rules, flats, scopes)
    requires ReportedUpTo(more, rules, flats, scope, |rules|)
    ensures ReportedIn(gs + more, rules, flats, scopes + [scope])
  {
    forall s, k | s in scopes + [scope] && 0 <= k < |rules| && Fires(rules, flats, k, s)
      ensures Reported(gs + more, rules, flats, k, s)
    {
      if s in scopes {
        assert ReportedUpTo(gs, rules, flats, s, |rules|);
      }
      ReportedStays(gs, more, rules, flats, k, s);
    }
  }

  method FireAll(m: Buckets, rules: seq<Rule>, ghost flats: seq<seq<Event>>) returns (groups: seq<Group>)
    requires Filled(m, rules, flats)
    ensures RuleGroups(groups, rules, flats)
  {
    var scopes := RangeOrder(m.Keys);
    groups := [];
    for i := 0 to |scopes|
      invariant AllJustified(groups, rules, flats) && (UniqueNames(rules) ==> OnePerRuleAndScope(groups))
      invariant ReportedIn(groups, rules, flats, scopes[..i])
      invariant forall j :: 0 <= j < |groups| ==> forall l :: i <= l < |scopes| ==> groups[j].scope != scopes[l]
    {
      var more := FireInScope(m, rules, scopes[i], flats);
      assert scopes[..i + 1] == scopes[..i] + [scopes[i]];
      AddScope(groups, more, rules, flats, scopes[..i], scopes[i]);
      groups := groups + more;
    }
    assert scopes[..|scopes|] == scopes;
    forall s ensures ReportedUpTo(groups, rules, flats, s, |rules|) {
      if s !in m {
        NothingFires(m, rules, flats, s);
      } else {
        assert s in scopes;
      }
    }
  }

  lemma {:induction false} NothingFires(m: Buckets, rules: seq<Rule>, flats: seq<seq<Event>>, scope: string)
    requires Filled(m, rules, flats) && scope !in m
    ensures forall k :: 0 <= k < |rules| ==> !Fires(rules, flats, k, scope)
  {
    forall k | 0 <= k < |rules| ensures !Fires(rules, flats, k, scope) {
      assert FilledAt(m, rules, flats, scope, rules[k].name);
    }
  }

  lemma {:induction false} RuleGroupsAreSound(input: Input, gs: seq<Group>, rules: seq<Rule>, flats: seq<seq<Event>>)
    requires AllSeen(input, flats) && AllJustified(gs, rules, flats)
    ensures AllSound(input, gs)
  {
    forall i | 0 <= i < |gs| ensures SoundGroup(input, gs[i]) {
      var g := gs[i];
      assert Justified(g, rules, flats);
      var k :| 0 <= k < |rules| && Fires(rules, flats, k, g.scope) && RuleGroup(g, rules, flats, k, g.scope);
      RuleEventsAreSound(input, rules, flats, k, g);
    }
  }

  /** A group for a rule and a scope exists if and only if all its required tags occur among
      the matching issues of that scope, and it holds exactly the matching issues. */
  method Apply(rules: seq<Rule>, input: Input) returns (groups: seq<Group>)
    ensures AllSound(input, groups)
    ensures exists flats :: AllSeen(input, flats) && RuleGroups(groups, rules, flats)
  {
    var m := CollectAll(rules, input);
    ghost var flats :| Filled(m, rules, flats) && AllSeen(input, flats);
    groups := FireAll(m, rules, flats);
    RuleGroupsAreSound(input, groups, rules, flats);
  }

  // ------------------------------------------------------------ built-in rules

  const WORKLOADS := "workloads"

  function Upper(c: char): char {
    if 'a' <= c <= 'z' then c - 'a' + 'A' else c
  }

  function ToUpper(s: string): string {
    seq(|s|, i requires 0 <= i < |s| => Upper(s[i]))
  }

  predicate KindContains(issue: Issue, word: string) {
    TextSearch.Contains(ToUpper(issue.kind), word)
  }

  predicate SameLetter(c: char, d: char) {
    || c == d
    || ('a' <= c <= 'z' && d as int == c as int - 32)
    || ('a' <= d <= 'z' && c as int == d as int - 32)
  }

  /** Kinds that differ only in the case of letters match alike, and a word in capitals is
      found in a kind that spells it in any case. */
  lemma CaseDoesNotMatter(a: Issue, b: Issue, word: string)
    requires |a.kind| == |b.kind| && forall i :: 0 <= i < |a.kind| ==> SameLetter(a.kind[i], b.kind[i])
    ensures KindContains(a, word) <==> KindContains(b, word)
    ensures b.kind == word && (forall i :: 0 <= i < |word| ==> !('a' <= word[i] <= 'z')) ==> KindContains(a, word)
  {
    assert ToUpper(a.kind) == ToUpper(b.kind);
    if b.kind == word && forall i :: 0 <= i < |word| ==> !('a' <= word[i] <= 'z') {
      assert ToUpper(b.kind) == word;
      assert TextSearch.OccursAt(word, word, 0);
    }
  }

  predicate Serious(issue: Issue) {
    issue.severity == SEVERITY_CRITICAL || issue.severity == SEVERITY_WARNING
  }

  function MatchOomQuota(checker: string, issue: Issue): Option<string> {
    if checker == WORKLOADS && KindContains(issue, "OOM") then Some("oom")
    else if checker == "quotas" && Serious(issue) then Some("quota")
    else None
  }

  function MatchCrashImagePull(checker: string, issue: Issue): Option<string> {
    if checker != WORKLOADS then None
    else if KindContains(issue, "CRASHLOOP") then Some("crash")
    else if KindContains(issue, "IMAGEPULL") then Some("imagepull")
    else None
  }

  function MatchFluxChain(checker: string, issue: Issue): Option<string> {
    if !Serious(issue) then None
    else if checker == "gitrepositories" then Some("flux-source")
    else if checker == "helmreleases" || checker == "kustomizations" then Some("flux-consumer")
    else None
  }

  function MatchPvcWorkload(checker: string, issue: Issue): Option<string> {
    if checker == "pvcs" && Serious(issue) then Some("pvc")
    else if checker == WORKLOADS && (KindContains(issue, "PENDING") || KindContains(issue, "UNSCHEDULABLE")) then
      Some("workload-pending")
    else None
  }

  function DefaultRules(): (rules: seq<Rule>)
    ensures UniqueNames(rules)
    ensures forall k :: 0 <= k < |rules| ==> |rules[k].requiredTags| == 2 && rules[k].requiredTags[0] != rules[k].requiredTags[1]
  {
    [Rule("oom-quota", MatchOomQuota, ["oom", "quota"], 0.85),
     Rule("crash-imagepull", MatchCrashImagePull, ["crash", "imagepull"], 0.8),
     Rule("flux-chain", MatchFluxChain, ["flux-source", "flux-consumer"], 0.9),
     Rule("pvc-workload", MatchPvcWorkload, ["pvc", "workload-pending"], 0.75)]
  }

  /** The built-in rules never give a tag that they do not require, so every match of one
      counts towards its firing. */
  lemma DefaultTagsAreRequired(k: nat, checker: string, issue: Issue)
    requires k < |DefaultRules()|
    ensures var rule := DefaultRules()[k];
            && 0.0 < rule.confidence < 1.0
            && var t := rule.matches(checker, issue);
               t.Some? ==> t.value == rule.requiredTags[0] || t.value == rule.requiredTags[1]
  {
    var rules := DefaultRules();
    assert k == 0 ==> rules[k].matches == MatchOomQuota;
    assert k == 1 ==> rules[k].matches == MatchCrashImagePull;
    assert k == 2 ==> rules[k].matches == MatchFluxChain;
    assert k == 3 ==> rules[k].matches == MatchPvcWorkload;
  }

  /** What the built-in rules look for, in full. */
  lemma BuiltInTags(checker: string, issue: Issue)
    ensures var rules := DefaultRules();
            var serious := issue.severity == "Critical" || issue.severity == "Warning";
            && |rules| == 4
            && rules[0].name == "oom-quota" && rules[0].requiredTags == ["oom", "quota"] && rules[0].confidence == 0.85
            && (rules[0].matches(checker, issue) == Some("oom") <==> checker == "workloads" && KindContains(issue, "OOM"))
            && (rules[0].matches(checker, issue) == Some("quota") <==> checker == "quotas" && serious)
            && rules[1].name == "crash-imagepull" && rules[1].requiredTags == ["crash", "imagepull"] && rules[1].confidence == 0.8
            && (rules[1].matches(checker, issue) == Some("crash") <==> checker == "workloads" && KindContains(issue, "CRASHLOOP"))
            && (rules[1].matches(checker, issue) == Some("imagepull") <==>
                  checker == "workloads" && KindContains(issue, "IMAGEPULL") && !KindContains(issue, "CRASHLOOP"))
            && rules[2].name == "flux-chain" && rules[2].requiredTags == ["flux-source", "flux-consumer"]
            && rules[2].confidence == 0.9
            && (rules[2].matches(checker, issue) == Some("flux-source") <==> checker == "gitrepositories" && serious)
            && (rules[2].matches(checker, issue) == Some("flux-consumer") <==>
                  (checker == "helmreleases" || checker == "kustomizations") && serious)
            && rules[3].name == "pvc-workload" && rules[3].requiredTags == ["pvc", "workload-pending"]
            && rules[3].confidence == 0.75
            && (rules[3].matches(checker, issue) == Some("pvc") <==> checker == "pvcs" && serious)
            && (rules[3].matches(checker, issue) == Some("workload-pending") <==>
                  checker == "workloads" && (KindContains(issue, "PENDING") || KindContains(issue, "UNSCHEDULABLE")))
  {
    var rules := DefaultRules();
    assert rules[0].matches == MatchOomQuota && rules[1].matches == MatchCrashImagePull;
    assert rules[2].matches == MatchFluxChain && rules[3].matches == MatchPvcWorkload;
  }

  predicate Carries(rule: Rule, e: Event, scope: string, tag: string) {
    Scope(e) == scope && Tag(rule, e) == Some(tag)
  }

  // Some event of the scope carries the tag.
  predicate Occurs(rule: Rule, es: seq<Event>, scope: string, tag: string) {
    exists i :: 0 <= i < |es| && Carries(rule, es[i], scope, tag)
  }

  lemma {:induction false} TaggedHasIffOccurs(rule: Rule, es: seq<Event>, scope: string, tag: string)
    ensures HasTag(TaggedIn(rule, es, scope), tag) <==> Occurs(rule, es, scope, tag)
  {
    if es != [] {
      var init, e := es[..|es| - 1], es[|es| - 1];
      TaggedHasIffOccurs(rule, init, scope, tag);
      OccursSnoc(rule, init, e, scope, tag);
      assert init + [e] == es;
      if Scope(e) == scope && Tag(rule, e).Some? {
        HasTagSnoc(TaggedIn(rule, init, scope), Tagged(e, Tag(rule, e).value), tag);
      } else {
        assert TaggedIn(rule, es, scope) == TaggedIn(rule, init, scope);
      }
    }
  }

  lemma HasTagSnoc(ts: seq<Tagged>, t: Tagged, tag: string)
    ensures HasTag(ts + [t], tag) <==> HasTag(ts, tag) || t.tag == tag
  {
    if t.tag == tag {
      assert (ts + [t])[|ts|] == t;
    } else if HasTag(ts, tag) {
      var i :| 0 <= i < |ts| && ts[i].tag == tag;
      assert (ts + [t])[i] == ts[i];
    }
  }

  lemma OccursSnoc(rule: Rule, es: seq<Event>, e: Event, scope: string, tag: string)
    ensures Occurs(rule, es + [e], scope, tag) <==> Occurs(rule, es, scope, tag) || Carries(rule, e, scope, tag)
  {
    if Carries(rule, e, scope, tag) {
      assert (es + [e])[|es|] == e;
    } else if Occurs(rule, es, scope, tag) {
      var i :| 0 <= i < |es| && Carries(rule, es[i], scope, tag);
      assert (es + [e])[i] == es[i];
    }
  }

  /** Among rules with different names, one that requires a tag fires in a scope if and only
      if each of its required tags is carried by some issue of that scope. */
  lemma {:induction false} FiresIffTagsOccur(rules: seq<Rule>, flats: seq<seq<Event>>, k: nat, scope: string)
    requires UniqueNames(rules) && k < |rules| == |flats| && rules[k].requiredTags != []
    ensures Fires(rules, flats, k, scope) <==>
            forall n :: 0 <= n < |rules[k].requiredTags| ==> Occurs(rules[k], flats[k], scope, rules[k].requiredTags[n])
  {
    OwnMatches(rules, flats, k, scope);
    var rule := rules[k];
    forall n | 0 <= n < |rule.requiredTags|
      ensures HasTag(TaggedIn(rule, flats[k], scope), rule.requiredTags[n])
              <==> Occurs(rule, flats[k], scope, rule.requiredTags[n])
    {
      TaggedHasIffOccurs(rule, flats[k], scope, rule.requiredTags[n]);
    }
    if FiresOn(rule, TaggedIn(rule, flats[k], scope)) {
      assert HasTag(TaggedIn(rule, flats[k], scope), rule.requiredTags[0]);
    } else if TaggedIn(rule, flats[k], scope) == [] {
      assert !HasTag(TaggedIn(rule, flats[k], scope), rule.requiredTags[0]);
    }
  }

  /** A rule with two different required tags needs two different issues to fire. */
  lemma {:induction false} TwoTagsTwoEvents(rule: Rule, ts: seq<Tagged>)
    requires FiresOn(rule, ts)
    requires |rule.requiredTags| == 2 && rule.requiredTags[0] != rule.requiredTags[1]
    ensures |ts| >= 2
  {
    assert HasTag(ts, rule.requiredTags[0]) && HasTag(ts, rule.requiredTags[1]);
  }
}
