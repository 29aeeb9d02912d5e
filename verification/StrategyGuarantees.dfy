/** What the groups reported in the end owe to the three strategies. */
module StrategyGuarantees {
  import opened CheckerTypes
  import opened CausalTypes
  import opened Timeline
  import opened GroupDeduplication
  import opened StableSort
  import opened FiniteSets
  import Rules = CrossCheckerRules
  import Graph = ResourceGraph
  import Temporal = TemporalCorrelator

  // ------------------------------------------------------ what the strategies found

  ghost predicate FromRules(input: Input, rules: seq<Rules.Rule>, groups: seq<Group>) {
    exists flats :: Rules.AllSeen(input, flats) && Rules.RuleGroups(groups, rules, flats)
  }

  ghost predicate FromGraph(input: Input, groups: seq<Group>) {
    exists seen :: SeenAs(input, seen) && Graph.AllStars(groups, seen)
  }

  ghost predicate FromTime(input: Input, groups: seq<Group>) {
    exists seen :: SeenAs(input, seen) && Temporal.OnePerScope(groups, seen)
  }

  ghost predicate FromAll(input: Input, rules: seq<Rules.Rule>, ruled: seq<Group>, chained: seq<Group>, timed: seq<Group>) {
    FromRules(input, rules, ruled) && FromGraph(input, chained) && FromTime(input, timed)
  }

  // ------------------------------------------------------------------- the promises

  // Every tag that the rule requires is carried by some issue of the scope.
  ghost predicate Applies(rule: Rules.Rule, flat: seq<Event>, scope: string) {
    && rule.requiredTags != []
    && forall n :: 0 <= n < |rule.requiredTags| ==> Rules.Occurs(rule, flat, scope, rule.requiredTags[n])
  }

  // The issues of the scope that the rule matches.
  function Matching(rule: Rules.Rule, flat: seq<Event>, scope: string): seq<Event> {
    Rules.Untag(Rules.TaggedIn(rule, flat, scope))
  }

  /** Where a rule applies, what it matches is in groups of at least its confidence, but for
      one distinct issue at most. */
  ghost predicate RulesHonoured(rules: seq<Rules.Rule>, flat: seq<Event>, reported: seq<Group>) {
    forall k, s :: 0 <= k < |rules| && Applies(rules[k], flat, s) ==>
      Honoured(Key, Matching(rules[k], flat, s), rules[k].confidence, reported)
  }

  /** The same for the members of ownership stars that leave no related pair untouched. */
  ghost predicate StarsHonouredIn(es: seq<Event>, reported: seq<Group>) {
    exists chains ::
      && Graph.Stars(Graph.RelationOf(es), chains, |es|)
      && forall m :: 0 <= m < |chains| ==>
           && Graph.Increasing(chains[m], |es|)
           && Honoured(Key, Graph.EventsAt(es, chains[m]), if |chains[m]| >= 3 then 0.9 else 0.7, reported)
  }

  ghost predicate StarsHonoured(flat: seq<Event>, reported: seq<Group>) {
    forall s :: StarsHonouredIn(InScope(flat, s), reported)
  }

  predicate SeveralCheckers(es: seq<Event>) {
    exists i, j :: 0 <= i < j < |es| && es[i].checker != es[j].checker
  }

  function ScopeConfidence(es: seq<Event>): real {
    0.5 + (if SeveralCheckers(es) then 0.2 else 0.0) + (if |es| >= 4 then 0.1 else 0.0)
  }

  /** And for all issues of a scope together. */
  ghost predicate ScopesHonoured(flat: seq<Event>, reported: seq<Group>) {
    forall s :: |InScope(flat, s)| >= 2 ==>
      Honoured(Key, InScope(flat, s), ScopeConfidence(InScope(flat, s)), reported)
  }

  /** The group is one of a rule that applies, of an ownership star, or of a whole scope. */
  ghost predicate OfRule(input: Input, rules: seq<Rules.Rule>, o: Group) {
    exists k, flat ::
      && 0 <= k < |rules| && SeenAs(input, flat) && Applies(rules[k], flat, o.scope)
      && o.rule == rules[k].name && o.confidence == rules[k].confidence
      && o.events == Matching(rules[k], flat, o.scope)
  }

  ghost predicate OfStar(input: Input, o: Group) {
    exists flat, c ::
      && SeenAs(input, flat) && Graph.Increasing(c, |InScope(flat, o.scope)|)
      && Graph.Star(Graph.RelationOf(InScope(flat, o.scope)), c, |InScope(flat, o.scope)|)
      && Graph.GraphGroup(o, o.scope, Graph.EventsAt(InScope(flat, o.scope), c))
  }

  ghost predicate OfScope(input: Input, o: Group) {
    exists flat :: SeenAs(input, flat) && Temporal.TemporalGroup(o, flat)
  }

  ghost predicate Found(input: Input, rules: seq<Rules.Rule>, o: Group) {
    Highest(o.severity, o.events) && Worst(o.severity, o.events) && (OfRule(input, rules, o) || OfStar(input, o) || OfScope(input, o))
  }

  lemma IsFound(input: Input, rules: seq<Rules.Rule>, o: Group)
    requires Highest(o.severity, o.events) && (OfRule(input, rules, o) || OfStar(input, o) || OfScope(input, o))
    ensures Found(input, rules, o)
  {
    HighestIsWorst(o.severity, o.events);
  }

  ghost predicate AllCut(input: Input, rules: seq<Rules.Rule>, reported: seq<Group>) {
    forall i :: 0 <= i < |reported| ==> exists o :: CutFrom(reported[i], o) && Found(input, rules, o)
  }

  // ---------------------------------------------------- the strategies' own groups

  lemma {:induction false} MatchingMembers(rule: Rules.Rule, flat: seq<Event>, scope: string, e: Event)
    ensures e in Matching(rule, flat, scope) <==> e in flat && Scope(e) == scope && Rules.Tag(rule, e).Some?
  {
    if flat != [] {
      var init, last := flat[..|flat| - 1], flat[|flat| - 1];
      MatchingMembers(rule, init, scope, e);
      assert flat == init + [last];
      var more := if Scope(last) == scope && Rules.Tag(rule, last).Some? then [last] else [];
      assert Matching(rule, flat, scope) == Matching(rule, init, scope) + more;
    }
  }

  lemma {:induction false} MatchingIsOrderFree(input: Input, rule: Rules.Rule, a: seq<Event>, b: seq<Event>, scope: string)
    requires SeenAs(input, a) && SeenAs(input, b)
    ensures KeysOf(Key, Matching(rule, a, scope)) <= KeysOf(Key, Matching(rule, b, scope))
  {
    var es, fs := Matching(rule, a, scope), Matching(rule, b, scope);
    forall i | 0 <= i < |es| ensures es[i] in fs {
      MatchingMembers(rule, a, scope, es[i]);
      SeenIsInput(input, a, es[i]);
      SeenIsInput(input, b, es[i]);
      MatchingMembers(rule, b, scope, es[i]);
    }
    KeysOfSome(Key, es, fs);
  }

  lemma {:induction false} AppliesIsOrderFree(input: Input, rule: Rules.Rule, a: seq<Event>, b: seq<Event>, scope: string)
    requires SeenAs(input, a) && SeenAs(input, b) && Applies(rule, a, scope)
    ensures Applies(rule, b, scope)
  {
    forall n | 0 <= n < |rule.requiredTags| ensures Rules.Occurs(rule, b, scope, rule.requiredTags[n]) {
      OccursIsOrderFree(input, rule, a, b, scope, rule.requiredTags[n]);
    }
  }

  lemma {:induction false} OccursIsOrderFree(input: Input, rule: Rules.Rule, a: seq<Event>, b: seq<Event>, scope: string, tag: string)
    requires SeenAs(input, a) && SeenAs(input, b) && Rules.Occurs(rule, a, scope, tag)
    ensures Rules.Occurs(rule, b, scope, tag)
  {
    var i :| 0 <= i < |a| && Rules.Carries(rule, a[i], scope, tag);
    SeenIsInput(input, a, a[i]);
    SeenIsInput(input, b, a[i]);
    var j :| 0 <= j < |b| && b[j] == a[i];
  }

  predicate AllRequireTags(rules: seq<Rules.Rule>) {
    forall k :: 0 <= k < |rules| ==> rules[k].requiredTags != []
  }

  // A rule that applies has its group among the rules' groups.
  lemma {:induction false} AppliedRuleHasGroup(input: Input, rules: seq<Rules.Rule>, ruled: seq<Group>, flats: seq<seq<Event>>,
                                               flat: seq<Event>, k: nat, scope: string)
    returns (i: nat)
    requires Rules.UniqueNames(rules) && Rules.AllSeen(input, flats) && Rules.RuleGroups(ruled, rules, flats)
    requires SeenAs(input, flat) && k < |rules| && Applies(rules[k], flat, scope)
    ensures i < |ruled| && ruled[i].confidence == rules[k].confidence
    ensures KeysOf(Key, ruled[i].events) == KeysOf(Key, Matching(rules[k], flat, scope))
  {
    assert SeenAs(input, flats[k]);
    AppliesIsOrderFree(input, rules[k], flat, flats[k], scope);
    RuleFires(rules, flats, k, scope);
    i := FiredRuleHasGroup(rules, ruled, flats, k, scope);
    SameMatches(input, rules[k], flat, flats[k], scope);
  }

  lemma {:induction false} RuleFires(rules: seq<Rules.Rule>, flats: seq<seq<Event>>, k: nat, scope: string)
    requires Rules.UniqueNames(rules) && k < |rules| == |flats| && rules[k].requiredTags != []
    ensures Rules.Fires(rules, flats, k, scope) <==> Applies(rules[k], flats[k], scope)
    ensures Rules.Untag(Rules.Matches(rules, flats, rules[k].name, scope)) == Matching(rules[k], flats[k], scope)
  {
    Rules.FiresIffTagsOccur(rules, flats, k, scope);
    Rules.OwnMatches(rules, flats, k, scope);
  }

  lemma {:induction false} FiredRuleHasGroup(rules: seq<Rules.Rule>, ruled: seq<Group>, flats: seq<seq<Event>>, k: nat, scope: string)
    returns (i: nat)
    requires k < |rules| == |flats| && Rules.UniqueNames(rules) && Rules.RuleGroups(ruled, rules, flats)
    requires rules[k].requiredTags != [] && Rules.Fires(rules, flats, k, scope)
    ensures i < |ruled| && ruled[i].confidence == rules[k].confidence
    ensures ruled[i].events == Matching(rules[k], flats[k], scope)
  {
    assert Rules.ReportedUpTo(ruled, rules, flats, scope, |rules|);
    assert Rules.Reported(ruled, rules, flats, k, scope);
    i :| 0 <= i < |ruled| && Rules.RuleGroup(ruled[i], rules, flats, k, scope);
    RuleFires(rules, flats, k, scope);
  }

  lemma {:induction false} SameMatches(input: Input, rule: Rules.Rule, a: seq<Event>, b: seq<Event>, scope: string)
    requires SeenAs(input, a) && SeenAs(input, b)
    ensures KeysOf(Key, Matching(rule, a, scope)) == KeysOf(Key, Matching(rule, b, scope))
  {
    MatchingIsOrderFree(input, rule, a, b, scope);
    MatchingIsOrderFree(input, rule, b, a, scope);
  }

  lemma {:induction false} RuleGroupIsFound(input: Input, rules: seq<Rules.Rule>, ruled: seq<Group>, flats: seq<seq<Event>>, i: nat)
    requires Rules.UniqueNames(rules) && AllRequireTags(rules)
    requires Rules.AllSeen(input, flats) && Rules.RuleGroups(ruled, rules, flats) && i < |ruled|
    ensures Found(input, rules, ruled[i])
  {
    var o := ruled[i];
    assert Rules.Justified(o, rules, flats);
    var k :| 0 <= k < |rules| && Rules.Fires(rules, flats, k, o.scope) && Rules.RuleGroup(o, rules, flats, k, o.scope);
    RuleFires(rules, flats, k, o.scope);
    assert SeenAs(input, flats[k]);
    assert OfRule(input, rules, o);
    IsFound(input, rules, o);
  }

  // ------------------------------------------------------------------- ownership stars

  // The group of star m of scope s, and the star that group i is of.
  lemma {:induction false} GroupInPart(gs: seq<Group>, flat: seq<Event>, scopes: seq<string>, parts: seq<seq<Group>>, i: nat)
    returns (k: nat, m: nat)
    requires Graph.GraphGroups(gs, flat, scopes, parts) && i < |gs|
    ensures k < |scopes| && m < |parts[k]| && gs[i] == parts[k][m]
  {
    k, m := JoinedMember(parts, i);
  }

  lemma {:induction false} JoinedMember(parts: seq<seq<Group>>, i: nat) returns (k: nat, m: nat)
    requires i < |Graph.Joined(parts)|
    ensures k < |parts| && m < |parts[k]| && Graph.Joined(parts)[i] == parts[k][m]
  {
    var n := |parts| - 1;
    if i < |Graph.Joined(parts[..n])| {
      k, m := JoinedMember(parts[..n], i);
    } else {
      k, m := n, i - |Graph.Joined(parts[..n])|;
    }
  }

  lemma {:induction false} PartInJoined(parts: seq<seq<Group>>, k: nat, m: nat) returns (i: nat)
    requires k < |parts| && m < |parts[k]|
    ensures i < |Graph.Joined(parts)| && Graph.Joined(parts)[i] == parts[k][m]
  {
    var n := |parts| - 1;
    if k < n {
      i := PartInJoined(parts[..n], k, m);
    } else {
      i := |Graph.Joined(parts[..n])| + m;
    }
  }

  lemma {:induction false} StarGroupIsFound(input: Input, rules: seq<Rules.Rule>, chained: seq<Group>, seen: seq<Event>, i: nat)
    requires SeenAs(input, seen) && Graph.AllStars(chained, seen) && i < |chained|
    ensures Found(input, rules, chained[i])
  {
    var scopes: seq<string>, parts: seq<seq<Group>> :| Graph.GraphGroups(chained, seen, scopes, parts) && Graph.Different(scopes)
                         && forall s :: s !in scopes ==> |InScope(seen, s)| < 2;
    var k, m := GroupInPart(chained, seen, scopes, parts, i);
    var es := InScope(seen, scopes[k]);
    assert Graph.HasStarGroups(parts[k], scopes[k], es);
    var chains :| Graph.StarGroups(parts[k], scopes[k], es, chains);
    assert Graph.Star(Graph.RelationOf(es), chains[m], |es|);
    assert Graph.GraphGroup(parts[k][m], scopes[k], Graph.EventsAt(es, chains[m]));
    assert OfStar(input, chained[i]);
    IsFound(input, rules, chained[i]);
  }

  lemma SameEventsSameKeys(a: seq<Event>, b: seq<Event>)
    requires multiset(a) == multiset(b)
    ensures KeysOf(Key, a) == KeysOf(Key, b)
  {
    forall i | 0 <= i < |a| ensures a[i] in b {
      assert a[i] in multiset(b);
    }
    forall i | 0 <= i < |b| ensures b[i] in a {
      assert b[i] in multiset(a);
    }
    KeysOfSome(Key, a, b);
    KeysOfSome(Key, b, a);
  }

  ghost predicate AllHonoured(gs: seq<Group>, reported: seq<Group>) {
    forall i :: 0 <= i < |gs| ==> Honoured(Key, gs[i].events, gs[i].confidence, reported)
  }

  lemma NoStarInFew(es: seq<Event>, reported: seq<Group>)
    requires |es| < 2
    ensures StarsHonouredIn(es, reported)
  {
    forall i, j | 0 <= i < |es| && 0 <= j < |es| ensures !Graph.RelationOf(es)(i, j) {
      Graph.RelatedIsSymmetric(Graph.ParseResource(es[0].issue.resource), Graph.ParseResource(es[0].issue.resource));
    }
    assert Graph.Stars(Graph.RelationOf(es), [], |es|);
  }

  lemma {:induction false} PartHonoursStars(gs: seq<Group>, scope: string, es: seq<Event>, reported: seq<Group>)
    requires Graph.HasStarGroups(gs, scope, es) && AllHonoured(gs, reported)
    ensures StarsHonouredIn(es, reported)
  {
    var chains :| Graph.StarGroups(gs, scope, es, chains);
    forall m | 0 <= m < |chains|
      ensures Graph.Increasing(chains[m], |es|)
      ensures Honoured(Key, Graph.EventsAt(es, chains[m]), if |chains[m]| >= 3 then 0.9 else 0.7, reported)
    {
      assert Graph.Star(Graph.RelationOf(es), chains[m], |es|);
      assert Graph.GraphGroup(gs[m], scope, Graph.EventsAt(es, chains[m]));
      SameEventsSameKeys(gs[m].events, Graph.EventsAt(es, chains[m]));
      assert Honoured(Key, gs[m].events, gs[m].confidence, reported);
    }
  }

  lemma {:induction false} StarsAreHonoured(chained: seq<Group>, seen: seq<Event>, reported: seq<Group>)
    requires Graph.AllStars(chained, seen) && AllHonoured(chained, reported)
    ensures StarsHonoured(seen, reported)
  {
    var scopes: seq<string>, parts: seq<seq<Group>> :| Graph.GraphGroups(chained, seen, scopes, parts) && Graph.Different(scopes)
                         && forall s :: s !in scopes ==> |InScope(seen, s)| < 2;
    forall s ensures StarsHonouredIn(InScope(seen, s), reported) {
      if s in scopes {
        var k :| 0 <= k < |scopes| && scopes[k] == s;
        forall m | 0 <= m < |parts[k]| ensures Honoured(Key, parts[k][m].events, parts[k][m].confidence, reported) {
          var i := PartInJoined(parts, k, m);
          assert chained[i] == parts[k][m];
        }
        PartHonoursStars(parts[k], s, InScope(seen, s), reported);
      } else {
        NoStarInFew(InScope(seen, s), reported);
      }
    }
  }

  // ----------------------------------------------------------------- rules and scopes

  lemma {:induction false} RulesAreHonoured(input: Input, rules: seq<Rules.Rule>, ruled: seq<Group>, flat: seq<Event>, reported: seq<Group>)
    requires Rules.UniqueNames(rules) && FromRules(input, rules, ruled) && SeenAs(input, flat) && AllHonoured(ruled, reported)
    ensures RulesHonoured(rules, flat, reported)
  {
    var flats :| Rules.AllSeen(input, flats) && Rules.RuleGroups(ruled, rules, flats);
    forall k, s | 0 <= k < |rules| && Applies(rules[k], flat, s)
      ensures Honoured(Key, Matching(rules[k], flat, s), rules[k].confidence, reported)
    {
      var i := AppliedRuleHasGroup(input, rules, ruled, flats, flat, k, s);
      assert Honoured(Key, ruled[i].events, ruled[i].confidence, reported);
    }
  }

  lemma TwoCheckers(es: seq<Event>)
    ensures ScopeConfidence(es) == Temporal.Confidence(es)
  {
    if i :| 0 <= i < |es| && es[i].checker != es[0].checker {
      assert 0 < i;
    }
  }

  lemma {:induction false} ScopesAreHonoured(timed: seq<Group>, seen: seq<Event>, reported: seq<Group>)
    requires Temporal.OnePerScope(timed, seen) && AllHonoured(timed, reported)
    ensures ScopesHonoured(seen, reported)
  {
    forall s | |InScope(seen, s)| >= 2
      ensures Honoured(Key, InScope(seen, s), ScopeConfidence(InScope(seen, s)), reported)
    {
      var i :| 0 <= i < |timed| && timed[i].scope == s;
      assert Temporal.TemporalGroup(timed[i], seen);
      TwoCheckers(InScope(seen, s));
      assert Honoured(Key, timed[i].events, timed[i].confidence, reported);
    }
  }

  // ------------------------------------------------------------------ all together

  /** Rules, ownership stars and whole scopes are honoured by what is reported, and nothing
      else is reported. */
  ghost predicate KeepsPromises(input: Input, rules: seq<Rules.Rule>, reported: seq<Group>) {
    && (forall flat :: SeenAs(input, flat) ==> RulesHonoured(rules, flat, reported))
    && (exists seen :: SeenAs(input, seen) && StarsHonoured(seen, reported))
    && (exists seen :: SeenAs(input, seen) && ScopesHonoured(seen, reported))
    && AllCut(input, rules, reported)
  }

  lemma {:induction false} AllAreFound(input: Input, rules: seq<Rules.Rule>, ruled: seq<Group>, chained: seq<Group>,
                                       timed: seq<Group>, g: Group)
    requires Rules.UniqueNames(rules) && AllRequireTags(rules) && FromAll(input, rules, ruled, chained, timed)
    requires g in ruled + chained + timed
    ensures Found(input, rules, g)
  {
    if g in ruled {
      var flats :| Rules.AllSeen(input, flats) && Rules.RuleGroups(ruled, rules, flats);
      var i :| 0 <= i < |ruled| && ruled[i] == g;
      RuleGroupIsFound(input, rules, ruled, flats, i);
    } else if g in chained {
      var seen :| SeenAs(input, seen) && Graph.AllStars(chained, seen);
      var i :| 0 <= i < |chained| && chained[i] == g;
      StarGroupIsFound(input, rules, chained, seen, i);
    } else {
      assert g in timed;
      ScopeGroupIsFound(input, rules, timed, g);
    }
  }

  lemma {:induction false} ScopeGroupIsFound(input: Input, rules: seq<Rules.Rule>, timed: seq<Group>, g: Group)
    requires FromTime(input, timed) && g in timed
    ensures Found(input, rules, g)
  {
    var seen :| SeenAs(input, seen) && Temporal.OnePerScope(timed, seen);
    var i :| 0 <= i < |timed| && timed[i] == g;
    assert Temporal.TemporalGroup(timed[i], seen);
    assert OfScope(input, g);
    IsFound(input, rules, g);
  }

  lemma {:induction false} PartIsHonoured(part: seq<Group>, all: seq<Group>, reported: seq<Group>)
    requires forall g :: g in part ==> g in all
    requires multiset(reported) == multiset(Survivors(Key, Sort(all, MoreConfident), |Sort(all, MoreConfident)|))
    ensures AllHonoured(part, reported)
  {
    var gs := Sort(all, MoreConfident);
    SortPermutes(all, MoreConfident);
    forall i | 0 <= i < |part| ensures Honoured(Key, part[i].events, part[i].confidence, reported) {
      assert part[i] in all && part[i] in multiset(gs);
      var j :| 0 <= j < |gs| && gs[j] == part[i];
      InputGroupIsHonoured(Key, all, gs, j);
      SameGroupsSameKeys(Key, Survivors(Key, gs, |gs|), reported, part[i].confidence);
    }
  }

  lemma {:induction false} ReportedAreCut(input: Input, rules: seq<Rules.Rule>, ruled: seq<Group>, chained: seq<Group>,
                                          timed: seq<Group>, reported: seq<Group>)
    requires Rules.UniqueNames(rules) && AllRequireTags(rules) && FromAll(input, rules, ruled, chained, timed)
    requires var gs := Sort(ruled + chained + timed, MoreConfident);
             multiset(reported) == multiset(Survivors(Key, gs, |gs|))
    ensures AllCut(input, rules, reported)
  {
    var all := ruled + chained + timed;
    var gs := Sort(all, MoreConfident);
    SortPermutes(all, MoreConfident);
    forall i | 0 <= i < |reported| ensures exists o :: CutFrom(reported[i], o) && Found(input, rules, o) {
      assert reported[i] in multiset(Survivors(Key, gs, |gs|));
      var k :| 0 <= k < |Survivors(Key, gs, |gs|)| && Survivors(Key, gs, |gs|)[k] == reported[i];
      var j := SurvivorIsCut(Key, gs, k);
      assert gs[j] in multiset(all);
      AllAreFound(input, rules, ruled, chained, timed, gs[j]);
    }
  }

  /** If a workload was killed for memory and a quota of its namespace is in trouble, both
      are reported together with everything the rule matches there, with confidence at least
      0.85, but for one distinct issue at most. */
  lemma {:induction false} OomAndQuotaAreReported(input: Input, flat: seq<Event>, reported: seq<Group>, killed: Event, quota: Event)
    requires KeepsPromises(input, Rules.DefaultRules(), reported) && SeenAs(input, flat)
    requires killed in flat && quota in flat && Scope(killed) == Scope(quota)
    requires killed.checker == "workloads" && Rules.KindContains(killed.issue, "OOM")
    requires quota.checker == "quotas" && (quota.issue.severity == "Critical" || quota.issue.severity == "Warning")
    ensures var matching := Matching(Rules.DefaultRules()[0], flat, Scope(killed));
            killed in matching && quota in matching && Honoured(Key, matching, 0.85, reported)
  {
    Rules.BuiltInTags(killed.checker, killed.issue);
    Rules.BuiltInTags(quota.checker, quota.issue);
    TwoTaggedIssuesAreReported(Rules.DefaultRules(), 0, flat, reported, killed, quota);
  }

  lemma {:induction false} TwoTaggedIssuesAreReported(rules: seq<Rules.Rule>, k: nat, flat: seq<Event>, reported: seq<Group>,
                                                      a: Event, b: Event)
    requires k < |rules| && |rules[k].requiredTags| == 2 && RulesHonoured(rules, flat, reported)
    requires a in flat && b in flat && Scope(a) == Scope(b)
    requires Rules.Tag(rules[k], a) == Some(rules[k].requiredTags[0]) && Rules.Tag(rules[k], b) == Some(rules[k].requiredTags[1])
    ensures var matching := Matching(rules[k], flat, Scope(a));
            a in matching && b in matching && Honoured(Key, matching, rules[k].confidence, reported)
  {
    MatchingMembers(rules[k], flat, Scope(a), a);
    MatchingMembers(rules[k], flat, Scope(a), b);
    var i :| 0 <= i < |flat| && flat[i] == a;
    var j :| 0 <= j < |flat| && flat[j] == b;
    assert Rules.Carries(rules[k], flat[i], Scope(a), rules[k].requiredTags[0]);
    assert Rules.Carries(rules[k], flat[j], Scope(a), rules[k].requiredTags[1]);
    assert Applies(rules[k], flat, Scope(a));
  }

  lemma NothingApplies(rule: Rules.Rule, scope: string)
    ensures !Applies(rule, [], scope)
  {
    if rule.requiredTags != [] {
      assert !Rules.Occurs(rule, [], scope, rule.requiredTags[0]);
    }
  }

  /** Without issues there is nothing to keep. */
  lemma {:induction false} NothingIsKept(input: Input, rules: seq<Rules.Rule>)
    requires (exists flat :: SeenAs(input, flat)) && forall flat :: SeenAs(input, flat) ==> flat == []
    ensures KeepsPromises(input, rules, [])
  {
    var seen :| SeenAs(input, seen);
    forall k, s | 0 <= k < |rules| ensures !Applies(rules[k], [], s) {
      NothingApplies(rules[k], s);
    }
    forall s ensures StarsHonouredIn(InScope(seen, s), []) {
      NoStarInFew(InScope(seen, s), []);
    }
  }

  /** Deduplication keeps the promises of the strategies. */
  lemma {:induction false} StrategiesAreKept(input: Input, rules: seq<Rules.Rule>, ruled: seq<Group>, chained: seq<Group>,
                                             timed: seq<Group>, reported: seq<Group>)
    requires Rules.UniqueNames(rules) && AllRequireTags(rules) && FromAll(input, rules, ruled, chained, timed)
    requires var gs := Sort(ruled + chained + timed, MoreConfident);
             multiset(reported) == multiset(Survivors(Key, gs, |gs|))
    ensures KeepsPromises(input, rules, reported)
  {
    var all := ruled + chained + timed;
    PartIsHonoured(ruled, all, reported);
    PartIsHonoured(chained, all, reported);
    PartIsHonoured(timed, all, reported);
    forall flat | SeenAs(input, flat) ensures RulesHonoured(rules, flat, reported) {
      RulesAreHonoured(input, rules, ruled, flat, reported);
    }
    var seen :| SeenAs(input, seen) && Graph.AllStars(chained, seen);
    StarsAreHonoured(chained, seen, reported);
    var watched :| SeenAs(input, watched) && Temporal.OnePerScope(timed, watched);
    ScopesAreHonoured(timed, watched, reported);
    ReportedAreCut(input, rules, ruled, chained, timed, reported);
  }
}
