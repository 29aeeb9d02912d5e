/** An input on which a reported severity is that of no reported issue. */
module CorrelatorScenarios {
  import opened CheckerTypes
  import opened CausalTypes
  import opened Timeline
  import opened GroupDeduplication
  import opened StableSort
  import Rules = CrossCheckerRules
  import Graph = ResourceGraph
  import Temporal = TemporalCorrelator

  const CHECKER := "capacity"
  const NAMESPACE := "shop"

  function ShopIssue(kind: string, name: string, severity: string): Issue {
    Issue("", severity, kind + "/" + name, NAMESPACE, "", "", map[])
  }

  // A critical deployment with its critical pod, and two minor issues beside them.
  function ShopIssues(): seq<Issue> {
    [ShopIssue("deployment", "web", SEVERITY_CRITICAL), ShopIssue("pod", "web-1", SEVERITY_CRITICAL),
     ShopIssue("service", "a1", SEVERITY_INFO), ShopIssue("service", "b22", SEVERITY_INFO)]
  }

  function Shop(): Input {
    Input(map[CHECKER := Some(CheckResult(CHECKER, 0, ShopIssues(), None))], 0)
  }

  function ShopEvents(): (es: seq<Event>)
    ensures |es| == 4
  {
    Wrap(Shop(), CHECKER, ShopIssues())
  }

  lemma {:induction false} ShopIsSeenOneWay(flat: seq<Event>)
    requires SeenAs(Shop(), flat)
    ensures flat == ShopEvents()
  {
    var order :| IsOrder(order, Shop().results.Keys) && flat == Flatten(Shop(), order);
    assert CHECKER in order;
    forall i | 0 <= i < |order| ensures order[i] == CHECKER {
      assert order[i] in order;
    }
    SameAndDistinctIsOne(order, CHECKER);
    assert order == [CHECKER];
    assert [CHECKER][..0] == [];
    assert flat == Flatten(Shop(), []) + EventsOf(Shop(), CHECKER);
  }

  lemma ShopHasOneScope(i: nat)
    requires i < 4
    ensures Scope(ShopEvents()[i]) == NAMESPACE
  {
  }

  lemma {:induction false} AllInScope(es: seq<Event>, scope: string)
    requires forall i :: 0 <= i < |es| ==> Scope(es[i]) == scope
    ensures InScope(es, scope) == es
    ensures forall s :: s != scope ==> InScope(es, s) == []
  {
    if es != [] {
      AllInScope(es[..|es| - 1], scope);
    }
  }

  lemma {:induction false} ShopScopes()
    ensures InScope(ShopEvents(), NAMESPACE) == ShopEvents()
    ensures forall s :: s != NAMESPACE ==> InScope(ShopEvents(), s) == []
  {
    forall i | 0 <= i < 4 ensures Scope(ShopEvents()[i]) == NAMESPACE {
      ShopHasOneScope(i);
    }
    AllInScope(ShopEvents(), NAMESPACE);
  }

  // ------------------------------------------------------------------- the rules

  // No built-in rule looks at this checker.
  lemma RulesIgnoreShop(k: nat, e: Event)
    requires k < |Rules.DefaultRules()| && e.checker == CHECKER
    ensures Rules.Tag(Rules.DefaultRules()[k], e).None?
  {
  }

  lemma {:induction false} ShopHasNoRuleGroups(gs: seq<Group>, flats: seq<seq<Event>>)
    requires Rules.AllSeen(Shop(), flats) && Rules.RuleGroups(gs, Rules.DefaultRules(), flats)
    ensures gs == []
  {
    var rules := Rules.DefaultRules();
    if gs != [] {
      assert Rules.Justified(gs[0], rules, flats);
      var k :| 0 <= k < |rules| && Rules.Fires(rules, flats, k, gs[0].scope);
      var j := Rules.MatchesMembers(rules, flats, rules[k].name, gs[0].scope, 0);
      var e := Rules.Matches(rules, flats, rules[k].name, gs[0].scope)[0].event;
      SeenIsInput(Shop(), flats[j], e);
      RulesIgnoreShop(j, e);
    }
  }

  // -------------------------------------------------------------------- the graph

  lemma {:induction false} FirstSlashAt(s: string, n: nat)
    requires n < |s| && s[n] == '/' && forall i :: 0 <= i < n ==> s[i] != '/'
    ensures Graph.FirstSlash(s) == n
  {
    if n > 0 {
      FirstSlashAt(s[1..], n - 1);
    }
  }

  lemma {:induction false} Parsed(kind: string, name: string)
    requires '/' !in kind && forall i :: 0 <= i < |kind| ==> 'a' <= kind[i] <= 'z'
    ensures Graph.ParseResource(kind + "/" + name) == Graph.Ref(kind, name)
  {
    var s := kind + "/" + name;
    FirstSlashAt(s, |kind|);
    assert s[..|kind|] == kind && s[|kind| + 1..] == name;
    assert Graph.ToLower(kind) == kind;
  }

  function ShopReference(i: nat): Graph.Ref {
    Graph.ParseResource(ShopEvents()[if i < 4 then i else 0].issue.resource)
  }

  lemma DeploymentParsed()
    ensures ShopReference(0) == Graph.Ref("deployment", "web")
  {
    Parsed("deployment", "web");
  }

  lemma PodParsed()
    ensures ShopReference(1) == Graph.Ref("pod", "web-1")
  {
    Parsed("pod", "web-1");
  }

  lemma ServicesHaveNoLevel()
    ensures Graph.Level(ShopReference(2).kind) == 0 && Graph.Level(ShopReference(3).kind) == 0
  {
    Parsed("service", "a1");
    Parsed("service", "b22");
  }

  lemma DeploymentOwnsPod()
    ensures Graph.RelatedByOwnership(Graph.Ref("deployment", "web"), Graph.Ref("pod", "web-1"))
  {
    assert "web" + "-" <= "web-1";
  }

  lemma {:induction false} ShopRelation(i: nat, j: nat)
    requires i < 4 && j < 4
    ensures Graph.RelationOf(ShopEvents())(i, j) <==> (i == 0 && j == 1) || (i == 1 && j == 0)
  {
    DeploymentParsed();
    PodParsed();
    ServicesHaveNoLevel();
    DeploymentOwnsPod();
    Graph.RelatedIsSymmetric(ShopReference(0), ShopReference(1));
    Graph.RelatedIsSymmetric(ShopReference(i), ShopReference(j));
    assert Graph.RelationOf(ShopEvents())(i, j) == Graph.RelatedByOwnership(ShopReference(i), ShopReference(j));
    assert i == 0 || i == 1 || i == 2 || i == 3;
    assert j == 0 || j == 1 || j == 2 || j == 3;
  }

  predicate OnlyFirstTwo(related: Graph.Relation) {
    forall i, j :: 0 <= i < 4 && 0 <= j < 4 ==> (related(i, j) <==> (i == 0 && j == 1) || (i == 1 && j == 0))
  }

  lemma ShopRelates()
    ensures OnlyFirstTwo(Graph.RelationOf(ShopEvents()))
  {
    forall i, j | 0 <= i < 4 && 0 <= j < 4
      ensures Graph.RelationOf(ShopEvents())(i, j) <==> (i == 0 && j == 1) || (i == 1 && j == 0)
    {
      ShopRelation(i, j);
    }
  }

  lemma {:induction false} StarIsPair(related: Graph.Relation, c: seq<nat>)
    requires Graph.Star(related, c, 4) && OnlyFirstTwo(related)
    ensures c == [0, 1]
  {
    forall k | 1 <= k < |c| ensures c[0] == 0 && c[k] == 1 {
      assert related(c[0], c[k]) && c[0] < c[k];
    }
    SameAndDistinctIsOne(c[1..], 1);
    assert c == [c[0], c[1]];
  }

  lemma StarsDiffer(related: Graph.Relation, chains: seq<seq<nat>>)
    requires Graph.Stars(related, chains, 4)
    ensures forall m, k :: 0 <= m < k < |chains| ==> chains[m] != chains[k]
  {
    forall m, k | 0 <= m < k < |chains| ensures chains[m] != chains[k] {
      assert Graph.Star(related, chains[m], 4);
      assert chains[m][0] in chains[m];
    }
  }

  lemma {:induction false} OnlyStar(related: Graph.Relation, chains: seq<seq<nat>>)
    requires Graph.Stars(related, chains, 4) && OnlyFirstTwo(related)
    ensures chains == [[0, 1]]
  {
    StarsDiffer(related, chains);
    forall m | 0 <= m < |chains| ensures chains[m] == [0, 1] {
      StarIsPair(related, chains[m]);
    }
    SameAndDistinctIsOne(chains, [0, 1]);
    assert related(0, 1);
    assert Graph.Covered(chains, 0) || Graph.Covered(chains, 1);
  }

  // The group of the deployment and its pod.
  ghost predicate ChainGroup(g: Group) {
    Graph.GraphGroup(g, NAMESPACE, ShopEvents()[..2])
  }

  lemma {:induction false} ShopStarGroups(gs: seq<Group>)
    requires Graph.HasStarGroups(gs, NAMESPACE, ShopEvents())
    ensures |gs| == 1 && ChainGroup(gs[0])
  {
    var es := ShopEvents();
    var chains :| Graph.StarGroups(gs, NAMESPACE, es, chains);
    ShopRelates();
    OnlyStar(Graph.RelationOf(es), chains);
    assert Graph.EventsAt(es, [0, 1]) == es[..2];
  }

  lemma StarNeedsRoom(related: Graph.Relation, chains: seq<seq<nat>>, n: nat)
    requires Graph.Stars(related, chains, n) && chains != []
    ensures n >= 2
  {
    assert Graph.Star(related, chains[0], n);
    assert chains[0][0] < chains[0][1] < n;
  }

  lemma {:induction false} NoStarsOfNothing(gs: seq<Group>, scope: string)
    requires Graph.HasStarGroups(gs, scope, [])
    ensures gs == []
  {
    var chains :| Graph.StarGroups(gs, scope, [], chains);
    if chains != [] {
      StarNeedsRoom(Graph.RelationOf([]), chains, 0);
    }
  }

  lemma {:induction false} JoinedOne(parts: seq<seq<Group>>, k: nat)
    requires k < |parts| && forall i :: 0 <= i < |parts| && i != k ==> parts[i] == []
    ensures Graph.Joined(parts) == parts[k]
  {
    var n := |parts| - 1;
    if k < n {
      JoinedOne(parts[..n], k);
    } else {
      JoinedNone(parts[..n]);
    }
  }

  lemma {:induction false} JoinedNone(parts: seq<seq<Group>>)
    requires forall i :: 0 <= i < |parts| ==> parts[i] == []
    ensures Graph.Joined(parts) == []
  {
    if parts != [] {
      JoinedNone(parts[..|parts| - 1]);
    }
  }

  lemma {:induction false} ShopGraphGroups(gs: seq<Group>)
    requires Graph.AllStars(gs, ShopEvents())
    ensures |gs| == 1 && ChainGroup(gs[0])
  {
    var es := ShopEvents();
    ShopScopes();
    var scopes, parts :| Graph.GraphGroups(gs, es, scopes, parts) && Graph.Different(scopes)
                         && forall s :: s !in scopes ==> |InScope(es, s)| < 2;
    assert NAMESPACE in scopes;
    var k :| 0 <= k < |scopes| && scopes[k] == NAMESPACE;
    forall i | 0 <= i < |parts| && i != k ensures parts[i] == [] {
      assert scopes[i] != NAMESPACE;
      assert Graph.HasStarGroups(parts[i], scopes[i], InScope(es, scopes[i]));
      NoStarsOfNothing(parts[i], scopes[i]);
    }
    JoinedOne(parts, k);
    assert Graph.HasStarGroups(parts[k], scopes[k], InScope(es, scopes[k]));
    ShopStarGroups(gs);
  }

  // ------------------------------------------------------------------- the window

  lemma {:induction false} ShopTemporalGroups(gs: seq<Group>)
    requires Temporal.OnePerScope(gs, ShopEvents())
    ensures |gs| == 1 && Temporal.TemporalGroup(gs[0], ShopEvents()) && gs[0].scope == NAMESPACE
  {
    ShopScopes();
    forall i | 0 <= i < |gs| ensures gs[i].scope == NAMESPACE {
      assert Temporal.TemporalGroup(gs[i], ShopEvents());
    }
    var i :| 0 <= i < |gs| && gs[i].scope == NAMESPACE;
    SameAndDistinctIsOne(seq(|gs|, k requires 0 <= k < |gs| => gs[k].scope), NAMESPACE);
  }

  // ------------------------------------------------------------- the outcome

  lemma ShopKeys(i: nat, j: nat)
    requires i < j < 4
    ensures Key(ShopEvents()[i]) != Key(ShopEvents()[j])
  {
    var es := ShopEvents();
    assert |es[0].issue.resource| == 14 && |es[1].issue.resource| == 9;
    assert |es[2].issue.resource| == 10 && |es[3].issue.resource| == 11;
    assert |Key(es[i])| != |Key(es[j])|;
  }

  lemma {:induction false} KeysOfPermutation(key: KeyFunction, a: seq<Event>, b: seq<Event>)
    requires multiset(a) == multiset(b)
    ensures KeysOf(key, a) == KeysOf(key, b)
  {
    forall i | 0 <= i < |a| ensures a[i] in b {
      assert a[i] in multiset(b);
    }
    forall i | 0 <= i < |b| ensures b[i] in a {
      assert b[i] in multiset(a);
    }
    KeysOfSome(key, a, b);
    KeysOfSome(key, b, a);
  }

  // The chain group comes first, so the window keeps only the minor issues.
  lemma {:induction false} WindowKeepsMinor(g: Group, t: Group)
    requires ChainGroup(g) && t.events == ShopEvents()
    ensures var gs := [g, t];
            && SurvivesAt(Key, gs, 0) && SurvivesAt(Key, gs, 1)
            && KeptAt(Key, gs, 1) == ShopEvents()[2..]
  {
    var es, gs := ShopEvents(), [g, t];
    ShopKeys(0, 1);
    ShopKeys(0, 2);
    ShopKeys(0, 3);
    ShopKeys(1, 2);
    ShopKeys(1, 3);
    ShopKeys(2, 3);
    var claimed := {Key(es[0]), Key(es[1])};
    assert es[..2] == [es[0], es[1]];
    PairKeys(Key, es[0], es[1]);
    KeysOfPermutation(Key, g.events, es[..2]);
    assert KeysOf(Key, g.events) == claimed;
    TwoKeysAreKept(g.events, Key(es[0]), Key(es[1]));
    assert Claimed(Key, gs, 1) == claimed;
    KeptTail(Key, es, claimed);
  }

  lemma {:induction false} TwoKeysAreKept(es: seq<Event>, a: string, b: string)
    requires KeysOf(Key, es) == {a, b} && a != b
    ensures |Kept(Key, es, {})| >= 2
  {
    var kept := Kept(Key, es, {});
    KeptKeys(Key, es, {});
    assert KeysOf(Key, kept) == {a, b};
    FewerKeysThanEvents(Key, kept);
  }

  lemma {:induction false} KeptTail(key: KeyFunction, es: seq<Event>, claimed: set<string>)
    requires |es| == 4 && claimed == {key(es[0]), key(es[1])}
    requires key(es[2]) !in claimed && key(es[3]) !in claimed && key(es[2]) != key(es[3])
    ensures Kept(key, es, claimed) == es[2..]
  {
    ClaimedAreDropped(key, es, claimed);
    KeptPrefix(key, es, claimed, 2);
    KeptPrefix(key, es, claimed, 3);
    assert es[..4] == es;
    assert KeepsEvent(key, es, claimed, 2) && KeepsEvent(key, es, claimed, 3);
    assert [] + [es[2]] + [es[3]] == es[2..];
  }

  lemma {:induction false} ClaimedAreDropped(key: KeyFunction, es: seq<Event>, claimed: set<string>)
    requires |es| == 4 && claimed == {key(es[0]), key(es[1])}
    ensures Kept(key, es[..2], claimed) == []
  {
    KeptKeys(key, es[..2], claimed);
    assert es[..2] == [es[0], es[1]];
    PairKeys(key, es[0], es[1]);
    assert KeysOf(key, Kept(key, es[..2], claimed)) == {};
    NoKeysNoEvents(key, Kept(key, es[..2], claimed));
  }

  lemma {:induction false} NoKeysNoEvents(key: KeyFunction, es: seq<Event>)
    requires KeysOf(key, es) == {}
    ensures es == []
  {
  }

  lemma {:induction false} KeptPrefix(key: KeyFunction, es: seq<Event>, claimed: set<string>, n: nat)
    requires n < |es|
    ensures Kept(key, es[..n + 1], claimed)
            == Kept(key, es[..n], claimed) + if KeepsEvent(key, es, claimed, n) then [es[n]] else []
  {
    KeepsLast(key, es[..n + 1], claimed);
    assert es[..n + 1][..n] == es[..n];
    assert KeepsEvent(key, es[..n + 1], claimed, n) <==> KeepsEvent(key, es, claimed, n);
  }

  lemma ShopConfidences(g: Group, t: Group)
    requires ChainGroup(g) && Temporal.TemporalGroup(t, ShopEvents()) && t.scope == NAMESPACE
    ensures g.confidence > t.confidence && t.severity == SEVERITY_CRITICAL && t.events == ShopEvents()
  {
    ShopScopes();
    var es := ShopEvents();
    assert es[0].issue.severity == SEVERITY_CRITICAL;
    assert Priority(es[0].issue.severity) <= Priority(t.severity);
    assert forall i :: 0 <= i < |es| ==> es[i].checker == es[0].checker;
  }

  lemma {:induction false} SortOfTwo(g: Group, t: Group)
    requires !MoreConfident(t, g)
    ensures Sort([g, t], MoreConfident) == [g, t]
  {
    assert [g, t][..1] == [g] && [g][..0] == [];
    assert Sort([g], MoreConfident) == [] + [g];
    assert [] + [g] == [g];
  }

  // The second group is reported as critical and holds minor issues only.
  predicate Overstated(gs: seq<Group>) {
    && |gs| == 2 && gs[1].severity == SEVERITY_CRITICAL && |gs[1].events| == 2
    && forall i :: 0 <= i < 2 ==> gs[1].events[i].issue.severity == SEVERITY_INFO
  }

  lemma MinorIssues()
    ensures |ShopEvents()[2..]| == 2
    ensures forall i :: 0 <= i < 2 ==> ShopEvents()[2..][i].issue.severity == SEVERITY_INFO
  {
    assert ShopEvents()[2..] == [ShopEvents()[2], ShopEvents()[3]];
  }

  method RuledShop() returns (ruled: seq<Group>)
    ensures ruled == []
  {
    ruled := Rules.Apply(Rules.DefaultRules(), Shop());
    ShopRuled(ruled);
  }

  method ChainedShop() returns (chained: seq<Group>)
    ensures |chained| == 1 && ChainGroup(chained[0])
  {
    chained := Graph.Correlate(Shop());
    ShopChained(chained);
  }

  method TimedShop(window: int) returns (timed: seq<Group>)
    ensures |timed| == 1 && Temporal.TemporalGroup(timed[0], ShopEvents()) && timed[0].scope == NAMESPACE
  {
    timed := Temporal.Correlate(Shop(), window);
    ShopTimed(timed);
  }

  lemma OneOfEach(chained: seq<Group>, timed: seq<Group>)
    requires |chained| == |timed| == 1
    ensures [] + chained + timed == [chained[0], timed[0]]
  {
  }

  /** The strategies, run on the shop, lead to a surviving group that is reported as critical
      and holds two minor issues. */
  method SeverityOverstates(window: int) returns (survivors: seq<Group>)
    ensures Overstated(survivors)
  {
    var ruled := RuledShop();
    var chained := ChainedShop();
    var timed := TimedShop(window);
    ShopOutcome(chained[0], timed[0]);
    OneOfEach(chained, timed);
    survivors := DeduplicateGroups(Key, ruled + chained + timed);
  }

  lemma {:induction false} ShopRuled(ruled: seq<Group>)
    requires exists flats :: Rules.AllSeen(Shop(), flats) && Rules.RuleGroups(ruled, Rules.DefaultRules(), flats)
    ensures ruled == []
  {
    var flats :| Rules.AllSeen(Shop(), flats) && Rules.RuleGroups(ruled, Rules.DefaultRules(), flats);
    ShopHasNoRuleGroups(ruled, flats);
  }

  lemma {:induction false} ShopChained(chained: seq<Group>)
    requires exists flat :: SeenAs(Shop(), flat) && Graph.AllStars(chained, flat)
    ensures |chained| == 1 && ChainGroup(chained[0])
  {
    var flat :| SeenAs(Shop(), flat) && Graph.AllStars(chained, flat);
    ShopIsSeenOneWay(flat);
    ShopGraphGroups(chained);
  }

  lemma {:induction false} ShopTimed(timed: seq<Group>)
    requires exists flat :: SeenAs(Shop(), flat) && Temporal.OnePerScope(timed, flat)
    ensures |timed| == 1 && Temporal.TemporalGroup(timed[0], ShopEvents()) && timed[0].scope == NAMESPACE
  {
    var flat :| SeenAs(Shop(), flat) && Temporal.OnePerScope(timed, flat);
    ShopIsSeenOneWay(flat);
    ShopTemporalGroups(timed);
  }

  lemma {:induction false} ShopOutcome(g: Group, t: Group)
    requires ChainGroup(g) && Temporal.TemporalGroup(t, ShopEvents()) && t.scope == NAMESPACE
    ensures var gs := Sort([g, t], MoreConfident);
            var r := Survivors(Key, gs, |gs|);
            Overstated(r)
  {
    ShopConfidences(g, t);
    SortOfTwo(g, t);
    WindowKeepsMinor(g, t);
    TwoSurvive([g, t]);
    MinorIssues();
  }

  lemma {:induction false} TwoSurvive(gs: seq<Group>)
    requires |gs| == 2 && SurvivesAt(Key, gs, 0) && SurvivesAt(Key, gs, 1)
    ensures Survivors(Key, gs, 2)
            == [gs[0].(events := KeptAt(Key, gs, 0)), gs[1].(events := KeptAt(Key, gs, 1))]
  {
    assert Survivors(Key, gs, 1) == [] + [gs[0].(events := KeptAt(Key, gs, 0))];
  }
}
