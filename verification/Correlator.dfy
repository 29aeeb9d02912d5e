/** The correlator: three strategies, deduplication, ordering and a count. */
module Correlator {
  import opened CausalTypes
  import opened Timeline
  import opened GroupDeduplication
  import opened StableSort
  import opened FiniteSets
  import opened StrategyGuarantees
  import Rules = CrossCheckerRules
  import Graph = ResourceGraph
  import Temporal = TemporalCorrelator

  datatype Context = Context(groups: seq<Group>, uncorrelatedCount: int, totalIssues: int)

  // ------------------------------------------------------------------- counting

  lemma {:induction false} FlattenSnoc(input: Input, a: seq<string>, c: string)
    ensures |Flatten(input, a + [c])| == |Flatten(input, a)| + |EventsOf(input, c)|
  {
    assert (a + [c])[..|a|] == a;
  }

  lemma Regroup(a: seq<string>, b: seq<string>, c: string)
    ensures a + (b + [c]) == (a + b) + [c]
  {
  }

  lemma {:induction false} FlattenSplit(input: Input, a: seq<string>, c: string, b: seq<string>)
    ensures |Flatten(input, a + [c] + b)| == |Flatten(input, a + b)| + |EventsOf(input, c)|
  {
    if b == [] {
      assert a + [c] + b == a + [c] && a + b == a;
      FlattenSnoc(input, a, c);
    } else {
      var init, last := b[..|b| - 1], b[|b| - 1];
      FlattenSplit(input, a, c, init);
      assert b == init + [last];
      Regroup(a + [c], init, last);
      Regroup(a, init, last);
      FlattenSnoc(input, a + [c] + init, last);
      FlattenSnoc(input, a + init, last);
    }
  }

  lemma OrderOfNone(a: seq<string>, keys: set<string>)
    requires IsOrder(a, keys)
    ensures a == [] <==> keys == {}
  {
    if a != [] {
      assert a[0] in keys;
    }
  }

  /** The total does not depend on the order in which the results are visited. */
  lemma {:induction false} TotalIsOrderFree(input: Input, a: seq<string>, b: seq<string>, keys: set<string>)
    requires IsOrder(a, keys) && IsOrder(b, keys)
    ensures |Flatten(input, a)| == |Flatten(input, b)|
    decreases |a|
  {
    OrderOfNone(a, keys);
    OrderOfNone(b, keys);
    if a != [] {
      var c := a[|a| - 1];
      WithoutLast(a, keys);
      var rest := TakeOut(input, b, c, keys);
      TotalIsOrderFree(input, a[..|a| - 1], rest, keys - {c});
    }
  }

  lemma WithoutLast(a: seq<string>, keys: set<string>)
    requires IsOrder(a, keys) && a != []
    ensures IsOrder(a[..|a| - 1], keys - {a[|a| - 1]})
    ensures a[|a| - 1] in keys
  {
    var init, c := a[..|a| - 1], a[|a| - 1];
    assert a == init + [c] + [] && init + [] == init;
    WithoutOne(init, c, [], keys);
  }

  lemma {:induction false} TakeOut(input: Input, b: seq<string>, c: string, keys: set<string>) returns (rest: seq<string>)
    requires IsOrder(b, keys) && c in keys
    ensures IsOrder(rest, keys - {c})
    ensures |Flatten(input, b)| == |Flatten(input, rest)| + |EventsOf(input, c)|
  {
    assert c in b;
    var p :| 0 <= p < |b| && b[p] == c;
    rest := b[..p] + b[p + 1..];
    assert b == b[..p] + [c] + b[p + 1..];
    FlattenSplit(input, b[..p], c, b[p + 1..]);
    WithoutOne(b[..p], c, b[p + 1..], keys);
  }

  lemma WithoutOne(a: seq<string>, c: string, b: seq<string>, keys: set<string>)
    requires IsOrder(a + [c] + b, keys)
    ensures IsOrder(a + b, keys - {c})
  {
    var all, rest := a + [c] + b, a + b;
    forall i | 0 <= i < |rest| ensures rest[i] != c && rest[i] in keys {
      var j := if i < |a| then i else i + 1;
      assert all[j] == rest[i] && all[|a|] == c;
      assert all[j] in all;
    }
    forall i, j | 0 <= i < j < |rest| ensures rest[i] != rest[j] {
      var k, l := if i < |a| then i else i + 1, if j < |a| then j else j + 1;
      assert all[k] == rest[i] && all[l] == rest[j];
    }
    forall k ensures k in rest <==> k in keys - {c} {
      if k in keys && k != c {
        assert k in all;
      }
    }
  }

  method CountIssues(input: Input) returns (total: nat)
    ensures forall flat :: SeenAs(input, flat) ==> total == |flat|
    ensures exists flat :: SeenAs(input, flat)
  {
    var names := RangeOrder(input.results.Keys);
    total := 0;
    for i := 0 to |names|
      invariant total == |Flatten(input, names[..i])|
    {
      assert names[..i + 1][..i] == names[..i];
      assert names[i] in input.results;
      total := total + |IssuesOf(input.results[names[i]])|;
    }
    assert names[..|names|] == names;
    assert SeenAs(input, Flatten(input, names));
    forall flat | SeenAs(input, flat) ensures total == |flat| {
      var order :| IsOrder(order, input.results.Keys) && flat == Flatten(input, order);
      TotalIsOrderFree(input, order, names, input.results.Keys);
    }
  }

  // The keys of the events of some groups.
  method CorrelatedKeys(groups: seq<Group>) returns (correlated: set<string>)
    ensures correlated == GroupKeys(Key, groups)
  {
    correlated := {};
    for i := 0 to |groups|
      invariant correlated == GroupKeys(Key, groups[..i])
    {
      assert groups[..i + 1][..i] == groups[..i];
      var es := groups[i].events;
      ghost var before := correlated;
      for j := 0 to |es|
        invariant correlated == before + KeysOf(Key, es[..j])
      {
        assert es[..j + 1] == es[..j] + [es[j]];
        KeysOfSnoc(Key, es[..j], es[j]);
        correlated := correlated + {Key(es[j])};
      }
      assert es[..|es|] == es;
    }
    assert groups[..|groups|] == groups;
  }

  // ------------------------------------------------------- keys of many groups

  lemma {:induction false} GroupKeysMember(key: KeyFunction, gs: seq<Group>, k: string)
    ensures k in GroupKeys(key, gs) <==> exists i :: 0 <= i < |gs| && k in KeysOf(key, gs[i].events)
  {
    if gs != [] {
      var init := gs[..|gs| - 1];
      GroupKeysMember(key, init, k);
      if k in GroupKeys(key, init) {
        var i :| 0 <= i < |init| && k in KeysOf(key, init[i].events);
        assert gs[i] == init[i];
      } else if exists i :: 0 <= i < |gs| && k in KeysOf(key, gs[i].events) {
        var i :| 0 <= i < |gs| && k in KeysOf(key, gs[i].events);
        assert i < |init| ==> k in KeysOf(key, init[i].events);
      }
    }
  }

  lemma {:induction false} GroupKeysInclude(key: KeyFunction, a: seq<Group>, b: seq<Group>)
    requires multiset(a) == multiset(b)
    ensures GroupKeys(key, a) <= GroupKeys(key, b)
  {
    forall k | k in GroupKeys(key, a) ensures k in GroupKeys(key, b) {
      GroupKeysMember(key, a, k);
      var i :| 0 <= i < |a| && k in KeysOf(key, a[i].events);
      assert a[i] in multiset(b);
      var j :| 0 <= j < |b| && b[j] == a[i];
      GroupKeysMember(key, b, k);
    }
  }

  ghost predicate PairwiseDisjoint(key: KeyFunction, gs: seq<Group>) {
    forall k, l :: 0 <= k < l < |gs| ==> KeysOf(key, gs[k].events) !! KeysOf(key, gs[l].events)
  }

  lemma {:induction false} DisjointIsDistinct(key: KeyFunction, gs: seq<Group>)
    requires PairwiseDisjoint(key, gs) && forall k :: 0 <= k < |gs| ==> gs[k].events != []
    ensures forall g :: multiset(gs)[g] <= 1
  {
    forall k, l | 0 <= k < l < |gs| ensures gs[k] != gs[l] {
      KeyIsIn(key, gs[k].events, 0);
    }
    DistinctIsMultiplicityFree(gs);
  }

  lemma {:induction false} PermutationStaysDisjoint(key: KeyFunction, a: seq<Group>, b: seq<Group>)
    requires multiset(a) == multiset(b) && PairwiseDisjoint(key, a)
    requires forall k :: 0 <= k < |a| ==> a[k].events != []
    ensures PairwiseDisjoint(key, b)
  {
    DisjointIsDistinct(key, a);
    forall k, l | 0 <= k < l < |b| ensures KeysOf(key, b[k].events) !! KeysOf(key, b[l].events) {
      TwiceMeansTwo(b, k, l);
      assert b[k] in multiset(a) && b[l] in multiset(a);
      var i :| 0 <= i < |a| && a[i] == b[k];
      var j :| 0 <= j < |a| && a[j] == b[l];
      assert i != j;
      if i < j {
        assert KeysOf(key, a[i].events) !! KeysOf(key, a[j].events);
      } else {
        assert KeysOf(key, a[j].events) !! KeysOf(key, a[i].events);
      }
    }
  }

  // ---------------------------------------------------------------- survivors

  /** What every reported group satisfies. */
  ghost predicate GoodGroup(input: Input, g: Group) {
    && |g.events| >= 2 && DistinctKeys(Key, g.events)
    && Bounds(g.severity, g.events) && AllFromInput(input, g.events, g.scope)
  }

  lemma {:induction false} KeptStaysSound(input: Input, g: Group, claimed: set<string>)
    requires SoundGroup(input, g)
    ensures var kept := Kept(Key, g.events, claimed);
            Bounds(g.severity, kept) && AllFromInput(input, kept, g.scope)
  {
    var kept := Kept(Key, g.events, claimed);
    KeptAreOriginal(Key, g.events, claimed);
    forall i | 0 <= i < |kept|
      ensures Priority(kept[i].issue.severity) <= Priority(g.severity)
      ensures FromInput(input, kept[i]) && Scope(kept[i]) == g.scope
    {
      var j :| 0 <= j < |g.events| && g.events[j] == kept[i];
    }
  }

  lemma {:induction false} SurvivorIsGood(input: Input, gs: seq<Group>, k: nat)
    requires AllSound(input, gs) && k < |Survivors(Key, gs, |gs|)|
    ensures GoodGroup(input, Survivors(Key, gs, |gs|)[k])
  {
    SurvivorsAreDistinct(Key, gs, k);
    var i := SurvivorHasOrigin(Key, gs, |gs|, k);
    assert SoundGroup(input, gs[i]);
    KeptStaysSound(input, gs[i], Claimed(Key, gs, i));
  }

  lemma {:induction false} PermutationStaysSound(input: Input, a: seq<Group>, b: seq<Group>)
    requires multiset(a) == multiset(b) && AllSound(input, a)
    ensures AllSound(input, b)
  {
    forall i | 0 <= i < |b| ensures SoundGroup(input, b[i]) {
      assert b[i] in multiset(a);
      var j :| 0 <= j < |a| && a[j] == b[i];
    }
  }

  // Distinct keys of a scope that ended up in no group.
  ghost function LeftOver(flat: seq<Event>, scope: string, correlated: set<string>): set<string> {
    KeysOf(Key, InScope(flat, scope)) - correlated
  }

  lemma {:induction false} ScopeKeysAreOrderFree(input: Input, a: seq<Event>, b: seq<Event>, scope: string)
    requires SeenAs(input, a) && SeenAs(input, b)
    ensures KeysOf(Key, InScope(a, scope)) <= KeysOf(Key, InScope(b, scope))
  {
    var es, fs := InScope(a, scope), InScope(b, scope);
    forall i | 0 <= i < |es| ensures es[i] in fs {
      InScopeMembers(a, scope, es[i]);
      SeenIsInput(input, a, es[i]);
      SeenIsInput(input, b, es[i]);
      InScopeMembers(b, scope, es[i]);
    }
    KeysOfSome(Key, es, fs);
  }

  // The temporal group of a scope leaves at most one key of it unclaimed.
  lemma {:induction false} ScopeLeavesAtMostOne(all: seq<Group>, gs: seq<Group>, es: seq<Event>)
    requires multiset(gs) == multiset(all)
    requires |es| < 2 || exists i :: 0 <= i < |all| && all[i].events == es
    ensures |KeysOf(Key, es) - Claimed(Key, gs, |gs|)| <= 1
  {
    if |es| < 2 {
      FewerKeysThanEvents(Key, es);
      SubsetSize(KeysOf(Key, es) - Claimed(Key, gs, |gs|), KeysOf(Key, es));
    } else {
      var i :| 0 <= i < |all| && all[i].events == es;
      assert all[i] in multiset(gs);
      var j :| 0 <= j < |gs| && gs[j] == all[i];
      AtMostOneKeyLeftOut(Key, gs, j);
    }
  }

  lemma {:induction false} LeftOverIsAtMostOne(input: Input, flat: seq<Event>, seen: seq<Event>, scope: string,
                                               temporal: seq<Group>, all: seq<Group>, gs: seq<Group>)
    requires SeenAs(input, flat) && SeenAs(input, seen)
    requires Temporal.OnePerScope(temporal, seen)
    requires forall i :: 0 <= i < |temporal| ==> temporal[i] in all
    requires multiset(gs) == multiset(all)
    ensures |LeftOver(flat, scope, Claimed(Key, gs, |gs|))| <= 1
  {
    var es := InScope(seen, scope);
    if |es| >= 2 {
      var i :| 0 <= i < |temporal| && temporal[i].scope == scope;
      assert temporal[i] in all;
      var j :| 0 <= j < |all| && all[j] == temporal[i];
      assert all[j].events == es;
    }
    ScopeLeavesAtMostOne(all, gs, es);
    ScopeKeysAreOrderFree(input, flat, seen, scope);
    SubsetSize(LeftOver(flat, scope, Claimed(Key, gs, |gs|)), KeysOf(Key, es) - Claimed(Key, gs, |gs|));
  }

  lemma {:induction false} CorrelatedComeFromInput(input: Input, flat: seq<Event>, gs: seq<Group>)
    requires SeenAs(input, flat) && AllGood(input, gs)
    ensures GroupKeys(Key, gs) <= KeysOf(Key, flat)
  {
    forall k | k in GroupKeys(Key, gs) ensures k in KeysOf(Key, flat) {
      GroupKeysMember(Key, gs, k);
      var i :| 0 <= i < |gs| && k in KeysOf(Key, gs[i].events);
      assert GoodGroup(input, gs[i]);
      var es := gs[i].events;
      forall j | 0 <= j < |es| ensures es[j] in flat {
        SeenIsInput(input, flat, es[j]);
      }
      KeysOfSome(Key, es, flat);
    }
  }

  lemma {:induction false} CountIsInRange(input: Input, flat: seq<Event>, gs: seq<Group>)
    requires SeenAs(input, flat) && AllGood(input, gs)
    ensures |GroupKeys(Key, gs)| <= |flat|
  {
    CorrelatedComeFromInput(input, flat, gs);
    SubsetSize(GroupKeys(Key, gs), KeysOf(Key, flat));
    FewerKeysThanEvents(Key, flat);
  }

  // ------------------------------------------------------------------- analysis

  /** What the analysis promises about the events of its input, listed in any order. */
  ghost predicate Analysis(input: Input, flat: seq<Event>, ctx: Context) {
    && AllGood(input, ctx.groups)
    && PairwiseDisjoint(Key, ctx.groups)
    && Sorted(ctx.groups, RanksBefore) && InReportOrder(ctx.groups)
    && ctx.totalIssues == |flat|
    && ctx.uncorrelatedCount == ctx.totalIssues - |GroupKeys(Key, ctx.groups)|
    && 0 <= ctx.uncorrelatedCount <= ctx.totalIssues
    && (forall s :: |LeftOver(flat, s, GroupKeys(Key, ctx.groups))| <= 1)
  }

  ghost predicate AllGood(input: Input, gs: seq<Group>) {
    forall k :: 0 <= k < |gs| ==> GoodGroup(input, gs[k])
  }

  lemma {:induction false} SurvivorsAreFine(input: Input, gs: seq<Group>)
    requires AllSound(input, gs)
    ensures AllGood(input, Survivors(Key, gs, |gs|)) && PairwiseDisjoint(Key, Survivors(Key, gs, |gs|))
  {
    var r := Survivors(Key, gs, |gs|);
    forall k | 0 <= k < |r| ensures GoodGroup(input, r[k]) {
      SurvivorIsGood(input, gs, k);
    }
    forall k, l | 0 <= k < l < |r| ensures KeysOf(Key, r[k].events) !! KeysOf(Key, r[l].events) {
      SurvivorsAreDisjoint(Key, gs, k, l);
    }
  }

  lemma {:induction false} PermutationStaysFine(input: Input, a: seq<Group>, b: seq<Group>)
    requires multiset(a) == multiset(b) && AllGood(input, a) && PairwiseDisjoint(Key, a)
    ensures AllGood(input, b) && PairwiseDisjoint(Key, b) && GroupKeys(Key, a) == GroupKeys(Key, b)
  {
    forall k | 0 <= k < |a| ensures a[k].events != [] {
      assert GoodGroup(input, a[k]);
    }
    PermutationStaysDisjoint(Key, a, b);
    GroupKeysInclude(Key, a, b);
    GroupKeysInclude(Key, b, a);
    forall k | 0 <= k < |b| ensures GoodGroup(input, b[k]) {
      assert b[k] in multiset(a);
      var i :| 0 <= i < |a| && a[i] == b[k];
    }
  }

  ghost predicate LittleIsLeft(input: Input, gs: seq<Group>) {
    forall flat, s :: SeenAs(input, flat) ==> |LeftOver(flat, s, Claimed(Key, gs, |gs|))| <= 1
  }

  method Finish(input: Input, total: nat, all: seq<Group>, ghost gs: seq<Group>) returns (ctx: Context)
    requires forall flat :: SeenAs(input, flat) ==> total == |flat|
    requires gs == Sort(all, MoreConfident) && AllSound(input, gs) && LittleIsLeft(input, gs)
    ensures forall flat :: SeenAs(input, flat) ==> Analysis(input, flat, ctx)
    ensures multiset(ctx.groups) == multiset(Survivors(Key, gs, |gs|))
  {
    var survivors := DeduplicateGroups(Key, all);
    var correlated := CorrelatedKeys(survivors);
    var sorted := SortGroups(survivors);
    ClaimedAreSurvivors(Key, gs, |gs|);
    SurvivorsAreFine(input, gs);
    PermutationStaysFine(input, survivors, sorted);
    RankedIsInReportOrder(sorted);
    ctx := Context(sorted, total - |correlated|, total);
    forall flat | SeenAs(input, flat) ensures Analysis(input, flat, ctx) {
      CountIsInRange(input, flat, survivors);
    }
  }

  lemma NothingToAnalyze(input: Input, flat: seq<Event>)
    requires flat == []
    ensures Analysis(input, flat, Context([], 0, 0))
  {
  }

  // The groups of all strategies.
  method RunStrategies(input: Input, window: int) returns (all: seq<Group>)
    ensures AllSound(input, all)
    ensures LittleIsLeft(input, Sort(all, MoreConfident))
    ensures AllStrategies(input, all)
  {
    var ruled := RunRules(input);
    var chained := Graph.Correlate(input);
    var timed := Temporal.Correlate(input, window);
    all := ruled + chained + timed;
    AllAreSound(input, ruled, chained, timed);
    StrategiesLeaveLittle(input, ruled + chained, timed);
    ThreeStrategies(input, ruled, chained, timed);
  }

  method RunRules(input: Input) returns (ruled: seq<Group>)
    ensures AllSound(input, ruled) && FromRules(input, Rules.DefaultRules(), ruled)
  {
    ruled := Rules.Apply(Rules.DefaultRules(), input);
  }

  lemma AllAreSound(input: Input, ruled: seq<Group>, chained: seq<Group>, timed: seq<Group>)
    requires AllSound(input, ruled) && AllSound(input, chained) && AllSound(input, timed)
    ensures AllSound(input, ruled + chained + timed)
  {
  }

  lemma ThreeStrategies(input: Input, ruled: seq<Group>, chained: seq<Group>, timed: seq<Group>)
    requires FromAll(input, Rules.DefaultRules(), ruled, chained, timed)
    ensures AllStrategies(input, ruled + chained + timed)
  {
  }

  ghost predicate AllStrategies(input: Input, all: seq<Group>) {
    exists ruled, chained, timed :: all == ruled + chained + timed && FromAll(input, Rules.DefaultRules(), ruled, chained, timed)
  }

  lemma {:induction false} AllStrategiesAreKept(input: Input, all: seq<Group>, reported: seq<Group>)
    requires AllStrategies(input, all)
    requires var gs := Sort(all, MoreConfident); multiset(reported) == multiset(Survivors(Key, gs, |gs|))
    ensures KeepsPromises(input, Rules.DefaultRules(), reported)
  {
    var rules := Rules.DefaultRules();
    var ruled, chained, timed :| all == ruled + chained + timed && FromAll(input, rules, ruled, chained, timed);
    assert AllRequireTags(rules);
    StrategiesAreKept(input, rules, ruled, chained, timed, reported);
  }

  lemma {:induction false} StrategiesLeaveLittle(input: Input, others: seq<Group>, timed: seq<Group>)
    requires FromTime(input, timed)
    ensures LittleIsLeft(input, Sort(others + timed, MoreConfident))
  {
    var seen :| SeenAs(input, seen) && Temporal.OnePerScope(timed, seen);
    var all := others + timed;
    var gs := Sort(all, MoreConfident);
    forall i | 0 <= i < |timed| ensures timed[i] in all {
      assert all[|others| + i] == timed[i];
    }
    SortPermutes(all, MoreConfident);
    forall flat, s | SeenAs(input, flat) ensures |LeftOver(flat, s, Claimed(Key, gs, |gs|))| <= 1 {
      LeftOverIsAtMostOne(input, flat, seen, s, timed, all, gs);
    }
  }

  /** Reported groups have at least two distinct issues of error-free results, share no
      issue, and carry a severity that bounds them; the uncorrelated count is between zero
      and the total; and in every namespace at most one distinct issue is left ungrouped.
      Whatever a built-in rule matches where it applies, whatever makes up an ownership star,
      and whatever shares a namespace is reported with at least that confidence, but for one
      distinct issue each; and every reported group is part of such a finding. */
  method Analyze(input: Input, window: int) returns (ctx: Context)
    ensures forall flat :: SeenAs(input, flat) ==> Analysis(input, flat, ctx)
    ensures KeepsPromises(input, Rules.DefaultRules(), ctx.groups)
  {
    var total := CountIssues(input);
    if total == 0 {
      forall flat | SeenAs(input, flat) ensures Analysis(input, flat, Context([], 0, 0)) {
        NothingToAnalyze(input, flat);
      }
      NothingIsKept(input, Rules.DefaultRules());
      return Context([], 0, 0);
    }
    var all := RunStrategies(input, window);
    ghost var gs := Sort(all, MoreConfident);
    SortPermutes(all, MoreConfident);
    PermutationStaysSound(input, all, gs);
    ctx := Finish(input, total, all, gs);
    AllStrategiesAreKept(input, all, ctx.groups);
  }
}
