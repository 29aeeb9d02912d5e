/** Issues of one namespace within a time window. */
module TemporalCorrelator {
  import opened CausalTypes
  import opened Timeline
  import opened StableSort

  const DEFAULT_TIME_WINDOW := 120_000_000_000 // nanoseconds

  function EffectiveWindow(window: int): (r: int)
    ensures r > 0
  {
    if window <= 0 then DEFAULT_TIME_WINDOW else window
  }

  function Confidence(es: seq<Event>): real {
    0.5
    + (if exists i :: 0 <= i < |es| && es[i].checker != es[0].checker then 0.2 else 0.0)
    + (if |es| >= 4 then 0.1 else 0.0)
  }

  predicate SameTime(es: seq<Event>) {
    forall i :: 0 <= i < |es| ==> es[i].timestamp == es[0].timestamp
  }

  predicate Earlier(a: Event, b: Event) {
    a.timestamp < b.timestamp
  }

  lemma {:induction false} SortOfSameTime(es: seq<Event>)
    requires SameTime(es)
    ensures Sort(es, Earlier) == es
  {
    if es != [] {
      SortOfSameTime(es[..|es| - 1]);
    }
  }

  // One window opened at event i: takes every later event not yet used and in reach.
  method Collect(es: seq<Event>, used: seq<bool>, i: nat, window: int)
    returns (group: seq<Event>, after: seq<bool>)
    requires |used| == |es| && i < |es| && window > 0
    ensures |after| == |es| && |group| >= 1
    ensures after[i] && forall j :: 0 <= j < |es| && used[j] ==> after[j]
    ensures SameTime(es) && i == 0 && (forall j :: 0 <= j < |es| ==> !used[j]) ==>
              group == es && forall j :: 0 <= j < |es| ==> after[j]
  {
    group, after := [es[i]], used[i := true];
    ghost var whole := SameTime(es) && i == 0 && (forall j :: 0 <= j < |es| ==> !used[j]);
    for j := i + 1 to |es|
      invariant |after| == |es| && |group| >= 1 && after[i]
      invariant forall k :: 0 <= k < |es| && used[k] ==> after[k]
      invariant whole ==> group == es[..j] && forall k :: 0 <= k < |es| ==> (after[k] <==> k < j)
    {
      if !after[j] && es[j].timestamp - es[i].timestamp <= window {
        group := group + [es[j]];
        after := after[j := true];
      }
    }
    assert es[..|es|] == es;
  }

  /** The sliding window; on events with one timestamp it yields one group with all. */
  method SlidingWindow(es: seq<Event>, window: int) returns (groups: seq<seq<Event>>)
    requires window > 0
    ensures SameTime(es) ==> groups == if |es| >= 2 then [es] else []
  {
    groups := [];
    var used := seq(|es|, _ => false);
    for i := 0 to |es|
      invariant |used| == |es|
      invariant SameTime(es) && i == 0 ==> groups == [] && forall k :: 0 <= k < |es| ==> !used[k]
      invariant SameTime(es) && i > 0 ==>
                  groups == (if |es| >= 2 then [es] else []) && forall k :: 0 <= k < |es| ==> used[k]
    {
      if !used[i] {
        var group, after := Collect(es, used, i, window);
        used := after;
        if |group| >= 2 {
          groups := groups + [group];
        }
      }
    }
  }

  // The one temporal group of a scope.
  predicate TemporalGroup(g: Group, flat: seq<Event>) {
    && g.rule == "temporal" && g.events == InScope(flat, g.scope) && |g.events| >= 2
    && Highest(g.severity, g.events) && g.confidence == Confidence(g.events)
  }

  ghost predicate TemporalGroups(gs: seq<Group>, flat: seq<Event>, scopes: seq<string>) {
    && (forall i :: 0 <= i < |gs| ==> TemporalGroup(gs[i], flat) && gs[i].scope in scopes)
    && (forall i, j :: 0 <= i < j < |gs| ==> gs[i].scope != gs[j].scope)
    && (forall s :: s in scopes && |InScope(flat, s)| >= 2 ==> exists i :: 0 <= i < |gs| && gs[i].scope == s)
  }

  method BuildGroup(scope: string, es: seq<Event>) returns (g: Group)
    ensures g.rule == "temporal" && g.scope == scope && g.events == es
    ensures Highest(g.severity, es) && g.confidence == Confidence(es)
  {
    var severity := HighestSeverity(es);
    g := Group("temporal", scope, severity, es, Confidence(es));
  }

  lemma AddTemporalGroup(gs: seq<Group>, g: Group, flat: seq<Event>, scopes: seq<string>)
    requires TemporalGroups(gs, flat, scopes) && TemporalGroup(g, flat) && g.scope !in scopes
    ensures TemporalGroups(gs + [g], flat, scopes + [g.scope])
  {
    var hs, ts := gs + [g], scopes + [g.scope];
    forall s | s in ts && |InScope(flat, s)| >= 2 ensures exists i :: 0 <= i < |hs| && hs[i].scope == s {
      if s in scopes {
        var i :| 0 <= i < |gs| && gs[i].scope == s;
        assert hs[i].scope == s;
      } else {
        assert hs[|gs|].scope == s;
      }
    }
  }

  lemma SkipSmallScope(gs: seq<Group>, flat: seq<Event>, scopes: seq<string>, s: string)
    requires TemporalGroups(gs, flat, scopes) && |InScope(flat, s)| < 2
    ensures TemporalGroups(gs, flat, scopes + [s])
  {
  }

  lemma {:induction false} FlatIsSameTime(input: Input, flat: seq<Event>, scope: string)
    requires SeenAs(input, flat)
    ensures SameTime(InScope(flat, scope))
  {
    ScopeIsSound(input, flat, scope);
    var es := InScope(flat, scope);
    assert forall i :: 0 <= i < |es| ==> FromInput(input, es[i]);
  }

  method CorrelateScope(scope: string, es: seq<Event>, window: int) returns (groups: seq<Group>)
    requires window > 0 && SameTime(es)
    ensures |es| < 2 ==> groups == []
    ensures |es| >= 2 ==>
              && |groups| == 1 && groups[0].rule == "temporal" && groups[0].scope == scope
              && groups[0].events == es && Highest(groups[0].severity, es)
              && groups[0].confidence == Confidence(es)
  {
    groups := [];
    if |es| < 2 {
      return;
    }
    SortOfSameTime(es);
    var windows := SlidingWindow(Sort(es, Earlier), window);
    for i := 0 to |windows|
      invariant i == 0 ==> groups == []
      invariant i > 0 ==>
                  && |groups| == 1 && groups[0].rule == "temporal" && groups[0].scope == scope
                  && groups[0].events == es && Highest(groups[0].severity, es)
                  && groups[0].confidence == Confidence(es)
    {
      var g := BuildGroup(scope, windows[i]);
      groups := groups + [g];
    }
  }

  lemma {:induction false} TemporalGroupIsSound(input: Input, flat: seq<Event>, g: Group)
    requires SeenAs(input, flat) && TemporalGroup(g, flat)
    ensures SoundGroup(input, g)
  {
    ScopeIsSound(input, flat, g.scope);
  }

  // One group for each scope of the list that has at least two events.
  method CorrelateScopes(byScope: map<string, seq<Event>>, scopes: seq<string>, window: int, ghost flat: seq<Event>)
    returns (groups: seq<Group>)
    requires window > 0 && ByScope(byScope, flat) && IsOrder(scopes, byScope.Keys)
    requires forall s :: SameTime(InScope(flat, s))
    ensures TemporalGroups(groups, flat, scopes)
  {
    groups := [];
    for i := 0 to |scopes|
      invariant TemporalGroups(groups, flat, scopes[..i])
    {
      var s := scopes[i];
      assert s in byScope;
      var more := CorrelateScope(s, byScope[s], window);
      assert scopes[..i + 1] == scopes[..i] + [s];
      if more == [] {
        SkipSmallScope(groups, flat, scopes[..i], s);
        assert groups + more == groups;
      } else {
        assert more == [more[0]];
        AddTemporalGroup(groups, more[0], flat, scopes[..i]);
      }
      groups := groups + more;
    }
    assert scopes[..|scopes|] == scopes;
  }

  ghost predicate OnePerScope(gs: seq<Group>, flat: seq<Event>) {
    && (forall i :: 0 <= i < |gs| ==> TemporalGroup(gs[i], flat))
    && (forall i, j :: 0 <= i < j < |gs| ==> gs[i].scope != gs[j].scope)
    && (forall s :: |InScope(flat, s)| >= 2 ==> exists i :: 0 <= i < |gs| && gs[i].scope == s)
  }

  /** Exactly one group per scope with at least two events, holding all of them. */
  method Correlate(input: Input, window: int) returns (groups: seq<Group>)
    ensures AllSound(input, groups)
    ensures exists flat :: SeenAs(input, flat) && OnePerScope(groups, flat)
  {
    var events := FlattenEvents(input);
    var byScope := GroupByScope(events);
    var scopes := RangeOrder(byScope.Keys);
    forall s ensures SameTime(InScope(events, s)) {
      FlatIsSameTime(input, events, s);
    }
    groups := CorrelateScopes(byScope, scopes, EffectiveWindow(window), events);
    forall i | 0 <= i < |groups| ensures SoundGroup(input, groups[i]) {
      TemporalGroupIsSound(input, events, groups[i]);
    }
  }
}
