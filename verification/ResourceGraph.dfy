/** Issues whose resources belong to one ownership chain, by kind and name prefix. */
module ResourceGraph {
  import opened CausalTypes
  import opened Timeline
  import opened StableSort

  datatype Ref = Ref(kind: string, name: string)

  function Lower(c: char): char {
    if 'A' <= c <= 'Z' then c - 'A' + 'a' else c
  }

  function ToLower(s: string): string {
    seq(|s|, i requires 0 <= i < |s| => Lower(s[i]))
  }

  // Position of the first slash, or the length.
  function FirstSlash(s: string): (n: nat)
    ensures n <= |s| && '/' !in s[..n] && (n < |s| ==> s[n] == '/')
  {
    if s == "" || s[0] == '/' then 0
    else
      var n := FirstSlash(s[1..]);
      assert s[..n + 1] == [s[0]] + s[1..][..n];
      n + 1
  }

  function ParseResource(resource: string): Ref {
    var n := FirstSlash(resource);
    if n < |resource| then Ref(ToLower(resource[..n]), resource[n + 1..]) else Ref("", resource)
  }

  function Level(kind: string): nat {
    if kind == "deployment" || kind == "statefulset" || kind == "daemonset" then 3
    else if kind == "replicaset" then 2
    else if kind == "pod" then 1
    else 0
  }

  predicate Owns(a: string, b: string) {
    a + "-" <= b || b == a
  }

  predicate RelatedByOwnership(a: Ref, b: Ref) {
    if a == b || Level(a.kind) == 0 || Level(b.kind) == 0 then false
    else if Level(a.kind) > Level(b.kind) then Owns(a.name, b.name)
    else if Level(b.kind) > Level(a.kind) then Owns(b.name, a.name)
    else false
  }

  lemma RelatedIsSymmetric(a: Ref, b: Ref)
    ensures RelatedByOwnership(a, b) <==> RelatedByOwnership(b, a)
    ensures !RelatedByOwnership(a, a)
  {
  }

  predicate Controller(kind: string) {
    kind == "deployment" || kind == "statefulset" || kind == "daemonset"
  }

  // What a resource of one kind can own, by kind.
  predicate Above(owner: string, owned: string) {
    || (Controller(owner) && (owned == "replicaset" || owned == "pod"))
    || (owner == "replicaset" && owned == "pod")
  }

  predicate MadeBy(owned: Ref, owner: Ref) {
    Above(owner.kind, owned.kind) && (owned.name == owner.name || owner.name + "-" <= owned.name)
  }

  /** In words: one was made by the other, a replica set by a controller or a pod by either,
      its name being the owner's or starting with it and a dash. */
  lemma RelatedIffOneMadeTheOther(a: Ref, b: Ref)
    ensures RelatedByOwnership(a, b) <==> MadeBy(a, b) || MadeBy(b, a)
  {
  }

  /** The kind is what stands before the first slash, in any case of letters. */
  lemma ParsedParts(kind: string, name: string)
    requires '/' !in kind
    ensures ParseResource(kind + "/" + name) == Ref(ToLower(kind), name)
  {
    var s := kind + "/" + name;
    var n := FirstSlash(s);
    assert s[|kind|] == '/';
    SlashIsThere(s, |kind|);
    assert s[..|kind|] == kind && s[|kind| + 1..] == name;
  }

  lemma SlashIsThere(s: string, i: nat)
    requires i < |s| && s[i] == '/' && '/' !in s[..i]
    ensures FirstSlash(s) == i
  {
    var n := FirstSlash(s);
    assert forall k :: 0 <= k < i ==> s[..i][k] != '/';
    assert forall k :: 0 <= k < n ==> s[..n][k] != '/';
  }

  // ---------------------------------------------------------------------- stars
  // The scan only needs a symmetric, irreflexive relation on positions.

  type Relation = (nat, nat) -> bool

  ghost predicate Symmetric(related: Relation, n: nat) {
    && (forall i, j :: 0 <= i < n && 0 <= j < n && related(i, j) ==> related(j, i))
    && (forall i :: 0 <= i < n ==> !related(i, i))
  }

  predicate Increasing(c: seq<nat>, n: nat) {
    && (forall k :: 0 <= k < |c| ==> c[k] < n)
    && (forall k, l :: 0 <= k < l < |c| ==> c[k] < c[l])
  }

  // A star: every other member is related to the first, which is also the smallest.
  predicate Star(related: Relation, c: seq<nat>, n: nat) {
    |c| >= 2 && Increasing(c, n) && forall k :: 1 <= k < |c| ==> related(c[0], c[k])
  }

  predicate Covered(chains: seq<seq<nat>>, i: nat) {
    exists m :: 0 <= m < |chains| && i in chains[m]
  }

  /** Disjoint stars that leave no related pair untouched. */
  ghost predicate Stars(related: Relation, chains: seq<seq<nat>>, n: nat) {
    && (forall m :: 0 <= m < |chains| ==> Star(related, chains[m], n))
    && (forall m, k, i :: 0 <= m < k < |chains| && i in chains[m] ==> i !in chains[k])
    && (forall i, j :: 0 <= i < n && 0 <= j < n && related(i, j) ==> Covered(chains, i) || Covered(chains, j))
  }

  // A position passed over as a single never relates to another unused one.
  ghost predicate SinglesAreUnrelated(related: Relation, used: seq<bool>, upTo: nat) {
    forall i, j :: 0 <= i < upTo && i < |used| && 0 <= j < |used| && !used[i] && !used[j] ==> !related(i, j)
  }

  method PickRelated(related: Relation, used: seq<bool>, i: nat) returns (chain: seq<nat>, after: seq<bool>)
    requires i < |used| && !used[i] && Symmetric(related, |used|) && SinglesAreUnrelated(related, used, i)
    ensures |after| == |used| && |chain| >= 1 && chain[0] == i && Increasing(chain, |used|)
    ensures forall k :: 1 <= k < |chain| ==> related(i, chain[k])
    ensures forall j :: 0 <= j < |used| ==> (after[j] <==> used[j] || j in chain)
    ensures forall j :: 0 <= j < |used| && j in chain ==> !used[j]
    ensures forall j :: 0 <= j < |used| && related(i, j) ==> after[j]
  {
    chain, after := [i], used[i := true];
    for j := 0 to |used|
      invariant |after| == |used| && |chain| >= 1 && chain[0] == i && Increasing(chain, |used|)
      invariant forall k :: 0 <= k < |chain| ==> chain[k] <= i || chain[k] < j
      invariant forall k :: 1 <= k < |chain| ==> related(i, chain[k])
      invariant forall l :: 0 <= l < |used| ==> (after[l] <==> used[l] || l in chain)
      invariant forall l :: 0 <= l < |used| && l in chain ==> !used[l]
      invariant forall l :: 0 <= l < j && related(i, l) ==> after[l]
    {
      if i != j && !after[j] && related(i, j) {
        // j > i: a released single j would be related to i, which was unused then too.
        chain := chain + [j];
        after := after[j := true];
      }
    }
  }

  ghost predicate Partial(related: Relation, chains: seq<seq<nat>>, used: seq<bool>) {
    && (forall m :: 0 <= m < |chains| ==> Star(related, chains[m], |used|))
    && (forall m, k, i :: 0 <= m < k < |chains| && i in chains[m] ==> i !in chains[k])
    && (forall i :: 0 <= i < |used| ==> (used[i] <==> Covered(chains, i)))
  }

  lemma AddStar(related: Relation, chains: seq<seq<nat>>, used: seq<bool>, chain: seq<nat>, after: seq<bool>)
    requires Partial(related, chains, used) && |after| == |used| && Star(related, chain, |used|)
    requires forall j :: 0 <= j < |used| ==> (after[j] <==> used[j] || j in chain)
    requires forall j :: 0 <= j < |used| && j in chain ==> !used[j]
    ensures Partial(related, chains + [chain], after)
  {
    var all := chains + [chain];
    forall i | 0 <= i < |used| ensures after[i] <==> Covered(all, i) {
      if Covered(chains, i) {
        var m :| 0 <= m < |chains| && i in chains[m];
        assert i in all[m];
      }
      if i in chain {
        assert i in all[|chains|];
      }
    }
    forall m, i | 0 <= m < |chains| && i in chains[m] ensures i !in chain {
      if i in chain {
        assert i < |used| && Covered(chains, i);
      }
    }
  }

  method FindStars(related: Relation, n: nat) returns (chains: seq<seq<nat>>)
    requires Symmetric(related, n)
    ensures Stars(related, chains, n)
  {
    chains := [];
    var used := seq(n, _ => false);
    for i := 0 to n
      invariant |used| == n && Partial(related, chains, used)
      invariant SinglesAreUnrelated(related, used, i)
    {
      if !used[i] {
        var chain, after := PickRelated(related, used, i);
        if |chain| < 2 {
          assert chain == [i];
          ghost var before := used;
          used := after[i := false];
          assert used == before;
        } else {
          AddStar(related, chains, used, chain, after);
          chains, used := chains + [chain], after;
        }
      }
    }
  }

  // --------------------------------------------------------------------- groups

  function RelationOf(es: seq<Event>): Relation {
    (i: nat, j: nat) =>
      && i < |es| && j < |es|
      && RelatedByOwnership(ParseResource(es[i].issue.resource), ParseResource(es[j].issue.resource))
  }

  lemma RelationIsSymmetric(es: seq<Event>)
    ensures Symmetric(RelationOf(es), |es|)
  {
    forall i, j | 0 <= i < |es| && 0 <= j < |es| && RelationOf(es)(i, j) ensures RelationOf(es)(j, i) {
      RelatedIsSymmetric(ParseResource(es[i].issue.resource), ParseResource(es[j].issue.resource));
    }
  }

  function EventsAt(es: seq<Event>, c: seq<nat>): (r: seq<Event>)
    requires Increasing(c, |es|)
    ensures |r| == |c|
  {
    seq(|c|, k requires 0 <= k < |c| => es[c[k]])
  }

  function Confidence(es: seq<Event>): real {
    if |es| >= 3 then 0.9 else if |es| == 2 then 0.7 else 0.5
  }

  predicate ByResource(a: Event, b: Event) {
    StringLess(a.issue.resource, b.issue.resource)
  }

  lemma ByResourceIsRankLike()
    ensures RankLike(ByResource)
  {
    StringLessIsRankLike();
    assert forall a: Event, b: Event :: ByResource(a, b) ==> !StringLess(b.issue.resource, a.issue.resource);
    forall a: Event, b: Event, c: Event | !ByResource(a, b) && !ByResource(b, c) ensures !ByResource(a, c) {
      StringLessCotransitive(a.issue.resource, b.issue.resource, c.issue.resource);
    }
  }

  // The group made of some events of a scope, listed by resource.
  ghost predicate GraphGroup(g: Group, scope: string, es: seq<Event>) {
    && g.rule == "resource-graph" && g.scope == scope
    && multiset(g.events) == multiset(es) && Sorted(g.events, ByResource)
    && Highest(g.severity, g.events) && g.confidence == Confidence(es)
  }

  lemma HighestOfPermutation(severity: string, a: seq<Event>, b: seq<Event>)
    requires multiset(a) == multiset(b) && Highest(severity, a)
    ensures Highest(severity, b)
  {
    forall i | 0 <= i < |b| ensures Priority(b[i].issue.severity) <= Priority(severity) {
      assert b[i] in multiset(b);
      assert b[i] in a;
    }
    if severity != "" {
      var i :| 0 <= i < |a| && a[i].issue.severity == severity;
      assert a[i] in multiset(a);
      assert a[i] in b;
    }
  }

  method BuildGraphGroup(scope: string, es: seq<Event>) returns (g: Group)
    ensures GraphGroup(g, scope, es)
  {
    var severity := HighestSeverity(es);
    var sorted := Sort(es, ByResource);
    ByResourceIsRankLike();
    SortPermutes(es, ByResource);
    SortSorts(es, ByResource);
    HighestOfPermutation(severity, es, sorted);
    g := Group("resource-graph", scope, severity, sorted, Confidence(sorted));
  }

  // One group per star of a scope.
  ghost predicate StarGroups(gs: seq<Group>, scope: string, es: seq<Event>, chains: seq<seq<nat>>) {
    && Stars(RelationOf(es), chains, |es|) && |gs| == |chains|
    && forall m :: 0 <= m < |gs| ==> GraphGroup(gs[m], scope, EventsAt(es, chains[m]))
  }

  method BuildGroups(scope: string, es: seq<Event>, stars: seq<seq<nat>>) returns (groups: seq<Group>)
    requires forall m :: 0 <= m < |stars| ==> Increasing(stars[m], |es|)
    ensures |groups| == |stars|
    ensures forall m :: 0 <= m < |groups| ==> GraphGroup(groups[m], scope, EventsAt(es, stars[m]))
  {
    groups := [];
    for m := 0 to |stars|
      invariant |groups| == m
      invariant forall k :: 0 <= k < m ==> GraphGroup(groups[k], scope, EventsAt(es, stars[k]))
    {
      var g := BuildGraphGroup(scope, EventsAt(es, stars[m]));
      groups := groups + [g];
    }
  }

  lemma StarsAreIncreasing(related: Relation, chains: seq<seq<nat>>, n: nat)
    requires Stars(related, chains, n)
    ensures forall m :: 0 <= m < |chains| ==> Increasing(chains[m], n)
  {
    forall m | 0 <= m < |chains| ensures Increasing(chains[m], n) {
      assert Star(related, chains[m], n);
    }
  }

  ghost predicate HasStarGroups(gs: seq<Group>, scope: string, es: seq<Event>) {
    exists chains :: StarGroups(gs, scope, es, chains)
  }

  method CorrelateScope(scope: string, es: seq<Event>) returns (groups: seq<Group>)
    ensures HasStarGroups(groups, scope, es)
  {
    groups := [];
    if |es| < 2 {
      NoPairNoStar(es, scope);
      return;
    }
    RelationIsSymmetric(es);
    var related := RelationOf(es);
    var stars := FindStars(related, |es|);
    StarsAreIncreasing(related, stars, |es|);
    groups := BuildGroups(scope, es, stars);
    assert StarGroups(groups, scope, es, stars);
  }

  /** The groups of several scopes, one part for each. */
  ghost predicate GraphGroups(gs: seq<Group>, flat: seq<Event>, scopes: seq<string>, parts: seq<seq<Group>>) {
    && |parts| == |scopes| && gs == Joined(parts)
    && forall i :: 0 <= i < |scopes| ==> HasStarGroups(parts[i], scopes[i], InScope(flat, scopes[i]))
  }

  ghost predicate Different(names: seq<string>) {
    forall i, j :: 0 <= i < j < |names| ==> names[i] != names[j]
  }

  /** The groups are those of the stars of every scope with at least two events. */
  ghost predicate AllStars(gs: seq<Group>, flat: seq<Event>) {
    exists scopes, parts ::
      && GraphGroups(gs, flat, scopes, parts) && Different(scopes)
      && forall s :: s !in scopes ==> |InScope(flat, s)| < 2
  }

  function Joined(parts: seq<seq<Group>>): seq<Group> {
    if parts == [] then [] else Joined(parts[..|parts| - 1]) + parts[|parts| - 1]
  }

  lemma {:induction false} EventsAtAreSound(input: Input, scope: string, es: seq<Event>, c: seq<nat>, g: Group)
    requires AllFromInput(input, es, scope) && Increasing(c, |es|) && GraphGroup(g, scope, EventsAt(es, c))
    ensures SoundGroup(input, g)
  {
    forall i | 0 <= i < |g.events| ensures FromInput(input, g.events[i]) && Scope(g.events[i]) == g.scope {
      assert g.events[i] in multiset(g.events);
      assert g.events[i] in EventsAt(es, c);
      var k :| 0 <= k < |c| && EventsAt(es, c)[k] == g.events[i];
      assert g.events[i] == es[c[k]];
    }
  }

  lemma {:induction false} StarGroupsAreSound(input: Input, flat: seq<Event>, scope: string, gs: seq<Group>)
    requires SeenAs(input, flat) && HasStarGroups(gs, scope, InScope(flat, scope))
    ensures AllSound(input, gs)
  {
    var es := InScope(flat, scope);
    var chains :| StarGroups(gs, scope, es, chains);
    ScopeIsSound(input, flat, scope);
    StarsAreIncreasing(RelationOf(es), chains, |es|);
    forall m | 0 <= m < |gs| ensures SoundGroup(input, gs[m]) {
      EventsAtAreSound(input, scope, es, chains[m], gs[m]);
    }
  }

  lemma NoPairNoStar(es: seq<Event>, scope: string)
    requires |es| < 2
    ensures HasStarGroups([], scope, es)
  {
    assert StarGroups([], scope, es, []);
  }

  lemma AddPart(gs: seq<Group>, flat: seq<Event>, scopes: seq<string>, parts: seq<seq<Group>>, s: string, more: seq<Group>)
    requires GraphGroups(gs, flat, scopes, parts) && HasStarGroups(more, s, InScope(flat, s))
    ensures GraphGroups(gs + more, flat, scopes + [s], parts + [more])
  {
    assert (parts + [more])[..|parts|] == parts;
  }

  method CorrelateScopes(byScope: map<string, seq<Event>>, names: seq<string>, ghost flat: seq<Event>)
    returns (groups: seq<Group>)
    requires ByScope(byScope, flat) && IsOrder(names, byScope.Keys)
    ensures exists parts :: GraphGroups(groups, flat, names, parts)
  {
    groups := [];
    ghost var parts: seq<seq<Group>> := [];
    ghost var done: seq<string> := [];
    for i := 0 to |names|
      invariant done == names[..i] && GraphGroups(groups, flat, done, parts)
    {
      var s := names[i];
      assert s in byScope;
      var more := CorrelateScope(s, byScope[s]);
      AddPart(groups, flat, done, parts, s, more);
      groups, parts, done := groups + more, parts + [more], done + [s];
    }
    assert done == names;
  }

  lemma {:induction false} JoinedIsSound(input: Input, parts: seq<seq<Group>>)
    requires forall i :: 0 <= i < |parts| ==> AllSound(input, parts[i])
    ensures AllSound(input, Joined(parts))
  {
    if parts != [] {
      JoinedIsSound(input, parts[..|parts| - 1]);
    }
  }

  lemma {:induction false} GraphGroupsAreSound(input: Input, flat: seq<Event>, gs: seq<Group>, scopes: seq<string>,
                                               parts: seq<seq<Group>>)
    requires SeenAs(input, flat) && GraphGroups(gs, flat, scopes, parts)
    ensures AllSound(input, gs)
  {
    forall i | 0 <= i < |parts| ensures AllSound(input, parts[i]) {
      StarGroupsAreSound(input, flat, scopes[i], parts[i]);
    }
    JoinedIsSound(input, parts);
  }

  lemma TooFewForStars(flat: seq<Event>)
    requires |flat| < 2
    ensures AllStars([], flat)
  {
    assert GraphGroups([], flat, [], []);
    forall s ensures |InScope(flat, s)| < 2 {
      InScopeIsShorter(flat, s);
    }
  }

  /** In every scope: disjoint stars, each around its anchor, and of any two related issues
      at least one is in a group. */
  method Correlate(input: Input) returns (groups: seq<Group>)
    ensures AllSound(input, groups)
    ensures exists flat :: SeenAs(input, flat) && AllStars(groups, flat)
  {
    var events := FlattenEvents(input);
    groups := [];
    if |events| < 2 {
      TooFewForStars(events);
      return;
    }
    var byScope := GroupByScope(events);
    var names := RangeOrder(byScope.Keys);
    groups := CorrelateScopes(byScope, names, events);
    ghost var parts :| GraphGroups(groups, events, names, parts);
    GraphGroupsAreSound(input, events, groups, names, parts);
    assert AllStars(groups, events);
  }

  lemma {:induction false} InScopeIsShorter(es: seq<Event>, scope: string)
    ensures |InScope(es, scope)| <= |es|
  {
    if es != [] {
      InScopeIsShorter(es[..|es| - 1], scope);
    }
  }
}
