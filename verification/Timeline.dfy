/** The events of one health check, in whatever order Go's map iteration yields them. */
module Timeline {
  import opened CheckerTypes
  import opened CausalTypes

  // An order in which a range loop may visit the keys of a map.
  ghost predicate IsOrder(order: seq<string>, keys: set<string>) {
    && (forall i, j :: 0 <= i < j < |order| ==> order[i] != order[j])
    && (forall k :: k in order <==> k in keys)
  }

  method RangeOrder(keys: set<string>) returns (order: seq<string>)
    ensures IsOrder(order, keys)
  {
    order := [];
    var todo := keys;
    while todo != {}
      invariant todo <= keys && IsOrder(order, keys - todo)
      decreases todo
    {
      var k :| k in todo;
      order := order + [k];
      todo := todo - {k};
    }
  }

  function Wrap(input: Input, checker: string, issues: seq<Issue>): (r: seq<Event>)
    ensures |r| == |issues|
  {
    seq(|issues|, i requires 0 <= i < |issues| => Event(input.timestamp, checker, issues[i]))
  }

  // Nothing from a missing or failed check.
  function IssuesOf(result: Option<CheckResult>): seq<Issue> {
    if result.None? || result.value.error.Some? then [] else result.value.issues
  }

  function EventsOf(input: Input, checker: string): seq<Event> {
    if checker in input.results then Wrap(input, checker, IssuesOf(input.results[checker])) else []
  }

  function Flatten(input: Input, order: seq<string>): seq<Event> {
    if order == [] then []
    else Flatten(input, order[..|order| - 1]) + EventsOf(input, order[|order| - 1])
  }

  /** The event wraps an issue of an error-free result, at the time of the check. */
  predicate FromInput(input: Input, e: Event) {
    && e.timestamp == input.timestamp && e.checker in input.results && input.results[e.checker].Some?
    && var result := input.results[e.checker].value;
       result.error.None? && e.issue in result.issues
  }

  lemma EventsOfMembers(input: Input, checker: string, e: Event)
    ensures e in EventsOf(input, checker) <==> FromInput(input, e) && e.checker == checker
  {
    if FromInput(input, e) && e.checker == checker {
      var issues := IssuesOf(input.results[checker]);
      var i :| 0 <= i < |issues| && issues[i] == e.issue;
      assert EventsOf(input, checker)[i] == e;
    }
  }

  lemma {:induction false} FlattenMembers(input: Input, order: seq<string>, e: Event)
    ensures e in Flatten(input, order) <==> FromInput(input, e) && e.checker in order
  {
    if order != [] {
      FlattenMembers(input, order[..|order| - 1], e);
      EventsOfMembers(input, order[|order| - 1], e);
    }
  }

  /** Whatever the order, the same events are seen. */
  lemma {:induction false} FlattenIsInput(input: Input, order: seq<string>, e: Event)
    requires IsOrder(order, input.results.Keys)
    ensures e in Flatten(input, order) <==> FromInput(input, e)
  {
    FlattenMembers(input, order, e);
  }

  /** `flat` lists the events of the input in some map order. */
  ghost predicate SeenAs(input: Input, flat: seq<Event>) {
    exists order :: IsOrder(order, input.results.Keys) && flat == Flatten(input, order)
  }

  lemma SeenIsInput(input: Input, flat: seq<Event>, e: Event)
    requires SeenAs(input, flat)
    ensures e in flat <==> FromInput(input, e)
  {
    var order :| IsOrder(order, input.results.Keys) && flat == Flatten(input, order);
    FlattenIsInput(input, order, e);
  }

  method WrapAll(input: Input, checker: string, issues: seq<Issue>) returns (events: seq<Event>)
    ensures events == Wrap(input, checker, issues)
  {
    events := [];
    for j := 0 to |issues|
      invariant events == Wrap(input, checker, issues)[..j]
    {
      events := events + [Event(input.timestamp, checker, issues[j])];
    }
  }

  method FlattenEvents(input: Input) returns (events: seq<Event>)
    ensures SeenAs(input, events)
  {
    var names := RangeOrder(input.results.Keys);
    events := [];
    for i := 0 to |names|
      invariant events == Flatten(input, names[..i])
    {
      assert names[..i + 1][..i] == names[..i];
      assert names[i] in input.results;
      var more := WrapAll(input, names[i], IssuesOf(input.results[names[i]]));
      events := events + more;
    }
    assert names[..|names|] == names;
  }

  // -------------------------------------------------------------------- scopes

  function InScope(es: seq<Event>, scope: string): seq<Event> {
    if es == [] then []
    else InScope(es[..|es| - 1], scope) + if Scope(es[|es| - 1]) == scope then [es[|es| - 1]] else []
  }

  lemma {:induction false} InScopeMembers(es: seq<Event>, scope: string, e: Event)
    ensures e in InScope(es, scope) <==> e in es && Scope(e) == scope
  {
    if es != [] {
      InScopeMembers(es[..|es| - 1], scope, e);
    }
  }

  // The events of each scope that has any, in their given order.
  ghost predicate ByScope(m: map<string, seq<Event>>, es: seq<Event>) {
    && (forall scope :: scope in m ==> m[scope] == InScope(es, scope))
    && (forall scope :: scope !in m ==> InScope(es, scope) == [])
  }

  function AddToScope(m: map<string, seq<Event>>, e: Event): map<string, seq<Event>> {
    m[Scope(e) := (if Scope(e) in m then m[Scope(e)] else []) + [e]]
  }

  lemma {:induction false} InScopeSnoc(es: seq<Event>, e: Event, scope: string)
    ensures InScope(es + [e], scope) == InScope(es, scope) + if Scope(e) == scope then [e] else []
  {
    assert (es + [e])[..|es|] == es;
  }

  lemma {:induction false} AddedToScope(m: map<string, seq<Event>>, es: seq<Event>, e: Event)
    requires ByScope(m, es)
    ensures ByScope(AddToScope(m, e), es + [e])
  {
    forall scope ensures InScope(es + [e], scope) == InScope(es, scope) + if Scope(e) == scope then [e] else [] {
      InScopeSnoc(es, e, scope);
    }
  }

  method GroupByScope(es: seq<Event>) returns (m: map<string, seq<Event>>)
    ensures ByScope(m, es)
  {
    m := map[];
    for i := 0 to |es|
      invariant ByScope(m, es[..i])
    {
      assert es[..i + 1] == es[..i] + [es[i]];
      AddedToScope(m, es[..i], es[i]);
      m := AddToScope(m, es[i]);
    }
    assert es[..|es|] == es;
  }

  /** What every strategy guarantees of a group. */
  predicate SoundGroup(input: Input, g: Group) {
    Highest(g.severity, g.events) && AllFromInput(input, g.events, g.scope)
  }

  predicate AllFromInput(input: Input, es: seq<Event>, scope: string) {
    forall i :: 0 <= i < |es| ==> FromInput(input, es[i]) && Scope(es[i]) == scope
  }

  predicate AllSound(input: Input, gs: seq<Group>) {
    forall i :: 0 <= i < |gs| ==> SoundGroup(input, gs[i])
  }

  lemma {:induction false} ScopeIsSound(input: Input, flat: seq<Event>, scope: string)
    requires SeenAs(input, flat)
    ensures AllFromInput(input, InScope(flat, scope), scope)
  {
    var es := InScope(flat, scope);
    forall i | 0 <= i < |es| ensures FromInput(input, es[i]) && Scope(es[i]) == scope {
      InScopeMembers(flat, scope, es[i]);
      SeenIsInput(input, flat, es[i]);
    }
  }
}
