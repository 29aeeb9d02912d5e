/** The greedy deduplication of overlapping groups (internal/causal/correlator.go). */
module GroupDeduplication {
  import opened CheckerTypes
  import opened CausalTypes
  import opened StableSort
  import opened FiniteSets

  predicate DistinctKeys(key: KeyFunction, es: seq<Event>) {
    forall i, j :: 0 <= i < j < |es| ==> key(es[i]) != key(es[j])
  }

  // The first event of every key that is not claimed.
  function Kept(key: KeyFunction, es: seq<Event>, claimed: set<string>): seq<Event> {
    if es == [] then []
    else
      var init := Kept(key, es[..|es| - 1], claimed);
      var e := es[|es| - 1];
      if key(e) in claimed || key(e) in KeysOf(key, init) then init else init + [e]
  }

  lemma {:induction false} KeptAreOriginal(key: KeyFunction, es: seq<Event>, claimed: set<string>)
    ensures forall i :: 0 <= i < |Kept(key, es, claimed)| ==> Kept(key, es, claimed)[i] in es
  {
    if es != [] {
      KeptAreOriginal(key, es[..|es| - 1], claimed);
    }
  }

  lemma {:induction false} KeptKeys(key: KeyFunction, es: seq<Event>, claimed: set<string>)
    ensures KeysOf(key, Kept(key, es, claimed)) == KeysOf(key, es) - claimed
  {
    if es != [] {
      var init, e := es[..|es| - 1], es[|es| - 1];
      KeptKeys(key, init, claimed);
      KeysOfSnoc(key, Kept(key, init, claimed), e);
    }
  }

  lemma {:induction false} KeptIsDistinct(key: KeyFunction, es: seq<Event>, claimed: set<string>)
    ensures DistinctKeys(key, Kept(key, es, claimed))
  {
    if es != [] {
      var init, e := es[..|es| - 1], es[|es| - 1];
      KeptIsDistinct(key, init, claimed);
      var k := Kept(key, init, claimed);
      forall i | 0 <= i < |k| ensures key(k[i]) in KeysOf(key, k) {
        KeyIsIn(key, k, i);
      }
    }
  }

  // The keys claimed by the first n groups: a group that still has two events to keep
  // claims all of its keys, any other claims nothing.
  function Claimed(key: KeyFunction, gs: seq<Group>, n: nat): set<string>
    requires n <= |gs|
  {
    if n == 0 then {}
    else
      var before := Claimed(key, gs, n - 1);
      if |Kept(key, gs[n - 1].events, before)| >= 2 then before + KeysOf(key, gs[n - 1].events) else before
  }

  function KeptAt(key: KeyFunction, gs: seq<Group>, i: nat): seq<Event>
    requires i < |gs|
  {
    Kept(key, gs[i].events, Claimed(key, gs, i))
  }

  predicate SurvivesAt(key: KeyFunction, gs: seq<Group>, i: nat)
    requires i < |gs|
  {
    |KeptAt(key, gs, i)| >= 2
  }

  // The keys of group i that no earlier surviving group has claimed.
  function Unclaimed(key: KeyFunction, gs: seq<Group>, i: nat): set<string>
    requires i < |gs|
  {
    KeysOf(key, gs[i].events) - Claimed(key, gs, i)
  }

  // What remains of the first n groups.
  function Survivors(key: KeyFunction, gs: seq<Group>, n: nat): seq<Group>
    requires n <= |gs|
  {
    if n == 0 then []
    else if SurvivesAt(key, gs, n - 1) then
      Survivors(key, gs, n - 1) + [gs[n - 1].(events := KeptAt(key, gs, n - 1))]
    else Survivors(key, gs, n - 1)
  }

  predicate MoreConfident(a: Group, b: Group) {
    a.confidence > b.confidence
  }

  lemma MoreConfidentIsRankLike()
    ensures RankLike(MoreConfident)
  {
  }

  // Keeps the unclaimed events of one group and claims them.
  method Claim(key: KeyFunction, es: seq<Event>, claimed: set<string>) returns (kept: seq<Event>, after: set<string>)
    ensures kept == Kept(key, es, claimed)
    ensures after == claimed + KeysOf(key, kept)
  {
    kept, after := [], claimed;
    for i := 0 to |es|
      invariant kept == Kept(key, es[..i], claimed)
      invariant after == claimed + KeysOf(key, kept)
    {
      assert es[..i + 1][..i] == es[..i];
      var k := key(es[i]);
      KeysOfSnoc(key, kept, es[i]);
      if k !in after {
        after := after + {k};
        kept := kept + [es[i]];
      }
    }
    assert es[..|es|] == es;
  }

  method Release(key: KeyFunction, kept: seq<Event>, claimed: set<string>) returns (after: set<string>)
    ensures after == claimed - KeysOf(key, kept)
  {
    after := claimed;
    for i := 0 to |kept|
      invariant after == claimed - KeysOf(key, kept[..i])
    {
      assert kept[..i + 1] == kept[..i] + [kept[i]];
      KeysOfSnoc(key, kept[..i], kept[i]);
      after := after - {key(kept[i])};
    }
    assert kept[..|kept|] == kept;
  }

  method DeduplicateGroups(key: KeyFunction, groups: seq<Group>) returns (result: seq<Group>)
    ensures var gs := Sort(groups, MoreConfident); result == Survivors(key, gs, |gs|)
  {
    var gs := Sort(groups, MoreConfident);
    result := [];
    var claimed: set<string> := {};
    for i := 0 to |gs|
      invariant result == Survivors(key, gs, i)
      invariant claimed == Claimed(key, gs, i)
    {
      var kept, after := Claim(key, gs[i].events, claimed);
      KeptKeys(key, gs[i].events, claimed);
      if |kept| < 2 {
        claimed := Release(key, kept, after);
      } else {
        claimed := after;
        result := result + [gs[i].(events := kept)];
      }
    }
  }

  // ------------------------------------------------------- what deduplication means
  // Stated per input group, so that no index translation is needed.

  lemma {:induction false} ClaimsGrow(key: KeyFunction, gs: seq<Group>, i: nat, j: nat)
    requires i <= j <= |gs|
    ensures Claimed(key, gs, i) <= Claimed(key, gs, j)
  {
    if i < j {
      ClaimsGrow(key, gs, i, j - 1);
    }
  }

  // A claimed key was claimed by an earlier surviving group.
  lemma {:induction false} ClaimHasOwner(key: KeyFunction, gs: seq<Group>, n: nat, k: string) returns (i: nat)
    requires n <= |gs| && k in Claimed(key, gs, n)
    ensures i < n && SurvivesAt(key, gs, i) && k in Unclaimed(key, gs, i)
  {
    if k in Claimed(key, gs, n - 1) {
      i := ClaimHasOwner(key, gs, n - 1, k);
    } else {
      i := n - 1;
    }
  }

  // Every survivor is one of the input groups, with only its events cut down.
  lemma {:induction false} SurvivorHasOrigin(key: KeyFunction, gs: seq<Group>, n: nat, k: nat) returns (i: nat)
    requires n <= |gs| && k < |Survivors(key, gs, n)|
    ensures i < n && SurvivesAt(key, gs, i) && k == |Survivors(key, gs, i)|
    ensures Survivors(key, gs, n)[k] == gs[i].(events := KeptAt(key, gs, i))
  {
    if k < |Survivors(key, gs, n - 1)| {
      i := SurvivorHasOrigin(key, gs, n - 1, k);
    } else {
      i := n - 1;
    }
  }

  lemma {:induction false} KeptAreDisjoint(key: KeyFunction, gs: seq<Group>, i: nat, j: nat)
    requires i < j < |gs| && SurvivesAt(key, gs, i)
    ensures KeysOf(key, KeptAt(key, gs, i)) !! KeysOf(key, KeptAt(key, gs, j))
  {
    KeptKeys(key, gs[i].events, Claimed(key, gs, i));
    KeptKeys(key, gs[j].events, Claimed(key, gs, j));
    ClaimsGrow(key, gs, i + 1, j);
  }

  /** After deduplication every group has at least two events, all with different keys. */
  lemma {:induction false} SurvivorsAreDistinct(key: KeyFunction, gs: seq<Group>, k: nat)
    requires k < |Survivors(key, gs, |gs|)|
    ensures var es := Survivors(key, gs, |gs|)[k].events; |es| >= 2 && DistinctKeys(key, es)
  {
    var i := SurvivorHasOrigin(key, gs, |gs|, k);
    KeptIsDistinct(key, gs[i].events, Claimed(key, gs, i));
  }

  /** No key occurs in two of them. */
  lemma {:induction false} SurvivorsAreDisjoint(key: KeyFunction, gs: seq<Group>, k: nat, l: nat)
    requires k < l < |Survivors(key, gs, |gs|)|
    ensures var r := Survivors(key, gs, |gs|);
            KeysOf(key, r[k].events) !! KeysOf(key, r[l].events)
  {
    var i := SurvivorHasOrigin(key, gs, |gs|, k);
    var j := SurvivorHasOrigin(key, gs, |gs|, l);
    if j <= i {
      CountGrows(key, gs, j, i);
    } else {
      KeptAreDisjoint(key, gs, i, j);
    }
  }

  lemma {:induction false} CountGrows(key: KeyFunction, gs: seq<Group>, i: nat, j: nat)
    requires i <= j <= |gs|
    ensures |Survivors(key, gs, i)| <= |Survivors(key, gs, j)|
  {
    if i < j {
      CountGrows(key, gs, i, j - 1);
    }
  }

  /** An event missing from its own surviving group is claimed there by an equal key or in
      an earlier group of at least equal confidence; a dropped group had at most one key
      that such groups had left unclaimed. */
  lemma {:induction false} LossesAreJustified(key: KeyFunction, groups: seq<Group>, gs: seq<Group>, i: nat, e: Event)
    requires gs == Sort(groups, MoreConfident)
    requires i < |gs| && e in gs[i].events
    ensures || (SurvivesAt(key, gs, i) && key(e) in KeysOf(key, KeptAt(key, gs, i)))
            || (!SurvivesAt(key, gs, i) && Unclaimed(key, gs, i) == {key(e)})
            || exists j :: 0 <= j < i && SurvivesAt(key, gs, j) && key(e) in KeysOf(key, KeptAt(key, gs, j))
                           && gs[j].confidence >= gs[i].confidence
  {
    MoreConfidentIsRankLike();
    SortSorts(groups, MoreConfident);
    var n :| 0 <= n < |gs[i].events| && gs[i].events[n] == e;
    KeyIsIn(key, gs[i].events, n);
    KeptKeys(key, gs[i].events, Claimed(key, gs, i));
    if !SurvivesAt(key, gs, i) {
      DroppedHadOneKey(key, gs, i);
    }
    if key(e) !in Unclaimed(key, gs, i) {
      var j := ClaimHasOwner(key, gs, i, key(e));
      KeptKeys(key, gs[j].events, Claimed(key, gs, j));
      assert !MoreConfident(gs[i], gs[j]);
    }
  }

  lemma {:induction false} DroppedHadOneKey(key: KeyFunction, gs: seq<Group>, i: nat)
    requires i < |gs| && !SurvivesAt(key, gs, i)
    ensures Unclaimed(key, gs, i) == {} || exists k :: Unclaimed(key, gs, i) == {k}
  {
    var kept := KeptAt(key, gs, i);
    KeptKeys(key, gs[i].events, Claimed(key, gs, i));
    if |kept| == 1 {
      KeysOfSnoc(key, [], kept[0]);
      assert [] + [kept[0]] == kept;
      assert Unclaimed(key, gs, i) == {key(kept[0])};
    }
  }

  /** Of every input group at most one key is in no surviving group. */
  lemma {:induction false} AtMostOneKeyLeftOut(key: KeyFunction, gs: seq<Group>, i: nat)
    requires i < |gs|
    ensures |KeysOf(key, gs[i].events) - Claimed(key, gs, |gs|)| <= 1
  {
    ClaimsGrow(key, gs, i, |gs|);
    ClaimsGrow(key, gs, i + 1, |gs|);
    var left := KeysOf(key, gs[i].events) - Claimed(key, gs, |gs|);
    if SurvivesAt(key, gs, i) {
      assert left == {};
    } else {
      DroppedHadOneKey(key, gs, i);
      if Unclaimed(key, gs, i) != {} {
        var k :| Unclaimed(key, gs, i) == {k};
        SubsetSize(left, {k});
      } else {
        assert left == {};
      }
    }
  }

  // The keys of all events of some groups.
  function GroupKeys(key: KeyFunction, gs: seq<Group>): set<string> {
    if gs == [] then {} else GroupKeys(key, gs[..|gs| - 1]) + KeysOf(key, gs[|gs| - 1].events)
  }

  /** The claimed keys are exactly those of the surviving events. */
  lemma {:induction false} ClaimedAreSurvivors(key: KeyFunction, gs: seq<Group>, n: nat)
    requires n <= |gs|
    ensures GroupKeys(key, Survivors(key, gs, n)) == Claimed(key, gs, n)
  {
    if n > 0 {
      ClaimedAreSurvivors(key, gs, n - 1);
      if SurvivesAt(key, gs, n - 1) {
        KeptKeys(key, gs[n - 1].events, Claimed(key, gs, n - 1));
        var before := Survivors(key, gs, n - 1);
        assert Survivors(key, gs, n)[..|before|] == before;
      }
    }
  }

  /** The severity of a group is not recomputed; it still bounds what is left of it. */
  lemma {:induction false} SeverityStillBounds(key: KeyFunction, gs: seq<Group>, k: nat)
    requires forall i :: 0 <= i < |gs| ==> Bounds(gs[i].severity, gs[i].events)
    requires k < |Survivors(key, gs, |gs|)|
    ensures Bounds(Survivors(key, gs, |gs|)[k].severity, Survivors(key, gs, |gs|)[k].events)
  {
    var i := SurvivorHasOrigin(key, gs, |gs|, k);
    var kept := KeptAt(key, gs, i);
    KeptAreOriginal(key, gs[i].events, Claimed(key, gs, i));
    forall n | 0 <= n < |kept| ensures Priority(kept[n].issue.severity) <= Priority(gs[i].severity) {
      assert kept[n] in gs[i].events;
    }
  }

  lemma {:induction false} PairKeys(key: KeyFunction, a: Event, b: Event)
    ensures KeysOf(key, [a, b]) == {key(a), key(b)}
  {
    KeysOfSnoc(key, [], a);
    KeysOfSnoc(key, [a], b);
    assert [] + [a] == [a] && [a] + [b] == [a, b];
  }

  // Event n is the first of its key and its key is not claimed.
  predicate KeepsEvent(key: KeyFunction, es: seq<Event>, claimed: set<string>, n: nat)
    requires n < |es|
  {
    key(es[n]) !in claimed && forall m :: 0 <= m < n ==> key(es[m]) != key(es[n])
  }

  lemma {:induction false} KeepsLast(key: KeyFunction, es: seq<Event>, claimed: set<string>)
    requires es != []
    ensures var init, e := es[..|es| - 1], es[|es| - 1];
            Kept(key, es, claimed) == Kept(key, init, claimed) + if KeepsEvent(key, es, claimed, |es| - 1) then [e] else []
  {
    var init, e := es[..|es| - 1], es[|es| - 1];
    KeptKeys(key, init, claimed);
    forall m | 0 <= m < |init| ensures key(es[m]) in KeysOf(key, init) {
      KeyIsIn(key, init, m);
    }
    if key(e) in KeysOf(key, init) {
      KeyHasEvent(key, init, key(e));
    }
  }

  lemma {:induction false} KeyHasEvent(key: KeyFunction, es: seq<Event>, k: string)
    requires k in KeysOf(key, es)
    ensures exists i :: 0 <= i < |es| && key(es[i]) == k
  {
    var n := |es| - 1;
    if k != key(es[n]) {
      KeyHasEvent(key, es[..n], k);
      var i :| 0 <= i < n && key(es[..n][i]) == k;
      assert key(es[i]) == k;
    }
  }

  /** The events a group keeps are the first of each key that is not claimed. */
  lemma {:induction false} KeptExactly(key: KeyFunction, es: seq<Event>, claimed: set<string>, e: Event)
    ensures e in Kept(key, es, claimed) <==> exists n :: 0 <= n < |es| && KeepsEvent(key, es, claimed, n) && es[n] == e
  {
    if es != [] {
      var init, last := es[..|es| - 1], |es| - 1;
      KeepsLast(key, es, claimed);
      KeptExactly(key, init, claimed, e);
      FirstsOfPrefix(key, es, claimed, e);
    }
  }

  // The first events of a list are those of its beginning and perhaps its last.
  lemma FirstsOfPrefix(key: KeyFunction, es: seq<Event>, claimed: set<string>, e: Event)
    requires es != []
    ensures var init, last := es[..|es| - 1], |es| - 1;
            (exists n :: 0 <= n < |es| && KeepsEvent(key, es, claimed, n) && es[n] == e) <==>
              || (exists n :: 0 <= n < |init| && KeepsEvent(key, init, claimed, n) && init[n] == e)
              || (KeepsEvent(key, es, claimed, last) && es[last] == e)
  {
    var init, last := es[..|es| - 1], |es| - 1;
    forall n | 0 <= n < last ensures KeepsEvent(key, es, claimed, n) <==> KeepsEvent(key, init, claimed, n) {
    }
    if n :| 0 <= n < |init| && KeepsEvent(key, init, claimed, n) && init[n] == e {
      assert KeepsEvent(key, es, claimed, n) && es[n] == e;
    }
    if n :| 0 <= n < |es| && KeepsEvent(key, es, claimed, n) && es[n] == e {
      assert n < last ==> KeepsEvent(key, init, claimed, n) && init[n] == e;
    }
  }

  /** The stored severity is still that of some remaining event, hence exact, if and only if
      one of the events that had it is the first of its key and claimed by no better group. */
  lemma {:induction false} SeverityExactIff(key: KeyFunction, gs: seq<Group>, i: nat)
    requires i < |gs| && Highest(gs[i].severity, gs[i].events) && gs[i].severity != ""
    ensures Highest(gs[i].severity, KeptAt(key, gs, i)) <==>
              exists n :: 0 <= n < |gs[i].events| && gs[i].events[n].issue.severity == gs[i].severity
                          && KeepsEvent(key, gs[i].events, Claimed(key, gs, i), n)
  {
    var es, claimed := gs[i].events, Claimed(key, gs, i);
    var kept := KeptAt(key, gs, i);
    KeptAreOriginal(key, es, claimed);
    forall k | 0 <= k < |kept| ensures Priority(kept[k].issue.severity) <= Priority(gs[i].severity) {
      var n :| 0 <= n < |es| && es[n] == kept[k];
    }
    if k :| 0 <= k < |kept| && kept[k].issue.severity == gs[i].severity {
      KeptExactly(key, es, claimed, kept[k]);
    }
    if n :| 0 <= n < |es| && es[n].issue.severity == gs[i].severity && KeepsEvent(key, es, claimed, n) {
      KeptExactly(key, es, claimed, es[n]);
      var k :| 0 <= k < |kept| && kept[k] == es[n];
    }
  }

  // ------------------------------------------------ what becomes of an input group

  // The keys of all groups with at least this confidence.
  ghost function KeysAtLeast(key: KeyFunction, gs: seq<Group>, confidence: real): set<string> {
    set i, k | 0 <= i < |gs| && gs[i].confidence >= confidence && k in KeysOf(key, gs[i].events) :: k
  }

  // Of these events at most one distinct one is in no group; every other one is in a group
  // of at least this confidence.
  ghost predicate Honoured(key: KeyFunction, es: seq<Event>, confidence: real, gs: seq<Group>) {
    |KeysOf(key, es) - KeysAtLeast(key, gs, confidence)| <= 1
  }

  lemma {:induction false} SurvivorAppears(key: KeyFunction, gs: seq<Group>, n: nat, i: nat)
    requires i < n <= |gs| && SurvivesAt(key, gs, i)
    ensures exists p :: 0 <= p < |Survivors(key, gs, n)| && Survivors(key, gs, n)[p] == gs[i].(events := KeptAt(key, gs, i))
  {
    if i < n - 1 {
      SurvivorAppears(key, gs, n - 1, i);
      var p :| 0 <= p < |Survivors(key, gs, n - 1)|
               && Survivors(key, gs, n - 1)[p] == gs[i].(events := KeptAt(key, gs, i));
      assert Survivors(key, gs, n)[p] == Survivors(key, gs, n - 1)[p];
    } else {
      assert Survivors(key, gs, n)[|Survivors(key, gs, n)| - 1] == gs[i].(events := KeptAt(key, gs, i));
    }
  }

  lemma {:induction false} SurvivorKeepsKey(key: KeyFunction, gs: seq<Group>, i: nat, k: string, confidence: real)
    requires i < |gs| && SurvivesAt(key, gs, i) && k in Unclaimed(key, gs, i) && gs[i].confidence >= confidence
    ensures k in KeysAtLeast(key, Survivors(key, gs, |gs|), confidence)
  {
    KeptKeys(key, gs[i].events, Claimed(key, gs, i));
    SurvivorAppears(key, gs, |gs|, i);
  }

  /** Of every input group at most one distinct event ends in no group, and every other one
      in a group of at least the same confidence. */
  lemma {:induction false} InputGroupIsHonoured(key: KeyFunction, groups: seq<Group>, gs: seq<Group>, i: nat)
    requires gs == Sort(groups, MoreConfident) && i < |gs|
    ensures Honoured(key, gs[i].events, gs[i].confidence, Survivors(key, gs, |gs|))
  {
    var c := gs[i].confidence;
    var left := KeysOf(key, gs[i].events) - KeysAtLeast(key, Survivors(key, gs, |gs|), c);
    MoreConfidentIsRankLike();
    SortSorts(groups, MoreConfident);
    forall k | k in left ensures k in Unclaimed(key, gs, i) && !SurvivesAt(key, gs, i) {
      if k in Claimed(key, gs, i) {
        var j := ClaimHasOwner(key, gs, i, k);
        assert !MoreConfident(gs[i], gs[j]);
        SurvivorKeepsKey(key, gs, j, k, c);
      } else if SurvivesAt(key, gs, i) {
        SurvivorKeepsKey(key, gs, i, k, c);
      }
    }
    if left != {} {
      DroppedHadOneKey(key, gs, i);
      SubsetSize(left, Unclaimed(key, gs, i));
    }
  }

  // g is group o with some of its events.
  predicate CutFrom(g: Group, o: Group) {
    g == o.(events := g.events) && forall e :: e in g.events ==> e in o.events
  }

  lemma {:induction false} SurvivorIsCut(key: KeyFunction, gs: seq<Group>, k: nat) returns (i: nat)
    requires k < |Survivors(key, gs, |gs|)|
    ensures i < |gs| && CutFrom(Survivors(key, gs, |gs|)[k], gs[i])
  {
    i := SurvivorHasOrigin(key, gs, |gs|, k);
    KeptAreOriginal(key, gs[i].events, Claimed(key, gs, i));
  }

  lemma SameGroupsSameKeys(key: KeyFunction, a: seq<Group>, b: seq<Group>, confidence: real)
    requires multiset(a) == multiset(b)
    ensures KeysAtLeast(key, a, confidence) == KeysAtLeast(key, b, confidence)
  {
    KeysAtLeastOfSome(key, a, b, confidence);
    KeysAtLeastOfSome(key, b, a, confidence);
  }

  lemma KeysAtLeastOfSome(key: KeyFunction, a: seq<Group>, b: seq<Group>, confidence: real)
    requires multiset(a) == multiset(b)
    ensures KeysAtLeast(key, a, confidence) <= KeysAtLeast(key, b, confidence)
  {
    forall i, k | 0 <= i < |a| && a[i].confidence >= confidence && k in KeysOf(key, a[i].events)
      ensures k in KeysAtLeast(key, b, confidence)
    {
      assert a[i] in multiset(b);
      var j :| 0 <= j < |b| && b[j] == a[i];
    }
  }

  // ---------------------------------------------------------------- final order

  predicate RanksBefore(a: Group, b: Group) {
    if Priority(a.severity) != Priority(b.severity) then Priority(a.severity) > Priority(b.severity)
    else a.confidence > b.confidence
  }

  // In words: critical groups, then warnings, then notes, then the rest; among groups of one
  // severity the more confident ones first.
  ghost predicate InReportOrder(gs: seq<Group>) {
    forall i, j :: 0 <= i < j < |gs| ==>
      && (gs[j].severity == "Critical" ==> gs[i].severity == "Critical")
      && (gs[j].severity == "Warning" ==> gs[i].severity == "Critical" || gs[i].severity == "Warning")
      && (gs[j].severity == "Info" ==> gs[i].severity in {"Critical", "Warning", "Info"})
      && (gs[j].severity == gs[i].severity ==> gs[i].confidence >= gs[j].confidence)
  }

  lemma RankedIsInReportOrder(gs: seq<Group>)
    requires Sorted(gs, RanksBefore)
    ensures InReportOrder(gs)
  {
    forall i, j | 0 <= i < j < |gs| ensures !RanksBefore(gs[j], gs[i]) {
    }
  }

  /** The final order: by severity, then by confidence, keeping ties in place. */
  method SortGroups(groups: seq<Group>) returns (r: seq<Group>)
    ensures multiset(r) == multiset(groups) && Sorted(r, RanksBefore)
    ensures forall g :: Ties(r, g, RanksBefore) == Ties(groups, g, RanksBefore)
  {
    r := Sort(groups, RanksBefore);
    assert RankLike(RanksBefore);
    SortPermutes(groups, RanksBefore);
    SortSorts(groups, RanksBefore);
    forall g ensures Ties(r, g, RanksBefore) == Ties(groups, g, RanksBefore) {
      SortIsStable(groups, g, RanksBefore);
    }
  }
}
