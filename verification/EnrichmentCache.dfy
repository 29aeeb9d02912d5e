/** What a published check shows: the checkers' own results, or those results with the
    suggestions of the answer last committed for the same issues. */
module EnrichmentCache {
  import opened CheckerTypes
  import opened EnrichmentQueue
  import opened EnrichmentProtocol
  import opened EnrichmentInvariants
  import opened EnrichmentTheorems
  import D = DashboardResults

  // ------------------------------------------------- the answer in force, from the run

  /** In state `s`, action `a` commits an answer for cluster `c`. */
  predicate Commits(s: State, a: Action, c: string) {
    && a.PostFlight? && s.worker.Answered? && s.worker.req.clusterID == c
    && !StaleAfter(On(s, c), s.worker.req)
  }

  predicate Forgets(s: State, a: Action, c: string) {
    a.PostSettings? || Commits(s, a, c)
  }

  /** The j-th action committed an answer for `c`; up to the i-th state there was no other
      and no settings POST. */
  ghost predicate AnswerInForce(states: seq<State>, actions: seq<Action>, j: nat, i: nat, c: string)
    requires j < i <= |actions| < |states|
  {
    Commits(states[j], actions[j], c) && forall k | j < k < i :: !Forgets(states[k], actions[k], c)
  }

  /** An answer for exactly these issues is in force. */
  ghost predicate Answered(states: seq<State>, actions: seq<Action>, i: nat, c: string, issueHash: string)
    requires i <= |actions| < |states|
  {
    exists j | 0 <= j < i :: AnswerInForce(states, actions, j, i, c) && states[j].worker.req.issueHash == issueHash
  }

  // ------------------------------------------------------- one check, from the run

  predicate ChecksOn(a: Action, c: string) {
    && (a.BeginCheck? || a.CountCheck? || a.PrepareCheck? || a.PublishCheck? || a.OfferRequest? || a.DegradeRefused?)
    && a.c == c
  }

  predicate NoCheckStep(actions: seq<Action>, i: nat, j: nat, c: string) {
    forall k | i < k < j && k < |actions| :: !ChecksOn(actions[k], c)
  }

  /** One check of `c`: its checkers return, it counts, looks at the cache and publishes. */
  predicate CheckRan(actions: seq<Action>, b: nat, n: nat, p: nat, m: nat, c: string) {
    && b < n < p < m < |actions|
    && actions[b].BeginCheck? && actions[b].c == c && NoCheckStep(actions, b, n, c)
    && actions[n].CountCheck? && actions[n].c == c && NoCheckStep(actions, n, p, c)
    && actions[p].PrepareCheck? && actions[p].c == c && NoCheckStep(actions, p, m, c)
    && actions[m].PublishCheck? && actions[m].c == c
  }

  lemma CheckStays(s: State, a: Action, s': State, c: string)
    requires Step(s, a, s') && !ChecksOn(a, c)
    ensures On(s', c).check == On(s, c).check
  {
  }

  lemma {:induction false} CheckStaysFor(states: seq<State>, actions: seq<Action>, i: nat, j: nat, c: string)
    requires Run(states, actions) && i < j < |states| && NoCheckStep(actions, i, j, c)
    ensures On(states[j], c).check == On(states[i + 1], c).check
  {
    if i + 1 < j {
      CheckStaysFor(states, actions, i, j - 1, c);
      CheckStays(states[j - 1], actions[j - 1], states[j], c);
    }
  }

  /** Every publication is that of one check. */
  lemma {:induction false} PublicationHasCheck(states: seq<State>, actions: seq<Action>, m: nat, c: string)
    returns (b: nat, n: nat, p: nat)
    requires Run(states, actions) && m < |actions| && actions[m].PublishCheck? && actions[m].c == c
    ensures CheckRan(actions, b, n, p, m, c)
  {
    assert Step(states[m], actions[m], states[m + 1]);
    p := LastPrepare(states, actions, m, c);
    assert Step(states[p], actions[p], states[p + 1]);
    n := LastCount(states, actions, p, c);
    assert Step(states[n], actions[n], states[n + 1]);
    b := LastBegin(states, actions, n, c);
  }

  lemma {:induction false} LastPrepare(states: seq<State>, actions: seq<Action>, i: nat, c: string) returns (p: nat)
    requires Run(states, actions) && i < |states| && On(states[i], c).check.Prepared?
    ensures p < i && actions[p].PrepareCheck? && actions[p].c == c && NoCheckStep(actions, p, i, c)
  {
    assert i > 0;
    assert Step(states[i - 1], actions[i - 1], states[i]);
    if ChecksOn(actions[i - 1], c) {
      p := i - 1;
    } else {
      CheckStays(states[i - 1], actions[i - 1], states[i], c);
      p := LastPrepare(states, actions, i - 1, c);
    }
  }

  lemma {:induction false} LastCount(states: seq<State>, actions: seq<Action>, i: nat, c: string) returns (n: nat)
    requires Run(states, actions) && i < |states| && On(states[i], c).check.Counted?
    ensures n < i && actions[n].CountCheck? && actions[n].c == c && NoCheckStep(actions, n, i, c)
  {
    assert i > 0;
    assert Step(states[i - 1], actions[i - 1], states[i]);
    if ChecksOn(actions[i - 1], c) {
      n := i - 1;
    } else {
      CheckStays(states[i - 1], actions[i - 1], states[i], c);
      n := LastCount(states, actions, i - 1, c);
    }
  }

  lemma {:induction false} LastBegin(states: seq<State>, actions: seq<Action>, i: nat, c: string) returns (b: nat)
    requires Run(states, actions) && i < |states| && On(states[i], c).check.ConfigRead?
    ensures b < i && actions[b].BeginCheck? && actions[b].c == c && NoCheckStep(actions, b, i, c)
  {
    assert i > 0;
    assert Step(states[i - 1], actions[i - 1], states[i]);
    if ChecksOn(actions[i - 1], c) {
      b := i - 1;
    } else {
      CheckStays(states[i - 1], actions[i - 1], states[i], c);
      b := LastBegin(states, actions, i - 1, c);
    }
  }

  // ---------------------------------------------------------- what the cache holds

  /** Hash, status and suggestions of the cached answer. */
  function CacheOf(k: Cluster): Option<(string, AIStatus, D.Enhancements)> {
    if k.cs.None? || k.cs.value.lastAIResult.None? then None
    else Some((k.cs.value.lastAICacheHash, k.cs.value.lastAIResult.value, k.cs.value.lastAIEnhancements))
  }

  lemma CacheStep(s: State, a: Action, s': State, c: string)
    requires Step(s, a, s')
    ensures CacheOf(On(s', c)) ==
            if a.PostSettings? then None
            else if Commits(s, a, c) then Some((s.worker.req.issueHash, s.worker.status, s.worker.cache))
            else CacheOf(On(s, c))
  {
    if a.PostSettings? {
      assert On(s', c) == Reset(On(s, c), a.config);
    }
  }

  /** The cache holds the answer in force, and nothing if there is none. */
  lemma {:induction false} CacheIsAnswerInForce(states: seq<State>, actions: seq<Action>, i: nat, c: string)
    requires Run(states, actions) && i < |states|
    ensures CacheOf(On(states[i], c)).Some? ==> exists j | 0 <= j < i :: AnswerInForce(states, actions, j, i, c)
    ensures forall j | 0 <= j < i && AnswerInForce(states, actions, j, i, c) ::
              CacheOf(On(states[i], c))
              == Some((states[j].worker.req.issueHash, states[j].worker.status, states[j].worker.cache))
  {
    if i > 0 {
      var n := i - 1;
      CacheIsAnswerInForce(states, actions, n, c);
      CacheStep(states[n], actions[n], states[i], c);
      if Commits(states[n], actions[n], c) {
        assert AnswerInForce(states, actions, n, i, c);
      } else if !actions[n].PostSettings? && CacheOf(On(states[n], c)).Some? {
        var j :| 0 <= j < n && AnswerInForce(states, actions, j, n, c);
        assert AnswerInForce(states, actions, j, i, c);
      }
      forall j | 0 <= j < i && AnswerInForce(states, actions, j, i, c)
        ensures CacheOf(On(states[i], c))
                == Some((states[j].worker.req.issueHash, states[j].worker.status, states[j].worker.cache))
      {
        if j < n {
          assert AnswerInForce(states, actions, j, n, c);
        }
      }
    }
  }

  /** An answer stores the suggestions of what it enhanced. */
  lemma {:induction false} AnswersCarryTheirCache(states: seq<State>, actions: seq<Action>, i: nat)
    requires Run(states, actions) && i < |states| && states[i].worker.Answered?
    ensures var w := states[i].worker;
            && !w.status.pending && AIVersionOfResults(w.req.results, w.enriched)
            && (w.cache == D.Snapshot(w.enriched) || (w.cache == map[] && w.enriched == w.req.results))
  {
    assert i > 0;
    assert Step(states[i - 1], actions[i - 1], states[i]);
    if states[i - 1].worker.Answered? {
      AnswersCarryTheirCache(states, actions, i - 1);
    }
  }

  // ------------------------------------------------------------- what is published

  /** The check found AI on and available, and an answer in force for its issues. */
  ghost predicate Hit(states: seq<State>, actions: seq<Action>, b: nat, n: nat, p: nat, c: string)
    requires Run(states, actions) && b < n < p < |actions|
    requires actions[n].CountCheck? && actions[p].PrepareCheck?
  {
    && states[b].config.enabled && actions[p].availableForCache
    && Answered(states, actions, p, c, actions[n].issueHash)
  }

  /** A miss that calls the provider. */
  predicate Asks(states: seq<State>, actions: seq<Action>, b: nat, p: nat)
    requires b < |states| && p < |actions| && actions[p].PrepareCheck?
  {
    states[b].config.enabled && actions[p].availableForCall
  }

  /** The check as it stands just before its publication. */
  lemma {:induction false} CheckReachesPublication(states: seq<State>, actions: seq<Action>, b: nat, n: nat, p: nat, m: nat, c: string)
    requires Run(states, actions) && CheckRan(actions, b, n, p, m, c)
    ensures On(states[n], c).check == ConfigRead(actions[b].results, states[b].config.enabled)
    ensures var check := On(states[p], c).check;
            && check.Counted? && check.results == actions[b].results
            && check.issueHash == actions[n].issueHash && check.enabled == states[b].config.enabled
    ensures On(states[p + 1], c)
            == Prepare(On(states[p], c), states[p].config, actions[p].availableForCache, actions[p].availableForCall)
    ensures On(states[m], c).check == On(states[p + 1], c).check
    ensures On(states[m + 1], c) == Publish(On(states[m], c), c, actions[m].providerName)
  {
    assert Step(states[b], actions[b], states[b + 1]);
    CheckStaysFor(states, actions, b, n, c);
    assert Step(states[n], actions[n], states[n + 1]);
    CheckStaysFor(states, actions, n, p, c);
    assert Step(states[p], actions[p], states[p + 1]);
    CheckStaysFor(states, actions, p, m, c);
    assert Step(states[m], actions[m], states[m + 1]);
  }

  /** What a hit has in its cache is the answer in force; a miss has none for its issues. */
  lemma {:induction false} HitIffCached(states: seq<State>, actions: seq<Action>, p: nat, c: string, issueHash: string)
    requires Run(states, actions) && p <= |actions|
    ensures Answered(states, actions, p, c, issueHash) <==>
            CacheOf(On(states[p], c)).Some? && CacheOf(On(states[p], c)).value.0 == issueHash
  {
    CacheIsAnswerInForce(states, actions, p, c);
    if j :| 0 <= j < p && AnswerInForce(states, actions, j, p, c) {
      assert CacheOf(On(states[p], c)).Some?;
    }
  }

  predicate ShowsReapplied(k: Cluster, results: Results, cache: D.Enhancements) {
    k.cs.Some? && k.cs.value.latest.Some? && k.cs.value.latest.value.results == D.Show(D.Reapply(results, cache))
  }

  predicate ShowsUntouched(k: Cluster, results: Results) {
    k.cs.Some? && k.cs.value.latest.Some? && k.cs.value.latest.value.results == D.Show(results)
  }

  function StatusShown(k: Cluster): Option<AIStatus> {
    if k.cs.Some? && k.cs.value.latest.Some? then k.cs.value.latest.value.status else None
  }

  /** A hit is published as done, without a request, with the suggestions of the answer in
      force put back on the checkers' results. */
  lemma {:induction false} HitShowsAnswerInForce(states: seq<State>, actions: seq<Action>, b: nat, n: nat, p: nat, m: nat, c: string, j: nat)
    requires Run(states, actions) && CheckRan(actions, b, n, p, m, c)
    requires states[b].config.enabled && actions[p].availableForCache
    requires j < p && AnswerInForce(states, actions, j, p, c)
    requires states[j].worker.req.issueHash == actions[n].issueHash
    ensures var k := On(states[m + 1], c);
            && ShowsReapplied(k, actions[b].results, states[j].worker.cache)
            && k.check.NoCheck?
            && StatusShown(k) == Some(AIStatus(true, states[p].config.provider, false, "", "done"))
  {
    CheckReachesPublication(states, actions, b, n, p, m, c);
    CacheIsAnswerInForce(states, actions, p, c);
  }

  /** A miss is published with the checkers' own results; it is Pending and offers a request
      for exactly these if and only if AI is on and available. */
  lemma {:induction false} MissShowsOwnResults(states: seq<State>, actions: seq<Action>, b: nat, n: nat, p: nat, m: nat, c: string)
    requires Run(states, actions) && CheckRan(actions, b, n, p, m, c)
    requires !Hit(states, actions, b, n, p, c)
    ensures var k := On(states[m + 1], c);
            && ShowsUntouched(k, actions[b].results)
            && StatusShown(k) == (if Asks(states, actions, b, p)
                                  then Some(AIStatus(true, states[p].config.provider, true, "", "ai")) else None)
            && (k.check.Published? <==> Asks(states, actions, b, p))
            && (k.check.Published? ==>
                  && k.check.request.results == actions[b].results && k.check.request.clusterID == c
                  && k.check.request.issueHash == actions[n].issueHash)
  {
    CheckReachesPublication(states, actions, b, n, p, m, c);
    HitIffCached(states, actions, p, c, actions[n].issueHash);
  }

  /** So what is published differs from what the checkers returned only if an answer for the
      same issues was committed and no settings POST came between it and the check. */
  lemma {:induction false} OnlyAnsweredIssuesAreEnhanced(states: seq<State>, actions: seq<Action>, b: nat, n: nat, p: nat, m: nat, c: string)
    requires Run(states, actions) && CheckRan(actions, b, n, p, m, c)
    ensures !ShowsUntouched(On(states[m + 1], c), actions[b].results) ==>
              states[b].config.enabled && Answered(states, actions, p, c, actions[n].issueHash)
  {
    if !Hit(states, actions, b, n, p, c) {
      MissShowsOwnResults(states, actions, b, n, p, m, c);
    }
  }

  /** And the provider is asked if and only if AI is on and no such answer is in force. */
  lemma {:induction false} AsksIffNotAnswered(states: seq<State>, actions: seq<Action>, b: nat, n: nat, p: nat, m: nat, c: string)
    requires Run(states, actions) && CheckRan(actions, b, n, p, m, c)
    requires actions[p].availableForCache && actions[p].availableForCall
    ensures On(states[m + 1], c).check.Published? <==>
            states[b].config.enabled && !Answered(states, actions, p, c, actions[n].issueHash)
    ensures ShownPending(On(states[m + 1], c)) <==> On(states[m + 1], c).check.Published?
  {
    if Hit(states, actions, b, n, p, c) {
      var j :| 0 <= j < p && AnswerInForce(states, actions, j, p, c)
               && states[j].worker.req.issueHash == actions[n].issueHash;
      HitShowsAnswerInForce(states, actions, b, n, p, m, c, j);
    } else {
      MissShowsOwnResults(states, actions, b, n, p, m, c);
    }
  }

  /** If the checkers return again what an answer in force was given for, and the issues have
      different keys, the check shows what that answer showed: the dashboard of the enriched
      results. */
  lemma {:induction false} RepeatedCheckShowsEnrichedResults(states: seq<State>, actions: seq<Action>, b: nat, n: nat, p: nat, m: nat, c: string, j: nat)
    requires Run(states, actions) && CheckRan(actions, b, n, p, m, c)
    requires states[b].config.enabled && actions[p].availableForCache
    requires j < p && AnswerInForce(states, actions, j, p, c)
    requires states[j].worker.req.issueHash == actions[n].issueHash
    requires states[j].worker.req.results == actions[b].results && D.UniqueKeys(actions[b].results)
    ensures ShowsUntouched(On(states[m + 1], c), states[j].worker.enriched)
    ensures On(states[m + 1], c).check.NoCheck? && !ShownPending(On(states[m + 1], c))
  {
    HitShowsAnswerInForce(states, actions, b, n, p, m, c, j);
    AnswersCarryTheirCache(states, actions, j);
    var w := states[j].worker;
    if w.cache == map[] {
      ReapplyNothing(w.req.results);
    }
    if w.cache == D.Snapshot(w.enriched) {
      D.ReapplyRouteMatches(w.req.results, w.enriched);
    }
  }

  lemma ReapplyNothing(results: Results)
    ensures D.Reapply(results, map[]) == results
  {
  }

  // ---------------------------------------------------------------- other statuses

  predicate SameShownResults(k: Cluster, k': Cluster) {
    && (k.cs.Some? <==> k'.cs.Some?)
    && (k.cs.Some? ==>
          && (k.cs.value.latest.Some? <==> k'.cs.value.latest.Some?)
          && (k.cs.value.latest.Some? ==> k'.cs.value.latest.value.results == k.cs.value.latest.value.results))
  }

  /** A settings POST shows every published cluster as Pending under the new settings, and
      changes none of the results on display. */
  lemma PostShowsNewSettings(s: State, config: Config, s': State, c: string)
    requires Inv(s) && Step(s, PostSettings(config), s')
    ensures s'.config == config && SameShownResults(On(s, c), On(s', c))
    ensures StatusShown(On(s', c)) ==
            if On(s, c).history.published.Some? then Some(AIStatus(config.enabled, config.provider, true, "", ""))
            else None
  {
    assert PartInv(Part(s, c), c);
    assert On(s', c) == Reset(On(s, c), config);
  }

  /** A provider error clears Pending and shows the error if the request is of the newest
      check, and otherwise changes nothing; a refused request does the same for its check.
      The results on display stay. */
  lemma ErrorsAreShown(s: State, a: Action, s': State, c: string)
    requires Inv(s) && Step(s, a, s') && StatusShown(On(s, c)).Some?
    requires (a.DegradeErrored? && s.worker.req.clusterID == c) || (a.DegradeRefused? && a.c == c)
    ensures SameShownResults(On(s, c), On(s', c))
    ensures var current := a.DegradeRefused? || s.worker.req.generation == On(s, c).cs.value.checkCounter;
            var text := if a.DegradeRefused? then "enrichment queue full" else s.worker.text;
            StatusShown(On(s', c)) ==
              if current then Some(StatusShown(On(s, c)).value.(pending := false, lastError := text, checkPhase := "done"))
              else StatusShown(On(s, c))
  {
    assert PartInv(Part(s, c), c);
  }

  /** What a cluster shows changes only by its own publications, commits, errors and phases,
      and by settings POSTs. */
  lemma OnlyOwnStepsShow(s: State, a: Action, s': State, c: string)
    requires Step(s, a, s')
    requires !Commits(s, a, c) && !a.PostSettings?
    requires !(a.DegradeErrored? && s.worker.req.clusterID == c) && !(a.DegradeRefused? && a.c == c)
    requires !(a.PublishCheck? && a.c == c) && !(a.BroadcastPhase? && a.c == c)
    ensures StatusShown(On(s', c)) == StatusShown(On(s, c))
    ensures ShownResults(On(s', c)) == ShownResults(On(s, c))
  {
  }

  function ShownResults(k: Cluster): Option<D.Dashboard> {
    if k.cs.Some? && k.cs.value.latest.Some? then Some(k.cs.value.latest.value.results) else None
  }
}
