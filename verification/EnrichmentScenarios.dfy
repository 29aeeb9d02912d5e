/** Runs that show what the enrichment protocol does not guarantee. */
module EnrichmentScenarios {
  import opened CheckerTypes
  import opened TextSearch
  import opened EnrichmentQueue
  import opened EnrichmentProtocol
  import opened EnrichmentInvariants
  import D = DashboardResults

  // -------------------------------------------------------- overlapping checks

  // One checker with two untouched issues.
  function TwoIssues(first: Issue, second: Issue): Results {
    map["w" := CheckResult("w", 0, [first, second], None)]
  }

  // Two checks of a new cluster overlap: the one that counted first publishes last.
  function Overlapped(early: Results, late: Results, config: Config): (r: (Cluster, Request)) {
    var a := Count(Begin(NEW_CLUSTER, early, true), "h");
    var b := Count(Begin(a, late, true), "h");
    var published := Publish(Prepare(b, config, false, true), "c", "p");
    (Publish(Prepare(published.(check := a.check), config, false, true), "c", "p"), published.check.request)
  }

  lemma ShownText(text: string)
    ensures D.Tagged(AI_PREFIX + text) && D.DisplayText(AI_PREFIX + text) == text
  {
    assert OccursAt(AI_PREFIX + text, AI_TAG, 0);
    assert OccursAt(AI_PREFIX + text, AI_PREFIX, 0);
  }

  /** If two checks of a cluster overlap, the later request passes every staleness test
      although the earlier check's baseline is on display, and the commit then shows what
      the AI said about issue y on issue x. */
  lemma OverlappingChecksMisattribute(x: Issue, y: Issue, text: string, config: Config, status: AIStatus)
    requires x.suggestion == y.suggestion == "" && x != y
    ensures var (k, r) := Overlapped(TwoIssues(x, y), TwoIssues(y, x), config);
            var answer := TwoIssues(Enhance(y, text, ""), x);
            var w := Answered(r, status, answer, map[]);
            && !StaleBefore(k, r) && !StaleAfter(k, r) && r.results == TwoIssues(y, x)
            && AIVersionOfResults(r.results, answer)
            && var shown := Commit(k, w).cs.value.latest.value.results["w"].issues[0];
               shown.resource == x.resource && shown.message == x.message && shown.kind == x.kind
               && shown.aiEnhanced && shown.suggestion == text
  {
    var (k, r) := Overlapped(TwoIssues(x, y), TwoIssues(y, x), config);
    var answer := TwoIssues(Enhance(y, text, ""), x);
    ShownText(text);
    assert AIVersionOf([y, x][0], answer["w"].issues[0]);
    assert AIVersionOf([y, x][1], answer["w"].issues[1]);
    assert k.cs.value.latest.value.results == D.Show(TwoIssues(x, y));
  }

  // ------------------------------------------- an old answer after a settings update

  /** A settings update after the provider answered shows the cluster as Pending under the new
      configuration; the answer of the old provider is still committed and clears the mark. */
  lemma OldAnswerLandsAfterPost(s: State, config: Config) returns (s1: State, s2: State)
    requires s.worker.Answered? && !s.worker.status.pending
    requires !StaleAfter(On(s, s.worker.req.clusterID), s.worker.req)
    ensures Step(s, PostSettings(config), s1) && Step(s1, PostFlight, s2)
    ensures var c := s.worker.req.clusterID;
            && s2.config == config && ShownPending(On(s1, c)) && !ShownPending(On(s2, c))
            && On(s2, c).cs.value.latest.value.status == Some(s.worker.status)
            && On(s2, c).history.committed == Some(s.worker.req.generation)
  {
    s1 := PostWhileAnswered(s, config);
    s2 := AnswerIsCommitted(s1);
  }

  lemma PostWhileAnswered(s: State, config: Config) returns (s': State)
    requires s.worker.Answered? && !StaleAfter(On(s, s.worker.req.clusterID), s.worker.req)
    ensures Step(s, PostSettings(config), s')
    ensures var c := s.worker.req.clusterID;
            && s'.config == config && s'.worker == s.worker && ShownPending(On(s', c))
            && !StaleAfter(On(s', c), s.worker.req)
  {
    s' := s.(config := config, clusters := map c | c in s.clusters :: Reset(s.clusters[c], config));
  }

  lemma AnswerIsCommitted(s: State) returns (s': State)
    requires s.worker.Answered? && !s.worker.status.pending
    requires !StaleAfter(On(s, s.worker.req.clusterID), s.worker.req)
    ensures Step(s, PostFlight, s')
    ensures var c := s.worker.req.clusterID;
            && s'.config == s.config && !ShownPending(On(s', c))
            && On(s', c).cs.Some? && On(s', c).cs.value.latest.Some?
            && On(s', c).cs.value.latest.value.status == Some(s.worker.status)
            && On(s', c).history.committed == Some(s.worker.req.generation)
  {
    var r := s.worker.req;
    s' := With(s, r.clusterID, Commit(On(s, r.clusterID), s.worker)).(worker := Finished(r));
  }

  // The states of one check, up to the request on offer.
  function Offering(c: string, results: Results, config: Config): seq<State> {
    var s0 := State(config, map[], QueueState(1, [], map[], {}, None), Idle);
    var s1 := With(s0, c, Begin(NEW_CLUSTER, results, true));
    var s2 := With(s1, c, Count(On(s1, c), "h"));
    var s3 := With(s2, c, Prepare(On(s2, c), config, false, true));
    var s4 := With(s3, c, Publish(On(s3, c), c, config.provider));
    [s0, s1, s2, s3, s4]
  }

  lemma OfferingRuns(c: string, results: Results, config: Config)
    requires config.enabled
    ensures var states := Offering(c, results, config);
            && Init(states[0])
            && Step(states[0], BeginCheck(c, results), states[1])
            && Step(states[1], CountCheck(c, "h"), states[2])
            && Step(states[2], PrepareCheck(c, false, true), states[3])
            && Step(states[3], PublishCheck(c, config.provider), states[4])
            && On(states[4], c).check.Published? && states[4].worker.Idle? && states[4].config == config
            && states[4].queue == QueueState(1, [], map[], {}, None)
            && On(states[4], c).check.request.clusterID == c && On(states[4], c).check.request.results == results
            && !StaleAfter(On(states[4], c), On(states[4], c).check.request)
  {
  }

  lemma OfferedIsCalled(s4: State, c: string) returns (s5: State, s6: State, s7: State)
    requires On(s4, c).check.Published? && s4.worker.Idle?
    requires s4.queue == QueueState(1, [], map[], {}, None)
    requires On(s4, c).check.request.clusterID == c
    requires !StaleAfter(On(s4, c), On(s4, c).check.request)
    ensures Step(s4, OfferRequest(c, true), s5) && Step(s5, FetchRequest, s6) && Step(s6, PreFlight, s7)
    ensures s7.worker == Calling(On(s4, c).check.request) && s7.config == s4.config
    ensures !StaleAfter(On(s7, c), s7.worker.req)
  {
    var k := On(s4, c);
    var r := k.check.request;
    s5 := With(s4, c, Offered(k, true)).(queue := s4.queue.(ch := [r], inflight := {c}));
    assert s4.queue.ch + [r] == [r] && s4.queue.inflight + {c} == {c};
    var k5 := On(s5, c);
    s6 := With(s5, c, k5.(history := k5.history.(taken := k5.history.taken + [r])))
            .(queue := s5.queue.(ch := [], working := Some(r)), worker := Fetched(r));
    s7 := s6.(worker := Calling(r));
  }

  /** There is a run in which a provider is called for a request that is still current. */
  lemma CallIsReached(c: string, results: Results, config: Config) returns (states: seq<State>, actions: seq<Action>)
    requires config.enabled
    ensures Run(states, actions) && |actions| == 7
    ensures var s := states[7];
            && s.worker.Calling? && s.worker.req.clusterID == c && s.worker.req.results == results
            && s.config == config && !StaleAfter(On(s, c), s.worker.req)
  {
    var first := Offering(c, results, config);
    OfferingRuns(c, results, config);
    var s5, s6, s7 := OfferedIsCalled(first[4], c);
    states := first + [s5, s6, s7];
    actions := [BeginCheck(c, results), CountCheck(c, "h"), PrepareCheck(c, false, true), PublishCheck(c, config.provider),
                OfferRequest(c, true), FetchRequest, PreFlight];
    forall i | 0 <= i < 7 ensures Step(states[i], actions[i], states[i + 1]) {
      assert i == 0 || i == 1 || i == 2 || i == 3 || i == 4 || i == 5 || i == 6;
    }
  }

  /** A whole run in which the old provider's answer is committed after the update to a new
      one and is shown as settled. */
  lemma OldProviderIsShownAfterPost(c: string, results: Results, before: Config, after: Config)
    returns (states: seq<State>, actions: seq<Action>)
    requires before.enabled && after.provider != before.provider
    ensures Run(states, actions) && |actions| == 10
    ensures actions[7].AIReply? && actions[8] == PostSettings(after) && actions[9].PostFlight?
    ensures var k := On(states[10], c);
            && states[10].config == after
            && !ShownPending(k)
            && k.cs.Some? && k.cs.value.latest.Some? && k.cs.value.latest.value.status.Some?
            && k.cs.value.latest.value.status.value.provider == before.provider
  {
    var status := AIStatus(true, before.provider, false, "", "done");
    states, actions := CallIsReached(c, results, before);
    UntouchedIsAIVersion(results);
    var s1 := states[7].(worker := Answered(states[7].worker.req, status, results, D.Snapshot(results)));
    var s2, s3 := OldAnswerLandsAfterPost(s1, after);
    states, actions := ThreeMoreSteps(states, actions, AIReply(status, results, true), s1, PostSettings(after), s2, PostFlight, s3);
  }

  lemma ThreeMoreSteps(states: seq<State>, actions: seq<Action>, a1: Action, s1: State, a2: Action, s2: State, a3: Action, s3: State)
    returns (states': seq<State>, actions': seq<Action>)
    requires Run(states, actions)
    requires Step(states[|actions|], a1, s1) && Step(s1, a2, s2) && Step(s2, a3, s3)
    ensures states' == states + [s1, s2, s3] && actions' == actions + [a1, a2, a3] && Run(states', actions')
  {
    states', actions' := OneMoreStep(states, actions, a1, s1);
    states', actions' := OneMoreStep(states', actions', a2, s2);
    states', actions' := OneMoreStep(states', actions', a3, s3);
  }

  lemma UntouchedIsAIVersion(results: Results)
    ensures AIVersionOfResults(results, results)
  {
  }

  lemma OneMoreStep(states: seq<State>, actions: seq<Action>, a: Action, s: State)
    returns (states': seq<State>, actions': seq<Action>)
    requires Run(states, actions) && Step(states[|actions|], a, s)
    ensures states' == states + [s] && actions' == actions + [a] && Run(states', actions')
  {
    states', actions' := states + [s], actions + [a];
    forall i | 0 <= i < |actions'| ensures Step(states'[i], actions'[i], states'[i + 1]) {
      assert i < |actions| ==> Step(states[i], actions[i], states[i + 1]);
    }
  }
}
