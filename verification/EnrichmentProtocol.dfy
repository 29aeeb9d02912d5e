/** The asynchronous AI-enrichment protocol (internal/dashboard/ai_analysis.go,
    enrichment_queue.go, handlers_ai.go) as a state machine.  One action is one critical
    section of the program, so every interleaving of per-cluster checks, the single
    worker and settings updates is a run.

    Hypothesis: the checks of one cluster do not overlap (`BeginCheck` needs the cluster
    to have no running check).  The program relies on the `checkInFlight` flag for it. */
module EnrichmentProtocol {
  import opened CheckerTypes
  import opened TextSearch
  import opened EnrichmentQueue
  import D = DashboardResults

  datatype AIStatus = AIStatus(
    enabled: bool, provider: string, pending: bool, lastError: string, checkPhase: string)

  datatype HealthUpdate = HealthUpdate(results: D.Dashboard, status: Option<AIStatus>)

  datatype ClusterState = ClusterState(
    checkCounter: nat, latest: Option<HealthUpdate>, currentIssueHash: string,
    aiConfigVersion: string, lastAICacheHash: string, lastAIResult: Option<AIStatus>,
    lastAIEnhancements: D.Enhancements)

  datatype Config = Config(enabled: bool, provider: string, model: string)

  /** How far the running check of a cluster has come. */
  datatype Check =
    | NoCheck
    | ConfigRead(results: Results, enabled: bool)
    | Counted(generation: nat, results: Results, issueHash: string, enabled: bool)
    | Prepared(generation: nat, results: Results, issueHash: string, model: string,
               status: Option<AIStatus>)
    | Published(request: Request)
    | Refused(generation: nat)

  /** How far the worker has come with the request it received. */
  datatype Worker =
    | Idle
    | Fetched(req: Request)
    | Calling(req: Request)
    | Answered(req: Request, status: AIStatus, enriched: Results, cache: D.Enhancements)
    | Errored(req: Request, text: string)
    | Finished(req: Request)

  /** What happened to a cluster so far; no guard reads it. */
  datatype History = History(
    published: Option<nat>,        // generation of the latest baseline
    baseline: Results,             // checker results that baseline was built from
    patchedWith: Option<Results>,  // enriched results committed onto that baseline
    committed: Option<nat>,        // last committed generation
    posted: bool,                  // a settings POST arrived since the baseline
    accepted: Option<Request>,     // newest request the queue accepted
    taken: seq<Request>)           // requests the worker received, in order

  /** Everything the server keeps for one cluster; `cs` is None until its first check counts. */
  datatype Cluster = Cluster(cs: Option<ClusterState>, check: Check, history: History)

  datatype State = State(
    config: Config, clusters: map<string, Cluster>, queue: QueueState, worker: Worker)

  datatype Action =
    | BeginCheck(c: string, results: Results)
    | CountCheck(c: string, issueHash: string)
    | PrepareCheck(c: string, availableForCache: bool, availableForCall: bool)
    | PublishCheck(c: string, providerName: string)
    | OfferRequest(c: string, accepted: bool)
    | DegradeRefused(c: string)
    | FetchRequest
    | PreFlight
    | AIReply(status: AIStatus, enriched: Results, useful: bool)
    | AIError(text: string)
    | PostFlight
    | DegradeErrored
    | FinishRequest
    | PostSettings(config: Config)
    | BroadcastPhase(c: string, phase: string)

  const NEW_CLUSTER_STATE := ClusterState(0, None, "", "", "", None, map[])
  const NEW_CLUSTER := Cluster(None, NoCheck, History(None, map[], None, None, false, None, []))

  function On(s: State, c: string): Cluster {
    if c in s.clusters then s.clusters[c] else NEW_CLUSTER
  }

  function With(s: State, c: string, k: Cluster): State {
    s.(clusters := s.clusters[c := k])
  }

  // ----------------------------------------------------- steps of a cluster's check

  function Begin(k: Cluster, results: Results, enabled: bool): Cluster {
    k.(check := ConfigRead(results, enabled))
  }

  function Count(k: Cluster, issueHash: string): Cluster
    requires k.check.ConfigRead?
  {
    var cs := if k.cs.Some? then k.cs.value else NEW_CLUSTER_STATE;
    var generation := cs.checkCounter + 1;
    k.(cs := Some(cs.(checkCounter := generation)),
       check := Counted(generation, k.check.results, issueHash, k.check.enabled))
  }

  /** A cache hit restores the cached suggestions; a miss shows the baseline as Pending. */
  function Prepare(k: Cluster, config: Config, forCache: bool, forCall: bool): Cluster
    requires k.check.Counted? && k.cs.Some?
  {
    var hit := k.check.enabled && forCache && k.check.issueHash == k.cs.value.lastAICacheHash
               && k.cs.value.lastAIResult.Some?;
    var status :=
      if hit then Some(AIStatus(true, config.provider, false, "", "done"))
      else if k.check.enabled && forCall then Some(AIStatus(true, config.provider, true, "", "ai"))
      else None;
    var results := if hit then D.Reapply(k.check.results, k.cs.value.lastAIEnhancements)
                   else k.check.results;
    k.(check := Prepared(k.check.generation, results, k.check.issueHash, config.model, status))
  }

  /** The hash the program takes of this pair is only ever compared. */
  function ConfigVersion(provider: string, model: string): string {
    provider + "\0" + model
  }

  /** Versions tell providers and models apart. */
  lemma VersionsIdentifyConfigs(provider: string, model: string, provider': string, model': string)
    requires '\0' !in provider && '\0' !in provider'
    ensures ConfigVersion(provider, model) == ConfigVersion(provider', model') <==> provider == provider' && model == model'
  {
    if ConfigVersion(provider, model) == ConfigVersion(provider', model') {
      assert ConfigVersion(provider, model) == provider + ['\0'] + model;
      assert ConfigVersion(provider', model') == provider' + ['\0'] + model';
      SameCut(provider, model, provider', model', '\0');
    }
  }

  function Publish(k: Cluster, c: string, providerName: string): Cluster
    requires k.check.Prepared? && k.cs.Some?
  {
    var p := k.check;
    var version := ConfigVersion(providerName, p.model);
    Cluster(
      Some(k.cs.value.(latest := Some(HealthUpdate(D.Show(p.results), p.status)),
                       currentIssueHash := p.issueHash, aiConfigVersion := version)),
      if p.status.Some? && p.status.value.pending
      then Published(Request(c, p.generation, p.issueHash, version, p.results)) else NoCheck,
      k.history.(published := Some(p.generation), baseline := p.results, patchedWith := None,
                 posted := false))
  }

  function Offered(k: Cluster, accepted: bool): Cluster
    requires k.check.Published?
  {
    if accepted then k.(check := NoCheck, history := k.history.(accepted := Some(k.check.request)))
    else k.(check := Refused(k.check.request.generation))
  }

  /** Clears Pending and records the error, if `generation` is still the current one. */
  function Degraded(k: Cluster, generation: nat, text: string): Cluster {
    if k.cs.Some? && k.cs.value.checkCounter == generation && k.cs.value.latest.Some?
       && k.cs.value.latest.value.status.Some?
    then
      var u := k.cs.value.latest.value;
      k.(cs := Some(k.cs.value.(latest := Some(u.(status := Some(
        u.status.value.(pending := false, lastError := text, checkPhase := "done")))))))
    else k
  }

  // ---------------------------------------------------------- steps of the worker

  predicate StaleBefore(k: Cluster, r: Request) {
    || k.cs.None?
    || k.cs.value.checkCounter != r.generation
    || k.cs.value.aiConfigVersion != r.configVersion
  }

  predicate StaleAfter(k: Cluster, r: Request) {
    || StaleBefore(k, r)
    || k.cs.value.currentIssueHash != r.issueHash
    || k.cs.value.latest.None?
  }

  /** The worker stores its answer in the cache and patches the latest update. */
  function Commit(k: Cluster, w: Worker): Cluster
    requires w.Answered? && !StaleAfter(k, w.req)
  {
    k.(cs := Some(k.cs.value.(
         lastAICacheHash := w.req.issueHash, lastAIResult := Some(w.status),
         lastAIEnhancements := w.cache,
         latest := Some(HealthUpdate(D.Patch(k.cs.value.latest.value.results, w.enriched),
                                     Some(w.status))))),
       history := k.history.(committed := Some(w.req.generation), patchedWith := Some(w.enriched)))
  }

  // ------------------------------------------------------------- other requests

  function Reset(k: Cluster, config: Config): Cluster {
    if k.cs.None? then k
    else k.(
           cs := Some(k.cs.value.(
             lastAICacheHash := "", lastAIResult := None, lastAIEnhancements := map[],
             latest := if k.cs.value.latest.None? then None
                       else Some(k.cs.value.latest.value.(status :=
                              Some(AIStatus(config.enabled, config.provider, true, "", "")))))),
           history := k.history.(posted := true))
  }

  function WithPhase(k: Cluster, phase: string): Cluster {
    if k.cs.None? || k.cs.value.latest.None? then k
    else
      var u := k.cs.value.latest.value;
      k.(cs := Some(k.cs.value.(latest := Some(u.(status := Some(
        if u.status.Some? then u.status.value.(checkPhase := phase)
        else AIStatus(false, "", false, "", phase)))))))
  }

  // ------------------------------------------------------------------- the actions

  ghost predicate Step(s: State, a: Action, s': State) {
    match a
    case BeginCheck(c, results) =>
      On(s, c).check.NoCheck? && s' == With(s, c, Begin(On(s, c), results, s.config.enabled))
    case CountCheck(c, issueHash) =>
      On(s, c).check.ConfigRead? && s' == With(s, c, Count(On(s, c), issueHash))
    case PrepareCheck(c, forCache, forCall) =>
      && On(s, c).check.Counted? && On(s, c).cs.Some?
      && s' == With(s, c, Prepare(On(s, c), s.config, forCache, forCall))
    case PublishCheck(c, providerName) =>
      && On(s, c).check.Prepared? && On(s, c).cs.Some?
      && s' == With(s, c, Publish(On(s, c), c, providerName))
    case OfferRequest(c, accepted) =>
      && On(s, c).check.Published?
      && Enqueued(s.queue, On(s, c).check.request, accepted, s'.queue)
      && s' == With(s, c, Offered(On(s, c), accepted)).(queue := s'.queue)
    case DegradeRefused(c) =>
      && On(s, c).check.Refused?
      && s' == With(s, c, Degraded(On(s, c), On(s, c).check.generation, "enrichment queue full")
                            .(check := NoCheck))
    case FetchRequest =>
      && s.worker.Idle? && Received(s.queue, s'.queue)
      && var r := s.queue.ch[0];
         var k := On(s, r.clusterID);
         s' == With(s, r.clusterID, k.(history := k.history.(taken := k.history.taken + [r])))
                 .(queue := s'.queue, worker := Fetched(r))
    case PreFlight =>
      && s.worker.Fetched?
      && var r := s.worker.req;
         s' == s.(worker := if StaleBefore(On(s, r.clusterID), r) then Finished(r) else Calling(r))
    case AIReply(status, enriched, useful) =>
      && s.worker.Calling? && !status.pending
      && AIVersionOfResults(s.worker.req.results, enriched)
      && (!useful ==> enriched == s.worker.req.results)
      && s' == s.(worker := Answered(s.worker.req, status, enriched,
                                     if useful then D.Snapshot(enriched) else map[]))
    case AIError(text) =>
      s.worker.Calling? && s' == s.(worker := Errored(s.worker.req, text))
    case PostFlight =>
      && s.worker.Answered?
      && var r := s.worker.req;
         s' == (if StaleAfter(On(s, r.clusterID), r) then s
                else With(s, r.clusterID, Commit(On(s, r.clusterID), s.worker)))
               .(worker := Finished(r))
    case DegradeErrored =>
      && s.worker.Errored?
      && var r := s.worker.req;
         s' == With(s, r.clusterID, Degraded(On(s, r.clusterID), r.generation, s.worker.text))
                 .(worker := Finished(r))
    case FinishRequest =>
      && s.worker.Finished? && MarkedDone(s.queue, s'.queue)
      && s' == s.(queue := s'.queue, worker := Idle)
    case PostSettings(config) =>
      s' == s.(config := config, clusters := map c | c in s.clusters :: Reset(s.clusters[c], config))
    case BroadcastPhase(c, phase) =>
      s' == With(s, c, WithPhase(On(s, c), phase))
  }

  ghost predicate Init(s: State) {
    s.clusters == map[] && s.worker.Idle? && Valid(s.queue) && s.queue.inflight == {}
  }

  /** A finite run: its states and the actions between them. */
  ghost predicate Run(states: seq<State>, actions: seq<Action>) {
    && |states| == |actions| + 1
    && Init(states[0])
    && forall i | 0 <= i < |actions| :: Step(states[i], actions[i], states[i + 1])
  }
}
