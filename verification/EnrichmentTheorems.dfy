/** What the enrichment protocol guarantees over whole runs. */
module EnrichmentTheorems {
  import opened CheckerTypes
  import opened EnrichmentQueue
  import opened EnrichmentProtocol
  import opened EnrichmentInvariants
  import D = DashboardResults

  lemma {:induction false} RunKeepsInv(states: seq<State>, actions: seq<Action>, i: nat)
    requires Run(states, actions) && i < |states|
    ensures Inv(states[i])
  {
    if i == 0 {
      InitKeepsInv(states[0]);
    } else {
      RunKeepsInv(states, actions, i - 1);
      StepKeepsInv(states[i - 1], actions[i - 1], states[i]);
    }
  }

  // ---------------------------------------------------------------- settling

  ghost predicate Quiescent(s: State) {
    (forall c :: On(s, c).check.NoCheck?) && s.queue.inflight == {}
  }

  lemma QuiescentPart(s: State, c: string)
    requires Inv(s) && Quiescent(s)
    ensures s.queue.pending == map[]
    ensures ShownPending(On(s, c)) ==> On(s, c).history.posted
    ensures On(s, c).history.accepted.Some? ==>
              var taken := On(s, c).history.taken;
              taken != [] && taken[|taken| - 1] == On(s, c).history.accepted.value
  {
    IdleQueueHasNoPending(s.queue);
    var v := Part(s, c);
    assert PartInv(v, c);
    assert v.worker.Idle? && forall r :: !Queued(v, r);
    assert forall r :: !Outstanding(v, r);
    var taken, newest := v.k.history.taken, v.k.history.accepted;
    if newest.Some? {
      assert newest.value in taken;
      assert Located(v, taken[|taken| - 1]);
    }
  }

  /** In every run, whenever no check is running and nothing is in flight: the pending
      map is empty, the newest accepted request of every cluster was processed last, and
      a cluster still marked Pending had a settings POST after its baseline. */
  lemma QuiescentRunsAreSettled(states: seq<State>, actions: seq<Action>, i: nat, c: string)
    requires Run(states, actions) && i < |states| && Quiescent(states[i])
    ensures states[i].queue.pending == map[]
    ensures ShownPending(On(states[i], c)) ==> On(states[i], c).history.posted
    ensures On(states[i], c).history.accepted.Some? ==>
              var taken := On(states[i], c).history.taken;
              taken != [] && taken[|taken| - 1] == On(states[i], c).history.accepted.value
  {
    RunKeepsInv(states, actions, i);
    QuiescentPart(states[i], c);
  }

  // ------------------------------------------------------------- commits

  /** A commit patches the untouched baseline of its own generation, and what it then
      shows is what building the dashboard from the enriched results would show. */
  lemma CommitPatchesOwnBaseline(states: seq<State>, actions: seq<Action>, i: nat)
    requires Run(states, actions) && i < |actions| && actions[i].PostFlight?
    requires states[i].worker.Answered?
    requires var r := states[i].worker.req; !StaleAfter(On(states[i], r.clusterID), r)
    ensures var w := states[i].worker;
            var k, k' := On(states[i], w.req.clusterID), On(states[i + 1], w.req.clusterID);
            && k.history.published == Some(w.req.generation)
            && k.history.baseline == w.req.results
            && k.cs.value.latest.value.results == D.Show(w.req.results)
            && AIVersionOfResults(w.req.results, w.enriched)
            && k'.cs.value.latest.Some?
            && D.SameDisplay(k'.cs.value.latest.value.results, D.Show(w.enriched))
  {
    RunKeepsInv(states, actions, i);
    var w := states[i].worker;
    var v := Part(states[i], w.req.clusterID);
    assert Step(states[i], actions[i], states[i + 1]);
    assert PartInv(v, w.req.clusterID);
    assert Outstanding(v, w.req) && Located(v, w.req);
    assert Current(v.k, w.req);
    D.PatchRouteMatches(w.req.results, w.enriched);
  }

  /** At every moment each cluster shows its latest baseline, or that baseline as
      enhanced by the answer to that baseline's own request. */
  lemma ShownIsOwnBaselineOrItsEnrichment(states: seq<State>, actions: seq<Action>, i: nat, c: string)
    requires Run(states, actions) && i < |states|
    requires On(states[i], c).cs.Some? && On(states[i], c).cs.value.latest.Some?
    ensures var k := On(states[i], c);
            || k.cs.value.latest.value.results == D.Show(k.history.baseline)
            || exists enhanced: Results ::
                 && AIVersionOfResults(k.history.baseline, enhanced)
                 && D.SameDisplay(k.cs.value.latest.value.results, D.Show(enhanced))
  {
    RunKeepsInv(states, actions, i);
    var k := On(states[i], c);
    assert PartInv(Part(states[i], c), c);
    if k.history.patchedWith.Some? {
      D.PatchRouteMatches(k.history.baseline, k.history.patchedWith.value);
    }
  }

  ghost predicate AtMost(a: Option<nat>, b: Option<nat>) {
    a.Some? ==> b.Some? && a.value <= b.value
  }

  lemma CommittedStep(s: State, a: Action, s': State, c: string)
    requires Inv(s) && Step(s, a, s')
    ensures AtMost(On(s, c).history.committed, On(s', c).history.committed)
  {
    if a.PostFlight? {
      var r := s.worker.req;
      assert PartInv(Part(s, r.clusterID), r.clusterID);
      assert Located(Part(s, r.clusterID), r);
    }
  }

  lemma CommittedRunStep(states: seq<State>, actions: seq<Action>, i: nat, c: string)
    requires Run(states, actions) && i < |actions|
    ensures AtMost(On(states[i], c).history.committed, On(states[i + 1], c).history.committed)
  {
    RunKeepsInv(states, actions, i);
    CommittedStep(states[i], actions[i], states[i + 1], c);
  }

  /** The committed generation of a cluster never decreases. */
  lemma {:induction false} CommittedNeverDecreases(states: seq<State>, actions: seq<Action>, i: nat, j: nat, c: string)
    requires Run(states, actions) && i <= j < |states|
    ensures AtMost(On(states[i], c).history.committed, On(states[j], c).history.committed)
  {
    var committed := seq(|states|, k requires 0 <= k < |states| => On(states[k], c).history.committed);
    forall k | 0 <= k < |actions| ensures AtMost(committed[k], committed[k + 1]) {
      CommittedRunStep(states, actions, k, c);
    }
    AtMostChain(committed, i, j);
  }

  lemma {:induction false} AtMostChain(gs: seq<Option<nat>>, i: nat, j: nat)
    requires i <= j < |gs| && forall k :: 0 <= k < |gs| - 1 ==> AtMost(gs[k], gs[k + 1])
    ensures AtMost(gs[i], gs[j])
  {
    if i < j {
      AtMostChain(gs, i, j - 1);
      assert AtMost(gs[j - 1], gs[j - 1 + 1]);
    }
  }

  /** A settings POST does not make a running enrichment stale. */
  lemma PostDoesNotInvalidate(k: Cluster, config: Config, r: Request)
    ensures StaleAfter(Reset(k, config), r) <==> StaleAfter(k, r)
  {
  }

  // ---------------------------------------------------------- order of processing

  /** In every reachable state: one request per cluster in channel plus worker, exactly
      the clusters in flight; the pending request is newer than the one in the channel
      and than everything received; requests are received in increasing order. */
  lemma RequestsAreProcessedInOrder(states: seq<State>, actions: seq<Action>, i: nat, c: string)
    requires Run(states, actions) && i < |states|
    ensures var s := states[i];
            var taken := On(s, c).history.taken;
            && DistinctClusters(Held(s.queue)) && s.queue.inflight == Clusters(Held(s.queue))
            && NewestPending(s.queue)
            && Increasing(taken)
            && (c in s.queue.pending ==>
                  && On(s, c).history.accepted == Some(s.queue.pending[c])
                  && forall t | t in taken :: t.generation < s.queue.pending[c].generation)
            && (!s.worker.Idle? && s.worker.req.clusterID == c ==>
                  taken != [] && taken[|taken| - 1] == s.worker.req)
  {
    RunKeepsInv(states, actions, i);
    var s := states[i];
    PartsAreNewestPending(s);
    var v := Part(s, c);
    assert PartInv(v, c);
    if c in s.queue.pending {
      var p := s.queue.pending[c];
      assert Queued(v, p) && Located(v, p);
      var newest := v.k.history.accepted.value;
      assert Located(v, newest);
    }
  }

  // ------------------------------------------------------------------- draining

  ghost predicate WorkerAction(a: Action) {
    || a.FetchRequest? || a.PreFlight? || a.AIReply? || a.AIError? || a.PostFlight?
    || a.DegradeErrored? || a.FinishRequest?
  }

  ghost function WorkerRank(w: Worker): nat {
    match w
    case Idle => 0
    case Finished(_) => 1
    case Errored(_, _) => 2
    case Answered(_, _, _, _) => 2
    case Calling(_) => 3
    case Fetched(_) => 4
  }

  /** Bound on the worker's remaining steps. */
  ghost function Work(s: State): nat {
    5 * (|s.queue.ch| + |s.queue.pending|) + WorkerRank(s.worker)
  }

  lemma PromotedCount(q: QueueState, q': QueueState)
    requires Promoted(q, q')
    ensures |q'.ch| + |q'.pending| == |q.ch| + |q.pending|
  {
    var moved := q'.ch[|q.ch|..];
    DistinctClustersCount(moved);
    assert q'.pending.Keys == q.pending.Keys - Clusters(moved);
    assert Clusters(moved) <= q.pending.Keys;
  }

  /** Every worker step reduces the remaining work by at least one. */
  lemma WorkerStepsAreBounded(s: State, a: Action, s': State)
    requires Step(s, a, s') && WorkerAction(a)
    ensures Work(s') < Work(s)
  {
    if a.FinishRequest? {
      FinishedCount(s, a, s');
    } else {
      HandledCount(s, a, s');
    }
  }

  lemma FinishedCount(s: State, a: Action, s': State)
    requires Step(s, a, s') && a.FinishRequest?
    ensures |s'.queue.ch| + |s'.queue.pending| == |s.queue.ch| + |s.queue.pending|
    ensures s.worker.Finished? && s'.worker.Idle?
  {
    var c := s.queue.working.value.clusterID;
    PromotedCount(s.queue.(working := None, inflight := s.queue.inflight - {c}), s'.queue);
  }

  lemma HandledCount(s: State, a: Action, s': State)
    requires Step(s, a, s') && WorkerAction(a) && !a.FinishRequest?
    ensures a.FetchRequest? ==> |s'.queue.ch| == |s.queue.ch| - 1 && s'.queue.pending == s.queue.pending
    ensures !a.FetchRequest? ==> s'.queue == s.queue
    ensures a.FetchRequest? ==> WorkerRank(s'.worker) == 4
    ensures !a.FetchRequest? ==> WorkerRank(s'.worker) < WorkerRank(s.worker)
  {
  }

  /** Left alone, the worker stops after at most `Work` steps; by `WorkerNeverStuck`
      nothing is in flight then. */
  lemma {:induction false} WorkerRunsAreBounded(states: seq<State>, actions: seq<Action>)
    requires |states| == |actions| + 1
    requires forall i | 0 <= i < |actions| ::
               WorkerAction(actions[i]) && Step(states[i], actions[i], states[i + 1])
    ensures |actions| + Work(states[|actions|]) <= Work(states[0])
  {
    if actions != [] {
      var n := |actions| - 1;
      WorkerRunsAreBounded(states[..n + 1], actions[..n]);
      WorkerStepsAreBounded(states[n], actions[n], states[n + 1]);
    }
  }

  /** A dispatch always has an outcome. */
  lemma {:induction false} DispatchExists(q: QueueState) returns (q': QueueState)
    requires |q.ch| <= q.capacity
    requires forall c | c in q.pending :: q.pending[c].clusterID == c
    ensures Dispatched(q, q')
    decreases |q.pending|
  {
    if c :| Waiting(q, c) && |q.ch| < q.capacity {
      var mid := PromoteExists(q, c);
      q' := DispatchExists(mid);
      PromotedTransitive(q, mid, q');
    } else {
      q' := q;
      assert q.ch[|q.ch|..] == [];
      assert q.pending - {} == q.pending;
    }
  }

  lemma PromoteExists(q: QueueState, c: string) returns (mid: QueueState)
    requires Waiting(q, c) && |q.ch| < q.capacity
    requires forall c | c in q.pending :: q.pending[c].clusterID == c
    ensures Promoted(q, mid) && |mid.pending| < |q.pending|
    ensures |mid.ch| <= mid.capacity == q.capacity
    ensures forall c | c in mid.pending :: mid.pending[c].clusterID == c
  {
    mid := q.(ch := q.ch + [q.pending[c]], pending := q.pending - {c}, inflight := q.inflight + {c});
    assert mid.ch[|q.ch|..] == [q.pending[c]];
    assert Clusters([q.pending[c]]) == {c};
    assert q.pending.Keys == mid.pending.Keys + {c};
  }

  lemma PromotedTransitive(q: QueueState, mid: QueueState, q': QueueState)
    requires Promoted(q, mid) && Promoted(mid, q')
    ensures Promoted(q, q')
  {
    var first, second := mid.ch[|q.ch|..], q'.ch[|mid.ch|..];
    var all := q'.ch[|q.ch|..];
    assert all == first + second;
    assert Clusters(all) == Clusters(first) + Clusters(second);
    assert q'.pending == q.pending - Clusters(all);
  }

  /** While anything is in flight the worker can move: the protocol cannot get stuck. */
  lemma WorkerNeverStuck(s: State)
    requires Inv(s) && s.queue.inflight != {}
    ensures exists a, s' :: WorkerAction(a) && Step(s, a, s')
  {
    match s.worker
    case Idle =>
      assert s.queue.ch != [];
      var r := s.queue.ch[0];
      var k := On(s, r.clusterID);
      var q' := s.queue.(ch := s.queue.ch[1..], working := Some(r));
      var s' := With(s, r.clusterID, k.(history := k.history.(taken := k.history.taken + [r])))
                  .(queue := q', worker := Fetched(r));
      assert Step(s, FetchRequest, s');
    case Fetched(r) => FetchedCanMove(s);
    case Calling(r) => FetchedCanMove(s);
    case Answered(_, _, _, _) => AnsweredCanMove(s);
    case Errored(_, _) => AnsweredCanMove(s);
    case Finished(r) =>
      var freed := s.queue.(working := None, inflight := s.queue.inflight - {r.clusterID});
      var q' := DispatchExists(freed);
      assert MarkedDone(s.queue, q');
      assert Step(s, FinishRequest, s.(queue := q', worker := Idle));
  }

  lemma FetchedCanMove(s: State)
    requires s.worker.Fetched? || s.worker.Calling?
    ensures exists a, s' :: WorkerAction(a) && Step(s, a, s')
  {
    match s.worker
    case Fetched(r) =>
      var s' := s.(worker := if StaleBefore(On(s, r.clusterID), r) then Finished(r) else Calling(r));
      assert Step(s, PreFlight, s');
    case Calling(r) =>
      assert Step(s, AIError(""), s.(worker := Errored(r, "")));
  }

  lemma AnsweredCanMove(s: State)
    requires s.worker.Answered? || s.worker.Errored?
    ensures exists a, s' :: WorkerAction(a) && Step(s, a, s')
  {
    match s.worker
    case Answered(r, _, _, _) =>
      var s' := (if StaleAfter(On(s, r.clusterID), r) then s
                 else With(s, r.clusterID, Commit(On(s, r.clusterID), s.worker))).(worker := Finished(r));
      assert Step(s, PostFlight, s');
    case Errored(r, text) =>
      var s' := With(s, r.clusterID, Degraded(On(s, r.clusterID), r.generation, text)).(worker := Finished(r));
      assert Step(s, DegradeErrored, s');
  }
}
