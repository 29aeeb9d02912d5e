/** What every step of the enrichment protocol keeps, and what follows for whole runs.
    The invariant is stated per cluster, on the part of the state that concerns it. */
module EnrichmentInvariants {
  import opened CheckerTypes
  import opened EnrichmentQueue
  import opened EnrichmentProtocol
  import D = DashboardResults

  // ------------------------------------------------------------ one cluster's part

  /** A cluster with its requests in the channel, its pending request and the worker
      if the worker is busy with it. */
  datatype View = View(k: Cluster, channel: set<Request>, pending: Option<Request>, worker: Worker)

  ghost function InChannel(q: QueueState, c: string): set<Request> {
    set r | r in q.ch && r.clusterID == c
  }

  ghost function PendingOf(q: QueueState, c: string): Option<Request> {
    if c in q.pending then Some(q.pending[c]) else None
  }

  ghost function Part(s: State, c: string): View {
    View(On(s, c), InChannel(s.queue, c), PendingOf(s.queue, c),
         if !s.worker.Idle? && s.worker.req.clusterID == c then s.worker else Idle)
  }

  // ---------------------------------------------------------------- the invariant

  ghost predicate Unpublished(k: Cluster) {
    k.check.Counted? || k.check.Prepared?
  }

  /** `r` belongs to the baseline that is published now. */
  ghost predicate Current(k: Cluster, r: Request) {
    && k.cs.Some? && k.history.published == Some(r.generation) && k.history.baseline == r.results
    && r.issueHash == k.cs.value.currentIssueHash && r.configVersion == k.cs.value.aiConfigVersion
  }

  ghost predicate GenerationsAgree(k: Cluster) {
    var h := k.history;
    && (h.published.Some? ==> k.cs.Some?)
    && (k.cs.Some? ==> (k.cs.value.latest.Some? <==> h.published.Some?))
    && (k.cs.Some? && !Unpublished(k) ==> h.published == Some(k.cs.value.checkCounter))
    && (Unpublished(k) ==>
          && k.cs.Some? && k.check.generation == k.cs.value.checkCounter
          && (h.published.Some? ==> h.published.value < k.check.generation))
    && (k.check.Published? ==> Current(k, k.check.request))
    && (k.check.Refused? ==> k.cs.Some? && k.check.generation == k.cs.value.checkCounter)
  }

  ghost predicate Queued(v: View, r: Request) {
    r in v.channel || v.pending == Some(r)
  }

  ghost predicate Located(v: View, r: Request) {
    Queued(v, r) || r in v.k.history.taken
  }

  /** Queued, or with the worker and not decided yet. */
  ghost predicate Outstanding(v: View, r: Request) {
    Queued(v, r) || (!v.worker.Idle? && !v.worker.Finished? && v.worker.req == r)
  }

  /** A request of the published generation is the current one; all others are older. */
  ghost predicate RequestsMatchBaseline(v: View, c: string) {
    && (forall r | Located(v, r) ::
          && r.clusterID == c && v.k.history.published.Some?
          && (Current(v.k, r) || r.generation < v.k.history.published.value))
    && (v.k.check.Published? ==> v.k.check.request.clusterID == c)
    && (!v.worker.Idle? ==>
          v.k.history.taken != [] && v.k.history.taken[|v.k.history.taken| - 1] == v.worker.req)
  }

  ghost predicate Increasing(rs: seq<Request>) {
    forall i, j | 0 <= i < j < |rs| :: rs[i].generation < rs[j].generation
  }

  ghost predicate Ordered(v: View) {
    && Increasing(v.k.history.taken)
    && (forall r | r in v.channel && v.pending.Some? :: r.generation < v.pending.value.generation)
    && (forall r, t | Queued(v, r) && t in v.k.history.taken :: t.generation < r.generation)
    && (v.k.check.Published? ==>
          forall r | Located(v, r) :: r.generation < v.k.check.request.generation)
  }

  /** The newest accepted request is queued or was received by the worker. */
  ghost predicate NewestIsKept(v: View) {
    var newest := v.k.history.accepted;
    && (newest.Some? ==> Located(v, newest.value))
    && (forall r | Located(v, r) :: newest.Some? && r.generation <= newest.value.generation)
  }

  /** What is shown is the baseline, or the baseline patched with its own enrichment. */
  ghost predicate LatestIsOwnBaseline(v: View) {
    var k, h := v.k, v.k.history;
    && (k.cs.Some? && k.cs.value.latest.Some? ==>
          k.cs.value.latest.value.results ==
            if h.patchedWith.Some? then D.Patch(D.Show(h.baseline), h.patchedWith.value)
            else D.Show(h.baseline))
    && (h.patchedWith.Some? ==>
          && AIVersionOfResults(h.baseline, h.patchedWith.value)
          && h.published.Some? && h.committed == h.published
          && (forall r | Outstanding(v, r) :: r.generation != h.published.value)
          && !k.check.Published?)
    && (h.committed.Some? ==> h.published.Some? && h.committed.value <= h.published.value)
    && (v.worker.Answered? ==>
          !v.worker.status.pending && AIVersionOfResults(v.worker.req.results, v.worker.enriched))
  }

  ghost predicate ShownPending(k: Cluster) {
    && k.cs.Some? && k.cs.value.latest.Some? && k.cs.value.latest.value.status.Some?
    && k.cs.value.latest.value.status.value.pending
  }

  /** A check is at work between counting and its offer, or the current request is queued
      or with the worker: the mark will be cleared or set anew. */
  ghost predicate OnTheWay(v: View) {
    || !(v.k.check.NoCheck? || v.k.check.ConfigRead?)
    || exists r :: Outstanding(v, r) && Current(v.k, r)
  }

  /** A Pending mark has a cause: a settings POST, or something on the way. */
  ghost predicate PendingHasCause(v: View) {
    ShownPending(v.k) && !v.k.history.posted ==> OnTheWay(v)
  }

  ghost predicate PartInv(v: View, c: string) {
    && GenerationsAgree(v.k) && RequestsMatchBaseline(v, c) && Ordered(v) && NewestIsKept(v)
    && LatestIsOwnBaseline(v) && PendingHasCause(v)
  }

  ghost predicate WorkerHoldsItsRequest(s: State) {
    && Valid(s.queue)
    && s.queue.working == (if s.worker.Idle? then None else Some(s.worker.req))
  }

  ghost predicate Inv(s: State) {
    && WorkerHoldsItsRequest(s)
    && forall c :: PartInv(Part(s, c), c)
  }

  // ------------------------------------------- every step keeps it, on one cluster

  lemma BeginKeeps(v: View, c: string, results: Results, enabled: bool)
    requires PartInv(v, c) && v.k.check.NoCheck?
    ensures PartInv(v.(k := Begin(v.k, results, enabled)), c)
  {
  }

  lemma CountKeeps(v: View, c: string, issueHash: string)
    requires PartInv(v, c) && v.k.check.ConfigRead?
    ensures PartInv(v.(k := Count(v.k, issueHash)), c)
  {
  }

  lemma PrepareKeeps(v: View, c: string, config: Config, forCache: bool, forCall: bool)
    requires PartInv(v, c) && v.k.check.Counted? && v.k.cs.Some?
    ensures PartInv(v.(k := Prepare(v.k, config, forCache, forCall)), c)
  {
  }

  lemma PublishKeeps(v: View, c: string, providerName: string)
    requires PartInv(v, c) && v.k.check.Prepared? && v.k.cs.Some?
    ensures PartInv(v.(k := Publish(v.k, c, providerName)), c)
  {
  }

  lemma DegradeRefusedKeeps(v: View, c: string, text: string)
    requires PartInv(v, c) && v.k.check.Refused?
    ensures PartInv(v.(k := Degraded(v.k, v.k.check.generation, text).(check := NoCheck)), c)
  {
  }

  lemma PreFlightKeeps(v: View, c: string)
    requires PartInv(v, c) && v.worker.Fetched?
    ensures PartInv(v.(worker := if StaleBefore(v.k, v.worker.req) then Finished(v.worker.req)
                                 else Calling(v.worker.req)), c)
  {
  }

  lemma CommitKeeps(v: View, c: string)
    requires PartInv(v, c) && v.worker.Answered?
    ensures PartInv(v.(k := if StaleAfter(v.k, v.worker.req) then v.k else Commit(v.k, v.worker),
                       worker := Finished(v.worker.req)), c)
  {
    var v' := v.(k := if StaleAfter(v.k, v.worker.req) then v.k else Commit(v.k, v.worker),
                 worker := Finished(v.worker.req));
    SameRequestsStayOrdered(v, v', c);
    CommitKeepsCause(v, v', c);
    assert LatestIsOwnBaseline(v') by {
      assert forall r :: Outstanding(v', r) ==> Outstanding(v, r);
    }
  }

  // A commit clears the mark; a result that is dropped was not for the current request.
  lemma CommitKeepsCause(v: View, v': View, c: string)
    requires PartInv(v, c) && v.worker.Answered?
    requires v' == v.(k := if StaleAfter(v.k, v.worker.req) then v.k else Commit(v.k, v.worker),
                      worker := Finished(v.worker.req))
    ensures PendingHasCause(v')
  {
  }

  lemma DegradeErroredKeeps(v: View, c: string)
    requires PartInv(v, c) && v.worker.Errored?
    ensures PartInv(v.(k := Degraded(v.k, v.worker.req.generation, v.worker.text),
                       worker := Finished(v.worker.req)), c)
  {
    var v' := v.(k := Degraded(v.k, v.worker.req.generation, v.worker.text), worker := Finished(v.worker.req));
    SameRequestsStayOrdered(v, v', c);
    assert forall r :: Located(v', r) <==> Located(v, r);
    assert forall r :: Outstanding(v', r) ==> Outstanding(v, r);
    assert PendingHasCause(v') by {
      DegradedKeepsCause(v, v');
    }
  }

  // Nothing about requests changes.
  lemma SameRequestsStayOrdered(v: View, v': View, c: string)
    requires RequestsMatchBaseline(v, c) && Ordered(v) && NewestIsKept(v)
    requires v'.channel == v.channel && v'.pending == v.pending
    requires v'.k.history == v.k.history.(committed := v'.k.history.committed, patchedWith := v'.k.history.patchedWith)
    requires v'.k.check == v.k.check && (!v'.worker.Idle? ==> !v.worker.Idle? && v'.worker.req == v.worker.req)
    requires forall r | Located(v, r) :: Current(v.k, r) ==> Current(v'.k, r)
    ensures RequestsMatchBaseline(v', c) && Ordered(v') && NewestIsKept(v')
  {
    assert forall r :: Located(v', r) <==> Located(v, r);
    assert forall r :: Queued(v', r) <==> Queued(v, r);
  }

  lemma DegradedKeepsCause(v: View, v': View)
    requires PendingHasCause(v) && v.worker.Errored?
    requires GenerationsAgree(v.k) && v'.k == Degraded(v.k, v.worker.req.generation, v.worker.text)
    requires v' == v.(k := v'.k, worker := Finished(v.worker.req))
    ensures PendingHasCause(v')
  {
    if ShownPending(v'.k) && !v'.k.history.posted && (v'.k.check.NoCheck? || v'.k.check.ConfigRead?) {
      assert ShownPending(v.k);
      var r :| Outstanding(v, r) && Current(v.k, r);
      assert Current(v'.k, r);
      assert Outstanding(v', r);
    }
  }

  lemma ResetKeeps(v: View, c: string, config: Config)
    requires PartInv(v, c)
    ensures PartInv(v.(k := Reset(v.k, config)), c)
  {
  }

  lemma PhaseKeeps(v: View, c: string, phase: string)
    requires PartInv(v, c)
    ensures PartInv(v.(k := WithPhase(v.k, phase)), c)
  {
  }

  lemma ReplyKeeps(v: View, c: string, worker: Worker)
    requires PartInv(v, c) && v.worker.Calling?
    requires worker.Errored? || (worker.Answered? && !worker.status.pending
                                 && AIVersionOfResults(worker.req.results, worker.enriched))
    requires worker.req == v.worker.req
    ensures PartInv(v.(worker := worker), c)
  {
  }

  lemma FetchKeeps(v: View, c: string, r: Request)
    requires PartInv(v, c) && v.worker.Idle? && r in v.channel
    requires forall q | q in v.channel :: q == r
    ensures PartInv(v.(k := v.k.(history := v.k.history.(taken := v.k.history.taken + [r])),
                       channel := {}, worker := Fetched(r)), c)
  {
    var taken := v.k.history.taken + [r];
    var v' := v.(k := v.k.(history := v.k.history.(taken := taken)), channel := {}, worker := Fetched(r));
    assert Queued(v, r);
    assert forall q :: Outstanding(v, q) ==> Outstanding(v', q);
    assert forall q :: Located(v', q) <==> Located(v, q);
    FetchedStaysOrdered(v, r, v');
  }

  lemma FetchedStaysOrdered(v: View, r: Request, v': View)
    requires Ordered(v) && v.worker.Idle? && r in v.channel && forall q | q in v.channel :: q == r
    requires v' == v.(k := v.k.(history := v.k.history.(taken := v.k.history.taken + [r])),
                      channel := {}, worker := Fetched(r))
    ensures Ordered(v')
  {
    assert Queued(v, r);
    assert forall q :: Located(v', q) <==> Located(v, q);
  }

  /** A refused request leaves the queue alone. */
  lemma RefusedKeeps(v: View, c: string)
    requires PartInv(v, c) && v.k.check.Published?
    ensures PartInv(v.(k := Offered(v.k, false)), c)
  {
  }

  lemma AcceptedKeeps(v: View, c: string, v': View)
    requires PartInv(v, c) && v.k.check.Published?
    requires v' == v.(k := Offered(v.k, true), channel := v'.channel, pending := v'.pending)
    requires Queued(v', v.k.check.request)
    requires forall r | Queued(v', r) :: Queued(v, r) || r == v.k.check.request
    requires v.channel <= v'.channel
    requires forall r | r in v'.channel && v'.pending.Some? :: r.generation < v'.pending.value.generation
    ensures PartInv(v', c)
  {
    assert Located(v', v.k.check.request);
  }

  /** Moving requests between `pending` and the channel keeps the invariant. */
  lemma MovedKeeps(v: View, c: string, v': View)
    requires PartInv(v, c)
    requires v' == v.(channel := v'.channel, pending := v'.pending, worker := v'.worker)
    requires v'.worker == v.worker || (v.worker.Finished? && v'.worker.Idle?)
    requires forall r :: Queued(v', r) <==> Queued(v, r)
    requires forall r | r in v'.channel && v'.pending.Some? :: r.generation < v'.pending.value.generation
    ensures PartInv(v', c)
  {
    assert forall r :: Outstanding(v', r) <==> Outstanding(v, r);
    assert forall r :: Located(v', r) <==> Located(v, r);
  }

  // -------------------------------------------- every step keeps it, on the whole state

  lemma InitKeepsInv(s: State)
    requires Init(s)
    ensures Inv(s)
  {
    IdleQueueHasNoPending(s.queue);
    assert forall c :: InChannel(s.queue, c) == {};
  }

  lemma QueuedIsInQueue(s: State, c: string, r: Request)
    requires Consistent(s.queue)
    ensures Queued(Part(s, c), r) <==> InQueue(s.queue, r) && r.clusterID == c
  {
  }

  lemma PartsAreNewestPending(s: State)
    requires Inv(s)
    ensures NewestPending(s.queue)
  {
    forall r | r in s.queue.ch && r.clusterID in s.queue.pending
      ensures r.generation < s.queue.pending[r.clusterID].generation
    {
      assert PartInv(Part(s, r.clusterID), r.clusterID);
      assert r in Part(s, r.clusterID).channel;
    }
  }

  ghost predicate CheckAction(a: Action) {
    || a.BeginCheck? || a.CountCheck? || a.PrepareCheck? || a.PublishCheck? || a.DegradeRefused?
    || a.BroadcastPhase?
  }

  // What a step of a check makes of its cluster.
  ghost function Checked(s: State, a: Action): Cluster
    requires CheckAction(a)
  {
    var k := On(s, a.c);
    match a
    case BeginCheck(_, results) => Begin(k, results, s.config.enabled)
    case CountCheck(_, issueHash) => if k.check.ConfigRead? then Count(k, issueHash) else k
    case PrepareCheck(_, forCache, forCall) =>
      if k.check.Counted? && k.cs.Some? then Prepare(k, s.config, forCache, forCall) else k
    case PublishCheck(c, providerName) => if k.check.Prepared? && k.cs.Some? then Publish(k, c, providerName) else k
    case DegradeRefused(_) =>
      if k.check.Refused? then Degraded(k, k.check.generation, "enrichment queue full").(check := NoCheck) else k
    case BroadcastPhase(_, phase) => WithPhase(k, phase)
  }

  lemma CheckedKeeps(s: State, a: Action, s': State)
    requires CheckAction(a) && PartInv(Part(s, a.c), a.c) && Step(s, a, s')
    ensures PartInv(Part(s, a.c).(k := Checked(s, a)), a.c)
  {
    var v := Part(s, a.c);
    match a
    case BeginCheck(c, results) => BeginKeeps(v, c, results, s.config.enabled);
    case CountCheck(c, issueHash) => CountKeeps(v, c, issueHash);
    case PrepareCheck(c, forCache, forCall) => PrepareKeeps(v, c, s.config, forCache, forCall);
    case PublishCheck(c, providerName) => PublishKeeps(v, c, providerName);
    case DegradeRefused(c) => DegradeRefusedKeeps(v, c, "enrichment queue full");
    case BroadcastPhase(c, phase) => PhaseKeeps(v, c, phase);
  }

  lemma CheckStepIsLocal(s: State, a: Action, s': State)
    requires Step(s, a, s') && CheckAction(a)
    ensures s' == With(s, a.c, Checked(s, a))
  {
  }

  lemma CheckStepKeepsInv(s: State, a: Action, s': State)
    requires Inv(s) && Step(s, a, s') && CheckAction(a)
    ensures Inv(s')
  {
    CheckStepIsLocal(s, a, s');
    forall d ensures PartInv(Part(s', d), d) {
      assert PartInv(Part(s, d), d);
      if d == a.c {
        CheckedKeeps(s, a, s');
        assert Part(s', d) == Part(s, d).(k := Checked(s, a));
      } else {
        assert Part(s', d) == Part(s, d);
      }
    }
  }

  lemma RefusedKeepsInv(s: State, a: Action, s': State)
    requires Inv(s) && Step(s, a, s') && a.OfferRequest? && !a.accepted
    ensures Inv(s')
  {
    assert s'.queue == s.queue;
    forall d ensures PartInv(Part(s', d), d) {
      assert PartInv(Part(s, d), d);
      if d == a.c {
        RefusedKeeps(Part(s, d), d);
      } else {
        assert Part(s', d) == Part(s, d);
      }
    }
  }

  lemma AcceptedQueue(s: State, a: Action, s': State)
    requires Inv(s) && Step(s, a, s') && a.OfferRequest? && a.accepted
    ensures Valid(s'.queue) && NewestPending(s'.queue)
    ensures InQueue(s'.queue, On(s, a.c).check.request)
    ensures forall r | InQueue(s'.queue, r) :: InQueue(s.queue, r) || r == On(s, a.c).check.request
    ensures forall r | InQueue(s.queue, r) :: InQueue(s'.queue, r) || r.clusterID == a.c
    ensures s.queue.ch <= s'.queue.ch && s'.queue.working == s.queue.working
    ensures On(s, a.c).check.request.clusterID == a.c
  {
    var req := On(s, a.c).check.request;
    assert PartInv(Part(s, a.c), a.c);
    EnqueueKeepsValid(s.queue, req, a.accepted, s'.queue);
    PartsAreNewestPending(s);
    forall r | r in s.queue.ch && r.clusterID == req.clusterID ensures r.generation < req.generation {
      assert Located(Part(s, a.c), r);
    }
    EnqueueConserves(s.queue, req, a.accepted, s'.queue);
  }

  lemma AcceptedKeepsInv(s: State, a: Action, s': State)
    requires Inv(s) && Step(s, a, s') && a.OfferRequest? && a.accepted
    ensures Inv(s')
  {
    AcceptedQueue(s, a, s');
    forall d ensures PartInv(Part(s', d), d) {
      var v, v' := Part(s, d), Part(s', d);
      assert PartInv(v, d);
      forall r ensures Queued(v', r) <==> InQueue(s'.queue, r) && r.clusterID == d
               ensures Queued(v, r) <==> InQueue(s.queue, r) && r.clusterID == d
      {
        QueuedIsInQueue(s, d, r);
        QueuedIsInQueue(s', d, r);
      }
      if d == a.c {
        AcceptedKeeps(v, d, v');
      } else {
        MovedKeeps(v, d, v');
      }
    }
  }

  lemma FetchedChannel(s: State, s': State, d: string)
    requires Valid(s.queue) && Received(s.queue, s'.queue)
    ensures InChannel(s.queue, d) == InChannel(s'.queue, d) + (if d == s.queue.ch[0].clusterID then {s.queue.ch[0]} else {})
    ensures d == s.queue.ch[0].clusterID ==> InChannel(s'.queue, d) == {}
  {
    var r := s.queue.ch[0];
    assert s.queue.ch == [r] + s'.queue.ch;
    if d == r.clusterID {
      OthersBehindFirst(s.queue, s'.queue);
    }
  }

  lemma OthersBehindFirst(q: QueueState, q': QueueState)
    requires Valid(q) && Received(q, q')
    ensures forall r | r in q'.ch :: r.clusterID != q.ch[0].clusterID
  {
    assert Held(q) == q.ch;
    forall r | r in q'.ch ensures r.clusterID != q.ch[0].clusterID {
      var i :| 0 <= i < |q'.ch| && q'.ch[i] == r;
      assert Held(q)[i + 1] == r;
    }
  }

  lemma FetchKeepsInv(s: State, a: Action, s': State)
    requires Inv(s) && Step(s, a, s') && a.FetchRequest?
    ensures Inv(s')
  {
    ReceiveKeepsValid(s.queue, s'.queue);
    var r := s.queue.ch[0];
    forall d ensures PartInv(Part(s', d), d) {
      assert PartInv(Part(s, d), d);
      FetchedChannel(s, s', d);
      if d == r.clusterID {
        FetchKeeps(Part(s, d), d, r);
      } else {
        assert Part(s', d) == Part(s, d);
      }
    }
  }

  ghost predicate HandlingAction(a: Action) {
    a.PreFlight? || a.AIReply? || a.AIError? || a.PostFlight? || a.DegradeErrored?
  }

  lemma HandledKeeps(s: State, a: Action, s': State, d: string)
    requires Step(s, a, s') && HandlingAction(a) && d == s.worker.req.clusterID
    requires PartInv(Part(s, d), d)
    ensures PartInv(Part(s, d).(k := On(s', d), worker := s'.worker), d)
  {
    var v := Part(s, d);
    match a
    case PreFlight => PreFlightKeeps(v, d);
    case AIReply(_, _, _) => ReplyKeeps(v, d, s'.worker);
    case AIError(_) => ReplyKeeps(v, d, s'.worker);
    case PostFlight => CommitKeeps(v, d);
    case DegradeErrored => DegradeErroredKeeps(v, d);
  }

  lemma HandlingIsLocal(s: State, a: Action, s': State)
    requires Step(s, a, s') && HandlingAction(a)
    ensures s'.queue == s.queue && !s'.worker.Idle? && s'.worker.req == s.worker.req
    ensures forall d :: d != s.worker.req.clusterID ==> On(s', d) == On(s, d)
  {
  }

  lemma WorkerStepKeepsInv(s: State, a: Action, s': State)
    requires Inv(s) && Step(s, a, s') && HandlingAction(a)
    ensures Inv(s')
  {
    HandlingIsLocal(s, a, s');
    forall d ensures PartInv(Part(s', d), d) {
      assert PartInv(Part(s, d), d);
      if d == s.worker.req.clusterID {
        HandledKeeps(s, a, s', d);
        assert Part(s', d) == Part(s, d).(k := On(s', d), worker := s'.worker);
      } else {
        assert Part(s', d) == Part(s, d);
      }
    }
  }

  lemma FinishKeepsInv(s: State, a: Action, s': State)
    requires Inv(s) && Step(s, a, s') && a.FinishRequest?
    ensures Inv(s')
  {
    PartsAreNewestPending(s);
    MarkDoneKeepsValid(s.queue, s'.queue);
    MarkDoneConserves(s.queue, s'.queue);
    forall d ensures PartInv(Part(s', d), d) {
      var v, v' := Part(s, d), Part(s', d);
      assert PartInv(v, d);
      forall r ensures Queued(v', r) <==> Queued(v, r) {
        QueuedIsInQueue(s, d, r);
        QueuedIsInQueue(s', d, r);
      }
      MovedKeeps(v, d, v');
    }
  }

  lemma SettingsKeepsInv(s: State, a: Action, s': State)
    requires Inv(s) && Step(s, a, s') && a.PostSettings?
    ensures Inv(s')
  {
    forall d ensures PartInv(Part(s', d), d) {
      assert PartInv(Part(s, d), d);
      ResetKeeps(Part(s, d), d, a.config);
      assert Part(s', d) == Part(s, d).(k := Reset(On(s, d), a.config));
    }
  }

  /** Every action, in every interleaving, keeps the invariant. */
  lemma StepKeepsInv(s: State, a: Action, s': State)
    requires Inv(s) && Step(s, a, s')
    ensures Inv(s')
  {
    match a
    case OfferRequest(_, accepted) =>
      if accepted { AcceptedKeepsInv(s, a, s'); } else { RefusedKeepsInv(s, a, s'); }
    case FetchRequest => FetchKeepsInv(s, a, s');
    case FinishRequest => FinishKeepsInv(s, a, s');
    case PostSettings(_) => SettingsKeepsInv(s, a, s');
    case PreFlight => WorkerStepKeepsInv(s, a, s');
    case AIReply(_, _, _) => WorkerStepKeepsInv(s, a, s');
    case AIError(_) => WorkerStepKeepsInv(s, a, s');
    case PostFlight => WorkerStepKeepsInv(s, a, s');
    case DegradeErrored => WorkerStepKeepsInv(s, a, s');
    case _ => CheckStepKeepsInv(s, a, s');
  }
}
