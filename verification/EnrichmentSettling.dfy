/** When a Pending mark outlives all the work: exactly after a settings POST that found a
    published cluster with nothing on the way, and no check published since. */
module EnrichmentSettling {
  import opened CheckerTypes
  import opened EnrichmentQueue
  import opened EnrichmentProtocol
  import opened EnrichmentInvariants
  import opened EnrichmentTheorems

  /** What can be seen just before a POST: it marks the cluster, and nothing will clear that. */
  ghost predicate Strands(s: State, a: Action, c: string) {
    a.PostSettings? && On(s, c).history.published.Some? && !OnTheWay(Part(s, c))
  }

  predicate Publishes(a: Action, c: string) {
    a.PublishCheck? && a.c == c
  }

  /** The j-th action stranded the cluster, and no check of it was published after that. */
  ghost predicate StrandedBy(states: seq<State>, actions: seq<Action>, j: nat, i: nat, c: string)
    requires j < i <= |actions| < |states|
  {
    && Strands(states[j], actions[j], c)
    && forall k | j < k < i :: !Publishes(actions[k], c)
  }

  ghost predicate Stranded(states: seq<State>, actions: seq<Action>, i: nat, c: string)
    requires i <= |actions| < |states|
  {
    exists j | 0 <= j < i :: StrandedBy(states, actions, j, i, c)
  }

  lemma {:induction false} StrandedStep(states: seq<State>, actions: seq<Action>, i: nat, c: string)
    requires i < |actions| < |states|
    ensures Stranded(states, actions, i + 1, c) <==>
            Strands(states[i], actions[i], c) || (Stranded(states, actions, i, c) && !Publishes(actions[i], c))
  {
    if Strands(states[i], actions[i], c) {
      assert StrandedBy(states, actions, i, i + 1, c);
    }
    if j :| 0 <= j < i && StrandedBy(states, actions, j, i, c) && !Publishes(actions[i], c) {
      assert StrandedBy(states, actions, j, i + 1, c);
    }
    var n := i + 1;
    if j :| 0 <= j < i && StrandedBy(states, actions, j, n, c) {
      assert StrandedBy(states, actions, j, i, c);
    }
  }

  // -------------------------------------------------------------- the invariant

  /** A mark is stranded or something is on the way; a stranded cluster shows the mark and
      has neither a request to offer nor a current one to be answered. */
  ghost predicate MarkExplained(v: View, stranded: bool) {
    && (ShownPending(v.k) && !stranded ==> OnTheWay(v))
    && (stranded ==>
          && ShownPending(v.k) && !v.k.check.Published? && !v.k.check.Refused?
          && forall r | Outstanding(v, r) :: !Current(v.k, r))
  }

  /** Nothing that explains a mark changes. */
  lemma SameExplanation(v: View, v': View, stranded: bool)
    requires MarkExplained(v, stranded)
    requires v'.k.check == v.k.check || (v.k.check.NoCheck? && v'.k.check.ConfigRead?)
    requires ShownPending(v'.k) ==> ShownPending(v.k)
    requires stranded ==> ShownPending(v'.k)
    requires forall r | Current(v'.k, r) :: Outstanding(v', r) ==> Outstanding(v, r) && Current(v.k, r)
    requires ShownPending(v'.k) && (v.k.check.NoCheck? || v.k.check.ConfigRead?) ==>
               forall r | Outstanding(v, r) && Current(v.k, r) :: Outstanding(v', r) && Current(v'.k, r)
    ensures MarkExplained(v', stranded)
  {
  }

  lemma CheckExplains(s: State, a: Action, s': State, stranded: bool)
    requires CheckAction(a) && PartInv(Part(s, a.c), a.c) && Step(s, a, s')
    requires MarkExplained(Part(s, a.c), stranded)
    ensures MarkExplained(Part(s, a.c).(k := Checked(s, a)), stranded && !Publishes(a, a.c))
  {
    if a.BeginCheck? || a.BroadcastPhase? {
      SameExplanation(Part(s, a.c), Part(s, a.c).(k := Checked(s, a)), stranded);
    }
  }

  lemma CheckStepExplains(s: State, a: Action, s': State, c: string, stranded: bool)
    requires Inv(s) && Step(s, a, s') && CheckAction(a) && MarkExplained(Part(s, c), stranded)
    ensures MarkExplained(Part(s', c), stranded && !Publishes(a, c))
  {
    CheckStepIsLocal(s, a, s');
    if c == a.c {
      assert PartInv(Part(s, c), c);
      CheckExplains(s, a, s', stranded);
      assert Part(s', c) == Part(s, c).(k := Checked(s, a));
    } else {
      assert Part(s', c) == Part(s, c);
    }
  }

  lemma RefusedExplains(s: State, a: Action, s': State, c: string, stranded: bool)
    requires Inv(s) && Step(s, a, s') && a.OfferRequest? && !a.accepted && MarkExplained(Part(s, c), stranded)
    ensures MarkExplained(Part(s', c), stranded)
  {
    assert s'.queue == s.queue;
    if c != a.c {
      assert Part(s', c) == Part(s, c);
    }
  }

  lemma AcceptedExplains(s: State, a: Action, s': State, c: string, stranded: bool)
    requires Inv(s) && Step(s, a, s') && a.OfferRequest? && a.accepted && MarkExplained(Part(s, c), stranded)
    ensures MarkExplained(Part(s', c), stranded)
  {
    AcceptedQueue(s, a, s');
    var v, v' := Part(s, c), Part(s', c);
    assert PartInv(v, c);
    forall r ensures Queued(v', r) <==> InQueue(s'.queue, r) && r.clusterID == c
             ensures Queued(v, r) <==> InQueue(s.queue, r) && r.clusterID == c
    {
      QueuedIsInQueue(s, c, r);
      QueuedIsInQueue(s', c, r);
    }
    if c == a.c {
      var r := v.k.check.request;
      assert Outstanding(v', r) && Current(v'.k, r);
    } else {
      SameExplanation(v, v', stranded);
    }
  }

  lemma FetchExplains(s: State, a: Action, s': State, c: string, stranded: bool)
    requires Inv(s) && Step(s, a, s') && a.FetchRequest? && MarkExplained(Part(s, c), stranded)
    ensures MarkExplained(Part(s', c), stranded)
  {
    var v, v' := Part(s, c), Part(s', c);
    FetchedChannel(s, s', c);
    if c != s.queue.ch[0].clusterID {
      assert v' == v;
    } else {
      SameExplanation(v, v', stranded);
    }
  }

  lemma HandledExplains(s: State, a: Action, s': State, stranded: bool)
    requires Step(s, a, s') && HandlingAction(a)
    requires var c := s.worker.req.clusterID; PartInv(Part(s, c), c) && MarkExplained(Part(s, c), stranded)
    ensures var c := s.worker.req.clusterID;
            MarkExplained(Part(s, c).(k := On(s', c), worker := s'.worker), stranded)
  {
    var c := s.worker.req.clusterID;
    var v := Part(s, c);
    assert Located(v, v.worker.req);
    SameExplanation(v, v.(k := On(s', c), worker := s'.worker), stranded);
  }

  lemma WorkerStepExplains(s: State, a: Action, s': State, c: string, stranded: bool)
    requires Inv(s) && Step(s, a, s') && HandlingAction(a) && MarkExplained(Part(s, c), stranded)
    ensures MarkExplained(Part(s', c), stranded)
  {
    HandlingIsLocal(s, a, s');
    assert PartInv(Part(s, c), c);
    if c == s.worker.req.clusterID {
      HandledExplains(s, a, s', stranded);
      assert Part(s', c) == Part(s, c).(k := On(s', c), worker := s'.worker);
    } else {
      assert Part(s', c) == Part(s, c);
    }
  }

  lemma FinishExplains(s: State, a: Action, s': State, c: string, stranded: bool)
    requires Inv(s) && Step(s, a, s') && a.FinishRequest? && MarkExplained(Part(s, c), stranded)
    ensures MarkExplained(Part(s', c), stranded)
  {
    var v, v' := Part(s, c), Part(s', c);
    PartsAreNewestPending(s);
    MarkDoneKeepsValid(s.queue, s'.queue);
    MarkDoneConserves(s.queue, s'.queue);
    forall r ensures Queued(v', r) <==> Queued(v, r) {
      QueuedIsInQueue(s, c, r);
      QueuedIsInQueue(s', c, r);
    }
    SameExplanation(v, v', stranded);
  }

  lemma SettingsExplain(s: State, a: Action, s': State, c: string, stranded: bool)
    requires Inv(s) && Step(s, a, s') && a.PostSettings? && MarkExplained(Part(s, c), stranded)
    ensures MarkExplained(Part(s', c), stranded || Strands(s, a, c))
  {
    var v, v' := Part(s, c), Part(s', c);
    assert PartInv(v, c);
    assert v' == v.(k := Reset(v.k, a.config));
    assert forall r :: Current(v'.k, r) <==> Current(v.k, r);
    assert forall r :: Outstanding(v', r) <==> Outstanding(v, r);
  }

  lemma StepExplains(s: State, a: Action, s': State, c: string, stranded: bool)
    requires Inv(s) && Step(s, a, s') && MarkExplained(Part(s, c), stranded)
    ensures MarkExplained(Part(s', c), Strands(s, a, c) || (stranded && !Publishes(a, c)))
  {
    if HandlingAction(a) {
      WorkerStepExplains(s, a, s', c, stranded);
    } else if CheckAction(a) {
      CheckStepExplains(s, a, s', c, stranded);
    } else {
      QueueStepExplains(s, a, s', c, stranded);
    }
  }

  lemma QueueStepExplains(s: State, a: Action, s': State, c: string, stranded: bool)
    requires Inv(s) && Step(s, a, s') && MarkExplained(Part(s, c), stranded)
    requires a.OfferRequest? || a.FetchRequest? || a.FinishRequest? || a.PostSettings?
    ensures MarkExplained(Part(s', c), stranded || Strands(s, a, c))
  {
    match a
    case OfferRequest(_, accepted) =>
      if accepted { AcceptedExplains(s, a, s', c, stranded); } else { RefusedExplains(s, a, s', c, stranded); }
    case FetchRequest => FetchExplains(s, a, s', c, stranded);
    case FinishRequest => FinishExplains(s, a, s', c, stranded);
    case PostSettings(_) => SettingsExplain(s, a, s', c, stranded);
  }

  // ------------------------------------------------------------------ whole runs

  /** In every state of every run a mark is stranded or something is on the way. */
  lemma {:induction false} RunExplains(states: seq<State>, actions: seq<Action>, i: nat, c: string)
    requires Run(states, actions) && i < |states|
    ensures MarkExplained(Part(states[i], c), Stranded(states, actions, i, c))
  {
    if i > 0 {
      RunExplains(states, actions, i - 1, c);
      RunKeepsInv(states, actions, i - 1);
      StepExplains(states[i - 1], actions[i - 1], states[i], c, Stranded(states, actions, i - 1, c));
      StrandedStep(states, actions, i - 1, c);
    }
  }

  /** Once no check is running and nothing is in flight, a cluster shows Pending if and only
      if some settings POST found it published with nothing on the way, and no check of it
      was published since. */
  lemma QuiescentShowsPendingIffStranded(states: seq<State>, actions: seq<Action>, i: nat, c: string)
    requires Run(states, actions) && i < |states| && Quiescent(states[i])
    ensures ShownPending(On(states[i], c)) <==> Stranded(states, actions, i, c)
  {
    RunExplains(states, actions, i, c);
    RunKeepsInv(states, actions, i);
    NothingOnTheWay(states[i], c);
  }

  lemma NothingOnTheWay(s: State, c: string)
    requires Inv(s) && Quiescent(s)
    ensures !OnTheWay(Part(s, c))
  {
    IdleQueueHasNoPending(s.queue);
    assert On(s, c).check.NoCheck?;
    assert Part(s, c).worker.Idle? && forall r :: !Queued(Part(s, c), r);
  }

  /** So without settings changes nothing is left marked Pending. */
  lemma QuiescentWithoutPostsShowsNoPending(states: seq<State>, actions: seq<Action>, i: nat, c: string)
    requires Run(states, actions) && i < |states| && Quiescent(states[i])
    requires forall a | a in actions :: !a.PostSettings?
    ensures !ShownPending(On(states[i], c))
  {
    QuiescentShowsPendingIffStranded(states, actions, i, c);
    assert forall j | 0 <= j < i :: actions[j] in actions;
  }

  /** A POST strands nobody for whom something is on the way, and a check published later
      cures: then nothing is left marked Pending either. */
  lemma CuredOrBusyShowsNoPending(states: seq<State>, actions: seq<Action>, i: nat, c: string)
    requires Run(states, actions) && i < |states| && Quiescent(states[i])
    requires forall j | 0 <= j < i && actions[j].PostSettings? ::
               OnTheWay(Part(states[j], c)) || exists k | j < k < i :: Publishes(actions[k], c)
    ensures !ShownPending(On(states[i], c))
  {
    QuiescentShowsPendingIffStranded(states, actions, i, c);
  }

  /** A settings POST on an idle server leaves every cluster that shows anything marked
      Pending with no request on the way. */
  lemma PostLeavesPending(s: State, config: Config, s': State, c: string)
    requires Inv(s) && Quiescent(s) && Step(s, PostSettings(config), s')
    ensures Quiescent(s')
    ensures ShownPending(On(s', c)) <==> On(s, c).history.published.Some?
  {
    assert PartInv(Part(s, c), c);
    forall d ensures On(s', d).check.NoCheck? {
      assert On(s', d) == Reset(On(s, d), config);
    }
  }
}
