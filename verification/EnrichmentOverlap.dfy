/** One cluster whose checks may overlap, as the first check after the start can overlap a
    periodic or requested one.  The steps are those of the protocol; the queue is
    abstracted: a published request may be answered at any later time, in any order. */
module EnrichmentOverlap {
  import opened CheckerTypes
  import opened EnrichmentQueue
  import opened EnrichmentProtocol
  import D = DashboardResults

  /** The cluster (its own `check` is unused), the checks under way, the requests not yet
      decided, and the generations published so far, in order. */
  datatype Overlap = Overlap(k: Cluster, checks: seq<Check>, requests: set<Request>, order: seq<nat>)

  datatype OverlapAction =
    | BeginOne(results: Results, enabled: bool)
    | CountOne(i: nat, issueHash: string)
    | PrepareOne(i: nat, config: Config, availableForCache: bool, availableForCall: bool)
    | PublishOne(i: nat, c: string, providerName: string)
    | CommitAnswer(req: Request, status: AIStatus, enriched: Results, cache: D.Enhancements)
    | DegradeOne(req: Request, text: string)
    | ResetSettings(config: Config)
    | ShowPhase(phase: string)

  /** The cluster as check `i` sees it. */
  function Seen(o: Overlap, i: nat): Cluster
    requires i < |o.checks|
  {
    o.k.(check := o.checks[i])
  }

  /** Check `i` has come to `k.check` and left the cluster as `k`. */
  function Stepped(o: Overlap, i: nat, k: Cluster): Overlap
    requires i < |o.checks|
  {
    o.(k := k.(check := NoCheck), checks := o.checks[i := k.check])
  }

  function Drop(o: Overlap, r: Request): Overlap {
    o.(requests := o.requests - {r})
  }

  /** An action that is not possible does nothing, so every sequence of actions is a run. */
  function Next(o: Overlap, a: OverlapAction): Overlap {
    match a
    case BeginOne(results, enabled) => o.(checks := o.checks + [ConfigRead(results, enabled)])
    case CountOne(i, issueHash) =>
      if i < |o.checks| && o.checks[i].ConfigRead? then Stepped(o, i, Count(Seen(o, i), issueHash)) else o
    case PrepareOne(i, config, forCache, forCall) =>
      if i < |o.checks| && o.checks[i].Counted? && o.k.cs.Some?
      then Stepped(o, i, Prepare(Seen(o, i), config, forCache, forCall)) else o
    case PublishOne(i, c, providerName) =>
      if i < |o.checks| && o.checks[i].Prepared? && o.k.cs.Some? then
        var k := Publish(Seen(o, i), c, providerName);
        Stepped(o, i, k).(requests := if k.check.Published? then o.requests + {k.check.request} else o.requests,
                          order := o.order + [o.checks[i].generation])
      else o
    case CommitAnswer(r, status, enriched, cache) =>
      if r !in o.requests || StaleAfter(o.k, r) then Drop(o, r)
      else Drop(o, r).(k := Commit(o.k, Answered(r, status, enriched, cache)))
    case DegradeOne(r, text) =>
      if r !in o.requests then o else Drop(o, r).(k := Degraded(o.k, r.generation, text))
    case ResetSettings(config) => o.(k := Reset(o.k, config))
    case ShowPhase(phase) => o.(k := WithPhase(o.k, phase))
  }

  const START := Overlap(NEW_CLUSTER, [], {}, [])

  function After(run: seq<OverlapAction>): Overlap {
    if run == [] then START else Next(After(run[..|run| - 1]), run[|run| - 1])
  }

  // -------------------------------------------------------------- the invariant

  function Counter(o: Overlap): nat {
    if o.k.cs.Some? then o.k.cs.value.checkCounter else 0
  }

  predicate Unpublished(check: Check) {
    check.Counted? || check.Prepared?
  }

  /** Generations are given out once and published once. */
  ghost predicate NumberedOnce(o: Overlap) {
    && (forall i | 0 <= i < |o.checks| && Unpublished(o.checks[i]) ::
          o.checks[i].generation <= Counter(o) && o.checks[i].generation !in o.order)
    && (forall i, j | 0 <= i < j < |o.checks| && Unpublished(o.checks[i]) && Unpublished(o.checks[j]) ::
          o.checks[i].generation != o.checks[j].generation)
    && (forall i, j | 0 <= i < j < |o.order| :: o.order[i] != o.order[j])
    && (forall i | 0 <= i < |o.order| :: o.order[i] <= Counter(o))
  }

  /** Requests are published ones, one for each generation. */
  ghost predicate RequestsArePublished(o: Overlap) {
    && (forall r | r in o.requests :: r.generation in o.order)
    && (forall r, q | r in o.requests && q in o.requests && r.generation == q.generation :: r == q)
  }

  /** On display is the baseline published last, whole as long as the newest request for it
      is undecided. */
  ghost predicate LastIsShown(o: Overlap) {
    && o.k.history.published == (if o.order == [] then None else Some(o.order[|o.order| - 1]))
    && (o.order != [] ==> o.k.cs.Some? && o.k.cs.value.latest.Some?)
    && (forall r | r in o.requests && r.generation == Counter(o) && o.k.history.published == Some(r.generation) ::
          OwnBaseline(o.k, r))
  }

  /** The cluster shows exactly the baseline that request `r` was made for. */
  ghost predicate OwnBaseline(k: Cluster, r: Request) {
    && k.history.published == Some(r.generation) && k.history.baseline == r.results
    && k.cs.Some? && k.cs.value.latest.Some? && k.cs.value.latest.value.results == D.Show(r.results)
  }

  ghost predicate OverlapInv(o: Overlap) {
    NumberedOnce(o) && RequestsArePublished(o) && LastIsShown(o)
  }

  lemma BeginKeepsInv(o: Overlap, a: OverlapAction)
    requires OverlapInv(o) && a.BeginOne?
    ensures OverlapInv(Next(o, a))
  {
  }

  lemma CountKeepsInv(o: Overlap, a: OverlapAction)
    requires OverlapInv(o) && a.CountOne?
    ensures OverlapInv(Next(o, a))
  {
    assert forall r | r in o.requests :: r.generation in o.order && r.generation <= Counter(o);
  }

  lemma PrepareKeepsInv(o: Overlap, a: OverlapAction)
    requires OverlapInv(o) && a.PrepareOne?
    ensures OverlapInv(Next(o, a))
  {
  }

  lemma PublishKeepsInv(o: Overlap, a: OverlapAction)
    requires OverlapInv(o) && a.PublishOne?
    ensures OverlapInv(Next(o, a))
  {
    var o' := Next(o, a);
    if o'.order != o.order {
      assert o'.order == o.order + [o.checks[a.i].generation];
    }
  }

  lemma AnswerKeepsInv(o: Overlap, a: OverlapAction)
    requires OverlapInv(o) && (a.CommitAnswer? || a.DegradeOne?)
    ensures OverlapInv(Next(o, a))
  {
  }

  lemma SettingsKeepInv(o: Overlap, a: OverlapAction)
    requires OverlapInv(o) && (a.ResetSettings? || a.ShowPhase?)
    ensures OverlapInv(Next(o, a))
  {
  }

  lemma {:induction false} RunKeepsOverlapInv(run: seq<OverlapAction>)
    ensures OverlapInv(After(run))
  {
    if run != [] {
      var o, a := After(run[..|run| - 1]), run[|run| - 1];
      RunKeepsOverlapInv(run[..|run| - 1]);
      match a
      case BeginOne(_, _) => BeginKeepsInv(o, a);
      case CountOne(_, _) => CountKeepsInv(o, a);
      case PrepareOne(_, _, _, _) => PrepareKeepsInv(o, a);
      case PublishOne(_, _, _) => PublishKeepsInv(o, a);
      case CommitAnswer(_, _, _, _) => AnswerKeepsInv(o, a);
      case DegradeOne(_, _) => AnswerKeepsInv(o, a);
      case _ => SettingsKeepInv(o, a);
    }
  }

  // ------------------------------------------------------------------ the theorem

  /** After generation `g` a check that counted earlier was published. */
  ghost predicate Overtaken(order: seq<nat>, g: nat) {
    exists j, k | 0 <= j < k < |order| :: order[j] == g && order[k] < g
  }

  lemma {:induction false} NewestIsOvertakenIffNotLast(order: seq<nat>, g: nat)
    requires g in order && (forall i | 0 <= i < |order| :: order[i] <= g)
    requires forall i, j | 0 <= i < j < |order| :: order[i] != order[j]
    ensures Overtaken(order, g) <==> order[|order| - 1] != g
  {
    var n := |order| - 1;
    var j :| 0 <= j <= n && order[j] == g;
    if j < n {
      assert order[n] < g;
    }
  }

  /** However checks overlap, an answer that passes the staleness tests patches the untouched
      baseline it was computed for if and only if no check that counted earlier was published
      after the one it belongs to. */
  lemma {:induction false} CommitPatchesOwnBaselineIff(run: seq<OverlapAction>, r: Request)
    requires r in After(run).requests && !StaleAfter(After(run).k, r)
    ensures OwnBaseline(After(run).k, r) <==> !Overtaken(After(run).order, r.generation)
  {
    RunKeepsOverlapInv(run);
    NewestIsOvertakenIffNotLast(After(run).order, r.generation);
  }

  /** So if checks publish in the order in which they counted, every commit patches its own
      baseline and shows what a dashboard built from the enriched results would. */
  lemma {:induction false} OrderedChecksCommitOwnBaseline(run: seq<OverlapAction>, r: Request, status: AIStatus,
                                                          enriched: Results, cache: D.Enhancements)
    requires r in After(run).requests && !StaleAfter(After(run).k, r)
    requires var order := After(run).order; forall i, j | 0 <= i < j < |order| :: order[i] < order[j]
    requires AIVersionOfResults(r.results, enriched)
    ensures OwnBaseline(After(run).k, r)
    ensures var k := Next(After(run), CommitAnswer(r, status, enriched, cache)).k;
            && k.history.committed == Some(r.generation)
            && D.SameDisplay(k.cs.value.latest.value.results, D.Show(enriched))
  {
    CommitPatchesOwnBaselineIff(run, r);
    D.PatchRouteMatches(r.results, enriched);
  }
}
