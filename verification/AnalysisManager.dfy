// One analysis request as a client of cache, budget and circuit breaker.
// The provider's replies, the caller's cancellation and the clock readings are inputs.
module AnalysisManager {
  import opened CheckerTypes
  import opened TokenBudget
  import A = TokenAccounting
  import B = CircuitBreaker
  import C = ResponseCache
  import L = RecencyList

  datatype Reply = Answer(text: string, tokens: int) | RateLimited | Failed

  datatype Clock = Clock(get: int, reserve: int, allow: int, limit: int, fail: int, settle: int, put: int)

  datatype World = World(first: Reply, retry: Reply, cancelled: bool, clock: Clock)

  datatype Outcome =
    | NotConfigured
    | Cached(text: string)
    | OverBudget
    | Unavailable                           // the breaker refused
    | Cancelled                             // while waiting to retry
    | Errored(limited: bool)                // the last reply was an error; a rate limit?
    | Answered(text: string, tokens: int)

  function FinalReply(w: World): Reply {
    if w.first.RateLimited? then w.retry else w.first
  }

  // ------------------------------------------------ effects, one outcome at a time

  // Two thousand tokens for each issue, and five hundred for none.
  function Reserved(issues: nat): (n: int)
    ensures n == if issues == 0 then 500 else 2000 * issues
  {
    Max(issues * A.TOKENS_PER_ISSUE, A.MIN_RESERVATION)
  }

  // The steps of the accounting model that an analysis takes.
  function Steps(o: Outcome, issues: nat, t: Clock): seq<A.Action> {
    match o
    case NotConfigured => []
    case Cached(_) => []
    case OverBudget => [A.StartAnalysis(0, issues, t.reserve)]
    case Unavailable => [A.StartAnalysis(0, issues, t.reserve), A.AnalysisAbandoned(0)]
    case Cancelled => [A.StartAnalysis(0, issues, t.reserve), A.AnalysisAbandoned(0)]
    case Errored(_) => [A.StartAnalysis(0, issues, t.reserve), A.AnalysisFailed(0)]
    case Answered(_, tokens) => [A.StartAnalysis(0, issues, t.reserve), A.AnalysisDone(0, tokens, t.settle)]
  }

  // What the breaker sees.
  function Events(o: Outcome, w: World): seq<B.Event> {
    var limited := if w.first.RateLimited? then [B.RateLimit(w.clock.limit)] else [];
    match o
    case NotConfigured => []
    case Cached(_) => []
    case OverBudget => []
    case Unavailable => [B.Allow(w.clock.allow)]
    case Cancelled => [B.Allow(w.clock.allow)] + limited
    case Errored(again) => [B.Allow(w.clock.allow)] + limited + if again then [] else [B.Failure(w.clock.fail)]
    case Answered(_, _) => [B.Allow(w.clock.allow)] + limited + [B.Success]
  }

  function Replay(c: B.Settings, b: B.Breaker, es: seq<B.Event>): B.Breaker {
    if es == [] then b else B.Step(c, Replay(c, b, es[..|es| - 1]), es[|es| - 1])
  }

  lemma ReplayOne(c: B.Settings, b: B.Breaker, es: seq<B.Event>, e: B.Event)
    ensures Replay(c, b, es + [e]) == B.Step(c, Replay(c, b, es), e)
    ensures Replay(c, b, []) == b
  {
    assert (es + [e])[..|es|] == es;
  }

  // The retry has no answer that the breaker gets to see: the caller stops waiting for it,
  // or the provider limits the rate again.
  predicate EndsUnseen(w: World) {
    w.first.RateLimited? && (w.cancelled || w.retry.RateLimited?)
  }

  /** An admitted call records neither a success nor a failure if and only if its first
      reply is a rate limit and the caller then gives up or is limited again. */
  lemma ProbeHasNoOutcomeIff(w: World)
    ensures B.NoOutcomeIn(Events(Verdict(true, w), w)) <==> EndsUnseen(w)
  {
    var es := Events(Verdict(true, w), w);
    if !EndsUnseen(w) {
      assert B.IsOutcome(es[|es| - 1]);
    }
  }

  lemma ReplayTwo(c: B.Settings, b: B.Breaker, d: B.Event, e: B.Event)
    ensures Replay(c, b, [d, e]) == B.Step(c, B.Step(c, b, d), e)
    ensures Replay(c, b, [d]) == B.Step(c, b, d)
  {
    ReplayOne(c, b, [], d);
    ReplayOne(c, b, [d], e);
    assert [] + [d] == [d] && [d] + [e] == [d, e];
  }

  lemma ReplayThree(c: B.Settings, b: B.Breaker, d: B.Event, e: B.Event, f: B.Event)
    ensures Replay(c, b, [d, e, f]) == B.Step(c, B.Step(c, B.Step(c, b, d), e), f)
  {
    ReplayTwo(c, b, d, e);
    ReplayOne(c, b, [d, e], f);
    assert [d, e] + [f] == [d, e, f];
  }

  // Where outcome o leaves the breaker.
  function CircuitUpon(c: B.Settings, b: B.Breaker, o: Outcome, w: World): B.Breaker {
    var admitted := B.Step(c, b, B.Allow(w.clock.allow));
    var limited := if w.first.RateLimited? then B.Step(c, admitted, B.RateLimit(w.clock.limit)) else admitted;
    match o
    case NotConfigured => b
    case Cached(_) => b
    case OverBudget => b
    case Unavailable => admitted
    case Cancelled => limited
    case Errored(again) => if again then limited else B.Step(c, limited, B.Failure(w.clock.fail))
    case Answered(_, _) => B.Step(c, limited, B.Success)
  }

  lemma CircuitOf(c: B.Settings, b: B.Breaker, o: Outcome, w: World)
    ensures Replay(c, b, Events(o, w)) == CircuitUpon(c, b, o, w)
  {
    var es := Events(o, w);
    if |es| == 1 {
      ReplayTwo(c, b, es[0], es[0]);
      assert es == [es[0]];
    } else if |es| == 2 {
      ReplayTwo(c, b, es[0], es[1]);
      assert es == [es[0], es[1]];
    } else if |es| == 3 {
      ReplayThree(c, b, es[0], es[1], es[2]);
      assert es == [es[0], es[1], es[2]];
    }
  }

  /** The probe of an open breaker leaves it half-open, where it refuses every further call
      until some late outcome arrives, if and only if the probe ends unseen; otherwise an
      answer closes it and an error opens it again. */
  lemma ProbeDecidesState(c: B.Settings, b: B.Breaker, w: World)
    requires b.state == B.Open && B.Admits(c, b, w.clock.allow)
    ensures var after := Replay(c, b, Events(Verdict(true, w), w));
            && (after.state == B.HalfOpen <==> EndsUnseen(w))
            && (after.state == B.Closed <==> !EndsUnseen(w) && FinalReply(w).Answer?)
            && (after.state == B.Open <==> !EndsUnseen(w) && FinalReply(w).Failed?)
            && (after.state == B.HalfOpen ==> forall now :: !B.Admits(c, after, now))
  {
    CircuitOf(c, b, Verdict(true, w), w);
  }

  lemma UsageAfterOne(c: A.Setup, s: A.State, a: A.Action)
    requires A.Shaped(c, s)
    ensures A.After(c, s, [a]) == A.Next(c, s, a)
    ensures A.After(c, s, []) == s
  {
    assert [a][..0] == [];
  }

  lemma UsageAfterTwo(c: A.Setup, s: A.State, a: A.Action, b: A.Action)
    requires A.Shaped(c, s)
    ensures A.After(c, s, [a, b]) == A.Next(c, A.Next(c, s, a), b)
  {
    assert [a, b][..1] == [a];
    UsageAfterOne(c, s, a);
  }

  ghost function UsageAfter(ws: seq<Window>, us: seq<Usage>, steps: seq<A.Action>): seq<Usage>
    requires |us| == |ws|
  {
    A.After(A.Setup(ws, None), A.Start(us, 0, 1), steps).usage
  }

  // Where outcome o leaves the budget.
  function UsageUpon(ws: seq<Window>, us: seq<Usage>, issues: nat, o: Outcome, t: Clock): seq<Usage>
    requires |us| == |ws|
  {
    var n := Reserved(issues);
    match o
    case NotConfigured => us
    case Cached(_) => us
    case OverBudget => us
    case Unavailable => ChargeAll(ws, us, n, t.reserve)
    case Cancelled => ChargeAll(ws, us, n, t.reserve)
    case Errored(_) => CreditAll(ChargeAll(ws, us, n, t.reserve), n)
    case Answered(_, tokens) => A.Settle(ws, ChargeAll(ws, us, n, t.reserve), n, tokens, t.settle)
  }

  lemma UsageOf(ws: seq<Window>, us: seq<Usage>, issues: nat, o: Outcome, t: Clock)
    requires |us| == |ws|
    requires o.OverBudget? ==> !AllFit(ws, us, Reserved(issues), t.reserve)
    requires o.Unavailable? || o.Cancelled? || o.Errored? || o.Answered? ==> AllFit(ws, us, Reserved(issues), t.reserve)
    ensures UsageAfter(ws, us, Steps(o, issues, t)) == UsageUpon(ws, us, issues, o, t)
  {
    var c, s := A.Setup(ws, None), A.Start(us, 0, 1);
    var start := A.StartAnalysis(0, issues, t.reserve);
    UsageAfterOne(c, s, start);
    if |Steps(o, issues, t)| == 2 {
      UsageAfterTwo(c, s, start, Steps(o, issues, t)[1]);
    }
  }

  // How the provider part of an analysis ends, given whether the breaker admits it.
  function Verdict(admitted: bool, w: World): Outcome {
    if !admitted then Unavailable
    else if w.first.RateLimited? && w.cancelled then Cancelled
    else OutcomeOf(FinalReply(w))
  }

  function OutcomeOf(reply: Reply): Outcome {
    match reply
    case Answer(text, tokens) => Answered(text, tokens)
    case RateLimited => Errored(true)
    case Failed => Errored(false)
  }

  // What a final reply does to the breaker.
  function AfterReply(c: B.Settings, b: B.Breaker, reply: Reply, now: int): B.Breaker {
    match reply
    case Answer(_, _) => B.Step(c, b, B.Success)
    case RateLimited => b
    case Failed => B.Step(c, b, B.Failure(now))
  }

  class Manager {
    const configured: bool
    const budget: Budget
    const cb: B.CircuitBreaker?
    const cache: C.Cache

    constructor (configured: bool, budget: Budget, cb: B.CircuitBreaker?, cache: C.Cache)
      ensures this.configured == configured && this.budget == budget && this.cb == cb && this.cache == cache
    {
      this.configured, this.budget, this.cb, this.cache := configured, budget, cb, cache;
    }

    ghost function Breakers(): set<object> {
      if cb == null then {} else {cb}
    }

    function Admitted(now: int): bool
      reads Breakers()
    {
      cb == null || B.Admits(cb.Config(), cb.Value(), now)
    }

    // The breaker and the provider, from the admission to the final reply.
    method Call(w: World) returns (o: Outcome)
      modifies Breakers()
      ensures o == Verdict(old(Admitted(w.clock.allow)), w)
      ensures cb != null ==> cb.Value() == CircuitUpon(cb.Config(), old(cb.Value()), o, w)
    {
      if cb != null {
        var ok, transition := cb.Allow(w.clock.allow);
        if !ok {
          return Unavailable;
        }
      }
      var reply := w.first;
      if reply.RateLimited? {
        if cb != null {
          cb.RecordRateLimit(w.clock.limit);
        }
        if w.cancelled {
          return Cancelled;
        }
        reply := w.retry;
      }
      o := Conclude(reply, w.clock.fail);
    }

    // The final reply and what the breaker is told of it.
    method Conclude(reply: Reply, now: int) returns (o: Outcome)
      modifies Breakers()
      ensures o == OutcomeOf(reply)
      ensures cb != null ==> cb.Value() == AfterReply(cb.Config(), old(cb.Value()), reply, now)
    {
      match reply
      case Answer(text, tokens) =>
        if cb != null {
          var transition := cb.RecordSuccess();
        }
        return Answered(text, tokens);
      case RateLimited => return Errored(true);
      case Failed =>
        if cb != null {
          var transition := cb.RecordFailure(now);
        }
        return Errored(false);
    }

    // Gives back what an ended call did not use, or records what it used beyond.
    method SettleBudget(o: Outcome, reserved: int, now: int)
      requires budget.Valid()
      modifies budget.usage
      ensures budget.usage[..] ==
              match o
              case Errored(_) => CreditAll(old(budget.usage[..]), reserved)
              case Answered(_, tokens) =>
                A.Settle(budget.windows, old(budget.usage[..]), reserved, tokens, now)
              case _ => old(budget.usage[..])
    {
      if o.Errored? {
        budget.ReleaseUnused(reserved);
      } else if o.Answered? {
        var unused := reserved - o.tokens;
        if unused > 0 {
          budget.ReleaseUnused(unused);
        } else if unused < 0 {
          budget.RecordUsage(-unused, now);
        } else {
          assert budget.usage[..] == CreditAll(budget.usage[..], 0);
        }
      }
    }

    // What the cache holds after outcome o.
    function Stored(l: seq<L.Item>, key: string, o: Outcome, now: int): seq<L.Item> {
      if cache.enabled && cache.capacity >= 0 && o.Answered? then L.AfterPut(l, cache.capacity, key, o.text, now) else l
    }

    // Everything between a cache miss and the cache.
    method Spend(issues: nat, w: World) returns (o: Outcome)
      requires budget.Valid()
      modifies budget.usage, Breakers()
      ensures budget.usage[..] == UsageUpon(budget.windows, old(budget.usage[..]), issues, o, w.clock)
      ensures cb != null ==> cb.Value() == CircuitUpon(cb.Config(), old(cb.Value()), o, w)
      ensures o == if !AllFit(budget.windows, old(budget.usage[..]), Reserved(issues), w.clock.reserve) then OverBudget
                   else Verdict(old(Admitted(w.clock.allow)), w)
    {
      var estimated := Max(issues * A.TOKENS_PER_ISSUE, A.MIN_RESERVATION);
      var ok := budget.TryConsume(estimated, w.clock.reserve);
      if !ok {
        return OverBudget;
      }
      o := Call(w);
      SettleBudget(o, estimated, w.clock.settle);
    }

    /** The budget takes exactly the steps of the accounting model, the breaker sees exactly
        the events of the outcome, and only an answer is stored in the cache. */
    method Analyze(key: string, issues: nat, w: World) returns (o: Outcome)
      requires budget.Valid() && cache.Valid()
      modifies budget.usage, Breakers(), cache, cache.order
      ensures cache.Valid()
      ensures budget.usage[..] == UsageAfter(budget.windows, old(budget.usage[..]), Steps(o, issues, w.clock))
      ensures cb != null ==> cb.Value() == Replay(cb.Config(), old(cb.Value()), Events(o, w))
      ensures o.NotConfigured? <==> !configured
      ensures configured ==>
                var hit := if cache.enabled then L.Lookup(old(cache.Contents()), cache.ttl, key, w.clock.get) else None;
                o == if hit.Some? then Cached(hit.value)
                     else if !AllFit(budget.windows, old(budget.usage[..]), Reserved(issues), w.clock.reserve) then OverBudget
                     else Verdict(old(Admitted(w.clock.allow)), w)
      ensures cache.Contents() ==
              if !configured || !cache.enabled then old(cache.Contents())
              else
                var seen := L.AfterGet(old(cache.Contents()), cache.ttl, key, w.clock.get);
                if o.Answered? then L.AfterPut(seen, cache.capacity, key, o.text, w.clock.put) else seen
    {
      ghost var us := budget.usage[..];
      if !configured {
        o := NotConfigured;
      } else {
        o := AnalyzeConfigured(key, issues, w);
      }
      UsageOf(budget.windows, us, issues, o, w.clock);
      if cb != null {
        CircuitOf(cb.Config(), old(cb.Value()), o, w);
      }
    }

    method AnalyzeConfigured(key: string, issues: nat, w: World) returns (o: Outcome)
      requires budget.Valid() && cache.Valid()
      modifies budget.usage, Breakers(), cache, cache.order
      ensures cache.Valid()
      ensures budget.usage[..] == UsageUpon(budget.windows, old(budget.usage[..]), issues, o, w.clock)
      ensures cb != null ==> cb.Value() == CircuitUpon(cb.Config(), old(cb.Value()), o, w)
      ensures var hit := if cache.enabled then L.Lookup(old(cache.Contents()), cache.ttl, key, w.clock.get) else None;
              o == if hit.Some? then Cached(hit.value)
                   else if !AllFit(budget.windows, old(budget.usage[..]), Reserved(issues), w.clock.reserve) then OverBudget
                   else Verdict(old(Admitted(w.clock.allow)), w)
      ensures cache.Contents() ==
              if !cache.enabled then old(cache.Contents())
              else
                var seen := L.AfterGet(old(cache.Contents()), cache.ttl, key, w.clock.get);
                if o.Answered? then L.AfterPut(seen, cache.capacity, key, o.text, w.clock.put) else seen
    {
      var hit := cache.Get(key, w.clock.get);
      if hit.Some? {
        return Cached(hit.value);
      }
      o := SpendAndStore(key, issues, w);
    }

    method SpendAndStore(key: string, issues: nat, w: World) returns (o: Outcome)
      requires budget.Valid() && cache.Valid()
      modifies budget.usage, Breakers(), cache, cache.order
      ensures cache.Valid()
      ensures budget.usage[..] == UsageUpon(budget.windows, old(budget.usage[..]), issues, o, w.clock)
      ensures cb != null ==> cb.Value() == CircuitUpon(cb.Config(), old(cb.Value()), o, w)
      ensures o == if !AllFit(budget.windows, old(budget.usage[..]), Reserved(issues), w.clock.reserve) then OverBudget
                   else Verdict(old(Admitted(w.clock.allow)), w)
      ensures cache.Contents() == Stored(old(cache.Contents()), key, o, w.clock.put)
    {
      ghost var held := cache.Contents();
      o := Spend(issues, w);
      assert cache.Contents() == held;
      Store(key, o, w.clock.put);
    }

    method Store(key: string, o: Outcome, now: int)
      requires cache.Valid()
      modifies cache, cache.order
      ensures cache.Valid()
      ensures cache.Contents() == Stored(old(cache.Contents()), key, o, now)
    {
      if o.Answered? {
        cache.Put(key, Some(o.text), now);
      }
    }
  }
}
