// The three-state circuit breaker in front of the AI provider.
// Every method runs under one mutex, so a history of a breaker is a sequence of
// atomic events, each carrying the clock reading it made (if any).
module CircuitBreaker {
  import opened CheckerTypes

  datatype CircuitState = Closed | Open | HalfOpen

  datatype Settings = Settings(threshold: int, timeout: int)

  datatype Breaker = Breaker(state: CircuitState, consecutiveFailures: int, lastFailureTime: int)

  datatype Event =
    | Allow(now: int)
    | Success
    | Failure(now: int)
    | RateLimit(now: int)

  const NEW_BREAKER := Breaker(Closed, 0, 0)

  // ---------------------------------------------------------------- one event

  predicate Admits(c: Settings, b: Breaker, now: int) {
    match b.state
    case Closed => true
    case Open => now - b.lastFailureTime >= c.timeout
    case HalfOpen => false
  }

  function Step(c: Settings, b: Breaker, e: Event): Breaker {
    match e
    case Allow(now) =>
      if b.state == Open && Admits(c, b, now) then b.(state := HalfOpen) else b
    case Success =>
      b.(consecutiveFailures := 0, state := if b.state == HalfOpen then Closed else b.state)
    case Failure(now) =>
      var n := b.consecutiveFailures + 1;
      Breaker(if b.state == HalfOpen || n >= c.threshold then Open else b.state, n, now)
    case RateLimit(now) =>
      b.(lastFailureTime := now)
  }

  function After(c: Settings, h: seq<Event>): Breaker {
    if |h| == 0 then NEW_BREAKER else Step(c, After(c, h[..|h| - 1]), h[|h| - 1])
  }

  // The call made at position i of the history was let through.
  predicate AdmittedAt(c: Settings, h: seq<Event>, i: nat)
    requires i < |h|
  {
    h[i].Allow? && Admits(c, After(c, h[..i]), h[i].now)
  }

  // ---------------------------------------------------- reference definitions
  // These read only the history, never the breaker.

  function FailuresSinceSuccess(h: seq<Event>): nat {
    if |h| == 0 then 0
    else
      var rest := FailuresSinceSuccess(h[..|h| - 1]);
      match h[|h| - 1]
      case Success => 0
      case Failure(_) => rest + 1
      case _ => rest
  }

  // Time of the latest failure or rate limit.
  function LatestSetback(h: seq<Event>): Option<int> {
    if |h| == 0 then None
    else
      match h[|h| - 1]
      case Failure(now) => Some(now)
      case RateLimit(now) => Some(now)
      case _ => LatestSetback(h[..|h| - 1])
  }

  predicate IsOutcome(e: Event) {
    e.Success? || e.Failure?
  }

  predicate NoOutcomeIn(h: seq<Event>) {
    forall i :: 0 <= i < |h| ==> !IsOutcome(h[i])
  }

  // A threshold below one opens the circuit on the first failure, like one does.
  function Effective(threshold: int): (r: int)
    ensures r >= 1 && r >= threshold && (r == 1 || r == threshold)
  {
    if threshold < 1 then 1 else threshold
  }

  // ------------------------------------------------------------ single states

  lemma {:induction false} StateReflectsHistory(c: Settings, h: seq<Event>)
    ensures After(c, h).consecutiveFailures == FailuresSinceSuccess(h)
    ensures After(c, h).state == Closed ==> FailuresSinceSuccess(h) < Effective(c.threshold)
    ensures After(c, h).state != Closed ==> LatestSetback(h).Some?
    ensures LatestSetback(h).Some? ==> After(c, h).lastFailureTime == LatestSetback(h).value
  {
    if |h| > 0 {
      StateReflectsHistory(c, h[..|h| - 1]);
    }
  }

  // From Closed the only way out is the failure that completes a run of
  // `threshold` failures uninterrupted by a success, and it always leads to Open.
  lemma LeavesClosedExactlyAtThreshold(c: Settings, h: seq<Event>, e: Event)
    requires After(c, h).state == Closed
    ensures After(c, h + [e]).state != Closed <==>
            e.Failure? && FailuresSinceSuccess(h + [e]) == Effective(c.threshold)
    ensures After(c, h + [e]).state in {Closed, Open}
  {
    assert (h + [e])[..|h|] == h;
    StateReflectsHistory(c, h);
    StateReflectsHistory(c, h + [e]);
  }

  // An open breaker lets a call through if and only if the timeout has passed
  // since the latest failure or rate limit.
  lemma OpenAdmitsExactlyAfterTimeout(c: Settings, h: seq<Event>, i: nat)
    requires i < |h| && h[i].Allow?
    requires After(c, h[..i]).state == Open
    ensures LatestSetback(h[..i]).Some?
    ensures AdmittedAt(c, h, i) <==> h[i].now - LatestSetback(h[..i]).value >= c.timeout
  {
    StateReflectsHistory(c, h[..i]);
  }

  // Open is left exactly by a call admitted after the timeout, and then for half-open: late
  // successes, failures and rate limits all leave it open.
  lemma {:induction false} OpenIsLeftOnlyByAdmission(c: Settings, h: seq<Event>, e: Event)
    requires After(c, h).state == Open
    ensures LatestSetback(h).Some?
    ensures After(c, h + [e]).state != Open <==> e.Allow? && e.now - LatestSetback(h).value >= c.timeout
    ensures After(c, h + [e]).state != Open ==> After(c, h + [e]).state == HalfOpen
  {
    assert (h + [e])[..|h|] == h;
    StateReflectsHistory(c, h);
    StateReflectsHistory(c, h + [e]);
  }

  // ------------------------------------------------------------------- probes

  lemma {:induction false} ReadingAhead(c: Settings, h: seq<Event>, i: nat, j: nat)
    requires i <= j <= |h|
    requires After(c, h[..i]).state == HalfOpen
    requires NoOutcomeIn(h[i..j])
    ensures After(c, h[..j]).state == HalfOpen
  {
    if i < j {
      assert NoOutcomeIn(h[i..j - 1]) by {
        assert h[i..j - 1] == h[i..j][..j - 1 - i];
      }
      ReadingAhead(c, h, i, j - 1);
      assert h[..j][..j - 1] == h[..j - 1];
      assert h[i..j][j - 1 - i] == h[j - 1];
    }
  }

  // After a call admitted while not Closed, no other call is admitted before a
  // success or a failure has been recorded.
  lemma OneProbeBetweenOutcomes(c: Settings, h: seq<Event>, i: nat, j: nat)
    requires i < j < |h|
    requires AdmittedAt(c, h, i) && After(c, h[..i]).state != Closed
    requires AdmittedAt(c, h, j)
    ensures exists k :: i < k < j && IsOutcome(h[k])
  {
    assert h[..i + 1][..i] == h[..i];
    if NoOutcomeIn(h[i + 1..j]) {
      ReadingAhead(c, h, i + 1, j);
      assert false;
    } else {
      var k :| 0 <= k < |h[i + 1..j]| && IsOutcome(h[i + 1..j][k]);
      assert h[i + 1..j][k] == h[i + 1 + k];
    }
  }

  // Half-open is left exactly by an outcome. A probe that ends in a rate limit
  // or a cancellation records none, so the breaker then refuses calls for as
  // long as no late outcome arrives.
  lemma {:induction false} HalfOpenLastsUntilAnOutcome(c: Settings, h: seq<Event>, more: seq<Event>)
    requires After(c, h).state == HalfOpen
    ensures NoOutcomeIn(more) ==>
              && After(c, h + more).state == HalfOpen
              && forall i :: |h| <= i < |h + more| ==> !AdmittedAt(c, h + more, i)
    ensures |more| > 0 && NoOutcomeIn(more[..|more| - 1]) && IsOutcome(more[|more| - 1]) ==>
              After(c, h + more).state == if more[|more| - 1].Success? then Closed else Open
  {
    var all := h + more;
    assert all[..|h|] == h && all[..|all|] == all;
    if NoOutcomeIn(more) {
      forall i | |h| <= i <= |all| ensures After(c, all[..i]).state == HalfOpen {
        assert all[|h|..i] == more[..i - |h|];
        ReadingAhead(c, all, |h|, i);
      }
    }
    if |more| > 0 && NoOutcomeIn(more[..|more| - 1]) {
      var n := |all| - 1;
      assert all[|h|..n] == more[..|more| - 1];
      ReadingAhead(c, all, |h|, n);
    }
  }

  // --------------------------------------------------------------- rate bound

  // Latest clock reading of a history, `start` when it made none.
  function Clock(start: int, h: seq<Event>): int {
    if |h| == 0 then start
    else if h[|h| - 1].Success? then Clock(start, h[..|h| - 1])
    else h[|h| - 1].now
  }

  predicate Monotone(start: int, h: seq<Event>) {
    forall i :: 0 <= i < |h| && !h[i].Success? ==> Clock(start, h[..i]) <= h[i].now
  }

  function Admissions(c: Settings, h: seq<Event>, from: nat): nat
    requires from <= |h|
    decreases |h|
  {
    if from == |h| then 0
    else Admissions(c, h[..|h| - 1], from) + if AdmittedAt(c, h, |h| - 1) then 1 else 0
  }

  // The waiting paid for so far is covered by the clock and, while open, already by the
  // latest setback.
  predicate Throttled(b: Breaker, t0: int, waited: int, clock: int) {
    && b.state != Closed && b.lastFailureTime <= clock && waited <= clock - t0
    && (b.state == Open ==> waited <= b.lastFailureTime - t0)
  }

  lemma ThrottledStep(c: Settings, b: Breaker, e: Event, t0: int, waited: int, clock: int)
    requires c.timeout >= 0 && Throttled(b, t0, waited, clock) && !e.Success? && clock <= e.now
    ensures var admitted := e.Allow? && Admits(c, b, e.now);
            Throttled(Step(c, b, e), t0, if admitted then waited + c.timeout else waited, e.now)
  {
  }

  // Once tripped at time t0, and until some call succeeds, the provider sees at
  // most one call per timeout: k admitted calls take at least k timeouts.
  lemma {:induction false} TrippedBreakerThrottles(c: Settings, h: seq<Event>, more: seq<Event>)
    requires c.timeout >= 0
    requires After(c, h).state == Open
    requires forall i :: 0 <= i < |more| ==> !more[i].Success?
    requires Monotone(After(c, h).lastFailureTime, more)
    ensures var t0 := After(c, h).lastFailureTime;
            Admissions(c, h + more, |h|) * c.timeout <= Clock(t0, more) - t0
    ensures var t0 := After(c, h).lastFailureTime;
            Throttled(After(c, h + more), t0, Admissions(c, h + more, |h|) * c.timeout, Clock(t0, more))
  {
    var t0 := After(c, h).lastFailureTime;
    if |more| == 0 {
      assert h + more == h;
    } else {
      var less, e := more[..|more| - 1], more[|more| - 1];
      MonotonePrefix(t0, more);
      TrippedBreakerThrottles(c, h, less);
      assert h + more == (h + less) + [e];
      assert (h + more)[..|h + less|] == h + less;
      var k := Admissions(c, h + less, |h|);
      OneMoreProduct(k, c.timeout);
      ThrottledStep(c, After(c, h + less), e, t0, k * c.timeout, Clock(t0, less));
    }
  }

  lemma OneMoreProduct(k: nat, timeout: int)
    ensures (k + 1) * timeout == k * timeout + timeout
  {
  }

  lemma {:induction false} MonotonePrefix(start: int, h: seq<Event>)
    requires |h| > 0 && Monotone(start, h)
    ensures Monotone(start, h[..|h| - 1])
    ensures !h[|h| - 1].Success? ==> Clock(start, h[..|h| - 1]) <= h[|h| - 1].now
  {
    var g := h[..|h| - 1];
    forall i | 0 <= i < |g| && !g[i].Success? ensures Clock(start, g[..i]) <= g[i].now {
      assert g[..i] == h[..i];
    }
  }

  // ---------------------------------------------------------------- the object

  class CircuitBreaker {
    var state: CircuitState
    var consecutiveFailures: int
    const failureThreshold: int
    const resetTimeout: int
    var lastFailureTime: int

    function Value(): Breaker
      reads this
    {
      Breaker(state, consecutiveFailures, lastFailureTime)
    }

    function Config(): Settings {
      Settings(failureThreshold, resetTimeout)
    }

    constructor (threshold: int, timeout: int)
      ensures Value() == NEW_BREAKER && Config() == Settings(threshold, timeout)
    {
      state, consecutiveFailures, lastFailureTime := Closed, 0, 0;
      failureThreshold, resetTimeout := threshold, timeout;
    }

    // The reported transition is present exactly when the state changed.
    method SetState(next: CircuitState) returns (transition: Option<(CircuitState, CircuitState)>)
      modifies this`state
      ensures state == next
      ensures transition == if old(state) == next then None else Some((old(state), next))
    {
      var before := state;
      state := next;
      transition := if before != next then Some((before, next)) else None;
    }

    method Allow(now: int) returns (ok: bool, transition: Option<(CircuitState, CircuitState)>)
      modifies this
      ensures ok == Admits(Config(), old(Value()), now)
      ensures Value() == Step(Config(), old(Value()), Event.Allow(now))
      ensures transition == if old(state) == state then None else Some((old(state), state))
    {
      transition := None;
      match state {
        case Closed => ok := true;
        case Open =>
          ok := now - lastFailureTime >= resetTimeout;
          if ok {
            transition := SetState(HalfOpen);
          }
        case HalfOpen => ok := false;
      }
    }

    method RecordSuccess() returns (transition: Option<(CircuitState, CircuitState)>)
      modifies this
      ensures Value() == Step(Config(), old(Value()), Success)
      ensures transition == if old(state) == state then None else Some((old(state), state))
    {
      transition := None;
      consecutiveFailures := 0;
      if state == HalfOpen {
        transition := SetState(Closed);
      }
    }

    method RecordFailure(now: int) returns (transition: Option<(CircuitState, CircuitState)>)
      modifies this
      ensures Value() == Step(Config(), old(Value()), Failure(now))
      ensures transition == if old(state) == state then None else Some((old(state), state))
    {
      transition := None;
      consecutiveFailures := consecutiveFailures + 1;
      lastFailureTime := now;
      if state == HalfOpen || consecutiveFailures >= failureThreshold {
        transition := SetState(Open);
      }
    }

    method RecordRateLimit(now: int)
      modifies this
      ensures Value() == Step(Config(), old(Value()), RateLimit(now))
    {
      lastFailureTime := now;
    }
  }
}
