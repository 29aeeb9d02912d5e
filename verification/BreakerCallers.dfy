// Analyses and chat turns sharing one circuit breaker, in any interleaving.
module BreakerCallers {
  import opened CheckerTypes
  import B = CircuitBreaker
  import M = AnalysisManager

  // How a chat turn ends for its handler. A turn that was cancelled, or whose client
  // could no longer be written to, is not recorded.
  datatype TurnEnd = Succeeded | Failed(now: int) | Cancelled | StreamLost

  datatype Call = Analysis(world: M.World) | ChatTurn(end: TurnEnd)

  // What an admitted call tells the breaker after its admission.
  function Reports(call: Call): seq<B.Event> {
    match call
    case Analysis(w) => M.Events(M.Verdict(true, w), w)[1..]
    case ChatTurn(Succeeded) => [B.Success]
    case ChatTurn(Failed(now)) => [B.Failure(now)]
    case ChatTurn(_) => []
  }

  predicate EndsUnseen(call: Call) {
    match call
    case Analysis(w) => M.EndsUnseen(w)
    case ChatTurn(end) => end.Cancelled? || end.StreamLost?
  }

  /** Exactly those calls report no outcome. */
  lemma UnseenCallsReportNoOutcome(call: Call)
    ensures B.NoOutcomeIn(Reports(call)) <==> EndsUnseen(call)
  {
    match call
    case Analysis(w) =>
      var es := M.Events(M.Verdict(true, w), w);
      M.ProbeHasNoOutcomeIff(w);
      assert es == [es[0]] + es[1..] && es[0].Allow?;
    case ChatTurn(end) =>
      if !EndsUnseen(call) {
        assert B.IsOutcome(Reports(call)[0]);
      }
  }

  // ------------------------------------------------------------- interleavings

  // The breaker, and what each admitted call has yet to report.
  datatype State = State(breaker: B.Breaker, calls: seq<seq<B.Event>>)

  datatype Action =
    | Arrive(call: Call, now: int)
    | Report(k: nat)

  function Next(c: B.Settings, s: State, a: Action): State {
    match a
    case Arrive(call, now) =>
      State(B.Step(c, s.breaker, B.Allow(now)),
            if B.Admits(c, s.breaker, now) then s.calls + [Reports(call)] else s.calls)
    case Report(k) =>
      if k < |s.calls| && s.calls[k] != [] then
        State(B.Step(c, s.breaker, s.calls[k][0]), s.calls[k := s.calls[k][1..]])
      else s
  }

  function After(c: B.Settings, s: State, run: seq<Action>): State {
    if |run| == 0 then s else Next(c, After(c, s, run[..|run| - 1]), run[|run| - 1])
  }

  predicate HalfOpen(s: State) {
    s.breaker.state == B.HalfOpen
  }

  // Step a of state s records the outcome of a call.
  predicate RecordsOutcome(s: State, a: Action) {
    a.Report? && a.k < |s.calls| && s.calls[a.k] != [] && B.IsOutcome(s.calls[a.k][0])
  }

  /** Half-open is left exactly by the outcome of some call in flight, to closed if it is a
      success and to open if it is a failure; every arrival is turned away. */
  lemma HalfOpenStep(c: B.Settings, s: State, a: Action)
    requires HalfOpen(s)
    ensures HalfOpen(Next(c, s, a)) <==> !RecordsOutcome(s, a)
    ensures RecordsOutcome(s, a) ==>
              Next(c, s, a).breaker.state == if s.calls[a.k][0].Success? then B.Closed else B.Open
    ensures a.Arrive? ==> Next(c, s, a) == s
  {
  }

  // The run never leaves half-open.
  predicate StaysHalfOpen(c: B.Settings, s: State, run: seq<Action>) {
    forall i :: 0 <= i <= |run| ==> HalfOpen(After(c, s, run[..i]))
  }

  predicate SameOutcomesAhead(s: State, t: State) {
    && |t.calls| == |s.calls|
    && forall k :: 0 <= k < |s.calls| ==> (B.NoOutcomeIn(t.calls[k]) <==> B.NoOutcomeIn(s.calls[k]))
  }

  lemma SilentTail(es: seq<B.Event>)
    requires es != [] && !B.IsOutcome(es[0])
    ensures B.NoOutcomeIn(es[1..]) <==> B.NoOutcomeIn(es)
  {
    assert es == [es[0]] + es[1..];
    if B.NoOutcomeIn(es) {
      assert forall i :: 0 <= i < |es[1..]| ==> es[1..][i] == es[i + 1];
    }
  }

  // While half-open lasts nobody joins, and no outcome that lies ahead is used up.
  lemma {:induction false} OutcomesStayAhead(c: B.Settings, s: State, run: seq<Action>)
    requires StaysHalfOpen(c, s, run)
    ensures SameOutcomesAhead(s, After(c, s, run))
  {
    if |run| > 0 {
      var rest, a := run[..|run| - 1], run[|run| - 1];
      assert forall i :: 0 <= i <= |rest| ==> rest[..i] == run[..i];
      OutcomesStayAhead(c, s, rest);
      assert run[..|run|] == run && run[..|rest|] == rest;
      var before := After(c, s, rest);
      HalfOpenStep(c, before, a);
      if a.Report? && a.k < |before.calls| && before.calls[a.k] != [] {
        SilentTail(before.calls[a.k]);
      }
    }
  }

  predicate SomeOutcomeAhead(s: State) {
    exists k :: 0 <= k < |s.calls| && !B.NoOutcomeIn(s.calls[k])
  }

  // Where the run leaves half-open first, a call that was in flight had an outcome ahead.
  lemma {:induction false} ExitNeedsOutcome(c: B.Settings, s: State, run: seq<Action>)
    requires HalfOpen(s) && !StaysHalfOpen(c, s, run)
    ensures SomeOutcomeAhead(s)
  {
    assert run[..|run|] == run && run[..0] == [];
    var rest, a := run[..|run| - 1], run[|run| - 1];
    assert forall i :: 0 <= i <= |rest| ==> rest[..i] == run[..i];
    if StaysHalfOpen(c, s, rest) {
      OutcomesStayAhead(c, s, rest);
      assert rest[..|rest|] == rest;
      var before := After(c, s, rest);
      HalfOpenStep(c, before, a);
      assert RecordsOutcome(before, a);
      assert !B.NoOutcomeIn(before.calls[a.k]);
    } else {
      ExitNeedsOutcome(c, s, rest);
    }
  }

  // All calls in flight at the beginning have reported all they had to.
  predicate Drained(s: State, t: State) {
    |s.calls| <= |t.calls| && forall k :: 0 <= k < |s.calls| ==> t.calls[k] == []
  }

  /** In every interleaving in which the calls in flight run to their end, half-open is left
      at some time if and only if one of them has an outcome to report. Otherwise it lasts
      for ever: analyses limited twice or given up, and chat turns cancelled or cut off. */
  lemma HalfOpenIsLeftIffSomeOutcomeAhead(c: B.Settings, s: State, run: seq<Action>)
    requires HalfOpen(s) && Drained(s, After(c, s, run))
    ensures !StaysHalfOpen(c, s, run) <==> SomeOutcomeAhead(s)
  {
    if !StaysHalfOpen(c, s, run) {
      ExitNeedsOutcome(c, s, run);
    } else {
      OutcomesStayAhead(c, s, run);
    }
  }

  /** So if every call in flight ends unseen, all calls are refused in every run, however long. */
  lemma UnseenCallsBlockBreaker(c: B.Settings, s: State, inFlight: seq<Call>, run: seq<Action>)
    requires HalfOpen(s) && |s.calls| == |inFlight|
    requires forall k :: 0 <= k < |inFlight| ==> s.calls[k] == Reports(inFlight[k]) && EndsUnseen(inFlight[k])
    ensures HalfOpen(After(c, s, run)) && |After(c, s, run).calls| == |inFlight|
  {
    forall k | 0 <= k < |inFlight| ensures B.NoOutcomeIn(s.calls[k]) {
      UnseenCallsReportNoOutcome(inFlight[k]);
    }
    if !StaysHalfOpen(c, s, run) {
      ExitNeedsOutcome(c, s, run);
    }
    OutcomesStayAhead(c, s, run);
    assert run[..|run|] == run;
  }
}
