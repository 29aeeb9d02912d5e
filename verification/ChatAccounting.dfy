// The budget calls of a chat turn are a run of one caller of the token accounting.
module ChatAccounting {
  import opened CheckerTypes
  import opened ChatHistory
  import opened ChatTurn
  import opened TokenBudget
  import A = TokenAccounting

  // ------------------------------------------------------- the effect of a call log

  datatype Money = Money(usage: seq<Usage>, used: int)

  datatype Stamped = Stamped(call: BudgetCall, now: int)

  function Pay(ws: seq<Window>, m: Money, s: Stamped): (r: Money)
    requires |m.usage| == |ws|
    ensures |r.usage| == |ws|
  {
    match s.call
    case SessionReserved(n) => m.(usage := ChargeAll(ws, m.usage, n, s.now))
    case SessionReleased(n) => m.(usage := CreditAll(m.usage, n))
    case SessionRecorded(n) => m.(usage := ChargeAll(ws, m.usage, n, s.now))
    case AggregateReserved(n) => m.(used := m.used + n)
    case AggregateReleased(n) => m.(used := if n <= 0 then m.used else Max(m.used - n, 0))
    case AggregateRecorded(n) => m.(used := m.used + n)
  }

  function PayAll(ws: seq<Window>, m: Money, log: seq<Stamped>): (r: Money)
    requires |m.usage| == |ws|
    ensures |r.usage| == |ws|
  {
    if log == [] then m else Pay(ws, PayAll(ws, m, log[..|log| - 1]), log[|log| - 1])
  }

  lemma {:induction false} PayConcat(ws: seq<Window>, m: Money, a: seq<Stamped>, b: seq<Stamped>)
    requires |m.usage| == |ws|
    ensures PayAll(ws, m, a + b) == PayAll(ws, PayAll(ws, m, a), b)
  {
    if b == [] {
      assert a + b == a;
    } else {
      var n := |b| - 1;
      PayConcat(ws, m, a, b[..n]);
      assert (a + b)[..|a + b| - 1] == a + b[..n];
    }
  }

  function Stamp(calls: seq<BudgetCall>, now: int): (r: seq<Stamped>)
    ensures |r| == |calls|
  {
    seq(|calls|, i requires 0 <= i < |calls| => Stamped(calls[i], now))
  }

  function Calls(log: seq<Stamped>): (r: seq<BudgetCall>)
    ensures |r| == |log|
  {
    seq(|log|, i requires 0 <= i < |log| => log[i].call)
  }

  lemma CallsConcat(a: seq<Stamped>, b: seq<Stamped>)
    ensures Calls(a + b) == Calls(a) + Calls(b)
  {
  }

  lemma CallsOfStamp(calls: seq<BudgetCall>, now: int)
    ensures Calls(Stamp(calls, now)) == calls
  {
  }

  // ------------------------------------------------- the log of a turn, with times

  // When an iteration reserves and when it settles.
  datatype Times = Times(reserve: int, settle: int)

  function CallLog(a: Agent, n: int, tokens: int, t: Times): seq<Stamped> {
    Stamp(ReserveCalls(a, n), t.reserve) + Stamp(SettleCalls(a, n, tokens), t.settle)
  }

  function EndingLog(a: Agent, n: int, e: Ending, t: Times): seq<Stamped> {
    match e
    case AggregateRefused => Stamp(EndingCalls(a, n, e), t.reserve)
    case CallFailed(tokens) => CallLog(a, n, tokens, t)
    case Answered(_, tokens) => CallLog(a, n, tokens, t)
    case _ => []
  }

  function RoundsLog(a: Agent, ms: seq<ChatMessage>, rs: seq<Round>, clock: nat -> Times): seq<Stamped>
    requires WellFormedRounds(rs)
  {
    if |rs| == 0 then []
    else
      var before := rs[..|rs| - 1];
      RoundsLog(a, ms, before, clock)
      + CallLog(a, Reservation(a, HistoryAfter(ms, before)), rs[|rs| - 1].tokens, clock(|rs| - 1))
  }

  function TurnLog(a: Agent, ms: seq<ChatMessage>, rs: seq<Round>, e: Ending, clock: nat -> Times): seq<Stamped>
    requires WellFormedRounds(rs)
  {
    RoundsLog(a, ms, rs, clock) + EndingLog(a, Reservation(a, HistoryAfter(ms, rs)), e, clock(|rs|))
  }

  lemma CallLogIsCalls(a: Agent, n: int, tokens: int, t: Times)
    ensures Calls(CallLog(a, n, tokens, t)) == CallCalls(a, n, tokens)
  {
    CallsConcat(Stamp(ReserveCalls(a, n), t.reserve), Stamp(SettleCalls(a, n, tokens), t.settle));
    CallsOfStamp(ReserveCalls(a, n), t.reserve);
    CallsOfStamp(SettleCalls(a, n, tokens), t.settle);
  }

  lemma {:induction false} RoundsLogIsCalls(a: Agent, ms: seq<ChatMessage>, rs: seq<Round>, clock: nat -> Times)
    requires WellFormedRounds(rs)
    ensures Calls(RoundsLog(a, ms, rs, clock)) == RoundsCalls(a, ms, rs)
  {
    if |rs| > 0 {
      var before := rs[..|rs| - 1];
      var n, t := Reservation(a, HistoryAfter(ms, before)), clock(|rs| - 1);
      RoundsLogIsCalls(a, ms, before, clock);
      CallLogIsCalls(a, n, rs[|rs| - 1].tokens, t);
      CallsConcat(RoundsLog(a, ms, before, clock), CallLog(a, n, rs[|rs| - 1].tokens, t));
    }
  }

  /** The log is that of the turn, for any times. */
  lemma {:induction false} TurnLogIsCalls(a: Agent, ms: seq<ChatMessage>, rs: seq<Round>, e: Ending, clock: nat -> Times)
    requires WellFormedRounds(rs)
    ensures Calls(TurnLog(a, ms, rs, e, clock)) == TurnCalls(a, ms, rs, e)
  {
    var n, t := Reservation(a, HistoryAfter(ms, rs)), clock(|rs|);
    RoundsLogIsCalls(a, ms, rs, clock);
    CallsConcat(RoundsLog(a, ms, rs, clock), EndingLog(a, n, e, t));
    match e
    case AggregateRefused => CallsOfStamp(EndingCalls(a, n, e), t.reserve);
    case CallFailed(tokens) => CallLogIsCalls(a, n, tokens, t);
    case Answered(_, tokens) => CallLogIsCalls(a, n, tokens, t);
    case _ =>
  }

  // ----------------------------------------------------- the caller's actions

  // The accounting has the budgets that the agent has.
  predicate SameBudgets(a: Agent, c: A.Setup) {
    (!a.hasBudget ==> c.windows == []) && (a.hasChatBudget <==> c.chatLimit.Some?)
  }

  function CallActions(a: Agent, n: int, tokens: int, t: Times): seq<A.Action> {
    if a.hasChatBudget then
      [A.Reserve(0, n, t.reserve), A.Load(0), A.Swap(0), A.Reply(0, tokens, t.settle), A.LoadToReturn(0), A.SwapToReturn(0)]
    else [A.Reserve(0, n, t.reserve), A.Load(0), A.Reply(0, tokens, t.settle)]
  }

  function EndingActions(a: Agent, n: int, e: Ending, t: Times): seq<A.Action> {
    match e
    case AggregateRefused => [A.Reserve(0, n, t.reserve), A.Load(0), A.Swap(0), A.GiveBack(0)]
    case CallFailed(tokens) => CallActions(a, n, tokens, t)
    case Answered(_, tokens) => CallActions(a, n, tokens, t)
    case _ => []
  }

  function RoundsActions(a: Agent, ms: seq<ChatMessage>, rs: seq<Round>, clock: nat -> Times): seq<A.Action>
    requires WellFormedRounds(rs)
  {
    if |rs| == 0 then []
    else
      var before := rs[..|rs| - 1];
      RoundsActions(a, ms, before, clock)
      + CallActions(a, Reservation(a, HistoryAfter(ms, before)), rs[|rs| - 1].tokens, clock(|rs| - 1))
  }

  function TurnActions(a: Agent, ms: seq<ChatMessage>, rs: seq<Round>, e: Ending, clock: nat -> Times): seq<A.Action>
    requires WellFormedRounds(rs)
  {
    RoundsActions(a, ms, rs, clock) + EndingActions(a, Reservation(a, HistoryAfter(ms, rs)), e, clock(|rs|))
  }

  // The budgets as they are would grant the reservation.
  predicate SessionGrants(c: A.Setup, s: A.State, n: int, now: int)
    requires A.Shaped(c, s)
  {
    AllFit(c.windows, s.usage, n, now)
  }

  predicate AggregateGrants(c: A.Setup, s: A.State, n: int) {
    c.chatLimit.Some? ==> s.used + n <= c.chatLimit.value
  }

  // Every reservation that the turn was granted is one the accounting grants.
  predicate RoundsGranted(c: A.Setup, s: A.State, a: Agent, ms: seq<ChatMessage>, rs: seq<Round>, clock: nat -> Times)
    requires A.Shaped(c, s) && WellFormedRounds(rs)
  {
    |rs| > 0 ==>
      var before := rs[..|rs| - 1];
      var n, t := Reservation(a, HistoryAfter(ms, before)), clock(|rs| - 1);
      var at := A.After(c, s, RoundsActions(a, ms, before, clock));
      RoundsGranted(c, s, a, ms, before, clock) && SessionGrants(c, at, n, t.reserve) && AggregateGrants(c, at, n)
  }

  predicate EndingGranted(c: A.Setup, s: A.State, n: int, e: Ending, t: Times)
    requires A.Shaped(c, s)
  {
    match e
    case AggregateRefused => SessionGrants(c, s, n, t.reserve) && !AggregateGrants(c, s, n)
    case CallFailed(_) => SessionGrants(c, s, n, t.reserve) && AggregateGrants(c, s, n)
    case Answered(_, _) => SessionGrants(c, s, n, t.reserve) && AggregateGrants(c, s, n)
    case _ => true
  }

  // ------------------------------------------------------------ one iteration

  function Shown(s: A.State): Money {
    Money(s.usage, s.used)
  }

  predicate Resting(c: A.Setup, s: A.State) {
    A.Shaped(c, s) && |s.callers| > 0 && s.callers[0].phase.Idle?
  }

  lemma AfterAppend(c: A.Setup, s: A.State, run: seq<A.Action>, a: A.Action)
    requires A.Shaped(c, s)
    ensures A.After(c, s, run + [a]) == A.Next(c, A.After(c, s, run), a)
  {
    assert (run + [a])[..|run|] == run;
  }

  lemma {:induction false} AfterConcat(c: A.Setup, s: A.State, a: seq<A.Action>, b: seq<A.Action>)
    requires A.Shaped(c, s)
    ensures A.After(c, s, a + b) == A.After(c, A.After(c, s, a), b)
  {
    if b == [] {
      assert a + b == a;
    } else {
      var n := |b| - 1;
      AfterConcat(c, s, a, b[..n]);
      assert (a + b)[..|a + b| - 1] == a + b[..n];
    }
  }

  lemma {:induction false} AfterThree(c: A.Setup, s: A.State, x: A.Action, y: A.Action, z: A.Action)
    requires A.Shaped(c, s)
    ensures A.After(c, s, [x, y, z]) == A.Next(c, A.Next(c, A.Next(c, s, x), y), z)
  {
    assert A.After(c, s, []) == s;
    AfterAppend(c, s, [], x);
    AfterAppend(c, s, [x], y);
    AfterAppend(c, s, [x, y], z);
    assert [] + [x] == [x] && [x] + [y] == [x, y] && [x, y] + [z] == [x, y, z];
  }

  lemma PayOne(ws: seq<Window>, m: Money, x: Stamped)
    requires |m.usage| == |ws|
    ensures PayAll(ws, m, [x]) == Pay(ws, m, x) && PayAll(ws, m, []) == m
  {
    assert [x][..0] == [];
  }

  lemma {:induction false} PayTwo(ws: seq<Window>, m: Money, x: Stamped, y: Stamped)
    requires |m.usage| == |ws|
    ensures PayAll(ws, m, [x, y]) == Pay(ws, Pay(ws, m, x), y)
  {
    PayOne(ws, m, x);
    assert [x, y][..1] == [x];
  }

  // The state while a call of the turn runs.
  predicate Running(c: A.Setup, s: A.State, n: int) {
    A.Shaped(c, s) && |s.callers| > 0 && s.callers[0].phase == A.CallRunning(n)
  }

  lemma NoWindowsNoUsage(ws: seq<Window>, us: seq<Usage>, n: int, now: int)
    requires |us| == |ws| == 0
    ensures ChargeAll(ws, us, n, now) == us && CreditAll(us, n) == us
  {
  }

  // Reserving, without and with an aggregate.
  lemma {:induction false} ReserveAlone(a: Agent, c: A.Setup, s: A.State, n: int, now: int)
    requires SameBudgets(a, c) && Resting(c, s) && n >= A.MIN_RESERVATION && !a.hasChatBudget
    requires SessionGrants(c, s, n, now)
    ensures var t := A.Next(c, A.Next(c, s, A.Reserve(0, n, now)), A.Load(0));
            Running(c, t, n) && Shown(t) == PayAll(c.windows, Shown(s), Stamp(ReserveCalls(a, n), now))
  {
    var m := Shown(s);
    if a.hasBudget {
      assert Stamp(ReserveCalls(a, n), now) == [Stamped(SessionReserved(n), now)];
      PayOne(c.windows, m, Stamped(SessionReserved(n), now));
    } else {
      assert Stamp(ReserveCalls(a, n), now) == [];
      NoWindowsNoUsage(c.windows, s.usage, n, now);
    }
  }

  lemma {:induction false} ReserveWithAggregate(a: Agent, c: A.Setup, s: A.State, n: int, now: int)
    requires SameBudgets(a, c) && Resting(c, s) && n >= A.MIN_RESERVATION && a.hasChatBudget
    requires SessionGrants(c, s, n, now) && AggregateGrants(c, s, n)
    ensures var t := A.Next(c, A.Next(c, A.Next(c, s, A.Reserve(0, n, now)), A.Load(0)), A.Swap(0));
            Running(c, t, n) && Shown(t) == PayAll(c.windows, Shown(s), Stamp(ReserveCalls(a, n), now))
  {
    var m := Shown(s);
    var x, y := Stamped(SessionReserved(n), now), Stamped(AggregateReserved(n), now);
    if a.hasBudget {
      assert Stamp(ReserveCalls(a, n), now) == [x, y];
      PayTwo(c.windows, m, x, y);
    } else {
      assert Stamp(ReserveCalls(a, n), now) == [y];
      PayOne(c.windows, m, y);
      NoWindowsNoUsage(c.windows, s.usage, n, now);
    }
  }

  // What settling does to usage and to the aggregate.
  function AggregateAfter(used: int, n: int, tokens: int): int {
    var actual := Max(tokens, 0);
    if actual < n then Max(used - (n - actual), 0) else used + (actual - n)
  }

  lemma {:induction false} SettlePaid(a: Agent, ws: seq<Window>, m: Money, n: int, tokens: int, now: int)
    requires |m.usage| == |ws| && (!a.hasBudget ==> ws == [])
    ensures PayAll(ws, m, Stamp(SettleCalls(a, n, tokens), now)) ==
            Money(A.Settle(ws, m.usage, n, Max(tokens, 0), now),
                  if a.hasChatBudget then AggregateAfter(m.used, n, tokens) else m.used)
  {
    var actual := Max(tokens, 0);
    var x := Stamped(if actual <= n then SessionReleased(n - actual) else SessionRecorded(actual - n), now);
    var y := Stamped(if actual <= n then AggregateReleased(n - actual) else AggregateRecorded(actual - n), now);
    PayOne(ws, m, x);
    PayOne(ws, m, y);
    PayTwo(ws, m, x, y);
    if !a.hasBudget {
      NoWindowsNoUsage(ws, m.usage, n - actual, now);
      NoWindowsNoUsage(ws, m.usage, actual - n, now);
    }
    var log := Stamp(SettleCalls(a, n, tokens), now);
    assert log == (if a.hasBudget then [x] else []) + (if a.hasChatBudget then [y] else []);
  }

  lemma SettleAlone(a: Agent, c: A.Setup, s: A.State, n: int, tokens: int, now: int)
    requires SameBudgets(a, c) && Running(c, s, n) && !a.hasChatBudget
    ensures var t := A.Next(c, s, A.Reply(0, tokens, now));
            Resting(c, t) && Shown(t) == PayAll(c.windows, Shown(s), Stamp(SettleCalls(a, n, tokens), now))
  {
    SettlePaid(a, c.windows, Shown(s), n, tokens, now);
  }

  lemma SettleWithAggregate(a: Agent, c: A.Setup, s: A.State, n: int, tokens: int, now: int)
    requires SameBudgets(a, c) && Running(c, s, n) && a.hasChatBudget
    ensures var t := A.Next(c, A.Next(c, A.Next(c, s, A.Reply(0, tokens, now)), A.LoadToReturn(0)), A.SwapToReturn(0));
            Resting(c, t) && Shown(t) == PayAll(c.windows, Shown(s), Stamp(SettleCalls(a, n, tokens), now))
  {
    SettlePaid(a, c.windows, Shown(s), n, tokens, now);
  }

  lemma {:induction false} CallIsRun(a: Agent, c: A.Setup, s: A.State, n: int, tokens: int, t: Times)
    requires SameBudgets(a, c) && Resting(c, s) && n >= A.MIN_RESERVATION
    requires SessionGrants(c, s, n, t.reserve) && AggregateGrants(c, s, n)
    ensures var r := A.After(c, s, CallActions(a, n, tokens, t));
            Resting(c, r) && Shown(r) == PayAll(c.windows, Shown(s), CallLog(a, n, tokens, t))
  {
    PayConcat(c.windows, Shown(s), Stamp(ReserveCalls(a, n), t.reserve), Stamp(SettleCalls(a, n, tokens), t.settle));
    var reserve, load, swap := A.Reserve(0, n, t.reserve), A.Load(0), A.Swap(0);
    var reply, back, give := A.Reply(0, tokens, t.settle), A.LoadToReturn(0), A.SwapToReturn(0);
    if a.hasChatBudget {
      ReserveWithAggregate(a, c, s, n, t.reserve);
      AfterThree(c, s, reserve, load, swap);
      var mid := A.After(c, s, [reserve, load, swap]);
      SettleWithAggregate(a, c, mid, n, tokens, t.settle);
      AfterThree(c, mid, reply, back, give);
      AfterConcat(c, s, [reserve, load, swap], [reply, back, give]);
      assert CallActions(a, n, tokens, t) == [reserve, load, swap] + [reply, back, give];
    } else {
      ReserveAlone(a, c, s, n, t.reserve);
      AfterThree(c, s, reserve, load, reply);
      SettleAlone(a, c, A.Next(c, A.Next(c, s, reserve), load), n, tokens, t.settle);
    }
  }

  // What a reservation that the aggregate refuses leaves of usage.
  function Refunded(ws: seq<Window>, us: seq<Usage>, n: int, now: int): seq<Usage>
    requires |us| == |ws|
  {
    CreditAll(ChargeAll(ws, us, n, now), n)
  }

  lemma {:induction false} RefusalPaid(a: Agent, ws: seq<Window>, m: Money, n: int, t: Times)
    requires |m.usage| == |ws| && (!a.hasBudget ==> ws == [])
    ensures PayAll(ws, m, EndingLog(a, n, AggregateRefused, t)) == m.(usage := Refunded(ws, m.usage, n, t.reserve))
  {
    var x, y := Stamped(SessionReserved(n), t.reserve), Stamped(SessionReleased(n), t.reserve);
    if a.hasBudget {
      assert EndingLog(a, n, AggregateRefused, t) == [x, y];
      PayTwo(ws, m, x, y);
    } else {
      assert EndingLog(a, n, AggregateRefused, t) == [];
      NoWindowsNoUsage(ws, m.usage, n, t.reserve);
    }
  }

  lemma {:induction false} RefusalState(c: A.Setup, s: A.State, n: int, now: int)
    requires Resting(c, s) && n >= A.MIN_RESERVATION && c.chatLimit.Some?
    requires SessionGrants(c, s, n, now) && !AggregateGrants(c, s, n)
    ensures var r := A.Next(c, A.Next(c, A.Next(c, A.Next(c, s, A.Reserve(0, n, now)), A.Load(0)), A.Swap(0)), A.GiveBack(0));
            Resting(c, r) && Shown(r) == Shown(s).(usage := Refunded(c.windows, s.usage, n, now))
  {
  }

  lemma {:induction false} RefusalIsRun(a: Agent, c: A.Setup, s: A.State, n: int, t: Times)
    requires SameBudgets(a, c) && Resting(c, s) && n >= A.MIN_RESERVATION && a.hasChatBudget
    requires SessionGrants(c, s, n, t.reserve) && !AggregateGrants(c, s, n)
    ensures var r := A.After(c, s, EndingActions(a, n, AggregateRefused, t));
            Resting(c, r) && Shown(r) == PayAll(c.windows, Shown(s), EndingLog(a, n, AggregateRefused, t))
  {
    var reserve, load, swap, give := A.Reserve(0, n, t.reserve), A.Load(0), A.Swap(0), A.GiveBack(0);
    AfterThree(c, s, reserve, load, swap);
    AfterAppend(c, s, [reserve, load, swap], give);
    assert [reserve, load, swap] + [give] == EndingActions(a, n, AggregateRefused, t);
    RefusalState(c, s, n, t.reserve);
    RefusalPaid(a, c.windows, Shown(s), n, t);
  }

  // --------------------------------------------------------------- a whole turn

  lemma {:induction false} RoundsAreRun(a: Agent, c: A.Setup, s: A.State, ms: seq<ChatMessage>, rs: seq<Round>, clock: nat -> Times)
    requires WellFormedRounds(rs) && SameBudgets(a, c) && Resting(c, s)
    requires RoundsGranted(c, s, a, ms, rs, clock)
    ensures var r := A.After(c, s, RoundsActions(a, ms, rs, clock));
            Resting(c, r) && Shown(r) == PayAll(c.windows, Shown(s), RoundsLog(a, ms, rs, clock))
  {
    if |rs| > 0 {
      var before, tokens := rs[..|rs| - 1], rs[|rs| - 1].tokens;
      var n, t := Reservation(a, HistoryAfter(ms, before)), clock(|rs| - 1);
      RoundsAreRun(a, c, s, ms, before, clock);
      var at := A.After(c, s, RoundsActions(a, ms, before, clock));
      CallIsRun(a, c, at, n, tokens, t);
      AfterConcat(c, s, RoundsActions(a, ms, before, clock), CallActions(a, n, tokens, t));
      PayConcat(c.windows, Shown(s), RoundsLog(a, ms, before, clock), CallLog(a, n, tokens, t));
    }
  }

  /** If the accounting grants what the turn was granted, the calls that the turn makes on
      its budgets are, in order and effect, a run of one caller, idle before and after. */
  lemma {:induction false} TurnIsRunOfOneCaller(a: Agent, c: A.Setup, s: A.State, ms: seq<ChatMessage>, rs: seq<Round>,
                                                e: Ending, clock: nat -> Times)
    requires WellFormedRounds(rs) && SameBudgets(a, c) && Resting(c, s)
    requires e.AggregateRefused? ==> a.hasChatBudget
    requires RoundsGranted(c, s, a, ms, rs, clock)
    requires EndingGranted(c, A.After(c, s, RoundsActions(a, ms, rs, clock)),
                           Reservation(a, HistoryAfter(ms, rs)), e, clock(|rs|))
    ensures var r := A.After(c, s, TurnActions(a, ms, rs, e, clock));
            Resting(c, r) && Shown(r) == PayAll(c.windows, Shown(s), TurnLog(a, ms, rs, e, clock))
    ensures Calls(TurnLog(a, ms, rs, e, clock)) == TurnCalls(a, ms, rs, e)
  {
    var n, t := Reservation(a, HistoryAfter(ms, rs)), clock(|rs|);
    RoundsAreRun(a, c, s, ms, rs, clock);
    var at := A.After(c, s, RoundsActions(a, ms, rs, clock));
    match e {
      case AggregateRefused => RefusalIsRun(a, c, at, n, t);
      case CallFailed(tokens) => CallIsRun(a, c, at, n, tokens, t);
      case Answered(_, tokens) => CallIsRun(a, c, at, n, tokens, t);
      case _ =>
    }
    AfterConcat(c, s, RoundsActions(a, ms, rs, clock), EndingActions(a, n, e, t));
    PayConcat(c.windows, Shown(s), RoundsLog(a, ms, rs, clock), EndingLog(a, n, e, t));
    TurnLogIsCalls(a, ms, rs, e, clock);
  }
}
