// One conversational turn of the chat agent: reserve, call the provider, settle, run the
// requested tools, repeat. Whatever the turn cannot decide itself (cancellation, budget
// answers under contention, provider replies, tool outputs) is read from a World.
module ChatTurn {
  import opened CheckerTypes
  import opened ChatHistory
  import opened AnthropicMessages
  import opened TokenBudget
  import A = TokenAccounting

  const OPENAI := "openai"
  const ANTHROPIC := "anthropic"

  datatype Agent = Agent(
    providerName: string, maxIterations: int, maxTokens: int, hasBudget: bool, hasChatBudget: bool)

  datatype Reply =
    | Answer(content: string, calls: seq<ToolCall>, tokens: int)
    | Failed(tokens: int)

  datatype ToolOutput = Output(text: string) | ToolError(text: string)

  datatype World = World(
    cancelled: nat -> bool,
    sessionGrants: nat -> bool,
    aggregateGrants: nat -> bool,
    reply: nat -> Reply,
    execute: (nat, nat) -> ToolOutput)

  datatype ChatEvent =
    | Thinking
    | ToolCallEvent(tool: string, args: string)
    | ToolResultEvent(tool: string, content: string)
    | ContentEvent(content: string, tokens: int)
    | ErrorEvent(content: string)
    | Done(tokens: int)

  datatype BudgetCall =
    | SessionReserved(n: int)
    | SessionReleased(n: int)
    | SessionRecorded(n: int)
    | AggregateReserved(n: int)
    | AggregateReleased(n: int)
    | AggregateRecorded(n: int)

  // A provider call that asked for tools, with what the tools returned.
  datatype Round = Round(content: string, calls: seq<ToolCall>, results: seq<string>, tokens: int)

  datatype Ending =
    | Unsupported
    | Cancelled
    | SessionRefused
    | AggregateRefused
    | CallFailed(tokens: int)
    | Answered(content: string, tokens: int)
    | Exhausted

  // ------------------------------------------------------------- specification

  predicate WellFormedRound(r: Round) {
    r.calls != [] && |r.results| == |r.calls|
  }

  predicate WellFormedRounds(rs: seq<Round>) {
    forall k :: 0 <= k < |rs| ==> WellFormedRound(rs[k])
  }

  function ToolMessages(calls: seq<ToolCall>, results: seq<string>): (r: seq<ChatMessage>)
    requires |results| == |calls|
    ensures Answers(calls, r)
  {
    seq(|calls|, i requires 0 <= i < |calls| => ChatMessage(Tool, results[i], calls[i].id, []))
  }

  function RoundMessages(r: Round): seq<ChatMessage>
    requires WellFormedRound(r)
  {
    [ChatMessage(Assistant, r.content, "", r.calls)] + ToolMessages(r.calls, r.results)
  }

  // The history after some rounds, before the next compaction.
  function HistoryAfter(ms: seq<ChatMessage>, rs: seq<Round>): seq<ChatMessage>
    requires WellFormedRounds(rs)
  {
    if |rs| == 0 then ms
    else Compact(HistoryAfter(ms, rs[..|rs| - 1])) + RoundMessages(rs[|rs| - 1])
  }

  function FinalHistory(ms: seq<ChatMessage>, rs: seq<Round>, e: Ending): seq<ChatMessage>
    requires WellFormedRounds(rs)
  {
    match e
    case CallFailed(_) => Compact(HistoryAfter(ms, rs))
    case Answered(content, _) => Compact(HistoryAfter(ms, rs)) + [ChatMessage(Assistant, content, "", [])]
    case _ => HistoryAfter(ms, rs)
  }

  function ToolEvents(calls: seq<ToolCall>, results: seq<string>): seq<ChatEvent>
    requires |results| == |calls|
  {
    if |calls| == 0 then []
    else
      var n := |calls| - 1;
      ToolEvents(calls[..n], results[..n])
      + [ToolCallEvent(calls[n].name, calls[n].args), ToolResultEvent(calls[n].name, results[n])]
  }

  function RoundEvents(rs: seq<Round>): seq<ChatEvent>
    requires WellFormedRounds(rs)
  {
    if |rs| == 0 then []
    else
      var r := rs[|rs| - 1];
      RoundEvents(rs[..|rs| - 1]) + [Thinking] + ToolEvents(r.calls, r.results)
  }

  function EndingEvents(e: Ending): seq<ChatEvent> {
    match e
    case Unsupported => []
    case Cancelled => [ErrorEvent("context cancelled")]
    case SessionRefused => [ErrorEvent("Token budget exceeded. Please try again later.")]
    case AggregateRefused => [ErrorEvent("Aggregate chat token budget exceeded.")]
    case CallFailed(_) => [Thinking, ErrorEvent("An error occurred while processing your request")]
    case Answered(content, tokens) => [Thinking, ContentEvent(content, tokens)]
    case Exhausted => [ErrorEvent("max iterations reached")]
  }

  function Transcript(rs: seq<Round>, e: Ending): seq<ChatEvent>
    requires WellFormedRounds(rs)
  {
    RoundEvents(rs) + EndingEvents(e) + [Done(Reported(rs, e))]
  }

  // The token total handed to the caller: successful calls only.
  function Reported(rs: seq<Round>, e: Ending): int {
    if |rs| == 0 then if e.Answered? then e.tokens else 0
    else Reported(rs[..|rs| - 1], e) + rs[|rs| - 1].tokens
  }

  // What the budgets should be charged: every call, negative counts as zero.
  function Charged(rs: seq<Round>, e: Ending): int {
    if |rs| == 0 then if e.Answered? || e.CallFailed? then Max(e.tokens, 0) else 0
    else Charged(rs[..|rs| - 1], e) + Max(rs[|rs| - 1].tokens, 0)
  }

  function SessionNet(ops: seq<BudgetCall>): int {
    if |ops| == 0 then 0
    else
      var rest := SessionNet(ops[..|ops| - 1]);
      match ops[|ops| - 1]
      case SessionReserved(n) => rest + n
      case SessionReleased(n) => rest - n
      case SessionRecorded(n) => rest + n
      case _ => rest
  }

  function AggregateNet(ops: seq<BudgetCall>): int {
    if |ops| == 0 then 0
    else
      var rest := AggregateNet(ops[..|ops| - 1]);
      match ops[|ops| - 1]
      case AggregateReserved(n) => rest + n
      case AggregateReleased(n) => rest - n
      case AggregateRecorded(n) => rest + n
      case _ => rest
  }

  // ------------------------------------------------------ the budget calls of a turn

  // The estimated input and the largest output, but five hundred at least.
  function Reservation(a: Agent, history: seq<ChatMessage>): (n: int)
    ensures n >= 500 && n >= EstimatedTokens(history) + a.maxTokens
    ensures n == 500 || n == EstimatedTokens(history) + a.maxTokens
  {
    Max(EstimatedTokens(history) + a.maxTokens, A.MIN_RESERVATION)
  }

  function When(present: bool, op: BudgetCall): seq<BudgetCall> {
    if present then [op] else []
  }

  function ReserveCalls(a: Agent, n: int): seq<BudgetCall> {
    When(a.hasBudget, SessionReserved(n)) + When(a.hasChatBudget, AggregateReserved(n))
  }

  function SettleCalls(a: Agent, n: int, tokens: int): seq<BudgetCall> {
    var actual := Max(tokens, 0);
    if actual <= n then
      When(a.hasBudget, SessionReleased(n - actual)) + When(a.hasChatBudget, AggregateReleased(n - actual))
    else
      When(a.hasBudget, SessionRecorded(actual - n)) + When(a.hasChatBudget, AggregateRecorded(actual - n))
  }

  function CallCalls(a: Agent, n: int, tokens: int): seq<BudgetCall> {
    ReserveCalls(a, n) + SettleCalls(a, n, tokens)
  }

  function EndingCalls(a: Agent, n: int, e: Ending): seq<BudgetCall> {
    match e
    case AggregateRefused => When(a.hasBudget, SessionReserved(n)) + When(a.hasBudget, SessionReleased(n))
    case CallFailed(tokens) => CallCalls(a, n, tokens)
    case Answered(_, tokens) => CallCalls(a, n, tokens)
    case _ => []
  }

  function RoundsCalls(a: Agent, ms: seq<ChatMessage>, rs: seq<Round>): seq<BudgetCall>
    requires WellFormedRounds(rs)
  {
    if |rs| == 0 then []
    else
      var before := rs[..|rs| - 1];
      RoundsCalls(a, ms, before) + CallCalls(a, Reservation(a, HistoryAfter(ms, before)), rs[|rs| - 1].tokens)
  }

  // Every reservation is for the history of its iteration and is settled or given back
  // before the next one.
  function TurnCalls(a: Agent, ms: seq<ChatMessage>, rs: seq<Round>, e: Ending): seq<BudgetCall>
    requires WellFormedRounds(rs)
  {
    RoundsCalls(a, ms, rs) + EndingCalls(a, Reservation(a, HistoryAfter(ms, rs)), e)
  }

  lemma {:induction false} NetConcat(a: seq<BudgetCall>, b: seq<BudgetCall>)
    ensures SessionNet(a + b) == SessionNet(a) + SessionNet(b)
    ensures AggregateNet(a + b) == AggregateNet(a) + AggregateNet(b)
  {
    if b == [] {
      assert a + b == a;
    } else {
      var n := |b| - 1;
      NetConcat(a, b[..n]);
      assert (a + b)[..|a + b| - 1] == a + b[..n];
    }
  }

  lemma NetOfOne(present: bool, op: BudgetCall)
    ensures SessionNet(When(present, op)) == if present then SessionNet([op]) else 0
    ensures AggregateNet(When(present, op)) == if present then AggregateNet([op]) else 0
    ensures [op][..0] == []
  {
  }

  lemma {:induction false} NetOfSettle(a: Agent, n: int, tokens: int)
    ensures SessionNet(SettleCalls(a, n, tokens)) == if a.hasBudget then Max(tokens, 0) - n else 0
    ensures AggregateNet(SettleCalls(a, n, tokens)) == if a.hasChatBudget then Max(tokens, 0) - n else 0
  {
    var actual := Max(tokens, 0);
    var s := if actual <= n then SessionReleased(n - actual) else SessionRecorded(actual - n);
    var g := if actual <= n then AggregateReleased(n - actual) else AggregateRecorded(actual - n);
    NetOfOne(a.hasBudget, s);
    NetOfOne(a.hasChatBudget, g);
    NetConcat(When(a.hasBudget, s), When(a.hasChatBudget, g));
  }

  lemma {:induction false} NetOfReserve(a: Agent, n: int)
    ensures SessionNet(ReserveCalls(a, n)) == if a.hasBudget then n else 0
    ensures AggregateNet(ReserveCalls(a, n)) == if a.hasChatBudget then n else 0
  {
    NetOfOne(a.hasBudget, SessionReserved(n));
    NetOfOne(a.hasChatBudget, AggregateReserved(n));
    NetConcat(When(a.hasBudget, SessionReserved(n)), When(a.hasChatBudget, AggregateReserved(n)));
  }

  lemma {:induction false} NetOfCall(a: Agent, n: int, tokens: int)
    ensures SessionNet(CallCalls(a, n, tokens)) == if a.hasBudget then Max(tokens, 0) else 0
    ensures AggregateNet(CallCalls(a, n, tokens)) == if a.hasChatBudget then Max(tokens, 0) else 0
  {
    NetOfReserve(a, n);
    NetOfSettle(a, n, tokens);
    NetConcat(ReserveCalls(a, n), SettleCalls(a, n, tokens));
  }

  lemma {:induction false} NetOfEnding(a: Agent, n: int, e: Ending)
    ensures SessionNet(EndingCalls(a, n, e)) == if a.hasBudget then Charged([], e) else 0
    ensures AggregateNet(EndingCalls(a, n, e)) == if a.hasChatBudget then Charged([], e) else 0
  {
    match e
    case AggregateRefused =>
      NetOfOne(a.hasBudget, SessionReserved(n));
      NetOfOne(a.hasBudget, SessionReleased(n));
      NetConcat(When(a.hasBudget, SessionReserved(n)), When(a.hasBudget, SessionReleased(n)));
    case CallFailed(tokens) => NetOfCall(a, n, tokens);
    case Answered(_, tokens) => NetOfCall(a, n, tokens);
    case _ =>
  }

  lemma {:induction false} NetOfRounds(a: Agent, ms: seq<ChatMessage>, rs: seq<Round>)
    requires WellFormedRounds(rs)
    ensures SessionNet(RoundsCalls(a, ms, rs)) == if a.hasBudget then Charged(rs, Exhausted) else 0
    ensures AggregateNet(RoundsCalls(a, ms, rs)) == if a.hasChatBudget then Charged(rs, Exhausted) else 0
  {
    if |rs| > 0 {
      var before, n := rs[..|rs| - 1], Reservation(a, HistoryAfter(ms, rs[..|rs| - 1]));
      NetOfRounds(a, ms, before);
      NetOfCall(a, n, rs[|rs| - 1].tokens);
      NetConcat(RoundsCalls(a, ms, before), CallCalls(a, n, rs[|rs| - 1].tokens));
    }
  }

  /** Over a whole turn each budget is charged with exactly the tokens of its calls. */
  lemma {:induction false} NetOfTurn(a: Agent, ms: seq<ChatMessage>, rs: seq<Round>, e: Ending)
    requires WellFormedRounds(rs)
    ensures NetIs(a, TurnCalls(a, ms, rs, e), Charged(rs, e))
  {
    var n := Reservation(a, HistoryAfter(ms, rs));
    NetOfRounds(a, ms, rs);
    NetOfEnding(a, n, e);
    NetConcat(RoundsCalls(a, ms, rs), EndingCalls(a, n, e));
    SumsWithEnding(rs, e);
  }

  // What the provider call of iteration k gives on a history. The Anthropic
  // translation may fail before anything is sent.
  function Outcome(a: Agent, w: World, k: nat, sent: seq<ChatMessage>): Reply {
    if a.providerName == ANTHROPIC && !WellPlaced(Known(sent)) then Failed(0) else w.reply(k)
  }

  // Iteration k gets as far as the provider call.
  predicate Proceeds(a: Agent, w: World, k: nat) {
    !w.cancelled(k) && (a.hasBudget ==> w.sessionGrants(k)) && (a.hasChatBudget ==> w.aggregateGrants(k))
  }

  function Text(o: ToolOutput): string {
    match o
    case Output(text) => text
    case ToolError(text) => "error: " + text
  }

  predicate RoundHappened(a: Agent, w: World, ms: seq<ChatMessage>, rs: seq<Round>, k: nat)
    requires WellFormedRounds(rs) && k < |rs|
  {
    && Proceeds(a, w, k)
    && Outcome(a, w, k, Compact(HistoryAfter(ms, rs[..k]))) == Answer(rs[k].content, rs[k].calls, rs[k].tokens)
    && forall j :: 0 <= j < |rs[k].calls| ==> rs[k].results[j] == Text(w.execute(k, j))
  }

  predicate EndingHappened(a: Agent, w: World, ms: seq<ChatMessage>, rs: seq<Round>, e: Ending)
    requires WellFormedRounds(rs)
  {
    var k := |rs|;
    var reply := Outcome(a, w, k, Compact(HistoryAfter(ms, rs)));
    match e
    case Unsupported => false
    case Cancelled => w.cancelled(k)
    case SessionRefused => !w.cancelled(k) && a.hasBudget && !w.sessionGrants(k)
    case AggregateRefused =>
      !w.cancelled(k) && (a.hasBudget ==> w.sessionGrants(k)) && a.hasChatBudget && !w.aggregateGrants(k)
    case CallFailed(tokens) => Proceeds(a, w, k) && reply == Failed(tokens)
    case Answered(content, tokens) => Proceeds(a, w, k) && reply == Answer(content, [], tokens)
    case Exhausted => k >= a.maxIterations
  }

  // ------------------------------------------------------------------ the turn

  method CallProvider(a: Agent, w: World, k: nat, msgs: seq<ChatMessage>) returns (r: Reply)
    ensures r == Outcome(a, w, k, msgs)
  {
    if a.providerName == ANTHROPIC {
      var wire := BuildAnthropicMessages(msgs);
      if wire.None? {
        return Failed(0);
      }
    }
    return w.reply(k);
  }

  // After a reservation, leaves each budget charged with exactly the actual count.
  method SettleReservations(a: Agent, ops: seq<BudgetCall>, reserved: int, tokens: int)
    returns (r: seq<BudgetCall>)
    ensures r == ops + SettleCalls(a, reserved, tokens)
    ensures SessionNet(r) == SessionNet(ops) + if a.hasBudget then Max(tokens, 0) - reserved else 0
    ensures AggregateNet(r) == AggregateNet(ops) + if a.hasChatBudget then Max(tokens, 0) - reserved else 0
  {
    var actual := if tokens < 0 then 0 else tokens;
    r := ops;
    if actual <= reserved {
      if a.hasBudget {
        r := r + [SessionReleased(reserved - actual)];
      }
      if a.hasChatBudget {
        r := r + [AggregateReleased(reserved - actual)];
      }
    } else {
      if a.hasBudget {
        r := r + [SessionRecorded(actual - reserved)];
      }
      if a.hasChatBudget {
        r := r + [AggregateRecorded(actual - reserved)];
      }
    }
    assert r == ops + SettleCalls(a, reserved, tokens);
    NetOfSettle(a, reserved, tokens);
    NetConcat(ops, SettleCalls(a, reserved, tokens));
  }

  datatype Grant = Granted | NoSession | NoAggregate

  // Reserves with both budgets or, if either refuses, with neither.
  method ReserveBoth(a: Agent, w: World, k: nat, ops: seq<BudgetCall>, reserved: int)
    returns (g: Grant, r: seq<BudgetCall>)
    ensures g.Granted? <==> (a.hasBudget ==> w.sessionGrants(k)) && (a.hasChatBudget ==> w.aggregateGrants(k))
    ensures g.NoSession? <==> a.hasBudget && !w.sessionGrants(k)
    ensures g.Granted? ==> r == ops + ReserveCalls(a, reserved)
    ensures g.NoSession? ==> r == ops
    ensures g.NoAggregate? ==> r == ops + EndingCalls(a, reserved, AggregateRefused)
    ensures SessionNet(r) == SessionNet(ops) + if g.Granted? && a.hasBudget then reserved else 0
    ensures AggregateNet(r) == AggregateNet(ops) + if g.Granted? && a.hasChatBudget then reserved else 0
  {
    r := ops;
    NetOfReserve(a, reserved);
    NetOfEnding(a, reserved, AggregateRefused);
    NetConcat(ops, ReserveCalls(a, reserved));
    NetConcat(ops, EndingCalls(a, reserved, AggregateRefused));
    if a.hasBudget {
      if !w.sessionGrants(k) {
        return NoSession, r;
      }
      r := r + [SessionReserved(reserved)];
    }
    if a.hasChatBudget {
      if !w.aggregateGrants(k) {
        r := r + When(a.hasBudget, SessionReleased(reserved));
        assert r == ops + EndingCalls(a, reserved, AggregateRefused);
        return NoAggregate, r;
      }
      r := r + [AggregateReserved(reserved)];
    }
    assert r == ops + ReserveCalls(a, reserved);
    return Granted, r;
  }

  lemma {:induction false} OneMoreTool(calls: seq<ToolCall>, results: seq<string>, tc: ToolCall, result: string)
    requires |results| == |calls|
    ensures ToolEvents(calls + [tc], results + [result])
            == ToolEvents(calls, results) + [ToolCallEvent(tc.name, tc.args), ToolResultEvent(tc.name, result)]
    ensures ToolMessages(calls + [tc], results + [result])
            == ToolMessages(calls, results) + [ChatMessage(Tool, result, tc.id, [])]
  {
    assert (calls + [tc])[..|calls|] == calls && (results + [result])[..|calls|] == results;
  }

  // The results of the first j calls of round k.
  predicate ResultsUpTo(w: World, k: nat, j: nat, results: seq<string>) {
    |results| == j && forall i :: 0 <= i < j ==> results[i] == Text(w.execute(k, i))
  }

  lemma OneMoreResult(w: World, k: nat, j: nat, results: seq<string>)
    requires ResultsUpTo(w, k, j, results)
    ensures ResultsUpTo(w, k, j + 1, results + [Text(w.execute(k, j))])
  {
  }

  lemma NextTool(calls: seq<ToolCall>, j: nat, results: seq<string>, result: string)
    requires j < |calls| && |results| == j
    ensures ToolEvents(calls[..j + 1], results + [result])
            == ToolEvents(calls[..j], results) + [ToolCallEvent(calls[j].name, calls[j].args), ToolResultEvent(calls[j].name, result)]
    ensures ToolMessages(calls[..j + 1], results + [result])
            == ToolMessages(calls[..j], results) + [ChatMessage(Tool, result, calls[j].id, [])]
  {
    assert calls[..j + 1] == calls[..j] + [calls[j]];
    OneMoreTool(calls[..j], results, calls[j], result);
  }

  method RunTool(w: World, k: nat, j: nat) returns (result: string)
    ensures result == Text(w.execute(k, j))
  {
    match w.execute(k, j)
    case Output(text) => return text;
    case ToolError(text) => return "error: " + text;
  }

  method RunTools(w: World, k: nat, calls: seq<ToolCall>)
    returns (results: seq<string>, events: seq<ChatEvent>, msgs: seq<ChatMessage>)
    ensures |results| == |calls|
    ensures forall j :: 0 <= j < |calls| ==> results[j] == Text(w.execute(k, j))
    ensures events == ToolEvents(calls, results) && msgs == ToolMessages(calls, results)
  {
    results, events, msgs := [], [], [];
    for j := 0 to |calls|
      invariant ResultsUpTo(w, k, j, results)
      invariant events == ToolEvents(calls[..j], results)
      invariant msgs == ToolMessages(calls[..j], results)
    {
      var tc := calls[j];
      var result := RunTool(w, k, j);
      NextTool(calls, j, results, result);
      OneMoreResult(w, k, j, results);
      events := events + [ToolCallEvent(tc.name, tc.args), ToolResultEvent(tc.name, result)];
      msgs := msgs + [ChatMessage(Tool, result, tc.id, [])];
      results := results + [result];
    }
    assert calls[..|calls|] == calls;
  }

  predicate Supported(a: Agent) {
    a.providerName == OPENAI || a.providerName == ANTHROPIC
  }

  datatype Turn = Turn(
    msgs: seq<ChatMessage>, total: int, rounds: seq<Round>, events: seq<ChatEvent>, ops: seq<BudgetCall>)

  // Everything known between two iterations.
  predicate SoFar(a: Agent, w: World, ms: seq<ChatMessage>, t: Turn) {
    && WellFormedRounds(t.rounds)
    && (forall k :: 0 <= k < |t.rounds| ==> RoundHappened(a, w, ms, t.rounds, k))
    && t.msgs == HistoryAfter(ms, t.rounds)
    && t.events == RoundEvents(t.rounds)
    && t.total == Reported(t.rounds, Exhausted)
    && t.ops == RoundsCalls(a, ms, t.rounds)
  }

  lemma {:induction false} SumsWithEnding(rs: seq<Round>, e: Ending)
    ensures Reported(rs, e) == Reported(rs, Exhausted) + Reported([], e)
    ensures Charged(rs, e) == Charged(rs, Exhausted) + Charged([], e)
  {
    if |rs| > 0 {
      SumsWithEnding(rs[..|rs| - 1], e);
    }
  }

  lemma OneMoreRound(a: Agent, w: World, ms: seq<ChatMessage>, rs: seq<Round>, r: Round)
    requires WellFormedRounds(rs) && WellFormedRound(r)
    requires forall k :: 0 <= k < |rs| ==> RoundHappened(a, w, ms, rs, k)
    requires Proceeds(a, w, |rs|)
    requires Outcome(a, w, |rs|, Compact(HistoryAfter(ms, rs))) == Answer(r.content, r.calls, r.tokens)
    requires forall j :: 0 <= j < |r.calls| ==> r.results[j] == Text(w.execute(|rs|, j))
    ensures forall k :: 0 <= k <= |rs| ==> RoundHappened(a, w, ms, rs + [r], k)
    ensures HistoryAfter(ms, rs + [r]) == Compact(HistoryAfter(ms, rs)) + RoundMessages(r)
    ensures RoundEvents(rs + [r]) == RoundEvents(rs) + [Thinking] + ToolEvents(r.calls, r.results)
    ensures Reported(rs + [r], Exhausted) == Reported(rs, Exhausted) + r.tokens
    ensures RoundsCalls(a, ms, rs + [r])
            == RoundsCalls(a, ms, rs) + CallCalls(a, Reservation(a, HistoryAfter(ms, rs)), r.tokens)
  {
    assert (rs + [r])[..|rs|] == rs;
    forall k | 0 <= k <= |rs| ensures RoundHappened(a, w, ms, rs + [r], k) {
      if k < |rs| {
        EarlierRoundHappened(a, w, ms, rs, r, k);
      }
    }
  }

  lemma {:induction false} EarlierRoundHappened(a: Agent, w: World, ms: seq<ChatMessage>, rs: seq<Round>, r: Round, k: nat)
    requires WellFormedRounds(rs) && WellFormedRound(r) && k < |rs|
    requires RoundHappened(a, w, ms, rs, k)
    ensures RoundHappened(a, w, ms, rs + [r], k)
  {
    assert (rs + [r])[..k] == rs[..k] && (rs + [r])[k] == rs[k];
  }

  lemma CallsInOrder(ops: seq<BudgetCall>, a: Agent, n: int, tokens: int)
    ensures (ops + ReserveCalls(a, n)) + SettleCalls(a, n, tokens) == ops + CallCalls(a, n, tokens)
  {
  }

  lemma NoEndingCalls(ops: seq<BudgetCall>, a: Agent, n: int, e: Ending)
    requires e.Unsupported? || e.Cancelled? || e.SessionRefused? || e.Exhausted?
    ensures ops == ops + EndingCalls(a, n, e)
  {
  }

  datatype Attempt = Stopped(why: Ending) | Called(reply: Reply)

  // One iteration up to and including the settled provider call.
  method TryCall(a: Agent, w: World, k: nat, msgs: seq<ChatMessage>, ops: seq<BudgetCall>)
    returns (t: Attempt, sent: seq<ChatMessage>, r: seq<BudgetCall>)
    ensures t.Called? <==> Proceeds(a, w, k)
    ensures t.Called? ==>
              && sent == Compact(msgs) && t.reply == Outcome(a, w, k, sent)
              && r == ops + CallCalls(a, Reservation(a, msgs), t.reply.tokens)
    ensures t.Stopped? ==>
              && sent == msgs && r == ops + EndingCalls(a, Reservation(a, msgs), t.why)
              && t.why == if w.cancelled(k) then Cancelled
                          else if a.hasBudget && !w.sessionGrants(k) then SessionRefused
                          else AggregateRefused
  {
    NoEndingCalls(ops, a, Reservation(a, msgs), Cancelled);
    NoEndingCalls(ops, a, Reservation(a, msgs), SessionRefused);
    if w.cancelled(k) {
      return Stopped(Cancelled), msgs, ops;
    }
    var estimated := EstimateMessageTokens(msgs);
    var reserved := Max(estimated + a.maxTokens, A.MIN_RESERVATION);
    var grant, held := ReserveBoth(a, w, k, ops, reserved);
    if grant != Granted {
      return Stopped(if grant == NoSession then SessionRefused else AggregateRefused), msgs, held;
    }
    sent := MaybeCompactHistory(msgs);
    var reply := CallProvider(a, w, k, sent);
    r := SettleReservations(a, held, reserved, reply.tokens);
    CallsInOrder(ops, a, reserved, reply.tokens);
    return Called(reply), sent, r;
  }

  lemma RoundStaysSoFar(a: Agent, w: World, ms: seq<ChatMessage>, t: Turn, r: Round, ops: seq<BudgetCall>)
    requires SoFar(a, w, ms, t) && WellFormedRound(r)
    requires Proceeds(a, w, |t.rounds|)
    requires Outcome(a, w, |t.rounds|, Compact(t.msgs)) == Answer(r.content, r.calls, r.tokens)
    requires forall j :: 0 <= j < |r.calls| ==> r.results[j] == Text(w.execute(|t.rounds|, j))
    requires ops == t.ops + CallCalls(a, Reservation(a, t.msgs), r.tokens)
    ensures SoFar(a, w, ms, Turn(Compact(t.msgs) + RoundMessages(r), t.total + r.tokens, t.rounds + [r],
                                 t.events + [Thinking] + ToolEvents(r.calls, r.results), ops))
  {
    OneMoreRound(a, w, ms, t.rounds, r);
  }

  // What a finished turn amounts to.
  predicate Outline(a: Agent, w: World, ms: seq<ChatMessage>, t: Turn, e: Ending) {
    && WellFormedRounds(t.rounds)
    && (forall k :: 0 <= k < |t.rounds| ==> RoundHappened(a, w, ms, t.rounds, k))
    && EndingHappened(a, w, ms, t.rounds, e)
    && t.msgs == FinalHistory(ms, t.rounds, e)
    && t.events == Transcript(t.rounds, e)
    && t.total == Reported(t.rounds, e)
    && t.ops == TurnCalls(a, ms, t.rounds, e)
    && NetIs(a, t.ops, Charged(t.rounds, e))
  }

  // Each budget in use is charged with `tokens` in all.
  predicate NetIs(a: Agent, ops: seq<BudgetCall>, tokens: int) {
    && SessionNet(ops) == (if a.hasBudget then tokens else 0)
    && AggregateNet(ops) == (if a.hasChatBudget then tokens else 0)
  }

  // Emits the closing events of a turn.
  method EndTurn(a: Agent, w: World, ghost ms: seq<ChatMessage>, t: Turn, e: Ending,
                 msgs: seq<ChatMessage>, ops: seq<BudgetCall>)
    returns (f: Turn)
    requires SoFar(a, w, ms, t) && EndingHappened(a, w, ms, t.rounds, e)
    requires msgs == FinalHistory(ms, t.rounds, e)
    requires ops == t.ops + EndingCalls(a, Reservation(a, t.msgs), e)
    ensures Outline(a, w, ms, f, e) && f.rounds == t.rounds
  {
    var total := t.total + if e.Answered? then e.tokens else 0;
    TotalOfTurn(t.rounds, e);
    EventsOfTurn(t.rounds, e, total);
    NetOfTurn(a, ms, t.rounds, e);
    f := Turn(msgs, total, t.rounds, t.events + EndingEvents(e) + [Done(total)], ops);
  }

  lemma {:induction false} TotalOfTurn(rs: seq<Round>, e: Ending)
    ensures Reported(rs, e) == Reported(rs, Exhausted) + if e.Answered? then e.tokens else 0
  {
    SumsWithEnding(rs, e);
  }

  lemma EventsOfTurn(rs: seq<Round>, e: Ending, total: int)
    requires WellFormedRounds(rs) && total == Reported(rs, e)
    ensures RoundEvents(rs) + EndingEvents(e) + [Done(total)] == Transcript(rs, e)
  {
  }

  method RunRound(a: Agent, w: World, ghost ms: seq<ChatMessage>, t: Turn, reply: Reply,
                  sent: seq<ChatMessage>, ops: seq<BudgetCall>)
    returns (f: Turn)
    requires SoFar(a, w, ms, t) && Proceeds(a, w, |t.rounds|)
    requires sent == Compact(t.msgs) && reply == Outcome(a, w, |t.rounds|, sent)
    requires reply.Answer? && reply.calls != []
    requires ops == t.ops + CallCalls(a, Reservation(a, t.msgs), reply.tokens)
    ensures SoFar(a, w, ms, f) && |f.rounds| == |t.rounds| + 1
  {
    var results, toolEvents, toolMessages := RunTools(w, |t.rounds|, reply.calls);
    var round := Round(reply.content, reply.calls, results, reply.tokens);
    RoundStaysSoFar(a, w, ms, t, round, ops);
    f := Turn(sent + ([ChatMessage(Assistant, reply.content, "", reply.calls)] + toolMessages),
              t.total + reply.tokens, t.rounds + [round], t.events + [Thinking] + toolEvents, ops);
  }

  method Iterate(a: Agent, w: World, ghost ms: seq<ChatMessage>, t: Turn) returns (f: Turn, e: Option<Ending>)
    requires SoFar(a, w, ms, t)
    ensures e.None? ==> SoFar(a, w, ms, f) && |f.rounds| == |t.rounds| + 1
    ensures e.Some? ==> Outline(a, w, ms, f, e.value) && f.rounds == t.rounds
  {
    var k := |t.rounds|;
    var attempt, sent, ops := TryCall(a, w, k, t.msgs, t.ops);
    if attempt.Stopped? {
      f := EndTurn(a, w, ms, t, attempt.why, sent, ops);
      return f, Some(attempt.why);
    }
    var reply := attempt.reply;
    if reply.Failed? {
      f := EndTurn(a, w, ms, t, CallFailed(reply.tokens), sent, ops);
      return f, Some(CallFailed(reply.tokens));
    }
    if |reply.calls| == 0 {
      var answer := ChatMessage(Assistant, reply.content, "", []);
      f := EndTurn(a, w, ms, t, Answered(reply.content, reply.tokens), sent + [answer], ops);
      return f, Some(Answered(reply.content, reply.tokens));
    }
    f := RunRound(a, w, ms, t, reply, sent, ops);
    return f, None;
  }

  method RunTurn(a: Agent, w: World, messages: seq<ChatMessage>) returns (t: Turn, ending: Ending)
    ensures !Supported(a) ==> ending == Unsupported && t == Turn(messages, 0, [], [], [])
    ensures Supported(a) ==> Outline(a, w, messages, t, ending)
    ensures |t.rounds| + (if ending.Answered? || ending.CallFailed? then 1 else 0) <= Max(a.maxIterations, 0)
  {
    t := Turn(messages, 0, [], [], []);
    if a.providerName != OPENAI && a.providerName != ANTHROPIC {
      return t, Unsupported;
    }
    var i := 0;
    while i < a.maxIterations
      invariant i == |t.rounds| <= Max(a.maxIterations, 0)
      invariant SoFar(a, w, messages, t)
    {
      var e;
      t, e := Iterate(a, w, messages, t);
      if e.Some? {
        return t, e.value;
      }
      i := i + 1;
    }
    NoEndingCalls(t.ops, a, Reservation(a, t.msgs), Exhausted);
    t := EndTurn(a, w, messages, t, Exhausted, t.msgs, t.ops);
    return t, Exhausted;
  }

  // ------------------------------------------------------- what a listener sees

  predicate Quiet(es: seq<ChatEvent>) {
    forall i :: 0 <= i < |es| ==> !es[i].Done?
  }

  // Tool calls and tool results alternate in adjacent pairs about the same tool.
  predicate AdjacentPairs(es: seq<ChatEvent>) {
    forall i :: 0 <= i < |es| ==> PairedAt(es, i)
  }

  predicate PairedAt(es: seq<ChatEvent>, i: nat)
    requires i < |es|
  {
    && (es[i].ToolCallEvent? ==>
          i + 1 < |es| && es[i + 1].ToolResultEvent? && es[i + 1].tool == es[i].tool)
    && (es[i].ToolResultEvent? ==>
          i > 0 && es[i - 1].ToolCallEvent? && es[i - 1].tool == es[i].tool)
  }

  lemma ConcatPairs(a: seq<ChatEvent>, b: seq<ChatEvent>)
    requires AdjacentPairs(a) && AdjacentPairs(b)
    ensures AdjacentPairs(a + b)
  {
    forall i | 0 <= i < |a + b| ensures PairedAt(a + b, i) {
      if i < |a| {
        assert PairedAt(a, i);
      } else {
        assert PairedAt(b, i - |a|);
      }
    }
  }

  lemma {:induction false} ToolEventsArePairs(calls: seq<ToolCall>, results: seq<string>)
    requires |results| == |calls|
    ensures AdjacentPairs(ToolEvents(calls, results)) && Quiet(ToolEvents(calls, results))
  {
    if |calls| > 0 {
      var n := |calls| - 1;
      ToolEventsArePairs(calls[..n], results[..n]);
      ConcatPairs(ToolEvents(calls[..n], results[..n]),
                  [ToolCallEvent(calls[n].name, calls[n].args), ToolResultEvent(calls[n].name, results[n])]);
    }
  }

  lemma {:induction false} RoundEventsArePairs(rs: seq<Round>)
    requires WellFormedRounds(rs)
    ensures AdjacentPairs(RoundEvents(rs)) && Quiet(RoundEvents(rs))
  {
    if |rs| > 0 {
      var r := rs[|rs| - 1];
      RoundEventsArePairs(rs[..|rs| - 1]);
      ToolEventsArePairs(r.calls, r.results);
      ConcatPairs(RoundEvents(rs[..|rs| - 1]), [Thinking]);
      ConcatPairs(RoundEvents(rs[..|rs| - 1]) + [Thinking], ToolEvents(r.calls, r.results));
    }
  }

  /** Every turn with a supported provider shows exactly one Done, at the end and with the
      returned total, and its tool calls and results come in adjacent pairs. */
  lemma TurnEventsAreWellFormed(rs: seq<Round>, e: Ending)
    requires WellFormedRounds(rs)
    ensures var es := Transcript(rs, e);
            && AdjacentPairs(es)
            && (forall i :: 0 <= i < |es| ==> (es[i].Done? <==> i == |es| - 1))
            && es[|es| - 1] == Done(Reported(rs, e))
  {
    RoundEventsArePairs(rs);
    ConcatPairs(RoundEvents(rs), EndingEvents(e));
    ConcatPairs(RoundEvents(rs) + EndingEvents(e), [Done(Reported(rs, e))]);
  }

  // ------------------------------------------------------- what the history keeps

  // No compaction of the turn separates a call from its result.
  predicate CleanTurn(ms: seq<ChatMessage>, rs: seq<Round>)
    requires WellFormedRounds(rs)
  {
    forall k :: 0 <= k <= |rs| ==> CutsCleanly(HistoryAfter(ms, rs[..k]))
  }

  lemma RoundIsPaired(r: Round)
    requires WellFormedRound(r)
    ensures Paired(RoundMessages(r))
  {
    var ms := RoundMessages(r);
    var n := |r.calls|;
    assert ms[1..n + 1] == ToolMessages(r.calls, r.results) && ms[n + 1..] == [];
  }

  lemma {:induction false} HistoryStaysPaired(ms: seq<ChatMessage>, rs: seq<Round>)
    requires WellFormedRounds(rs) && Paired(ms) && CleanTurn(ms, rs)
    ensures Paired(HistoryAfter(ms, rs)) && Paired(Compact(HistoryAfter(ms, rs)))
  {
    assert rs[..|rs|] == rs;
    if |rs| > 0 {
      var before := rs[..|rs| - 1];
      CleanPrefix(ms, rs, |rs| - 1);
      HistoryStaysPaired(ms, before);
      RoundIsPaired(rs[|rs| - 1]);
      PairedConcat(Compact(HistoryAfter(ms, before)), RoundMessages(rs[|rs| - 1]));
    }
    CompactionKeepsPairingIffCleanCut(HistoryAfter(ms, rs));
  }

  lemma AnswerIsPaired(content: string)
    ensures Paired([ChatMessage(Assistant, content, "", [])])
  {
    var last := [ChatMessage(Assistant, content, "", [])];
    assert last[1..1] == [] && last[1..] == [];
  }

  /** A turn on a paired history whose compactions cut cleanly returns a paired history. */
  lemma {:induction false} FinalHistoryIsPaired(ms: seq<ChatMessage>, rs: seq<Round>, e: Ending)
    requires WellFormedRounds(rs) && Paired(ms) && CleanTurn(ms, rs)
    ensures Paired(FinalHistory(ms, rs, e))
  {
    HistoryStaysPaired(ms, rs);
    if e.Answered? {
      AnswerIsPaired(e.content);
      PairedConcat(Compact(HistoryAfter(ms, rs)), [ChatMessage(Assistant, e.content, "", [])]);
    }
  }

  /** A turn can break its own history: when the first round asks for three tools and one
      returns a long text, the next Anthropic call fails before anything is sent. */
  lemma {:induction false} LongResultBreaksTurn(a: Agent, w: World, question: string, r: Round, k: nat)
    requires a.providerName == ANTHROPIC && |question| <= MAX_QUESTION
    requires WellFormedRound(r) && |r.calls| == 3 && k < 3 && |r.results[k]| >= 409_600
    ensures var history := HistoryAfter([ChatMessage(User, question, "", [])], [r]);
            && Paired(history) && !Paired(Compact(history))
            && Outcome(a, w, 1, Compact(history)) == Failed(0)
  {
    var asked := [ChatMessage(User, question, "", [])];
    var history := asked + RoundMessages(r);
    assert [r][..0] == [] && HistoryAfter(asked, []) == asked && Compact(asked) == asked;
    assert HistoryAfter(asked, [r]) == history;
    assert history == [asked[0], ChatMessage(Assistant, r.content, "", r.calls)] + ToolMessages(r.calls, r.results);
    UncleanCutHappens(history, question, r.content, r.calls, ToolMessages(r.calls, r.results), k);
    CompactedHistoryBuildsIffCleanCut(history);
  }

  lemma {:induction false} CleanPrefix(ms: seq<ChatMessage>, rs: seq<Round>, k: nat)
    requires WellFormedRounds(rs) && CleanTurn(ms, rs) && k <= |rs|
    ensures WellFormedRounds(rs[..k]) && CleanTurn(ms, rs[..k])
  {
    assert forall j :: 0 <= j <= k ==> rs[..k][..j] == rs[..j];
  }

  /** The history of every provider call of such a turn is paired and translatable, so the
      call fails only if the provider fails. */
  lemma {:induction false} SentHistoriesArePaired(a: Agent, w: World, ms: seq<ChatMessage>, rs: seq<Round>, k: nat)
    requires WellFormedRounds(rs) && Paired(ms) && CleanTurn(ms, rs) && k <= |rs|
    ensures var sent := Compact(HistoryAfter(ms, rs[..k]));
            Paired(sent) && PairedWire(Grouped(Known(sent))) && Outcome(a, w, k, sent) == w.reply(k)
  {
    CleanPrefix(ms, rs, k);
    HistoryStaysPaired(ms, rs[..k]);
    PairedHistoriesBuild(Compact(HistoryAfter(ms, rs[..k])));
  }

  function AllRoundMessages(rs: seq<Round>): seq<ChatMessage>
    requires WellFormedRounds(rs)
  {
    if |rs| == 0 then [] else AllRoundMessages(rs[..|rs| - 1]) + RoundMessages(rs[|rs| - 1])
  }

  /** As long as nothing is compacted the caller's messages are kept, and what is added is
      each round's assistant message followed by exactly its results. */
  lemma {:induction false} UncompactedTurnsOnlyAppend(ms: seq<ChatMessage>, rs: seq<Round>)
    requires WellFormedRounds(rs)
    requires NeverCompacted(ms, rs)
    ensures HistoryAfter(ms, rs) == ms + AllRoundMessages(rs)
  {
    if |rs| > 0 {
      var before := rs[..|rs| - 1];
      NeverCompactedBefore(ms, rs);
      UncompactedTurnsOnlyAppend(ms, before);
      var h := HistoryAfter(ms, before);
      assert Compact(h) == h;
      assert (ms + AllRoundMessages(before)) + RoundMessages(rs[|rs| - 1])
             == ms + (AllRoundMessages(before) + RoundMessages(rs[|rs| - 1]));
    }
  }

  predicate NeverCompacted(ms: seq<ChatMessage>, rs: seq<Round>)
    requires WellFormedRounds(rs)
  {
    forall k :: 0 <= k < |rs| ==> !NeedsCompaction(HistoryAfter(ms, rs[..k]))
  }

  lemma {:induction false} NeverCompactedBefore(ms: seq<ChatMessage>, rs: seq<Round>)
    requires WellFormedRounds(rs) && |rs| > 0 && NeverCompacted(ms, rs)
    ensures NeverCompacted(ms, rs[..|rs| - 1]) && !NeedsCompaction(HistoryAfter(ms, rs[..|rs| - 1]))
  {
    var before := rs[..|rs| - 1];
    assert forall k :: 0 <= k < |before| ==> before[..k] == rs[..k];
  }
}
