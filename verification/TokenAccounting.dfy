// Any number of chat turns and analyses sharing one windowed budget and one
// aggregate counter, interleaved at every point where they touch either.
// A session budget call is atomic (it holds the budget's lock); an aggregate call is
// a load followed by a compare-and-swap, with anything in between.
module TokenAccounting {
  import opened CheckerTypes
  import opened TokenBudget

  const MIN_RESERVATION := 500
  const TOKENS_PER_ISSUE := 2000

  datatype Setup = Setup(windows: seq<Window>, chatLimit: Option<int>)

  // Where one caller is.
  datatype Phase =
    | Idle
    | SessionHeld(reserved: int)                            // session reserved, aggregate not yet
    | Loaded(reserved: int, seen: int)                      // read the aggregate, about to swap
    | Refused(reserved: int)                                // aggregate refused, session still held
    | CallRunning(reserved: int)                            // provider call in progress
    | Replied(reserved: int, actual: int)                   // session settled, aggregate not yet
    | Returning(reserved: int, actual: int, seen: int)      // read the aggregate to give back
    | Analyzing(reserved: int)                              // an analysis holding its reservation

  // A caller also remembers how often each window had been restarted when it reserved.
  // The program does not; this is for the record.
  datatype Caller = Caller(phase: Phase, epochs: seq<nat>)

  // What really happened in one window since it was last restarted.
  datatype Book = Book(
    restarts: nat,
    opening: int,             // usage the window had when the run began; 0 after a restart
    spent: int,               // tokens of calls, see `Settled`
    abandoned: int,           // reservations that analyses never gave back
    stale: int)               // credits on reservations made before the restart

  datatype State = State(
    usage: seq<Usage>,
    used: int,
    callers: seq<Caller>,
    // for the record
    books: seq<Book>,
    chatSpent: int,           // tokens of replied chat calls
    aggregateSpent: int,      // those of them settled with the aggregate
    analysisSpent: int,       // tokens reported by finished analyses
    overage: int,             // aggregate usage beyond reservations
    underflow: bool)          // some analysis reported a negative count

  datatype Action =
    | Reserve(who: nat, wanted: int, now: int)
    | Load(who: nat)
    | Swap(who: nat)
    | GiveBack(who: nat)
    | Reply(who: nat, reported: int, now: int)
    | LoadToReturn(who: nat)
    | SwapToReturn(who: nat)
    | StartAnalysis(who: nat, issues: nat, now: int)
    | AnalysisDone(who: nat, reported: int, now: int)
    | AnalysisFailed(who: nat)
    | AnalysisAbandoned(who: nat)      // breaker refused, or cancelled while waiting to retry

  function Settle(ws: seq<Window>, us: seq<Usage>, reserved: int, actual: int, now: int): (r: seq<Usage>)
    requires |us| == |ws|
    ensures |r| == |us|
  {
    if actual <= reserved then CreditAll(us, reserved - actual)
    else ChargeAll(ws, us, actual - reserved, now)
  }

  // ------------------------------------------------------------------ one window's book

  // The reservation of a caller was made in the window as it is now.
  predicate Current(p: Caller, b: Book, i: nat) {
    i < |p.epochs| && p.epochs[i] == b.restarts
  }

  function Reopened(w: Window, u: Usage, b: Book, now: int): Book {
    if Expired(w, u, now) then Book(b.restarts + 1, 0, 0, 0, 0) else b
  }

  // A reservation ends after `actual` tokens. Up to the reserved amount they belong to the
  // window in which they were reserved, beyond it to the window that records them.
  function Settled(w: Window, u: Usage, b: Book, current: bool, reserved: int, actual: int, now: int): Book {
    if actual <= reserved then
      if current then b.(spent := b.spent + actual) else b.(stale := b.stale + (reserved - actual))
    else if Expired(w, u, now) then Book(b.restarts + 1, 0, actual - reserved, 0, 0)
    else b.(spent := b.spent + if current then actual else actual - reserved)
  }

  function ReopenAll(ws: seq<Window>, us: seq<Usage>, bs: seq<Book>, now: int): (r: seq<Book>)
    requires |us| == |bs| == |ws|
    ensures |r| == |bs| && forall i :: 0 <= i < |r| ==> r[i] == Reopened(ws[i], us[i], bs[i], now)
  {
    seq(|bs|, i requires 0 <= i < |bs| => Reopened(ws[i], us[i], bs[i], now))
  }

  function SettleBooks(ws: seq<Window>, us: seq<Usage>, bs: seq<Book>, p: Caller, reserved: int, actual: int, now: int): (r: seq<Book>)
    requires |us| == |bs| == |ws|
    ensures |r| == |bs|
    ensures forall i :: 0 <= i < |r| ==>
              r[i] == Settled(ws[i], us[i], bs[i], Current(p, bs[i], i), reserved, actual, now)
  {
    seq(|bs|, i requires 0 <= i < |bs| => Settled(ws[i], us[i], bs[i], Current(p, bs[i], i), reserved, actual, now))
  }

  function AbandonBooks(bs: seq<Book>, p: Caller, reserved: int): (r: seq<Book>)
    ensures |r| == |bs|
    ensures forall i :: 0 <= i < |r| ==>
              r[i] == if Current(p, bs[i], i) then bs[i].(abandoned := bs[i].abandoned + reserved) else bs[i]
  {
    seq(|bs|, i requires 0 <= i < |bs| =>
      if Current(p, bs[i], i) then bs[i].(abandoned := bs[i].abandoned + reserved) else bs[i])
  }

  function Epochs(bs: seq<Book>): (r: seq<nat>)
    ensures |r| == |bs| && forall i :: 0 <= i < |r| ==> r[i] == bs[i].restarts
  {
    seq(|bs|, i requires 0 <= i < |bs| => bs[i].restarts)
  }

  // ---------------------------------------------------------------------- one step

  predicate Shaped(c: Setup, s: State) {
    |s.usage| == |s.books| == |c.windows|
  }

  function MoveTo(s: State, who: nat, phase: Phase): State
    requires who < |s.callers|
  {
    s.(callers := s.callers[who := s.callers[who].(phase := phase)])
  }

  function Reserved(c: Setup, s: State, who: nat, n: int, now: int, phase: Phase): State
    requires Shaped(c, s) && who < |s.callers|
  {
    if !s.callers[who].phase.Idle? || !AllFit(c.windows, s.usage, n, now) then s
    else
      var bs := ReopenAll(c.windows, s.usage, s.books, now);
      s.(usage := ChargeAll(c.windows, s.usage, n, now), books := bs,
         callers := s.callers[who := Caller(phase, Epochs(bs))])
  }

  // An action whose caller is elsewhere does nothing, so every sequence of
  // actions is a run.
  function Next(c: Setup, s: State, a: Action): (r: State)
    requires Shaped(c, s)
    ensures Shaped(c, r) && |r.callers| == |s.callers|
  {
    if a.who >= |s.callers| then s
    else
      var caller := s.callers[a.who];
      var p := caller.phase;
      match a
      case Reserve(who, wanted, now) =>
        var n := Max(wanted, MIN_RESERVATION);
        Reserved(c, s, who, n, now, SessionHeld(n))
      case Load(who) =>
        if !p.SessionHeld? then s
        else if c.chatLimit.None? then MoveTo(s, who, CallRunning(p.reserved))
        else MoveTo(s, who, Loaded(p.reserved, s.used))
      case Swap(who) =>
        if !p.Loaded? || c.chatLimit.None? then s
        else if p.seen + p.reserved > c.chatLimit.value then MoveTo(s, who, Refused(p.reserved))
        else if s.used != p.seen then MoveTo(s, who, SessionHeld(p.reserved))
        else MoveTo(s, who, CallRunning(p.reserved)).(used := p.seen + p.reserved)
      case GiveBack(who) =>
        if !p.Refused? then s
        else MoveTo(s, who, Idle).(
               usage := CreditAll(s.usage, p.reserved),
               books := SettleBooks(c.windows, s.usage, s.books, caller, p.reserved, 0, 0))
      case Reply(who, reported, now) =>
        if !p.CallRunning? then s
        else
          var actual := Max(reported, 0);
          MoveTo(s, who, if c.chatLimit.None? then Idle else Replied(p.reserved, actual)).(
            usage := Settle(c.windows, s.usage, p.reserved, actual, now),
            books := SettleBooks(c.windows, s.usage, s.books, caller, p.reserved, actual, now),
            chatSpent := s.chatSpent + actual)
      case LoadToReturn(who) =>
        if !p.Replied? then s
        else if p.actual < p.reserved then MoveTo(s, who, Returning(p.reserved, p.actual, s.used))
        else
          MoveTo(s, who, Idle).(
            used := s.used + (p.actual - p.reserved), overage := s.overage + (p.actual - p.reserved),
            aggregateSpent := s.aggregateSpent + p.actual)
      case SwapToReturn(who) =>
        if !p.Returning? then s
        else if s.used != p.seen then MoveTo(s, who, Replied(p.reserved, p.actual))
        else
          MoveTo(s, who, Idle).(
            used := Max(p.seen - (p.reserved - p.actual), 0),
            aggregateSpent := s.aggregateSpent + p.actual)
      case StartAnalysis(who, issues, now) =>
        var n := Max(issues * TOKENS_PER_ISSUE, MIN_RESERVATION);
        Reserved(c, s, who, n, now, Analyzing(n))
      case AnalysisDone(who, reported, now) =>
        if !p.Analyzing? then s
        else MoveTo(s, who, Idle).(
               usage := Settle(c.windows, s.usage, p.reserved, reported, now),
               books := SettleBooks(c.windows, s.usage, s.books, caller, p.reserved, reported, now),
               analysisSpent := s.analysisSpent + reported,
               underflow := s.underflow || reported < 0)
      case AnalysisFailed(who) =>
        if !p.Analyzing? then s
        else MoveTo(s, who, Idle).(
               usage := CreditAll(s.usage, p.reserved),
               books := SettleBooks(c.windows, s.usage, s.books, caller, p.reserved, 0, 0))
      case AnalysisAbandoned(who) =>
        if !p.Analyzing? then s
        else MoveTo(s, who, Idle).(books := AbandonBooks(s.books, caller, p.reserved))
  }

  function Start(usage: seq<Usage>, used: int, callers: nat): State {
    State(usage, used, seq(callers, _ => Caller(Idle, [])),
          seq(|usage|, i requires 0 <= i < |usage| => Book(0, usage[i].tokens, 0, 0, 0)), 0, 0, 0, 0, false)
  }

  function After(c: Setup, s: State, run: seq<Action>): (r: State)
    requires Shaped(c, s)
    ensures Shaped(c, r) && |r.callers| == |s.callers|
  {
    if |run| == 0 then s else Next(c, After(c, s, run[..|run| - 1]), run[|run| - 1])
  }

  // ------------------------------------------------------------- what is held

  function HeldInSession(p: Phase): int {
    if p.SessionHeld? || p.Loaded? || p.Refused? || p.CallRunning? || p.Analyzing? then p.reserved else 0
  }

  // What a caller holds of window i, if its reservation was made after `restarts` restarts.
  function HeldSince(i: nat, restarts: nat): Caller -> int {
    (p: Caller) => if i < |p.epochs| && p.epochs[i] == restarts then HeldInSession(p.phase) else 0
  }

  function HeldInAggregate(p: Caller): int {
    if p.phase.CallRunning? || p.phase.Replied? || p.phase.Returning? then p.phase.reserved else 0
  }

  function NotYetAggregated(p: Caller): int {
    if p.phase.Replied? || p.phase.Returning? then p.phase.actual else 0
  }

  function Total(ps: seq<Caller>, share: Caller -> int): int {
    if |ps| == 0 then 0 else Total(ps[..|ps| - 1], share) + share(ps[|ps| - 1])
  }

  lemma {:induction false} TotalAfterUpdate(ps: seq<Caller>, i: nat, p: Caller, share: Caller -> int)
    requires i < |ps|
    ensures Total(ps[i := p], share) == Total(ps, share) - share(ps[i]) + share(p)
  {
    var n := |ps| - 1;
    if i == n {
      assert ps[i := p][..n] == ps[..n];
    } else {
      assert ps[i := p][..n] == ps[..n][i := p];
      TotalAfterUpdate(ps[..n], i, p, share);
    }
  }

  lemma {:induction false} TotalCoversEach(ps: seq<Caller>, i: nat, share: Caller -> int)
    requires i < |ps|
    requires forall k :: 0 <= k < |ps| ==> share(ps[k]) >= 0
    ensures Total(ps, share) >= share(ps[i])
  {
    var n := |ps| - 1;
    if i < n {
      TotalCoversEach(ps[..n], i, share);
    } else if n > 0 {
      TotalCoversEach(ps[..n], 0, share);
    }
  }

  lemma {:induction false} TotalOfNothing(ps: seq<Caller>, share: Caller -> int)
    requires forall k :: 0 <= k < |ps| ==> share(ps[k]) == 0
    ensures Total(ps, share) == 0
  {
    if |ps| > 0 {
      TotalOfNothing(ps[..|ps| - 1], share);
    }
  }

  /** A sum of shares that are never negative is zero only if every share is. */
  lemma {:induction false} TotalIsZeroIff(ps: seq<Caller>, share: Caller -> int)
    requires forall k :: 0 <= k < |ps| ==> share(ps[k]) >= 0
    ensures Total(ps, share) >= 0
    ensures Total(ps, share) == 0 <==> forall k :: 0 <= k < |ps| ==> share(ps[k]) == 0
  {
    if |ps| > 0 {
      var init := ps[..|ps| - 1];
      TotalIsZeroIff(init, share);
      if Total(ps, share) == 0 {
        forall k | 0 <= k < |ps| ensures share(ps[k]) == 0 {
          assert k < |init| ==> share(init[k]) == 0;
        }
      }
    }
  }

  // -------------------------------------------------------------- the invariant

  predicate WellFormed(c: Setup, bs: seq<Book>, caller: Caller)
    requires |bs| == |c.windows|
  {
    var p := caller.phase;
    && (!p.Idle? ==>
          && p.reserved >= MIN_RESERVATION && |caller.epochs| == |bs|)
    && (forall i :: 0 <= i < |bs| && i < |caller.epochs| ==> caller.epochs[i] <= bs[i].restarts)
    && (p.Replied? ==> p.actual >= 0)
    && (p.Returning? ==> 0 <= p.actual < p.reserved)
  }

  predicate AllWellFormed(c: Setup, s: State)
    requires Shaped(c, s)
  {
    forall k :: 0 <= k < |s.callers| ==> WellFormed(c, s.books, s.callers[k])
  }

  // What is held of window i on reservations made since its last restart.
  function Held(s: State, i: nat): int
    requires i < |s.books|
  {
    Total(s.callers, HeldSince(i, s.books[i].restarts))
  }

  // What window i should show.
  function Owed(s: State, i: nat): int
    requires i < |s.books|
  {
    s.books[i].opening + s.books[i].spent + s.books[i].abandoned + Held(s, i)
  }

  // A window shows what it owes, less at most what stale credits took from it.
  predicate WindowBooks(s: State, i: nat)
    requires i < |s.books| == |s.usage|
  {
    var b := s.books[i];
    && b.stale >= 0 && b.opening >= 0 && b.abandoned >= 0 && (!s.underflow ==> b.spent >= 0)
    && s.usage[i].tokens >= 0
    && s.usage[i].tokens >= Owed(s, i) - b.stale
    && (!s.underflow ==> s.usage[i].tokens <= Owed(s, i))
  }

  predicate SessionBooks(c: Setup, s: State)
    requires Shaped(c, s)
  {
    AllWellFormed(c, s) && forall i :: 0 <= i < |c.windows| ==> WindowBooks(s, i)
  }

  predicate AggregateBooks(c: Setup, start: State, s: State)
    requires Shaped(c, s)
  {
    && AllWellFormed(c, s)
    && s.aggregateSpent >= 0 && s.overage >= 0
    && (c.chatLimit.Some? ==>
          && s.used == start.used + s.aggregateSpent + Total(s.callers, HeldInAggregate)
          && s.chatSpent == s.aggregateSpent + Total(s.callers, NotYetAggregated)
          && s.used <= Max(start.used, c.chatLimit.value) + s.overage)
  }

  lemma OnlyOneCallerMoves(c: Setup, s: State, a: Action)
    requires Shaped(c, s) && a.who < |s.callers|
    ensures Next(c, s, a).callers == s.callers[a.who := Next(c, s, a).callers[a.who]]
  {
  }

  // A window is restarted at most once in a step, never set back.
  lemma RestartsGrow(c: Setup, s: State, a: Action, i: nat)
    requires Shaped(c, s) && i < |c.windows|
    ensures s.books[i].restarts <= Next(c, s, a).books[i].restarts <= s.books[i].restarts + 1
  {
  }

  lemma MovedStaysWellFormed(c: Setup, s: State, a: Action)
    requires Shaped(c, s) && a.who < |s.callers| && WellFormed(c, s.books, s.callers[a.who])
    ensures WellFormed(c, Next(c, s, a).books, Next(c, s, a).callers[a.who])
  {
    forall i | 0 <= i < |c.windows|
      ensures s.books[i].restarts <= Next(c, s, a).books[i].restarts <= s.books[i].restarts + 1
    {
      RestartsGrow(c, s, a, i);
    }
  }

  lemma WellFormedKept(c: Setup, s: State, a: Action)
    requires Shaped(c, s) && AllWellFormed(c, s)
    ensures AllWellFormed(c, Next(c, s, a))
  {
    var t := Next(c, s, a);
    if a.who < |s.callers| {
      OnlyOneCallerMoves(c, s, a);
      assert WellFormed(c, s.books, s.callers[a.who]);
      MovedStaysWellFormed(c, s, a);
      forall k | 0 <= k < |t.callers| ensures WellFormed(c, t.books, t.callers[k]) {
        if k != a.who {
          assert WellFormed(c, s.books, s.callers[k]);
          forall i | 0 <= i < |c.windows| ensures s.books[i].restarts <= t.books[i].restarts {
            RestartsGrow(c, s, a, i);
          }
        }
      }
    }
  }

  // ---------------------------------------------------------- one window, one step

  // What an action credits to the session budget.
  function CreditOf(p: Phase, a: Action): int {
    match a
    case GiveBack(_) => if p.Refused? then p.reserved else 0
    case Reply(_, reported, _) => if p.CallRunning? then Max(p.reserved - Max(reported, 0), 0) else 0
    case AnalysisDone(_, reported, _) => if p.Analyzing? then Max(p.reserved - reported, 0) else 0
    case AnalysisFailed(_) => if p.Analyzing? then p.reserved else 0
    case _ => 0
  }

  // A step that does not restart window i moves its usage by what its caller spent,
  // abandoned, took or gave up, unless the credit is stale or larger than the usage.
  ghost predicate MovesWindow(s: State, t: State, who: nat, credit: int, i: nat)
    requires i < |s.books| == |s.usage| == |t.books| == |t.usage| && who < |s.callers| == |t.callers|
  {
    var b, d := s.books[i], t.books[i];
    var share := HeldSince(i, b.restarts);
    var moved := d.spent - b.spent + d.abandoned - b.abandoned + share(t.callers[who]) - share(s.callers[who]);
    && d.opening == b.opening && d.abandoned >= b.abandoned && (s.underflow ==> t.underflow)
    && (!t.underflow ==> d.spent >= b.spent)
    && if credit > 0 then
         && t.usage[i].tokens == Max(s.usage[i].tokens - credit, 0)
         && if Current(s.callers[who], b, i) then moved == -credit && d.stale == b.stale
            else moved == 0 && d.stale == b.stale + credit
       else t.usage[i].tokens == s.usage[i].tokens + moved && moved >= 0 && d.stale == b.stale
  }

  lemma ReservingMoves(c: Setup, s: State, a: Action, i: nat)
    requires Shaped(c, s) && a.who < |s.callers| && i < |c.windows|
    requires WellFormed(c, s.books, s.callers[a.who]) && (a.Reserve? || a.StartAnalysis?)
    requires Next(c, s, a).books[i].restarts == s.books[i].restarts
    ensures MovesWindow(s, Next(c, s, a), a.who, 0, i)
  {
  }

  lemma CreditingMoves(c: Setup, s: State, a: Action, i: nat)
    requires Shaped(c, s) && a.who < |s.callers| && i < |c.windows|
    requires WellFormed(c, s.books, s.callers[a.who]) && (a.GiveBack? || a.AnalysisFailed?)
    requires Next(c, s, a).books[i].restarts == s.books[i].restarts
    ensures MovesWindow(s, Next(c, s, a), a.who, CreditOf(s.callers[a.who].phase, a), i)
  {
  }

  lemma ReplyMoves(c: Setup, s: State, a: Action, i: nat)
    requires Shaped(c, s) && a.who < |s.callers| && i < |c.windows|
    requires WellFormed(c, s.books, s.callers[a.who]) && a.Reply?
    requires Next(c, s, a).books[i].restarts == s.books[i].restarts
    ensures MovesWindow(s, Next(c, s, a), a.who, CreditOf(s.callers[a.who].phase, a), i)
  {
  }

  lemma AnalysisMoves(c: Setup, s: State, a: Action, i: nat)
    requires Shaped(c, s) && a.who < |s.callers| && i < |c.windows|
    requires WellFormed(c, s.books, s.callers[a.who]) && (a.AnalysisDone? || a.AnalysisAbandoned?)
    requires Next(c, s, a).books[i].restarts == s.books[i].restarts
    ensures MovesWindow(s, Next(c, s, a), a.who, CreditOf(s.callers[a.who].phase, a), i)
  {
  }

  lemma AggregateStepsMoveNothing(c: Setup, s: State, a: Action, i: nat)
    requires Shaped(c, s) && a.who < |s.callers| && i < |c.windows|
    requires a.Load? || a.Swap? || a.LoadToReturn? || a.SwapToReturn?
    ensures MovesWindow(s, Next(c, s, a), a.who, 0, i)
  {
  }

  lemma StepMovesWindow(c: Setup, s: State, a: Action, i: nat)
    requires Shaped(c, s) && a.who < |s.callers| && i < |c.windows|
    requires WellFormed(c, s.books, s.callers[a.who])
    requires Next(c, s, a).books[i].restarts == s.books[i].restarts
    ensures MovesWindow(s, Next(c, s, a), a.who, CreditOf(s.callers[a.who].phase, a), i)
  {
    match a
    case Reserve(_, _, _) => ReservingMoves(c, s, a, i);
    case StartAnalysis(_, _, _) => ReservingMoves(c, s, a, i);
    case GiveBack(_) => CreditingMoves(c, s, a, i);
    case AnalysisFailed(_) => CreditingMoves(c, s, a, i);
    case Reply(_, _, _) => ReplyMoves(c, s, a, i);
    case AnalysisDone(_, _, _) => AnalysisMoves(c, s, a, i);
    case AnalysisAbandoned(_) => AnalysisMoves(c, s, a, i);
    case _ => AggregateStepsMoveNothing(c, s, a, i);
  }

  // A step that restarts window i leaves in it what the step itself charged.
  lemma StepRestartsWindow(c: Setup, s: State, a: Action, i: nat)
    requires Shaped(c, s) && a.who < |s.callers| && i < |c.windows|
    requires WellFormed(c, s.books, s.callers[a.who])
    requires Next(c, s, a).books[i].restarts != s.books[i].restarts
    ensures var t := Next(c, s, a);
            var d := t.books[i];
            && d.restarts == s.books[i].restarts + 1
            && d.opening == 0 && d.abandoned == 0 && d.stale == 0 && d.spent >= 0
            && t.usage[i].tokens == d.spent + HeldSince(i, d.restarts)(t.callers[a.who])
            && CreditOf(s.callers[a.who].phase, a) <= 0
  {
  }

  // Nobody holds anything of a window just restarted but the caller whose step did it.
  lemma {:induction false} HeldAfterRestart(c: Setup, s: State, a: Action, i: nat)
    requires Shaped(c, s) && a.who < |s.callers| && i < |c.windows| && AllWellFormed(c, s)
    requires Next(c, s, a).books[i].restarts == s.books[i].restarts + 1
    ensures var t := Next(c, s, a);
            Held(t, i) == HeldSince(i, t.books[i].restarts)(t.callers[a.who])
  {
    var t := Next(c, s, a);
    var share := HeldSince(i, t.books[i].restarts);
    forall k | 0 <= k < |s.callers| ensures share(s.callers[k]) == 0 {
      assert WellFormed(c, s.books, s.callers[k]);
    }
    OnlyOneCallerMoves(c, s, a);
    TotalOfNothing(s.callers, share);
    TotalAfterUpdate(s.callers, a.who, t.callers[a.who], share);
  }

  lemma {:induction false} SharesAreNotNegative(c: Setup, s: State, i: nat, restarts: nat)
    requires Shaped(c, s) && AllWellFormed(c, s)
    ensures forall k :: 0 <= k < |s.callers| ==> HeldSince(i, restarts)(s.callers[k]) >= 0
  {
    forall k | 0 <= k < |s.callers| ensures HeldSince(i, restarts)(s.callers[k]) >= 0 {
      assert WellFormed(c, s.books, s.callers[k]);
    }
  }

  lemma {:induction false} HeldMoves(c: Setup, s: State, a: Action, i: nat)
    requires Shaped(c, s) && a.who < |s.callers| && i < |c.windows| && AllWellFormed(c, s)
    requires Next(c, s, a).books[i].restarts == s.books[i].restarts
    ensures var t := Next(c, s, a);
            var share := HeldSince(i, s.books[i].restarts);
            && Held(t, i) == Held(s, i) - share(s.callers[a.who]) + share(t.callers[a.who])
            && Held(s, i) >= share(s.callers[a.who]) && Held(t, i) >= 0
  {
    var t := Next(c, s, a);
    var share := HeldSince(i, s.books[i].restarts);
    OnlyOneCallerMoves(c, s, a);
    TotalAfterUpdate(s.callers, a.who, t.callers[a.who], share);
    SharesAreNotNegative(c, s, i, s.books[i].restarts);
    TotalCoversEach(s.callers, a.who, share);
    WellFormedKept(c, s, a);
    SharesAreNotNegative(c, t, i, s.books[i].restarts);
    TotalIsZeroIff(t.callers, share);
  }

  lemma {:induction false} WindowBooksKept(c: Setup, s: State, a: Action, i: nat)
    requires Shaped(c, s) && AllWellFormed(c, s) && i < |c.windows| && WindowBooks(s, i)
    ensures WindowBooks(Next(c, s, a), i)
  {
    if a.who < |s.callers| {
      assert WellFormed(c, s.books, s.callers[a.who]);
      if Next(c, s, a).books[i].restarts == s.books[i].restarts {
        StepMovesWindow(c, s, a, i);
        HeldMoves(c, s, a, i);
      } else {
        StepRestartsWindow(c, s, a, i);
        HeldAfterRestart(c, s, a, i);
        WellFormedKept(c, s, a);
        SharesAreNotNegative(c, Next(c, s, a), i, Next(c, s, a).books[i].restarts);
      }
    }
  }

  /** From exact books a step leaves a window below what it owes if and only if it credits
      a reservation made before the window was last restarted and the window shows
      anything at all. */
  lemma {:induction false} StepLosesSpendIff(c: Setup, s: State, a: Action, i: nat)
    requires Shaped(c, s) && SessionBooks(c, s) && i < |c.windows| && a.who < |s.callers|
    requires s.usage[i].tokens == Owed(s, i) && !Next(c, s, a).underflow
    ensures var t := Next(c, s, a);
            && (t.usage[i].tokens < Owed(t, i) <==>
                  && CreditOf(s.callers[a.who].phase, a) > 0
                  && !Current(s.callers[a.who], s.books[i], i)
                  && s.usage[i].tokens > 0)
            && t.usage[i].tokens <= Owed(t, i)
  {
    assert WellFormed(c, s.books, s.callers[a.who]);
    assert WindowBooks(s, i);
    if Next(c, s, a).books[i].restarts == s.books[i].restarts {
      StepMovesWindow(c, s, a, i);
      HeldMoves(c, s, a, i);
    } else {
      StepRestartsWindow(c, s, a, i);
      HeldAfterRestart(c, s, a, i);
    }
  }

  // ------------------------------------------------------------------ the aggregate

  lemma StepMovesAggregate(c: Setup, s: State, a: Action)
    requires Shaped(c, s) && a.who < |s.callers|
    requires c.chatLimit.Some? && WellFormed(c, s.books, s.callers[a.who])
    requires s.used >= HeldInAggregate(s.callers[a.who])
    ensures var t := Next(c, s, a);
            var p, q := s.callers[a.who], t.callers[a.who];
            && t.used == s.used + t.aggregateSpent - s.aggregateSpent + HeldInAggregate(q) - HeldInAggregate(p)
            && t.chatSpent - s.chatSpent
               == t.aggregateSpent - s.aggregateSpent + NotYetAggregated(q) - NotYetAggregated(p)
            && t.used <= Max(s.used, c.chatLimit.value) + t.overage - s.overage
  {
  }

  lemma StepAggregateOnlyAdds(c: Setup, s: State, a: Action)
    requires Shaped(c, s) && AllWellFormed(c, s)
    ensures Next(c, s, a).aggregateSpent >= s.aggregateSpent
    ensures Next(c, s, a).overage >= s.overage
  {
    if a.who < |s.callers| {
      assert WellFormed(c, s.books, s.callers[a.who]);
    }
  }

  lemma {:induction false} AggregateSharesAreNotNegative(c: Setup, s: State)
    requires Shaped(c, s) && AllWellFormed(c, s)
    ensures forall k :: 0 <= k < |s.callers| ==> HeldInAggregate(s.callers[k]) >= 0
  {
    forall k | 0 <= k < |s.callers| ensures HeldInAggregate(s.callers[k]) >= 0 {
      assert WellFormed(c, s.books, s.callers[k]);
    }
  }

  lemma {:induction false} AggregateBooksKept(c: Setup, start: State, s: State, a: Action)
    requires Shaped(c, s) && start.used >= 0
    requires AggregateBooks(c, start, s)
    ensures AggregateBooks(c, start, Next(c, s, a))
  {
    var t := Next(c, s, a);
    WellFormedKept(c, s, a);
    StepAggregateOnlyAdds(c, s, a);
    if a.who < |s.callers| && c.chatLimit.Some? {
      assert WellFormed(c, s.books, s.callers[a.who]);
      OnlyOneCallerMoves(c, s, a);
      TotalAfterUpdate(s.callers, a.who, t.callers[a.who], HeldInAggregate);
      TotalAfterUpdate(s.callers, a.who, t.callers[a.who], NotYetAggregated);
      AggregateSharesAreNotNegative(c, s);
      TotalCoversEach(s.callers, a.who, HeldInAggregate);
      StepMovesAggregate(c, s, a);
    }
  }

  // -------------------------------------------------------------- over all runs

  predicate FairStart(c: Setup, s: State) {
    && |s.usage| == |c.windows| && s.used >= 0
    && (forall i :: 0 <= i < |s.usage| ==> s.usage[i].tokens >= 0)
    && s == Start(s.usage, s.used, |s.callers|)
  }

  lemma {:induction false} RunsKeepAggregateBooks(c: Setup, s: State, run: seq<Action>)
    requires FairStart(c, s)
    ensures AggregateBooks(c, s, After(c, s, run))
  {
    if |run| == 0 {
      TotalOfNothing(s.callers, HeldInAggregate);
      TotalOfNothing(s.callers, NotYetAggregated);
    } else {
      RunsKeepAggregateBooks(c, s, run[..|run| - 1]);
      AggregateBooksKept(c, s, After(c, s, run[..|run| - 1]), run[|run| - 1]);
    }
  }

  lemma {:induction false} RunsKeepSessionBooks(c: Setup, s: State, run: seq<Action>)
    requires FairStart(c, s)
    ensures SessionBooks(c, After(c, s, run))
  {
    if |run| == 0 {
      forall i | 0 <= i < |c.windows| ensures WindowBooks(s, i) {
        TotalOfNothing(s.callers, HeldSince(i, 0));
      }
    } else {
      var before, a := After(c, s, run[..|run| - 1]), run[|run| - 1];
      RunsKeepSessionBooks(c, s, run[..|run| - 1]);
      WellFormedKept(c, before, a);
      forall i | 0 <= i < |c.windows| ensures WindowBooks(Next(c, before, a), i) {
        WindowBooksKept(c, before, a, i);
      }
    }
  }

  /** In every run, expiries included, a window shows its opening usage, the spend, the
      abandoned and the outstanding reservations of the time since its last restart, less
      at most the credits on reservations made before that restart, and never more. */
  lemma WindowsShowSpentAndOutstanding(c: Setup, s: State, run: seq<Action>, i: nat)
    requires FairStart(c, s) && i < |c.windows|
    requires !After(c, s, run).underflow
    ensures var t := After(c, s, run);
            Owed(t, i) - t.books[i].stale <= t.usage[i].tokens <= Owed(t, i)
  {
    RunsKeepSessionBooks(c, s, run);
    assert WindowBooks(After(c, s, run), i);
  }

  // No credit of the run goes to a reservation made before the last restart of window i.
  ghost predicate CreditsAreCurrent(c: Setup, s: State, run: seq<Action>, i: nat)
    requires Shaped(c, s) && i < |c.windows|
  {
    forall k :: 0 <= k < |run| && run[k].who < |s.callers| ==>
      var before := After(c, s, run[..k]);
      CreditOf(before.callers[run[k].who].phase, run[k]) > 0 ==>
        Current(before.callers[run[k].who], before.books[i], i)
  }

  lemma {:induction false} CurrentCreditsAreNotStale(c: Setup, s: State, run: seq<Action>, i: nat)
    requires FairStart(c, s) && i < |c.windows| && CreditsAreCurrent(c, s, run, i)
    ensures After(c, s, run).books[i].stale == 0
  {
    if |run| > 0 {
      var rest := run[..|run| - 1];
      assert forall k :: 0 <= k < |rest| ==> rest[..k] == run[..k];
      CurrentCreditsAreNotStale(c, s, rest, i);
      RunsKeepSessionBooks(c, s, rest);
      var before, a := After(c, s, rest), run[|run| - 1];
      if a.who < |before.callers| {
        assert WellFormed(c, before.books, before.callers[a.who]);
        if Next(c, before, a).books[i].restarts == before.books[i].restarts {
          StepMovesWindow(c, before, a, i);
        } else {
          StepRestartsWindow(c, before, a, i);
        }
      }
    }
  }

  /** As long as every credit comes from a caller whose reservation belongs to the current
      window, that window's books are exact, through any number of expiries. */
  lemma BooksAreExactWithCurrentCredits(c: Setup, s: State, run: seq<Action>, i: nat)
    requires FairStart(c, s) && i < |c.windows| && CreditsAreCurrent(c, s, run, i)
    requires !After(c, s, run).underflow
    ensures After(c, s, run).usage[i].tokens == Owed(After(c, s, run), i)
  {
    CurrentCreditsAreNotStale(c, s, run, i);
    WindowsShowSpentAndOutstanding(c, s, run, i);
  }

  /** Recorded usage is never below the opening usage and the spend since the last restart,
      less the stale credits, whatever is interleaved and whatever the provider reports. */
  lemma RecordedNeverBelowSpent(c: Setup, s: State, run: seq<Action>, i: nat)
    requires FairStart(c, s) && i < |c.windows|
    ensures var t := After(c, s, run);
            t.usage[i].tokens >= t.books[i].opening + t.books[i].spent - t.books[i].stale
  {
    var t := After(c, s, run);
    RunsKeepSessionBooks(c, s, run);
    assert WindowBooks(t, i);
    SharesAreNotNegative(c, t, i, t.books[i].restarts);
    TotalIsZeroIff(t.callers, HeldSince(i, t.books[i].restarts));
  }

  /** A window with current credits shows exactly the real spend if and only if nobody holds
      a reservation of it and no analysis abandoned one. */
  lemma ExactSpendIffNothingHeld(c: Setup, s: State, run: seq<Action>, i: nat)
    requires FairStart(c, s) && i < |c.windows| && CreditsAreCurrent(c, s, run, i)
    requires !After(c, s, run).underflow
    ensures var t := After(c, s, run);
            var b := t.books[i];
            t.usage[i].tokens == b.opening + b.spent <==>
              b.abandoned == 0 && forall k :: 0 <= k < |t.callers| ==> HeldSince(i, b.restarts)(t.callers[k]) == 0
  {
    var t := After(c, s, run);
    BooksAreExactWithCurrentCredits(c, s, run, i);
    RunsKeepSessionBooks(c, s, run);
    assert WindowBooks(t, i);
    SharesAreNotNegative(c, t, i, t.books[i].restarts);
    TotalIsZeroIff(t.callers, HeldSince(i, t.books[i].restarts));
  }

  // ------------------------------------------------- a window that never restarted

  // Until its first restart a window sees every token, and every credit is current.
  lemma {:induction false} FirstWindowSeesAll(c: Setup, s: State, run: seq<Action>, i: nat)
    requires FairStart(c, s) && i < |c.windows| && After(c, s, run).books[i].restarts == 0
    ensures var t := After(c, s, run);
            && t.books[i].opening == s.usage[i].tokens && t.books[i].stale == 0
            && t.books[i].spent == t.chatSpent + t.analysisSpent
            && forall k :: 0 <= k < |t.callers| && !t.callers[k].phase.Idle? ==> i < |t.callers[k].epochs| && t.callers[k].epochs[i] == 0
  {
    RunsKeepSessionBooks(c, s, run);
    var t := After(c, s, run);
    forall k | 0 <= k < |t.callers| && !t.callers[k].phase.Idle?
      ensures i < |t.callers[k].epochs| && t.callers[k].epochs[i] == 0
    {
      assert WellFormed(c, t.books, t.callers[k]);
    }
    if |run| > 0 {
      var rest, a := run[..|run| - 1], run[|run| - 1];
      RestartsGrow(c, After(c, s, rest), a, i);
      FirstWindowSeesAll(c, s, rest, i);
      SpendIsBooked(c, After(c, s, rest), a, i);
    }
  }

  lemma SpendIsBooked(c: Setup, s: State, a: Action, i: nat)
    requires Shaped(c, s) && i < |c.windows|
    requires Next(c, s, a).books[i].restarts == s.books[i].restarts
    requires a.who < |s.callers| && !s.callers[a.who].phase.Idle? ==> Current(s.callers[a.who], s.books[i], i)
    ensures var t := Next(c, s, a);
            && t.books[i].opening == s.books[i].opening && t.books[i].stale == s.books[i].stale
            && t.books[i].spent - s.books[i].spent == t.chatSpent - s.chatSpent + t.analysisSpent - s.analysisSpent
  {
  }

  /** A window that has not been restarted shows exactly its starting usage and all that was
      really spent if and only if nobody holds a reservation and none was abandoned. */
  lemma IdleBooksAreExact(c: Setup, s: State, run: seq<Action>, i: nat)
    requires FairStart(c, s) && i < |c.windows|
    requires var t := After(c, s, run); t.books[i].restarts == 0 && !t.underflow
    ensures var t := After(c, s, run);
            t.usage[i].tokens == s.usage[i].tokens + t.chatSpent + t.analysisSpent <==>
              t.books[i].abandoned == 0 && forall k :: 0 <= k < |t.callers| ==> HeldInSession(t.callers[k].phase) == 0
  {
    var t := After(c, s, run);
    var share := HeldSince(i, 0);
    FirstWindowSeesAll(c, s, run, i);
    WindowsShowSpentAndOutstanding(c, s, run, i);
    RunsKeepSessionBooks(c, s, run);
    assert WindowBooks(t, i);
    SharesAreNotNegative(c, t, i, 0);
    TotalIsZeroIff(t.callers, share);
    assert forall k :: 0 <= k < |t.callers| ==> share(t.callers[k]) == HeldInSession(t.callers[k].phase);
  }

  /** Compare-and-swap loses no update: in any interleaving the aggregate is the settled
      chat spend plus what is outstanding, and passes its maximum only by overage. */
  lemma AggregateIsExactAndBounded(c: Setup, s: State, run: seq<Action>)
    requires FairStart(c, s) && c.chatLimit.Some?
    ensures var t := After(c, s, run);
            && t.used == s.used + t.aggregateSpent + Total(t.callers, HeldInAggregate)
            && t.chatSpent == t.aggregateSpent + Total(t.callers, NotYetAggregated)
            && t.used <= Max(s.used, c.chatLimit.value) + t.overage
  {
    RunsKeepAggregateBooks(c, s, run);
  }

  /** So the aggregate equals the real chat spend whenever nobody has a call open. */
  lemma IdleAggregateIsExact(c: Setup, s: State, run: seq<Action>)
    requires FairStart(c, s) && c.chatLimit.Some?
    requires forall k :: 0 <= k < |After(c, s, run).callers| ==> HeldInAggregate(After(c, s, run).callers[k]) == 0
    ensures After(c, s, run).used == s.used + After(c, s, run).chatSpent
  {
    var t := After(c, s, run);
    RunsKeepAggregateBooks(c, s, run);
    TotalOfNothing(t.callers, HeldInAggregate);
    forall k | 0 <= k < |t.callers| ensures NotYetAggregated(t.callers[k]) == 0 {
      assert WellFormed(c, t.books, t.callers[k]);
    }
    TotalOfNothing(t.callers, NotYetAggregated);
  }

  // ------------------------------------------------------- a stale credit in a run

  // The second caller reserves after the window expired under the first.
  lemma {:induction false} ReservedAcrossExpiry(c: Setup, s: State, run: seq<Action>)
    requires c == Setup([Window("hourly", 10, 10000)], None)
    requires s == Start([Usage(0, 0)], 0, 2)
    requires run == [Reserve(0, 500, 0), Load(0), Reserve(1, 500, 10), Load(1)]
    ensures var t := After(c, s, run);
            && t.callers == [Caller(CallRunning(500), [0]), Caller(CallRunning(500), [1])]
            && t.usage == [Usage(500, 10)] && t.books == [Book(1, 0, 0, 0, 0)]
  {
    assert run[..3][..2] == run[..2] && run[..2][..1] == run[..1] && run[..1][..0] == [];
    var s1 := After(c, s, run[..1]);
    assert After(c, s, []) == s;
    assert s1.usage == [Usage(500, 0)] && s1.books == [Book(0, 0, 0, 0, 0)];
    assert Epochs(s1.books) == [0];
    assert s1.callers == [Caller(SessionHeld(500), [0]), Caller(Idle, [])];
    var s2 := After(c, s, run[..2]);
    assert s2.callers == [Caller(CallRunning(500), [0]), Caller(Idle, [])];
    var s3 := After(c, s, run[..3]);
    assert s3.usage == [Usage(500, 10)] && s3.books == [Book(1, 0, 0, 0, 0)];
    assert Epochs(s3.books) == [1];
    assert s3.callers == [Caller(CallRunning(500), [0]), Caller(SessionHeld(500), [1])];
  }

  /** Giving back an old reservation eats into the new window: 500 tokens spent in it, none
      recorded. */
  lemma {:induction false} ExpiryLosesSpend(c: Setup, s: State, run: seq<Action>)
    requires c == Setup([Window("hourly", 10, 10000)], None)
    requires s == Start([Usage(0, 0)], 0, 2)
    requires run == [Reserve(0, 500, 0), Load(0), Reserve(1, 500, 10), Load(1),
                     Reply(0, 0, 10), Reply(1, 500, 10)]
    ensures FairStart(c, s)
    ensures var t := After(c, s, run);
            t.usage[0] == Usage(0, 10) && t.books[0] == Book(1, 0, 500, 0, 500)
  {
    ReservedAcrossExpiry(c, s, run[..4]);
    assert run[..5][..4] == run[..4];
    var s5 := After(c, s, run[..5]);
    assert s5.usage == [Usage(0, 10)] && s5.books == [Book(1, 0, 0, 0, 500)];
    assert s5.callers == [Caller(Idle, [0]), Caller(CallRunning(500), [1])];
  }
}
