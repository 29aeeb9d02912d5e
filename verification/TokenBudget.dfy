// Token budgets over several time windows, and the aggregate chat counter.
// Clock readings are parameters. A nil budget in the program never refuses and
// records nothing; here it is a budget without windows.
module TokenBudget {
  datatype Window = Window(name: string, duration: int, limit: int)

  datatype Usage = Usage(tokens: int, startedAt: int)

  // --------------------------------------------------------------- one window

  predicate Expired(w: Window, u: Usage, now: int) {
    now - u.startedAt >= w.duration
  }

  predicate Fits(w: Window, u: Usage, tokens: int, now: int) {
    Expired(w, u, now) || u.tokens + tokens <= w.limit
  }

  function Charge(w: Window, u: Usage, tokens: int, now: int): Usage {
    if Expired(w, u, now) then Usage(tokens, now) else u.(tokens := u.tokens + tokens)
  }

  function Credit(u: Usage, tokens: int): Usage {
    if tokens <= 0 then u
    else u.(tokens := if u.tokens < tokens then 0 else u.tokens - tokens)
  }

  // -------------------------------------------------------------- all windows

  predicate AllFit(ws: seq<Window>, us: seq<Usage>, tokens: int, now: int)
    requires |us| == |ws|
  {
    forall i :: 0 <= i < |ws| ==> Fits(ws[i], us[i], tokens, now)
  }

  function ChargeAll(ws: seq<Window>, us: seq<Usage>, tokens: int, now: int): (r: seq<Usage>)
    requires |us| == |ws|
    ensures |r| == |us|
    ensures forall i :: 0 <= i < |r| ==> r[i] == Charge(ws[i], us[i], tokens, now)
  {
    seq(|us|, i requires 0 <= i < |us| => Charge(ws[i], us[i], tokens, now))
  }

  function CreditAll(us: seq<Usage>, tokens: int): (r: seq<Usage>)
    ensures |r| == |us|
    ensures forall i :: 0 <= i < |r| ==> r[i] == Credit(us[i], tokens)
  {
    seq(|us|, i requires 0 <= i < |us| => Credit(us[i], tokens))
  }

  // ------------------------------------------------------------------ the object

  class Budget {
    const windows: seq<Window>
    const usage: array<Usage>

    predicate Valid() reads this {
      usage.Length == |windows|
    }

    constructor (ws: seq<Window>, now: int)
      ensures Valid() && windows == ws && fresh(usage)
      ensures forall i :: 0 <= i < |ws| ==> usage[i] == Usage(0, now)
    {
      windows := ws;
      usage := new Usage[|ws|](_ => Usage(0, now));
    }

    method CheckAllowance(tokens: int, now: int) returns (ok: bool)
      requires Valid()
      ensures ok == AllFit(windows, usage[..], tokens, now)
    {
      ok := true;
      for i := 0 to |windows|
        invariant forall j :: 0 <= j < i ==> Fits(windows[j], usage[j], tokens, now)
      {
        if !Fits(windows[i], usage[i], tokens, now) {
          assert !Fits(windows[i], usage[..][i], tokens, now);
          return false;
        }
      }
    }

    // All or nothing: either every window has room and all are charged, or some
    // unexpired window has none and nothing changes.
    method TryConsume(tokens: int, now: int) returns (ok: bool)
      requires Valid()
      modifies usage
      ensures ok == AllFit(windows, old(usage[..]), tokens, now)
      ensures usage[..] == if ok then ChargeAll(windows, old(usage[..]), tokens, now)
                           else old(usage[..])
    {
      ghost var before := usage[..];
      for i := 0 to |windows|
        invariant usage[..] == before
        invariant forall j :: 0 <= j < i ==> Fits(windows[j], before[j], tokens, now)
      {
        if !Fits(windows[i], usage[i], tokens, now) {
          assert !Fits(windows[i], before[i], tokens, now);
          return false;
        }
      }
      RecordUsage(tokens, now);
      return true;
    }

    method ReleaseUnused(tokens: int)
      requires Valid()
      modifies usage
      ensures usage[..] == CreditAll(old(usage[..]), tokens)
    {
      ghost var before := usage[..];
      if tokens <= 0 {
        assert usage[..] == CreditAll(before, tokens);
        return;
      }
      ghost var after := CreditAll(before, tokens);
      for i := 0 to usage.Length
        invariant forall k :: 0 <= k < i ==> usage[k] == after[k]
        invariant forall k :: i <= k < usage.Length ==> usage[k] == before[k]
      {
        var left := usage[i].tokens - tokens;
        usage[i] := usage[i].(tokens := if left < 0 then 0 else left);
      }
      assert usage[..] == after;
    }

    method RecordUsage(tokens: int, now: int)
      requires Valid()
      modifies usage
      ensures usage[..] == ChargeAll(windows, old(usage[..]), tokens, now)
    {
      ghost var before := usage[..];
      ghost var after := ChargeAll(windows, before, tokens, now);
      for i := 0 to usage.Length
        invariant forall k :: 0 <= k < i ==> usage[k] == after[k]
        invariant forall k :: i <= k < usage.Length ==> usage[k] == before[k]
      {
        var u := usage[i];
        if Expired(windows[i], u, now) {
          u := Usage(0, now);
        }
        usage[i] := u.(tokens := u.tokens + tokens);
      }
      assert usage[..] == after;
    }
  }

  // ------------------------------------------------------------------- histories

  datatype Op =
    | Consume(tokens: int, now: int)
    | Release(tokens: int)
    | Record(tokens: int, now: int)

  function Apply(ws: seq<Window>, us: seq<Usage>, op: Op): (r: seq<Usage>)
    requires |us| == |ws|
    ensures |r| == |ws|
  {
    match op
    case Consume(n, now) => if AllFit(ws, us, n, now) then ChargeAll(ws, us, n, now) else us
    case Release(n) => CreditAll(us, n)
    case Record(n, now) => ChargeAll(ws, us, n, now)
  }

  function After(ws: seq<Window>, start: int, h: seq<Op>): (r: seq<Usage>)
    ensures |r| == |ws|
  {
    if |h| == 0 then seq(|ws|, _ => Usage(0, start))
    else Apply(ws, After(ws, start, h[..|h| - 1]), h[|h| - 1])
  }

  // Operation k charged the windows.
  predicate Charges(ws: seq<Window>, start: int, h: seq<Op>, k: nat)
    requires k < |h|
  {
    match h[k]
    case Consume(n, now) => AllFit(ws, After(ws, start, h[..k]), n, now)
    case Release(_) => false
    case Record(_, _) => true
  }

  // Operation k charged window i after it had expired, and so restarted it.
  predicate Resets(ws: seq<Window>, start: int, h: seq<Op>, k: nat, i: nat)
    requires k < |h| && i < |ws|
  {
    Charges(ws, start, h, k) && Expired(ws[i], After(ws, start, h[..k])[i], h[k].now)
  }

  // The reservation that restarted window i last; 0 if none did.
  function OpeningReservation(ws: seq<Window>, start: int, h: seq<Op>, i: nat): int
    requires i < |ws|
  {
    if |h| == 0 then 0
    else if Resets(ws, start, h, |h| - 1, i) then
      if h[|h| - 1].Consume? then h[|h| - 1].tokens else 0
    else OpeningReservation(ws, start, h[..|h| - 1], i)
  }

  // Tokens recorded beyond their reservations since window i was last restarted.
  function Overage(ws: seq<Window>, start: int, h: seq<Op>, i: nat): int
    requires i < |ws|
  {
    if |h| == 0 then 0
    else
      (if Resets(ws, start, h, |h| - 1, i) then 0 else Overage(ws, start, h[..|h| - 1], i))
      + (if h[|h| - 1].Record? then h[|h| - 1].tokens else 0)
  }

  function Max(a: int, b: int): (r: int)
    ensures r >= a && r >= b && (r == a || r == b)
  {
    if a < b then b else a
  }

  /** In every history of non-negative operations no usage is negative, and a window
      exceeds its limit only by the reservation that restarted it and by what was
      recorded beyond reservations since. */
  lemma {:induction false} UsageStaysBounded(ws: seq<Window>, start: int, h: seq<Op>, i: nat)
    requires i < |ws|
    requires forall k :: 0 <= k < |h| && !h[k].Release? ==> h[k].tokens >= 0
    ensures 0 <= OpeningReservation(ws, start, h, i) && 0 <= Overage(ws, start, h, i)
    ensures 0 <= After(ws, start, h)[i].tokens
              <= Max(ws[i].limit, OpeningReservation(ws, start, h, i)) + Overage(ws, start, h, i)
  {
    if |h| > 0 {
      UsageStaysBounded(ws, start, h[..|h| - 1], i);
    }
  }

  // Everything charged to window i since it was last restarted, credits left aside.
  function Asked(ws: seq<Window>, start: int, h: seq<Op>, i: nat): int
    requires i < |ws|
  {
    if |h| == 0 then 0
    else
      (if Resets(ws, start, h, |h| - 1, i) then 0 else Asked(ws, start, h[..|h| - 1], i))
      + (if Charges(ws, start, h, |h| - 1) then h[|h| - 1].tokens else 0)
  }

  // When window i was last restarted.
  function Restarted(ws: seq<Window>, start: int, h: seq<Op>, i: nat): int
    requires i < |ws|
  {
    if |h| == 0 then start
    else if Resets(ws, start, h, |h| - 1, i) then h[|h| - 1].now
    else Restarted(ws, start, h[..|h| - 1], i)
  }

  lemma {:induction false} UsageIsAskedLessCredits(ws: seq<Window>, start: int, h: seq<Op>, i: nat)
    requires i < |ws|
    requires forall k :: 0 <= k < |h| && !h[k].Release? ==> h[k].tokens >= 0
    ensures After(ws, start, h)[i].startedAt == Restarted(ws, start, h, i)
    ensures 0 <= After(ws, start, h)[i].tokens <= Asked(ws, start, h, i)
    ensures (forall k :: 0 <= k < |h| ==> !h[k].Release?) ==> After(ws, start, h)[i].tokens == Asked(ws, start, h, i)
  {
    if |h| > 0 {
      UsageIsAskedLessCredits(ws, start, h[..|h| - 1], i);
    }
  }

  // Window i has run for its duration, or has room for all that was asked and n more.
  predicate HasRoom(ws: seq<Window>, start: int, h: seq<Op>, i: nat, n: int, now: int)
    requires i < |ws|
  {
    now - Restarted(ws, start, h, i) >= ws[i].duration || Asked(ws, start, h, i) + n <= ws[i].limit
  }

  /** A reservation is granted whenever every window has room for it, and without releases
      only then. */
  lemma {:induction false} GrantedWhenRoom(ws: seq<Window>, start: int, h: seq<Op>, n: int, now: int)
    requires forall k :: 0 <= k < |h| && !h[k].Release? ==> h[k].tokens >= 0
    ensures (forall i :: 0 <= i < |ws| ==> HasRoom(ws, start, h, i, n, now)) ==> AllFit(ws, After(ws, start, h), n, now)
    ensures (forall k :: 0 <= k < |h| ==> !h[k].Release?) && AllFit(ws, After(ws, start, h), n, now) ==>
              forall i :: 0 <= i < |ws| ==> HasRoom(ws, start, h, i, n, now)
  {
    forall i | 0 <= i < |ws|
      ensures After(ws, start, h)[i].startedAt == Restarted(ws, start, h, i)
      ensures After(ws, start, h)[i].tokens <= Asked(ws, start, h, i)
      ensures (forall k :: 0 <= k < |h| ==> !h[k].Release?) ==> After(ws, start, h)[i].tokens == Asked(ws, start, h, i)
    {
      UsageIsAskedLessCredits(ws, start, h, i);
    }
    if forall i :: 0 <= i < |ws| ==> HasRoom(ws, start, h, i, n, now) {
      forall i | 0 <= i < |ws| ensures Fits(ws[i], After(ws, start, h)[i], n, now) {
        assert HasRoom(ws, start, h, i, n, now);
      }
    }
  }

  /** A granted reservation takes a window over its limit if and only if the window had
      expired and the reservation alone is larger than the limit. */
  lemma OverLimitIff(w: Window, u: Usage, tokens: int, now: int)
    requires Fits(w, u, tokens, now)
    ensures Charge(w, u, tokens, now).tokens > w.limit <==> Expired(w, u, now) && tokens > w.limit
  {
  }

  /** So in every history of reservations within the limit, restarts and releases included,
      but without overage, the limit itself is never exceeded. */
  lemma {:induction false} LimitHoldsForFittingReservations(ws: seq<Window>, start: int, h: seq<Op>, i: nat)
    requires i < |ws| && ws[i].limit >= 0
    requires forall k :: 0 <= k < |h| ==> !h[k].Record? && (h[k].Consume? ==> 0 <= h[k].tokens <= ws[i].limit)
    ensures 0 <= After(ws, start, h)[i].tokens <= ws[i].limit
  {
    if |h| > 0 {
      LimitHoldsForFittingReservations(ws, start, h[..|h| - 1], i);
    }
  }

  /** And in every history without overage the limit is exceeded right after an operation
      only by a reservation larger than the limit, made when the window had expired, or
      because it was exceeded before. */
  lemma {:induction false} ExcessHasCause(ws: seq<Window>, start: int, h: seq<Op>, i: nat)
    requires i < |ws| && ws[i].limit >= 0 && h != []
    requires forall k :: 0 <= k < |h| ==> !h[k].Record? && (h[k].Consume? ==> h[k].tokens >= 0)
    requires After(ws, start, h)[i].tokens > ws[i].limit
    ensures exists k :: 0 <= k < |h| && h[k].Consume? && h[k].tokens > ws[i].limit && Resets(ws, start, h, k, i)
  {
    var g, op := h[..|h| - 1], h[|h| - 1];
    var us := After(ws, start, g);
    if Resets(ws, start, h, |h| - 1, i) {
      assert op.tokens > ws[i].limit;
    } else {
      assert us[i].tokens > ws[i].limit;
      assert g != [];
      ExcessHasCause(ws, start, g, i);
      var k :| 0 <= k < |g| && g[k].Consume? && g[k].tokens > ws[i].limit && Resets(ws, start, g, k, i);
      assert g[..k] == h[..k];
      assert Resets(ws, start, h, k, i);
    }
  }

  /** Such a history exists: an expired window with limit 100 admits 500 tokens. */
  lemma ExpiredWindowAdmitsMoreThanItsLimit(ws: seq<Window>, h: seq<Op>)
    requires ws == [Window("hourly", 10, 100)] && h == [Consume(500, 10)]
    ensures After(ws, 0, h)[0] == Usage(500, 10)
  {
    assert h[..0] == [];
    assert After(ws, 0, h) == Apply(ws, After(ws, 0, []), h[0]);
  }
}
