/** Trimming the events and logs sent to the AI to a byte budget
    (internal/checker/context_builder.go). */
module ContextBudget {

  /** The trimmable part of an issue context; events newest first, logs oldest first. */
  datatype Context = Context(events: seq<string>, logs: seq<string>)

  const DEFAULT_MAX_CHARS: nat := 30000

  function Limit(maxTotalChars: int): (limit: nat)
    ensures limit == if maxTotalChars > 0 then maxTotalChars else 30000
  {
    if maxTotalChars <= 0 then DEFAULT_MAX_CHARS else maxTotalChars
  }

  function Chars(lines: seq<string>): nat {
    if lines == [] then 0 else Chars(lines[..|lines| - 1]) + |lines[|lines| - 1]|
  }

  function Size(c: Context): nat {
    Chars(c.events) + Chars(c.logs)
  }

  function Total(issues: seq<Context>): nat {
    if issues == [] then 0 else Total(issues[..|issues| - 1]) + Size(issues[|issues| - 1])
  }

  lemma {:induction false} TotalUpdate(issues: seq<Context>, i: nat, c: Context)
    requires i < |issues|
    ensures Total(issues[i := c]) == Total(issues) - Size(issues[i]) + Size(c)
    ensures Size(issues[i]) <= Total(issues)
  {
    var n := |issues| - 1;
    if i < n {
      TotalUpdate(issues[..n], i, c);
      assert issues[i := c][..n] == issues[..n][i := c];
    } else {
      assert issues[i := c][..n] == issues[..n];
    }
  }

  lemma {:induction false} CharsDropFirst(lines: seq<string>)
    requires lines != []
    ensures Chars(lines) == |lines[0]| + Chars(lines[1..])
  {
    if |lines| > 1 {
      var n := |lines| - 1;
      CharsDropFirst(lines[..n]);
      assert lines[..n][1..] == lines[1..][..n - 1];
    } else {
      assert lines[..0] == [];
    }
  }

  method ContextChars(issues: array<Context>) returns (total: nat)
    ensures total == Total(issues[..])
  {
    total := 0;
    for i := 0 to issues.Length
      invariant total == Total(issues[..i])
    {
      assert issues[..i + 1][..i] == issues[..i];
      for k := 0 to |issues[i].events|
        invariant total == Total(issues[..i]) + Chars(issues[i].events[..k])
      {
        assert issues[i].events[..k + 1][..k] == issues[i].events[..k];
        total := total + |issues[i].events[k]|;
      }
      assert issues[i].events[..|issues[i].events|] == issues[i].events;
      for k := 0 to |issues[i].logs|
        invariant total == Total(issues[..i]) + Chars(issues[i].events) + Chars(issues[i].logs[..k])
      {
        assert issues[i].logs[..k + 1][..k] == issues[i].logs[..k];
        total := total + |issues[i].logs[k]|;
      }
      assert issues[i].logs[..|issues[i].logs|] == issues[i].logs;
    }
    assert issues[..issues.Length] == issues[..];
  }

  // ------------------------------------------------------- what the passes leave

  /** How many of `n` entries survive `rounds` rounds that each remove one but never the last. */
  function Survivors(n: nat, rounds: nat): (kept: nat)
    ensures kept <= n
  {
    if n <= 1 then n else if n - rounds >= 1 then n - rounds else 1
  }

  /** Issues before `k` have seen one round more than the rest. */
  function Rounds(r: nat, k: nat, i: nat): nat {
    if i < k then r + 1 else r
  }

  /** Putting back the entry removed last from this issue would exceed the limit again. */
  ghost predicate LastRemoved(was: Context, now: Context, total: nat, limit: nat) {
    || (|now.events| < |was.events| && total + |was.events[|now.events|]| > limit)
    || (|now.logs| < |was.logs| && total + |was.logs[|was.logs| - |now.logs| - 1]| > limit)
  }

  ghost predicate Tight(was: seq<Context>, now: seq<Context>, total: nat, limit: nat) {
    |now| == |was| && exists i | 0 <= i < |was| :: LastRemoved(was[i], now[i], total, limit)
  }

  ghost function Entries(issues: seq<Context>): nat {
    if issues == [] then 0
    else
      var last := issues[|issues| - 1];
      Entries(issues[..|issues| - 1]) + |last.events| + |last.logs|
  }

  // ------------------------------------------------------------ trimming events

  function DropEvent(c: Context): Context {
    if |c.events| > 1 then c.(events := c.events[..|c.events| - 1]) else c
  }

  function DroppedEvent(c: Context): string
    requires |c.events| > 1
  {
    c.events[|c.events| - 1]
  }

  lemma DropEventTotal(issues: seq<Context>, i: nat)
    requires i < |issues| && |issues[i].events| > 1
    ensures Total(issues[i := DropEvent(issues[i])]) + |DroppedEvent(issues[i])| == Total(issues)
  {
    TotalUpdate(issues, i, DropEvent(issues[i]));
  }

  function AfterEventRound(issues: seq<Context>, k: nat): seq<Context> {
    seq(|issues|, j requires 0 <= j < |issues| => if j < k then DropEvent(issues[j]) else issues[j])
  }

  lemma {:induction false} EventRoundStep(was: seq<Context>, i: nat)
    requires i < |was|
    ensures AfterEventRound(was, i)[i] == was[i]
    ensures AfterEventRound(was, i + 1) == AfterEventRound(was, i)[i := DropEvent(was[i])]
    ensures AllSingleEvents(was[..i + 1]) <==> AllSingleEvents(was[..i]) && |was[i].events| <= 1
    ensures |was[i].events| > 1 ==>
              Total(AfterEventRound(was, i + 1)) + |DroppedEvent(was[i])| == Total(AfterEventRound(was, i))
  {
    assert was[..i + 1] == was[..i] + [was[i]];
    if |was[i].events| > 1 {
      DropEventTotal(AfterEventRound(was, i), i);
    }
  }

  /** One round: each issue in turn gives up one entry, until the budget is met. */
  method TrimEventRound(issues: array<Context>, start: nat, limit: nat)
    returns (total: nat, trimmed: bool, ghost k: nat)
    requires start == Total(issues[..]) && start > limit
    modifies issues
    ensures total == Total(issues[..]) && k <= issues.Length
    ensures issues[..] == AfterEventRound(old(issues[..]), k)
    ensures total > limit ==> (trimmed <==> !AllSingleEvents(old(issues[..])))
    ensures total <= limit ==> 0 < k && |old(issues[k - 1]).events| > 1
                               && total + |DroppedEvent(old(issues[k - 1]))| > limit
    ensures total > limit ==> k == issues.Length
  {
    ghost var was := issues[..];
    total, trimmed, k := start, false, issues.Length;
    for i := 0 to issues.Length
      invariant k == issues.Length && total > limit && total == Total(issues[..])
      invariant issues[..] == AfterEventRound(was, i)
      invariant trimmed <==> !AllSingleEvents(was[..i])
    {
      EventRoundStep(was, i);
      assert issues[i] == issues[..][i];
      if |issues[i].events| > 1 {
        var removed := DroppedEvent(issues[i]);
        issues[i] := DropEvent(issues[i]);
        assert issues[..] == AfterEventRound(was, i + 1);
        total := total - |removed|;
        trimmed := true;
        if total <= limit {
          k := i + 1;
          return;
        }
      }
    }
    assert was[..|was|] == was;
  }

  function EventsAfter(c: Context, rounds: nat): Context {
    if rounds == 0 then c else DropEvent(EventsAfter(c, rounds - 1))
  }

  lemma {:induction false} EventsAfterShape(c: Context, rounds: nat)
    ensures EventsAfter(c, rounds) == c.(events := c.events[..Survivors(|c.events|, rounds)])
  {
    if rounds > 0 {
      EventsAfterShape(c, rounds - 1);
    }
  }

  /** `now` is `was` after `r` full rounds and a partial one that reached issue `k`. */
  ghost predicate EventsTrimmed(was: seq<Context>, now: seq<Context>, r: nat, k: nat) {
    |now| == |was| && forall i | 0 <= i < |was| :: now[i] == EventsAfter(was[i], Rounds(r, k, i))
  }

  lemma EventsTrimmedOnce(was: seq<Context>, mid: seq<Context>, r: nat, k: nat)
    requires EventsTrimmed(was, mid, r, 0) && k <= |was|
    ensures EventsTrimmed(was, AfterEventRound(mid, k), r, k)
    ensures k == |was| ==> EventsTrimmed(was, AfterEventRound(mid, k), r + 1, 0)
  {
  }

  lemma EventsTight(was: seq<Context>, before: seq<Context>, r: nat, k: nat, total: nat, limit: nat)
    requires EventsTrimmed(was, before, r, 0) && 0 < k <= |was|
    requires |before[k - 1].events| > 1 && total + |DroppedEvent(before[k - 1])| > limit
    ensures Tight(was, AfterEventRound(before, k), total, limit)
  {
    EventsAfterShape(was[k - 1], r);
    assert LastRemoved(was[k - 1], AfterEventRound(before, k)[k - 1], total, limit);
  }

  method TrimEvents(issues: array<Context>, start: nat, limit: nat)
    returns (total: nat, ghost r: nat, ghost k: nat)
    requires start == Total(issues[..]) && start > limit
    modifies issues
    ensures total == Total(issues[..])
    ensures EventsTrimmed(old(issues[..]), issues[..], r, k)
    ensures total > limit ==> AllSingleEvents(issues[..])
    ensures total <= limit ==> Tight(old(issues[..]), issues[..], total, limit)
  {
    ghost var was := issues[..];
    total, r, k := start, 0, 0;
    while true
      invariant k == 0 && total > limit && total == Total(issues[..])
      invariant EventsTrimmed(was, issues[..], r, 0)
      decreases Entries(issues[..])
    {
      ghost var before := issues[..];
      var trimmed;
      total, trimmed, k := TrimEventRound(issues, total, limit);
      EventsTrimmedOnce(was, before, r, k);
      EventRoundProgress(before);
      if total <= limit {
        EventsTight(was, before, r, k, total, limit);
        return;
      }
      r, k := r + 1, 0;
      if !trimmed {
        return;
      }
    }
  }

  ghost predicate AllSingleEvents(issues: seq<Context>) {
    forall i | 0 <= i < |issues| :: |issues[i].events| <= 1
  }

  /** A full round makes progress unless every issue is down to one entry. */
  lemma EventRoundProgress(issues: seq<Context>)
    ensures AllSingleEvents(issues) ==> AfterEventRound(issues, |issues|) == issues
    ensures !AllSingleEvents(issues) ==> Entries(AfterEventRound(issues, |issues|)) < Entries(issues)
  {
    TrimEventShrinks(issues, AfterEventRound(issues, |issues|));
    if !AllSingleEvents(issues) {
      var j :| 0 <= j < |issues| && |issues[j].events| > 1;
      assert AfterEventRound(issues, |issues|)[j] != issues[j];
    }
  }

  lemma {:induction false} TrimEventShrinks(a: seq<Context>, b: seq<Context>)
    requires |a| == |b| && forall j | 0 <= j < |a| :: b[j] == a[j] || b[j] == DropEvent(a[j])
    ensures Entries(b) <= Entries(a)
    ensures (exists j | 0 <= j < |a| :: b[j] != a[j]) ==> Entries(b) < Entries(a)
  {
    if a != [] {
      TrimEventShrinks(a[..|a| - 1], b[..|a| - 1]);
    }
  }

  // ------------------------------------------------------------ trimming logs

  function DropLog(c: Context): Context {
    if |c.logs| > 1 then c.(logs := c.logs[1..]) else c
  }

  function DroppedLog(c: Context): string
    requires |c.logs| > 1
  {
    c.logs[0]
  }

  lemma DropLogTotal(issues: seq<Context>, i: nat)
    requires i < |issues| && |issues[i].logs| > 1
    ensures Total(issues[i := DropLog(issues[i])]) + |DroppedLog(issues[i])| == Total(issues)
  {
    CharsDropFirst(issues[i].logs);
    TotalUpdate(issues, i, DropLog(issues[i]));
  }

  function AfterLogRound(issues: seq<Context>, k: nat): seq<Context> {
    seq(|issues|, j requires 0 <= j < |issues| => if j < k then DropLog(issues[j]) else issues[j])
  }

  lemma {:induction false} LogRoundStep(was: seq<Context>, i: nat)
    requires i < |was|
    ensures AfterLogRound(was, i)[i] == was[i]
    ensures AfterLogRound(was, i + 1) == AfterLogRound(was, i)[i := DropLog(was[i])]
    ensures AllSingleLogs(was[..i + 1]) <==> AllSingleLogs(was[..i]) && |was[i].logs| <= 1
    ensures |was[i].logs| > 1 ==>
              Total(AfterLogRound(was, i + 1)) + |DroppedLog(was[i])| == Total(AfterLogRound(was, i))
  {
    assert was[..i + 1] == was[..i] + [was[i]];
    if |was[i].logs| > 1 {
      DropLogTotal(AfterLogRound(was, i), i);
    }
  }

  /** One round: each issue in turn gives up one entry, until the budget is met. */
  method TrimLogRound(issues: array<Context>, start: nat, limit: nat)
    returns (total: nat, trimmed: bool, ghost k: nat)
    requires start == Total(issues[..]) && start > limit
    modifies issues
    ensures total == Total(issues[..]) && k <= issues.Length
    ensures issues[..] == AfterLogRound(old(issues[..]), k)
    ensures total > limit ==> (trimmed <==> !AllSingleLogs(old(issues[..])))
    ensures total <= limit ==> 0 < k && |old(issues[k - 1]).logs| > 1
                               && total + |DroppedLog(old(issues[k - 1]))| > limit
    ensures total > limit ==> k == issues.Length
  {
    ghost var was := issues[..];
    total, trimmed, k := start, false, issues.Length;
    for i := 0 to issues.Length
      invariant k == issues.Length && total > limit && total == Total(issues[..])
      invariant issues[..] == AfterLogRound(was, i)
      invariant trimmed <==> !AllSingleLogs(was[..i])
    {
      LogRoundStep(was, i);
      assert issues[i] == issues[..][i];
      if |issues[i].logs| > 1 {
        var removed := DroppedLog(issues[i]);
        issues[i] := DropLog(issues[i]);
        assert issues[..] == AfterLogRound(was, i + 1);
        total := total - |removed|;
        trimmed := true;
        if total <= limit {
          k := i + 1;
          return;
        }
      }
    }
    assert was[..|was|] == was;
  }

  function LogsAfter(c: Context, rounds: nat): Context {
    if rounds == 0 then c else DropLog(LogsAfter(c, rounds - 1))
  }

  lemma {:induction false} LogsAfterShape(c: Context, rounds: nat)
    ensures LogsAfter(c, rounds) == c.(logs := c.logs[|c.logs| - Survivors(|c.logs|, rounds)..])
  {
    if rounds > 0 {
      LogsAfterShape(c, rounds - 1);
    }
  }

  /** `now` is `was` after `r` full rounds and a partial one that reached issue `k`. */
  ghost predicate LogsTrimmed(was: seq<Context>, now: seq<Context>, r: nat, k: nat) {
    |now| == |was| && forall i | 0 <= i < |was| :: now[i] == LogsAfter(was[i], Rounds(r, k, i))
  }

  lemma LogsTrimmedOnce(was: seq<Context>, mid: seq<Context>, r: nat, k: nat)
    requires LogsTrimmed(was, mid, r, 0) && k <= |was|
    ensures LogsTrimmed(was, AfterLogRound(mid, k), r, k)
    ensures k == |was| ==> LogsTrimmed(was, AfterLogRound(mid, k), r + 1, 0)
  {
  }

  lemma LogsTight(was: seq<Context>, before: seq<Context>, r: nat, k: nat, total: nat, limit: nat)
    requires LogsTrimmed(was, before, r, 0) && 0 < k <= |was|
    requires |before[k - 1].logs| > 1 && total + |DroppedLog(before[k - 1])| > limit
    ensures Tight(was, AfterLogRound(before, k), total, limit)
  {
    LogsAfterShape(was[k - 1], r);
    assert LastRemoved(was[k - 1], AfterLogRound(before, k)[k - 1], total, limit);
  }

  method TrimLogs(issues: array<Context>, start: nat, limit: nat)
    returns (total: nat, ghost r: nat, ghost k: nat)
    requires start == Total(issues[..]) && start > limit
    modifies issues
    ensures total == Total(issues[..])
    ensures LogsTrimmed(old(issues[..]), issues[..], r, k)
    ensures total > limit ==> AllSingleLogs(issues[..])
    ensures total <= limit ==> Tight(old(issues[..]), issues[..], total, limit)
  {
    ghost var was := issues[..];
    total, r, k := start, 0, 0;
    while true
      invariant k == 0 && total > limit && total == Total(issues[..])
      invariant LogsTrimmed(was, issues[..], r, 0)
      decreases Entries(issues[..])
    {
      ghost var before := issues[..];
      var trimmed;
      total, trimmed, k := TrimLogRound(issues, total, limit);
      LogsTrimmedOnce(was, before, r, k);
      LogRoundProgress(before);
      if total <= limit {
        LogsTight(was, before, r, k, total, limit);
        return;
      }
      r, k := r + 1, 0;
      if !trimmed {
        return;
      }
    }
  }

  ghost predicate AllSingleLogs(issues: seq<Context>) {
    forall i | 0 <= i < |issues| :: |issues[i].logs| <= 1
  }

  /** A full round makes progress unless every issue is down to one entry. */
  lemma LogRoundProgress(issues: seq<Context>)
    ensures AllSingleLogs(issues) ==> AfterLogRound(issues, |issues|) == issues
    ensures !AllSingleLogs(issues) ==> Entries(AfterLogRound(issues, |issues|)) < Entries(issues)
  {
    TrimLogShrinks(issues, AfterLogRound(issues, |issues|));
    if !AllSingleLogs(issues) {
      var j :| 0 <= j < |issues| && |issues[j].logs| > 1;
      assert AfterLogRound(issues, |issues|)[j] != issues[j];
    }
  }

  lemma {:induction false} TrimLogShrinks(a: seq<Context>, b: seq<Context>)
    requires |a| == |b| && forall j | 0 <= j < |a| :: b[j] == a[j] || b[j] == DropLog(a[j])
    ensures Entries(b) <= Entries(a)
    ensures (exists j | 0 <= j < |a| :: b[j] != a[j]) ==> Entries(b) < Entries(a)
  {
    if a != [] {
      TrimLogShrinks(a[..|a| - 1], b[..|a| - 1]);
    }
  }

  // ----------------------------------------------- clearing what is left

  /** Each list of each issue is as it was or empty. */
  ghost predicate Cleared(was: seq<Context>, now: seq<Context>) {
    && |now| == |was|
    && forall i | 0 <= i < |was| ::
         && (now[i].events == was[i].events || now[i].events == [])
         && (now[i].logs == was[i].logs || now[i].logs == [])
  }

  ghost predicate AllEmpty(issues: seq<Context>) {
    forall i | 0 <= i < |issues| :: issues[i] == Context([], [])
  }

  lemma {:induction false} AllEmptyTotal(issues: seq<Context>)
    requires AllEmpty(issues)
    ensures Total(issues) == 0
  {
    if issues != [] {
      AllEmptyTotal(issues[..|issues| - 1]);
    }
  }

  /** Empties one list; `lines` is its content. */
  method Subtract(lines: seq<string>, start: nat) returns (total: nat)
    requires Chars(lines) <= start
    ensures total == start - Chars(lines)
  {
    total := start;
    for k := 0 to |lines|
      invariant total == start - Chars(lines[..k])
    {
      assert lines[..k + 1][..k] == lines[..k];
      PrefixChars(lines, k + 1);
      total := total - |lines[k]|;
    }
    assert lines[..|lines|] == lines;
  }

  lemma {:induction false} PrefixChars(lines: seq<string>, k: nat)
    requires k <= |lines|
    ensures Chars(lines[..k]) <= Chars(lines)
  {
    if k < |lines| {
      PrefixChars(lines[..|lines| - 1], k);
      assert lines[..|lines| - 1][..k] == lines[..k];
    } else {
      assert lines[..k] == lines;
    }
  }

  method ClearOne(issues: array<Context>, i: nat, start: nat, limit: nat) returns (total: nat)
    requires i < issues.Length && start == Total(issues[..]) && start > limit
    requires |issues[i].events| <= 1 && |issues[i].logs| <= 1
    modifies issues
    ensures total == Total(issues[..])
    ensures issues[..] == old(issues[..])[i := issues[i]]
    ensures Cleared(old(issues[..]), issues[..])
    ensures total > limit ==> issues[i] == Context([], [])
    ensures total <= limit ==> LastRemoved(old(issues[i]), issues[i], total, limit)
  {
    total := start;
    var c := issues[i];
    if |c.events| > 0 {
      TotalUpdate(issues[..], i, c.(events := []));
      total := Subtract(c.events, total);
      ghost var was := issues[..];
      issues[i] := c.(events := []);
      assert issues[..] == was[i := issues[i]];
      assert c.events == [c.events[0]];
      if total <= limit {
        return;
      }
    }
    if |c.logs| > 0 {
      TotalUpdate(issues[..], i, Context([], []));
      total := Subtract(c.logs, total);
      ghost var was := issues[..];
      issues[i] := Context([], []);
      assert issues[..] == was[i := issues[i]];
      assert c.logs == [c.logs[0]];
    }
  }

  method ClearRound(issues: array<Context>, start: nat, limit: nat) returns (total: nat)
    requires start == Total(issues[..]) && start > limit
    requires AllSingleEvents(issues[..]) && AllSingleLogs(issues[..])
    modifies issues
    ensures total == Total(issues[..]) && Cleared(old(issues[..]), issues[..])
    ensures total > limit ==> AllEmpty(issues[..])
    ensures total <= limit ==> Tight(old(issues[..]), issues[..], total, limit)
  {
    ghost var was := issues[..];
    total := start;
    for i := 0 to issues.Length
      invariant total > limit && total == Total(issues[..])
      invariant forall j | 0 <= j < i :: issues[j] == Context([], [])
      invariant forall j | i <= j < issues.Length :: issues[j] == was[j]
    {
      assert issues[i] == was[i];
      total := ClearOne(issues, i, total, limit);
      if total <= limit {
        assert LastRemoved(was[i], issues[..][i], total, limit);
        return;
      }
    }
  }

  method ClearRemaining(issues: array<Context>, start: nat, limit: nat) returns (total: nat)
    requires start == Total(issues[..]) && start > limit
    requires AllSingleEvents(issues[..]) && AllSingleLogs(issues[..])
    modifies issues
    ensures total == Total(issues[..]) && Cleared(old(issues[..]), issues[..])
    ensures total <= limit && Tight(old(issues[..]), issues[..], total, limit)
  {
    ghost var was := issues[..];
    total := start;
    while total > limit
      invariant total == Total(issues[..])
      invariant Cleared(was, issues[..])
      invariant issues[..] == was || (total <= limit && Tight(was, issues[..], total, limit))
      decreases total
    {
      total := ClearRound(issues, total, limit);
      if total > limit {
        AllEmptyTotal(issues[..]);
      }
    }
  }

  // ------------------------------------------------------------- the whole pass

  ghost predicate SuffixOf(a: seq<string>, b: seq<string>) {
    |a| <= |b| && a == b[|b| - |a|..]
  }

  /** Each issue keeps its first events and its last log lines. */
  ghost predicate KeepsBestParts(was: seq<Context>, now: seq<Context>) {
    && |now| == |was|
    && forall i | 0 <= i < |was| :: now[i].events <= was[i].events && SuffixOf(now[i].logs, was[i].logs)
  }

  /** Log lines go only when no issue has two events left; last entries go only when no
      issue has two events or two log lines left. */
  ghost predicate RespectsPriority(was: seq<Context>, now: seq<Context>)
    requires |was| == |now|
  {
    && ((exists i | 0 <= i < |was| :: |now[i].logs| < |was[i].logs|) ==> AllSingleEvents(now))
    && ((exists i | 0 <= i < |was| ::
           (now[i].events == [] && was[i].events != []) || (now[i].logs == [] && was[i].logs != [])) ==>
         AllSingleEvents(now) && AllSingleLogs(now))
  }

  /** No issue loses more than one entry more than another that could still give one. */
  ghost predicate EvenHanded(was: seq<Context>, now: seq<Context>)
    requires |was| == |now|
  {
    && (forall i, j | 0 <= i < |was| && 0 <= j < |was| && |now[j].events| > 1 ::
          |was[i].events| - |now[i].events| <= |was[j].events| - |now[j].events| + 1)
    && (forall i, j | 0 <= i < |was| && 0 <= j < |was| && |now[j].logs| > 1 ::
          |was[i].logs| - |now[i].logs| <= |was[j].logs| - |now[j].logs| + 1)
  }

  ghost predicate WellTrimmed(was: seq<Context>, now: seq<Context>) {
    KeepsBestParts(was, now) && RespectsPriority(was, now) && EvenHanded(was, now)
  }

  lemma EventsTrimmedIsWell(was: seq<Context>, now: seq<Context>, r: nat, k: nat)
    requires EventsTrimmed(was, now, r, k)
    ensures WellTrimmed(was, now)
    ensures forall i | 0 <= i < |was| :: now[i].logs == was[i].logs && (now[i].events == [] <==> was[i].events == [])
  {
    EventsTrimmedShape(was, now, r, k);
    assert EvenHanded(was, now);
    assert KeepsBestParts(was, now);
  }

  lemma EventsTrimmedShape(was: seq<Context>, now: seq<Context>, r: nat, k: nat)
    requires EventsTrimmed(was, now, r, k)
    ensures |now| == |was|
    ensures forall i | 0 <= i < |was| ::
              now[i] == was[i].(events := was[i].events[..Survivors(|was[i].events|, Rounds(r, k, i))])
  {
    forall i | 0 <= i < |was|
      ensures now[i] == was[i].(events := was[i].events[..Survivors(|was[i].events|, Rounds(r, k, i))])
    {
      EventsAfterShape(was[i], Rounds(r, k, i));
    }
  }

  lemma LogsTrimmedIsWell(was: seq<Context>, mid: seq<Context>, now: seq<Context>, r: nat, k: nat)
    requires WellTrimmed(was, mid) && AllSingleEvents(mid) && LogsTrimmed(mid, now, r, k)
    requires forall i | 0 <= i < |was| :: mid[i].logs == was[i].logs && (mid[i].events == [] <==> was[i].events == [])
    ensures WellTrimmed(was, now) && AllSingleEvents(now)
  {
    LogsTrimmedShape(mid, now, r, k);
    LogsTrimmedParts(was, mid, now, r, k);
    assert RespectsPriority(was, now);
  }

  lemma LogsTrimmedParts(was: seq<Context>, mid: seq<Context>, now: seq<Context>, r: nat, k: nat)
    requires KeepsBestParts(was, mid) && EvenHanded(was, mid) && AllSingleEvents(mid) && |now| == |mid|
    requires forall i | 0 <= i < |was| :: mid[i].logs == was[i].logs
    requires forall i | 0 <= i < |mid| ::
               now[i] == mid[i].(logs := mid[i].logs[|mid[i].logs| - Survivors(|mid[i].logs|, Rounds(r, k, i))..])
    ensures KeepsBestParts(was, now) && EvenHanded(was, now) && AllSingleEvents(now)
  {
  }

  lemma LogsTrimmedShape(mid: seq<Context>, now: seq<Context>, r: nat, k: nat)
    requires LogsTrimmed(mid, now, r, k)
    ensures |now| == |mid|
    ensures forall i | 0 <= i < |mid| ::
              now[i] == mid[i].(logs := mid[i].logs[|mid[i].logs| - Survivors(|mid[i].logs|, Rounds(r, k, i))..])
  {
    forall i | 0 <= i < |mid|
      ensures now[i] == mid[i].(logs := mid[i].logs[|mid[i].logs| - Survivors(|mid[i].logs|, Rounds(r, k, i))..])
    {
      LogsAfterShape(mid[i], Rounds(r, k, i));
    }
  }

  lemma ClearedIsWell(was: seq<Context>, mid: seq<Context>, now: seq<Context>)
    requires WellTrimmed(was, mid) && AllSingleEvents(mid) && AllSingleLogs(mid) && Cleared(mid, now)
    ensures WellTrimmed(was, now)
  {
    ClearedIsSingle(mid, now);
    ClearedKeepsBestParts(was, mid, now);
    assert EvenHanded(was, now);
  }

  lemma ClearedIsSingle(mid: seq<Context>, now: seq<Context>)
    requires AllSingleEvents(mid) && AllSingleLogs(mid) && Cleared(mid, now)
    ensures AllSingleEvents(now) && AllSingleLogs(now)
  {
  }

  lemma ClearedKeepsBestParts(was: seq<Context>, mid: seq<Context>, now: seq<Context>)
    requires KeepsBestParts(was, mid) && Cleared(mid, now)
    ensures KeepsBestParts(was, now)
  {
  }

  lemma TightFromEarlier(was: seq<Context>, mid: seq<Context>, now: seq<Context>, total: nat, limit: nat)
    requires KeepsBestParts(was, mid) && Tight(mid, now, total, limit)
    ensures Tight(was, now, total, limit)
  {
    var i :| 0 <= i < |mid| && LastRemoved(mid[i], now[i], total, limit);
    assert LastRemoved(was[i], now[i], total, limit);
  }

  /** Ends within the limit; trims no more than needed, the best parts stay, logs and
      last entries go only when nothing less valuable is left. */
  method CapTokenBudget(issues: array<Context>, maxTotalChars: int)
    modifies issues
    ensures Total(issues[..]) <= Limit(maxTotalChars)
    ensures WellTrimmed(old(issues[..]), issues[..])
    ensures Total(old(issues[..])) <= Limit(maxTotalChars) ==> issues[..] == old(issues[..])
    ensures Total(old(issues[..])) > Limit(maxTotalChars) ==>
              Tight(old(issues[..]), issues[..], Total(issues[..]), Limit(maxTotalChars))
  {
    ghost var was := issues[..];
    var limit := Limit(maxTotalChars);
    var total := ContextChars(issues);
    if total <= limit {
      return;
    }
    ghost var r, k;
    total, r, k := TrimEvents(issues, total, limit);
    ghost var first := issues[..];
    EventsTrimmedIsWell(was, first, r, k);
    if total <= limit {
      return;
    }
    total, r, k := TrimLogs(issues, total, limit);
    ghost var second := issues[..];
    LogsTrimmedIsWell(was, first, second, r, k);
    if total <= limit {
      TightFromEarlier(was, first, second, total, limit);
      return;
    }
    total := ClearRemaining(issues, total, limit);
    ClearedIsWell(was, second, issues[..]);
    TightFromEarlier(was, second, issues[..], total, limit);
  }
}
