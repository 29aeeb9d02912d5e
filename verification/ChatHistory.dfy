// Chat histories and their compaction.
module ChatHistory {
  import opened TextSearch

  datatype ToolCall = ToolCall(id: string, name: string, args: string)

  // The role text of a message; `Other` is any text but the three known ones.
  datatype Role = User | Assistant | Tool | Other(text: string)

  datatype ChatMessage = ChatMessage(role: Role, content: string, toolCallID: string, toolCalls: seq<ToolCall>)

  function RoleText(role: Role): string {
    match role
    case User => "user"
    case Assistant => "assistant"
    case Tool => "tool"
    case Other(text) => text
  }

  // The three roles of the wire format by name.
  lemma RoleNames(m: ChatMessage)
    ensures RoleText(m.role) == "user" <==> m.role == User || m.role == Other("user")
    ensures RoleText(m.role) == "assistant" <==> m.role == Assistant || m.role == Other("assistant")
    ensures RoleText(m.role) == "tool" <==> m.role == Tool || m.role == Other("tool")
  {
    assert |"user"| == 4 && |"assistant"| == 9 && |"tool"| == 4 && "user"[0] != "tool"[0];
  }

  predicate IsTool(m: ChatMessage) {
    m.role == Tool
  }

  predicate Answers(calls: seq<ToolCall>, results: seq<ChatMessage>) {
    && |results| == |calls|
    && forall i :: 0 <= i < |calls| ==> IsTool(results[i]) && results[i].toolCallID == calls[i].id
  }

  /** Every assistant message is followed by exactly the results of its calls, in order,
      and there are no other tool messages. */
  predicate Paired(ms: seq<ChatMessage>)
    decreases |ms|
  {
    || ms == []
    || (ms[0].role == User && Paired(ms[1..]))
    || (&& ms[0].role == Assistant
        && var n := |ms[0].toolCalls|;
        n < |ms| && Answers(ms[0].toolCalls, ms[1..n + 1]) && Paired(ms[n + 1..]))
  }

  lemma {:induction false} PairedConcat(a: seq<ChatMessage>, b: seq<ChatMessage>)
    requires Paired(a) && Paired(b)
    ensures Paired(a + b)
    decreases |a|
  {
    if a == [] {
      assert a + b == b;
    } else {
      var n := if a[0].role == User then 0 else |a[0].toolCalls|;
      PairedConcat(a[n + 1..], b);
      SliceOfConcat(a, b, n + 1);
    }
  }

  lemma SliceOfConcat(a: seq<ChatMessage>, b: seq<ChatMessage>, n: nat)
    requires 0 < n <= |a|
    ensures (a + b)[0] == a[0] && (a + b)[1..n] == a[1..n] && (a + b)[n..] == a[n..] + b
  {
  }

  // A paired history may be cut anywhere except in front of a tool result.
  lemma {:induction false} PairedSuffix(ms: seq<ChatMessage>, i: nat)
    requires Paired(ms) && i < |ms|
    ensures Paired(ms[i..]) <==> !IsTool(ms[i])
    decreases |ms|
  {
    if i == 0 {
      assert ms[0..] == ms;
    } else {
      var n := if ms[0].role == User then 0 else |ms[0].toolCalls|;
      if i <= n {
        assert ms[1..n + 1][i - 1] == ms[i];
      } else {
        PairedSuffix(ms[n + 1..], i - n - 1);
        assert ms[n + 1..][i - n - 1..] == ms[i..];
      }
    }
  }

  // ------------------------------------------------------- history compaction

  const CONTEXT_WINDOW := 128000
  const COMPACTION_THRESHOLD := CONTEXT_WINDOW * 80 / 100
  const KEEP_TAIL := 3
  const SUMMARY_PREFIX := "Previous conversation summary: "

  function CallChars(calls: seq<ToolCall>): nat {
    if |calls| == 0 then 0
    else CallChars(calls[..|calls| - 1]) + |calls[|calls| - 1].args| + |calls[|calls| - 1].name|
  }

  function MessageChars(ms: seq<ChatMessage>): nat {
    if |ms| == 0 then 0
    else MessageChars(ms[..|ms| - 1]) + |ms[|ms| - 1].content| + CallChars(ms[|ms| - 1].toolCalls)
  }

  function EstimatedTokens(ms: seq<ChatMessage>): nat {
    MessageChars(ms) / 4
  }

  function Truncate(s: string, maxLen: nat): string {
    if |s| <= maxLen then s else s[..maxLen] + "...(truncated)"
  }

  function Summary(ms: seq<ChatMessage>): string {
    if |ms| == 0 then SUMMARY_PREFIX
    else
      var m := ms[|ms| - 1];
      Summary(ms[..|ms| - 1])
      + if m.content == "" then "" else "[" + RoleText(m.role) + "] " + Truncate(m.content, 100) + " "
  }

  predicate NeedsCompaction(ms: seq<ChatMessage>) {
    EstimatedTokens(ms) >= COMPACTION_THRESHOLD && |ms| > 4
  }

  function Compact(ms: seq<ChatMessage>): seq<ChatMessage> {
    if !NeedsCompaction(ms) then ms
    else [ChatMessage(User, Summary(ms[..|ms| - KEEP_TAIL]), "", [])] + ms[|ms| - KEEP_TAIL..]
  }

  // No compaction, or one that does not cut between a call and its result.
  predicate CutsCleanly(ms: seq<ChatMessage>) {
    NeedsCompaction(ms) ==> !IsTool(ms[|ms| - KEEP_TAIL])
  }

  /** Compacting a paired history leaves it paired exactly when the oldest of the three
      kept messages is not a tool result. */
  lemma {:induction false} CompactionKeepsPairingIffCleanCut(ms: seq<ChatMessage>)
    requires Paired(ms)
    ensures Paired(Compact(ms)) <==> CutsCleanly(ms)
  {
    if NeedsCompaction(ms) {
      PairedSuffix(ms, |ms| - KEEP_TAIL);
      assert Compact(ms)[1..] == ms[|ms| - KEEP_TAIL..];
    }
  }

  /** Compaction puts one user message, the summary, before the last three messages, which
      stay as they are. */
  lemma CompactKeepsLastThree(ms: seq<ChatMessage>)
    requires NeedsCompaction(ms)
    ensures var r := Compact(ms);
            && |r| == 4 && r[1..] == ms[|ms| - 3..]
            && r[0].role == User && r[0].toolCalls == [] && r[0].content == Summary(ms[..|ms| - 3])
  {
  }

  // How the summary mentions a message: its role and the first hundred bytes of its text.
  function Mention(m: ChatMessage): string {
    "[" + RoleText(m.role) + "] " + if |m.content| <= 100 then m.content else m.content[..100]
  }

  ghost predicate Mentions(summary: string, m: ChatMessage) {
    exists p: nat :: OccursAt(summary, Mention(m), p)
  }

  // What the summary adds for a message.
  function Added(m: ChatMessage): string {
    if m.content == "" then "" else "[" + RoleText(m.role) + "] " + Truncate(m.content, 100) + " "
  }

  lemma Reassociate(a: string, x: string, y: string, z: string)
    ensures a + (x + y) + z == (a + x) + (y + z)
  {
  }

  lemma AddedMentions(m: ChatMessage) returns (rest: string)
    requires m.content != ""
    ensures Added(m) == Mention(m) + rest
  {
    if |m.content| <= 100 {
      rest := " ";
    } else {
      rest := "...(truncated)" + " ";
      Reassociate("[" + RoleText(m.role) + "] ", m.content[..100], "...(truncated)", " ");
    }
  }

  lemma OccursBehind(before: string, text: string, rest: string)
    ensures OccursAt(before + (text + rest), text, |before|)
  {
  }

  /** Every message with a text is mentioned in the summary. */
  lemma {:induction false} SummaryMentionsAll(ms: seq<ChatMessage>, i: nat)
    requires i < |ms| && ms[i].content != ""
    ensures Mentions(Summary(ms), ms[i])
  {
    var n := |ms| - 1;
    var before := Summary(ms[..n]);
    assert Summary(ms) == before + Added(ms[n]);
    if i < n {
      SummaryMentionsAll(ms[..n], i);
      OccursStays(before, Added(ms[n]), Mention(ms[i]));
    } else {
      var rest := AddedMentions(ms[n]);
      OccursBehind(before, Mention(ms[n]), rest);
    }
  }

  lemma OccursStays(s: string, more: string, text: string)
    requires exists p: nat :: OccursAt(s, text, p)
    ensures exists p: nat :: OccursAt(s + more, text, p)
  {
    var p: nat :| OccursAt(s, text, p);
    assert (s + more)[p..p + |text|] == s[p..p + |text|];
    assert OccursAt(s + more, text, p);
  }

  lemma {:induction false} CharsOfOne(ms: seq<ChatMessage>, i: nat)
    requires i < |ms|
    ensures MessageChars(ms) >= |ms[i].content|
  {
    if i < |ms| - 1 {
      CharsOfOne(ms[..|ms| - 1], i);
    }
  }

  // The longest message the server accepts from a user.
  const MAX_QUESTION := 2000

  /** A cut can be unclean: if an admissible question is answered by three tool calls and one
      of their results is long, compaction cuts between the calls and their results. */
  lemma {:induction false} UncleanCutHappens(ms: seq<ChatMessage>, question: string, content: string,
                                             calls: seq<ToolCall>, results: seq<ChatMessage>, k: nat)
    requires |question| <= MAX_QUESTION && |calls| == 3 && Answers(calls, results)
    requires k < 3 && |results[k].content| >= 409_600
    requires ms == [ChatMessage(User, question, "", []), ChatMessage(Assistant, content, "", calls)] + results
    ensures Paired(ms) && NeedsCompaction(ms) && !CutsCleanly(ms) && !Paired(Compact(ms))
  {
    CharsOfOne(ms, k + 2);
    var rest := ms[1..];
    assert rest[1..4] == results && rest[4..] == [];
    assert IsTool(results[0]) && ms[2] == results[0];
    CompactionKeepsPairingIffCleanCut(ms);
  }

  method EstimateMessageTokens(ms: seq<ChatMessage>) returns (tokens: nat)
    ensures tokens == EstimatedTokens(ms)
  {
    var total := 0;
    for i := 0 to |ms|
      invariant total == MessageChars(ms[..i])
    {
      var calls := ms[i].toolCalls;
      ghost var before := total;
      total := total + |ms[i].content|;
      for j := 0 to |calls|
        invariant total == before + |ms[i].content| + CallChars(calls[..j])
      {
        assert calls[..j + 1][..j] == calls[..j];
        total := total + |calls[j].args| + |calls[j].name|;
      }
      assert calls[..|calls|] == calls;
      assert ms[..i + 1][..i] == ms[..i];
    }
    assert ms[..|ms|] == ms;
    return total / 4;
  }

  method MaybeCompactHistory(ms: seq<ChatMessage>) returns (r: seq<ChatMessage>)
    ensures r == Compact(ms)
  {
    var tokens := EstimateMessageTokens(ms);
    if tokens < COMPACTION_THRESHOLD || |ms| <= 4 {
      return ms;
    }
    var keepTail := if |ms| < KEEP_TAIL then |ms| else KEEP_TAIL;
    var toSummarize, tail := ms[..|ms| - keepTail], ms[|ms| - keepTail..];
    var summary := SUMMARY_PREFIX;
    for i := 0 to |toSummarize|
      invariant summary == Summary(toSummarize[..i])
    {
      assert toSummarize[..i + 1][..i] == toSummarize[..i];
      var m := toSummarize[i];
      if m.content != "" {
        summary := summary + ("[" + RoleText(m.role) + "] " + Truncate(m.content, 100) + " ");
      } else {
        assert summary + "" == summary;
      }
    }
    assert toSummarize[..|toSummarize|] == toSummarize;
    return [ChatMessage(User, summary, "", [])] + tail;
  }
}
