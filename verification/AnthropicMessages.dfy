// Translation of chat histories to the Anthropic message format.
// JSON message contents are modelled as values: a string or a list of blocks.
module AnthropicMessages {
  import opened CheckerTypes
  import opened ChatHistory

  datatype Block =
    | TextBlock(text: string)
    | ToolUse(id: string, name: string, input: string)
    | ToolResult(id: string, content: string)

  datatype Content = Text(text: string) | Blocks(blocks: seq<Block>)

  datatype WireMessage = WireMessage(role: Role, content: Content)

  predicate KnownRole(m: ChatMessage) {
    !m.role.Other?
  }

  // Messages of other roles are skipped.
  function Known(ms: seq<ChatMessage>): seq<ChatMessage> {
    if |ms| == 0 then []
    else Known(ms[..|ms| - 1]) + if KnownRole(ms[|ms| - 1]) then [ms[|ms| - 1]] else []
  }

  predicate AllKnown(ms: seq<ChatMessage>) {
    forall i :: 0 <= i < |ms| ==> KnownRole(ms[i])
  }

  // No tool message directly follows a user message.
  predicate WellPlaced(ms: seq<ChatMessage>) {
    forall i :: 0 < i < |ms| && IsTool(ms[i]) ==> ms[i - 1].role != User
  }

  function Uses(calls: seq<ToolCall>): (r: seq<Block>)
    ensures |r| == |calls|
  {
    seq(|calls|, i requires 0 <= i < |calls| => ToolUse(calls[i].id, calls[i].name, calls[i].args))
  }

  function Results(ms: seq<ChatMessage>): (r: seq<Block>)
    ensures |r| == |ms|
  {
    seq(|ms|, i requires 0 <= i < |ms| => ToolResult(ms[i].toolCallID, ms[i].content))
  }

  function AssistantBlocks(m: ChatMessage): seq<Block> {
    (if m.content == "" then [] else [TextBlock(m.content)]) + Uses(m.toolCalls)
  }

  function Single(m: ChatMessage): WireMessage {
    if m.role == User then WireMessage(User, Text(m.content))
    else WireMessage(Assistant, Blocks(AssistantBlocks(m)))
  }

  // Length of the run of tool messages at the front.
  function ToolRun(ms: seq<ChatMessage>): (n: nat)
    ensures n <= |ms|
    ensures forall i :: 0 <= i < n ==> IsTool(ms[i])
    ensures n < |ms| ==> !IsTool(ms[n])
  {
    if |ms| == 0 || !IsTool(ms[0]) then 0
    else
      assert forall i :: 1 <= i < |ms| ==> ms[i] == ms[1..][i - 1];
      1 + ToolRun(ms[1..])
  }

  /** The wire format, run by run: each maximal run of tool messages is one user message
      holding their results, every other message stands alone. */
  function Grouped(ms: seq<ChatMessage>): seq<WireMessage>
    decreases |ms|
  {
    if ms == [] then [] else [First(ms)] + Grouped(ms[FirstLength(ms)..])
  }

  function FirstLength(ms: seq<ChatMessage>): (n: nat)
    requires ms != []
    ensures 0 < n <= |ms|
  {
    if IsTool(ms[0]) then ToolRun(ms) else 1
  }

  function First(ms: seq<ChatMessage>): WireMessage
    requires ms != []
  {
    if IsTool(ms[0]) then WireMessage(User, Blocks(Results(ms[..ToolRun(ms)]))) else Single(ms[0])
  }

  // ------------------------------------------------------ one message at a time

  // The last wire message is of the kind that message m belongs in.
  predicate EndsAs(g: seq<WireMessage>, m: ChatMessage) {
    && g != []
    && (g[|g| - 1].role == User <==> m.role != Assistant)
    && (g[|g| - 1].content.Text? <==> m.role == User)
  }

  lemma {:induction false} GroupedLast(ms: seq<ChatMessage>)
    requires AllKnown(ms) && ms != []
    ensures EndsAs(Grouped(ms), ms[|ms| - 1])
    decreases |ms|
  {
    var n := FirstLength(ms);
    if n < |ms| {
      GroupedLast(ms[n..]);
      EndsBehind(First(ms), Grouped(ms[n..]), ms[|ms| - 1]);
    } else {
      LastIsInFirst(ms);
    }
  }

  lemma EndsBehind(w: WireMessage, g: seq<WireMessage>, m: ChatMessage)
    requires EndsAs(g, m)
    ensures EndsAs([w] + g, m)
  {
  }

  lemma {:induction false} LastIsInFirst(ms: seq<ChatMessage>)
    requires AllKnown(ms) && ms != [] && FirstLength(ms) == |ms|
    ensures EndsAs(Grouped(ms), ms[|ms| - 1])
  {
    assert ms[|ms|..] == [];
    assert Grouped(ms) == [First(ms)];
    if IsTool(ms[0]) {
      assert IsTool(ms[|ms| - 1]);
    }
  }

  // What one more message does to the wire messages built so far: a tool message
  // after another joins the last one, anything else is added.
  function Extend(g: seq<WireMessage>, join: bool, m: ChatMessage): seq<WireMessage> {
    if !IsTool(m) then g + [Single(m)]
    else if join && g != [] && g[|g| - 1].content.Blocks? then
      g[..|g| - 1] + [WireMessage(User, Blocks(g[|g| - 1].content.blocks + Results([m])))]
    else g + [WireMessage(User, Blocks(Results([m])))]
  }

  predicate EndsInTool(ms: seq<ChatMessage>) {
    ms != [] && IsTool(ms[|ms| - 1])
  }

  lemma ExtendBehind(w: WireMessage, g: seq<WireMessage>, join: bool, m: ChatMessage)
    requires join ==> g != []
    ensures Extend([w] + g, join, m) == [w] + Extend(g, join, m)
  {
    if join {
      assert ([w] + g)[..|g|] == [w] + g[..|g| - 1];
    }
  }

  // Grouping can be done one message at a time.
  lemma {:induction false} GroupedSnoc(ms: seq<ChatMessage>, m: ChatMessage)
    requires AllKnown(ms) && KnownRole(m)
    ensures Grouped(ms + [m]) == Extend(Grouped(ms), EndsInTool(ms), m)
    decreases |ms|
  {
    if ms == [] {
      assert [] + [m] == [m] && [m][1..] == [] && [m][..1] == [m];
    } else {
      var n := FirstLength(ms);
      if n == |ms| && IsTool(ms[0]) {
        GroupedAfterRun(ms, m);
      } else {
        GroupedSnoc(ms[n..], m);
        SnocBehindFirst(ms, m);
      }
    }
  }

  lemma {:induction false} SnocBehindFirst(ms: seq<ChatMessage>, m: ChatMessage)
    requires AllKnown(ms) && ms != [] && (FirstLength(ms) < |ms| || !IsTool(ms[0]))
    requires var rest := ms[FirstLength(ms)..];
             Grouped(rest + [m]) == Extend(Grouped(rest), EndsInTool(rest), m)
    ensures Grouped(ms + [m]) == Extend(Grouped(ms), EndsInTool(ms), m)
  {
    var rest := ms[FirstLength(ms)..];
    GroupedBehindFirst(ms, m);
    SomethingToJoin(rest);
    ExtendBehind(First(ms), Grouped(rest), EndsInTool(rest), m);
    SameEnd(ms);
  }

  lemma {:induction false} GroupedBehindFirst(ms: seq<ChatMessage>, m: ChatMessage)
    requires ms != [] && (FirstLength(ms) < |ms| || !IsTool(ms[0]))
    ensures Grouped(ms + [m]) == [First(ms)] + Grouped(ms[FirstLength(ms)..] + [m])
  {
    FirstIsStable(ms, m);
  }

  lemma {:induction false} SomethingToJoin(ms: seq<ChatMessage>)
    requires AllKnown(ms)
    ensures EndsInTool(ms) ==> Grouped(ms) != []
  {
    if ms != [] {
      GroupedLast(ms);
    }
  }

  lemma SameEnd(ms: seq<ChatMessage>)
    requires ms != [] && (FirstLength(ms) < |ms| || !IsTool(ms[0]))
    ensures EndsInTool(ms[FirstLength(ms)..]) == EndsInTool(ms)
  {
  }

  lemma {:induction false} FirstIsStable(ms: seq<ChatMessage>, m: ChatMessage)
    requires ms != [] && (FirstLength(ms) < |ms| || !IsTool(ms[0]))
    ensures FirstLength(ms + [m]) == FirstLength(ms) && First(ms + [m]) == First(ms)
    ensures (ms + [m])[FirstLength(ms)..] == ms[FirstLength(ms)..] + [m]
  {
    if IsTool(ms[0]) {
      RunIsUnique(ms + [m], ToolRun(ms));
      assert (ms + [m])[..ToolRun(ms)] == ms[..ToolRun(ms)];
    }
  }

  lemma {:induction false} GroupedAfterRun(ms: seq<ChatMessage>, m: ChatMessage)
    requires ms != [] && ToolRun(ms) == |ms|
    ensures Grouped(ms + [m]) == Extend(Grouped(ms), true, m)
  {
    var n := |ms|;
    WholeRun(ms);
    if IsTool(m) {
      WholeRun(ms + [m]);
      assert Results(ms + [m]) == Results(ms) + Results([m]);
    } else {
      RunIsUnique(ms + [m], n);
      assert (ms + [m])[..n] == ms && (ms + [m])[n..] == [m] && [m][1..] == [];
    }
  }

  lemma {:induction false} RunIsUnique(ms: seq<ChatMessage>, n: nat)
    requires n <= |ms| && (n < |ms| ==> !IsTool(ms[n]))
    requires forall i :: 0 <= i < n ==> IsTool(ms[i])
    ensures ToolRun(ms) == n
  {
  }

  lemma {:induction false} WholeRun(ms: seq<ChatMessage>)
    requires ms != [] && forall i :: 0 <= i < |ms| ==> IsTool(ms[i])
    ensures ToolRun(ms) == |ms|
    ensures Grouped(ms) == [WireMessage(User, Blocks(Results(ms)))]
  {
    assert ms[..|ms|] == ms && ms[|ms|..] == [];
  }

  lemma {:induction false} KnownIsMonotone(ms: seq<ChatMessage>, i: nat)
    requires i <= |ms|
    ensures Known(ms[..i]) <= Known(ms)
  {
    if i == |ms| {
      assert ms[..i] == ms;
    } else {
      KnownIsMonotone(ms[..|ms| - 1], i);
      assert ms[..|ms| - 1][..i] == ms[..i];
    }
  }

  lemma {:induction false} KnownAreKnown(ms: seq<ChatMessage>)
    ensures AllKnown(Known(ms))
  {
    if |ms| > 0 {
      var init, m := ms[..|ms| - 1], ms[|ms| - 1];
      KnownAreKnown(init);
      if KnownRole(m) {
        AllKnownSnoc(Known(init), m);
      }
    }
  }

  lemma {:induction false} AllKnownIsKept(ms: seq<ChatMessage>)
    requires AllKnown(ms)
    ensures Known(ms) == ms
  {
    if |ms| > 0 {
      var init, m := ms[..|ms| - 1], ms[|ms| - 1];
      AllKnownIsKept(init);
      assert ms == init + [m];
    }
  }

  lemma AllKnownSnoc(ms: seq<ChatMessage>, m: ChatMessage)
    requires AllKnown(ms) && KnownRole(m)
    ensures AllKnown(ms + [m])
  {
  }

  method BuildAssistantBlocks(m: ChatMessage) returns (blocks: seq<Block>)
    ensures blocks == AssistantBlocks(m)
  {
    blocks := [];
    if m.content != "" {
      blocks := blocks + [TextBlock(m.content)];
    }
    ghost var text := blocks;
    for j := 0 to |m.toolCalls|
      invariant blocks == text + Uses(m.toolCalls)[..j]
    {
      blocks := blocks + [ToolUse(m.toolCalls[j].id, m.toolCalls[j].name, m.toolCalls[j].args)];
    }
  }

  // Why the translation of messages may be stopped at message i.
  lemma StopsAtMisplacedTool(messages: seq<ChatMessage>, i: nat)
    requires i < |messages| && IsTool(messages[i])
    requires var done := Known(messages[..i]); done != [] && done[|done| - 1].role == User
    ensures !WellPlaced(Known(messages))
  {
    var done := Known(messages[..i]);
    assert messages[..i + 1][..i] == messages[..i];
    assert Known(messages[..i + 1]) == done + [messages[i]];
    KnownIsMonotone(messages, i + 1);
    assert Known(messages)[|done|] == messages[i];
    assert Known(messages)[|done| - 1] == done[|done| - 1];
  }

  predicate EndsInUser(g: seq<WireMessage>) {
    g != [] && g[|g| - 1].role == User
  }

  predicate Stops(g: seq<WireMessage>, m: ChatMessage) {
    IsTool(m) && EndsInUser(g) && g[|g| - 1].content.Text?
  }

  // One pass of the translation loop; none when results cannot be merged into a
  // user message because that holds text.
  method AddMessage(result: seq<WireMessage>, m: ChatMessage) returns (r: Option<seq<WireMessage>>)
    ensures r.None? <==> Stops(result, m)
    ensures r.Some? ==> r.value == if KnownRole(m) then Extend(result, EndsInUser(result), m) else result
  {
    if m.role == User {
      return Some(result + [WireMessage(User, Text(m.content))]);
    } else if m.role == Assistant {
      var blocks := BuildAssistantBlocks(m);
      return Some(result + [WireMessage(Assistant, Blocks(blocks))]);
    } else if m.role == Tool {
      var newBlock := ToolResult(m.toolCallID, m.content);
      assert [newBlock] == Results([m]);
      if |result| > 0 && result[|result| - 1].role == User {
        match result[|result| - 1].content {
          case Text(_) => return None;
          case Blocks(existing) =>
            return Some(result[..|result| - 1] + [WireMessage(User, Blocks(existing + [newBlock]))]);
        }
      }
      return Some(result + [WireMessage(User, Blocks([newBlock]))]);
    }
    return Some(result);
  }

  // Whether the translation stops is seen from the message before.
  lemma {:induction false} StopsAfterUser(done: seq<ChatMessage>, m: ChatMessage)
    requires AllKnown(done)
    ensures EndsInUser(Grouped(done)) <==> done != [] && done[|done| - 1].role != Assistant
    ensures Stops(Grouped(done), m) <==> IsTool(m) && done != [] && done[|done| - 1].role == User
  {
    if done != [] {
      GroupedLast(done);
    }
  }

  lemma WellPlacedSnoc(done: seq<ChatMessage>, m: ChatMessage)
    requires WellPlaced(done)
    requires IsTool(m) && done != [] ==> done[|done| - 1].role != User
    ensures WellPlaced(done + [m])
  {
  }

  lemma {:induction false} SameJoin(done: seq<ChatMessage>, m: ChatMessage)
    requires AllKnown(done) && !Stops(Grouped(done), m)
    ensures Extend(Grouped(done), EndsInTool(done), m) == Extend(Grouped(done), EndsInUser(Grouped(done)), m)
  {
    StopsAfterUser(done, m);
  }

  lemma {:induction false} OneMore(done: seq<ChatMessage>, m: ChatMessage)
    requires AllKnown(done) && WellPlaced(done) && KnownRole(m)
    requires !Stops(Grouped(done), m)
    ensures WellPlaced(done + [m])
    ensures Grouped(done + [m]) == Extend(Grouped(done), EndsInUser(Grouped(done)), m)
  {
    StopsAfterUser(done, m);
    WellPlacedSnoc(done, m);
    GroupedSnoc(done, m);
    SameJoin(done, m);
  }

  // One pass keeps the loop invariant, and stops only where it must.
  lemma {:induction false} NextMessage(messages: seq<ChatMessage>, i: nat)
    requires i < |messages| && WellPlaced(Known(messages[..i]))
    ensures var g, m := Grouped(Known(messages[..i])), messages[i];
            if Stops(g, m) then !WellPlaced(Known(messages))
            else
              && WellPlaced(Known(messages[..i + 1]))
              && Grouped(Known(messages[..i + 1])) == if KnownRole(m) then Extend(g, EndsInUser(g), m) else g
  {
    var done := Known(messages[..i]);
    var m := messages[i];
    assert messages[..i + 1][..i] == messages[..i];
    assert Known(messages[..i + 1]) == if KnownRole(m) then done + [m] else done;
    KnownAreKnown(messages[..i]);
    if KnownRole(m) {
      if Stops(Grouped(done), m) {
        StopsAfterUser(done, m);
        StopsAtMisplacedTool(messages, i);
      } else {
        OneMore(done, m);
      }
    }
  }

  /** Succeeds exactly when no tool message follows a user message, and then yields the
      wire format of the messages with a known role. */
  method BuildAnthropicMessages(messages: seq<ChatMessage>) returns (r: Option<seq<WireMessage>>)
    ensures r.Some? <==> WellPlaced(Known(messages))
    ensures r.Some? ==> r.value == Grouped(Known(messages))
  {
    var result: seq<WireMessage> := [];
    for i := 0 to |messages|
      invariant WellPlaced(Known(messages[..i]))
      invariant result == Grouped(Known(messages[..i]))
    {
      NextMessage(messages, i);
      var next := AddMessage(result, messages[i]);
      if next.None? {
        return None;
      }
      result := next.value;
    }
    assert messages[..|messages|] == messages;
    return Some(result);
  }

  // --------------------------------------------------------- nothing gets lost

  // The parts of a message that its role gives a meaning to.
  function Essential(m: ChatMessage): ChatMessage {
    if m.role == User then ChatMessage(User, m.content, "", [])
    else if m.role == Assistant then ChatMessage(Assistant, m.content, "", m.toolCalls)
    else ChatMessage(Tool, m.content, m.toolCallID, [])
  }

  function Essentials(ms: seq<ChatMessage>): (r: seq<ChatMessage>)
    ensures |r| == |ms|
  {
    seq(|ms|, i requires 0 <= i < |ms| => Essential(ms[i]))
  }

  function ReadUses(bs: seq<Block>): (r: seq<ToolCall>)
    ensures |r| == |bs|
  {
    seq(|bs|, i requires 0 <= i < |bs| =>
      if bs[i].ToolUse? then ToolCall(bs[i].id, bs[i].name, bs[i].input) else ToolCall("", "", ""))
  }

  function ReadResults(bs: seq<Block>): (r: seq<ChatMessage>)
    ensures |r| == |bs|
  {
    seq(|bs|, i requires 0 <= i < |bs| =>
      if bs[i].ToolResult? then ChatMessage(Tool, bs[i].content, bs[i].id, []) else ChatMessage(Tool, "", "", []))
  }

  function ReadOne(w: WireMessage): seq<ChatMessage> {
    match w.content
    case Text(text) => [ChatMessage(w.role, text, "", [])]
    case Blocks(bs) =>
      if w.role == User then ReadResults(bs)
      else if bs != [] && bs[0].TextBlock? then [ChatMessage(w.role, bs[0].text, "", ReadUses(bs[1..]))]
      else [ChatMessage(w.role, "", "", ReadUses(bs))]
  }

  function ReadBack(ws: seq<WireMessage>): seq<ChatMessage> {
    if ws == [] then [] else ReadOne(ws[0]) + ReadBack(ws[1..])
  }

  lemma {:induction false} ReadSingle(m: ChatMessage)
    requires m.role == User || m.role == Assistant
    ensures ReadOne(Single(m)) == [Essential(m)]
  {
    if m.role == Assistant {
      var bs := AssistantBlocks(m);
      var uses := if m.content == "" then bs else bs[1..];
      assert uses == Uses(m.toolCalls);
      assert ReadUses(uses) == m.toolCalls;
    }
  }

  /** Reading the wire format back gives every message again, in order: merging loses and
      reorders nothing. */
  lemma {:induction false} WireRoundTrip(ms: seq<ChatMessage>)
    requires AllKnown(ms)
    ensures ReadBack(Grouped(ms)) == Essentials(ms)
    decreases |ms|
  {
    if ms != [] {
      var n := FirstLength(ms);
      WireRoundTrip(ms[n..]);
      ReadFirst(ms);
      ReadBackCons(First(ms), Grouped(ms[n..]));
      EssentialsSplit(ms, n);
    }
  }

  lemma {:induction false} ReadBackCons(w: WireMessage, ws: seq<WireMessage>)
    ensures ReadBack([w] + ws) == ReadOne(w) + ReadBack(ws)
  {
    assert ([w] + ws)[1..] == ws;
  }

  lemma EssentialsSplit(ms: seq<ChatMessage>, n: nat)
    requires n <= |ms|
    ensures Essentials(ms) == Essentials(ms[..n]) + Essentials(ms[n..])
  {
  }

  lemma {:induction false} ReadFirst(ms: seq<ChatMessage>)
    requires AllKnown(ms) && ms != []
    ensures ReadOne(First(ms)) == Essentials(ms[..FirstLength(ms)])
  {
    if IsTool(ms[0]) {
      var run := ms[..ToolRun(ms)];
      assert ReadResults(Results(run)) == Essentials(run);
    } else {
      ReadSingle(ms[0]);
      assert Essentials(ms[..1]) == [Essential(ms[0])];
    }
  }

  // ------------------------------------------------------------ paired histories

  function UseIds(calls: seq<ToolCall>): seq<string> {
    seq(|calls|, i requires 0 <= i < |calls| => calls[i].id)
  }

  function ResultIds(bs: seq<Block>): seq<string> {
    seq(|bs|, i requires 0 <= i < |bs| => if bs[i].ToolResult? then bs[i].id else "")
  }

  function CallsOf(w: WireMessage): seq<ToolCall> {
    var r := ReadOne(w);
    if |r| == 1 then r[0].toolCalls else []
  }

  /** The order the provider demands: an assistant message that uses tools is followed by
      one user message with exactly the results of those uses, in the same order, and
      results appear nowhere else. */
  predicate PairedWire(ws: seq<WireMessage>)
    decreases |ws|
  {
    || ws == []
    || (ws[0].role == User && ws[0].content.Text? && PairedWire(ws[1..]))
    || (&& ws[0].role == Assistant && ws[0].content.Blocks?
        && var calls := CallsOf(ws[0]);
        if calls == [] then PairedWire(ws[1..])
        else
          && |ws| >= 2 && ws[1].role == User && ws[1].content.Blocks?
          && ResultIds(ws[1].content.blocks) == UseIds(calls)
          && PairedWire(ws[2..]))
  }

  lemma {:induction false} PairedIsWellPlaced(ms: seq<ChatMessage>)
    requires Paired(ms)
    ensures AllKnown(ms) && WellPlaced(ms)
    ensures ms != [] ==> !IsTool(ms[0])
    decreases |ms|
  {
    if ms != [] {
      var n := if ms[0].role == User then 0 else |ms[0].toolCalls|;
      PairedIsWellPlaced(ms[n + 1..]);
      assert forall i :: 1 <= i < n + 1 ==> ms[i] == ms[1..n + 1][i - 1];
      assert forall i :: n + 1 <= i < |ms| ==> ms[i] == ms[n + 1..][i - n - 1];
    }
  }

  lemma {:induction false} RunAfterCalls(ms: seq<ChatMessage>)
    requires Paired(ms) && ms != [] && ms[0].role == Assistant && ms[0].toolCalls != []
    ensures var n := |ms[0].toolCalls|;
            && n < |ms|
            && Grouped(ms) == [Single(ms[0]), WireMessage(User, Blocks(Results(ms[1..n + 1])))] + Grouped(ms[n + 1..])
  {
    var n := |ms[0].toolCalls|;
    var rest := ms[1..];
    PairedIsWellPlaced(ms[n + 1..]);
    assert forall i :: 0 <= i < n ==> rest[i] == ms[1..n + 1][i];
    assert n < |rest| ==> rest[n] == ms[n + 1..][0];
    RunIsUnique(rest, n);
    assert IsTool(rest[0]);
    SliceOfRest(ms, n);
    GroupedUnfold(ms);
    GroupedUnfold(rest);
  }

  lemma GroupedUnfold(ms: seq<ChatMessage>)
    requires ms != []
    ensures Grouped(ms) == [First(ms)] + Grouped(ms[FirstLength(ms)..])
  {
  }

  lemma SliceOfRest(ms: seq<ChatMessage>, n: nat)
    requires n < |ms|
    ensures ms[1..][..n] == ms[1..n + 1] && ms[1..][n..] == ms[n + 1..]
  {
  }

  /** Every paired history is accepted, and its wire format obeys the provider's order. */
  lemma {:induction false} PairedHistoriesBuild(ms: seq<ChatMessage>)
    requires Paired(ms)
    ensures Known(ms) == ms && WellPlaced(ms)
    ensures PairedWire(Grouped(ms))
  {
    PairedIsWellPlaced(ms);
    AllKnownIsKept(ms);
    GroupedIsPairedWire(ms);
  }

  lemma SingleOnWire(m: ChatMessage, rest: seq<WireMessage>)
    requires m.role == User || (m.role == Assistant && m.toolCalls == [])
    requires PairedWire(rest)
    ensures PairedWire([Single(m)] + rest)
  {
    ReadSingle(m);
    assert ([Single(m)] + rest)[1..] == rest;
  }

  lemma CallsOnWire(m: ChatMessage, results: seq<ChatMessage>, rest: seq<WireMessage>)
    requires m.role == Assistant && m.toolCalls != [] && Answers(m.toolCalls, results)
    requires PairedWire(rest)
    ensures PairedWire([Single(m), WireMessage(User, Blocks(Results(results)))] + rest)
  {
    ReadSingle(m);
    assert ResultIds(Results(results)) == UseIds(m.toolCalls);
    assert ([Single(m), WireMessage(User, Blocks(Results(results)))] + rest)[2..] == rest;
  }

  lemma {:induction false} GroupedIsPairedWire(ms: seq<ChatMessage>)
    requires Paired(ms)
    ensures PairedWire(Grouped(ms))
    decreases |ms|
  {
    if ms != [] {
      if ms[0].role == User || ms[0].toolCalls == [] {
        GroupedIsPairedWire(ms[1..]);
        SingleOnWire(ms[0], Grouped(ms[1..]));
      } else {
        var n := |ms[0].toolCalls|;
        RunAfterCalls(ms);
        GroupedIsPairedWire(ms[n + 1..]);
        CallsOnWire(ms[0], ms[1..n + 1], Grouped(ms[n + 1..]));
      }
    }
  }

  /** After compacting a paired history the translation fails exactly when the cut went
      between a call and its result. */
  lemma {:induction false} CompactedHistoryBuildsIffCleanCut(ms: seq<ChatMessage>)
    requires Paired(ms)
    ensures WellPlaced(Known(Compact(ms))) <==> CutsCleanly(ms)
  {
    var cs := Compact(ms);
    CompactionKeepsPairingIffCleanCut(ms);
    PairedIsWellPlaced(ms);
    assert AllKnown(cs);
    AllKnownIsKept(cs);
    if CutsCleanly(ms) {
      PairedIsWellPlaced(cs);
    } else {
      assert cs[1] == ms[|ms| - KEEP_TAIL] && cs[0].role == User;
    }
  }
}
