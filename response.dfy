/**
  * Turning Ollama's replies into `CreateResult`s: usage accounting (`_add_usage`),
  * `normalize_stop_reason`, the reply mapping of `create` and the chunk aggregation of
  * `create_stream`.
  */
module Response {
  import opened Wrappers
  import opened Strings
  import opened Names
  import opened Messages

  // ---------------------------------------------------------------- usage

  /** `RequestUsage`. */
  datatype Usage = Usage(promptTokens: nat, completionTokens: nat)

  const NoUsage := Usage(0, 0)

  /** `_add_usage`: component-wise sum; adding nothing changes nothing. */
  function AddUsage(a: Usage, b: Usage): (r: Usage)
    ensures r.promptTokens == a.promptTokens + b.promptTokens
    ensures r.completionTokens == a.completionTokens + b.completionTokens
    ensures b == NoUsage ==> r == a
    ensures a == NoUsage ==> r == b
  {
    Usage(a.promptTokens + b.promptTokens, a.completionTokens + b.completionTokens)
  }

  /** The running total after recording each usage of `log` in turn, from zero. */
  function SumUsage(log: seq<Usage>): Usage
    decreases |log|
  {
    if log == [] then NoUsage else AddUsage(SumUsage(log[..|log| - 1]), log[|log| - 1])
  }

  lemma AddUsageCommutes(a: Usage, b: Usage)
    ensures AddUsage(a, b) == AddUsage(b, a)
  {
  }

  lemma AddUsageAssociates(a: Usage, b: Usage, c: Usage)
    ensures AddUsage(AddUsage(a, b), c) == AddUsage(a, AddUsage(b, c))
  {
  }

  /** Accumulating two logs one after the other is adding their totals. */
  lemma {:induction false} SumUsageAppend(a: seq<Usage>, b: seq<Usage>)
    ensures SumUsage(a + b) == AddUsage(SumUsage(a), SumUsage(b))
    decreases |b|
  {
    if b == [] {
      assert a + b == a;
      assert SumUsage(b) == NoUsage;
    } else {
      var init, last := b[..|b| - 1], b[|b| - 1];
      assert (a + b)[..|a + b| - 1] == a + init;
      assert (a + b)[|a + b| - 1] == last;
      SumUsageAppend(a, init);
    }
  }

  /** The total does not depend on the order in which two batches of calls finished. */
  lemma SumUsageOrderIrrelevant(a: seq<Usage>, b: seq<Usage>)
    ensures SumUsage(a + b) == SumUsage(b + a)
  {
    SumUsageAppend(a, b);
    SumUsageAppend(b, a);
  }

  // ---------------------------------------------------------------- finish reason

  /** The `FinishReasons` literals the client can produce. */
  datatype FinishReason = Stop | FunctionCalls | UnknownReason

  /** `normalize_stop_reason`: a lower-cased lookup in a table of three known reasons. */
  function NormalizeStopReason(stopReason: Option<string>): (r: FinishReason)
    ensures r == Stop <==> stopReason.Some? && Lower(stopReason.value) in {"stop", "end_turn"}
    ensures r == FunctionCalls <==> stopReason.Some? && Lower(stopReason.value) == "tool_calls"
    ensures stopReason.None? ==> r == UnknownReason
  {
    if stopReason.None? then UnknownReason
    else
      var s := Lower(stopReason.value);
      if s == "stop" || s == "end_turn" then Stop
      else if s == "tool_calls" then FunctionCalls
      else UnknownReason
  }

  /** The mapping ignores case: lower-casing the reason first changes nothing. */
  lemma StopReasonIgnoresCase(s: string)
    ensures NormalizeStopReason(Some(Lower(s))) == NormalizeStopReason(Some(s))
  {
    LowerIdempotent(s);
  }

  /** Which reasons map where. */
  lemma StopReasonTable(s: string)
    ensures NormalizeStopReason(Some(s)) == Stop <==> Lower(s) in {"stop", "end_turn"}
    ensures NormalizeStopReason(Some(s)) == FunctionCalls <==> Lower(s) == "tool_calls"
    ensures s == "" ==> NormalizeStopReason(Some(s)) == UnknownReason
    ensures NormalizeStopReason(None) == UnknownReason
  {
  }

  /** The literal `create` passes for a reply with tool calls maps to `FunctionCalls`. */
  lemma ToolCallsReason()
    ensures NormalizeStopReason(Some("tool_calls")) == FunctionCalls
  {
    assert LowerChar('t') == 't' && LowerChar('o') == 'o' && LowerChar('l') == 'l' && LowerChar('_') == '_';
    assert LowerChar('c') == 'c' && LowerChar('a') == 'a' && LowerChar('s') == 's';
    LowerByChars("tool_calls", "tool_calls");
  }

  /** Capitalised reasons are recognised. */
  lemma StopReasonCapitals()
    ensures NormalizeStopReason(Some("STOP")) == Stop
    ensures NormalizeStopReason(Some("End_Turn")) == Stop
  {
    LowerByChars("STOP", "stop");
    LowerByChars("End_Turn", "end_turn");
  }

  // ---------------------------------------------------------------- backend reply

  /** The `message` of a `ChatResponse`. */
  datatype ResponseMessage = ResponseMessage(content: Option<string>, toolCalls: Option<seq<OllamaToolCall>>)

  /** The fields of Ollama's `ChatResponse` (one reply, or one chunk of a stream) the client reads. */
  datatype ChatResponse = ChatResponse(
    model: string,
    message: ResponseMessage,
    done: bool,
    doneReason: Option<string>,
    promptEvalCount: Option<nat>,
    evalCount: Option<nat>)

  datatype Content = TextContent(text: string) | CallsContent(calls: seq<FunctionCall>)

  /** `CreateResult` without `logprobs`, which is always `None`. */
  datatype CreateResult = CreateResult(
    finishReason: FinishReason,
    content: Content,
    usage: Usage,
    cached: bool,
    thought: Option<string>)

  function CountOrZero(n: Option<nat>): nat {
    if n.Some? then n.value else 0
  }

  /**
    * Ollama's tool calls as `FunctionCall`s, all sharing the identifier `id`: each keeps its
    * position, its name in normal form, and its arguments as text that reads back to them.
    */
  function ToFunctionCalls(calls: seq<OllamaToolCall>, id: string): (r: seq<FunctionCall>)
    ensures |r| == |calls|
    ensures forall i :: 0 <= i < |r| ==>
      && r[i].id == id
      && r[i].name == NormalizeName(calls[i].name)
      && r[i].arguments == DumpArguments(calls[i].arguments)
      && LoadArguments(r[i].arguments) == calls[i].arguments
      && AllNameChars(r[i].name) && |r[i].name| <= MaxNameLength
  {
    seq(|calls|, i requires 0 <= i < |calls| =>
      FunctionCall(id, DumpArguments(calls[i].arguments), NormalizeName(calls[i].name)))
  }

  /** The reply mapping of `create`, with the counter value `toolId`. */
  function ResponseToResult(resp: ChatResponse, toolId: nat): (r: CreateResult)
    ensures !r.cached
    ensures r.usage == Usage(CountOrZero(resp.promptEvalCount), CountOrZero(resp.evalCount))
    ensures r.content.CallsContent? <==> resp.message.toolCalls.Some?
    ensures r.content.CallsContent? ==>
      r.finishReason == FunctionCalls && |r.content.calls| == |resp.message.toolCalls.value|
    ensures r.content.CallsContent? ==>
      r.content.calls == ToFunctionCalls(resp.message.toolCalls.value, NatToString(toolId))
    ensures r.thought.Some? ==> r.content.CallsContent? && r.thought.value != "" && resp.message.content == r.thought
    ensures resp.message.toolCalls.Some? && resp.message.content.Some? && resp.message.content.value != "" ==>
      r.thought == resp.message.content
    ensures resp.message.toolCalls.None? ==>
      && r.finishReason == NormalizeStopReason(Some(if resp.doneReason.Some? then resp.doneReason.value else ""))
      && r.content == TextContent(if resp.message.content.Some? then resp.message.content.value else "")
  {
    var usage := Usage(CountOrZero(resp.promptEvalCount), CountOrZero(resp.evalCount));
    match resp.message.toolCalls
    case Some(calls) =>
      var content := resp.message.content;
      var thought := if content.Some? && content.value != "" then content else None;
      // `normalize_stop_reason("tool_calls")`, see ToolCallsReason
      CreateResult(FunctionCalls, CallsContent(ToFunctionCalls(calls, NatToString(toolId))),
        usage, false, thought)
    case None =>
      var reason := if resp.doneReason.Some? then resp.doneReason.value else "";
      var text := if resp.message.content.Some? then resp.message.content.value else "";
      CreateResult(NormalizeStopReason(Some(reason)), TextContent(text), usage, false, None)
  }

  /**
    * A reply without tool calls: its text, with `None` read as "", and a finish reason
    * that is "stop" exactly for the two stop spellings and "unknown" for a missing reason.
    */
  lemma TextReply(resp: ChatResponse, toolId: nat)
    requires resp.message.toolCalls.None?
    ensures ResponseToResult(resp, toolId).content ==
      TextContent(if resp.message.content.Some? then resp.message.content.value else "")
    ensures ResponseToResult(resp, toolId).thought.None?
    ensures ResponseToResult(resp, toolId).finishReason == Stop <==>
      resp.doneReason.Some? && Lower(resp.doneReason.value) in {"stop", "end_turn"}
    ensures ResponseToResult(resp, toolId).finishReason == FunctionCalls <==>
      resp.doneReason.Some? && Lower(resp.doneReason.value) == "tool_calls"
    ensures resp.doneReason.None? ==> ResponseToResult(resp, toolId).finishReason == UnknownReason
  {
    var reason := if resp.doneReason.Some? then resp.doneReason.value else "";
    assert resp.doneReason.None? ==> Lower(reason) == "" by {
      if resp.doneReason.None? { assert |Lower(reason)| == 0; }
    }
  }

  /** Calls in replies mapped under different counter values never share an identifier. */
  lemma DistinctCallIds(r1: ChatResponse, r2: ChatResponse, m: nat, n: nat, i: nat, j: nat)
    requires m != n
    requires ResponseToResult(r1, m).content.CallsContent? && i < |ResponseToResult(r1, m).content.calls|
    requires ResponseToResult(r2, n).content.CallsContent? && j < |ResponseToResult(r2, n).content.calls|
    ensures ResponseToResult(r1, m).content.calls[i].id != ResponseToResult(r2, n).content.calls[j].id
  {
    NatToStringInjective(m, n);
  }

  // ---------------------------------------------------------------- stream aggregation

  /** `"".join(parts)`. */
  function Join(parts: seq<string>): string
    decreases |parts|
  {
    if parts == [] then "" else Join(parts[..|parts| - 1]) + parts[|parts| - 1]
  }

  /** Every text fragment the chunks carry, empty ones included (`content_chunks`). */
  function RecordedContents(chunks: seq<ChatResponse>): seq<string>
    decreases |chunks|
  {
    if chunks == [] then []
    else
      var c := chunks[|chunks| - 1].message.content;
      RecordedContents(chunks[..|chunks| - 1]) + (if c.Some? then [c.value] else [])
  }

  /** The fragments yielded to the caller while the stream runs: the non-empty ones. */
  function NonEmptyContents(chunks: seq<ChatResponse>): seq<string>
    decreases |chunks|
  {
    if chunks == [] then []
    else
      var c := chunks[|chunks| - 1].message.content;
      NonEmptyContents(chunks[..|chunks| - 1]) + (if c.Some? && c.value != "" then [c.value] else [])
  }

  /** All tool calls of the stream, in order (`full_tool_calls`). */
  function StreamCalls(chunks: seq<ChatResponse>, id: string): seq<FunctionCall>
    decreases |chunks|
  {
    if chunks == [] then []
    else
      var tc := chunks[|chunks| - 1].message.toolCalls;
      StreamCalls(chunks[..|chunks| - 1], id) + (if tc.Some? then ToFunctionCalls(tc.value, id) else [])
  }

  /** The stop reason as the loop carries it: set by a finished chunk while still unset. */
  function StopReason(chunks: seq<ChatResponse>): Option<string>
    decreases |chunks|
  {
    if chunks == [] then None
    else
      var prev := StopReason(chunks[..|chunks| - 1]);
      var c := chunks[|chunks| - 1];
      if c.done && prev.None? then c.doneReason else prev
  }

  predicate Finished(c: ChatResponse) {
    c.done && c.doneReason.Some?
  }

  /** `k` is the first chunk that finished with a reason. */
  predicate FirstFinishedAt(chunks: seq<ChatResponse>, k: int) {
    0 <= k < |chunks| && Finished(chunks[k]) && forall j :: 0 <= j < k ==> !Finished(chunks[j])
  }

  /** The stop reason stays unset exactly when no chunk finished with a reason. */
  lemma {:induction false} StopReasonUnset(chunks: seq<ChatResponse>)
    ensures StopReason(chunks).None? <==> forall j :: 0 <= j < |chunks| ==> !Finished(chunks[j])
    decreases |chunks|
  {
    if chunks != [] {
      StopReasonUnset(chunks[..|chunks| - 1]);
    }
  }

  /** The stop reason is that of the first chunk that finished with one. */
  lemma {:induction false} StopReasonIsFirstFinished(chunks: seq<ChatResponse>, k: nat)
    requires FirstFinishedAt(chunks, k)
    ensures StopReason(chunks) == chunks[k].doneReason
    decreases |chunks|
  {
    var init := chunks[..|chunks| - 1];
    if k < |init| {
      assert FirstFinishedAt(init, k);
      StopReasonIsFirstFinished(init, k);
    } else {
      assert forall j :: 0 <= j < |init| ==> !Finished(init[j]);
      StopReasonUnset(init);
    }
  }

  /** The prompt or completion count of the last chunk, 0 if it is missing or there is none. */
  function LastCount(chunks: seq<ChatResponse>, prompt: bool): nat {
    if chunks == [] then 0
    else if prompt then CountOrZero(chunks[|chunks| - 1].promptEvalCount)
    else CountOrZero(chunks[|chunks| - 1].evalCount)
  }

  /**
    * The final `CreateResult` of `create_stream`, given the whole stream: any text it
    * carries, as content or as thought, is exactly the text the caller was sent, and its
    * calls are the stream's calls.
    */
  function StreamResult(chunks: seq<ChatResponse>, toolId: nat): (r: CreateResult)
    ensures !r.cached
    ensures r.finishReason == NormalizeStopReason(StopReason(chunks))
    ensures r.usage.promptTokens == LastCount(chunks, true)
    ensures r.content.TextContent? ==> r.content.text == Join(NonEmptyContents(chunks))
    ensures r.content.CallsContent? ==> r.content.calls == StreamCalls(chunks, NatToString(toolId))
    ensures r.thought.Some? ==> r.content.CallsContent? && r.thought.value == Join(NonEmptyContents(chunks))
  {
    JoinedTextIsYieldedText(chunks);
    var texts := RecordedContents(chunks);
    var calls := StreamCalls(chunks, NatToString(toolId));
    var finish := NormalizeStopReason(StopReason(chunks));
    var promptTokens := LastCount(chunks, true);
    if |texts| > 0 && |calls| > 0 then
      CreateResult(finish, CallsContent(calls), Usage(promptTokens, LastCount(chunks, false)), false, Some(Join(texts)))
    else if |texts| > 1 then
      CreateResult(finish, TextContent(Join(texts)), Usage(promptTokens, LastCount(chunks, false)), false, None)
    else
      CreateResult(finish, CallsContent(calls), Usage(promptTokens, 0), false, None)
  }

  /**
    * The loop of `create_stream` over the chunks: what it yields on the way, and the
    * result it yields last.
    */
  method AggregateChunks(chunks: seq<ChatResponse>, toolId: nat) returns (yielded: seq<string>, result: CreateResult)
    ensures yielded == NonEmptyContents(chunks)
    ensures result == StreamResult(chunks, toolId)
  {
    var stopReason: Option<string> := None;
    var contentChunks: seq<string> := [];
    var fullToolCalls: seq<FunctionCall> := [];
    var id := NatToString(toolId);
    yielded := [];
    var i := 0;
    while i < |chunks|
      invariant 0 <= i <= |chunks|
      invariant stopReason == StopReason(chunks[..i])
      invariant contentChunks == RecordedContents(chunks[..i])
      invariant yielded == NonEmptyContents(chunks[..i])
      invariant fullToolCalls == StreamCalls(chunks[..i], id)
    {
      var chunk := chunks[i];
      assert chunks[..i + 1][..i] == chunks[..i];
      stopReason := if chunk.done && stopReason.None? then chunk.doneReason else stopReason;
      if chunk.message.content.Some? {
        contentChunks := contentChunks + [chunk.message.content.value];
        if |chunk.message.content.value| > 0 {
          yielded := yielded + [chunk.message.content.value];
        }
      }
      if chunk.message.toolCalls.Some? {
        fullToolCalls := fullToolCalls + ToFunctionCalls(chunk.message.toolCalls.value, id);
      }
      i := i + 1;
    }
    assert chunks[..i] == chunks;
    var promptTokens := if |chunks| > 0 then CountOrZero(chunks[|chunks| - 1].promptEvalCount) else 0;
    var completionTokens := if |chunks| > 0 then CountOrZero(chunks[|chunks| - 1].evalCount) else 0;
    var content: Content;
    var thought: Option<string> := None;
    if |contentChunks| > 0 && |fullToolCalls| > 0 {
      content := CallsContent(fullToolCalls);
      thought := Some(Join(contentChunks));
    } else if |contentChunks| > 1 {
      content := TextContent(Join(contentChunks));
    } else {
      completionTokens := 0;
      content := CallsContent(fullToolCalls);
    }
    result := CreateResult(NormalizeStopReason(stopReason), content, Usage(promptTokens, completionTokens), false, thought);
  }

  /** Empty fragments add nothing to the joined text. */
  lemma {:induction false} JoinedTextIsYieldedText(chunks: seq<ChatResponse>)
    ensures Join(RecordedContents(chunks)) == Join(NonEmptyContents(chunks))
    decreases |chunks|
  {
    if chunks != [] {
      var init := chunks[..|chunks| - 1];
      var c := chunks[|chunks| - 1].message.content;
      JoinedTextIsYieldedText(init);
      JoinSnoc(RecordedContents(init), if c.Some? then [c.value] else []);
      JoinSnoc(NonEmptyContents(init), if c.Some? && c.value != "" then [c.value] else []);
    }
  }

  lemma JoinSnoc(parts: seq<string>, more: seq<string>)
    requires |more| <= 1
    ensures Join(parts + more) == Join(parts) + (if more == [] then "" else more[0])
  {
    if more == [] {
      assert parts + more == parts;
    } else {
      assert (parts + more)[..|parts + more| - 1] == parts;
    }
  }

  /** Several text fragments and no tool call give the whole text the caller was sent. */
  lemma TextStream(chunks: seq<ChatResponse>, toolId: nat)
    requires |RecordedContents(chunks)| > 1 && StreamCalls(chunks, NatToString(toolId)) == []
    ensures StreamResult(chunks, toolId).content == TextContent(Join(NonEmptyContents(chunks)))
    ensures StreamResult(chunks, toolId).thought.None?
    ensures StreamResult(chunks, toolId).usage == Usage(LastCount(chunks, true), LastCount(chunks, false))
  {
  }

  /**
    * Any other stream, with at most one text fragment and not both text and calls, ends
    * with its calls as content (none at all for a lone fragment), no thought and no
    * completion tokens.
    */
  lemma CallsOnlyStream(chunks: seq<ChatResponse>, toolId: nat)
    requires |RecordedContents(chunks)| <= 1
    requires |RecordedContents(chunks)| == 0 || StreamCalls(chunks, NatToString(toolId)) == []
    ensures StreamResult(chunks, toolId).content == CallsContent(StreamCalls(chunks, NatToString(toolId)))
    ensures |RecordedContents(chunks)| == 1 ==> StreamResult(chunks, toolId).content == CallsContent([])
    ensures StreamResult(chunks, toolId).thought.None?
    ensures StreamResult(chunks, toolId).usage == Usage(LastCount(chunks, true), 0)
  {
  }

  /**
    * A stream whose text arrives as one fragment and that has no tool call ends with an
    * empty call list and no completion tokens, although the fragment was yielded.
    */
  lemma LoneFragmentBecomesEmptyCalls(text: string, reason: string, toolId: nat, prompt: nat, completion: nat)
    requires text != ""
    ensures var chunks := [ChatResponse("m", ResponseMessage(Some(text), None), true, Some(reason), Some(prompt), Some(completion))];
      NonEmptyContents(chunks) == [text] &&
      StreamResult(chunks, toolId) ==
        CreateResult(NormalizeStopReason(Some(reason)), CallsContent([]), Usage(prompt, 0), false, None)
  {
    var chunks := [ChatResponse("m", ResponseMessage(Some(text), None), true, Some(reason), Some(prompt), Some(completion))];
    assert chunks[..0] == [];
    assert RecordedContents(chunks) == [text];
    assert StreamCalls(chunks, NatToString(toolId)) == [];
    assert StopReason(chunks) == Some(reason);
  }

  /** Text and tool calls together: the calls are the content and the whole text the thought. */
  lemma CallsWithThought(chunks: seq<ChatResponse>, toolId: nat)
    requires |RecordedContents(chunks)| > 0 && |StreamCalls(chunks, NatToString(toolId))| > 0
    ensures StreamResult(chunks, toolId).content == CallsContent(StreamCalls(chunks, NatToString(toolId)))
    ensures StreamResult(chunks, toolId).thought == Some(Join(NonEmptyContents(chunks)))
    ensures StreamResult(chunks, toolId).usage == Usage(LastCount(chunks, true), LastCount(chunks, false))
  {
  }

  /** The raw tool calls of every chunk, in order. */
  function AllToolCalls(chunks: seq<ChatResponse>): seq<OllamaToolCall>
    decreases |chunks|
  {
    if chunks == [] then []
    else
      var tc := chunks[|chunks| - 1].message.toolCalls;
      AllToolCalls(chunks[..|chunks| - 1]) + (if tc.Some? then tc.value else [])
  }

  lemma ToFunctionCallsAppend(a: seq<OllamaToolCall>, b: seq<OllamaToolCall>, id: string)
    ensures ToFunctionCalls(a + b, id) == ToFunctionCalls(a, id) + ToFunctionCalls(b, id)
  {
    var l, r := ToFunctionCalls(a + b, id), ToFunctionCalls(a, id) + ToFunctionCalls(b, id);
    forall i | 0 <= i < |l| ensures l[i] == r[i] {
      if i < |a| { assert (a + b)[i] == a[i]; } else { assert (a + b)[i] == b[i - |a|]; }
    }
  }

  /**
    * The calls of a stream are all its chunks' calls, in order, each mapped as `create`
    * maps a reply's calls and all carrying the counter's value as identifier.
    */
  lemma {:induction false} StreamCallsShareId(chunks: seq<ChatResponse>, toolId: nat)
    ensures StreamCalls(chunks, NatToString(toolId)) == ToFunctionCalls(AllToolCalls(chunks), NatToString(toolId))
    ensures forall c :: c in StreamCalls(chunks, NatToString(toolId)) ==>
      c.id == NatToString(toolId) && AllNameChars(c.name) && |c.name| <= MaxNameLength
    decreases |chunks|
  {
    var id := NatToString(toolId);
    if chunks != [] {
      var init := chunks[..|chunks| - 1];
      var tc := chunks[|chunks| - 1].message.toolCalls;
      StreamCallsShareId(init, toolId);
      ToFunctionCallsAppend(AllToolCalls(init), if tc.Some? then tc.value else [], id);
    }
    var calls := StreamCalls(chunks, id);
    forall c | c in calls ensures c.id == id && AllNameChars(c.name) && |c.name| <= MaxNameLength {
      var i :| 0 <= i < |calls| && calls[i] == c;
    }
  }
}
