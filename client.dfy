/**
  * `BaseOllamaChatCompletionClient` as an object: the create arguments and capabilities
  * it was built with, and the state its calls update — the two usage totals and the
  * tool-call counter. The backend's `chat` is a function parameter of each call.
  */
module Client {
  import opened Wrappers
  import opened Errors
  import opened Strings
  import opened Messages
  import opened Tools
  import opened CreateArgs
  import opened Request
  import opened Response

  class OllamaClient {
    /** `_create_args`, the create arguments the base class is given, in order. */
    const createArgs: Config
    const modelInfo: ModelInfo
    /** The keyword parameters of `AsyncClient.chat`. */
    const requestKeys: set<string>

    var totalUsage: Usage
    var actualUsage: Usage
    /** Ollama has no tool-call ids: each tool-call reply of `create` takes the next number. */
    var toolId: nat
    /** The usage of every completed call, in order. */
    ghost var usageLog: seq<Usage>

    /**
      * Both totals are the sum of the recorded usages, and the request keys include the
      * literal ones.
      */
    ghost predicate Valid()
      reads this
    {
      && LiteralRequestKeys <= requestKeys
      && totalUsage == SumUsage(usageLog) && actualUsage == totalUsage
    }

    constructor (createArgs: Config, modelInfo: ModelInfo, requestKeys: set<string>)
      requires LiteralRequestKeys <= requestKeys
      ensures Valid()
      ensures this.createArgs == createArgs && this.modelInfo == modelInfo && this.requestKeys == requestKeys
      ensures usageLog == [] && toolId == 0
      ensures totalUsage == NoUsage && actualUsage == NoUsage
    {
      this.createArgs := createArgs;
      this.modelInfo := modelInfo;
      this.requestKeys := requestKeys;
      totalUsage := NoUsage;
      actualUsage := NoUsage;
      toolId := 0;
      usageLog := [];
    }

    /** The closing `_add_usage` of both totals after a completed call. */
    method RecordUsage(usage: Usage)
      requires Valid()
      modifies this
      ensures Valid()
      ensures usageLog == old(usageLog) + [usage] && toolId == old(toolId)
      ensures totalUsage == AddUsage(old(totalUsage), usage) && actualUsage == AddUsage(old(actualUsage), usage)
    {
      totalUsage := AddUsage(totalUsage, usage);
      actualUsage := AddUsage(actualUsage, usage);
      usageLog := usageLog + [usage];
      assert usageLog[..|usageLog| - 1] == old(usageLog);
    }

    /** The request this client builds for a call, or the error that stops it first. */
    function Params(
      messages: seq<LLMMessage>, tools: seq<ToolSchema>, toolChoice: ToolChoice,
      jsonOutput: Value, extra: Config): Result<CreateParams, ClientError>
    {
      ProcessCreateArgs(createArgs, modelInfo, requestKeys, messages, tools, toolChoice, jsonOutput, extra)
    }

    /**
      * `create`: build the request, send it, map the reply and account for it. A
      * request that fails to build changes nothing and reaches no backend.
      */
    method Create(
      messages: seq<LLMMessage>, tools: seq<ToolSchema>, toolChoice: ToolChoice,
      jsonOutput: Value, extra: Config, backend: CreateParams -> ChatResponse)
      returns (r: Result<CreateResult, ClientError>)
      requires Valid()
      modifies this
      ensures Valid()
      ensures Params(messages, tools, toolChoice, jsonOutput, extra).Err? ==>
        r.Err? && r.error == Params(messages, tools, toolChoice, jsonOutput, extra).error &&
        toolId == old(toolId) && usageLog == old(usageLog) &&
        totalUsage == old(totalUsage) && actualUsage == old(actualUsage)
      ensures Params(messages, tools, toolChoice, jsonOutput, extra).Ok? ==>
        var reply := backend(Params(messages, tools, toolChoice, jsonOutput, extra).value);
        r.Ok? && r.value == ResponseToResult(reply, old(toolId)) &&
        toolId == old(toolId) + (if reply.message.toolCalls.Some? then 1 else 0) &&
        usageLog == old(usageLog) + [r.value.usage] &&
        totalUsage == AddUsage(old(totalUsage), r.value.usage) &&
        actualUsage == AddUsage(old(actualUsage), r.value.usage)
    {
      var params := Params(messages, tools, toolChoice, jsonOutput, extra);
      if params.Err? {
        return Err(params.error);
      }
      var reply := backend(params.value);
      var result := ResponseToResult(reply, toolId);
      if reply.message.toolCalls.Some? {
        toolId := toolId + 1;
      }
      RecordUsage(result.usage);
      r := Ok(result);
    }

    /**
      * `create_stream`: build the request, run the stream to its end, and return the
      * text fragments yielded on the way with the final result. The counter is read,
      * never advanced.
      */
    method CreateStream(
      messages: seq<LLMMessage>, tools: seq<ToolSchema>, toolChoice: ToolChoice,
      jsonOutput: Value, extra: Config, backend: CreateParams -> seq<ChatResponse>)
      returns (yielded: seq<string>, r: Result<CreateResult, ClientError>)
      requires Valid()
      modifies this
      ensures Valid()
      ensures toolId == old(toolId)
      ensures Params(messages, tools, toolChoice, jsonOutput, extra).Err? ==>
        yielded == [] && r.Err? && r.error == Params(messages, tools, toolChoice, jsonOutput, extra).error &&
        usageLog == old(usageLog) && totalUsage == old(totalUsage) && actualUsage == old(actualUsage)
      ensures Params(messages, tools, toolChoice, jsonOutput, extra).Ok? ==>
        var chunks := backend(Params(messages, tools, toolChoice, jsonOutput, extra).value);
        yielded == NonEmptyContents(chunks) &&
        r.Ok? && r.value == StreamResult(chunks, toolId) &&
        usageLog == old(usageLog) + [r.value.usage] &&
        totalUsage == AddUsage(old(totalUsage), r.value.usage) &&
        actualUsage == AddUsage(old(actualUsage), r.value.usage)
    {
      var params := Params(messages, tools, toolChoice, jsonOutput, extra);
      if params.Err? {
        return [], Err(params.error);
      }
      var chunks := backend(params.value);
      var result;
      yielded, result := AggregateChunks(chunks, toolId);
      RecordUsage(result.usage);
      r := Ok(result);
    }

    /** `total_usage`. */
    method TotalUsage() returns (u: Usage)
      requires Valid()
      ensures u == SumUsage(usageLog)
    {
      u := totalUsage;
    }

    /** `actual_usage`: always equal to the total, since both grow together. */
    method ActualUsage() returns (u: Usage)
      requires Valid()
      ensures u == SumUsage(usageLog)
    {
      u := actualUsage;
    }
  }

  /**
    * Two successive tool-call replies of `create` get different identifiers, and the
    * totals account for both calls.
    */
  method TwoToolCallReplies(c: OllamaClient, messages: seq<LLMMessage>, backend: CreateParams -> ChatResponse)
    returns (first: CreateResult, second: CreateResult)
    requires c.Valid()
    requires c.Params(messages, [], AutoChoice, NoneValue, []).Ok?
    requires var calls := backend(c.Params(messages, [], AutoChoice, NoneValue, []).value).message.toolCalls;
      calls.Some? && |calls.value| > 0
    modifies c
    ensures first.content.CallsContent? && second.content.CallsContent?
    ensures |first.content.calls| > 0 && |second.content.calls| > 0
    ensures first.content.calls[0].id != second.content.calls[0].id
    ensures c.totalUsage == SumUsage(old(c.usageLog) + [first.usage, second.usage])
  {
    var r1 := c.Create(messages, [], AutoChoice, NoneValue, [], backend);
    var r2 := c.Create(messages, [], AutoChoice, NoneValue, [], backend);
    first, second := r1.value, r2.value;
    var reply := backend(c.Params(messages, [], AutoChoice, NoneValue, []).value);
    DistinctCallIds(reply, reply, old(c.toolId), old(c.toolId) + 1, 0, 0);
    assert old(c.usageLog) + [first.usage, second.usage] == old(c.usageLog) + [first.usage] + [second.usage];
  }
}
