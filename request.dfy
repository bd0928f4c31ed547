/**
  * `BaseOllamaChatCompletionClient._process_create_args`: merging the create arguments,
  * resolving the format directive, checking the model's capabilities and applying the
  * `tool_choice` policy. It reads two attributes of the client, which are parameters here.
  */
module Request {
  import opened Wrappers
  import opened Errors
  import opened Messages
  import opened Tools
  import opened CreateArgs
  import opened Names

  /** The capability flags of `model_info` that the request builder reads. */
  datatype ModelInfo = ModelInfo(vision: bool, functionCalling: bool, jsonOutput: bool)

  /** `tool_choice`: a `Tool` object, or one of the strings "auto", "required", "none". */
  datatype ToolChoice = AutoChoice | RequiredChoice | NoneChoice | SpecificTool(tool: ToolSchema)

  /** `CreateParams`; `format` is `NoneValue` when there is no directive. */
  datatype CreateParams = CreateParams(
    messages: seq<OllamaMessage>,
    tools: seq<OllamaTool>,
    format: Value,
    createArgs: map<string, Value>)

  // ---------------------------------------------------------------- dict.copy().update()

  /** `d[k] = v` on an insertion-ordered dictionary: an existing key keeps its position. */
  function SetEntry(d: Config, k: string, v: Value): Config
    decreases |d|
  {
    if d == [] then [(k, v)]
    else if d[0].0 == k then [(k, v)] + d[1..]
    else [d[0]] + SetEntry(d[1..], k, v)
  }

  /** `base.copy().update(extra)`. */
  function UpdateConfig(base: Config, extra: Config): Config
    decreases |extra|
  {
    if extra == [] then base
    else SetEntry(UpdateConfig(base, extra[..|extra| - 1]), extra[|extra| - 1].0, extra[|extra| - 1].1)
  }

  /** The value of the last entry with exactly the key `k`. */
  function FindLast(config: Config, k: string): Option<Value>
    decreases |config|
  {
    if config == [] then None
    else if config[|config| - 1].0 == k then Some(config[|config| - 1].1)
    else FindLast(config[..|config| - 1], k)
  }

  lemma {:induction false} FindSetEntry(d: Config, k: string, v: Value, k': string)
    ensures Find(SetEntry(d, k, v), k') == if k' == k then Some(v) else Find(d, k')
    decreases |d|
  {
    if d != [] && d[0].0 != k {
      FindSetEntry(d[1..], k, v, k');
      assert SetEntry(d, k, v)[1..] == SetEntry(d[1..], k, v);
    }
  }

  /** Per-call arguments override the client's: the merged value of a key is the call's, if given. */
  lemma {:induction false} UpdateOverrides(base: Config, extra: Config, k: string)
    ensures Find(UpdateConfig(base, extra), k) == if FindLast(extra, k).Some? then FindLast(extra, k) else Find(base, k)
    decreases |extra|
  {
    if extra != [] {
      var last := extra[|extra| - 1];
      UpdateOverrides(base, extra[..|extra| - 1], k);
      FindSetEntry(UpdateConfig(base, extra[..|extra| - 1]), last.0, last.1, k);
    }
  }

  // ---------------------------------------------------------------- format directive

  /** The `json_output` step: the directive it leaves, given the one `response_format` set. */
  function JsonOutputDirective(jsonOutput: Value, current: Value, info: ModelInfo): Result<Value, ClientError> {
    if jsonOutput == NoneValue then Ok(current)
    else if !info.jsonOutput && jsonOutput == BoolValue(true) then Err(JsonOutputUnsupported)
    else match jsonOutput
      case BoolValue(b) => Ok(if b then StrValue("json") else NoneValue)
      case ModelClassValue(c) =>
        if current != NoneValue then Err(ResponseFormatAndJsonOutputModel) else Ok(Schema(c))
      case _ => Err(InvalidJsonOutput)
  }

  /**
    * The arguments format resolution accepts: a `response_format` that is a model class,
    * a `json_output` that is None, a boolean or a model class, `True` only on a model
    * with JSON output, a class only without `response_format`, and `format` only when
    * neither of the other two is given.
    */
  predicate FormatResolvable(args: map<string, Value>, jsonOutput: Value, info: ModelInfo) {
    && ("response_format" in args ==> args["response_format"].ModelClassValue?)
    && (jsonOutput == NoneValue || jsonOutput.BoolValue? || jsonOutput.ModelClassValue?)
    && (jsonOutput == BoolValue(true) ==> info.jsonOutput)
    && (jsonOutput.ModelClassValue? ==> "response_format" !in args)
    && ("format" in args ==> jsonOutput == NoneValue && "response_format" !in args)
  }

  /**
    * Format resolution over the routed create arguments: `response_format`, then
    * `json_output`, then `format`. Returns the directive and the arguments without
    * the two keys it consumed.
    */
  function ResolveFormat(args: map<string, Value>, jsonOutput: Value, info: ModelInfo)
    : (r: Result<(Value, map<string, Value>), ClientError>)
    ensures r.Ok? ==> r.value.1 == args - {"response_format", "format"}
    ensures r.Ok? && jsonOutput == BoolValue(true) ==> info.jsonOutput && r.value.0 == StrValue("json")
    ensures r.Ok? && jsonOutput == BoolValue(false) ==> r.value.0 == NoneValue
    ensures r.Ok? && jsonOutput.ModelClassValue? ==>
      "response_format" !in args && r.value.0 == Schema(jsonOutput.cls)
    ensures r.Ok? && jsonOutput != NoneValue ==> "format" !in args
    ensures r.Ok? && "format" in args ==>
      jsonOutput == NoneValue && "response_format" !in args && r.value.0 == args["format"]
    ensures "response_format" in args && !args["response_format"].ModelClassValue? ==> r == Err(ResponseFormatNotModel)
    ensures r.Ok? <==> FormatResolvable(args, jsonOutput, info)
    ensures jsonOutput == NoneValue && "format" !in args && r.Ok? ==>
      r.value.0 == if "response_format" in args then Schema(args["response_format"].cls) else NoneValue
  {
    if "response_format" in args && !args["response_format"].ModelClassValue? then Err(ResponseFormatNotModel)
    else
      var fromResponseFormat := if "response_format" in args then Schema(args["response_format"].cls) else NoneValue;
      var rest := args - {"response_format"};
      match JsonOutputDirective(jsonOutput, fromResponseFormat, info)
      case Err(e) => Err(e)
      case Ok(directive) =>
        if "format" in rest then
          if jsonOutput != NoneValue then Err(JsonOutputWithFormat)
          else if directive != NoneValue then Err(FormatAssertion)
          else Ok((rest["format"], rest - {"format"}))
        else Ok((directive, rest))
  }

  // ---------------------------------------------------------------- capabilities and tools

  predicate HasImage(m: LLMMessage) {
    m.User? && m.user.content.UserParts? &&
    exists i :: 0 <= i < |m.user.content.parts| && m.user.content.parts[i].ImagePart?
  }

  predicate AnyImage(messages: seq<LLMMessage>) {
    exists i :: 0 <= i < |messages| && HasImage(messages[i])
  }

  /**
    * The `tool_choice` policy: "none" sends no tool, a specific tool is sent alone, and
    * "auto" and "required" send all tools converted, "required" failing without any.
    */
  function SelectTools(tools: seq<ToolSchema>, choice: ToolChoice): (r: Result<seq<OllamaTool>, ClientError>)
    ensures choice.NoneChoice? ==> r.Ok? && r.value == []
    ensures choice.SpecificTool? ==>
      (r.Ok? <==> AssertValidName(choice.tool.name).Ok?) && (r.Ok? ==> r.value == [ConvertedTool(choice.tool)])
    ensures choice.AutoChoice? || choice.RequiredChoice? ==>
      && (r.Ok? ==> ConvertToolsResult(tools).Ok? && r.value == ConvertToolsResult(tools).value)
      && (ConvertToolsResult(tools).Err? ==> r.Err? && r.error == ConvertToolsResult(tools).error)
    ensures choice.AutoChoice? ==> (r.Ok? <==> ConvertToolsResult(tools).Ok?)
    ensures choice.RequiredChoice? ==> (r.Ok? <==> ConvertToolsResult(tools).Ok? && |tools| > 0)
    ensures choice.RequiredChoice? && tools == [] ==> r.Err? && r.error == RequiredWithoutTools
  {
    match choice
    case SpecificTool(t) => ConvertToolsResult([t])
    case NoneChoice => Ok([])
    case RequiredChoice =>
      (match ConvertToolsResult(tools)
       case Err(e) => Err(e)
       case Ok(converted) => if |converted| == 0 then Err(RequiredWithoutTools) else Ok(converted))
    case AutoChoice => ConvertToolsResult(tools)
  }

  /**
    * `_process_create_args`. Its second `json_output` capability check (after the
    * vision check) never fires: the first one already raised for the same condition.
    */
  function ProcessCreateArgs(
    clientArgs: Config, info: ModelInfo, requestKeys: set<string>,
    messages: seq<LLMMessage>, tools: seq<ToolSchema>, toolChoice: ToolChoice,
    jsonOutput: Value, extra: Config): (r: Result<CreateParams, ClientError>)
    ensures r.Ok? ==> "format" !in r.value.createArgs && "response_format" !in r.value.createArgs
    ensures r.Ok? ==> TranslateAll(messages) == Ok(r.value.messages)
    ensures r.Ok? && !info.vision ==> !AnyImage(messages)
    ensures r.Ok? && !info.functionCalling ==> |tools| == 0
    ensures r.Ok? && jsonOutput == BoolValue(true) ==> info.jsonOutput && r.value.format == StrValue("json")
    ensures r.Ok? && toolChoice.NoneChoice? ==> r.value.tools == []
    ensures r.Ok? && toolChoice.RequiredChoice? ==> 0 < |r.value.tools| == |tools|
    ensures r.Ok? && toolChoice.SpecificTool? ==> r.value.tools == [ConvertedTool(toolChoice.tool)]
    ensures r.Ok? && toolChoice.AutoChoice? ==> |r.value.tools| == |tools|
  {
    var args := ConfigToCreateArgs(UpdateConfig(clientArgs, extra), requestKeys);
    match ResolveFormat(args, jsonOutput, info)
    case Err(e) => Err(e)
    case Ok((format, rest)) =>
      if !info.vision && AnyImage(messages) then Err(VisionUnsupported)
      else match TranslateAll(messages)
        case Err(e) => Err(e)
        case Ok(msgs) =>
          if !info.functionCalling && |tools| > 0 then Err(FunctionCallingUnsupported)
          else match SelectTools(tools, toolChoice)
            case Err(e) => Err(e)
            case Ok(converted) => Ok(CreateParams(msgs, converted, format, rest))
  }

  // ---------------------------------------------------------------- properties

  /**
    * When a request is built and what it carries: it is built exactly when format
    * resolution succeeds, no image meets a model without vision, every message
    * translates, no tool meets a model without function calling, and the tool choice
    * selects; it then holds the translated messages, the selected tools, and the
    * directive and remaining arguments of format resolution.
    */
  lemma BuiltRequest(
    clientArgs: Config, info: ModelInfo, requestKeys: set<string>,
    messages: seq<LLMMessage>, tools: seq<ToolSchema>, toolChoice: ToolChoice,
    jsonOutput: Value, extra: Config)
    ensures var r := ProcessCreateArgs(clientArgs, info, requestKeys, messages, tools, toolChoice, jsonOutput, extra);
      var resolved := ResolveFormat(ConfigToCreateArgs(UpdateConfig(clientArgs, extra), requestKeys), jsonOutput, info);
      && (r.Ok? <==>
            && resolved.Ok?
            && !(!info.vision && AnyImage(messages))
            && TranslateAll(messages).Ok?
            && !(!info.functionCalling && |tools| > 0)
            && SelectTools(tools, toolChoice).Ok?)
      && (r.Ok? ==>
            && r.value.messages == TranslateAll(messages).value
            && r.value.tools == SelectTools(tools, toolChoice).value
            && r.value.format == resolved.value.0
            && r.value.createArgs == resolved.value.1)
      && (r.Ok? && (toolChoice.AutoChoice? || toolChoice.RequiredChoice?) ==>
            ConvertToolsResult(tools).Ok? && r.value.tools == ConvertToolsResult(tools).value)
  {
  }

  /**
    * Which error a failed build raises: the checks run in the order format, vision,
    * translation, function calling, tool choice, and the first that fails decides.
    */
  lemma RequestErrors(
    clientArgs: Config, info: ModelInfo, requestKeys: set<string>,
    messages: seq<LLMMessage>, tools: seq<ToolSchema>, toolChoice: ToolChoice,
    jsonOutput: Value, extra: Config)
    ensures var r := ProcessCreateArgs(clientArgs, info, requestKeys, messages, tools, toolChoice, jsonOutput, extra);
      var resolved := ResolveFormat(ConfigToCreateArgs(UpdateConfig(clientArgs, extra), requestKeys), jsonOutput, info);
      && (resolved.Err? ==> r.Err? && r.error == resolved.error)
      && (resolved.Ok? && !info.vision && AnyImage(messages) ==> r.Err? && r.error == VisionUnsupported)
      && (resolved.Ok? && !(!info.vision && AnyImage(messages)) && TranslateAll(messages).Err? ==>
            r.Err? && r.error == TranslateAll(messages).error)
      && (resolved.Ok? && !(!info.vision && AnyImage(messages)) && TranslateAll(messages).Ok? &&
          !info.functionCalling && |tools| > 0 ==>
            r.Err? && r.error == FunctionCallingUnsupported)
      && (resolved.Ok? && !(!info.vision && AnyImage(messages)) && TranslateAll(messages).Ok? &&
          !(!info.functionCalling && |tools| > 0) && SelectTools(tools, toolChoice).Err? ==>
            r.Err? && r.error == SelectTools(tools, toolChoice).error)
  {
  }

  /** The format directive as each combination of arguments determines it. */
  lemma FormatCases(args: map<string, Value>, jsonOutput: Value, info: ModelInfo, c: ModelClass)
    ensures (jsonOutput == BoolValue(true) && !info.jsonOutput && "response_format" !in args)
      ==> ResolveFormat(args, jsonOutput, info) == Err(JsonOutputUnsupported)
    ensures (jsonOutput == BoolValue(false) && "format" !in args && "response_format" !in args)
      ==> ResolveFormat(args, jsonOutput, info) == Ok((NoneValue, args))
    ensures (jsonOutput == BoolValue(false) && "format" !in args && "response_format" in args &&
             args["response_format"] == ModelClassValue(c))
      ==> ResolveFormat(args, jsonOutput, info) == Ok((NoneValue, args - {"response_format"}))
    ensures (jsonOutput.ModelClassValue? && "response_format" in args && args["response_format"].ModelClassValue?)
      ==> ResolveFormat(args, jsonOutput, info) == Err(ResponseFormatAndJsonOutputModel)
    ensures (jsonOutput != NoneValue && !jsonOutput.BoolValue? && !jsonOutput.ModelClassValue? &&
             "response_format" !in args)
      ==> ResolveFormat(args, jsonOutput, info) == Err(InvalidJsonOutput)
    ensures (jsonOutput.BoolValue? && (jsonOutput.b ==> info.jsonOutput) &&
             "response_format" !in args && "format" in args)
      ==> ResolveFormat(args, jsonOutput, info) == Err(JsonOutputWithFormat)
    ensures (jsonOutput == NoneValue && "response_format" in args && args["response_format"] == ModelClassValue(c) &&
             "format" in args)
      ==> ResolveFormat(args, jsonOutput, info) == Err(FormatAssertion)
    ensures (jsonOutput == NoneValue && "response_format" !in args && "format" in args)
      ==> ResolveFormat(args, jsonOutput, info) == Ok((args["format"], args - {"format"}))
    ensures (jsonOutput == NoneValue && "response_format" !in args && "format" !in args)
      ==> ResolveFormat(args, jsonOutput, info) == Ok((NoneValue, args))
    ensures (jsonOutput == NoneValue && "response_format" in args && args["response_format"] == ModelClassValue(c) &&
             "format" !in args)
      ==> ResolveFormat(args, jsonOutput, info) == Ok((Schema(c), args - {"response_format"}))
    ensures (jsonOutput == BoolValue(true) && info.jsonOutput && "format" !in args &&
             ("response_format" in args ==> args["response_format"].ModelClassValue?))
      ==> ResolveFormat(args, jsonOutput, info) == Ok((StrValue("json"), args - {"response_format"}))
    ensures (jsonOutput == ModelClassValue(c) && "response_format" !in args && "format" !in args)
      ==> ResolveFormat(args, jsonOutput, info) == Ok((Schema(c), args))
  {
    if "response_format" !in args {
      assert args - {"response_format"} == args;
    }
  }

  /** `json_output=True` and a `format` argument together fail. */
  lemma JsonOutputAndFormatConflict(args: map<string, Value>, info: ModelInfo)
    requires "format" in args && "response_format" !in args
    ensures ResolveFormat(args, BoolValue(true), info).Err?
  {
  }

  /** "required" with no tools fails; "none" sends nothing and validates nothing. */
  lemma ToolChoicePolicy(tools: seq<ToolSchema>)
    ensures SelectTools([], RequiredChoice) == Err(RequiredWithoutTools)
    ensures SelectTools(tools, NoneChoice) == Ok([])
    ensures SelectTools(tools, AutoChoice) == ConvertToolsResult(tools)
    ensures tools != [] ==> SelectTools(tools, RequiredChoice) == ConvertToolsResult(tools)
  {
  }

  /** Without function calling, any supplied tool fails the call, even with "none". */
  lemma FunctionCallingGate(
    clientArgs: Config, info: ModelInfo, requestKeys: set<string>,
    messages: seq<LLMMessage>, tools: seq<ToolSchema>, toolChoice: ToolChoice,
    jsonOutput: Value, extra: Config)
    requires !info.functionCalling && |tools| > 0
    ensures ProcessCreateArgs(clientArgs, info, requestKeys, messages, tools, toolChoice, jsonOutput, extra).Err?
  {
  }

  /** Without vision, an image in any user message fails the call. */
  lemma VisionGate(
    clientArgs: Config, info: ModelInfo, requestKeys: set<string>,
    messages: seq<LLMMessage>, tools: seq<ToolSchema>, toolChoice: ToolChoice,
    jsonOutput: Value, extra: Config, k: nat)
    requires !info.vision && k < |messages| && HasImage(messages[k])
    ensures ProcessCreateArgs(clientArgs, info, requestKeys, messages, tools, toolChoice, jsonOutput, extra).Err?
  {
  }
}
