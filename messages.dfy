/**
  * Translation of the generic conversation messages into Ollama's `Message` records:
  * `type_to_role`, `system_/user_/assistant_/tool_message_to_ollama` and `to_ollama_type`.
  */
module Messages {
  import opened Wrappers
  import opened Errors
  import opened Names

  // ---------------------------------------------------------------- generic side

  /** An image; `to_base64()` is its only use here. */
  datatype Image = Image(base64: string)

  /** A parsed JSON argument object (`json.loads` of a call's argument text). */
  datatype Arguments = Arguments(json: string)

  /** `json.loads` and `json.dumps`, taken as inverse wrappers of the text. */
  function LoadArguments(s: string): Arguments { Arguments(s) }
  function DumpArguments(a: Arguments): string { a.json }

  datatype FunctionCall = FunctionCall(id: string, arguments: string, name: string)

  datatype FunctionExecutionResult = FunctionExecutionResult(content: string, name: string, callId: string)

  /** A part of a user message's list content; `OtherPart` is any other Python object. */
  datatype UserPart = TextPart(text: string) | ImagePart(image: Image) | OtherPart

  datatype UserContent = UserText(text: string) | UserParts(parts: seq<UserPart>)

  datatype AssistantContent = AssistantText(text: string) | AssistantCalls(calls: seq<FunctionCall>)

  datatype SystemMessage = SystemMessage(content: string)
  datatype UserMessage = UserMessage(content: UserContent, source: string)
  datatype AssistantMessage = AssistantMessage(content: AssistantContent, source: string)
  datatype FunctionExecutionResultMessage = FunctionExecutionResultMessage(content: seq<FunctionExecutionResult>)

  /** `LLMMessage`, the union of the four message classes. */
  datatype LLMMessage =
    | System(system: SystemMessage)
    | User(user: UserMessage)
    | Assistant(assistant: AssistantMessage)
    | ToolResults(results: FunctionExecutionResultMessage)

  // ---------------------------------------------------------------- Ollama side

  datatype Role = SystemRole | UserRole | AssistantRole | ToolRole

  datatype OllamaImage = OllamaImage(value: string)

  datatype OllamaToolCall = OllamaToolCall(name: string, arguments: Arguments)

  datatype OllamaMessage = OllamaMessage(
    role: Role,
    content: Option<string>,
    images: Option<seq<OllamaImage>>,
    toolCalls: Option<seq<OllamaToolCall>>)

  function ToOllamaImage(img: Image): OllamaImage {
    OllamaImage(img.base64)
  }

  // ---------------------------------------------------------------- per variant

  /** `type_to_role`: each message class has its own role. */
  function TypeToRole(m: LLMMessage): (r: Role)
    ensures r == SystemRole <==> m.System?
    ensures r == UserRole <==> m.User?
    ensures r == AssistantRole <==> m.Assistant?
    ensures r == ToolRole <==> m.ToolResults?
  {
    match m
    case System(_) => SystemRole
    case User(_) => UserRole
    case Assistant(_) => AssistantRole
    case ToolResults(_) => ToolRole
  }

  function SystemMessageToOllama(m: SystemMessage): (r: OllamaMessage)
    ensures r.role == SystemRole && r.content == Some(m.content)
    ensures r.images.None? && r.toolCalls.None?
  {
    OllamaMessage(SystemRole, Some(m.content), None, None)
  }

  /** `func_call_to_ollama`: the name as is, the argument text parsed; dumping gives the text back. */
  function FuncCallToOllama(call: FunctionCall): (r: OllamaToolCall)
    ensures r.name == call.name
    ensures r.arguments == LoadArguments(call.arguments)
    ensures DumpArguments(r.arguments) == call.arguments
  {
    OllamaToolCall(call.name, LoadArguments(call.arguments))
  }

  function AssistantMessageToOllama(m: AssistantMessage): (r: Result<OllamaMessage, ClientError>)
    ensures r.Ok? <==> AssertValidName(m.source).Ok?
    ensures r.Err? ==> r.error == AssertValidName(m.source).error
    ensures r.Ok? ==> r.value.role == AssistantRole && r.value.images.None?
    ensures r.Ok? && m.content.AssistantText? ==> r.value.content == Some(m.content.text) && r.value.toolCalls.None?
    ensures r.Ok? && m.content.AssistantCalls? ==>
      && r.value.content.None?
      && r.value.toolCalls.Some?
      && |r.value.toolCalls.value| == |m.content.calls|
      && forall i :: 0 <= i < |m.content.calls| ==>
        && r.value.toolCalls.value[i].name == m.content.calls[i].name
        && r.value.toolCalls.value[i].arguments == LoadArguments(m.content.calls[i].arguments)
        && DumpArguments(r.value.toolCalls.value[i].arguments) == m.content.calls[i].arguments
  {
    match AssertValidName(m.source)
    case Err(e) => Err(e)
    case Ok(_) =>
      match m.content
      case AssistantCalls(calls) =>
        Ok(OllamaMessage(AssistantRole, None, None,
                         Some(seq(|calls|, i requires 0 <= i < |calls| => FuncCallToOllama(calls[i])))))
      case AssistantText(text) => Ok(OllamaMessage(AssistantRole, Some(text), None, None))
  }

  function ToolMessageToOllama(m: FunctionExecutionResultMessage): (r: seq<OllamaMessage>)
    ensures |r| == |m.content|
    ensures forall i :: 0 <= i < |r| ==> r[i] == OllamaMessage(ToolRole, Some(m.content[i].content), None, None)
  {
    seq(|m.content|, i requires 0 <= i < |m.content| =>
      OllamaMessage(ToolRole, Some(m.content[i].content), None, None))
  }

  // ---------------------------------------------------------------- user messages

  function UserTextMessage(text: string): OllamaMessage {
    OllamaMessage(UserRole, Some(text), None, None)
  }

  predicate KnownParts(parts: seq<UserPart>) {
    forall i :: 0 <= i < |parts| ==> !parts[i].OtherPart?
  }

  /**
    * One step of the loop over a user message's parts: a text opens a new message;
    * an image goes onto the image list of the last message, or opens a text-less
    * message when there is none yet.
    */
  function AddPart(msgs: seq<OllamaMessage>, p: UserPart): (r: seq<OllamaMessage>)
    requires !p.OtherPart?
  {
    match p
    case TextPart(t) => msgs + [UserTextMessage(t)]
    case ImagePart(img) =>
      var o := ToOllamaImage(img);
      if msgs == [] then [OllamaMessage(UserRole, None, Some([o]), None)]
      else
        var last := msgs[|msgs| - 1];
        msgs[..|msgs| - 1] + [last.(images := Some(if last.images.None? then [o] else last.images.value + [o]))]
  }

  /** The loop over the parts, as a left fold. */
  function FoldParts(parts: seq<UserPart>): (r: seq<OllamaMessage>)
    requires KnownParts(parts)
    decreases |parts|
  {
    if parts == [] then []
    else AddPart(FoldParts(parts[..|parts| - 1]), parts[|parts| - 1])
  }

  /** The images at the front of `parts`, up to the first part that is not an image. */
  function LeadingImages(parts: seq<UserPart>): (r: seq<OllamaImage>)
    ensures |r| <= |parts|
    ensures forall i :: 0 <= i < |r| ==> parts[i].ImagePart? && r[i] == ToOllamaImage(parts[i].image)
    ensures |r| < |parts| ==> !parts[|r|].ImagePart?
  {
    if parts != [] && parts[0].ImagePart? then [ToOllamaImage(parts[0].image)] + LeadingImages(parts[1..])
    else []
  }

  function Attached(images: seq<OllamaImage>): Option<seq<OllamaImage>> {
    if images == [] then None else Some(images)
  }

  /**
    * The grouping the translation promises, stated without the loop: each text part
    * becomes one message carrying the images that follow it up to the next text part.
    */
  function Grouped(parts: seq<UserPart>): (r: seq<OllamaMessage>)
    requires KnownParts(parts)
    requires parts == [] || parts[0].TextPart?
    ensures parts != [] ==> r != []
    decreases |parts|
  {
    if parts == [] then []
    else
      var run := LeadingImages(parts[1..]);
      [OllamaMessage(UserRole, Some(parts[0].text), Attached(run), None)] + Grouped(parts[1 + |run|..])
  }

  /** Reference translation of list content: leading images form one text-less message. */
  function UserPartsTranslation(parts: seq<UserPart>): (r: seq<OllamaMessage>)
    requires KnownParts(parts)
  {
    if parts != [] && parts[0].ImagePart? then
      var run := LeadingImages(parts);
      [OllamaMessage(UserRole, None, Some(run), None)] + Grouped(parts[|run|..])
    else Grouped(parts)
  }

  /** What `user_message_to_ollama` returns or raises. */
  function UserMessageTranslation(m: UserMessage): Result<seq<OllamaMessage>, ClientError> {
    match AssertValidName(m.source)
    case Err(e) => Err(e)
    case Ok(_) =>
      match m.content
      case UserText(t) => Ok([UserTextMessage(t)])
      case UserParts(parts) =>
        if KnownParts(parts) then Ok(UserPartsTranslation(parts)) else Err(UnknownContentType)
  }

  // ---- the fold and the reference agree

  lemma {:induction false} LeadingImagesSnoc(xs: seq<UserPart>, p: UserPart)
    ensures LeadingImages(xs + [p]) ==
      if |LeadingImages(xs)| == |xs| then LeadingImages(xs) + LeadingImages([p]) else LeadingImages(xs)
  {
    if xs != [] {
      assert (xs + [p])[1..] == xs[1..] + [p];
      if xs[0].ImagePart? {
        LeadingImagesSnoc(xs[1..], p);
      }
    }
  }

  lemma AddPartAfterPrefix(xs: seq<OllamaMessage>, ys: seq<OllamaMessage>, p: UserPart)
    requires !p.OtherPart? && ys != []
    ensures AddPart(xs + ys, p) == xs + AddPart(ys, p)
  {
    if p.ImagePart? {
      assert (xs + ys)[..|xs + ys| - 1] == xs + ys[..|ys| - 1];
    }
  }

  /** Unfolding `Grouped` once, on a list that starts with a text. */
  lemma GroupedUnfold(parts: seq<UserPart>)
    requires KnownParts(parts) && parts != [] && parts[0].TextPart?
    ensures var run := LeadingImages(parts[1..]);
      Grouped(parts) == [OllamaMessage(UserRole, Some(parts[0].text), Attached(run), None)] + Grouped(parts[1 + |run|..])
  {
  }

  /** Appending to a text followed only by images. */
  lemma {:induction false} GroupedSnocLastGroup(parts: seq<UserPart>, p: UserPart)
    requires KnownParts(parts) && !p.OtherPart? && parts != [] && parts[0].TextPart?
    requires |LeadingImages(parts[1..])| == |parts| - 1
    ensures KnownParts(parts + [p])
    ensures Grouped(parts + [p]) == AddPart(Grouped(parts), p)
  {
    var ps := parts + [p];
    var run := LeadingImages(parts[1..]);
    KnownPartsSnoc(parts, p);
    RunSnoc(parts, p, run);
    GroupedOneGroup(parts, run);
    if p.ImagePart? {
      var o := ToOllamaImage(p.image);
      GroupedOneGroup(ps, run + [o]);
      if run == [] {
        assert run + [o] == [o];
      }
    } else {
      assert ps[1 + |run|..] == [p];
      GroupedUnfold(ps);
      GroupedOneText(p);
    }
  }

  /** The image run after the first text, once one more part is appended to a single group. */
  lemma RunSnoc(parts: seq<UserPart>, p: UserPart, run: seq<OllamaImage>)
    requires parts != [] && run == LeadingImages(parts[1..]) && |run| == |parts| - 1
    ensures p.ImagePart? ==> LeadingImages((parts + [p])[1..]) == run + [ToOllamaImage(p.image)]
    ensures !p.ImagePart? ==> LeadingImages((parts + [p])[1..]) == run
  {
    assert (parts + [p])[1..] == parts[1..] + [p];
    LeadingImagesSnoc(parts[1..], p);
    assert [p][1..] == [];
  }

  /** A text followed only by images is one message. */
  lemma GroupedOneGroup(parts: seq<UserPart>, run: seq<OllamaImage>)
    requires KnownParts(parts) && parts != [] && parts[0].TextPart?
    requires run == LeadingImages(parts[1..]) && |run| == |parts| - 1
    ensures Grouped(parts) == [OllamaMessage(UserRole, Some(parts[0].text), Attached(run), None)]
  {
    assert parts[1 + |run|..] == [];
    GroupedUnfold(parts);
  }

  /** A lone text is one message. */
  lemma GroupedOneText(p: UserPart)
    requires p.TextPart?
    ensures Grouped([p]) == [UserTextMessage(p.text)]
  {
    assert [p][1..] == [];
    GroupedUnfold([p]);
  }

  /** Appending after a later group leaves the first group as it was. */
  lemma GroupedSnocKeepsFirst(parts: seq<UserPart>, p: UserPart, run: seq<OllamaImage>, rest: seq<UserPart>)
    requires KnownParts(parts) && !p.OtherPart? && parts != [] && parts[0].TextPart?
    requires run == LeadingImages(parts[1..]) && |run| < |parts| - 1 && rest == parts[1 + |run|..]
    ensures KnownParts(parts + [p]) && KnownParts(rest + [p])
    ensures Grouped(parts + [p]) ==
      [OllamaMessage(UserRole, Some(parts[0].text), Attached(run), None)] + Grouped(rest + [p])
  {
    var ps := parts + [p];
    var tail := rest + [p];
    RunBeforeLaterGroup(parts, p, run, rest);
    KnownPartsSnoc(parts, p);
    KnownPartsSnoc(rest, p);
    assert tail[0] == parts[1..][|run|];
    assert ps[0] == parts[0];
    GroupedUnfold(ps);
  }

  lemma KnownPartsSnoc(parts: seq<UserPart>, p: UserPart)
    requires KnownParts(parts) && !p.OtherPart?
    ensures KnownParts(parts + [p])
  {
  }

  /** Appending after a later group does not change the image run after the first text. */
  lemma RunBeforeLaterGroup(parts: seq<UserPart>, p: UserPart, run: seq<OllamaImage>, rest: seq<UserPart>)
    requires parts != [] && run == LeadingImages(parts[1..]) && |run| < |parts| - 1 && rest == parts[1 + |run|..]
    ensures LeadingImages((parts + [p])[1..]) == run
    ensures (parts + [p])[1 + |run|..] == rest + [p]
  {
    assert (parts + [p])[1..] == parts[1..] + [p];
    LeadingImagesSnoc(parts[1..], p);
  }

  /** Appending after a later group: the first group is unaffected. */
  lemma GroupedSnocLaterGroup(parts: seq<UserPart>, p: UserPart, run: seq<OllamaImage>, rest: seq<UserPart>)
    requires KnownParts(parts) && !p.OtherPart? && parts != [] && parts[0].TextPart?
    requires run == LeadingImages(parts[1..]) && |run| < |parts| - 1 && rest == parts[1 + |run|..]
    requires KnownParts(rest + [p]) && Grouped(rest + [p]) == AddPart(Grouped(rest), p)
    ensures KnownParts(parts + [p])
    ensures Grouped(parts + [p]) == AddPart(Grouped(parts), p)
  {
    var head := OllamaMessage(UserRole, Some(parts[0].text), Attached(run), None);
    assert rest[0] == parts[1..][|run|];
    var g := Grouped(rest);
    GroupedSnocKeepsFirst(parts, p, run, rest);
    GroupedUnfold(parts);
    assert Grouped(parts) == [head] + g;
    AddPartAfterPrefix([head], g, p);
    assert Grouped(parts + [p]) == [head] + AddPart(g, p);
  }

  lemma {:induction false} GroupedSnoc(parts: seq<UserPart>, p: UserPart)
    requires KnownParts(parts) && !p.OtherPart?
    requires parts == [] ==> p.TextPart?
    requires parts != [] ==> parts[0].TextPart?
    ensures KnownParts(parts + [p])
    ensures Grouped(parts + [p]) == AddPart(Grouped(parts), p)
    decreases |parts|
  {
    var ps := parts + [p];
    assert KnownParts(ps);
    if parts == [] {
      GroupedUnfold(ps);
      assert ps[1..] == [];
    } else {
      var run := LeadingImages(parts[1..]);
      var rest := parts[1 + |run|..];
      if rest == [] {
        GroupedSnocLastGroup(parts, p);
      } else {
        GroupedSnoc(rest, p);
        GroupedSnocLaterGroup(parts, p, run, rest);
      }
    }
  }

  /** Appending to a list made of images only. */
  lemma ImagesOnlySnoc(parts: seq<UserPart>, p: UserPart)
    requires KnownParts(parts) && !p.OtherPart? && parts != [] && parts[0].ImagePart?
    requires |LeadingImages(parts)| == |parts|
    ensures KnownParts(parts + [p])
    ensures UserPartsTranslation(parts + [p]) == AddPart(UserPartsTranslation(parts), p)
  {
    var ps := parts + [p];
    var run := LeadingImages(parts);
    LeadingImagesSnoc(parts, p);
    assert parts[|run|..] == [];
    assert UserPartsTranslation(parts) == [OllamaMessage(UserRole, None, Some(run), None)];
    if p.ImagePart? {
      var o := ToOllamaImage(p.image);
      assert LeadingImages([p]) == [o] by { assert [p][1..] == []; }
      assert LeadingImages(ps) == run + [o];
      assert ps[|run + [o]|..] == [];
    } else {
      assert LeadingImages([p]) == [];
      assert LeadingImages(ps) == run + [] == run;
      assert ps[|run|..] == [p];
      GroupedUnfold([p]);
      assert [p][1..] == [];
      assert LeadingImages([p][1..]) == [];
      assert Grouped([p]) == [UserTextMessage(p.text)];
    }
  }

  lemma {:induction false} TranslationSnoc(parts: seq<UserPart>, p: UserPart)
    requires KnownParts(parts) && !p.OtherPart?
    ensures KnownParts(parts + [p])
    ensures UserPartsTranslation(parts + [p]) == AddPart(UserPartsTranslation(parts), p)
  {
    var ps := parts + [p];
    assert KnownParts(ps);
    if parts == [] {
      assert ps == [p];
      if p.ImagePart? {
        var o := ToOllamaImage(p.image);
        assert LeadingImages(ps) == [o] by { assert ps[1..] == []; }
        assert ps[|LeadingImages(ps)|..] == [];
      } else {
        GroupedSnoc([], p);
      }
    } else if parts[0].ImagePart? {
      var run := LeadingImages(parts);
      var rest := parts[|run|..];
      if rest == [] {
        ImagesOnlySnoc(parts, p);
      } else {
        LeadingImagesSnoc(parts, p);
        assert LeadingImages(ps) == run;
        assert ps[|run|..] == rest + [p];
        var head := OllamaMessage(UserRole, None, Some(run), None);
        GroupedSnoc(rest, p);
        AddPartAfterPrefix([head], Grouped(rest), p);
      }
    } else {
      GroupedSnoc(parts, p);
    }
  }

  /** The loop computes the reference grouping. */
  lemma {:induction false} FoldIsGrouped(parts: seq<UserPart>)
    requires KnownParts(parts)
    ensures FoldParts(parts) == UserPartsTranslation(parts)
    decreases |parts|
  {
    if parts != [] {
      var init := parts[..|parts| - 1];
      assert init + [parts[|parts| - 1]] == parts;
      FoldIsGrouped(init);
      TranslationSnoc(init, parts[|parts| - 1]);
    }
  }

  lemma FoldPartsStep(parts: seq<UserPart>, i: nat)
    requires i < |parts| && KnownParts(parts[..i]) && !parts[i].OtherPart?
    ensures KnownParts(parts[..i + 1])
    ensures FoldParts(parts[..i + 1]) == AddPart(FoldParts(parts[..i]), parts[i])
  {
    assert parts[..i + 1][..i] == parts[..i];
  }

  /** `user_message_to_ollama`, with its in-place update of the last message's images. */
  method UserMessageToOllama(m: UserMessage) returns (r: Result<seq<OllamaMessage>, ClientError>)
    ensures r == UserMessageTranslation(m)
  {
    var check := AssertValidName(m.source);
    if check.Err? {
      return Err(check.error);
    }
    if m.content.UserText? {
      return Ok([UserTextMessage(m.content.text)]);
    }
    var parts := m.content.parts;
    var msgs: seq<OllamaMessage> := [];
    var i := 0;
    while i < |parts|
      invariant 0 <= i <= |parts|
      invariant KnownParts(parts[..i])
      invariant msgs == FoldParts(parts[..i])
    {
      var part := parts[i];
      if part.OtherPart? {
        return Err(UnknownContentType);
      }
      FoldPartsStep(parts, i);
      if part.TextPart? {
        msgs := msgs + [UserTextMessage(part.text)];
      } else {
        var o := ToOllamaImage(part.image);
        if msgs == [] {
          msgs := [OllamaMessage(UserRole, None, Some([o]), None)];
        } else {
          var last := msgs[|msgs| - 1];
          if last.images.None? {
            msgs := msgs[..|msgs| - 1] + [last.(images := Some([o]))];
          } else {
            msgs := msgs[..|msgs| - 1] + [last.(images := Some(last.images.value + [o]))];
          }
        }
      }
      i := i + 1;
    }
    assert parts[..|parts|] == parts;
    FoldIsGrouped(parts);
    return Ok(msgs);
  }

  // ---------------------------------------------------------------- dispatch

  /**
    * `to_ollama_type`: dispatch on the message class. It fails exactly when a user or
    * assistant message has an invalid source name, or a user message has a part of
    * unknown type; every message it gives carries the role of the generic message.
    */
  function ToOllamaType(m: LLMMessage): (r: Result<seq<OllamaMessage>, ClientError>)
    ensures r.Err? <==>
      || (m.User? && (AssertValidName(m.user.source).Err? ||
                      (m.user.content.UserParts? && !KnownParts(m.user.content.parts))))
      || (m.Assistant? && AssertValidName(m.assistant.source).Err?)
    ensures r.Ok? ==> forall i :: 0 <= i < |r.value| ==> r.value[i].role == TypeToRole(m)
  {
    match m
    case System(s) => Ok([SystemMessageToOllama(s)])
    case User(u) =>
      if u.content.UserParts? && KnownParts(u.content.parts) then
        UserTextsInOrder(u.content.parts);
        UserMessageTranslation(u)
      else UserMessageTranslation(u)
    case Assistant(a) =>
      (match AssistantMessageToOllama(a)
       case Err(e) => Err(e)
       case Ok(msg) => Ok([msg]))
    case ToolResults(t) => Ok(ToolMessageToOllama(t))
  }

  /** A translation of one generic message: its Ollama messages, or the error it raises. */
  type Translation = LLMMessage -> Result<seq<OllamaMessage>, ClientError>

  /** Translating the messages in turn and flattening the results; the first error propagates. */
  function FlatTranslate(messages: seq<LLMMessage>, translate: Translation): Result<seq<OllamaMessage>, ClientError>
    decreases |messages|
  {
    if messages == [] then Ok([])
    else
      match FlatTranslate(messages[..|messages| - 1], translate)
      case Err(e) => Err(e)
      case Ok(prev) =>
        match translate(messages[|messages| - 1])
        case Err(e) => Err(e)
        case Ok(last) => Ok(prev + last)
  }

  /** `[item for sublist in [to_ollama_type(m) for m in messages] for item in sublist]`. */
  function TranslateAll(messages: seq<LLMMessage>): (r: Result<seq<OllamaMessage>, ClientError>)
    ensures r.Ok? <==> forall i :: 0 <= i < |messages| ==> ToOllamaType(messages[i]).Ok?
  {
    FlatTranslateOk(messages, ToOllamaType);
    FlatTranslate(messages, ToOllamaType)
  }

  // ---------------------------------------------------------------- properties of the flattening

  /** A one-message conversation translates as its message does. */
  lemma FlatTranslateSingle(m: LLMMessage, translate: Translation)
    ensures FlatTranslate([m], translate).Err? <==> translate(m).Err?
    ensures translate(m).Err? ==> FlatTranslate([m], translate).error == translate(m).error
    ensures translate(m).Ok? ==> FlatTranslate([m], translate).value == translate(m).value
  {
    assert [m][..|[m]| - 1] == [];
    assert [m][|[m]| - 1] == m;
    if translate(m).Ok? {
      assert [] + translate(m).value == translate(m).value;
    }
  }

  /** `k` is the first message that fails to translate. */
  predicate FirstFailureAt(messages: seq<LLMMessage>, translate: Translation, k: int) {
    0 <= k < |messages| && translate(messages[k]).Err? &&
    forall j :: 0 <= j < k ==> translate(messages[j]).Ok?
  }

  /** A conversation translates exactly when each of its messages does. */
  lemma {:induction false} FlatTranslateOk(messages: seq<LLMMessage>, translate: Translation)
    ensures FlatTranslate(messages, translate).Ok? <==> forall i :: 0 <= i < |messages| ==> translate(messages[i]).Ok?
    decreases |messages|
  {
    if messages != [] {
      FlatTranslateOk(messages[..|messages| - 1], translate);
    }
  }

  /** A conversation that fails to translate fails with the error of its first bad message. */
  lemma {:induction false} FlatTranslateFirstError(messages: seq<LLMMessage>, translate: Translation, k: nat)
    requires FirstFailureAt(messages, translate, k)
    ensures FlatTranslate(messages, translate).Err?
    ensures FlatTranslate(messages, translate).error == translate(messages[k]).error
    decreases |messages|
  {
    var init := messages[..|messages| - 1];
    if k < |init| {
      assert FirstFailureAt(init, translate, k);
      FlatTranslateFirstError(init, translate, k);
    } else {
      FlatTranslateOk(init, translate);
    }
  }

  /** Once a prefix fails to translate, the whole list fails with the same error. */
  lemma {:induction false} FlatTranslateErrorPersists(messages: seq<LLMMessage>, translate: Translation, k: nat)
    requires k <= |messages| && FlatTranslate(messages[..k], translate).Err?
    ensures FlatTranslate(messages, translate) == FlatTranslate(messages[..k], translate)
    decreases |messages|
  {
    if k < |messages| {
      var init := messages[..|messages| - 1];
      assert init[..k] == messages[..k];
      FlatTranslateErrorPersists(init, translate, k);
    } else {
      assert messages[..k] == messages;
    }
  }

  /** One step of the translation of a list, with the new message at the end. */
  lemma FlatTranslateSnoc(prev: seq<LLMMessage>, m: LLMMessage, translate: Translation)
    ensures FlatTranslate(prev, translate).Err? ==> FlatTranslate(prev + [m], translate) == FlatTranslate(prev, translate)
    ensures FlatTranslate(prev, translate).Ok? && translate(m).Err? ==>
      FlatTranslate(prev + [m], translate).Err? && FlatTranslate(prev + [m], translate).error == translate(m).error
    ensures FlatTranslate(prev, translate).Ok? && translate(m).Ok? ==>
      && FlatTranslate(prev + [m], translate).Ok?
      && FlatTranslate(prev + [m], translate).value == FlatTranslate(prev, translate).value + translate(m).value
  {
    assert (prev + [m])[..|prev|] == prev;
  }

  /** Translating a concatenation concatenates the translations. */
  lemma {:induction false} FlatTranslateAppend(a: seq<LLMMessage>, b: seq<LLMMessage>, translate: Translation)
    requires FlatTranslate(a, translate).Ok? && FlatTranslate(b, translate).Ok?
    ensures FlatTranslate(a + b, translate).Ok?
    ensures FlatTranslate(a + b, translate).value == FlatTranslate(a, translate).value + FlatTranslate(b, translate).value
    decreases |b|
  {
    if b == [] {
      assert a + b == a;
      assert FlatTranslate(a, translate).value + FlatTranslate(b, translate).value == FlatTranslate(a, translate).value;
    } else {
      var init, m := b[..|b| - 1], b[|b| - 1];
      assert b == init + [m];
      assert a + b == (a + init) + [m];
      FlatTranslateSnoc(init, m, translate);
      FlatTranslateAppend(a, init, translate);
      FlatTranslateSnoc(a + init, m, translate);
      var ta, ti, tm := FlatTranslate(a, translate).value, FlatTranslate(init, translate).value, translate(m).value;
      assert ta + (ti + tm) == (ta + ti) + tm;
    }
  }

  function ImagePartOf(p: UserPart): seq<OllamaImage> {
    if p.ImagePart? then [ToOllamaImage(p.image)] else []
  }

  function TextPartOf(p: UserPart): seq<Option<string>> {
    if p.TextPart? then [Some(p.text)] else []
  }

  /** The image parts of a user message, converted, in order. */
  function ImageParts(parts: seq<UserPart>): seq<OllamaImage>
    decreases |parts|
  {
    if parts == [] then [] else ImageParts(parts[..|parts| - 1]) + ImagePartOf(parts[|parts| - 1])
  }

  /** The text parts of a user message, in order, as message contents. */
  function TextParts(parts: seq<UserPart>): seq<Option<string>>
    decreases |parts|
  {
    if parts == [] then [] else TextParts(parts[..|parts| - 1]) + TextPartOf(parts[|parts| - 1])
  }

  function ImagesOf(m: OllamaMessage): seq<OllamaImage> {
    if m.images.Some? then m.images.value else []
  }

  /** All images of a list of messages, message by message. */
  function AllImages(msgs: seq<OllamaMessage>): seq<OllamaImage>
    decreases |msgs|
  {
    if msgs == [] then [] else AllImages(msgs[..|msgs| - 1]) + ImagesOf(msgs[|msgs| - 1])
  }

  /** The `content` fields of a list of messages, in order. */
  function Contents(msgs: seq<OllamaMessage>): seq<Option<string>>
    decreases |msgs|
  {
    if msgs == [] then [] else Contents(msgs[..|msgs| - 1]) + [msgs[|msgs| - 1].content]
  }

  predicate StartsWithImage(parts: seq<UserPart>) {
    parts != [] && parts[0].ImagePart?
  }

  predicate AllUserRole(msgs: seq<OllamaMessage>) {
    forall i :: 0 <= i < |msgs| ==> msgs[i].role == UserRole && msgs[i].toolCalls.None?
  }

  lemma FoldPartsNonEmpty(parts: seq<UserPart>)
    requires KnownParts(parts) && parts != []
    ensures FoldParts(parts) != []
  {
  }

  /** Appending an image to a non-empty list changes only the last message's image list. */
  lemma AddImageToLast(prev: seq<OllamaMessage>, p: UserPart)
    requires p.ImagePart? && prev != []
    ensures AllImages(AddPart(prev, p)) == AllImages(prev) + [ToOllamaImage(p.image)]
    ensures Contents(AddPart(prev, p)) == Contents(prev)
    ensures AllUserRole(prev) ==> AllUserRole(AddPart(prev, p))
  {
    var n := |prev|;
    var next := AddPart(prev, p);
    assert next[..n - 1] == prev[..n - 1];
  }

  lemma {:induction false} FoldPartsImages(parts: seq<UserPart>)
    requires KnownParts(parts)
    ensures AllImages(FoldParts(parts)) == ImageParts(parts)
    decreases |parts|
  {
    if parts != [] {
      var init := parts[..|parts| - 1];
      var p := parts[|parts| - 1];
      FoldPartsImages(init);
      var prev := FoldParts(init);
      if p.ImagePart? {
        if init == [] {
          assert FoldParts(parts) == [OllamaMessage(UserRole, None, Some([ToOllamaImage(p.image)]), None)];
          assert AllImages(FoldParts(parts)) == AllImages([]) + ImagesOf(FoldParts(parts)[0]);
        } else {
          FoldPartsNonEmpty(init);
          AddImageToLast(prev, p);
        }
      } else {
        assert FoldParts(parts)[..|prev|] == prev;
      }
    }
  }

  lemma {:induction false} FoldPartsRoles(parts: seq<UserPart>)
    requires KnownParts(parts)
    ensures AllUserRole(FoldParts(parts))
    decreases |parts|
  {
    if parts != [] {
      var init := parts[..|parts| - 1];
      var p := parts[|parts| - 1];
      FoldPartsRoles(init);
      if p.ImagePart? && init != [] {
        FoldPartsNonEmpty(init);
        AddImageToLast(FoldParts(init), p);
      }
    }
  }

  lemma ContentsAfterText(prev: seq<OllamaMessage>, t: string)
    ensures Contents(prev + [UserTextMessage(t)]) == Contents(prev) + [Some(t)]
  {
    assert (prev + [UserTextMessage(t)])[..|prev|] == prev;
  }

  lemma ContentsAfterPart(prev: seq<OllamaMessage>, p: UserPart)
    requires !p.OtherPart?
    ensures Contents(AddPart(prev, p)) ==
      if prev == [] && p.ImagePart? then [None] else Contents(prev) + TextPartOf(p)
  {
    if p.TextPart? {
      ContentsAfterText(prev, p.text);
    } else if prev != [] {
      AddImageToLast(prev, p);
    } else {
      var next := AddPart(prev, p);
      assert next[..0] == [];
    }
  }

  lemma {:induction false} FoldPartsContents(parts: seq<UserPart>)
    requires KnownParts(parts)
    ensures Contents(FoldParts(parts)) == (if StartsWithImage(parts) then [None] else []) + TextParts(parts)
    decreases |parts|
  {
    if parts != [] {
      var init := parts[..|parts| - 1];
      var p := parts[|parts| - 1];
      FoldPartsContents(init);
      assert FoldParts(parts) == AddPart(FoldParts(init), p);
      if init == [] {
        assert parts == [p];
        ContentsFirstPart(p);
      } else {
        assert init[0] == parts[0];
        var lead: seq<Option<string>> := if StartsWithImage(parts) then [None] else [];
        FoldPartsNonEmpty(init);
        ContentsLaterPart(FoldParts(init), p, lead, TextParts(init));
      }
    }
  }

  lemma ContentsFirstPart(p: UserPart)
    requires !p.OtherPart?
    ensures Contents(AddPart([], p)) == (if p.ImagePart? then [None] else []) + TextParts([p])
  {
    ContentsAfterPart([], p);
    assert [p][..0] == [];
  }

  lemma ContentsLaterPart(prev: seq<OllamaMessage>, p: UserPart, lead: seq<Option<string>>, texts: seq<Option<string>>)
    requires prev != [] && !p.OtherPart?
    requires Contents(prev) == lead + texts
    ensures Contents(AddPart(prev, p)) == lead + (texts + TextPartOf(p))
  {
    ContentsAfterPart(prev, p);
    assert Contents(AddPart(prev, p)) == (lead + texts) + TextPartOf(p);
  }

  /** Images out equal image parts in, in the same order. */
  lemma UserImagesPreserved(parts: seq<UserPart>)
    requires KnownParts(parts)
    ensures AllImages(UserPartsTranslation(parts)) == ImageParts(parts)
  {
    FoldIsGrouped(parts);
    FoldPartsImages(parts);
  }

  /**
    * One `user` message per text part, in order; a text-less message comes first exactly
    * when the content starts with an image.
    */
  lemma UserTextsInOrder(parts: seq<UserPart>)
    requires KnownParts(parts)
    ensures Contents(UserPartsTranslation(parts)) == (if StartsWithImage(parts) then [None] else []) + TextParts(parts)
    ensures AllUserRole(UserPartsTranslation(parts))
  {
    FoldIsGrouped(parts);
    FoldPartsContents(parts);
    FoldPartsRoles(parts);
  }

  /** How many messages one generic message gives when it translates. */
  lemma TranslationOutcome(m: LLMMessage)
    ensures ToOllamaType(m).Ok? && (m.System? || m.Assistant? || (m.User? && m.user.content.UserText?)) ==>
      |ToOllamaType(m).value| == 1
    ensures m.ToolResults? ==>
      (ToOllamaType(m) == Ok(ToolMessageToOllama(m.results)) && |ToOllamaType(m).value| == |m.results.content|)
  {
  }

  /** A system message's text survives translation unchanged. */
  lemma SystemRoundTrip(text: string)
    ensures ToOllamaType(System(SystemMessage(text))) == Ok([OllamaMessage(SystemRole, Some(text), None, None)])
  {
  }

  /** `["hello", Image(A)]` gives one message holding both. */
  lemma TextThenImage(source: string, a: Image)
    requires AssertValidName(source).Ok?
    ensures UserMessageTranslation(UserMessage(UserParts([TextPart("hello"), ImagePart(a)]), source)) ==
      Ok([OllamaMessage(UserRole, Some("hello"), Some([ToOllamaImage(a)]), None)])
  {
    var parts := [TextPart("hello"), ImagePart(a)];
    assert KnownParts(parts);
    assert parts[1..] == [ImagePart(a)];
    assert LeadingImages(parts[1..]) == [ToOllamaImage(a)] by { assert parts[1..][1..] == []; }
    assert parts[2..] == [];
    GroupedUnfold(parts);
    assert UserPartsTranslation(parts) == Grouped(parts);
    assert Grouped(parts) == [OllamaMessage(UserRole, Some("hello"), Some([ToOllamaImage(a)]), None)];
  }

  /** `[Image(A), Image(B)]` gives one text-less message with both images. */
  lemma TwoImages(source: string, a: Image, b: Image)
    requires AssertValidName(source).Ok?
    ensures UserMessageTranslation(UserMessage(UserParts([ImagePart(a), ImagePart(b)]), source)) ==
      Ok([OllamaMessage(UserRole, None, Some([ToOllamaImage(a), ToOllamaImage(b)]), None)])
  {
    var parts := [ImagePart(a), ImagePart(b)];
    assert KnownParts(parts);
    assert parts[1..] == [ImagePart(b)];
    assert LeadingImages(parts[1..]) == [ToOllamaImage(b)] by { assert parts[1..][1..] == []; }
    assert LeadingImages(parts) == [ToOllamaImage(a), ToOllamaImage(b)];
    assert parts[2..] == [];
    assert UserPartsTranslation(parts) == [OllamaMessage(UserRole, None, Some([ToOllamaImage(a), ToOllamaImage(b)]), None)];
  }
}
