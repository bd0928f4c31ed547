/**
  * The message part of `count_tokens_ollama`: a fixed cost per message plus the encoded
  * length of every translated content, plus the reply priming and the closing constant.
  * The encoder is a parameter.
  */
module Tokens {
  import opened Wrappers
  import opened Errors
  import opened Names
  import opened Messages

  const TokensPerMessage: nat := 3
  /** Every reply is primed with `<|start|>assistant<|message|>`. */
  const ReplyPriming: nat := 3
  /** Added once after the tool tokens. */
  const ClosingTokens: nat := 12

  /** The encoded length of each content that is present. */
  function ContentTokens(contents: seq<Option<string>>, encLen: string -> nat): nat
    decreases |contents|
  {
    if contents == [] then 0
    else
      var c := contents[|contents| - 1];
      ContentTokens(contents[..|contents| - 1], encLen) + (if c.Some? then encLen(c.value) else 0)
  }

  /** The count with no tools: translation errors propagate, as `to_ollama_type` raises them. */
  function CountTokensSpec(messages: seq<LLMMessage>, encLen: string -> nat): (r: Result<nat, ClientError>)
    ensures r.Ok? <==> forall i :: 0 <= i < |messages| ==> ToOllamaType(messages[i]).Ok?
    ensures r.Err? ==> r.error == TranslateAll(messages).error
    ensures r.Ok? ==> r.value >= TokensPerMessage * |messages| + ReplyPriming + ClosingTokens
  {
    match TranslateAll(messages)
    case Err(e) => Err(e)
    case Ok(all) =>
      Ok(TokensPerMessage * |messages| + ContentTokens(Contents(all), encLen) + ReplyPriming + ClosingTokens)
  }

  lemma {:induction false} ContentTokensAppend(a: seq<Option<string>>, b: seq<Option<string>>, encLen: string -> nat)
    ensures ContentTokens(a + b, encLen) == ContentTokens(a, encLen) + ContentTokens(b, encLen)
    decreases |b|
  {
    if b == [] {
      assert a + b == a;
    } else {
      assert (a + b)[..|a + b| - 1] == a + b[..|b| - 1];
      ContentTokensAppend(a, b[..|b| - 1], encLen);
    }
  }

  lemma {:induction false} ContentsAppend(a: seq<OllamaMessage>, b: seq<OllamaMessage>)
    ensures Contents(a + b) == Contents(a) + Contents(b)
    decreases |b|
  {
    if b == [] {
      assert a + b == a;
    } else {
      assert (a + b)[..|a + b| - 1] == a + b[..|b| - 1];
      ContentsAppend(a, b[..|b| - 1]);
    }
  }

  /** The inner loop of `count_tokens_ollama`: the tokens of one message's translation. */
  method CountContents(parts: seq<OllamaMessage>, encLen: string -> nat) returns (n: nat)
    ensures n == ContentTokens(Contents(parts), encLen)
  {
    n := 0;
    var j := 0;
    while j < |parts|
      invariant 0 <= j <= |parts|
      invariant n == ContentTokens(Contents(parts[..j]), encLen)
    {
      assert parts[..j + 1][..j] == parts[..j];
      if parts[j].content.Some? {
        n := n + encLen(parts[j].content.value);
      }
      j := j + 1;
    }
    assert parts[..j] == parts;
  }

  /** `count_tokens_ollama` without tools, as its loops compute it. */
  method CountTokens(messages: seq<LLMMessage>, encLen: string -> nat) returns (r: Result<nat, ClientError>)
    ensures r == CountTokensSpec(messages, encLen)
  {
    var numTokens: nat := 0;
    ghost var translated: seq<OllamaMessage> := [];
    var i := 0;
    while i < |messages|
      invariant 0 <= i <= |messages|
      invariant TranslateAll(messages[..i]) == Ok(translated)
      invariant numTokens == TokensPerMessage * i + ContentTokens(Contents(translated), encLen)
    {
      assert messages[..i + 1] == messages[..i] + [messages[i]];
      FlatTranslateSnoc(messages[..i], messages[i], ToOllamaType);
      numTokens := numTokens + TokensPerMessage;
      var ollamaMessages := ToOllamaType(messages[i]);
      if ollamaMessages.Err? {
        FlatTranslateErrorPersists(messages, ToOllamaType, i + 1);
        return Err(ollamaMessages.error);
      }
      var partTokens := CountContents(ollamaMessages.value, encLen);
      numTokens := numTokens + partTokens;
      ContentsAppend(translated, ollamaMessages.value);
      ContentTokensAppend(Contents(translated), Contents(ollamaMessages.value), encLen);
      translated := translated + ollamaMessages.value;
      i := i + 1;
    }
    assert messages[..i] == messages;
    numTokens := numTokens + ReplyPriming;
    numTokens := numTokens + ClosingTokens;
    r := Ok(numTokens);
  }

  // ---------------------------------------------------------------- properties

  /** Every message costs at least its fixed overhead, and the count has a floor of 15. */
  lemma CountLowerBound(messages: seq<LLMMessage>, encLen: string -> nat)
    requires CountTokensSpec(messages, encLen).Ok?
    ensures CountTokensSpec(messages, encLen).value >= TokensPerMessage * |messages| + ReplyPriming + ClosingTokens
  {
  }

  /** The count of a conversation that translates to `all`. */
  lemma CountOfTranslation(messages: seq<LLMMessage>, all: seq<OllamaMessage>, encLen: string -> nat)
    requires TranslateAll(messages) == Ok(all)
    ensures CountTokensSpec(messages, encLen).Ok?
    ensures CountTokensSpec(messages, encLen).value ==
      TokensPerMessage * |messages| + ContentTokens(Contents(all), encLen) + ReplyPriming + ClosingTokens
  {
  }

  /** Counting two conversations together counts the constant part once. */
  lemma CountAdditive(a: seq<LLMMessage>, b: seq<LLMMessage>, encLen: string -> nat)
    requires CountTokensSpec(a, encLen).Ok? && CountTokensSpec(b, encLen).Ok?
    ensures CountTokensSpec(a + b, encLen).Ok?
    ensures CountTokensSpec(a + b, encLen).value ==
      CountTokensSpec(a, encLen).value + CountTokensSpec(b, encLen).value - ReplyPriming - ClosingTokens
  {
    var ta, tb := TranslateAll(a).value, TranslateAll(b).value;
    FlatTranslateAppend(a, b, ToOllamaType);
    CountOfTranslation(a, ta, encLen);
    CountOfTranslation(b, tb, encLen);
    CountOfTranslation(a + b, ta + tb, encLen);
    ContentsAppend(ta, tb);
    ContentTokensAppend(Contents(ta), Contents(tb), encLen);
    assert TokensPerMessage * |a + b| == TokensPerMessage * |a| + TokensPerMessage * |b|;
  }

  /** The count of a one-message conversation. */
  lemma CountSingle(m: LLMMessage, encLen: string -> nat)
    ensures CountTokensSpec([m], encLen).Err? <==> ToOllamaType(m).Err?
    ensures ToOllamaType(m).Err? ==> CountTokensSpec([m], encLen).error == ToOllamaType(m).error
    ensures ToOllamaType(m).Ok? ==>
      CountTokensSpec([m], encLen).value ==
      TokensPerMessage + ContentTokens(Contents(ToOllamaType(m).value), encLen) + ReplyPriming + ClosingTokens
  {
    FlatTranslateSingle(m, ToOllamaType);
  }

  lemma {:induction false} ImagePartsCostNothing(parts: seq<UserPart>, encLen: string -> nat)
    requires KnownParts(parts)
    ensures ContentTokens(Contents(UserPartsTranslation(parts)), encLen) == ContentTokens(TextParts(parts), encLen)
  {
    UserTextsInOrder(parts);
    var lead: seq<Option<string>> := if StartsWithImage(parts) then [None] else [];
    ContentTokensAppend(lead, TextParts(parts), encLen);
    if lead != [] {
      assert lead[..0] == [];
    }
  }

  /**
    * Images are never counted: the vision branch tests the generic message's content
    * for being an image, which it never is. Adding an image to a user message's list
    * content leaves the tokens of its translation unchanged.
    */
  lemma ImageAddsNothing(parts: seq<UserPart>, img: Image, encLen: string -> nat)
    requires KnownParts(parts)
    ensures KnownParts(parts + [ImagePart(img)])
    ensures ContentTokens(Contents(UserPartsTranslation(parts + [ImagePart(img)])), encLen) ==
      ContentTokens(Contents(UserPartsTranslation(parts)), encLen)
  {
    var more := parts + [ImagePart(img)];
    assert more[..|more| - 1] == parts;
    assert KnownParts(more);
    assert TextParts(more) == TextParts(parts);
    ImagePartsCostNothing(more, encLen);
    ImagePartsCostNothing(parts, encLen);
  }
}
