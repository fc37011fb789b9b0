/**
 * `AnthropicProvider` (src/providers/anthropic_impl.py): construction and the
 * normalisation of a Messages API reply into a `Response`. The SDK call is
 * an input outcome.
 */
module AnthropicProvider {
  import opened Wrappers
  import opened Errors
  import opened Text
  import opened Questions
  import opened Responses
  import opened ProviderBase
  import ClientHelper

  const ClassName: string := "AnthropicProvider"
  const MaxTokens: nat := 512
  const EmptyContentMessage: string := "Empty content in Anthropic response"
  const NoTextMessage: string := "Could not extract text from Anthropic response content"

  /** The message raised when the SDK returns `None`. */
  function NoResponseMessage(base: Provider): string
  {
    "No response from Anthropic provider '" + base.name + "' (model=" + base.model + ")"
  }

  /** The validated base fields and the keyword arguments the SDK client was built with. */
  datatype Anthropic = Anthropic(base: Provider, clientOptions: map<string, string>)

  /** An attribute as `getattr(obj, attr, None)` sees it. */
  datatype Attr = NoneValue | StrValue(s: string) | OtherValue(truthy: bool)

  predicate Truthy(a: Attr)
  {
    match a
    case NoneValue => false
    case StrValue(s) => s != ""
    case OtherValue(t) => t
  }

  /** A content block of the reply: its `text` and `content` attributes. */
  datatype Block = Block(text: Attr, content: Attr)

  /** A reply: its `content` attribute (`None` when missing) and `str(reply)`. */
  datatype MessageReply = MessageReply(content: Option<seq<Block>>, rendered: string)

  /** How the SDK call ended; exceptions and timeouts propagate to the caller. */
  datatype MessagesOutcome = TimedOut | Raised(error: Error) | Returned(reply: Option<MessageReply>)

  /** What is passed to `messages.create`; `options` are the forwarded `**kwargs`. */
  datatype MessagesRequest = MessagesRequest(model: string, maxTokens: nat, messages: seq<ClientHelper.ChatMessage>, options: map<string, string>)

  /** `client_kwargs` of `__init__`: `api_key` always, `base_url` only when one is given. */
  method ClientOptions(apiKey: string, baseUrl: Option<string>) returns (kwargs: map<string, string>)
    ensures "api_key" in kwargs && kwargs["api_key"] == apiKey
    ensures "base_url" in kwargs <==> baseUrl.Some?
    ensures baseUrl.Some? ==> kwargs["base_url"] == baseUrl.value
    ensures kwargs.Keys <= {"api_key", "base_url"}
  {
    kwargs := map["api_key" := apiKey];
    if baseUrl.Some? {
      kwargs := kwargs["base_url" := baseUrl.value];
    }
  }

  /** `__init__`: the base validation runs first and raises before any client is built. */
  method New(name: string, model: string, apiKey: string, baseUrl: Option<string>) returns (r: Result<Anthropic, Error>)
    ensures r.Success? <==> !IsBlank(name) && !IsBlank(model)
    ensures r.Failure? ==> r.error == NewProvider(ClassName, name, model).error
    ensures r.Success? ==> r.value.base == Provider(ClassName, name, model)
    ensures r.Success? ==> "api_key" in r.value.clientOptions && r.value.clientOptions["api_key"] == apiKey
    ensures r.Success? ==> ("base_url" in r.value.clientOptions <==> baseUrl.Some?)
    ensures r.Success? && baseUrl.Some? ==> r.value.clientOptions["base_url"] == baseUrl.value
    ensures r.Success? ==> r.value.clientOptions.Keys <= {"api_key", "base_url"}
  {
    var base := NewProvider(ClassName, name, model);
    if base.Failure? {
      return Failure(base.error);
    }
    var options := ClientOptions(apiKey, baseUrl);
    r := Success(Anthropic(base.value, options));
  }

  /** `getattr(block, "text", None) or getattr(block, "content", None)`, kept only when it is a `str`. */
  function BlockText(b: Block): (r: Option<string>)
    ensures r.Some? ==> (b.text.StrValue? && r.value == b.text.s) || (b.content.StrValue? && r.value == b.content.s)
    ensures b.text.OtherValue? && b.text.truthy ==> r == None
  {
    var v := if Truthy(b.text) then b.text else b.content;
    if v.StrValue? then Some(v.s) else None
  }

  /** The `parts` list the loop builds: every block's text, in block order. */
  function BlockTexts(blocks: seq<Block>): (parts: seq<string>)
    ensures |parts| <= |blocks|
    decreases |blocks|
  {
    if blocks == [] then []
    else
      var last := BlockText(blocks[|blocks| - 1]);
      BlockTexts(blocks[..|blocks| - 1]) + (if last.Some? then [last.value] else [])
  }

  /** A block contributes its `text` when that is a non-empty string, else its `content` when the `text` is falsy and the `content` a string. */
  lemma BlockTextCases(b: Block)
    ensures b.text.StrValue? && b.text.s != "" ==> BlockText(b) == Some(b.text.s)
    ensures !Truthy(b.text) && b.content.StrValue? ==> BlockText(b) == Some(b.content.s)
    ensures BlockText(b).Some? <==> (Truthy(b.text) && b.text.StrValue?) || (!Truthy(b.text) && b.content.StrValue?)
  {
  }

  /** No text is extracted exactly when no block contributes. */
  lemma {:induction false} NoPartsIffNoTextBlock(blocks: seq<Block>)
    ensures BlockTexts(blocks) == [] <==> forall i :: 0 <= i < |blocks| ==> BlockText(blocks[i]).None?
  {
    if blocks != [] {
      var init := blocks[..|blocks| - 1];
      NoPartsIffNoTextBlock(init);
      assert forall i :: 0 <= i < |init| ==> init[i] == blocks[i];
    }
  }

  /** The loop of `generate_answer` that collects the text parts. */
  method CollectParts(blocks: seq<Block>) returns (parts: seq<string>)
    ensures parts == BlockTexts(blocks)
  {
    parts := [];
    var i := 0;
    while i < |blocks|
      invariant 0 <= i <= |blocks|
      invariant parts == BlockTexts(blocks[..i])
    {
      var blockText := BlockText(blocks[i]);
      if blockText.Some? {
        parts := parts + [blockText.value];
      }
      assert blocks[..i + 1][..i] == blocks[..i];
      i := i + 1;
    }
    assert blocks[..i] == blocks;
  }

  /** The request `generate_answer` sends: one user message with the question text, 512 tokens, the provider's model. */
  function RequestFor(p: Anthropic, question: Question, options: map<string, string>): (req: MessagesRequest)
    ensures req.model == p.base.model && req.maxTokens == 512 && req.options == options
    ensures req.messages == [ClientHelper.ChatMessage("user", question.text)]
  {
    MessagesRequest(p.base.model, MaxTokens, [ClientHelper.ChatMessage("user", question.text)], options)
  }

  /**
   * `generate_answer`. A timeout or SDK exception propagates; a `None` reply,
   * empty content or no text block raises `RuntimeError`; otherwise the
   * parts are joined with newlines and stripped (or, in raw mode, the reply's
   * `str` form is taken) and wrapped in a `Response` for this provider and
   * question, whose own checks may still raise.
   */
  method GenerateAnswer(p: Anthropic, question: Question, returnRaw: bool, options: map<string, string>, outcome: MessagesOutcome)
    returns (sent: MessagesRequest, r: Result<Response, Error>)
    ensures sent == RequestFor(p, question, options)
    ensures outcome.TimedOut? ==> r == Failure(TimeoutError)
    ensures outcome.Raised? ==> r == Failure(outcome.error)
    ensures outcome == Returned(None) ==> r == Failure(RuntimeError(NoResponseMessage(p.base)))
    ensures outcome.Returned? && outcome.reply.Some? && returnRaw ==>
      r == NewResponse(p.base.name, Some(question), outcome.reply.value.rendered)
    ensures outcome.Returned? && outcome.reply.Some? && !returnRaw ==>
      var content := outcome.reply.value.content;
      if content.None? || content.value == [] then r == Failure(RuntimeError(EmptyContentMessage))
      else if BlockTexts(content.value) == [] then r == Failure(RuntimeError(NoTextMessage))
      else r == NewResponse(p.base.name, Some(question), Strip(Join("\n", BlockTexts(content.value))))
    ensures r.Success? ==> r.value.provider == p.base.name && r.value.question == question && !IsBlank(r.value.answer)
  {
    sent := RequestFor(p, question, options);
    match outcome {
      case TimedOut =>
        return sent, Failure(TimeoutError);
      case Raised(e) =>
        return sent, Failure(e);
      case Returned(reply) =>
        if reply.None? {
          return sent, Failure(RuntimeError(NoResponseMessage(p.base)));
        }
        var answerText: string;
        if returnRaw {
          answerText := reply.value.rendered;
        } else {
          var content := reply.value.content;
          if content.None? || content.value == [] {
            return sent, Failure(RuntimeError(EmptyContentMessage));
          }
          var parts := CollectParts(content.value);
          if parts == [] {
            return sent, Failure(RuntimeError(NoTextMessage));
          }
          answerText := Strip(Join("\n", parts));
        }
        r := NewResponse(p.base.name, Some(question), answerText);
    }
  }
}
