/**
 * `OpenAIClientHelper` (src/providers/openai_client_helper.py): argument
 * checks that raise, a backend call whose every failure becomes `None`, and
 * extraction of the first choice's text. The SDK call is an input outcome.
 */
module ClientHelper {
  import opened Wrappers
  import opened Errors
  import opened Text

  /** A Python argument that may not have the annotated type at run time. */
  datatype Typed<T> = Typed(value: T) | WrongType

  /** A role-tagged chat message. */
  datatype ChatMessage = ChatMessage(role: string, content: string)

  /** The client configuration the helper holds after `__init__`. */
  datatype Helper = Helper(apiKey: string, baseUrl: Option<string>, organization: Option<string>)

  /** What is passed to `client.chat.completions.create`; `options` are the forwarded `**kwargs`. */
  datatype ChatRequest = ChatRequest(model: string, messages: seq<ChatMessage>, options: map<string, string>)

  /**
   * The parts of a `ChatCompletion` the helper reads. `choices` and
   * `content` are read with a default, so `None` stands for a missing or
   * `None` attribute; `message` is read directly, so `None` is its value.
   */
  datatype Message = Message(content: Option<string>)
  datatype Choice = Choice(message: Option<Message>)
  datatype Completion = Completion(choices: Option<seq<Choice>>)

  /** How the backend call ended: timed out, raised, or returned a value (possibly `None`). */
  datatype CallOutcome = TimedOut | Raised(description: string) | Returned(completion: Option<Completion>)

  /** A non-`None` value of `ask`: the stripped text, or the completion in raw mode. */
  datatype Reply = Text(text: string) | Raw(completion: Completion)

  /** One call of `ask`: the request it sent (if it got that far) and what it returned or raised. */
  datatype Asked = Asked(sent: Option<ChatRequest>, result: Result<Option<Reply>, Error>)

  const ApiKeyMessage: string := "OpenAIClientHelper: `api_key` must be a non-empty string."
  const ModelMessage: string := "OpenAIClientHelper.ask: `model` must be a non-empty string."
  const MessagesMessage: string := "OpenAIClientHelper.ask: `messages` must be a non-empty list."

  /** `__init__`: an `api_key` that is not a string or is blank raises `ValueError`. */
  function NewHelper(apiKey: Typed<string>, baseUrl: Option<string>, organization: Option<string>): (r: Result<Helper, Error>)
    ensures r.Success? <==> apiKey.Typed? && !IsBlank(apiKey.value)
    ensures r.Success? ==> r.value == Helper(apiKey.value, baseUrl, organization)
    ensures r.Failure? ==> r.error == ValueError(ApiKeyMessage)
  {
    if apiKey.WrongType? || IsBlank(apiKey.value) then Failure(ValueError(ApiKeyMessage))
    else Success(Helper(apiKey.value, baseUrl, organization))
  }

  /**
   * What `ask` makes of the backend's outcome once the arguments are
   * accepted. Nothing here raises: a timeout, an exception and an unusable
   * reply are all `None`.
   */
  function Extract(outcome: CallOutcome, returnRaw: bool): (r: Option<Reply>)
    ensures !outcome.Returned? ==> r == None
    ensures returnRaw && outcome.Returned? ==>
      r == (if outcome.completion.None? then None else Some(Raw(outcome.completion.value)))
    ensures !returnRaw && r.Some? ==>
      && outcome.Returned? && outcome.completion.Some?
      && var choices := outcome.completion.value.choices;
      && choices.Some? && |choices.value| > 0
      && var message := choices.value[0].message;
      && message.Some? && message.value.content.Some? && message.value.content.value != ""
      && r.value == Text(Strip(message.value.content.value))
    ensures !returnRaw && r.Some? ==> r.value.Text? && Strip(r.value.text) == r.value.text
    ensures !returnRaw && outcome.Returned? && outcome.completion.Some? ==>
      var choices := outcome.completion.value.choices;
      choices.Some? && |choices.value| > 0 ==>
      var message := choices.value[0].message;
      message.Some? && message.value.content.Some? && message.value.content.value != "" ==>
      r == Some(Text(Strip(message.value.content.value)))
  {
    match outcome
    case TimedOut => None
    case Raised(_) => None
    case Returned(completion) =>
      if returnRaw then
        (if completion.None? then None else Some(Raw(completion.value)))
      else if completion.None? || completion.value.choices.None? || completion.value.choices.value == [] then
        None
      else
        var message := completion.value.choices.value[0].message;
        if message.None? || message.value.content.None? || message.value.content.value == "" then None
        else
          StripIdempotent(message.value.content.value);
          Some(Text(Strip(message.value.content.value)))
  }

  /**
   * `ask(messages, model=..., return_raw=..., **options)`. The model is
   * checked first, then the messages; either failure raises `ValueError`
   * before any backend call. The request carries the stripped model and the
   * messages and options unchanged.
   */
  function Ask(helper: Helper, messages: Typed<seq<ChatMessage>>, model: Typed<string>, returnRaw: bool,
               options: map<string, string>, outcome: CallOutcome): (a: Asked)
    ensures a.result.Failure? <==> model.WrongType? || IsBlank(model.value) || messages.WrongType? || messages.value == []
    ensures (model.WrongType? || IsBlank(model.value)) ==> a.result == Failure(ValueError(ModelMessage))
    ensures model.Typed? && !IsBlank(model.value) && (messages.WrongType? || messages.value == []) ==>
      a.result == Failure(ValueError(MessagesMessage))
    ensures a.sent.Some? <==> a.result.Success?
    ensures a.sent.Some? ==> a.sent.value == ChatRequest(Strip(model.value), messages.value, options)
    ensures a.sent.Some? ==> a.result.value == Extract(outcome, returnRaw)
  {
    if model.WrongType? || IsBlank(model.value) then
      Asked(None, Failure(ValueError(ModelMessage)))
    else if messages.WrongType? || messages.value == [] then
      Asked(None, Failure(ValueError(MessagesMessage)))
    else
      Asked(Some(ChatRequest(Strip(model.value), messages.value, options)), Success(Extract(outcome, returnRaw)))
  }

  /** Once its arguments are accepted, `ask` never raises, whatever the backend does. */
  lemma AskAbsorbsBackendFailures(helper: Helper, messages: seq<ChatMessage>, model: string, returnRaw: bool,
                                  options: map<string, string>, outcome: CallOutcome)
    requires !IsBlank(model) && messages != []
    ensures var a := Ask(helper, Typed(messages), Typed(model), returnRaw, options, outcome);
      && a.result.Success?
      && (outcome.TimedOut? || outcome.Raised? ==> a.result.value == None)
      && a.sent.value.model != [] && !IsSpace(a.sent.value.model[0])
  {
  }
}
