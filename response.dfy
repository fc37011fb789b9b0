/** `Response`: a provider's validated, frozen answer (src/models/response.py). */
module Responses {
  import opened Wrappers
  import opened Errors
  import opened Text
  import opened Questions

  /** The frozen dataclass; `question` is the question answered. */
  datatype Response = Response(provider: string, question: Question, answer: string)

  /** What `__post_init__` establishes of every constructed response. */
  predicate Valid(r: Response)
  {
    !IsBlank(r.provider) && !IsBlank(r.answer)
  }

  const EmptyProviderMessage: string := "Provider name cannot be empty"
  const EmptyAnswerMessage: string := "Answer text cannot be empty"
  const MissingQuestionMessage: string := "Response must be associated with a valid Question"

  /**
   * `Response(provider=..., question=..., answer=...)` followed by
   * `__post_init__`: provider, then answer, then the presence of the question
   * are checked, each failure a `ValueError`; the fields are stored unchanged.
   */
  function NewResponse(provider: string, question: Option<Question>, answer: string): (r: Result<Response, Error>)
    ensures r.Success? <==> !IsBlank(provider) && !IsBlank(answer) && question.Some?
    ensures r.Success? ==> Valid(r.value) && r.value == Response(provider, question.value, answer)
    ensures IsBlank(provider) ==> r == Failure(ValueError(EmptyProviderMessage))
    ensures !IsBlank(provider) && IsBlank(answer) ==> r == Failure(ValueError(EmptyAnswerMessage))
    ensures !IsBlank(provider) && !IsBlank(answer) && question.None? ==> r == Failure(ValueError(MissingQuestionMessage))
  {
    if IsBlank(provider) then Failure(ValueError(EmptyProviderMessage))
    else if IsBlank(answer) then Failure(ValueError(EmptyAnswerMessage))
    else if question.None? then Failure(ValueError(MissingQuestionMessage))
    else Success(Response(provider, question.value, answer))
  }

  /** `Response.create(provider, question, answer)`: the fields are kept as given. */
  function Create(provider: string, question: Question, answer: string): (r: Result<Response, Error>)
    ensures r.Success? <==> !IsBlank(provider) && !IsBlank(answer)
    ensures r.Success? ==> r.value.provider == provider && r.value.question == question && r.value.answer == answer
    ensures r.Failure? ==> r.error.ValueError?
  {
    NewResponse(provider, Some(question), answer)
  }

  /** `short_preview(length=80)` of the answer. */
  function ShortPreview(resp: Response, length: int := 80): (r: string)
    ensures |resp.answer| <= length ==> r == resp.answer
    ensures 0 <= length < |resp.answer| ==> |r| == length + 3 && r == resp.answer[..length] + "..."
    ensures length < |resp.answer| ==> r == SlicePrefix(resp.answer, length) + "..."
  {
    Preview(resp.answer, length)
  }
}
