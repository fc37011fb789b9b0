/** `Question`: the validated, frozen question record (src/models/question.py). */
module Questions {
  import opened Wrappers
  import opened Errors
  import opened Text

  /** An opaque creation instant; its default clock is not modelled. */
  type Timestamp = int

  /**
   * The frozen dataclass. Being a datatype, a `Question` value can never
   * change after construction.
   */
  datatype Question = Question(text: string, id: string, createdAt: Timestamp)

  /** What `__post_init__` establishes of every constructed question. */
  predicate Valid(q: Question)
  {
    !IsBlank(q.text)
  }

  const EmptyTextMessage: string := "Question text cannot be empty"

  /**
   * `Question(text=..., id=..., created_at=...)` followed by `__post_init__`:
   * blank text raises `ValueError`, anything else is stored as given.
   */
  function NewQuestion(text: string, id: string, createdAt: Timestamp): (r: Result<Question, Error>)
    ensures r.Success? <==> !IsBlank(text)
    ensures r.Success? ==> Valid(r.value) && r.value.text == text && r.value.id == id && r.value.createdAt == createdAt
    ensures r.Failure? ==> r.error == ValueError(EmptyTextMessage)
  {
    if IsBlank(text) then Failure(ValueError(EmptyTextMessage))
    else Success(Question(text, id, createdAt))
  }

  /**
   * `Question.create(text)`: `freshId` and `now` stand for the values of the
   * `uuid4` and `datetime.now(UTC)` default factories. The text is stored
   * exactly as given, not stripped.
   */
  function Create(text: string, freshId: string, now: Timestamp): (r: Result<Question, Error>)
    ensures r.Success? <==> !IsBlank(text)
    ensures r.Success? ==> r.value == Question(text, freshId, now)
    ensures r.Failure? ==> r.error.ValueError?
  {
    NewQuestion(text, freshId, now)
  }

  /** `short_preview(length=80)`: the whole text when it fits, else a cut plus "...". */
  function ShortPreview(q: Question, length: int := 80): (r: string)
    ensures |q.text| <= length ==> r == q.text
    ensures 0 <= length < |q.text| ==> |r| == length + 3 && r == q.text[..length] + "..."
    ensures length < |q.text| ==> r == SlicePrefix(q.text, length) + "..."
  {
    Preview(q.text, length)
  }
}
