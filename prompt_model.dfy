/**
 * The `Prompt` record schema: which fields are required, which are stored
 * trimmed, the `response` default, the `createdAt`/`updatedAt` defaults, and
 * the pre-save hook that stamps `updatedAt`.
 */
module PromptModel {
  import opened Wrappers
  import opened Text

  /** The eight string fields of a record, or of a request body; `None` is a
      field that is absent (undefined or null). */
  datatype Fields = Fields(
    title: Option<string>,
    instructions: Option<string>,
    context: Option<string>,
    inputData: Option<string>,
    outputIndicator: Option<string>,
    negativePrompting: Option<string>,
    combinedPrompt: Option<string>,
    response: Option<string>)

  /** JavaScript truthiness of an optional string: present and non-empty. */
  predicate Given(v: Option<string>) {
    v.Some? && v.value != ""
  }

  /** The `trim: true` setter: a present value is stored with its white space
      removed at both ends and nothing else; an absent one stays absent. */
  function TrimField(v: Option<string>): (r: Option<string>)
    ensures r.Some? == v.Some?
    ensures v.Some? ==> IsStripOf(r.value, v.value, JavaScript)
  {
    match v
    case None => None
    case Some(s) =>
      StripRemovesOnlySpace(s, JavaScript);
      Some(Strip(s, JavaScript))
  }

  /** A value that is already trimmed is stored as given. */
  lemma TrimFieldKeepsTrimmed(v: Option<string>)
    requires v.Some? && IsStripped(v.value, JavaScript)
    ensures TrimField(v) == v
  {
    StripStripped(v.value, JavaScript);
  }

  /** The setters applied to each field: every field but `combinedPrompt` and
      `response` is trimmed; those two are kept as given. */
  function Trimmed(body: Fields): (f: Fields)
    ensures f.title == TrimField(body.title) && f.instructions == TrimField(body.instructions)
    ensures f.context == TrimField(body.context) && f.inputData == TrimField(body.inputData)
    ensures f.outputIndicator == TrimField(body.outputIndicator)
    ensures f.negativePrompting == TrimField(body.negativePrompting)
    ensures f.combinedPrompt == body.combinedPrompt && f.response == body.response
  {
    body.(title := TrimField(body.title), instructions := TrimField(body.instructions),
          context := TrimField(body.context), inputData := TrimField(body.inputData),
          outputIndicator := TrimField(body.outputIndicator),
          negativePrompting := TrimField(body.negativePrompting))
  }

  /** A new document's fields: the setters, and `response` defaulting to `''`. */
  function Cast(body: Fields): (f: Fields)
    ensures f == Trimmed(body).(response := f.response)
    ensures f.response == Some(body.response.GetOr(""))
  {
    Trimmed(body).(response := Some(body.response.GetOr("")))
  }

  /** Setting trimmed values again changes nothing. */
  lemma TrimmedIdempotent(body: Fields)
    ensures Trimmed(Trimmed(body)) == Trimmed(body)
  {
    TrimFieldIdempotent(body.title);
    TrimFieldIdempotent(body.instructions);
    TrimFieldIdempotent(body.context);
    TrimFieldIdempotent(body.inputData);
    TrimFieldIdempotent(body.outputIndicator);
    TrimFieldIdempotent(body.negativePrompting);
  }

  lemma TrimFieldIdempotent(v: Option<string>)
    ensures TrimField(TrimField(v)) == TrimField(v)
  {
    if v.Some? {
      TrimFieldKeepsTrimmed(TrimField(v));
    }
  }

  /** A required string path is missing when absent or empty. */
  predicate Missing(v: Option<string>) {
    !Given(v)
  }

  /** The `required` validators: the message of the validation error, naming
      the first missing path, if any. */
  function ValidationError(f: Fields): (r: Option<string>)
    ensures r.None? <==> Given(f.title) && Given(f.combinedPrompt)
  {
    if Missing(f.title) then Some("title: Path `title` is required.")
    else if Missing(f.combinedPrompt) then Some("combinedPrompt: Path `combinedPrompt` is required.")
    else None
  }

  /**
   * For a body that passed the router's own check (a non-empty `title` and
   * `combinedPrompt`), validation after the setters fails exactly when the
   * title is nothing but white space: `combinedPrompt` is not trimmed.
   */
  lemma ValidationFailsOnlyForBlankTitle(body: Fields)
    requires Given(body.title) && Given(body.combinedPrompt)
    ensures ValidationError(Trimmed(body)).Some? <==> Strip(body.title.value, JavaScript) == ""
    ensures ValidationError(Cast(body)) == ValidationError(Trimmed(body))
  {
  }

  /** A stored record: its fields and its two time stamps (milliseconds). */
  datatype Prompt = Prompt(fields: Fields, createdAt: int, updatedAt: int)

  /** A `Prompt` document being created. */
  class PromptDocument {
    var fields: Fields
    var createdAt: int
    var updatedAt: int

    /** `new Prompt(body)`: the cast fields, both time stamps the current time. */
    constructor (body: Fields, now: int)
      ensures fields == Cast(body) && createdAt == now && updatedAt == now
    {
      fields := Cast(body);
      createdAt := now;
      updatedAt := now;
    }

    /** The pre-save hook: `updatedAt` becomes the current time; nothing else
        changes. */
    method PreSave(now: int)
      modifies this
      ensures updatedAt == now && fields == old(fields) && createdAt == old(createdAt)
    {
      updatedAt := now;
    }

    /** The record this document stores. */
    function Record(): Prompt
      reads this
    {
      Prompt(fields, createdAt, updatedAt)
    }
  }
}
