/** The back end's single error type, its stable codes, its display messages, and
    the `{code, message}` object it is serialized to when a command fails. Errors
    that wrap a foreign library error carry that error's display text. */
module AppErrors {
  import opened Text
  import opened JsonValue

  datatype AppError =
    | Database(detail: string)
    | Serialization(detail: string)
    | Http(detail: string)
    | ApiError(detail: string)
    | MissingApiKey
    | UnknownFunction(detail: string)
    | InvalidArgument(detail: string)
    | TooManyFunctionCalls
    | TodoNotFound(detail: string)
    | Tauri(detail: string)
    | Io(detail: string)

  /** `error_code`: one fixed code per variant, whatever the payload. */
  function ErrorCode(e: AppError): string {
    match e
    case Database(_) => "DATABASE_ERROR"
    case Serialization(_) => "SERIALIZATION_ERROR"
    case Http(_) => "HTTP_ERROR"
    case ApiError(_) => "API_ERROR"
    case MissingApiKey => "MISSING_API_KEY"
    case UnknownFunction(_) => "UNKNOWN_FUNCTION"
    case InvalidArgument(_) => "INVALID_ARGUMENT"
    case TooManyFunctionCalls => "TOO_MANY_FUNCTION_CALLS"
    case TodoNotFound(_) => "TODO_NOT_FOUND"
    case Tauri(_) => "TAURI_ERROR"
    case Io(_) => "IO_ERROR"
  }

  /** The two errors are the same variant (payloads may differ). */
  predicate SameVariant(a: AppError, b: AppError) {
    || (a.Database? && b.Database?)
    || (a.Serialization? && b.Serialization?)
    || (a.Http? && b.Http?)
    || (a.ApiError? && b.ApiError?)
    || (a.MissingApiKey? && b.MissingApiKey?)
    || (a.UnknownFunction? && b.UnknownFunction?)
    || (a.InvalidArgument? && b.InvalidArgument?)
    || (a.TooManyFunctionCalls? && b.TooManyFunctionCalls?)
    || (a.TodoNotFound? && b.TodoNotFound?)
    || (a.Tauri? && b.Tauri?)
    || (a.Io? && b.Io?)
  }

  /** The code identifies the variant: equal codes exactly when equal variants. */
  lemma ErrorCodeIdentifiesVariant(a: AppError, b: AppError)
    ensures ErrorCode(a) == ErrorCode(b) <==> SameVariant(a, b)
  {
  }

  /** The `#[error(...)]` display text (`to_string()`). */
  function Message(e: AppError): string {
    match e
    case Database(d) => "Database error: " + d
    case Serialization(d) => "Serialization error: " + d
    case Http(d) => "HTTP error: " + d
    case ApiError(d) => "API error: " + d
    case MissingApiKey => "Missing API key"
    case UnknownFunction(d) => "Unknown function: " + d
    case InvalidArgument(d) => "Invalid argument: " + d
    case TooManyFunctionCalls => "Too many function calls"
    case TodoNotFound(d) => "Todo not found: " + d
    case Tauri(d) => "Tauri error: " + d
    case Io(d) => "IO error: " + d
  }

  /** Every message ends with the payload it carries, so e.g. the id of a missing
      task or the upstream text of an API error reaches the user. */
  lemma MessageEmbedsDetail(e: AppError)
    requires !e.MissingApiKey? && !e.TooManyFunctionCalls?
    ensures Contains(Message(e), e.detail)
    ensures |Message(e)| > |e.detail|
  {
    var m := Message(e);
    var prefix := m[..|m| - |e.detail|];
    assert m == prefix + e.detail + "";
    ContainsInfix(prefix, e.detail, "");
  }

  /** The missing-key message names an API key in a case-insensitive way, which is
      what the desktop front end looks for to show its configuration hint. */
  lemma MissingApiKeyMentionsApiKey()
    ensures Message(MissingApiKey) == "Missing API key"
    ensures Contains(ToLower(Message(MissingApiKey)), "api key")
  {
    var m := Message(MissingApiKey);
    var lower := ToLower(m);
    var expected := "missing api key";
    assert |lower| == |expected|;
    forall i | 0 <= i < |m| ensures lower[i] == expected[i] {
      assert lower[i] == LowerChar(m[i]);
    }
    assert lower == "missing " + "api key" + "";
    ContainsInfix("missing ", "api key", "");
  }

  /** The serialized error: an object with exactly the members `code` and `message`. */
  function ToJson(e: AppError): (r: Json)
    ensures r.Object? && r.fields.Keys == {"code", "message"}
    ensures r.fields["code"] == Str(ErrorCode(e))
    ensures r.fields["message"] == Str(Message(e))
  {
    Object(map["code" := Str(ErrorCode(e)), "message" := Str(Message(e))])
  }
}
