/**
 * The SDK's exception hierarchy (handwrytten/exceptions.py): one base class
 * and five subclasses that differ only in their default message, plus the
 * `retry_after` that a rate-limit error carries.
 */
module Exceptions {
  import opened Wrappers
  import opened Text
  import opened Values

  datatype ErrorKind = Generic | Authentication | BadRequest | NotFound | RateLimit | Server

  /**
   * A raised `HandwryttenError` (or subclass). `retryAfter` is the
   * `RateLimitError.retry_after` attribute; the other classes have none.
   */
  datatype ApiError = ApiError(
    kind: ErrorKind,
    message: string,
    statusCode: Option<int>,
    responseBody: Value,
    retryAfter: Option<int>)

  /** Anything the modelled code can raise. */
  datatype Raised = Api(error: ApiError) | Builtin(builtin: PyError)

  const GenericMessage := "An error occurred with the Handwrytten API"
  const AuthenticationMessage := "Invalid or missing API key"
  const RateLimitMessage := "Rate limit exceeded. Please retry after a delay."
  const ServerMessage := "Handwrytten server error"

  /** The default `message` argument of each class's constructor. */
  function DefaultMessage(kind: ErrorKind): (m: string)
    ensures m != ""
    ensures kind == Generic ==> m == GenericMessage
    ensures kind == Authentication ==> m == AuthenticationMessage
    ensures kind == BadRequest ==> m == "Bad request"
    ensures kind == NotFound ==> m == "Resource not found"
    ensures kind == RateLimit ==> m == RateLimitMessage
    ensures kind == Server ==> m == ServerMessage
  {
    match kind
    case Generic => GenericMessage
    case Authentication => AuthenticationMessage
    case BadRequest => "Bad request"
    case NotFound => "Resource not found"
    case RateLimit => RateLimitMessage
    case Server => ServerMessage
  }

  /**
   * Calling a class's constructor: an omitted message takes the class
   * default; everything else is stored as given.
   */
  function NewError(kind: ErrorKind, message: Option<string>, statusCode: Option<int>,
                    responseBody: Value, retryAfter: Option<int>): (e: ApiError)
    requires kind != RateLimit ==> retryAfter.None?
    ensures e.kind == kind
    ensures e.message == if message.Some? then message.value else DefaultMessage(kind)
    ensures e.statusCode == statusCode && e.responseBody == responseBody && e.retryAfter == retryAfter
  {
    ApiError(kind, message.GetOr(DefaultMessage(kind)), statusCode, responseBody, retryAfter)
  }

  /** The status code counts for `__str__` only when it is truthy (present and non-zero). */
  predicate HasStatus(e: ApiError) {
    e.statusCode.Some? && e.statusCode.value != 0
  }

  /** `HandwryttenError.__str__`: the message, then " (HTTP n)" for a truthy status code. */
  function ErrorStr(e: ApiError): (s: string)
    ensures |s| >= |e.message| && s[..|e.message|] == e.message
    ensures !HasStatus(e) <==> s == e.message
  {
    if HasStatus(e) then e.message + " (HTTP " + IntToString(e.statusCode.value) + ")" else e.message
  }

  /** The status code can be read back out of the text `__str__` appends. */
  lemma ErrorStrStatus(e: ApiError)
    requires HasStatus(e)
    ensures var tail := ErrorStr(e)[|e.message|..];
            |tail| > 8 && tail[..7] == " (HTTP " && tail[|tail| - 1] == ')'
            && ParseInt(tail[7..|tail| - 1]) == Some(e.statusCode.value)
  {
    var n := IntToString(e.statusCode.value);
    var tail := ErrorStr(e)[|e.message|..];
    assert tail == " (HTTP " + n + ")";
    assert tail[7..|tail| - 1] == n;
    IntRoundTrip(e.statusCode.value);
  }
}
