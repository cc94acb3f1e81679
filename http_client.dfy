/**
 * The HTTP transport of handwrytten/http_client.py: base-URL normalisation,
 * response classification, error-message extraction and the retry loop that
 * `request` and `post_multipart` share.
 *
 * The network is not modelled. What the session returns on attempt k is the
 * input `outcome(k)`, and the sleeps between attempts are recorded as a list
 * of waits in whole seconds.
 */
module HttpClient {
  import opened Wrappers
  import opened Text
  import opened Dicts
  import opened Values
  import opened Exceptions

  const DefaultBaseUrl: string := "https://api.handwrytten.com/v2/"
  const DefaultTimeout: int := 30
  const MaxRetries: int := 3
  /** `RETRY_BACKOFF`, in whole seconds. */
  const RetryBackoff: int := 1

  /** What one call to `session.request` produced. */
  datatype Outcome =
    | Response(status: int, body: Value, retryAfterHeader: Option<string>)
    | ConnectionError(detail: string)
    | Timeout

  function Pow2(k: nat): (p: nat)
    ensures p >= 1
  {
    if k == 0 then 1 else 2 * Pow2(k - 1)
  }

  /** The keys `_extract_error_message` tries, in order. */
  const MessageKeys: seq<string> := ["message", "error", "errors", "detail", "msg"]

  /** The position of the first of `keys` that `body` has, or `|keys|`. */
  function FirstPresentAt(body: Dict<Value>, keys: seq<string>): (i: nat)
    ensures i <= |keys|
    ensures i < |keys| ==> HasKey(body, keys[i])
    ensures forall j :: 0 <= j < i ==> !HasKey(body, keys[j])
  {
    if keys == [] then 0
    else if HasKey(body, keys[0]) then 0
    else
      var i := FirstPresentAt(body, keys[1..]);
      assert forall j :: 1 <= j < |keys| ==> keys[j] == keys[1..][j - 1];
      1 + i
  }

  /** The first of `keys` that `body` has, if any. */
  function FirstPresent(body: Dict<Value>, keys: seq<string>): (r: Option<string>)
    ensures r.Some? ==> r.value in keys && HasKey(body, r.value)
    ensures r.None? <==> forall k :: k in keys ==> !HasKey(body, k)
    ensures r.Some? ==> exists i :: 0 <= i < |keys| && keys[i] == r.value
                                     && forall j :: 0 <= j < i ==> !HasKey(body, keys[j])
  {
    var i := FirstPresentAt(body, keys);
    if i < |keys| then Some(keys[i]) else None
  }

  /** How `_extract_error_message` renders the value found under a message key. */
  function MessageOf(val: Value): (m: string)
    ensures val.VStr? ==> m == val.s
    ensures val.VList? && val.items != [] ==> m == Str(val.items[0])
    ensures !val.VStr? && !(val.VList? && val.items != []) ==> m == Str(val)
  {
    match val
    case VStr(s) => s
    case VList(items) => if items != [] then Str(items[0]) else Str(val)
    case _ => Str(val)
  }

  /**
   * `_extract_error_message(body, default)`: the value under the first present
   * message key of a dict body; else a non-empty text body cut to 200
   * characters; else the default.
   */
  function ExtractErrorMessage(body: Value, default: string): (m: string)
    ensures body.VDict? && FirstPresent(body.entries, MessageKeys).Some? ==>
              m == MessageOf(Get(body.entries, FirstPresent(body.entries, MessageKeys).value).value)
    ensures body.VStr? && body.s != "" ==> m == body.s[..if |body.s| < 200 then |body.s| else 200]
    ensures (!(body.VDict? && FirstPresent(body.entries, MessageKeys).Some?) && !(body.VStr? && body.s != ""))
              ==> m == default
  {
    if body.VDict? && FirstPresent(body.entries, MessageKeys).Some? then
      MessageOf(Get(body.entries, FirstPresent(body.entries, MessageKeys).value).value)
    else if body.VStr? && body.s != "" then
      body.s[..if |body.s| < 200 then |body.s| else 200]
    else default
  }

  /**
   * `_extract_error_message` as written: the `for key in (...)` loop returns
   * at the first key the dict body has.
   */
  method ExtractMessage(body: Value, default: string) returns (m: string)
    ensures m == ExtractErrorMessage(body, default)
  {
    if body.VDict? {
      var i := 0;
      while i < |MessageKeys|
        invariant 0 <= i <= |MessageKeys|
        invariant forall j :: 0 <= j < i ==> !HasKey(body.entries, MessageKeys[j])
      {
        if HasKey(body.entries, MessageKeys[i]) {
          FirstPresentIs(body.entries, MessageKeys, i);
          return MessageOf(Get(body.entries, MessageKeys[i]).value);
        }
        i := i + 1;
      }
      FirstPresentIs(body.entries, MessageKeys, i);
    }
    if body.VStr? && body.s != "" {
      return body.s[..if |body.s| < 200 then |body.s| else 200];
    }
    return default;
  }

  /** The search stops at the first present key, or finds none after trying them all. */
  lemma {:induction false} FirstPresentIs(body: Dict<Value>, keys: seq<string>, i: nat)
    requires i <= |keys|
    requires i < |keys| ==> HasKey(body, keys[i])
    requires forall j :: 0 <= j < i ==> !HasKey(body, keys[j])
    ensures FirstPresentAt(body, keys) == i
    ensures FirstPresent(body, keys) == if i < |keys| then Some(keys[i]) else None
  {
    if i > 0 {
      FirstPresentIs(body, keys[1..], i - 1);
    }
  }

  /**
   * `_handle_response`: a status of 500 or more is a server error (checked
   * first), 429 a rate-limit error with no extracted message, 401 and 403
   * authentication errors, 404 not found, any other status of 400 or more a bad
   * request; below 400 the body is the result. A truthy `Retry-After` header
   * goes through `int()`, whose `ValueError` escapes.
   */
  function HandleResponse(status: int, body: Value, retryAfterHeader: Option<string>): (r: Result<Value, Raised>)
    ensures status < 400 <==> r.Success?
    ensures r.Success? ==> r.value == body
    ensures r.Failure? && r.error.Api? ==>
              r.error.error.statusCode == Some(status) && r.error.error.responseBody == body
    ensures r.Failure? && r.error.Builtin? ==>
              status == 429 && retryAfterHeader.Some? && ParseInt(retryAfterHeader.value).None?
    ensures r.Failure? && r.error.Api? && status != 429 ==>
              status >= 400 && r.error.error.kind == KindOfStatus(status)
              && r.error.error.message == ExtractErrorMessage(body, FallbackMessage(KindOfStatus(status)))
    ensures r.Failure? && r.error.Api? && status == 429 ==>
              r.error.error.kind == RateLimit && r.error.error.message == RateLimitMessage
  {
    if status >= 500 then
      Failure(Api(NewError(Server, Some(ExtractErrorMessage(body, FallbackMessage(Server))), Some(status), body, None)))
    else if status == 429 then
      if retryAfterHeader.Some? && retryAfterHeader.value != "" then
        match PyInt(VStr(retryAfterHeader.value))
        case Success(n) => Failure(Api(NewError(RateLimit, None, Some(429), body, Some(n))))
        case Failure(e) => Failure(Builtin(e))
      else Failure(Api(NewError(RateLimit, None, Some(429), body, None)))
    else if status == 401 || status == 403 then
      Failure(Api(NewError(Authentication, Some(ExtractErrorMessage(body, FallbackMessage(Authentication))), Some(status), body, None)))
    else if status == 404 then
      Failure(Api(NewError(NotFound, Some(ExtractErrorMessage(body, FallbackMessage(NotFound))), Some(status), body, None)))
    else if status >= 400 then
      Failure(Api(NewError(BadRequest, Some(ExtractErrorMessage(body, FallbackMessage(BadRequest))), Some(status), body, None)))
    else Success(body)
  }

  /** The error class `_handle_response` raises for an error status. */
  function KindOfStatus(status: int): ErrorKind
    requires status >= 400
  {
    if status >= 500 then Server
    else if status == 429 then RateLimit
    else if status == 401 || status == 403 then Authentication
    else if status == 404 then NotFound
    else BadRequest
  }

  /**
   * The default `_handle_response` hands `_extract_error_message` for each
   * class it raises with an extracted message. Two differ from the class's
   * own default: "Server error" and "Authentication failed".
   */
  function FallbackMessage(kind: ErrorKind): string {
    match kind
    case Server => "Server error"
    case Authentication => "Authentication failed"
    case NotFound => "Resource not found"
    case _ => "Bad request"
  }

  /** Classification by status code, in the order the branches check it. */
  lemma Classification(status: int, body: Value, header: Option<string>)
    requires status >= 400
    requires status == 429 && header.Some? && header.value != "" ==> ParseInt(header.value).Some?
    ensures HandleResponse(status, body, header).Failure?
    ensures HandleResponse(status, body, header).error.Api?
    ensures HandleResponse(status, body, header).error.error.kind == KindOfStatus(status)
  {
  }

  /**
   * A rate-limit error keeps the class default message and carries the
   * integer `Retry-After` when the header is truthy, otherwise none.
   */
  lemma RateLimitCarriesRetryAfter(body: Value, header: Option<string>)
    requires header.Some? && header.value != "" ==> ParseInt(header.value).Some?
    ensures var r := HandleResponse(429, body, header);
            r.Failure? && r.error.Api? && r.error.error.kind == RateLimit
            && r.error.error.message == RateLimitMessage
            && r.error.error.retryAfter == (if header.Some? && header.value != "" then ParseInt(header.value) else None)
  {
  }

  /** A `Retry-After` that is not an integer (an HTTP date, say) makes `int()` raise `ValueError`. */
  lemma RetryAfterNotInteger(body: Value, header: string)
    requires header != "" && ParseInt(header).None?
    ensures var r := HandleResponse(429, body, Some(header));
            r.Failure? && r.error.Builtin? && r.error.builtin.ValueError?
  {
  }

  /** How one attempt ends: with a result or error that leaves the loop, or with a retryable error. */
  datatype Step = Finished(result: Result<Value, Raised>) | Retryable(error: ApiError)

  /**
   * The `try` body and its `except` clauses: rate-limit and server errors,
   * connection errors and timeouts may be retried; anything else leaves.
   */
  function AttemptStep(o: Outcome, timeout: int): (s: Step)
    ensures s.Retryable? <==> (o.Response? && (o.status >= 500 || (o.status == 429 && HandleResponse(o.status, o.body, o.retryAfterHeader).error.Api?)))
                                || !o.Response?
    ensures o.Response? && s.Finished? ==> s.result == HandleResponse(o.status, o.body, o.retryAfterHeader)
  {
    match o
    case Response(status, body, header) =>
      (match HandleResponse(status, body, header)
       case Failure(Api(e)) => if e.kind == RateLimit || e.kind == Server then Retryable(e) else Finished(Failure(Api(e)))
       case r => Finished(r))
    case ConnectionError(detail) =>
      Retryable(NewError(Generic, Some("Connection error: " + detail), None, VNone, None))
    case Timeout =>
      Retryable(NewError(Generic, Some("Request timed out after " + IntToString(timeout) + "s"), None, VNone, None))
  }

  /** The sleep after a retryable failure on 0-based attempt k: a truthy `retry_after`, else the backoff. */
  function WaitFor(e: ApiError, k: nat): (w: int)
    ensures e.kind == RateLimit && e.retryAfter.Some? && e.retryAfter.value != 0 ==> w == e.retryAfter.value
    ensures !(e.kind == RateLimit && e.retryAfter.Some? && e.retryAfter.value != 0) ==> w == RetryBackoff * Pow2(k)
  {
    if e.kind == RateLimit && e.retryAfter.Some? && e.retryAfter.value != 0 then e.retryAfter.value
    else RetryBackoff * Pow2(k)
  }

  /** What a whole call produced: its result, the number of attempts and the waits slept. */
  datatype Run = Run(result: Result<Value, Raised>, attempts: nat, waits: seq<int>)

  /** The message `time.sleep` raises for a negative wait. */
  const NegativeSleepMessage := "sleep length must be non-negative"

  /** The session's `User-Agent` header. */
  const UserAgent := "handwrytten-python/1.0.0"

  /** The message Python gives for `raise None`. */
  const RaiseNoneMessage: string := "exceptions must derive from BaseException"

  /**
   * The retry loop from attempt `k` on, where attempt j ends as `steps(j)` and
   * `last` is the error kept from the previous attempt. A retryable error is
   * retried while `k < maxRetries - 1` and raised otherwise; a negative wait
   * makes `time.sleep` raise `ValueError`; leaving the loop without an error
   * to raise is `raise None`.
   */
  function Loop(maxRetries: int, steps: nat -> Step, k: nat, last: Option<ApiError>): (r: Run)
    decreases if k < maxRetries then maxRetries - k else 0
  {
    if k >= maxRetries then
      Run(match last case Some(e) => Failure(Api(e)) case None => Failure(Builtin(TypeError(RaiseNoneMessage))), k, [])
    else
      match steps(k)
      case Finished(res) => Run(res, k + 1, [])
      case Retryable(e) =>
        if k < maxRetries - 1 then
          var w := WaitFor(e, k);
          if w < 0 then Run(Failure(Builtin(ValueError(NegativeSleepMessage))), k + 1, [])
          else
            var rest := Loop(maxRetries, steps, k + 1, Some(e));
            Run(rest.result, rest.attempts, [w] + rest.waits)
        else Run(Failure(Api(e)), k + 1, [])
  }

  /** How each attempt ends, given what the session returns. */
  function StepsOf(outcome: nat -> Outcome, timeout: int): nat -> Step {
    (k: nat) => AttemptStep(outcome(k), timeout)
  }

  /** The whole loop, as `request` and `post_multipart` start it. */
  function Retry(maxRetries: int, timeout: int, outcome: nat -> Outcome): Run {
    Loop(maxRetries, StepsOf(outcome, timeout), 0, None)
  }

  /** Only a response below 400 finishes an attempt successfully. */
  lemma StepSuccess(o: Outcome, timeout: int)
    ensures var s := AttemptStep(o, timeout);
            s.Finished? && s.result.Success? ==> o.Response? && o.status < 400 && s.result.value == o.body
  {
    if o.Response? {
      var h := HandleResponse(o.status, o.body, o.retryAfterHeader);
      assert h.Success? <==> o.status < 400;
    }
  }

  /**
   * From attempt k on, at most `maxRetries - k` more attempts are made, at
   * least one, and one wait separates each attempt from the next.
   */
  lemma {:induction false} LoopBounds(maxRetries: int, steps: nat -> Step, k: nat, last: Option<ApiError>)
    requires k < maxRetries
    ensures var r := Loop(maxRetries, steps, k, last);
            k + 1 <= r.attempts <= maxRetries && |r.waits| == r.attempts - k - 1
    decreases maxRetries - k
  {
    if steps(k).Retryable? && k < maxRetries - 1 && WaitFor(steps(k).error, k) >= 0 {
      LoopBounds(maxRetries, steps, k + 1, Some(steps(k).error));
    }
  }

  /**
   * The attempt bound: with `maxRetries >= 1` between 1 and `maxRetries`
   * attempts are made and one fewer waits slept; otherwise no attempt is made
   * and `raise None` fails with `TypeError`.
   */
  lemma RetryBounds(maxRetries: int, timeout: int, outcome: nat -> Outcome)
    ensures var r := Retry(maxRetries, timeout, outcome);
            if maxRetries >= 1 then 1 <= r.attempts <= maxRetries && |r.waits| == r.attempts - 1
            else r == Run(Failure(Builtin(TypeError(RaiseNoneMessage))), 0, [])
  {
    if maxRetries >= 1 {
      LoopBounds(maxRetries, StepsOf(outcome, timeout), 0, None);
    }
  }

  /** A successful run ends with an attempt that finished successfully. */
  lemma {:induction false} LoopSuccess(maxRetries: int, steps: nat -> Step, k: nat, last: Option<ApiError>)
    ensures var r := Loop(maxRetries, steps, k, last);
            r.result.Success? ==>
              r.attempts >= 1 && steps(r.attempts - 1).Finished? && steps(r.attempts - 1).result == r.result
    decreases if k < maxRetries then maxRetries - k else 0
  {
    if k < maxRetries && steps(k).Retryable? && k < maxRetries - 1 && WaitFor(steps(k).error, k) >= 0 {
      LoopSuccess(maxRetries, steps, k + 1, Some(steps(k).error));
    }
  }

  /**
   * Errors are never swallowed: a successful call is the body of a response
   * below 400 on the last attempt made.
   */
  lemma RetrySuccess(maxRetries: int, timeout: int, outcome: nat -> Outcome)
    ensures var r := Retry(maxRetries, timeout, outcome);
            r.result.Success? ==>
              r.attempts >= 1 && outcome(r.attempts - 1).Response? && outcome(r.attempts - 1).status < 400
              && r.result.value == outcome(r.attempts - 1).body
  {
    var steps := StepsOf(outcome, timeout);
    var r := Loop(maxRetries, steps, 0, None);
    LoopSuccess(maxRetries, steps, 0, None);
    if r.result.Success? {
      var n := r.attempts - 1;
      assert steps(n) == AttemptStep(outcome(n), timeout);
      StepSuccess(outcome(n), timeout);
    }
  }

  /** The wait after attempt `a` is at index `a - k`; that attempt was retryable and the wait is `WaitFor` its error. */
  lemma {:induction false} LoopWaits(maxRetries: int, steps: nat -> Step, k: nat, last: Option<ApiError>)
    ensures var r := Loop(maxRetries, steps, k, last);
            forall a: nat :: k <= a < k + |r.waits| ==>
              steps(a).Retryable? && r.waits[a - k] == WaitFor(steps(a).error, a)
    decreases if k < maxRetries then maxRetries - k else 0
  {
    if k < maxRetries && steps(k).Retryable? && k < maxRetries - 1 && WaitFor(steps(k).error, k) >= 0 {
      var e := steps(k).error;
      LoopWaits(maxRetries, steps, k + 1, Some(e));
      var rest := Loop(maxRetries, steps, k + 1, Some(e));
      var r := Loop(maxRetries, steps, k, last);
      assert r.waits == [WaitFor(e, k)] + rest.waits;
      forall a: nat | k + 1 <= a < k + |r.waits|
        ensures steps(a).Retryable? && r.waits[a - k] == WaitFor(steps(a).error, a)
      {
        assert r.waits[a - k] == rest.waits[a - (k + 1)];
      }
    }
  }

  /**
   * The backoff: wait j follows failed attempt j and is that error's
   * `retry_after` when it is a rate-limit error with a truthy one, otherwise
   * `RETRY_BACKOFF * 2^j`.
   */
  lemma RetryWaits(maxRetries: int, timeout: int, outcome: nat -> Outcome)
    ensures var r := Retry(maxRetries, timeout, outcome);
            forall j: nat :: j < |r.waits| ==>
              AttemptStep(outcome(j), timeout).Retryable?
              && r.waits[j] == WaitFor(AttemptStep(outcome(j), timeout).error, j)
  {
    var steps := StepsOf(outcome, timeout);
    LoopWaits(maxRetries, steps, 0, None);
    forall j: nat | j < |Retry(maxRetries, timeout, outcome).waits|
      ensures AttemptStep(outcome(j), timeout).Retryable?
              && Retry(maxRetries, timeout, outcome).waits[j] == WaitFor(AttemptStep(outcome(j), timeout).error, j)
    {
      assert steps(j) == AttemptStep(outcome(j), timeout);
    }
  }

  /**
   * An authentication, not-found or bad-request response on the first
   * attempt is raised at once: one attempt, no wait.
   */
  lemma NotRetried(maxRetries: int, timeout: int, outcome: nat -> Outcome)
    requires maxRetries >= 1
    requires outcome(0).Response? && 400 <= outcome(0).status < 500 && outcome(0).status != 429
    ensures var r := Retry(maxRetries, timeout, outcome);
            r.attempts == 1 && r.waits == [] && r.result.Failure? && r.result.error.Api?
            && r.result.error.error.kind == KindOfStatus(outcome(0).status)
            && r.result.error.error.kind in {Authentication, NotFound, BadRequest}
  {
    var o := outcome(0);
    Classification(o.status, o.body, o.retryAfterHeader);
    assert StepsOf(outcome, timeout)(0) == AttemptStep(o, timeout);
  }

  /**
   * When every attempt fails in a retryable way with a non-negative wait,
   * all `maxRetries` attempts are made and the last error is raised.
   */
  lemma {:induction false} LoopExhausted(maxRetries: int, steps: nat -> Step, k: nat, last: Option<ApiError>)
    requires k < maxRetries
    requires forall j :: k <= j < maxRetries ==> steps(j).Retryable?
    requires forall j :: k <= j < maxRetries - 1 ==> WaitFor(steps(j).error, j) >= 0
    ensures var r := Loop(maxRetries, steps, k, last);
            r.attempts == maxRetries && r.result == Failure(Api(steps(maxRetries - 1).error))
    decreases maxRetries - k
  {
    if k < maxRetries - 1 {
      LoopExhausted(maxRetries, steps, k + 1, Some(steps(k).error));
    }
  }

  lemma RetryExhausted(maxRetries: int, timeout: int, outcome: nat -> Outcome)
    requires maxRetries >= 1
    requires forall j :: 0 <= j < maxRetries ==> AttemptStep(outcome(j), timeout).Retryable?
    requires forall j :: 0 <= j < maxRetries - 1 ==> WaitFor(AttemptStep(outcome(j), timeout).error, j) >= 0
    ensures var r := Retry(maxRetries, timeout, outcome);
            r.attempts == maxRetries
            && r.result == Failure(Api(AttemptStep(outcome(maxRetries - 1), timeout).error))
  {
    LoopExhausted(maxRetries, StepsOf(outcome, timeout), 0, None);
  }

  /**
   * With the default three attempts and a server error every time, the
   * client sleeps 1 s and 2 s and then raises the third server error.
   */
  lemma ThreeServerErrors(timeout: int, body: Value)
    ensures var r := Retry(MaxRetries, timeout, (k: nat) => Response(503, body, None));
            r.attempts == 3 && r.waits == [1, 2]
            && r.result.Failure? && r.result.error.Api? && r.result.error.error.kind == Server
            && r.result.error.error.statusCode == Some(503)
  {
    var outcome := (k: nat) => Response(503, body, None);
    var steps := StepsOf(outcome, timeout);
    var e := AttemptStep(Response(503, body, None), timeout).error;
    assert forall j: nat :: steps(j) == Retryable(e);
    assert Pow2(1) == 2;
    assert Loop(MaxRetries, steps, 2, Some(e)).waits == [];
    assert Loop(MaxRetries, steps, 1, Some(e)).waits == [2];
  }

  /** `urljoin(base, path.lstrip("/"))` for a path that is plain relative text. */
  predicate PlainPath(p: string) {
    forall i :: 0 <= i < |p| ==> p[i] != ':' && p[i] != '.' && p[i] != '?' && p[i] != '#'
  }

  function LStripChar(s: string, c: char): (r: string)
    ensures |r| <= |s| && r == s[|s| - |r|..]
    ensures r == [] || r[0] != c
    ensures forall i :: 0 <= i < |s| - |r| ==> s[i] == c
  {
    if s != [] && s[0] == c then LStripChar(s[1..], c) else s
  }

  const JsonType := "application/json"

  /** `u` ends in exactly one '/'. */
  predicate OneTrailingSlash(u: string) {
    |u| >= 1 && u[|u| - 1] == '/' && (|u| == 1 || u[|u| - 2] != '/')
  }

  /** `base_url.rstrip("/") + "/"`: the base URL with exactly one trailing slash. */
  function NormalizedBase(b: string): (r: string)
    ensures r == RStripChar(b, '/') + "/"
    ensures OneTrailingSlash(r)
  {
    var t := RStripChar(b, '/');
    assert t == [] || t[|t| - 1] != '/';
    t + "/"
  }

  /** The session headers once the client has set its own four on top of `h`. */
  function WithDefaultHeaders(h: Dict<string>, apiKey: string): Dict<string> {
    Put(Put(Put(Put(h, "Accept", JsonType), "Content-Type", JsonType), "Authorization", apiKey), "User-Agent", UserAgent)
  }

  /** The four client headers win; every other header of `h` is kept. */
  lemma DefaultHeadersLookup(h: Dict<string>, apiKey: string)
    ensures var r := WithDefaultHeaders(h, apiKey);
            Get(r, "Accept") == Some(JsonType) && Get(r, "Content-Type") == Some(JsonType)
            && Get(r, "Authorization") == Some(apiKey) && Get(r, "User-Agent") == Some(UserAgent)
            && forall k :: k != "Accept" && k != "Content-Type" && k != "Authorization" && k != "User-Agent"
                 ==> Get(r, k) == Get(h, k)
  {
    var h1 := Put(h, "Accept", JsonType);
    var h2 := Put(h1, "Content-Type", JsonType);
    var h3 := Put(h2, "Authorization", apiKey);
    assert Get(h3, "Accept") == Some(JsonType);
  }

  class Client {
    var apiKey: string
    var baseUrl: string
    var timeout: int
    var maxRetries: int
    /** The headers of the session every request goes through. */
    var sessionHeaders: Dict<string>

    /** The base URL ends in exactly one '/'. */
    ghost predicate Valid()
      reads this
    {
      OneTrailingSlash(baseUrl)
    }

    /**
     * `HttpClient.__init__`: trailing slashes of the base URL collapse to
     * one, and the JSON, authorisation and user-agent headers are written
     * over the headers of `session or requests.Session()`. Those starting
     * headers are an input: a given session's, or the defaults a fresh
     * session comes with.
     */
    constructor(apiKey: string, baseUrl: string, timeout: int, maxRetries: int, startHeaders: Dict<string>)
      ensures Valid()
      ensures this.baseUrl == RStripChar(baseUrl, '/') + "/"
      ensures this.apiKey == apiKey && this.timeout == timeout && this.maxRetries == maxRetries
      ensures Get(sessionHeaders, "Accept") == Some(JsonType)
      ensures Get(sessionHeaders, "Content-Type") == Some(JsonType)
      ensures Get(sessionHeaders, "Authorization") == Some(apiKey)
      ensures Get(sessionHeaders, "User-Agent") == Some(UserAgent)
      ensures forall k :: k != "Accept" && k != "Content-Type" && k != "Authorization" && k != "User-Agent"
                ==> Get(sessionHeaders, k) == Get(startHeaders, k)
    {
      this.apiKey := apiKey;
      var b := NormalizedBase(baseUrl);
      this.baseUrl := b;
      this.timeout := timeout;
      this.maxRetries := maxRetries;
      this.sessionHeaders := WithDefaultHeaders(startHeaders, apiKey);
      DefaultHeadersLookup(startHeaders, apiKey);
    }

    /** The request URL: the base URL followed by the path without its leading slashes. */
    function Url(path: string): (u: string)
      reads this
      requires PlainPath(path)
      ensures |u| >= |baseUrl| && u[..|baseUrl|] == baseUrl
      ensures u[|baseUrl|..] == LStripChar(path, '/')
    {
      baseUrl + LStripChar(path, '/')
    }

    /**
     * The shared retry loop: attempt after attempt until a result, an error
     * that is not retried, or the last permitted attempt.
     */
    method RetryLoop(outcome: nat -> Outcome) returns (result: Result<Value, Raised>, attempts: nat, waits: seq<int>)
      ensures Run(result, attempts, waits) == Retry(maxRetries, timeout, outcome)
    {
      var attempt: nat := 0;
      var last: Option<ApiError> := None;
      waits := [];
      while attempt < maxRetries
        invariant Retry(maxRetries, timeout, outcome)
          == var rest := Loop(maxRetries, StepsOf(outcome, timeout), attempt, last); Run(rest.result, rest.attempts, waits + rest.waits)
        decreases maxRetries - attempt
      {
        var step := AttemptStep(outcome(attempt), timeout);
        match step {
          case Finished(res) =>
            assert waits + [] == waits;
            return res, attempt + 1, waits;
          case Retryable(e) =>
            last := Some(e);
            if attempt < maxRetries - 1 {
              var w := WaitFor(e, attempt);
              if w < 0 {
                assert waits + [] == waits;
                return Failure(Builtin(ValueError(NegativeSleepMessage))), attempt + 1, waits;
              }
              var rest := Loop(maxRetries, StepsOf(outcome, timeout), attempt + 1, last);
              assert waits + ([w] + rest.waits) == (waits + [w]) + rest.waits;
              waits := waits + [w];
            } else {
              assert waits + [] == waits;
              return Failure(Api(e)), attempt + 1, waits;
            }
        }
        attempt := attempt + 1;
      }
      assert waits + [] == waits;
      result := match last case Some(e) => Failure(Api(e)) case None => Failure(Builtin(TypeError(RaiseNoneMessage)));
      attempts := attempt;
    }

    /**
     * `request`: the URL, the per-request headers (an `Idempotency-Key`
     * exactly when the key is truthy) and the retry loop.
     */
    method Request(httpMethod: string, path: string, idempotencyKey: Option<string>, outcome: nat -> Outcome)
      returns (url: string, headers: Dict<string>, result: Result<Value, Raised>, attempts: nat, waits: seq<int>)
      requires PlainPath(path)
      ensures url == Url(path)
      ensures HasKey(headers, "Idempotency-Key") <==> idempotencyKey.Some? && idempotencyKey.value != ""
      ensures HasKey(headers, "Idempotency-Key") ==> Get(headers, "Idempotency-Key") == idempotencyKey
      ensures |headers| <= 1
      ensures Run(result, attempts, waits) == Retry(maxRetries, timeout, outcome)
    {
      url := Url(path);
      headers := [];
      if idempotencyKey.Some? && idempotencyKey.value != "" {
        headers := Put(headers, "Idempotency-Key", idempotencyKey.value);
      }
      result, attempts, waits := RetryLoop(outcome);
    }

    /**
     * `post_multipart`: the same URL and retry policy; the per-request headers
     * blank out the session's JSON content type so the multipart one applies.
     */
    method PostMultipart(path: string, outcome: nat -> Outcome)
      returns (url: string, headers: Dict<Option<string>>, result: Result<Value, Raised>, attempts: nat, waits: seq<int>)
      requires PlainPath(path)
      ensures url == Url(path)
      ensures headers == [("Content-Type", None)]
      ensures Run(result, attempts, waits) == Retry(maxRetries, timeout, outcome)
    {
      url := Url(path);
      headers := [("Content-Type", None)];
      result, attempts, waits := RetryLoop(outcome);
    }
  }
}
