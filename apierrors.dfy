/**
 * Errors reported by the Hevy API client (internal/api/errors.go) and the
 * mapping from an HTTP status code to one of them (handleResponse in
 * internal/api/client.go). A Go `error` that is nil is None here.
 */
module ApiErrors {
  import opened Common
  import opened NumText

  // Process exit codes for the different kinds of failure.
  const ExitSuccess: int := 0
  const ExitGeneralError: int := 1
  const ExitInvalidArgs: int := 2
  const ExitAuthError: int := 3
  const ExitRateLimited: int := 4
  const ExitNetworkError: int := 5
  const ExitNotFound: int := 6
  const ExitValidationError: int := 7

  datatype APIError = APIError(code: string, message: string, details: string)

  /** APIError.Error: "CODE: message", with " (details)" appended when there are details. */
  function ErrorString(e: APIError): string
  {
    if e.details != "" then e.code + ": " + e.message + " (" + e.details + ")"
    else e.code + ": " + e.message
  }

  /** The rendered message starts with the code and the message and ends with the details in parentheses. */
  lemma ErrorStringShape(e: APIError)
    ensures var r := ErrorString(e);
      |r| == |e.code| + 2 + |e.message| + (if e.details == "" then 0 else |e.details| + 3) &&
      r[..|e.code| + 2] == e.code + ": " &&
      r[|e.code| + 2..|e.code| + 2 + |e.message|] == e.message &&
      (e.details != "" ==> r[|r| - |e.details| - 3..] == " (" + e.details + ")")
  {
  }

  /** The code is recoverable from the rendered message when the code holds no colon. */
  lemma ErrorStringCode(e: APIError)
    requires ':' !in e.code
    ensures ':' in ErrorString(e)
    ensures ErrorString(e)[..IndexOf(ErrorString(e), ':')] == e.code
  {
    var r := ErrorString(e);
    ErrorStringShape(e);
    var rest := r[|e.code| + 1..];
    assert r == e.code + [':'] + rest;
    IndexOfSeparator(e.code, ':', rest);
  }

  /**
   * The rendering does not determine the details: a message that itself ends
   * in a parenthesised text reads the same as a message with details.
   */
  lemma ErrorStringNotInjective()
    ensures ErrorString(APIError("E", "m (d)", "")) == ErrorString(APIError("E", "m", "d"))
  {
  }

  /** APIError.Code. */
  function Code(e: APIError): (c: string)
    ensures |c| <= |ErrorString(e)| && ErrorString(e)[..|c|] == c
  {
    ErrorStringShape(e);
    e.code
  }

  /** APIError.ExitCode: one exit code per known error code, the general one for the rest. */
  function ExitCode(e: APIError): (n: int)
    ensures n == ExitAuthError <==> e.code == "INVALID_API_KEY" || e.code == "UNAUTHORIZED"
    ensures n == ExitRateLimited <==> e.code == "RATE_LIMITED"
    ensures n == ExitNetworkError <==> e.code == "NETWORK_ERROR"
    ensures n == ExitNotFound <==> e.code == "NOT_FOUND"
    ensures n == ExitValidationError <==> e.code == "VALIDATION_ERROR"
    ensures n != ExitSuccess && n != ExitInvalidArgs
    ensures ExitGeneralError <= n <= ExitValidationError
  {
    match e.code
    case "INVALID_API_KEY" => ExitAuthError
    case "UNAUTHORIZED" => ExitAuthError
    case "RATE_LIMITED" => ExitRateLimited
    case "NETWORK_ERROR" => ExitNetworkError
    case "NOT_FOUND" => ExitNotFound
    case "VALIDATION_ERROR" => ExitValidationError
    case _ => ExitGeneralError
  }

  /** The exit code depends on the code alone, never on message or details. */
  lemma ExitCodeOnlyCode(e1: APIError, e2: APIError)
    requires e1.code == e2.code
    ensures ExitCode(e1) == ExitCode(e2)
  {
  }

  /** NewAPIError. */
  function NewAPIError(code: string, message: string): (e: APIError)
    ensures e.details == "" && Code(e) == code
    ensures ErrorString(e) == code + ": " + message
  {
    APIError(code, message, "")
  }

  /** NewAPIErrorWithDetails. */
  function NewAPIErrorWithDetails(code: string, message: string, details: string): (e: APIError)
    ensures Code(e) == code && e.message == message && e.details == details
  {
    APIError(code, message, details)
  }

  // The predefined errors.
  const ErrInvalidAPIKey: APIError := NewAPIErrorWithDetails(
    "INVALID_API_KEY",
    "The provided API key is invalid or expired",
    "Please verify your API key at https://hevy.com/settings?developer")
  const ErrForbidden: APIError := NewAPIErrorWithDetails(
    "FORBIDDEN",
    "Access forbidden",
    "Hevy Pro subscription required for API access")
  const ErrNotFound: APIError := NewAPIError("NOT_FOUND", "Resource not found")
  const ErrRateLimited: APIError := NewAPIError("RATE_LIMITED", "Rate limit exceeded. Please try again later")
  const ErrNetworkError: APIError := NewAPIError("NETWORK_ERROR", "Failed to connect to Hevy API")

  /** The predefined errors carry their codes and exit codes; FORBIDDEN has no code of its own. */
  lemma PredefinedErrors()
    ensures Code(ErrInvalidAPIKey) == "INVALID_API_KEY" && ExitCode(ErrInvalidAPIKey) == ExitAuthError
    ensures Code(ErrForbidden) == "FORBIDDEN" && ExitCode(ErrForbidden) == ExitGeneralError
    ensures Code(ErrNotFound) == "NOT_FOUND" && ExitCode(ErrNotFound) == ExitNotFound
    ensures Code(ErrRateLimited) == "RATE_LIMITED" && ExitCode(ErrRateLimited) == ExitRateLimited
    ensures Code(ErrNetworkError) == "NETWORK_ERROR" && ExitCode(ErrNetworkError) == ExitNetworkError
  {
  }

  /** The rendered message without details from the repository's tests. */
  lemma ErrorStringFixture()
    ensures ErrorString(APIError("TEST_ERROR", "Test message", "")) == "TEST_ERROR: Test message"
  {
  }

  /** The rendered message with details from the repository's tests. */
  lemma ErrorStringDetailsFixture()
    ensures ErrorString(APIError("TEST_ERROR", "Test message", "Additional details here"))
      == "TEST_ERROR: Test message" + " (Additional details here)"
  {
    var code, message, details := "TEST_ERROR", "Test message", "Additional details here";
    assert details[0] == 'A';
    assert ErrorString(APIError(code, message, details)) == (code + ": " + message) + (" (" + details + ")");
    assert code + ": " + message == "TEST_ERROR: Test message";
    assert " (" + details + ")" == " (Additional details here)";
  }

  // ---------------------------------------------------------------- status mapping

  const StatusPrefix: string := "API returned status "

  /** The message of an API_ERROR: the status and the response body. */
  function StatusMessage(status: int, body: string): string
  {
    StatusPrefix + IntToString(status) + ": " + body
  }

  /**
   * handleResponse: success statuses and every other status below 400 give
   * no error; 401, 403, 404 and 429 give the predefined errors; any other
   * status from 400 up gives an API_ERROR naming the status and the body.
   */
  function HandleResponse(status: int, body: string): (r: Option<APIError>)
    ensures r == None <==> status < 400
    ensures status == 401 ==> r == Some(ErrInvalidAPIKey)
    ensures status == 403 ==> r == Some(ErrForbidden)
    ensures status == 404 ==> r == Some(ErrNotFound)
    ensures status == 429 ==> r == Some(ErrRateLimited)
    ensures status >= 400 && status !in {401, 403, 404, 429} ==>
      r.Some? && r.value.code == "API_ERROR" && r.value.details == "" &&
      r.value.message == StatusMessage(status, body)
  {
    match status
    case 200 => None
    case 201 => None
    case 204 => None
    case 401 => Some(ErrInvalidAPIKey)
    case 403 => Some(ErrForbidden)
    case 404 => Some(ErrNotFound)
    case 429 => Some(ErrRateLimited)
    case _ =>
      if status >= 400 then Some(NewAPIError("API_ERROR", StatusMessage(status, body)))
      else None
  }

  /** The status in an API_ERROR message reads back as the status that caused it. */
  lemma HandleResponseStatusReadable(status: int, body: string)
    requires 400 <= status <= MaxInt64 && status !in {401, 403, 404, 429}
    ensures HandleResponse(status, body).Some?
    ensures var m := HandleResponse(status, body).value.message;
      |m| > |StatusPrefix| && m[..|StatusPrefix|] == StatusPrefix &&
      ScanInt(m[|StatusPrefix|..]) == Some(status)
  {
    StatusMessageReadable(status, body);
  }

  lemma StatusMessageReadable(status: int, body: string)
    requires MinInt64 <= status <= MaxInt64
    ensures var m := StatusMessage(status, body);
      |m| > |StatusPrefix| && m[..|StatusPrefix|] == StatusPrefix &&
      ScanInt(m[|StatusPrefix|..]) == Some(status)
  {
    var m := StatusMessage(status, body);
    var rest := ": " + body;
    assert m == StatusPrefix + (IntToString(status) + rest);
    assert m[|StatusPrefix|..] == IntToString(status) + rest;
    ScanIntOfIntToString(status, rest);
  }

  /** The exit code a command ends with after a failed response. */
  lemma HandleResponseExitCodes(status: int, body: string)
    requires status >= 400
    ensures HandleResponse(status, body).Some?
    ensures var e := HandleResponse(status, body).value;
      (status == 401 ==> ExitCode(e) == ExitAuthError) &&
      (status == 404 ==> ExitCode(e) == ExitNotFound) &&
      (status == 429 ==> ExitCode(e) == ExitRateLimited) &&
      (status !in {401, 404, 429} ==> ExitCode(e) == ExitGeneralError)
  {
  }
}
