/**
 * Exceptions as the translation API sees them, and `get_error_response`:
 * the choice between the administrator's detail and a user-friendly
 * message, and the HTTP status of the error.
 *
 * An exception is known by its class name (`type(error).__name__`), its
 * text (`str(error)`), and the three exception families whose `isinstance`
 * tests decide the status.
 */
module Errors {
  import opened Options

  /** The exception families tested by `isinstance` in `get_error_response`. */
  datatype ExceptionKind = JsonDecodeKind | TimeoutKind | RequestKind

  datatype PyException = PyException(typeName: string, text: string, kinds: set<ExceptionKind>)

  /** `ValueError(text)`, which the views raise for a request that fails validation. */
  function ValueError(text: string): PyException {
    PyException("ValueError", text, {})
  }

  /** `json.JSONDecodeError`, raised by `json.loads` on a malformed body. */
  function JsonDecodeError(text: string): PyException {
    PyException("JSONDecodeError", text, {JsonDecodeKind})
  }

  /** The `TimeoutError` raised without arguments by `future.result(timeout=...)`. */
  function TimeoutError(): PyException {
    PyException("TimeoutError", "", {TimeoutKind})
  }

  /** The module's own `TranslationError`, a plain `Exception` subclass. */
  function TranslationError(text: string): PyException {
    PyException("TranslationError", text, {})
  }

  /** `requests.exceptions.ConnectionError`, a `RequestException`. */
  function RequestsConnectionError(text: string): PyException {
    PyException("ConnectionError", text, {RequestKind})
  }

  /** The built-in `ConnectionError`, an `OSError` unrelated to `requests`. */
  function BuiltinConnectionError(text: string): PyException {
    PyException("ConnectionError", text, {})
  }

  /** `requests.exceptions.ReadTimeout`: a `RequestException`, not a `TimeoutError`. */
  function RequestsReadTimeout(text: string): PyException {
    PyException("ReadTimeout", text, {RequestKind})
  }

  /** The result of a call that either returns a value or raises an exception. */
  datatype Outcome<T> = Ok(value: T) | Raised(error: PyException)

  /** USER_FRIENDLY_MESSAGES, keyed by exception class name. */
  function UserFriendlyMessages(typeName: string): Option<string> {
    match typeName
    case "RequestException" => Some("Service temporairement indisponible. Veuillez réessayer plus tard.")
    case "JSONDecodeError" => Some("Format de données invalide.")
    case "ValueError" => Some("Les données fournies sont incorrectes.")
    case "TimeoutError" => Some("Le service met trop de temps à répondre. Veuillez réessayer.")
    case "TranslationError" => Some("La traduction a échoué. Veuillez réessayer.")
    case "ConnectionError" => Some("Impossible de se connecter au service. Veuillez réessayer plus tard.")
    case "Exception" => Some("Une erreur inattendue est survenue. Veuillez réessayer plus tard.")
    case _ => None
  }

  /** The message shown to a user for an exception class: its entry, else the entry of "Exception". */
  function FriendlyMessage(typeName: string): string {
    UserFriendlyMessages(typeName).GetOr(UserFriendlyMessages("Exception").value)
  }

  /** The value of a request header; the names are stored lower-cased, as header lookup ignores case. */
  function Header(headers: map<string, string>, name: string): Option<string> {
    if name in headers then Some(headers[name]) else None
  }

  /** Both debugging headers present and matching: `X-Admin-Token` is the token, `X-Debug-Mode` is "true". */
  predicate IsAdmin(headers: map<string, string>, adminToken: string) {
    Header(headers, "x-admin-token") == Some(adminToken) && Header(headers, "x-debug-mode") == Some("true")
  }

  /** The body of an error response, whose "status" field is always "error". */
  datatype ErrorBody =
    | AdminDetail(message: string, errorType: string)
    | UserMessage(message: string)

  datatype ErrorResponse = ErrorResponse(body: ErrorBody, status: int)

  /** The status of an error: the first family that matches, in the order 400, 408, 503, else 500. */
  function StatusCode(e: PyException): (status: int)
    ensures status in {400, 408, 503, 500}
    ensures status == 400 <==> JsonDecodeKind in e.kinds
    ensures status == 408 <==> JsonDecodeKind !in e.kinds && TimeoutKind in e.kinds
    ensures status == 503 <==> JsonDecodeKind !in e.kinds && TimeoutKind !in e.kinds && RequestKind in e.kinds
  {
    if JsonDecodeKind in e.kinds then 400
    else if TimeoutKind in e.kinds then 408
    else if RequestKind in e.kinds then 503
    else 500
  }

  /** `get_error_response`, without the traceback and timestamp of the administrator's detail. */
  function GetErrorResponse(e: PyException, headers: map<string, string>, adminToken: string): (r: ErrorResponse)
    ensures r.status == StatusCode(e)
    ensures r.body.AdminDetail? <==> IsAdmin(headers, adminToken)
  {
    var body :=
      if IsAdmin(headers, adminToken) then AdminDetail(e.text, e.typeName)
      else UserMessage(FriendlyMessage(e.typeName));
    ErrorResponse(body, StatusCode(e))
  }

  /** The entry of "Exception", used for every class name the table does not list. */
  lemma FallbackMessage()
    ensures UserFriendlyMessages("Exception") == Some("Une erreur inattendue est survenue. Veuillez réessayer plus tard.")
  {
  }

  /** A class name the table does not list gets the generic message. */
  lemma FriendlyMessageFallback(typeName: string)
    requires UserFriendlyMessages(typeName).None?
    ensures FriendlyMessage(typeName) == "Une erreur inattendue est survenue. Veuillez réessayer plus tard."
  {
    FallbackMessage();
  }

  /** The administrator sees the exception's own class name and text; anybody else sees the table's message. */
  lemma ErrorBodyContents(e: PyException, headers: map<string, string>, adminToken: string)
    ensures IsAdmin(headers, adminToken) ==>
      GetErrorResponse(e, headers, adminToken).body == AdminDetail(e.text, e.typeName)
    ensures !IsAdmin(headers, adminToken) ==>
      GetErrorResponse(e, headers, adminToken).body == UserMessage(FriendlyMessage(e.typeName))
  {
  }

  /** A missing header, a token other than ADMIN_TOKEN, or a debug flag other than "true" (say "True") hides the detail. */
  lemma AdminNeedsBothHeaders(headers: map<string, string>, adminToken: string)
    ensures "x-admin-token" !in headers ==> !IsAdmin(headers, adminToken)
    ensures "x-debug-mode" !in headers ==> !IsAdmin(headers, adminToken)
    ensures Header(headers, "x-debug-mode") != Some("true") ==> !IsAdmin(headers, adminToken)
    ensures Header(headers, "x-admin-token") != Some(adminToken) ==> !IsAdmin(headers, adminToken)
    ensures IsAdmin(headers["x-debug-mode" := "True"], adminToken) == false
  {
  }

  /** A request that fails validation is answered with status 500, not 400. */
  lemma ValidationFailureIsServerError(reason: string, headers: map<string, string>, adminToken: string)
    ensures GetErrorResponse(ValueError(reason), headers, adminToken).status == 500
    ensures !IsAdmin(headers, adminToken) ==>
      GetErrorResponse(ValueError(reason), headers, adminToken).body ==
      UserMessage("Les données fournies sont incorrectes.")
    ensures IsAdmin(headers, adminToken) ==>
      GetErrorResponse(ValueError(reason), headers, adminToken).body == AdminDetail(reason, "ValueError")
  {
  }

  /** A malformed body is answered with status 400 and the data-format message. */
  lemma JsonDecodeErrorResponse(text: string, headers: map<string, string>, adminToken: string)
    requires !IsAdmin(headers, adminToken)
    ensures GetErrorResponse(JsonDecodeError(text), headers, adminToken) ==
      ErrorResponse(UserMessage("Format de données invalide."), 400)
  {
  }

  /** A translation that outlives its time limit is answered with status 408. */
  lemma TimeoutErrorResponse(headers: map<string, string>, adminToken: string)
    requires !IsAdmin(headers, adminToken)
    ensures GetErrorResponse(TimeoutError(), headers, adminToken) ==
      ErrorResponse(UserMessage("Le service met trop de temps à répondre. Veuillez réessayer."), 408)
  {
  }

  /** A failed translation is answered with status 500. */
  lemma TranslationErrorResponse(text: string, headers: map<string, string>, adminToken: string)
    requires !IsAdmin(headers, adminToken)
    ensures GetErrorResponse(TranslationError(text), headers, adminToken) ==
      ErrorResponse(UserMessage("La traduction a échoué. Veuillez réessayer."), 500)
  {
  }

  /**
   * The message is chosen by class name and the status by family, so the
   * two `ConnectionError` classes share a message but not a status.
   */
  lemma ConnectionErrorsShareMessageNotStatus(text: string, headers: map<string, string>, adminToken: string)
    ensures GetErrorResponse(RequestsConnectionError(text), headers, adminToken).body ==
      GetErrorResponse(BuiltinConnectionError(text), headers, adminToken).body
    ensures GetErrorResponse(RequestsConnectionError(text), headers, adminToken).status == 503
    ensures GetErrorResponse(BuiltinConnectionError(text), headers, adminToken).status == 500
  {
  }

  /**
   * A read timeout of `requests` is a request failure, not a `TimeoutError`:
   * it gets status 503, and, its class name not being in the table, the
   * generic message.
   */
  lemma ReadTimeoutIsRequestFailure(text: string, headers: map<string, string>, adminToken: string)
    requires !IsAdmin(headers, adminToken)
    ensures GetErrorResponse(RequestsReadTimeout(text), headers, adminToken) ==
      ErrorResponse(UserMessage("Une erreur inattendue est survenue. Veuillez réessayer plus tard."), 503)
  {
  }
}
