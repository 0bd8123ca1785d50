/** `GlobalExceptionHandler`: how each exception that reaches the web layer
    becomes an HTTP status and an error envelope. */
module ErrorHandling {
  import opened Wrappers
  import opened Errors
  import opened Responses

  /** One binding error: the field that failed and its default message. */
  datatype FieldError = FieldError(field: string, defaultMessage: string)

  /** The exceptions the handler distinguishes. */
  datatype HandledException =
      /** `HttpRequestMethodNotSupportedException`: the method used and the
          names of the supported ones, when the framework knows them. */
    | MethodNotSupported(httpMethod: string, supportedMethods: Option<seq<string>>)
      /** `HttpMessageNotReadableException`. */
    | MessageNotReadable
      /** `MethodArgumentNotValidException`, with its field errors in order. */
    | MethodArgumentNotValid(fieldErrors: seq<FieldError>)
      /** `ConstraintViolationException` and its message. */
    | ConstraintViolation(message: string)
      /** An exception thrown by the session core. */
    | Thrown(error: AuthError)
      /** Any other exception. */
    | Unexpected

  datatype ErrorResponse = ErrorResponse(status: int, body: ApiResponse<Void>)

  const INTERNAL_ERROR_MESSAGE := "Unexpected server error"

  /** A handler's response is an error envelope with a client or server
      error status. */
  predicate IsErrorResponse(r: ErrorResponse) {
    !r.body.success && r.body.data.None? && 400 <= r.status < 600
  }

  function HandleMethodNotSupported(httpMethod: string, supportedMethods: Option<seq<string>>): (r: ErrorResponse)
    ensures IsErrorResponse(r) && r.status == 405 && r.body.code == "METHOD_NOT_ALLOWED"
    ensures r.body.message == "HTTP method not supported for this endpoint"
    ensures r.body.details.Some? && r.body.details.value.Entries?
    ensures var e := r.body.details.value.entries;
      && e.Keys <= {"method", "supportedMethods"}
      && "method" in e && e["method"] == Text(httpMethod)
      && ("supportedMethods" in e <==> supportedMethods.Some?)
      && (supportedMethods.Some? ==> e["supportedMethods"] == Names(supportedMethods.value))
  {
    var withMethod := map["method" := Text(httpMethod)];
    var details :=
      if supportedMethods.Some? then withMethod["supportedMethods" := Names(supportedMethods.value)]
      else withMethod;
    ErrorResponse(405, Error("METHOD_NOT_ALLOWED", "HTTP method not supported for this endpoint", Some(Entries(details))))
  }

  function HandleMessageNotReadable(): (r: ErrorResponse)
    ensures IsErrorResponse(r) && r.status == 400 && r.body.code == "BAD_REQUEST_BODY"
    ensures r.body.message == "Request body is missing or malformed JSON" && r.body.details.None?
  {
    ErrorResponse(400, Error("BAD_REQUEST_BODY", "Request body is missing or malformed JSON", None))
  }

  /** The i-th of the first n field errors is the last of them on its field. */
  predicate LastOnField(fieldErrors: seq<FieldError>, n: nat, i: nat)
    requires i < n <= |fieldErrors|
  {
    forall j :: i < j < n ==> fieldErrors[j].field != fieldErrors[i].field
  }

  /** `e` collects the first n field errors: its keys are exactly their
      fields, and each maps to the message of its last error among them. */
  ghost predicate CollectsFieldErrors(fieldErrors: seq<FieldError>, n: nat, e: map<string, DetailValue>)
    requires n <= |fieldErrors|
  {
    && (forall f :: f in e <==> exists i :: 0 <= i < n && fieldErrors[i].field == f)
    && (forall i :: 0 <= i < n && LastOnField(fieldErrors, n, i) ==>
          fieldErrors[i].field in e && e[fieldErrors[i].field] == Text(fieldErrors[i].defaultMessage))
  }

  /** The details of a validation failure collect all the field errors. */
  ghost predicate FieldMessages(fieldErrors: seq<FieldError>, e: map<string, DetailValue>) {
    CollectsFieldErrors(fieldErrors, |fieldErrors|, e)
  }

  /** Putting the next error into the map collects one more error: it is
      the last on its field so far, and it hides the earlier ones. */
  lemma CollectNext(fieldErrors: seq<FieldError>, n: nat, e: map<string, DetailValue>)
    requires n < |fieldErrors| && CollectsFieldErrors(fieldErrors, n, e)
    ensures CollectsFieldErrors(fieldErrors, n + 1,
                                e[fieldErrors[n].field := Text(fieldErrors[n].defaultMessage)])
  {
    var e' := e[fieldErrors[n].field := Text(fieldErrors[n].defaultMessage)];
    forall i | 0 <= i < n + 1 && LastOnField(fieldErrors, n + 1, i)
      ensures fieldErrors[i].field in e' && e'[fieldErrors[i].field] == Text(fieldErrors[i].defaultMessage)
    {
      if i < n {
        assert LastOnField(fieldErrors, n, i);
      }
    }
  }

  /** Every error is followed, on its field, by a last one. */
  lemma LastOnFieldExists(fieldErrors: seq<FieldError>, n: nat, j: nat)
    requires j < n <= |fieldErrors|
    ensures exists i :: j <= i < n && fieldErrors[i].field == fieldErrors[j].field && LastOnField(fieldErrors, n, i)
    decreases n - j
  {
    if !LastOnField(fieldErrors, n, j) {
      var k :| j < k < n && fieldErrors[k].field == fieldErrors[j].field;
      LastOnFieldExists(fieldErrors, n, k);
    }
  }

  /** The field errors determine the details map: there is one map only
      that `FieldMessages` accepts. */
  lemma {:induction false} FieldMessagesUnique(fieldErrors: seq<FieldError>, e1: map<string, DetailValue>,
                                               e2: map<string, DetailValue>)
    requires FieldMessages(fieldErrors, e1) && FieldMessages(fieldErrors, e2)
    ensures e1 == e2
  {
    forall f | f in e1
      ensures f in e2 && e1[f] == e2[f]
    {
      var j :| 0 <= j < |fieldErrors| && fieldErrors[j].field == f;
      LastOnFieldExists(fieldErrors, |fieldErrors|, j);
      var i :| j <= i < |fieldErrors| && fieldErrors[i].field == f && LastOnField(fieldErrors, |fieldErrors|, i);
    }
    assert e1.Keys == e2.Keys;
  }

  /** Collects the field errors into a map from field to message; a later
      error on a field replaces an earlier one. */
  method HandleValidation(fieldErrors: seq<FieldError>) returns (r: ErrorResponse)
    ensures IsErrorResponse(r) && r.status == 400 && r.body.code == "VALIDATION_ERROR"
    ensures r.body.message == "Request validation failed"
    ensures r.body.details.Some? && r.body.details.value.Entries?
    ensures FieldMessages(fieldErrors, r.body.details.value.entries)
  {
    var messages: map<string, DetailValue> := map[];
    var n := 0;
    while n < |fieldErrors|
      invariant n <= |fieldErrors|
      invariant CollectsFieldErrors(fieldErrors, n, messages)
    {
      CollectNext(fieldErrors, n, messages);
      messages := messages[fieldErrors[n].field := Text(fieldErrors[n].defaultMessage)];
      n := n + 1;
    }
    r := ErrorResponse(400, Error("VALIDATION_ERROR", "Request validation failed", Some(Entries(messages))));
  }

  function HandleConstraintViolation(message: string): (r: ErrorResponse)
    ensures IsErrorResponse(r) && r.status == 400 && r.body.code == "CONSTRAINT_VIOLATION"
    ensures r.body.message == "Request parameter validation failed" && r.body.details == Some(Plain(message))
  {
    ErrorResponse(400, Error("CONSTRAINT_VIOLATION", "Request parameter validation failed", Some(Plain(message))))
  }

  /** The fallback handler: status 500 and a fixed message, whatever the
      exception said. */
  function HandleAny(): (r: ErrorResponse)
    ensures IsErrorResponse(r) && r.status == 500 && r.body.code == "INTERNAL_ERROR"
    ensures r.body.message == INTERNAL_ERROR_MESSAGE && r.body.details.None?
  {
    ErrorResponse(500, Error("INTERNAL_ERROR", INTERNAL_ERROR_MESSAGE, None))
  }

  /** The five business handlers, and the fallback for the one core
      exception that is not a business exception. A business handler passes
      the exception's message through unchanged. */
  function HandleAuthError(e: AuthError): (r: ErrorResponse)
    ensures IsErrorResponse(r) && r.body.details.None?
    ensures e.UserNotFound? ==> r == HandleAny()
    ensures !e.UserNotFound? ==> r.body.message == e.Message()
    ensures e.InvalidCredentials? ==> r.status == 401 && r.body.code == "INVALID_CREDENTIALS"
    ensures e.ProjectNotFound? ==> r.status == 404 && r.body.code == "PROJECT_NOT_FOUND"
    ensures e.ProjectAccessDenied? ==> r.status == 403 && r.body.code == "PROJECT_ACCESS_DENIED"
    ensures e.EmailAlreadyUsed? ==> r.status == 409 && r.body.code == "EMAIL_ALREADY_USED"
    ensures e.InvalidRefreshToken? ==> r.status == 401 && r.body.code == "INVALID_REFRESH_TOKEN"
  {
    match e
    case InvalidCredentials => ErrorResponse(401, Error("INVALID_CREDENTIALS", e.Message(), None))
    case ProjectNotFound(_) => ErrorResponse(404, Error("PROJECT_NOT_FOUND", e.Message(), None))
    case ProjectAccessDenied(_) => ErrorResponse(403, Error("PROJECT_ACCESS_DENIED", e.Message(), None))
    case EmailAlreadyUsed => ErrorResponse(409, Error("EMAIL_ALREADY_USED", e.Message(), None))
    case InvalidRefreshToken(_) => ErrorResponse(401, Error("INVALID_REFRESH_TOKEN", e.Message(), None))
    case UserNotFound => HandleAny()
  }

  /** Picks the handler for an exception, as the framework does by
      exception class. Every exception gets an error envelope. */
  method Handle(ex: HandledException) returns (r: ErrorResponse)
    ensures IsErrorResponse(r)
    ensures ex.MethodNotSupported? ==> r == HandleMethodNotSupported(ex.httpMethod, ex.supportedMethods)
    ensures ex.MessageNotReadable? ==> r == HandleMessageNotReadable()
    ensures ex.MethodArgumentNotValid? ==>
      && r.status == 400
      && r.body.details.Some? && r.body.details.value.Entries?
      && r.body == Error("VALIDATION_ERROR", "Request validation failed", r.body.details)
      && FieldMessages(ex.fieldErrors, r.body.details.value.entries)
    ensures ex.ConstraintViolation? ==> r == HandleConstraintViolation(ex.message)
    ensures ex.Thrown? ==> r == HandleAuthError(ex.error)
    ensures ex.Unexpected? ==> r == HandleAny()
  {
    match ex
    case MethodNotSupported(m, supported) => r := HandleMethodNotSupported(m, supported);
    case MessageNotReadable => r := HandleMessageNotReadable();
    case MethodArgumentNotValid(errors) => r := HandleValidation(errors);
    case ConstraintViolation(message) => r := HandleConstraintViolation(message);
    case Thrown(e) => r := HandleAuthError(e);
    case Unexpected => r := HandleAny();
  }

  /** A refresh token rejected for different reasons gets different
      messages: the client can tell the three checks of `consume` and the
      missing cookie apart, although all four share status and code. */
  lemma RefreshRejectionsAreDistinguishable(reason1: string, reason2: string)
    requires reason1 != reason2
    ensures HandleAuthError(InvalidRefreshToken(reason1)).status == HandleAuthError(InvalidRefreshToken(reason2)).status
    ensures HandleAuthError(InvalidRefreshToken(reason1)).body.code == HandleAuthError(InvalidRefreshToken(reason2)).body.code
    ensures HandleAuthError(InvalidRefreshToken(reason1)) != HandleAuthError(InvalidRefreshToken(reason2))
  {
  }
}
