/**
 * Uniform error responses (api/middleware/error_handler.py): how an
 * exception that escaped a handler becomes the JSON body
 * {"success": false, "error": {type, detail, status_code[, errors]}}.
 */
module ErrorHandler {
  import opened Wrappers

  /** FastAPI's HTTPException: a status code and a detail text. */
  datatype HttpException = HttpException(statusCode: int, detail: string)

  /**
   * What the handler can observe of an exception: its optional status_code,
   * detail and errors attributes, and its text (`str(exception)`).
   */
  datatype Thrown = Thrown(statusCode: Option<int>, detail: Option<string>, text: string, errors: Option<seq<string>>)

  /** An HTTPException as the handler sees it. */
  function FromHttp(e: HttpException): (t: Thrown)
    ensures t.statusCode == Some(e.statusCode) && t.detail == Some(e.detail) && t.errors.None?
  {
    Thrown(Some(e.statusCode), Some(e.detail), e.detail, None)
  }

  datatype ErrorBody = ErrorBody(errorType: string, detail: string, statusCode: int, errors: Option<seq<string>>)

  /** A JSON response; `success` is always false for these bodies. */
  datatype ErrorResponse = ErrorResponse(status: int, success: bool, error: ErrorBody)

  const InternalServerError: string := "Internal Server Error"

  /** The status codes that have their own error type. */
  const NamedStatuses: map<int, string> := map[
    400 := "Bad Request", 401 := "Unauthorized", 403 := "Forbidden", 404 := "Not Found",
    422 := "Validation Error", 429 := "Too Many Requests"]

  /** The error type for a status code; codes without a name keep the server-error type. */
  function ErrorType(statusCode: int): (t: string)
    ensures statusCode in NamedStatuses ==> t == NamedStatuses[statusCode]
    ensures statusCode !in NamedStatuses ==> t == InternalServerError
  {
    if statusCode == 400 then "Bad Request"
    else if statusCode == 401 then "Unauthorized"
    else if statusCode == 403 then "Forbidden"
    else if statusCode == 404 then "Not Found"
    else if statusCode == 422 then "Validation Error"
    else if statusCode == 429 then "Too Many Requests"
    else InternalServerError
  }

  /** Different named statuses have different types, and none is the server-error type. */
  lemma {:induction false} ErrorTypesDistinct(a: int, b: int)
    requires a in NamedStatuses && b in NamedStatuses && a != b
    ensures ErrorType(a) != ErrorType(b)
    ensures ErrorType(a) != InternalServerError
  {
  }

  /**
   * create_error_response: status 500 unless the exception carries a status
   * code; detail from the detail attribute, else the exception's text; the
   * errors key only when the exception has one.
   */
  function CreateErrorResponse(e: Thrown): (r: ErrorResponse)
    ensures !r.success
    ensures r.status == e.statusCode.GetOr(500) && r.error.statusCode == r.status
    ensures r.error.errorType == ErrorType(r.status)
    ensures r.error.detail == e.detail.GetOr(e.text)
    ensures r.error.errors == e.errors
  {
    var status := e.statusCode.GetOr(500);
    ErrorResponse(status, false, ErrorBody(ErrorType(status), e.detail.GetOr(e.text), status, e.errors))
  }

  /** An HTTPException keeps its code and detail in the response. */
  lemma {:induction false} HttpExceptionResponse(e: HttpException)
    ensures CreateErrorResponse(FromHttp(e)).status == e.statusCode
    ensures CreateErrorResponse(FromHttp(e)).error.detail == e.detail
    ensures CreateErrorResponse(FromHttp(e)).error.errors.None?
  {
  }

  /** An exception without a status code answers 500 "Internal Server Error" with its own text. */
  lemma {:induction false} PlainExceptionResponse(text: string)
    ensures CreateErrorResponse(Thrown(None, None, text, None)) ==
      ErrorResponse(500, false, ErrorBody(InternalServerError, text, 500, None))
  {
  }

  /** What the rest of the stack did with the request. */
  datatype Downstream = Responded(status: int) | Threw(e: Thrown)

  /** What the middleware sends back. */
  datatype Outgoing = PassedThrough(status: int) | Converted(response: ErrorResponse)

  /** ErrorHandlerMiddleware.dispatch: passes responses through and turns exceptions into error responses. */
  function Dispatch(d: Downstream): (r: Outgoing)
    ensures d.Responded? ==> r == PassedThrough(d.status)
    ensures d.Threw? ==> r == Converted(CreateErrorResponse(d.e))
  {
    match d
    case Responded(status) => PassedThrough(status)
    case Threw(e) => Converted(CreateErrorResponse(e))
  }

  const InvalidRequestParameters: string := "Invalid request parameters"

  /** validation_exception_handler: always 422 with the validation errors. */
  function ValidationExceptionHandler(errors: seq<string>): (r: ErrorResponse)
    ensures r.status == 422 && !r.success
    ensures r.error == ErrorBody("Validation Error", InvalidRequestParameters, 422, Some(errors))
  {
    ErrorResponse(422, false, ErrorBody("Validation Error", InvalidRequestParameters, 422, Some(errors)))
  }

  /** The validation handler answers as the general handler would for a 422 exception carrying the errors. */
  lemma {:induction false} ValidationAgreesWithGeneral(errors: seq<string>, text: string)
    ensures ValidationExceptionHandler(errors) ==
      CreateErrorResponse(Thrown(Some(422), Some(InvalidRequestParameters), text, Some(errors)))
  {
  }
}
