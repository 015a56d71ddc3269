/**
 * The service's error taxonomy: the seven error variants, the text each one
 * displays, and the HTTP status and message each one is rendered as.
 */
module Errors {

  /** Every variant carries a human-readable message. */
  datatype AppError =
    | DatabaseError(msg: string)
    | BadRequest(msg: string)
    | FeedParsingError(msg: string)
    | SummarizationError(msg: string)
    | NotFound(msg: string)
    | ValidationError(msg: string)
    | InternalServerError(msg: string)

  /** An optional value (a nullable column, an absent request field). */
  datatype Option<T> = None | Some(value: T)

  /** The outcome of a fallible operation. */
  datatype Result<T> = Ok(value: T) | Err(error: AppError) {
    predicate IsFailure() { Err? }
    function PropagateFailure<U>(): Result<U> requires Err? { Err(error) }
    function Extract(): T requires Ok? { value }
  }

  const StatusBadRequest: nat := 400
  const StatusNotFound: nat := 404
  const StatusInternalServerError: nat := 500
  const StatusServiceUnavailable: nat := 503

  /** The fixed text that precedes the message when an error is displayed. */
  function Prefix(e: AppError): string {
    match e
    case DatabaseError(_) => "Database error: "
    case BadRequest(_) => "Bad request: "
    case FeedParsingError(_) => "Feed parsing error: "
    case SummarizationError(_) => "Summarization API error: "
    case NotFound(_) => "Not found: "
    case ValidationError(_) => "Validation error: "
    case InternalServerError(_) => "Internal server error: "
  }

  /** The display text of an error: its prefix followed by its message. */
  function Display(e: AppError): string {
    Prefix(e) + e.msg
  }

  /** The HTTP status an error is answered with. */
  function Status(e: AppError): (code: nat)
    ensures code == StatusBadRequest <==> e.BadRequest? || e.FeedParsingError? || e.ValidationError?
    ensures code == StatusInternalServerError <==> e.DatabaseError? || e.InternalServerError?
    ensures code == StatusNotFound <==> e.NotFound?
    ensures code == StatusServiceUnavailable <==> e.SummarizationError?
  {
    match e
    case DatabaseError(_) => StatusInternalServerError
    case BadRequest(_) => StatusBadRequest
    case FeedParsingError(_) => StatusBadRequest
    case SummarizationError(_) => StatusServiceUnavailable
    case NotFound(_) => StatusNotFound
    case ValidationError(_) => StatusBadRequest
    case InternalServerError(_) => StatusInternalServerError
  }

  /** The status and message of the JSON error response. */
  datatype ErrorResponse = ErrorResponse(status: nat, message: string)

  function IntoResponse(e: AppError): (r: ErrorResponse)
    ensures r.message == e.msg
    ensures r.status in {StatusBadRequest, StatusNotFound, StatusInternalServerError, StatusServiceUnavailable}
    ensures r.status == Status(e)
  {
    ErrorResponse(Status(e), e.msg)
  }

  /** Recovers an error from its display text, trying each prefix in turn. */
  function ParseDisplay(s: string): Option<AppError> {
    if "Database error: " <= s then Some(DatabaseError(s[|"Database error: "|..]))
    else if "Bad request: " <= s then Some(BadRequest(s[|"Bad request: "|..]))
    else if "Feed parsing error: " <= s then Some(FeedParsingError(s[|"Feed parsing error: "|..]))
    else if "Summarization API error: " <= s then Some(SummarizationError(s[|"Summarization API error: "|..]))
    else if "Not found: " <= s then Some(NotFound(s[|"Not found: "|..]))
    else if "Validation error: " <= s then Some(ValidationError(s[|"Validation error: "|..]))
    else if "Internal server error: " <= s then Some(InternalServerError(s[|"Internal server error: "|..]))
    else None
  }

  /** The prefixes start with pairwise distinct letters, so display text is never ambiguous. */
  lemma DisplayRoundTrip(e: AppError)
    ensures ParseDisplay(Display(e)) == Some(e)
  {
    var s := Display(e);
    assert s[0] == Prefix(e)[0];
    assert Prefix(e) <= s;
    assert s[|Prefix(e)|..] == e.msg;
  }

  /** Two errors with the same display text are the same error. */
  lemma DisplayInjective(e1: AppError, e2: AppError)
    requires Display(e1) == Display(e2)
    ensures e1 == e2
  {
    DisplayRoundTrip(e1);
    DisplayRoundTrip(e2);
  }
}
