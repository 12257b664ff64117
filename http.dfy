/**
  What a route handler deals in: the exceptions that reach it or that it
  raises, the outcome of the service call it makes, and its own result.
  An exception whose text is built from another one (f"...{e}") keeps that
  exception as its cause rather than its rendering as a string.
 */
module Http {

  import opened Wrappers
  import opened Validation

  datatype Header = Header(name: string, value: string)

  /** The detail of an HTTPException: a fixed text, or a prefix followed by str() of a cause. */
  datatype Detail = Message(text: string) | WithCause(prefix: string, cause: Exc)

  /** The exception kinds the handlers tell apart, most specific first. */
  datatype Exc =
    | HttpError(status: int, detail: Detail, headers: seq<Header>)
    | RequestValidation(errors: seq<FieldError>)
    | NoResultFound(message: string)
    | DatabaseError(message: string)
    | AttributeError(owner: string, attribute: string)
    // pydantic's ValidationError for a value the route returned, raised by FastAPI after the handler
    | ResponseValidation(schema: string)
    | OtherError(message: string)

  /** SQLAlchemyError and its subclasses (NoResultFound is one). */
  predicate IsDatabaseError(e: Exc) {
    e.NoResultFound? || e.DatabaseError?
  }

  /** Neither an HTTP, a validation nor a database exception: what the Exception handlers receive. */
  predicate Unexpected(e: Exc) {
    !e.HttpError? && !e.RequestValidation? && !IsDatabaseError(e)
  }

  /** HTTPException(status_code=404, detail=detail), as the handlers raise it. */
  function NotFound(detail: string): Exc {
    HttpError(404, Message(detail), [])
  }

  /** What the awaited service call gave the handler. */
  datatype Outcome<T> = Returned(value: T) | Raised(error: Exc)

  /** What the handler gives the framework: a body with the route's status, or an exception. */
  datatype HandlerResult<T> = Respond(status: int, body: T) | Raise(error: Exc)

  /** `if not x: raise HTTPException(404, detail)`, right after a get call. */
  function RaiseIfMissing<T>(o: Outcome<Option<T>>, detail: string): (r: Outcome<T>)
    ensures r.Returned? <==> o.Returned? && o.value.Some?
    ensures r.Returned? ==> o.value == Some(r.value)
    ensures o.Raised? ==> r == Raised(o.error)
    ensures r.Raised? && o.Returned? ==> r.error == NotFound(detail)
  {
    match o
    case Raised(e) => Raised(e)
    case Returned(None) => Raised(NotFound(detail))
    case Returned(Some(v)) => Returned(v)
  }

  /** A handler body with no try: the value goes out with the route's status, an exception propagates. */
  function Unguarded<T>(o: Outcome<T>, okStatus: int): (r: HandlerResult<T>)
    ensures o.Returned? <==> r.Respond?
    ensures r.Respond? ==> r == Respond(okStatus, o.value)
    ensures r.Raise? ==> r.error == o.error
  {
    match o
    case Returned(v) => Respond(okStatus, v)
    case Raised(e) => Raise(e)
  }

  /**
    try: ... except Exception as e: raise HTTPException(status, f"{prefix}{e}").
    Every exception is caught, an HTTPException raised inside the try included.
   */
  function ExceptAny<T>(o: Outcome<T>, okStatus: int, status: int, prefix: string): (r: HandlerResult<T>)
    ensures o.Returned? <==> r.Respond?
    ensures r.Respond? ==> r.status == okStatus && r.body == o.value
    ensures r.Raise? ==> r.error.HttpError? && r.error.status == status && r.error.headers == []
    ensures r.Raise? ==> r.error.detail.WithCause? && r.error.detail.prefix == prefix && r.error.detail.cause == o.error
  {
    match o
    case Returned(v) => Respond(okStatus, v)
    case Raised(e) => Raise(HttpError(status, WithCause(prefix, e), []))
  }

  /**
    try: ... except NoResultFound: raise HTTPException(404, notFound)
    except Exception as e: raise HTTPException(status, f"{prefix}{e}").
   */
  function ExceptNoResultThenAny<T>(o: Outcome<T>, okStatus: int, notFound: string, status: int, prefix: string): (r: HandlerResult<T>)
    ensures o.Returned? <==> r.Respond?
    ensures r.Respond? ==> r.status == okStatus && r.body == o.value
    ensures r.Raise? ==> r.error.HttpError? && r.error.headers == []
    ensures r.Raise? ==> (r.error.detail.Message? <==> o.error.NoResultFound?)
    ensures r.Raise? && o.error.NoResultFound? ==> r.error == NotFound(notFound)
    ensures r.Raise? && !o.error.NoResultFound? ==>
      r.error.status == status && r.error.detail.prefix == prefix && r.error.detail.cause == o.error
  {
    match o
    case Returned(v) => Respond(okStatus, v)
    case Raised(NoResultFound(_)) => Raise(NotFound(notFound))
    case Raised(e) => Raise(HttpError(status, WithCause(prefix, e), []))
  }

  /** try: ... except NoResultFound: raise HTTPException(404, notFound); anything else propagates. */
  function ExceptNoResult<T>(o: Outcome<T>, okStatus: int, notFound: string): (r: HandlerResult<T>)
    ensures o.Returned? <==> r.Respond?
    ensures r.Respond? ==> r.status == okStatus && r.body == o.value
    ensures r.Raise? ==> (r.error == o.error <==> !o.error.NoResultFound?)
    ensures r.Raise? && o.error.NoResultFound? ==> r.error == NotFound(notFound)
  {
    match o
    case Returned(v) => Respond(okStatus, v)
    case Raised(NoResultFound(_)) => Raise(NotFound(notFound))
    case Raised(e) => Raise(e)
  }

  /** The handler's own return value once the awaited call has completed. */
  function Then<T, U>(o: Outcome<T>, u: U): (r: Outcome<U>)
    ensures o.Returned? <==> r.Returned?
    ensures r.Returned? ==> r.value == u
    ensures r.Raised? ==> r.error == o.error
  {
    match o
    case Returned(_) => Returned(u)
    case Raised(e) => Raised(e)
  }

  /**
    `if not x: raise HTTPException(404, detail)` placed after the try
    block rather than inside it, so that no except clause sees it.
   */
  function RaiseIfMissingAfter<T>(r: HandlerResult<Option<T>>, detail: string): (r': HandlerResult<T>)
    ensures r'.Respond? <==> r.Respond? && r.body.Some?
    ensures r'.Respond? ==> r'.status == r.status && r.body == Some(r'.body)
    ensures r.Raise? ==> r' == Raise(r.error)
    ensures r'.Raise? && r.Respond? ==> r'.error == NotFound(detail)
  {
    match r
    case Raise(e) => Raise(e)
    case Respond(_, None) => Raise(NotFound(detail))
    case Respond(status, Some(v)) => Respond(status, v)
  }

  /** The body of a delete route: nothing, or a detail message. */
  datatype Deleted = NoContent | DeletedDetail(detail: string)

  /** The JSON body of an error response: {"detail": ...}. */
  datatype ErrorBody = DetailOf(detail: Detail) | ErrorList(errors: seq<FieldError>)

  /** A log record: its fixed prefix and the exception whose text follows it. */
  datatype LogLine = LogLine(prefix: string, about: Exc)

  /** What an exception handler produces: a JSONResponse and what it logged. */
  datatype Handled = Handled(status: int, content: ErrorBody, log: Option<LogLine>)

  /** What the client receives. */
  datatype Response<T> = Success(status: int, body: T) | Failure(status: int, content: ErrorBody, headers: seq<Header>)
}
