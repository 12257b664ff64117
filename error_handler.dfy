/**
  The exception handlers add_error_handlers registers on the application
  (app/middleware/error_handler.py, registered at app/main.py:38).  The
  framework picks the handler of the most specific registered class; here
  that choice is a match on the exception kind.
 */
module ErrorHandler {

  import opened Wrappers
  import opened Http

  const DatabaseDetail := "A database error occurred."
  const InternalDetail := "An internal server error occurred."

  /**
    An HTTPException keeps its status and detail; a validation error is
    422 with its error list; a database error and any other exception are
    500 with a fixed text.  Each handler logs one line about the exception
    it received.
   */
  function Handle(e: Exc): (h: Handled)
    ensures h.log.Some? && h.log.value.about == e
    ensures e.HttpError? ==> h.status == e.status && h.content == DetailOf(e.detail)
    ensures e.RequestValidation? ==> h.status == 422 && h.content == ErrorList(e.errors)
    ensures !e.HttpError? && !e.RequestValidation? ==>
      h.status == 500 && h.content == DetailOf(Message(if IsDatabaseError(e) then DatabaseDetail else InternalDetail))
  {
    match e
    case HttpError(status, detail, _) => Handled(status, DetailOf(detail), Some(LogLine("HTTP error occurred: ", e)))
    case RequestValidation(errors) => Handled(422, ErrorList(errors), Some(LogLine("Validation error occurred: ", e)))
    case NoResultFound(_) => Handled(500, DetailOf(Message(DatabaseDetail)), Some(LogLine("Database error occurred: ", e)))
    case DatabaseError(_) => Handled(500, DetailOf(Message(DatabaseDetail)), Some(LogLine("Database error occurred: ", e)))
    case _ => Handled(500, DetailOf(Message(InternalDetail)), Some(LogLine("An error occurred: ", e)))
  }

  /**
    The response built from a result that has passed FastAPI's response
    check (module Responses): a body the route returned goes out with its
    status, an exception goes to its handler.  The JSONResponse the HTTP
    handler builds carries no headers, so those of the exception are not
    sent.
   */
  function Serve<T>(r: HandlerResult<T>): (resp: Response<T>)
    ensures resp.Success? <==> r.Respond?
    ensures r.Respond? ==> resp.status == r.status && resp.body == r.body
    ensures r.Raise? ==> resp.status == Handle(r.error).status && resp.content == Handle(r.error).content
    ensures resp.Failure? ==> resp.headers == []
  {
    match r
    case Respond(status, body) => Success(status, body)
    case Raise(e) => Failure(Handle(e).status, Handle(e).content, [])
  }

  /**
    In the two 500 cases the response does not depend on the exception:
    its text reaches the log only.
   */
  lemma ServerErrorsHideText(e1: Exc, e2: Exc)
    requires (IsDatabaseError(e1) && IsDatabaseError(e2)) || (Unexpected(e1) && Unexpected(e2))
    ensures Handle(e1).status == Handle(e2).status == 500
    ensures Handle(e1).content == Handle(e2).content
    ensures Handle(e1).log.Some? && Handle(e1).log.value.about == e1
  {
  }

  /** Status 500 comes from a database or unexpected exception, or from an HTTPException that asked for it. */
  lemma ServerErrorStatus(e: Exc)
    ensures Handle(e).status == 500 <==> IsDatabaseError(e) || Unexpected(e) || (e.HttpError? && e.status == 500)
    ensures Handle(e).status == 422 <==> e.RequestValidation? || (e.HttpError? && e.status == 422)
  {
  }

  /** The client sees whether the store failed: database and other failures have different details. */
  lemma DatabaseFailureDistinguishable(e1: Exc, e2: Exc)
    requires IsDatabaseError(e1) && Unexpected(e2)
    ensures Handle(e1).content != Handle(e2).content
  {
    assert DatabaseDetail != InternalDetail by {
      assert DatabaseDetail[2] != InternalDetail[2];
    }
  }

  /**
    A NoResultFound that leaves the route unhandled is a database error
    here: 500, never 404.
   */
  lemma UncaughtNoResultIs500(message: string)
    ensures Serve<()>(Raise(NoResultFound(message))) == Failure(500, DetailOf(Message(DatabaseDetail)), [])
  {
  }

  /** The WWW-Authenticate header of a 401 is not part of the response. */
  lemma HeadersNotForwarded<T>(status: int, detail: Detail, headers: seq<Header>)
    ensures Serve<T>(Raise(HttpError(status, detail, headers))) == Failure(status, DetailOf(detail), [])
  {
  }
}
