/**
  The exception handlers setup_error_handlers registers on the NLP agent
  application (async_fastapi_nlp_agent_system/app/middleware/error_handler.py).
  The HTTP and validation handlers log nothing; the other two log and
  answer with one fixed text.
 */
module AsyncErrorHandler {

  import opened Wrappers
  import opened Http

  const InternalDetail := "An internal server error occurred"

  function Handle(e: Exc): (h: Handled)
    ensures e.HttpError? ==> h.status == e.status && h.content == DetailOf(e.detail)
    ensures e.RequestValidation? ==> h.status == 422 && h.content == ErrorList(e.errors)
    ensures !e.HttpError? && !e.RequestValidation? ==> h.status == 500 && h.content == DetailOf(Message(InternalDetail))
    ensures h.log.Some? ==> h.log.value.about == e
  {
    match e
    case HttpError(status, detail, _) => Handled(status, DetailOf(detail), None)
    case RequestValidation(errors) => Handled(422, ErrorList(errors), None)
    case NoResultFound(_) => Handled(500, DetailOf(Message(InternalDetail)), Some(LogLine("Database error occurred: ", e)))
    case DatabaseError(_) => Handled(500, DetailOf(Message(InternalDetail)), Some(LogLine("Database error occurred: ", e)))
    case _ => Handled(500, DetailOf(Message(InternalDetail)), Some(LogLine("Unhandled exception occurred: ", e)))
  }

  /**
    A database failure and any other failure are the same to the client;
    only the log line tells them apart.
   */
  lemma FailuresIndistinguishable(e1: Exc, e2: Exc)
    requires (IsDatabaseError(e1) || Unexpected(e1)) && (IsDatabaseError(e2) || Unexpected(e2))
    ensures Handle(e1).status == Handle(e2).status == 500
    ensures Handle(e1).content == Handle(e2).content
    ensures IsDatabaseError(e1) && Unexpected(e2) ==> Handle(e1).log != Handle(e2).log
  {
  }

  /** Only the 500 handlers log, and they log the exception itself. */
  lemma OnlyFailuresLogged(e: Exc)
    ensures Handle(e).log.Some? <==> IsDatabaseError(e) || Unexpected(e)
    ensures Handle(e).log.Some? ==> Handle(e).log.value.about == e
  {
  }
}
