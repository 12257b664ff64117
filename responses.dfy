/**
  FastAPI's check of a route's return value against its response_model
  (pydantic v1), made after the handler has returned and before anything
  is sent.  A schema whose Config does not set orm_mode reads dicts and
  model instances only; the services return ORM or plain objects, so such
  a schema refuses every row it is given ("value is not a valid dict").
  None passes, the response field being optional, and so does an empty
  list for a List schema.  The ValidationError is raised outside the
  handler's try and reaches the application's handler for Exception, by
  which time the service has already committed the row.

  Only app/schemas/group.py and app/schemas/news.py set orm_mode.
 */
module Responses {

  import opened Http
  import opened ErrorHandler

  /** The application's answer to an unexpected exception: 500 "An internal server error occurred.". */
  function InternalFailure<T>(): Response<T> {
    Failure(500, DetailOf(Message(InternalDetail)), [])
  }

  /**
    What the client receives from a route with a response_model: `readable`
    says whether the schema named `schema` reads the body the handler
    returned.  A raised exception never meets the check.
   */
  function Send<T>(r: HandlerResult<T>, readable: bool, schema: string): (resp: Response<T>)
    ensures r.Raise? ==> resp == Serve(r)
    ensures r.Respond? ==> (readable <==> resp == Serve(r))
    ensures r.Respond? && !readable ==> resp == InternalFailure()
  {
    if r.Respond? && !readable then Serve(Raise(ResponseValidation(schema))) else Serve(r)
  }

  /**
    A refused body cannot be told from a crash of the service: the client
    gets the same response whether the row was stored or not.
   */
  lemma RefusedLooksLikeCrash<T>(status: int, body: T, schema: string, e: Exc)
    requires Unexpected(e)
    ensures Send(Respond(status, body), false, schema) == Serve<T>(Raise(e))
  {
  }

  /**
    A 204 goes out without a body, whatever the handler returned with
    it; any other result is sent as it is.
   */
  function SendNoContent(r: HandlerResult<Deleted>): (resp: Response<Deleted>)
    ensures r.Respond? && r.status == 204 ==> resp == Success(204, NoContent)
    ensures !(r.Respond? && r.status == 204) ==> resp == Serve(r)
  {
    match r
    case Respond(204, _) => Success(204, NoContent)
    case _ => Serve(r)
  }
}
