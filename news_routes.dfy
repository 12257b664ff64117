/**
  The news routes (app/api/v1/endpoints/news.py).  Each service call sits
  in a try whose `except Exception` answers 400 with the text of whatever
  was raised, an HTTPException raised inside that try included.
 */
module NewsRoutes {

  import opened Wrappers
  import opened Http
  import opened ErrorHandler
  import opened Responses
  import opened ApiContract
  import S = NewsService

  type News = S.News

  const NotFoundDetail := "News not found"

  /** POST /: 201 with the created row; a failing create is 400 "Error creating news: ...". */
  function CreateNews(o: Outcome<News>): (r: HandlerResult<News>)
    ensures CreateConforms(o, r)
    ensures FailureReported(o, r, 400, "Error creating news: ")
  {
    ExceptAny(o, 201, 400, "Error creating news: ")
  }

  /**
    GET by key, as written: 200 with the row when present.  The 404 for
    an absent key is raised inside the try, so the client gets 400 with
    a detail that wraps that 404.
   */
  function GetNews(o: Outcome<Option<News>>): (r: HandlerResult<News>)
    ensures o.Returned? && o.value.Some? ==> Serve(r) == Success(200, o.value.value)
    ensures o == Returned(None) ==> Serve(r) == Failure(400, DetailOf(WithCause("Error retrieving news: ", NotFound(NotFoundDetail))), [])
    ensures FailureReported(o, r, 400, "Error retrieving news: ")
  {
    ExceptAny(RaiseIfMissing(o, NotFoundDetail), 200, 400, "Error retrieving news: ")
  }

  /** An absent key is answered 400, not the 404 the route's tests expect. */
  lemma GetNewsAbsentIs400()
    ensures Serve(GetNews(Returned(None))).status == 400
    ensures !GetConforms(Returned(None), GetNews(Returned(None)), NotFoundDetail)
  {
  }

  /** GET by key with the not-found check after the try: the behaviour the tests expect. */
  function GetNewsCorrected(o: Outcome<Option<News>>): (r: HandlerResult<News>)
    ensures GetConforms(o, r, NotFoundDetail)
    ensures FailureReported(o, r, 400, "Error retrieving news: ")
  {
    RaiseIfMissingAfter(ExceptAny(o, 200, 400, "Error retrieving news: "), NotFoundDetail)
  }

  /** The written and the corrected route differ only on an absent key. */
  lemma GetNewsCorrectedAgrees(o: Outcome<Option<News>>)
    ensures o != Returned(None) <==> Serve(GetNews(o)) == Serve(GetNewsCorrected(o))
  {
  }

  /** DELETE by key: 204 whether or not a row was removed; a failing delete is 400 "Error deleting news: ...". */
  function DeleteNews(o: Outcome<()>): (r: HandlerResult<Deleted>)
    ensures DeleteConforms(o, r)
    ensures FailureReported(o, r, 400, "Error deleting news: ")
  {
    ExceptAny(Then(o, NoContent), 204, 400, "Error deleting news: ")
  }

  /** app/schemas/news.py: the News response schema sets orm_mode, so it reads the row. */
  const SchemaReadsRows := true

  /** POST / as the client receives it: the News schema reads the created row, so it goes out with 201. */
  function CreateNewsSent(o: Outcome<News>): (resp: Response<News>)
    ensures o.Returned? ==> resp == Success(201, o.value)
    ensures o.Raised? ==> resp == Failure(400, DetailOf(WithCause("Error creating news: ", o.error)), [])
  {
    Send(CreateNews(o), SchemaReadsRows, "News")
  }

  /** GET by key as the client receives it: a present row goes out with 200; an absent key stays 400. */
  function GetNewsSent(o: Outcome<Option<News>>): (resp: Response<News>)
    ensures o.Returned? && o.value.Some? ==> resp == Success(200, o.value.value)
    ensures !(o.Returned? && o.value.Some?) ==> resp == Serve(GetNews(o))
  {
    Send(GetNews(o), SchemaReadsRows, "News")
  }
}
