/**
  The recommendation routes (app/api/v1/endpoints/recommendations.py).  Each service call sits
  in a try whose `except Exception` answers 400 with the text of whatever
  was raised, an HTTPException raised inside that try included.
 */
module Recommendations {

  import opened Wrappers
  import opened Http
  import opened ErrorHandler
  import opened Responses
  import opened ApiContract
  import S = RecommendationService

  type Recommendation = S.Recommendation

  const NotFoundDetail := "Recommendation not found"

  /** POST /: 201 with the created row; a failing create is 400 "Error creating recommendation: ...". */
  function CreateRecommendation(o: Outcome<Recommendation>): (r: HandlerResult<Recommendation>)
    ensures CreateConforms(o, r)
    ensures FailureReported(o, r, 400, "Error creating recommendation: ")
  {
    ExceptAny(o, 201, 400, "Error creating recommendation: ")
  }

  /**
    GET by key, as written: 200 with the row when present.  The 404 for
    an absent key is raised inside the try, so the client gets 400 with
    a detail that wraps that 404.
   */
  function GetRecommendation(o: Outcome<Option<Recommendation>>): (r: HandlerResult<Recommendation>)
    ensures o.Returned? && o.value.Some? ==> Serve(r) == Success(200, o.value.value)
    ensures o == Returned(None) ==> Serve(r) == Failure(400, DetailOf(WithCause("Error retrieving recommendation: ", NotFound(NotFoundDetail))), [])
    ensures FailureReported(o, r, 400, "Error retrieving recommendation: ")
  {
    ExceptAny(RaiseIfMissing(o, NotFoundDetail), 200, 400, "Error retrieving recommendation: ")
  }

  /** An absent key is answered 400, not the 404 the route's tests expect. */
  lemma GetRecommendationAbsentIs400()
    ensures Serve(GetRecommendation(Returned(None))).status == 400
    ensures !GetConforms(Returned(None), GetRecommendation(Returned(None)), NotFoundDetail)
  {
  }

  /** GET by key with the not-found check after the try: the behaviour the tests expect. */
  function GetRecommendationCorrected(o: Outcome<Option<Recommendation>>): (r: HandlerResult<Recommendation>)
    ensures GetConforms(o, r, NotFoundDetail)
    ensures FailureReported(o, r, 400, "Error retrieving recommendation: ")
  {
    RaiseIfMissingAfter(ExceptAny(o, 200, 400, "Error retrieving recommendation: "), NotFoundDetail)
  }

  /** The written and the corrected route differ only on an absent key. */
  lemma GetRecommendationCorrectedAgrees(o: Outcome<Option<Recommendation>>)
    ensures o != Returned(None) <==> Serve(GetRecommendation(o)) == Serve(GetRecommendationCorrected(o))
  {
  }

  /** DELETE by key: 204 whether or not a row was removed; a failing delete is 400 "Error deleting recommendation: ...". */
  function DeleteRecommendation(o: Outcome<()>): (r: HandlerResult<Deleted>)
    ensures DeleteConforms(o, r)
    ensures FailureReported(o, r, 400, "Error deleting recommendation: ")
  {
    ExceptAny(Then(o, NoContent), 204, 400, "Error deleting recommendation: ")
  }

  /** app/schemas/recommendation.py: the Recommendation response schema sets no orm_mode, so it reads no row. */
  const SchemaReadsRows := false

  /** POST / as the client receives it: the schema refuses the created row, so 500; a failing create stays 400. */
  function CreateRecommendationSent(o: Outcome<Recommendation>): (resp: Response<Recommendation>)
    ensures o.Returned? ==> resp == InternalFailure()
    ensures o.Raised? ==> resp == Serve(CreateRecommendation(o))
  {
    Send(CreateRecommendation(o), SchemaReadsRows, "Recommendation")
  }

  /** GET by key as the client receives it: a present row is refused with 500; an absent key stays 400. */
  function GetRecommendationSent(o: Outcome<Option<Recommendation>>): (resp: Response<Recommendation>)
    ensures o.Returned? && o.value.Some? ==> resp == InternalFailure()
    ensures !(o.Returned? && o.value.Some?) ==> resp == Serve(GetRecommendation(o))
  {
    Send(GetRecommendation(o), SchemaReadsRows, "Recommendation")
  }
}
