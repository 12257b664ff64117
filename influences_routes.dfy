/**
  The influence routes (app/api/v1/endpoints/influences.py).  Each service call sits
  in a try whose `except Exception` answers 400 with the text of whatever
  was raised, an HTTPException raised inside that try included.
 */
module Influences {

  import opened Wrappers
  import opened Http
  import opened ErrorHandler
  import opened Responses
  import opened ApiContract
  import S = InfluenceService

  type Influence = S.Influence

  const NotFoundDetail := "Influence not found"

  /** POST /: 201 with the created row; a failing create is 400 "Error creating influence: ...". */
  function CreateInfluence(o: Outcome<Influence>): (r: HandlerResult<Influence>)
    ensures CreateConforms(o, r)
    ensures FailureReported(o, r, 400, "Error creating influence: ")
  {
    ExceptAny(o, 201, 400, "Error creating influence: ")
  }

  /** GET /: 200 with every row; a failing query is 400 "Error retrieving influences: ...". */
  function GetAllInfluences(o: Outcome<seq<Influence>>): (r: HandlerResult<seq<Influence>>)
    ensures ListConforms(o, r)
    ensures FailureReported(o, r, 400, "Error retrieving influences: ")
  {
    ExceptAny(o, 200, 400, "Error retrieving influences: ")
  }

  /**
    GET by key, as written: 200 with the row when present.  The 404 for
    an absent key is raised inside the try, so the client gets 400 with
    a detail that wraps that 404.
   */
  function GetInfluence(o: Outcome<Option<Influence>>): (r: HandlerResult<Influence>)
    ensures o.Returned? && o.value.Some? ==> Serve(r) == Success(200, o.value.value)
    ensures o == Returned(None) ==> Serve(r) == Failure(400, DetailOf(WithCause("Error retrieving influence: ", NotFound(NotFoundDetail))), [])
    ensures FailureReported(o, r, 400, "Error retrieving influence: ")
  {
    ExceptAny(RaiseIfMissing(o, NotFoundDetail), 200, 400, "Error retrieving influence: ")
  }

  /** An absent key is answered 400, not the 404 the route's tests expect. */
  lemma GetInfluenceAbsentIs400()
    ensures Serve(GetInfluence(Returned(None))).status == 400
    ensures !GetConforms(Returned(None), GetInfluence(Returned(None)), NotFoundDetail)
  {
  }

  /** GET by key with the not-found check after the try: the behaviour the tests expect. */
  function GetInfluenceCorrected(o: Outcome<Option<Influence>>): (r: HandlerResult<Influence>)
    ensures GetConforms(o, r, NotFoundDetail)
    ensures FailureReported(o, r, 400, "Error retrieving influence: ")
  {
    RaiseIfMissingAfter(ExceptAny(o, 200, 400, "Error retrieving influence: "), NotFoundDetail)
  }

  /** The written and the corrected route differ only on an absent key. */
  lemma GetInfluenceCorrectedAgrees(o: Outcome<Option<Influence>>)
    ensures o != Returned(None) <==> Serve(GetInfluence(o)) == Serve(GetInfluenceCorrected(o))
  {
  }

  /** DELETE by key: 204 whether or not a row was removed; a failing delete is 400 "Error deleting influence: ...". */
  function DeleteInfluence(o: Outcome<()>): (r: HandlerResult<Deleted>)
    ensures DeleteConforms(o, r)
    ensures FailureReported(o, r, 400, "Error deleting influence: ")
  {
    ExceptAny(Then(o, NoContent), 204, 400, "Error deleting influence: ")
  }

  /** app/schemas/influence.py: the Influence response schema sets no orm_mode, so it reads no row. */
  const SchemaReadsRows := false

  /** POST / as the client receives it: the Influence schema refuses the created row, so 500; a failing create stays 400. */
  function CreateInfluenceSent(o: Outcome<Influence>): (resp: Response<Influence>)
    ensures o.Returned? ==> resp == InternalFailure()
    ensures o.Raised? ==> resp == Failure(400, DetailOf(WithCause("Error creating influence: ", o.error)), [])
  {
    Send(CreateInfluence(o), SchemaReadsRows, "Influence")
  }

  /** GET / as the client receives it: only an empty table passes List[Influence]; any row makes it 500. */
  function GetAllInfluencesSent(o: Outcome<seq<Influence>>): (resp: Response<seq<Influence>>)
    ensures o.Returned? ==> (resp == Success(200, o.value) <==> o.value == [])
    ensures o.Returned? && o.value != [] ==> resp == InternalFailure()
    ensures o.Raised? ==> resp == Failure(400, DetailOf(WithCause("Error retrieving influences: ", o.error)), [])
  {
    Send(GetAllInfluences(o), SchemaReadsRows || (o.Returned? && o.value == []), "List[Influence]")
  }

  /** GET by key as the client receives it: a present row is refused with 500; an absent key stays 400. */
  function GetInfluenceSent(o: Outcome<Option<Influence>>): (resp: Response<Influence>)
    ensures o.Returned? && o.value.Some? ==> resp == InternalFailure()
    ensures !(o.Returned? && o.value.Some?) ==> resp == Serve(GetInfluence(o))
  {
    Send(GetInfluence(o), SchemaReadsRows, "Influence")
  }
}
