/**
  The stage routes (app/api/v1/endpoints/stages.py).  Each service call sits
  in a try whose `except Exception` answers 400 with the text of whatever
  was raised, an HTTPException raised inside that try included.
 */
module Stages {

  import opened Wrappers
  import opened Http
  import opened ErrorHandler
  import opened ApiContract

  /** A stage as the routes see it; the stage service is not part of this model. */
  datatype Stage = Stage(name: string, description: string)

  const NotFoundDetail := "Stage not found"

  /** POST /: 201 with the created row; a failing create is 400 "Error creating stage: ...". */
  function CreateStage(o: Outcome<Stage>): (r: HandlerResult<Stage>)
    ensures CreateConforms(o, r)
    ensures FailureReported(o, r, 400, "Error creating stage: ")
  {
    ExceptAny(o, 201, 400, "Error creating stage: ")
  }

  /** GET /: 200 with every row; a failing query is 400 "Error retrieving stages: ...". */
  function GetAllStages(o: Outcome<seq<Stage>>): (r: HandlerResult<seq<Stage>>)
    ensures ListConforms(o, r)
    ensures FailureReported(o, r, 400, "Error retrieving stages: ")
  {
    ExceptAny(o, 200, 400, "Error retrieving stages: ")
  }

  /**
    GET by key, as written: 200 with the row when present.  The 404 for
    an absent key is raised inside the try, so the client gets 400 with
    a detail that wraps that 404.
   */
  function GetStage(o: Outcome<Option<Stage>>): (r: HandlerResult<Stage>)
    ensures o.Returned? && o.value.Some? ==> Serve(r) == Success(200, o.value.value)
    ensures o == Returned(None) ==> Serve(r) == Failure(400, DetailOf(WithCause("Error retrieving stage: ", NotFound(NotFoundDetail))), [])
    ensures FailureReported(o, r, 400, "Error retrieving stage: ")
  {
    ExceptAny(RaiseIfMissing(o, NotFoundDetail), 200, 400, "Error retrieving stage: ")
  }

  /** An absent key is answered 400, not the 404 the route's tests expect. */
  lemma GetStageAbsentIs400()
    ensures Serve(GetStage(Returned(None))).status == 400
    ensures !GetConforms(Returned(None), GetStage(Returned(None)), NotFoundDetail)
  {
  }

  /** GET by key with the not-found check after the try: the behaviour the tests expect. */
  function GetStageCorrected(o: Outcome<Option<Stage>>): (r: HandlerResult<Stage>)
    ensures GetConforms(o, r, NotFoundDetail)
    ensures FailureReported(o, r, 400, "Error retrieving stage: ")
  {
    RaiseIfMissingAfter(ExceptAny(o, 200, 400, "Error retrieving stage: "), NotFoundDetail)
  }

  /** The written and the corrected route differ only on an absent key. */
  lemma GetStageCorrectedAgrees(o: Outcome<Option<Stage>>)
    ensures o != Returned(None) <==> Serve(GetStage(o)) == Serve(GetStageCorrected(o))
  {
  }

  /** DELETE by key: 204 whether or not a row was removed; a failing delete is 400 "Error deleting stage: ...". */
  function DeleteStage(o: Outcome<()>): (r: HandlerResult<Deleted>)
    ensures DeleteConforms(o, r)
    ensures FailureReported(o, r, 400, "Error deleting stage: ")
  {
    ExceptAny(Then(o, NoContent), 204, 400, "Error deleting stage: ")
  }
}
