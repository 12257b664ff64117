/**
  The training routes (app/api/v1/endpoints/training.py).  Each service call sits
  in a try whose `except Exception` answers 400 with the text of whatever
  was raised, an HTTPException raised inside that try included.
 */
module TrainingRoutes {

  import opened Wrappers
  import opened Http
  import opened ErrorHandler
  import opened Responses
  import opened ApiContract
  import S = TrainingService

  type Training = S.Training

  const NotFoundDetail := "Training not found"

  /** POST /: 201 with the created row; a failing create is 400 "Error creating training: ...". */
  function CreateTraining(o: Outcome<Training>): (r: HandlerResult<Training>)
    ensures CreateConforms(o, r)
    ensures FailureReported(o, r, 400, "Error creating training: ")
  {
    ExceptAny(o, 201, 400, "Error creating training: ")
  }

  /**
    GET by key, as written: 200 with the row when present.  The 404 for
    an absent key is raised inside the try, so the client gets 400 with
    a detail that wraps that 404.
   */
  function GetTraining(o: Outcome<Option<Training>>): (r: HandlerResult<Training>)
    ensures o.Returned? && o.value.Some? ==> Serve(r) == Success(200, o.value.value)
    ensures o == Returned(None) ==> Serve(r) == Failure(400, DetailOf(WithCause("Error retrieving training: ", NotFound(NotFoundDetail))), [])
    ensures FailureReported(o, r, 400, "Error retrieving training: ")
  {
    ExceptAny(RaiseIfMissing(o, NotFoundDetail), 200, 400, "Error retrieving training: ")
  }

  /** An absent key is answered 400, not the 404 the route's tests expect. */
  lemma GetTrainingAbsentIs400()
    ensures Serve(GetTraining(Returned(None))).status == 400
    ensures !GetConforms(Returned(None), GetTraining(Returned(None)), NotFoundDetail)
  {
  }

  /** GET by key with the not-found check after the try: the behaviour the tests expect. */
  function GetTrainingCorrected(o: Outcome<Option<Training>>): (r: HandlerResult<Training>)
    ensures GetConforms(o, r, NotFoundDetail)
    ensures FailureReported(o, r, 400, "Error retrieving training: ")
  {
    RaiseIfMissingAfter(ExceptAny(o, 200, 400, "Error retrieving training: "), NotFoundDetail)
  }

  /** The written and the corrected route differ only on an absent key. */
  lemma GetTrainingCorrectedAgrees(o: Outcome<Option<Training>>)
    ensures o != Returned(None) <==> Serve(GetTraining(o)) == Serve(GetTrainingCorrected(o))
  {
  }

  /** DELETE by key: 204 whether or not a row was removed; a failing delete is 400 "Error deleting training: ...". */
  function DeleteTraining(o: Outcome<()>): (r: HandlerResult<Deleted>)
    ensures DeleteConforms(o, r)
    ensures FailureReported(o, r, 400, "Error deleting training: ")
  {
    ExceptAny(Then(o, NoContent), 204, 400, "Error deleting training: ")
  }

  /** app/schemas/training.py: the Training response schema sets no orm_mode, so it reads no row. */
  const SchemaReadsRows := false

  /** POST / as the client receives it: the schema refuses the stored row, so 500; a failing create stays 400. */
  function CreateTrainingSent(o: Outcome<Training>): (resp: Response<Training>)
    ensures o.Returned? ==> resp == InternalFailure()
    ensures o.Raised? ==> resp == Failure(400, DetailOf(WithCause("Error creating training: ", o.error)), [])
  {
    Send(CreateTraining(o), SchemaReadsRows, "Training")
  }

  /** POST / with orm_mode set on the Training schema: the created row is sent with 201, failures as before. */
  function CreateTrainingWithOrmMode(o: Outcome<Training>): (resp: Response<Training>)
    ensures o.Returned? ==> resp == Success(201, o.value)
    ensures o.Raised? ==> resp == CreateTrainingSent(o)
  {
    Send(CreateTraining(o), true, "Training")
  }

  /** GET by key as the client receives it: a present row is refused with 500; an absent key stays 400. */
  function GetTrainingSent(o: Outcome<Option<Training>>): (resp: Response<Training>)
    ensures o.Returned? && o.value.Some? ==> resp == InternalFailure()
    ensures !(o.Returned? && o.value.Some?) ==> resp == Serve(GetTraining(o))
  {
    Send(GetTraining(o), SchemaReadsRows, "Training")
  }
}
