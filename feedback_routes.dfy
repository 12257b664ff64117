/**
  The feedback routes (app/api/v1/endpoints/feedback.py).  Each service call sits
  in a try whose `except Exception` answers 400 with the text of whatever
  was raised, an HTTPException raised inside that try included.
 */
module FeedbackRoutes {

  import opened Wrappers
  import opened Http
  import opened ErrorHandler
  import opened Responses
  import opened ApiContract
  import S = FeedbackService

  type Feedback = S.Feedback

  const NotFoundDetail := "Feedback not found"

  /** POST /: 201 with the created row; a failing create is 400 "Error creating feedback: ...". */
  function CreateFeedback(o: Outcome<Feedback>): (r: HandlerResult<Feedback>)
    ensures CreateConforms(o, r)
    ensures FailureReported(o, r, 400, "Error creating feedback: ")
  {
    ExceptAny(o, 201, 400, "Error creating feedback: ")
  }

  /**
    GET by key, as written: 200 with the row when present.  The 404 for
    an absent key is raised inside the try, so the client gets 400 with
    a detail that wraps that 404.
   */
  function GetFeedback(o: Outcome<Option<Feedback>>): (r: HandlerResult<Feedback>)
    ensures o.Returned? && o.value.Some? ==> Serve(r) == Success(200, o.value.value)
    ensures o == Returned(None) ==> Serve(r) == Failure(400, DetailOf(WithCause("Error retrieving feedback: ", NotFound(NotFoundDetail))), [])
    ensures FailureReported(o, r, 400, "Error retrieving feedback: ")
  {
    ExceptAny(RaiseIfMissing(o, NotFoundDetail), 200, 400, "Error retrieving feedback: ")
  }

  /** An absent key is answered 400, not the 404 the route's tests expect. */
  lemma GetFeedbackAbsentIs400()
    ensures Serve(GetFeedback(Returned(None))).status == 400
    ensures !GetConforms(Returned(None), GetFeedback(Returned(None)), NotFoundDetail)
  {
  }

  /** GET by key with the not-found check after the try: the behaviour the tests expect. */
  function GetFeedbackCorrected(o: Outcome<Option<Feedback>>): (r: HandlerResult<Feedback>)
    ensures GetConforms(o, r, NotFoundDetail)
    ensures FailureReported(o, r, 400, "Error retrieving feedback: ")
  {
    RaiseIfMissingAfter(ExceptAny(o, 200, 400, "Error retrieving feedback: "), NotFoundDetail)
  }

  /** The written and the corrected route differ only on an absent key. */
  lemma GetFeedbackCorrectedAgrees(o: Outcome<Option<Feedback>>)
    ensures o != Returned(None) <==> Serve(GetFeedback(o)) == Serve(GetFeedbackCorrected(o))
  {
  }

  /** DELETE by key: 204 whether or not a row was removed; a failing delete is 400 "Error deleting feedback: ...". */
  function DeleteFeedback(o: Outcome<()>): (r: HandlerResult<Deleted>)
    ensures DeleteConforms(o, r)
    ensures FailureReported(o, r, 400, "Error deleting feedback: ")
  {
    ExceptAny(Then(o, NoContent), 204, 400, "Error deleting feedback: ")
  }

  /** app/schemas/feedback.py: the Feedback response schema sets no orm_mode, so it reads no row. */
  const SchemaReadsRows := false

  /** POST / as the client receives it: the schema refuses the stored row, so 500; a failing create stays 400. */
  function CreateFeedbackSent(o: Outcome<Feedback>): (resp: Response<Feedback>)
    ensures o.Returned? ==> resp == InternalFailure()
    ensures o.Raised? ==> resp == Failure(400, DetailOf(WithCause("Error creating feedback: ", o.error)), [])
  {
    Send(CreateFeedback(o), SchemaReadsRows, "Feedback")
  }

  /**
    GET by key as the client receives it: the route declares List[Feedback]
    and returns one row, which no list schema reads, so a present row is
    500; an absent key stays 400.
   */
  function GetFeedbackSent(o: Outcome<Option<Feedback>>): (resp: Response<Feedback>)
    ensures o.Returned? && o.value.Some? ==> resp == InternalFailure()
    ensures !(o.Returned? && o.value.Some?) ==> resp == Serve(GetFeedback(o))
  {
    Send(GetFeedback(o), false, "List[Feedback]")
  }
}
