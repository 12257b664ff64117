/**
  The group routes (app/api/v1/endpoints/groups.py).  Each service call sits
  in a try whose `except Exception` answers 400 with the text of whatever
  was raised, an HTTPException raised inside that try included.
 */
module Groups {

  import opened Wrappers
  import opened Http
  import opened ErrorHandler
  import opened Responses
  import opened ApiContract
  import S = GroupService

  type Group = S.Group

  const NotFoundDetail := "Group not found"

  /** POST /: 201 with the created row; a failing create is 400 "Error creating group: ...". */
  function CreateGroup(o: Outcome<Group>): (r: HandlerResult<Group>)
    ensures CreateConforms(o, r)
    ensures FailureReported(o, r, 400, "Error creating group: ")
  {
    ExceptAny(o, 201, 400, "Error creating group: ")
  }

  /**
    GET by key, as written: 200 with the row when present.  The 404 for
    an absent key is raised inside the try, so the client gets 400 with
    a detail that wraps that 404.
   */
  function GetGroup(o: Outcome<Option<Group>>): (r: HandlerResult<Group>)
    ensures o.Returned? && o.value.Some? ==> Serve(r) == Success(200, o.value.value)
    ensures o == Returned(None) ==> Serve(r) == Failure(400, DetailOf(WithCause("Error retrieving group: ", NotFound(NotFoundDetail))), [])
    ensures FailureReported(o, r, 400, "Error retrieving group: ")
  {
    ExceptAny(RaiseIfMissing(o, NotFoundDetail), 200, 400, "Error retrieving group: ")
  }

  /** An absent key is answered 400, not the 404 the route's tests expect. */
  lemma GetGroupAbsentIs400()
    ensures Serve(GetGroup(Returned(None))).status == 400
    ensures !GetConforms(Returned(None), GetGroup(Returned(None)), NotFoundDetail)
  {
  }

  /** GET by key with the not-found check after the try: the behaviour the tests expect. */
  function GetGroupCorrected(o: Outcome<Option<Group>>): (r: HandlerResult<Group>)
    ensures GetConforms(o, r, NotFoundDetail)
    ensures FailureReported(o, r, 400, "Error retrieving group: ")
  {
    RaiseIfMissingAfter(ExceptAny(o, 200, 400, "Error retrieving group: "), NotFoundDetail)
  }

  /** The written and the corrected route differ only on an absent key. */
  lemma GetGroupCorrectedAgrees(o: Outcome<Option<Group>>)
    ensures o != Returned(None) <==> Serve(GetGroup(o)) == Serve(GetGroupCorrected(o))
  {
  }

  /** DELETE by key: 204 whether or not a row was removed; a failing delete is 400 "Error deleting group: ...". */
  function DeleteGroup(o: Outcome<()>): (r: HandlerResult<Deleted>)
    ensures DeleteConforms(o, r)
    ensures FailureReported(o, r, 400, "Error deleting group: ")
  {
    ExceptAny(Then(o, NoContent), 204, 400, "Error deleting group: ")
  }

  /** app/schemas/group.py: the Group response schema sets orm_mode, so it reads the row. */
  const SchemaReadsRows := true

  /** POST / as the client receives it: the Group schema reads the created row, so it goes out with 201. */
  function CreateGroupSent(o: Outcome<Group>): (resp: Response<Group>)
    ensures o.Returned? ==> resp == Success(201, o.value)
    ensures o.Raised? ==> resp == Failure(400, DetailOf(WithCause("Error creating group: ", o.error)), [])
  {
    Send(CreateGroup(o), SchemaReadsRows, "Group")
  }

  /** GET by key as the client receives it: a present row goes out with 200; an absent key stays 400. */
  function GetGroupSent(o: Outcome<Option<Group>>): (resp: Response<Group>)
    ensures o.Returned? && o.value.Some? ==> resp == Success(200, o.value.value)
    ensures !(o.Returned? && o.value.Some?) ==> resp == Serve(GetGroup(o))
  {
    Send(GetGroup(o), SchemaReadsRows, "Group")
  }
}
