/**
  The role routes (app/api/v1/endpoints/roles.py).  Create turns any
  exception into 400; get only guards against NoResultFound, which a
  .first() query never raises; delete checks for the role before it asks
  the service to delete it.
 */
module Roles {

  import opened Wrappers
  import opened Http
  import opened ErrorHandler
  import opened Responses
  import opened ApiContract
  import opened Tables
  import S = RoleService

  type Role = S.Role

  const NotFoundDetail := "Role not found"
  const DeletedMessage := "Role deleted successfully."

  /** POST /: 201 with the created role; a failing create is 400 "Role could not be created. Error: ...". */
  function CreateRole(o: Outcome<Role>): (r: HandlerResult<Role>)
    ensures CreateConforms(o, r)
    ensures FailureReported(o, r, 400, "Role could not be created. Error: ")
  {
    ExceptAny(o, 201, 400, "Role could not be created. Error: ")
  }

  /**
    GET /{name}, as written: the service result goes out as it is, so
    an absent role is a 200 whose body is None; only a NoResultFound
    would give 404.
   */
  function GetRole(o: Outcome<Option<Role>>): (r: HandlerResult<Option<Role>>)
    ensures o.Returned? ==> r == Respond(200, o.value)
    ensures o.Raised? && o.error.NoResultFound? ==> Serve(r) == Failure(404, DetailOf(Message(NotFoundDetail)), [])
    ensures o.Raised? && !o.error.NoResultFound? ==> r == Raise(o.error)
  {
    ExceptNoResult(o, 200, NotFoundDetail)
  }

  /** An absent role is not answered 404 "Role not found", as the tests expect after a delete. */
  lemma GetRoleAbsentIsNot404()
    ensures Serve(GetRole(Returned(None))) == Success(200, None)
  {
  }

  /** GET /{name} with the missing check the other routes have: the behaviour the tests expect. */
  function GetRoleCorrected(o: Outcome<Option<Role>>): (r: HandlerResult<Role>)
    ensures GetConforms(o, r, NotFoundDetail)
    ensures o.Raised? && o.error.NoResultFound? ==> Serve(r) == Failure(404, DetailOf(Message(NotFoundDetail)), [])
  {
    ExceptNoResult(RaiseIfMissing(o, NotFoundDetail), 200, NotFoundDetail)
  }

  /** For a present role both give 200 with it. */
  lemma GetRoleCorrectedAgrees(role: Role)
    ensures Serve(GetRole(Returned(Some(role)))) == Success(200, Some(role))
    ensures Serve(GetRoleCorrected(Returned(Some(role)))) == Success(200, role)
  {
  }

  /** Whether DELETE /{name} goes on to call the service delete: only once the role was found. */
  predicate CallsDelete(found: Outcome<Option<Role>>) {
    found.Returned? && found.value.Some?
  }

  /**
    DELETE /{name}: the result of the existence check decides; the
    delete call's outcome matters only when that call is made.
   */
  function DeleteRole(found: Outcome<Option<Role>>, deleted: Outcome<()>): (r: HandlerResult<Deleted>)
    ensures found == Returned(None) ==> Serve(r) == Failure(404, DetailOf(Message(NotFoundDetail)), [])
    ensures found.Raised? ==> r == Raise(found.error)
    ensures CallsDelete(found) ==> DeleteConforms(deleted, r)
    ensures CallsDelete(found) && deleted.Returned? ==> r == Respond(204, DeletedDetail(DeletedMessage))
    ensures CallsDelete(found) && deleted.Raised? ==> r == Raise(deleted.error)
  {
    match found
    case Raised(e) => Raise(e)
    case Returned(None) => Raise(NotFound(NotFoundDetail))
    case Returned(Some(_)) => Unguarded(Then(deleted, DeletedDetail(DeletedMessage)), 204)
  }

  /**
    DELETE /{name} against the roles table: an absent role is 404 and the
    table is not touched; a present one is removed (its first row) and
    the body is the success message.
   */
  method DeleteRoleFromTable(db: Table<Role>, name: string) returns (r: HandlerResult<Deleted>)
    modifies db
    ensures Lookup(old(db.rows), S.NameOf, name).None? ==> r == Raise(NotFound(NotFoundDetail)) && db.rows == old(db.rows)
    ensures Lookup(old(db.rows), S.NameOf, name).Some? ==>
      r == Respond(204, DeletedDetail(DeletedMessage)) && db.rows == DeleteFirst(old(db.rows), S.NameOf, name)
  {
    var found := S.GetRole(db, name);
    if CallsDelete(Returned(found)) {
      S.DeleteRole(db, name);
    }
    // When no delete was made its outcome is not consulted.
    r := DeleteRole(Returned(found), Returned(()));
  }

  /** app/schemas/role.py: the Role response schema sets no orm_mode, so it reads no row. */
  const SchemaReadsRows := false

  /** POST / as the client receives it: the Role schema refuses the created role, so 500; a failing create stays 400. */
  function CreateRoleSent(o: Outcome<Role>): (resp: Response<Role>)
    ensures o.Returned? ==> resp == InternalFailure()
    ensures o.Raised? ==> resp == Failure(400, DetailOf(WithCause("Role could not be created. Error: ", o.error)), [])
  {
    Send(CreateRole(o), SchemaReadsRows, "Role")
  }

  /**
    GET /{name} as the client receives it: a present role is refused
    with 500, while the None of an absent role passes the optional
    response field and goes out as a 200 with no role.
   */
  function GetRoleSent(o: Outcome<Option<Role>>): (resp: Response<Option<Role>>)
    ensures o.Returned? && o.value.Some? ==> resp == InternalFailure()
    ensures o == Returned(None) ==> resp == Success(200, None)
    ensures o.Raised? ==> resp == Serve(GetRole(o))
  {
    Send(GetRole(o), SchemaReadsRows || (o.Returned? && o.value.None?), "Role")
  }

  /** DELETE /{name} as the client receives it: the success message is dropped from the 204. */
  function DeleteRoleSent(found: Outcome<Option<Role>>, deleted: Outcome<()>): (resp: Response<Deleted>)
    ensures CallsDelete(found) && deleted.Returned? ==> resp == Success(204, NoContent)
    ensures found == Returned(None) ==> resp == Failure(404, DetailOf(Message(NotFoundDetail)), [])
    ensures !(CallsDelete(found) && deleted.Returned?) ==> resp == Serve(DeleteRole(found, deleted))
  {
    SendNoContent(DeleteRole(found, deleted))
  }
}
