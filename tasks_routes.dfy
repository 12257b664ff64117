/**
  The task routes (app/api/v1/endpoints/tasks.py).  Each try maps
  NoResultFound to 404 and every other exception to 500, an HTTPException
  raised inside the try included.
 */
module Tasks {

  import opened Wrappers
  import opened Http
  import opened ErrorHandler
  import opened Responses
  import opened ApiContract
  import S = TaskService

  type Task = S.Task

  const NotFoundDetail := "Task not found"

  /** POST /: 201 with the created task; a failing create is 500 "Failed to create task: ...". */
  function CreateTask(o: Outcome<Task>): (r: HandlerResult<Task>)
    ensures CreateConforms(o, r)
    ensures FailureReported(o, r, 500, "Failed to create task: ")
  {
    ExceptAny(o, 201, 500, "Failed to create task: ")
  }

  /**
    GET /{name}, as written: the 404 for an absent task is raised inside
    the try; it is not a NoResultFound, so `except Exception` makes it
    500 "Unexpected error: ...".
   */
  function GetTask(o: Outcome<Option<Task>>): (r: HandlerResult<Task>)
    ensures o.Returned? && o.value.Some? ==> Serve(r) == Success(200, o.value.value)
    ensures o == Returned(None) ==> Serve(r) == Failure(500, DetailOf(WithCause("Unexpected error: ", NotFound(NotFoundDetail))), [])
    ensures o.Raised? && o.error.NoResultFound? ==> Serve(r) == Failure(404, DetailOf(Message(NotFoundDetail)), [])
    ensures o.Raised? && !o.error.NoResultFound? ==> FailureReported(o, r, 500, "Unexpected error: ")
  {
    ExceptNoResultThenAny(RaiseIfMissing(o, NotFoundDetail), 200, NotFoundDetail, 500, "Unexpected error: ")
  }

  /** An absent task is answered 500, not 404. */
  lemma GetTaskAbsentIs500()
    ensures Serve(GetTask(Returned(None))).status == 500
    ensures !GetConforms(Returned(None), GetTask(Returned(None)), NotFoundDetail)
  {
  }

  /** GET /{name} with the not-found check after the try. */
  function GetTaskCorrected(o: Outcome<Option<Task>>): (r: HandlerResult<Task>)
    ensures GetConforms(o, r, NotFoundDetail)
    ensures o.Raised? && o.error.NoResultFound? ==> Serve(r) == Failure(404, DetailOf(Message(NotFoundDetail)), [])
    ensures o.Raised? && !o.error.NoResultFound? ==> FailureReported(o, r, 500, "Unexpected error: ")
  {
    RaiseIfMissingAfter(ExceptNoResultThenAny(o, 200, NotFoundDetail, 500, "Unexpected error: "), NotFoundDetail)
  }

  lemma GetTaskCorrectedAgrees(o: Outcome<Option<Task>>)
    ensures o != Returned(None) <==> Serve(GetTask(o)) == Serve(GetTaskCorrected(o))
  {
  }

  /**
    The exception PUT /{name} meets: TaskService has no update_task, so
    looking it up fails before any call is made.
   */
  const MissingUpdate := AttributeError("TaskService", "update_task")

  /** PUT /{name}, as written: whatever the name and the update, the answer is 500 "Failed to update task: ...". */
  function UpdateTask(name: string, update: Task): (r: HandlerResult<Task>)
    ensures Serve(r) == Failure(500, DetailOf(WithCause("Failed to update task: ", MissingUpdate)), [])
  {
    ExceptNoResultThenAny(Raised(MissingUpdate), 200, NotFoundDetail, 500, "Failed to update task: ")
  }

  /** No update ever succeeds, and none is ever answered 404. */
  lemma UpdateNeverSucceeds(name: string, update: Task)
    ensures Serve(UpdateTask(name, update)).Failure?
    ensures Serve(UpdateTask(name, update)).status == 500
  {
  }

  /**
    PUT /{name} over a service update that answers the updated task or
    None, with the except clauses the route declares and the not-found
    check after the try.
   */
  function UpdateTaskCorrected(o: Outcome<Option<Task>>): (r: HandlerResult<Task>)
    ensures GetConforms(o, r, NotFoundDetail)
    ensures o.Raised? && o.error.NoResultFound? ==> Serve(r) == Failure(404, DetailOf(Message(NotFoundDetail)), [])
    ensures o.Raised? && !o.error.NoResultFound? ==> FailureReported(o, r, 500, "Failed to update task: ")
  {
    RaiseIfMissingAfter(ExceptNoResultThenAny(o, 200, NotFoundDetail, 500, "Failed to update task: "), NotFoundDetail)
  }

  /** DELETE /{name}: 204; NoResultFound is 404 and any other failure 500 "Failed to delete task: ...". */
  function DeleteTask(o: Outcome<()>): (r: HandlerResult<Deleted>)
    ensures DeleteConforms(o, r)
    ensures o.Raised? && o.error.NoResultFound? ==> Serve(r) == Failure(404, DetailOf(Message(NotFoundDetail)), [])
    ensures o.Raised? && !o.error.NoResultFound? ==> FailureReported(o, r, 500, "Failed to delete task: ")
  {
    ExceptNoResultThenAny(Then(o, NoContent), 204, NotFoundDetail, 500, "Failed to delete task: ")
  }

  /** app/schemas/task.py: the Task response schema sets no orm_mode, so it reads no row. */
  const SchemaReadsRows := false

  /** POST / as the client receives it: the Task schema refuses the created task, so 500; a failing create stays 500 "Failed to create task: ...". */
  function CreateTaskSent(o: Outcome<Task>): (resp: Response<Task>)
    ensures o.Returned? ==> resp == InternalFailure()
    ensures o.Raised? ==> resp == Failure(500, DetailOf(WithCause("Failed to create task: ", o.error)), [])
  {
    Send(CreateTask(o), SchemaReadsRows, "Task")
  }

  /** GET /{name} as the client receives it: a present task is refused with 500; the other cases are the handler's. */
  function GetTaskSent(o: Outcome<Option<Task>>): (resp: Response<Task>)
    ensures o.Returned? && o.value.Some? ==> resp == InternalFailure()
    ensures o == Returned(None) ==> resp == Failure(500, DetailOf(WithCause("Unexpected error: ", NotFound(NotFoundDetail))), [])
    ensures o.Raised? ==> resp == Serve(GetTask(o))
  {
    Send(GetTask(o), SchemaReadsRows, "Task")
  }
}
