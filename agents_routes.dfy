/**
  The agent routes (app/api/v1/endpoints/agents.py).  None of them has a
  try: an exception from the service reaches the application's handlers
  unchanged.
 */
module Agents {

  import opened Wrappers
  import opened Http
  import opened ErrorHandler
  import opened Responses
  import opened ApiContract
  import S = AgentService

  type Agent = S.Agent

  const NotFoundDetail := "Agent not found"

  /** POST /: 201 with the created agent. */
  function CreateAgent(o: Outcome<Agent>): (r: HandlerResult<Agent>)
    ensures CreateConforms(o, r)
    ensures o.Raised? ==> r == Raise(o.error)
  {
    Unguarded(o, 201)
  }

  /** GET /{name}: 200 with the agent, 404 "Agent not found" when there is none. */
  function GetAgent(o: Outcome<Option<Agent>>): (r: HandlerResult<Agent>)
    ensures GetConforms(o, r, NotFoundDetail)
    ensures o.Raised? ==> r == Raise(o.error)
  {
    Unguarded(RaiseIfMissing(o, NotFoundDetail), 200)
  }

  /** DELETE /{name}: 204 with no body, whether or not an agent was removed. */
  function DeleteAgent(o: Outcome<()>): (r: HandlerResult<Deleted>)
    ensures DeleteConforms(o, r)
    ensures r.Respond? ==> r.body == NoContent
    ensures o.Raised? ==> r == Raise(o.error)
  {
    Unguarded(Then(o, NoContent), 204)
  }

  /**
    With no try, a create whose service call fails with an unexpected
    exception, as create_agent as written always does, is the
    application's 500 "An internal server error occurred.".
   */
  lemma CreateFailureIs500(o: Outcome<Agent>)
    requires o.Raised? && Unexpected(o.error)
    ensures Serve(CreateAgent(o)) == Failure(500, DetailOf(Message(InternalDetail)), [])
  {
  }

  /** With no local handling, a store failure is the application's 500 "A database error occurred.". */
  lemma StoreFailureReachesAppHandler(o: Outcome<Option<Agent>>)
    requires o.Raised? && IsDatabaseError(o.error)
    ensures Serve(GetAgent(o)) == Failure(500, DetailOf(Message(DatabaseDetail)), [])
  {
  }

  /** app/schemas/agent.py: the Agent response schema sets no orm_mode, so it reads no row. */
  const SchemaReadsRows := false

  /** POST / as the client receives it: the Agent schema refuses the created agent, so 500. */
  function CreateAgentSent(o: Outcome<Agent>): (resp: Response<Agent>)
    ensures o.Returned? ==> resp == InternalFailure()
    ensures o.Raised? ==> resp == Serve(Raise(o.error))
  {
    Send(CreateAgent(o), SchemaReadsRows, "Agent")
  }

  /** GET /{name} as the client receives it: a present agent is refused with 500, an absent one is 404 "Agent not found". */
  function GetAgentSent(o: Outcome<Option<Agent>>): (resp: Response<Agent>)
    ensures o.Returned? && o.value.Some? ==> resp == InternalFailure()
    ensures o == Returned(None) ==> resp == Failure(404, DetailOf(Message(NotFoundDetail)), [])
    ensures o.Raised? ==> resp == Serve(Raise(o.error))
  {
    Send(GetAgent(o), SchemaReadsRows, "Agent")
  }
}
