/**
  AgentService (app/services/agent_service.py): the agents table, looked up and deleted by
  its name column.  Each operation is one query followed by an immediate
  commit.
 */
module AgentService {

  import opened Wrappers
  import opened Tables
  import opened Http

  /** A stored agent: the name and model columns. */
  datatype Agent = Agent(name: string, model: string)

  /** The column the service filters on. */
  function NameOf(r: Agent): string {
    r.name
  }

  /**
    create_agent: one new row holding exactly the given columns is appended
    and returned.  A name no row had before is then found as this row.
   */
  method CreateAgent(db: Table<Agent>, name: string, model: string) returns (agent: Agent)
    modifies db
    ensures agent.name == name && agent.model == model
    ensures db.rows == old(db.rows) + [agent]
    ensures Lookup(old(db.rows), NameOf, name).None? ==> Lookup(db.rows, NameOf, name) == Some(agent)
  {
    agent := Agent(name, model);
    LookupAfterAppend(db.rows, NameOf, agent, name);
    db.Add(agent);
  }

  /**
    The exception the constructor call of create_agent raises as written:
    the Agent class of app/models/agent.py takes model_name_or_path, not
    model, so the keyword is refused.
   */
  const KeywordError := OtherError("TypeError: unexpected keyword argument 'model'")

  /**
    create_agent as written: the TypeError comes before db.add, so every
    call fails with an exception no handler of the service catches, and
    the table is left as it was.
   */
  method CreateAgentAsWritten(db: Table<Agent>, name: string, model: string) returns (outcome: Outcome<Agent>)
    ensures outcome.Raised? && Unexpected(outcome.error)
  {
    outcome := Raised(KeywordError);
  }

  /** get_agent: the first row with that name, or None when no row has it. */
  method GetAgent(db: Table<Agent>, name: string) returns (agent: Option<Agent>)
    ensures agent == Lookup(db.rows, NameOf, name)
  {
    agent := db.First(NameOf, name);
  }

  /**
    delete_agent: removes the first row with that name if there is one;
    every other row stays, in order.
   */
  method DeleteAgent(db: Table<Agent>, name: string)
    modifies db
    ensures db.rows == DeleteFirst(old(db.rows), NameOf, name)
  {
    db.DeleteFirstMatch(NameOf, name);
  }

  /** Every row, in table order. */
  method ListAgents(db: Table<Agent>) returns (agents: seq<Agent>)
    ensures agents == db.rows
  {
    agents := db.All();
  }
}
