/**
  Requests in sequence against one store, from the request body to what
  the client receives after the response check, as the API and service
  tests run them (tests/api/test_*.py, tests/services/test_*_service.py).
 */
module Scenarios {

  import opened Wrappers
  import opened Http
  import opened Validation
  import opened Tables
  import opened ErrorHandler
  import opened Schemas
  import opened Responses
  import AgentService
  import EthicsService
  import InfluenceService
  import RoleService
  import FeedbackService
  import TrainingService
  import ScalingService
  import Agents
  import Influences
  import Roles
  import FeedbackRoutes
  import TrainingRoutes
  import ScalingRoutes
  import EthicsRoutes

  /**
    tests/api/test_agents.py on an empty table, with the intended
    constructor: the create stores the agent but the Agent schema refuses
    it, so the client gets 500; the get that finds it is 500 too; delete
    is 204, and a second get is 404 "Agent not found".
   */
  method AgentLifecycle(name: string, model: string)
    returns (created: Response<AgentService.Agent>, stored: seq<AgentService.Agent>,
             fetched: Response<AgentService.Agent>, deleted: Response<Deleted>,
             refetched: Response<AgentService.Agent>)
    ensures created == InternalFailure() && stored == [AgentService.Agent(name, model)]
    ensures fetched == InternalFailure()
    ensures deleted == Success(204, NoContent)
    ensures refetched == Failure(404, DetailOf(Message("Agent not found")), [])
  {
    var db := new Table<AgentService.Agent>();
    var agent := AgentService.CreateAgent(db, name, model);
    created := Agents.CreateAgentSent(Returned(agent));
    stored := db.rows;
    var found := AgentService.GetAgent(db, name);
    fetched := Agents.GetAgentSent(Returned(found));
    AgentService.DeleteAgent(db, name);
    deleted := Serve(Agents.DeleteAgent(Returned(())));
    assert db.rows == [];
    var gone := AgentService.GetAgent(db, name);
    refetched := Agents.GetAgentSent(Returned(gone));
  }

  /**
    tests/api/test_agents.py against create_agent as written: whatever the
    body, the create is 500, nothing is stored, and the get that follows
    is 404 "Agent not found".
   */
  method AgentCreateAsWritten(name: string, model: string)
    returns (created: Response<AgentService.Agent>, fetched: Response<AgentService.Agent>)
    ensures created == Failure(500, DetailOf(Message(InternalDetail)), [])
    ensures fetched == Failure(404, DetailOf(Message("Agent not found")), [])
  {
    var db := new Table<AgentService.Agent>();
    var outcome := AgentService.CreateAgentAsWritten(db, name, model);
    Agents.CreateFailureIs500(outcome);
    created := Agents.CreateAgentSent(outcome);
    var found := AgentService.GetAgent(db, name);
    fetched := Agents.GetAgentSent(Returned(found));
  }

  /**
    apply_ethics, delete_ethics of that id, apply_ethics again: the store
    hands the freed id out again, and the new parent's children are only
    the principles of the second call, the first call's children having
    lost their ethics_id in the delete.
   */
  method EthicsIdReused(first: seq<string>, second: seq<string>)
    returns (a: EthicsService.Ethics, b: EthicsService.Ethics, children: seq<EthicsService.EthicalPrinciple>)
    ensures b.id == a.id
    ensures children == EthicsService.ChildRows(b.id, second)
  {
    var db := new EthicsService.EthicsStore();
    a := EthicsService.ApplyEthics(db, first);
    EthicsService.DeleteEthics(db, a.id);
    assert db.ethics == [];
    b := EthicsService.ApplyEthics(db, second);
    children := Matching(db.principles, EthicsService.ParentOf, Some(b.id));
  }

  /**
    tests/api/test_influences.py, delete then get, on a table holding
    only the created row: the written route answers 400, the corrected
    one the 404 "Influence not found" the test asserts.
   */
  method InfluenceDeleteThenGet(name: string, effect: string)
    returns (asWritten: Response<InfluenceService.Influence>, corrected: Response<InfluenceService.Influence>)
    ensures asWritten.status == 400
    ensures corrected == Failure(404, DetailOf(Message("Influence not found")), [])
  {
    var db := new Table<InfluenceService.Influence>();
    var influence := InfluenceService.CreateInfluence(db, name, effect);
    InfluenceService.DeleteInfluence(db, name);
    assert db.rows == [];
    var gone := InfluenceService.GetInfluence(db, name);
    asWritten := Influences.GetInfluenceSent(Returned(gone));
    corrected := Serve(Influences.GetInfluenceCorrected(Returned(gone)));
  }

  /**
    The API tests of one module share a store, and each test creates its
    row again: by the delete test three rows share the name, one delete
    removes only the first, and even the corrected get still finds one.
    Its handler returns that row; the Influence schema then refuses it,
    so the client gets 500 where the test expects 404.
   */
  method SharedStoreKeepsLaterRows(name: string, effect: string)
    returns (afterDelete: HandlerResult<InfluenceService.Influence>, sent: Response<InfluenceService.Influence>)
    ensures afterDelete == Respond(200, InfluenceService.Influence(name, effect))
    ensures sent == InternalFailure()
  {
    var db := new Table<InfluenceService.Influence>();
    var first := InfluenceService.CreateInfluence(db, name, effect);
    var second := InfluenceService.CreateInfluence(db, name, effect);
    var third := InfluenceService.CreateInfluence(db, name, effect);
    assert db.rows == [first, second, third];
    InfluenceService.DeleteInfluence(db, name);
    assert db.rows == [second, third];
    var found := InfluenceService.GetInfluence(db, name);
    afterDelete := Influences.GetInfluenceCorrected(Returned(found));
    sent := Send(afterDelete, Influences.SchemaReadsRows, "Influence");
  }

  /**
    tests/api/test_roles.py, delete then get: the delete finds the role,
    removes it and answers 204; the written get then answers 200 with no
    role, the corrected one 404 "Role not found".
   */
  method RoleDeleteThenGet(name: string, description: string)
    returns (deleted: HandlerResult<Deleted>, asWritten: Response<Option<RoleService.Role>>, corrected: Response<RoleService.Role>)
    ensures deleted == Respond(204, DeletedDetail("Role deleted successfully."))
    ensures asWritten == Success(200, None)
    ensures corrected == Failure(404, DetailOf(Message("Role not found")), [])
  {
    var db := new Table<RoleService.Role>();
    var role := RoleService.CreateRole(db, name, description);
    deleted := Roles.DeleteRoleFromTable(db, name);
    assert db.rows == [];
    var gone := RoleService.GetRole(db, name);
    asWritten := Roles.GetRoleSent(Returned(gone));
    corrected := Serve(Roles.GetRoleCorrected(Returned(gone)));
  }

  /**
    POST /feedback/: the body is validated against FeedbackCreate before
    the route runs.  An invalid body is 422 with the field errors and
    stores nothing; a valid one is stored as given, and then the Feedback
    schema refuses the row, so the client gets 500.
   */
  method PostFeedback(db: Table<FeedbackService.Feedback>, user: Option<string>, content: Option<string>)
    returns (resp: Response<FeedbackService.Feedback>)
    modifies db
    ensures ParseFeedbackCreate(user, content).Invalid? ==>
      resp == Failure(422, ErrorList(ParseFeedbackCreate(user, content).errors), []) && db.rows == old(db.rows)
    ensures ParseFeedbackCreate(user, content).Valid? ==>
      var body := ParseFeedbackCreate(user, content).value;
      resp == InternalFailure()
      && db.rows == old(db.rows) + [FeedbackService.Feedback(body.user, body.content)]
  {
    match ParseFeedbackCreate(user, content)
    case Invalid(errors) =>
      resp := Serve(Raise(RequestValidation(errors)));
    case Valid(body) =>
      var feedback := FeedbackService.CreateFeedback(db, body.user, body.content);
      resp := FeedbackRoutes.CreateFeedbackSent(Returned(feedback));
  }

  /** A whitespace-only user is refused with 422 and the message of the validator; nothing is stored. */
  method PostBlankUser(content: string) returns (resp: Response<FeedbackService.Feedback>, stored: seq<FeedbackService.Feedback>)
    ensures resp.Failure? && resp.status == 422 && resp.content.ErrorList?
    ensures |resp.content.errors| > 0 && resp.content.errors[0] == FieldError("user", Custom(BlankMessage("user")))
    ensures stored == []
  {
    var db := new Table<FeedbackService.Feedback>();
    FeedbackCreateErrors(Some("   "), Some(content));
    assert Text.IsBlank("   ") by {
      assert forall i | 0 <= i < 3 :: "   "[i] == ' ';
    }
    resp := PostFeedback(db, Some("   "), Some(content));
    stored := db.rows;
  }

  /**
    POST /training/ as written: an invalid body is 422 and stores
    nothing; a valid one is committed as given, and then the Training
    schema refuses the row, so the client gets 500 for a row that is
    stored.
   */
  method PostTraining(db: Table<TrainingService.Training>, title: Option<string>, content: Option<string>)
    returns (resp: Response<TrainingService.Training>)
    modifies db
    ensures ParseTrainingCreate(title, content).Invalid? ==>
      resp == Failure(422, ErrorList(ParseTrainingCreate(title, content).errors), []) && db.rows == old(db.rows)
    ensures ParseTrainingCreate(title, content).Valid? ==>
      var body := ParseTrainingCreate(title, content).value;
      resp == InternalFailure()
      && db.rows == old(db.rows) + [TrainingService.Training(body.title, body.content)]
  {
    match ParseTrainingCreate(title, content)
    case Invalid(errors) =>
      resp := Serve(Raise(RequestValidation(errors)));
    case Valid(body) =>
      var training := TrainingService.CreateTraining(db, body.title, body.content);
      resp := TrainingRoutes.CreateTrainingSent(Returned(training));
  }

  /** POST /scaling/ as written: the new row is stored with a fresh id, and the client gets 500. */
  method PostScaling(db: ScalingService.ScalingTable, strategy: string) returns (resp: Response<ScalingService.Scaling>)
    requires db.Valid()
    modifies db
    ensures db.Valid()
    ensures |db.rows| == |old(db.rows)| + 1 && db.rows[..|old(db.rows)|] == old(db.rows)
    ensures db.rows[|old(db.rows)|].strategy == strategy
    ensures resp == InternalFailure()
  {
    var scaling := ScalingService.ApplyScaling(db, strategy);
    resp := ScalingRoutes.ApplyScalingSent(Returned(scaling));
  }

  /**
    POST /ethics/ as written: the parent and its children are committed,
    and the client gets 500, so it never learns the new id.
   */
  method PostEthics(db: EthicsService.EthicsStore, principles: seq<string>) returns (resp: Response<EthicsService.Ethics>)
    requires db.Valid()
    modifies db
    ensures db.Valid()
    ensures |db.ethics| == |old(db.ethics)| + 1 && db.ethics[..|old(db.ethics)|] == old(db.ethics)
    ensures db.principles == old(db.principles) + EthicsService.ChildRows(db.ethics[|old(db.ethics)|].id, principles)
    ensures resp == InternalFailure()
  {
    var ethics := EthicsService.ApplyEthics(db, principles);
    resp := EthicsRoutes.ApplyEthicsSent(Returned(ethics));
  }
}
