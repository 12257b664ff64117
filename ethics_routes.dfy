/**
  The ethics routes (app/api/v1/endpoints/ethics.py): apply, list and
  delete by id, each guarded by `except Exception` answering 400.
 */
module EthicsRoutes {

  import opened Wrappers
  import opened Http
  import opened ErrorHandler
  import opened Responses
  import opened ApiContract
  import S = EthicsService

  type Ethics = S.Ethics

  /** POST /: 201 with the new ethics row; a failure is 400 "Error applying ethics principles: ...". */
  function ApplyEthics(o: Outcome<Ethics>): (r: HandlerResult<Ethics>)
    ensures CreateConforms(o, r)
    ensures FailureReported(o, r, 400, "Error applying ethics principles: ")
  {
    ExceptAny(o, 201, 400, "Error applying ethics principles: ")
  }

  /** GET /: 200 with every ethics row; a failure is 400 "Error retrieving ethics principles: ...". */
  function GetAllEthics(o: Outcome<seq<Ethics>>): (r: HandlerResult<seq<Ethics>>)
    ensures ListConforms(o, r)
    ensures FailureReported(o, r, 400, "Error retrieving ethics principles: ")
  {
    ExceptAny(o, 200, 400, "Error retrieving ethics principles: ")
  }

  /** DELETE /{id}: 204 whether or not the id existed; a failure is 400 "Error deleting ethics principles: ...". */
  function DeleteEthics(o: Outcome<()>): (r: HandlerResult<Deleted>)
    ensures DeleteConforms(o, r)
    ensures FailureReported(o, r, 400, "Error deleting ethics principles: ")
  {
    ExceptAny(Then(o, NoContent), 204, 400, "Error deleting ethics principles: ")
  }

  /**
    app/schemas/ethics.py: the Ethics response schema sets no orm_mode,
    and its principles are strings where the row holds EthicalPrinciple
    objects, so it reads no row.
   */
  const SchemaReadsRows := false

  /** POST / as the client receives it: the schema refuses the stored row, so 500; a failure stays 400. */
  function ApplyEthicsSent(o: Outcome<Ethics>): (resp: Response<Ethics>)
    ensures o.Returned? ==> resp == InternalFailure()
    ensures o.Raised? ==> resp == Failure(400, DetailOf(WithCause("Error applying ethics principles: ", o.error)), [])
  {
    Send(ApplyEthics(o), SchemaReadsRows, "Ethics")
  }

  /** POST / with a response schema that reads the row (orm_mode, principles read as their text): 201 with it. */
  function ApplyEthicsWithOrmMode(o: Outcome<Ethics>): (resp: Response<Ethics>)
    ensures o.Returned? ==> resp == Success(201, o.value)
    ensures o.Raised? ==> resp == ApplyEthicsSent(o)
  {
    Send(ApplyEthics(o), true, "Ethics")
  }

  /** GET / as the client receives it: only an empty store passes List[Ethics]; any row makes it 500. */
  function GetAllEthicsSent(o: Outcome<seq<Ethics>>): (resp: Response<seq<Ethics>>)
    ensures o.Returned? ==> (resp == Success(200, o.value) <==> o.value == [])
    ensures o.Returned? && o.value != [] ==> resp == InternalFailure()
    ensures o.Raised? ==> resp == Failure(400, DetailOf(WithCause("Error retrieving ethics principles: ", o.error)), [])
  {
    Send(GetAllEthics(o), SchemaReadsRows || (o.Returned? && o.value == []), "List[Ethics]")
  }
}
