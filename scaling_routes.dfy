/**
  The scaling routes (app/api/v1/endpoints/scaling.py).  Only creation is
  routed; the service's get, delete and list have no route.
 */
module ScalingRoutes {

  import opened Wrappers
  import opened Http
  import opened ErrorHandler
  import opened Responses
  import opened ApiContract
  import S = ScalingService

  type Scaling = S.Scaling

  /** POST /: 201 with the new row; a failure is 400 "Error applying scaling strategy: ...". */
  function ApplyScaling(o: Outcome<Scaling>): (r: HandlerResult<Scaling>)
    ensures CreateConforms(o, r)
    ensures FailureReported(o, r, 400, "Error applying scaling strategy: ")
  {
    ExceptAny(o, 201, 400, "Error applying scaling strategy: ")
  }

  /** app/schemas/scaling.py: the Scaling response schema sets no orm_mode, so it reads no row. */
  const SchemaReadsRows := false

  /** POST / as the client receives it: the schema refuses the stored row, so 500; a failure stays 400. */
  function ApplyScalingSent(o: Outcome<Scaling>): (resp: Response<Scaling>)
    ensures o.Returned? ==> resp == InternalFailure()
    ensures o.Raised? ==> resp == Failure(400, DetailOf(WithCause("Error applying scaling strategy: ", o.error)), [])
  {
    Send(ApplyScaling(o), SchemaReadsRows, "Scaling")
  }

  /** POST / with orm_mode set on the Scaling schema: the new row is sent with 201, failures as before. */
  function ApplyScalingWithOrmMode(o: Outcome<Scaling>): (resp: Response<Scaling>)
    ensures o.Returned? ==> resp == Success(201, o.value)
    ensures o.Raised? ==> resp == ApplyScalingSent(o)
  {
    Send(ApplyScaling(o), true, "Scaling")
  }
}
