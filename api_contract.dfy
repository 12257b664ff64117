/**
  The behaviour the API tests check for every entity route
  (tests/api/test_*.py): a created row comes back with 201, a present key
  is returned with 200, a delete answers 204, and a key that is not
  stored is answered 404 with "<Entity> not found".  Each route module
  is compared with these predicates on the response its handler's result
  gives, before FastAPI checks a returned body against the route's
  response_model (module Responses, where most of these routes fail).
 */
module ApiContract {

  import opened Wrappers
  import opened Http
  import opened ErrorHandler

  /** A get-by-key route: 200 with the row when present, 404 with the not-found text when absent. */
  predicate GetConforms<T(==)>(o: Outcome<Option<T>>, r: HandlerResult<T>, notFound: string) {
    match o
    case Returned(Some(v)) => Serve(r) == Success(200, v)
    case Returned(None) => Serve(r) == Failure(404, DetailOf(Message(notFound)), [])
    case Raised(_) => true
  }

  /** A create route: 201 with exactly the row the service returned. */
  predicate CreateConforms<T(==)>(o: Outcome<T>, r: HandlerResult<T>) {
    o.Returned? ==> Serve(r) == Success(201, o.value)
  }

  /** A list route: 200 with every row the service returned. */
  predicate ListConforms<T(==)>(o: Outcome<seq<T>>, r: HandlerResult<seq<T>>) {
    o.Returned? ==> Serve(r) == Success(200, o.value)
  }

  /** A delete route: 204 once the service call has completed, whether or not a row was removed. */
  predicate DeleteConforms<T>(o: Outcome<T>, r: HandlerResult<Deleted>) {
    o.Returned? ==> Serve(r).Success? && Serve(r).status == 204
  }

  /** A guarded route: a failing service call is answered with the given status and a detail naming the cause. */
  predicate FailureReported<T, U>(o: Outcome<T>, r: HandlerResult<U>, status: int, prefix: string) {
    o.Raised? ==> Serve(r) == Failure(status, DetailOf(WithCause(prefix, o.error)), [])
  }
}
