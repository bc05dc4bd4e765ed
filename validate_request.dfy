/**
 * The validation gate (middleware/validateRequest.js): the errors collected by
 * a route's rule chain decide between a 400 answer and the next handler.
 */
module ValidateRequest {
  import opened Http

  /** The JSON body `{success, errors}`. */
  datatype InvalidBody<+E> = InvalidBody(success: bool, errors: seq<E>)

  /** The gate applied to the list `validationResult(req).array()`. */
  function Gate<E>(errors: seq<E>): (r: Outcome<InvalidBody<E>>)
    ensures !r.NextError?
    ensures r.Next? <==> errors == []
    ensures r.Respond? ==> r.status == 400 && r.body == InvalidBody(false, errors)
  {
    if errors != [] then Respond(400, InvalidBody(false, errors)) else Next
  }
}
