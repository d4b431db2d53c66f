/** What an Express route handler does with a request: answer it, or pass an error to `next`. */
module Http {
  import opened Js
  import opened Errors

  /** A JSON response body: one object or a list of them. */
  datatype Body = One(record: Object) | Many(records: seq<Object>)

  /** `res.status(status).json(body)`, or `next(error)`, which the error handler then answers. */
  datatype Reply = Respond(status: int, body: Body) | Forward(error: ApiError)

  /** The status the client finally sees. */
  function FinalStatus(r: Reply, nodeEnv: Value): (s: Value)
    ensures r.Respond? ==> s == Num(r.status)
    ensures r.Forward? && r.error.statusCode != 0 ==> s == Num(r.error.statusCode)
  {
    match r
    case Respond(status, _) => Num(status)
    case Forward(e) => ErrorHandler(FaultOf(e), nodeEnv).status
  }
}
