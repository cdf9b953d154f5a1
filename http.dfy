/** What an Express handler sends back: a status code and a JSON body. */
module Http {
  import opened Js

  datatype Response = Response(status: int, body: Value)

  /** `res.status(status).json({ error: message })` */
  function ErrorResponse(status: int, message: string): (r: Response)
    ensures r.status == status && r.body.Obj? && r.body.props.Keys == {"error"}
    ensures r.body.props["error"] == Str(message)
  {
    Response(status, Obj(map["error" := Str(message)]))
  }
}
