/** HTTP responses as the handlers produce them, and the four JSON error
    responses every route shares. */
module Errors {
  import opened Wrappers
  import opened Json

  /** What a response carries. */
  datatype Body =
    | JsonBody(json: Json)
    /** `new Response(null, ...)`. */
    | NoBody
    /** The OAuth approval page: its hidden form fields (name, escaped value) and
        its error line, if any. */
    | AuthorizePage(hidden: seq<(string, string)>, error: Option<string>)
    /** A 302 redirect to `base` with the query parameters set on it, in order. */
    | Redirect(base: string, params: seq<(string, string)>)
    /** A stored object streamed back with its headers. */
    | Stream(contentType: string, disposition: string, cacheControl: string, objectKey: string)

  /** A response, or an exception that escaped the handler (answered by the
      framework with a 500). */
  datatype Response = Reply(status: int, body: Body) | Thrown(message: string)

  /** `c.json(j, status)`. */
  function JsonReply(j: Json, status: int): Response {
    Reply(status, JsonBody(j))
  }

  function ErrorJson(message: string): Json {
    JObj([("error", JStr(message))])
  }

  /** The `error` field of a JSON response, when it has a string one. */
  function ErrorMessage(r: Response): Option<string> {
    if r.Reply? && r.body.JsonBody? && Get(r.body.json, "error").Some? && Get(r.body.json, "error").value.JStr?
    then Some(Get(r.body.json, "error").value.s)
    else None
  }

  /** `notFound(message)`; `None` stands for a call without an argument. */
  function NotFound(message: Option<string>): (r: Response)
    ensures r.Reply? && r.status == 404
    ensures ErrorMessage(r) == Some(message.GetOr("Not found"))
  {
    JsonReply(ErrorJson(message.GetOr("Not found")), 404)
  }

  function BadRequest(message: Option<string>): (r: Response)
    ensures r.Reply? && r.status == 400
    ensures ErrorMessage(r) == Some(message.GetOr("Bad request"))
  {
    JsonReply(ErrorJson(message.GetOr("Bad request")), 400)
  }

  function Unauthorized(): (r: Response)
    ensures r.Reply? && r.status == 401
    ensures ErrorMessage(r) == Some("Unauthorized")
  {
    JsonReply(ErrorJson("Unauthorized"), 401)
  }

  function ServerError(message: Option<string>): (r: Response)
    ensures r.Reply? && r.status == 500
    ensures ErrorMessage(r) == Some(message.GetOr("Internal server error"))
  {
    JsonReply(ErrorJson(message.GetOr("Internal server error")), 500)
  }
}
