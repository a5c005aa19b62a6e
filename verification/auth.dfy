/** The `Authorization: Bearer <API_KEY>` gate in front of the `/api` routes and `/mcp`
    (section 2.1 of RFC 6750, with a single shared key). */
module Auth {
  import opened Wrappers
  import opened Strings
  import opened Errors

  /** What the middleware does with a request: call `next()` once, or answer it
      itself without calling `next()`. */
  datatype Gate = CallNext | Answer(response: Response)

  const Scheme: string := "Bearer "

  /** The token in an `Authorization` header: the text after the exact,
      case-sensitive prefix `Bearer `; a missing header reads as "". */
  function BearerToken(header: Option<string>): (t: Option<string>)
    ensures t.Some? <==> StartsWith(header.GetOr(""), Scheme)
    ensures t.Some? ==> header == Some(Scheme + t.value)
  {
    var h := header.GetOr("");
    if StartsWith(h, Scheme) then
      assert h == Scheme + h[|Scheme|..];
      Some(h[|Scheme|..])
    else None
  }

  /** `bearerAuth()`: the request goes through exactly when the header is `Bearer `
      followed by the configured key and that key is not empty; otherwise the answer
      is 401 `Unauthorized`. An unset `API_KEY` lets nothing through. */
  function BearerAuth(header: Option<string>, apiKey: Option<string>): (g: Gate)
    ensures g.CallNext? <==> apiKey.Some? && apiKey.value != "" && header == Some(Scheme + apiKey.value)
    ensures g.Answer? ==> g.response.Reply? && g.response.status == 401
                          && ErrorMessage(g.response) == Some("Unauthorized")
  {
    var token := BearerToken(header);
    if token.None? || token.value == "" || Some(token.value) != apiKey then Answer(Unauthorized())
    else CallNext
  }
}
