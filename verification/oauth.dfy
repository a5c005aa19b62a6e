/** The OAuth 2.0 authorization server the MCP client signs in with: dynamic
    client registration (RFC 7591), the approval page and the authorization
    endpoint (section 4.1 of RFC 6749), and the token endpoint with PKCE
    (RFC 7636), as operations on the clients, codes and tokens tables. */
module OAuth {
  import opened Wrappers
  import opened Json
  import opened Queries
  import opened Store
  import opened Errors
  import Strings

  const BaseUrl: string := "https://sfl-api.aiwdm.workers.dev"

  /** An authorization code is good for one minute after it is issued. */
  const CodeLifetime: int := 60000

  // ---------------------------------------------------------------- esc

  /** `esc(str)`: `String(str ?? '')` with `&`, `"` and `<` replaced by their
      entities, one global replacement after another. */
  function Esc(v: Option<string>): (r: string)
    ensures v.None? ==> r == ""
    ensures '"' !in r && '<' !in r
    ensures '&' !in v.GetOr("") && '"' !in v.GetOr("") && '<' !in v.GetOr("") ==> r == v.GetOr("")
  {
    var s := v.GetOr("");
    if '&' !in s && '"' !in s && '<' !in s then
      Strings.ReplaceAllAbsent(s, '&', "&amp;");
      Strings.ReplaceAllAbsent(s, '"', "&quot;");
      Strings.ReplaceAllAbsent(s, '<', "&lt;");
      Strings.ReplaceThree(s, '&', "&amp;", '"', "&quot;", '<', "&lt;")
    else Strings.ReplaceThree(s, '&', "&amp;", '"', "&quot;", '<', "&lt;")
  }

  /** The entity a character is written as inside an attribute value. */
  function EscapeChar(c: char): string {
    if c == '&' then "&amp;" else if c == '"' then "&quot;" else if c == '<' then "&lt;" else [c]
  }

  /** Escaping in one pass, character by character. */
  function Escaped(s: string): string {
    if |s| == 0 then "" else EscapeChar(s[0]) + Escaped(s[1..])
  }

  /** The three passes of `esc` escape every character exactly once: an entity one
      pass introduces holds none of the characters a later pass replaces. */
  lemma {:induction false} EscIsEscaped(s: string)
    ensures Esc(Some(s)) == Escaped(s)
    decreases |s|
  {
    if |s| == 0 {
      assert Esc(Some(s)) == "";
    } else {
      EscIsEscaped(s[1..]);
      assert s == [s[0]] + s[1..];
      Strings.ReplaceThreeConcat([s[0]], s[1..], '&', "&amp;", '"', "&quot;", '<', "&lt;");
      Strings.ReplaceThreeOne(s[0], '&', "&amp;", '"', "&quot;", '<', "&lt;");
    }
  }

  /** How the browser reads an escaped attribute value back: the three entities
      become their characters again. */
  function Unescape(s: string): string
    decreases |s|
  {
    if |s| == 0 then ""
    else if Strings.StartsWith(s, "&amp;") then "&" + Unescape(s[5..])
    else if Strings.StartsWith(s, "&quot;") then "\"" + Unescape(s[6..])
    else if Strings.StartsWith(s, "&lt;") then "<" + Unescape(s[4..])
    else [s[0]] + Unescape(s[1..])
  }

  /** A text that differs from `prefix` at a position both have does not start with it. */
  lemma Mismatch(e: string, prefix: string, i: nat)
    requires i < |prefix| && i < |e| && e[i] != prefix[i]
    ensures !Strings.StartsWith(e, prefix)
  {
    if |prefix| <= |e| {
      assert e[..|prefix|][i] == e[i];
    }
  }

  lemma UnescapeStep(c: char, rest: string)
    ensures Unescape(EscapeChar(c) + rest) == [c] + Unescape(rest)
  {
    var e := EscapeChar(c) + rest;
    if c == '&' {
      assert e[..5] == "&amp;" && e[5..] == rest;
    } else if c == '"' {
      Mismatch(e, "&amp;", 1);
      assert e[..6] == "&quot;" && e[6..] == rest;
    } else if c == '<' {
      Mismatch(e, "&amp;", 1);
      Mismatch(e, "&quot;", 1);
      assert e[..4] == "&lt;" && e[4..] == rest;
    } else {
      Mismatch(e, "&amp;", 0);
      Mismatch(e, "&quot;", 0);
      Mismatch(e, "&lt;", 0);
      assert e[1..] == rest;
    }
  }

  /** A value put in a hidden field of the approval page is what the browser posts
      back: unescaping undoes `esc`. */
  lemma {:induction false} UnescapeEsc(v: Option<string>)
    ensures Unescape(Esc(v)) == v.GetOr("")
  {
    EscIsEscaped(v.GetOr(""));
    UnescapeEscaped(v.GetOr(""));
  }

  lemma {:induction false} UnescapeEscaped(s: string)
    ensures Unescape(Escaped(s)) == s
    decreases |s|
  {
    if |s| > 0 {
      UnescapeEscaped(s[1..]);
      UnescapeStep(s[0], Escaped(s[1..]));
      assert s == [s[0]] + s[1..];
    }
  }

  // ---------------------------------------------------------------- PKCE

  /** The encoding step of `verifyPKCE`: the `btoa` output with `+` made `-`, `/`
      made `_` and the `=` padding dropped (base64url without padding, section 5
      of RFC 4648). */
  function UrlSafe(b64: string): (r: string)
    ensures '+' !in r && '/' !in r && '=' !in r
    ensures '+' !in b64 && '/' !in b64 && '=' !in b64 ==> r == b64
  {
    if '+' !in b64 && '/' !in b64 && '=' !in b64 then
      Strings.ReplaceAllAbsent(b64, '+', "-");
      Strings.ReplaceAllAbsent(b64, '/', "_");
      Strings.ReplaceAllAbsent(b64, '=', "");
      Strings.ReplaceThree(b64, '+', "-", '/', "_", '=', "")
    else Strings.ReplaceThree(b64, '+', "-", '/', "_", '=', "")
  }

  /** The base64url form of one base64 character. */
  function UrlChar(c: char): string {
    if c == '+' then "-" else if c == '/' then "_" else if c == '=' then "" else [c]
  }

  function UrlSafeByChar(b64: string): string {
    if |b64| == 0 then "" else UrlChar(b64[0]) + UrlSafeByChar(b64[1..])
  }

  /** The three replacements rewrite each character on its own. */
  lemma {:induction false} UrlSafeIsByChar(b64: string)
    ensures UrlSafe(b64) == UrlSafeByChar(b64)
    decreases |b64|
  {
    if |b64| == 0 {
      assert UrlSafe(b64) == "";
    } else {
      UrlSafeIsByChar(b64[1..]);
      assert b64 == [b64[0]] + b64[1..];
      Strings.ReplaceThreeConcat([b64[0]], b64[1..], '+', "-", '/', "_", '=', "");
      Strings.ReplaceThreeOne(b64[0], '+', "-", '/', "_", '=', "");
    }
  }

  /** Encoding twice is encoding once. */
  lemma UrlSafeIdempotent(b64: string)
    ensures UrlSafe(UrlSafe(b64)) == UrlSafe(b64)
  {
  }

  /** `verifyPKCE`: the S256 transform of the verifier equals the stored challenge.
      `sha256` stands for SHA-256 of the UTF-8 text and `btoa` for the standard
      base64 encoding of the digest. */
  predicate VerifyPkce(verifier: string, challenge: string, sha256: string -> seq<bv8>, btoa: seq<bv8> -> string): (b: bool)
    ensures b ==> '+' !in challenge && '/' !in challenge && '=' !in challenge
    ensures var b64 := btoa(sha256(verifier));
      '+' !in b64 && '/' !in b64 && '=' !in b64 ==> (b <==> b64 == challenge)
  {
    UrlSafe(btoa(sha256(verifier))) == challenge
  }

  // ---------------------------------------------------------------- the tables

  function FindClient(clients: seq<Client>, id: string): (r: Option<Client>)
    ensures r.Some? ==> r.value in clients && r.value.clientId == id
    ensures r.None? <==> forall i :: 0 <= i < |clients| ==> clients[i].clientId != id
  {
    First(clients, KeyIs(ClientKey, id))
  }

  function FindCode(codes: seq<Code>, code: string): (r: Option<Code>)
    ensures r.Some? ==> r.value in codes && r.value.code == code
    ensures r.None? <==> forall i :: 0 <= i < |codes| ==> codes[i].code != code
  {
    First(codes, KeyIs(CodeKey, code))
  }

  predicate TokenTaken(tokens: seq<Token>, token: string) {
    exists i :: 0 <= i < |tokens| && tokens[i].token == token
  }

  /** `INSERT INTO oauth_clients`: appended unless the client id is taken. */
  method InsertClient(db: Database, row: Client) returns (r: Result<()>)
    requires db.Valid()
    modifies db
    ensures db.Valid()
    ensures r.Ok? <==> FindClient(old(db.clients), row.clientId).None?
    ensures db.clients == if r.Ok? then old(db.clients) + [row] else old(db.clients)
    ensures db.ideas == old(db.ideas) && db.connections == old(db.connections) && db.notes == old(db.notes)
    ensures db.media == old(db.media) && db.codes == old(db.codes) && db.tokens == old(db.tokens)
  {
    if FindClient(db.clients, row.clientId).Some? {
      return Err("UNIQUE constraint failed: oauth_clients.client_id");
    }
    var clients := db.clients;
    forall k | 0 <= k < |clients| ensures !SameKeyOf(ClientKey)(clients[k], row) {
      assert ClientKey(clients[k]) != ClientKey(row);
    }
    AppendDistinct(clients, row, SameKeyOf(ClientKey));
    assert OAuthValid(clients + [row], db.codes, db.tokens);
    assert ContentValid(db.ideas, db.connections, db.notes, db.media);
    db.clients := clients + [row];
    ValidFromParts(db);
    r := Ok(());
  }

  /** `INSERT INTO oauth_codes`: appended unless the code is taken. */
  method InsertCode(db: Database, row: Code) returns (r: Result<()>)
    requires db.Valid()
    modifies db
    ensures db.Valid()
    ensures r.Ok? <==> FindCode(old(db.codes), row.code).None?
    ensures db.codes == if r.Ok? then old(db.codes) + [row] else old(db.codes)
    ensures db.ideas == old(db.ideas) && db.connections == old(db.connections) && db.notes == old(db.notes)
    ensures db.media == old(db.media) && db.clients == old(db.clients) && db.tokens == old(db.tokens)
  {
    if FindCode(db.codes, row.code).Some? {
      return Err("UNIQUE constraint failed: oauth_codes.code");
    }
    var codes := db.codes;
    forall k | 0 <= k < |codes| ensures !SameKeyOf(CodeKey)(codes[k], row) {
      assert CodeKey(codes[k]) != CodeKey(row);
    }
    AppendDistinct(codes, row, SameKeyOf(CodeKey));
    assert OAuthValid(db.clients, codes + [row], db.tokens);
    assert ContentValid(db.ideas, db.connections, db.notes, db.media);
    db.codes := codes + [row];
    ValidFromParts(db);
    r := Ok(());
  }

  /** `DELETE FROM oauth_codes WHERE code = ?`. */
  method DeleteCode(db: Database, code: string)
    requires db.Valid()
    modifies db
    ensures db.Valid()
    ensures db.codes == WithoutKey(old(db.codes), CodeKey, code)
    ensures FindCode(db.codes, code).None?
    ensures db.ideas == old(db.ideas) && db.connections == old(db.connections) && db.notes == old(db.notes)
    ensures db.media == old(db.media) && db.clients == old(db.clients) && db.tokens == old(db.tokens)
  {
    var codes := db.codes;
    assert OAuthValid(db.clients, codes, db.tokens) && ContentValid(db.ideas, db.connections, db.notes, db.media);
    FilterDistinct(codes, NotKey(CodeKey, code), SameKeyOf(CodeKey));
    WithoutKeyNotFound(codes, CodeKey, code);
    db.codes := WithoutKey(codes, CodeKey, code);
    ValidFromParts(db);
  }

  /** `INSERT INTO oauth_tokens`: appended unless the token is taken. */
  method InsertToken(db: Database, row: Token) returns (r: Result<()>)
    requires db.Valid()
    modifies db
    ensures db.Valid()
    ensures r.Ok? <==> !TokenTaken(old(db.tokens), row.token)
    ensures db.tokens == if r.Ok? then old(db.tokens) + [row] else old(db.tokens)
    ensures db.ideas == old(db.ideas) && db.connections == old(db.connections) && db.notes == old(db.notes)
    ensures db.media == old(db.media) && db.clients == old(db.clients) && db.codes == old(db.codes)
  {
    if TokenTaken(db.tokens, row.token) {
      return Err("UNIQUE constraint failed: oauth_tokens.token");
    }
    var tokens := db.tokens;
    forall k | 0 <= k < |tokens| ensures !SameKeyOf(TokenKey)(tokens[k], row) {
      assert TokenKey(tokens[k]) != TokenKey(row);
    }
    AppendDistinct(tokens, row, SameKeyOf(TokenKey));
    assert OAuthValid(db.clients, db.codes, tokens + [row]);
    assert ContentValid(db.ideas, db.connections, db.notes, db.media);
    db.tokens := tokens + [row];
    ValidFromParts(db);
    r := Ok(());
  }

  // ---------------------------------------------------------------- responses

  /** `c.json({ error, error_description }, status)`; the description is left out
      when there is none. */
  function OAuthError(error: string, description: Option<string>, status: int): (r: Response)
    ensures r.Reply? && r.status == status && r.body.JsonBody?
    ensures ErrorMessage(r) == Some(error)
    ensures Get(r.body.json, "error_description") == if description.Some? then Some(JStr(description.value)) else None
  {
    if description.None? then JsonReply(ErrorJson(error), status)
    else
      var fields := [("error", JStr(error)), ("error_description", JStr(description.value))];
      LookupAt(fields, 1);
      JsonReply(JObj(fields), status)
  }

  /** The `error_description` of a JSON error response. */
  function ErrorDescription(r: Response): Option<Json> {
    if r.Reply? && r.body.JsonBody? then Get(r.body.json, "error_description") else None
  }

  /** The discovery document of `/.well-known/oauth-authorization-server`
      (section 2 of RFC 8414): the three endpoints under the deployment's base URL,
      the code flow with S256 challenges only, and public clients. */
  function Metadata(): (j: Json)
    ensures Get(j, "issuer") == Some(JStr(BaseUrl))
    ensures Get(j, "authorization_endpoint") == Some(JStr(BaseUrl + "/oauth/authorize"))
    ensures Get(j, "token_endpoint") == Some(JStr(BaseUrl + "/oauth/token"))
    ensures Get(j, "registration_endpoint") == Some(JStr(BaseUrl + "/oauth/register"))
    ensures Get(j, "code_challenge_methods_supported") == Some(JArr([JStr("S256")]))
  {
    var fields := [
      ("issuer", JStr(BaseUrl)),
      ("authorization_endpoint", JStr(BaseUrl + "/oauth/authorize")),
      ("token_endpoint", JStr(BaseUrl + "/oauth/token")),
      ("registration_endpoint", JStr(BaseUrl + "/oauth/register")),
      ("response_types_supported", JArr([JStr("code")])),
      ("grant_types_supported", JArr([JStr("authorization_code")])),
      ("code_challenge_methods_supported", JArr([JStr("S256")])),
      ("token_endpoint_auth_methods_supported", JArr([JStr("none")]))];
    assert forall i, j :: 0 <= i < j < |fields| ==> |fields[i].0| != |fields[j].0| || fields[i].0[0] != fields[j].0[0];
    LookupDistinct(fields);
    assert fields[1].0 == "authorization_endpoint" && fields[2].0 == "token_endpoint";
    assert fields[3].0 == "registration_endpoint" && fields[6].0 == "code_challenge_methods_supported";
    JObj(fields)
  }

  // ---------------------------------------------------------------- registration

  /** The registration response (section 3.2.1 of RFC 7591). `client_id_issued_at`
      is in seconds, `Math.floor(now / 1000)`. */
  function RegistrationJson(clientId: string, uris: seq<Json>, now: int): (j: Json)
    ensures Get(j, "client_id") == Some(JStr(clientId))
    ensures Get(j, "redirect_uris") == Some(JArr(uris))
    ensures Get(j, "client_id_issued_at") == Some(JNum(now / 1000))
    ensures Get(j, "token_endpoint_auth_method") == Some(JStr("none"))
  {
    var fields := [
      ("client_id", JStr(clientId)), ("redirect_uris", JArr(uris)), ("client_id_issued_at", JNum(now / 1000)),
      ("grant_types", JArr([JStr("authorization_code")])), ("response_types", JArr([JStr("code")])),
      ("token_endpoint_auth_method", JStr("none"))];
    assert forall i, j :: 0 <= i < j < |fields| ==> |fields[i].0| != |fields[j].0|;
    LookupDistinct(fields);
    assert fields[1].0 == "redirect_uris" && fields[2].0 == "client_id_issued_at" && fields[5].0 == "token_endpoint_auth_method";
    JObj(fields)
  }

  /** The registered redirect URIs in a registration body: a non-empty array. */
  function RedirectUris(body: Json): (r: Option<seq<Json>>)
    ensures r.Some? <==> Get(body, "redirect_uris").Some? && Get(body, "redirect_uris").value.JArr?
                         && |Get(body, "redirect_uris").value.items| > 0
    ensures r.Some? ==> Get(body, "redirect_uris") == Some(JArr(r.value))
  {
    match Get(body, "redirect_uris")
    case Some(JArr(items)) => if |items| > 0 then Some(items) else None
    case _ => None
  }

  /** `POST /oauth/register`. `body` is the parsed JSON body, `None` where it is not
      JSON. A client is stored exactly when the answer is 201. */
  method Register(db: Database, ids: IdGen, body: Option<Json>, now: int) returns (r: Response)
    requires db.Valid()
    modifies db, ids
    ensures db.Valid()
    ensures body.None? ==> r == OAuthError("invalid_request", None, 400)
    ensures body == Some(JNull) ==> r.Thrown?
    ensures body.Some? && body.value != JNull && RedirectUris(body.value).None? ==>
      r == OAuthError("invalid_request", Some("redirect_uris required"), 400)
    ensures r.Reply? && r.status == 201 <==>
      body.Some? && body.value != JNull && RedirectUris(body.value).Some?
      && FindClient(old(db.clients), ids.source(old(ids.issued))).None?
    ensures r.Reply? && r.status == 201 ==>
      var client := Client(ids.source(old(ids.issued)), RedirectUris(body.value).value, now);
      && db.clients == old(db.clients) + [client]
      && r == JsonReply(RegistrationJson(client.clientId, client.redirectUris, now), 201)
    ensures !(r.Reply? && r.status == 201) ==> db.clients == old(db.clients)
    ensures db.ideas == old(db.ideas) && db.connections == old(db.connections) && db.notes == old(db.notes)
    ensures db.media == old(db.media) && db.codes == old(db.codes) && db.tokens == old(db.tokens)
  {
    if body.None? {
      return OAuthError("invalid_request", None, 400);
    }
    if body.value == JNull {
      return Thrown("Cannot destructure property 'redirect_uris' of 'body' as it is null.");
    }
    var uris := RedirectUris(body.value);
    if uris.None? {
      return OAuthError("invalid_request", Some("redirect_uris required"), 400);
    }
    var clientId := ids.Next();
    var inserted := InsertClient(db, Client(clientId, uris.value, now));
    if inserted.Err? {
      return Thrown(inserted.message);
    }
    r := JsonReply(RegistrationJson(clientId, uris.value, now), 201);
  }

  // ---------------------------------------------------------------- authorization

  /** The parameters the approval page carries through: the query of
      `GET /oauth/authorize`, then the fields of the form it posts. Absent
      parameters are `None`. */
  datatype AuthParams = AuthParams(
    clientId: Option<string>, redirectUri: Option<string>, state: Option<string>,
    challenge: Option<string>, challengeMethod: Option<string>)

  /** The hidden fields of the approval page, each value escaped. */
  function HiddenFields(p: AuthParams): seq<(string, string)> {
    [("client_id", Esc(p.clientId)), ("redirect_uri", Esc(p.redirectUri)), ("state", Esc(p.state)),
     ("code_challenge", Esc(p.challenge)), ("code_challenge_method", Esc(p.challengeMethod))]
  }

  /** The client a request names. `None` for the id stands for an absent parameter,
      which D1 refuses to bind. */
  function LookupClient(clients: seq<Client>, clientId: Option<string>): (r: Result<Option<Client>>)
    ensures r.Err? <==> clientId.None?
    ensures r.Ok? ==> r.value == FindClient(clients, clientId.value)
  {
    if clientId.None? then Err(TypeError("undefined", "undefined")) else Ok(FindClient(clients, clientId.value))
  }

  /** The redirect URI is one the client registered (`Array.prototype.includes`). */
  predicate Registered(client: Client, redirectUri: Option<string>) {
    redirectUri.Some? && JStr(redirectUri.value) in client.redirectUris
  }

  /** `GET /oauth/authorize` (section 4.1.1 of RFC 6749): the approval page, once the
      response type is `code`, the client is known and the redirect URI is one it
      registered. */
  function ShowAuthorize(db: Database, p: AuthParams, responseType: Option<string>): (r: Response)
    reads db
    ensures r.Reply? && r.status == 200 <==>
      responseType == Some("code") && p.clientId.Some? && FindClient(db.clients, p.clientId.value).Some?
      && Registered(FindClient(db.clients, p.clientId.value).value, p.redirectUri)
    ensures r.Reply? && r.status == 200 ==> r.body == AuthorizePage(HiddenFields(p), None)
    ensures responseType != Some("code") ==> r == OAuthError("unsupported_response_type", None, 400)
    ensures responseType == Some("code") ==> (r.Thrown? <==> p.clientId.None?)
    ensures responseType == Some("code") && p.clientId.Some? && FindClient(db.clients, p.clientId.value).None? ==>
      r == OAuthError("invalid_client", None, 400)
  {
    if responseType != Some("code") then OAuthError("unsupported_response_type", None, 400)
    else
      match LookupClient(db.clients, p.clientId)
      case Err(m) => Thrown(m)
      case Ok(None) => OAuthError("invalid_client", None, 400)
      case Ok(Some(client)) =>
        if !Registered(client, p.redirectUri) then OAuthError("invalid_request", Some("redirect_uri mismatch"), 400)
        else Reply(200, AuthorizePage(HiddenFields(p), None))
  }

  /** `code_challenge || null`: an empty text is stored as NULL. */
  function OrNullText(v: Option<string>): (r: Option<string>)
    ensures r.Some? <==> v.Some? && v.value != ""
    ensures r.Some? ==> r == v
  {
    if v.Some? && v.value != "" then v else None
  }

  /** The row the approval stores: the code, issued now and expiring a minute later. */
  function CodeRow(code: string, clientId: string, redirectUri: string, p: AuthParams, now: int): (c: Code)
    ensures c.code == code && c.clientId == clientId && c.redirectUri == redirectUri
    ensures c.expiresAt - c.createdAt == CodeLifetime && c.createdAt == now
    ensures c.challenge == OrNullText(p.challenge) && c.challengeMethod == OrNullText(p.challengeMethod)
  {
    Code(code, clientId, redirectUri, OrNullText(p.challenge), OrNullText(p.challengeMethod), now, now + CodeLifetime)
  }

  /** The query parameters set on the redirect URI: the code, then the state when
      one was given (section 4.1.2 of RFC 6749). */
  function RedirectParams(code: string, state: Option<string>): (r: seq<(string, string)>)
    ensures |r| >= 1 && r[0] == ("code", code)
    ensures |r| == 2 <==> state.Some? && state.value != ""
    ensures |r| == 2 ==> r[1] == ("state", state.value)
    ensures |r| <= 2
  {
    [("code", code)] + if state.Some? && state.value != "" then [("state", state.value)] else []
  }

  /** `POST /oauth/authorize`: the approval. A wrong API key shows the page again
      with an error and changes nothing; otherwise, for a known client, a code is
      stored and the browser is sent back to the redirect URI with it. `apiKey` is
      the configured `API_KEY`, `validUrl` says whether `new URL` accepts a text. */
  method Approve(db: Database, ids: IdGen, p: AuthParams, formKey: Option<string>, apiKey: Option<string>,
                 now: int, validUrl: string -> bool) returns (r: Response)
    requires db.Valid()
    modifies db, ids
    ensures db.Valid()
    ensures formKey != apiKey ==>
      && r == Reply(401, AuthorizePage(HiddenFields(p), Some("Invalid API key.")))
      && db.codes == old(db.codes) && ids.issued == old(ids.issued)
    ensures formKey == apiKey && p.clientId.None? ==> r.Thrown? && db.codes == old(db.codes)
    ensures formKey == apiKey && p.clientId.Some? && FindClient(db.clients, p.clientId.value).None? ==>
      r == OAuthError("invalid_client", None, 400) && db.codes == old(db.codes)
    ensures r.Reply? && r.status == 302 <==>
      && formKey == apiKey && p.clientId.Some? && FindClient(db.clients, p.clientId.value).Some?
      && p.redirectUri.Some? && FindCode(old(db.codes), ids.source(old(ids.issued))).None?
      && validUrl(p.redirectUri.value)
    ensures r.Reply? && r.status == 302 ==>
      var code := ids.source(old(ids.issued));
      && db.codes == old(db.codes) + [CodeRow(code, p.clientId.value, p.redirectUri.value, p, now)]
      && r.body == Redirect(p.redirectUri.value, RedirectParams(code, p.state))
    ensures db.codes != old(db.codes) ==>
      && p.clientId.Some? && p.redirectUri.Some?
      && db.codes == old(db.codes) + [CodeRow(ids.source(old(ids.issued)), p.clientId.value, p.redirectUri.value, p, now)]
    ensures db.ideas == old(db.ideas) && db.connections == old(db.connections) && db.notes == old(db.notes)
    ensures db.media == old(db.media) && db.clients == old(db.clients) && db.tokens == old(db.tokens)
  {
    if formKey != apiKey {
      return Reply(401, AuthorizePage(HiddenFields(p), Some("Invalid API key.")));
    }
    var client := LookupClient(db.clients, p.clientId);
    if client.Err? {
      return Thrown(client.message);
    }
    if client.value.None? {
      return OAuthError("invalid_client", None, 400);
    }
    var code := ids.Next();
    if p.redirectUri.None? {
      return Thrown(TypeError("undefined", "undefined"));
    }
    var inserted := InsertCode(db, CodeRow(code, p.clientId.value, p.redirectUri.value, p, now));
    if inserted.Err? {
      return Thrown(inserted.message);
    }
    if !validUrl(p.redirectUri.value) {
      return Thrown("Invalid URL");
    }
    r := Reply(302, Redirect(p.redirectUri.value, RedirectParams(code, p.state)));
  }

  // ---------------------------------------------------------------- the token endpoint

  /** Form fields as the object `parseBody` returns: every value is text. */
  function FormObject(fields: seq<(string, string)>): (j: Json)
    ensures j.JObj? && |j.fields| == |fields|
    ensures forall i :: 0 <= i < |fields| ==> j.fields[i] == (fields[i].0, JStr(fields[i].1))
  {
    JObj(seq(|fields|, i requires 0 <= i < |fields| => (fields[i].0, JStr(fields[i].1))))
  }

  /** The body of `POST /oauth/token`: JSON when the content type mentions
      `application/json`, the form fields otherwise; `None` where parsing throws. */
  function TokenBody(contentType: Option<string>, json: Option<Json>, form: Option<seq<(string, string)>>): (r: Option<Json>)
    ensures Strings.Contains(contentType.GetOr(""), "application/json") ==> r == json
    ensures !Strings.Contains(contentType.GetOr(""), "application/json") ==>
      r == if form.Some? then Some(FormObject(form.value)) else None
  {
    if Strings.Contains(contentType.GetOr(""), "application/json") then json
    else if form.Some? then Some(FormObject(form.value)) else None
  }

  /** The stored code a token request names: the `code` parameter, bound as text,
      looked up; `None` when it is bound as NULL or no row holds it. */
  function Found(codes: seq<Code>, b: Json): (r: Option<Code>)
    ensures r.Some? ==> r.value in codes && Bind(Get(b, "code")) == Ok(Some(r.value.code))
  {
    match Bind(Get(b, "code"))
    case Ok(Some(k)) => FindCode(codes, k)
    case _ => None
  }

  predicate ChallengeSet(c: Code) {
    c.challenge.Some? && c.challenge.value != ""
  }

  /** The PKCE check of section 4.6 of RFC 7636: skipped when no challenge was
      stored; otherwise a verifier must be given and transform to the challenge. */
  predicate PkceHolds(b: Json, c: Code, sha256: string -> seq<bv8>, btoa: seq<bv8> -> string) {
    ChallengeSet(c) ==>
      Present(Get(b, "code_verifier"))
      && VerifyPkce(ToText(Get(b, "code_verifier").value), c.challenge.value, sha256, btoa)
  }

  /** Everything section 4.1.3 of RFC 6749 asks of a request that redeems `c`: the
      grant type, the same client and redirect URI the code was issued for
      (compared strictly), a code not yet expired, and PKCE. */
  predicate Grants(b: Json, now: int, c: Code, sha256: string -> seq<bv8>, btoa: seq<bv8> -> string) {
    && Get(b, "grant_type") == Some(JStr("authorization_code"))
    && Bind(Get(b, "code")) == Ok(Some(c.code))
    && Get(b, "client_id") == Some(JStr(c.clientId))
    && Get(b, "redirect_uri") == Some(JStr(c.redirectUri))
    && now <= c.expiresAt
    && PkceHolds(b, c, sha256, btoa)
  }

  /** What the token endpoint decides before writing anything. */
  datatype Decision = Redeem(code: Code) | Refuse(response: Response)

  /** The checks of the token endpoint, in the order the handler makes them. */
  function Exchange(codes: seq<Code>, b: Json, now: int, sha256: string -> seq<bv8>, btoa: seq<bv8> -> string)
    : (d: Decision)
    ensures d.Redeem? <==> Found(codes, b).Some? && Grants(b, now, Found(codes, b).value, sha256, btoa)
    ensures d.Redeem? ==> d.code == Found(codes, b).value
    ensures d.Refuse? ==> d.response.Thrown? || (d.response.Reply? && d.response.status == 400)
    ensures d.Refuse? && d.response.Thrown? ==> Bind(Get(b, "code")).Err?
    ensures Get(b, "grant_type") != Some(JStr("authorization_code")) ==>
      d == Refuse(OAuthError("unsupported_grant_type", None, 400))
    ensures Get(b, "grant_type") == Some(JStr("authorization_code")) && Bind(Get(b, "code")).Ok? && Found(codes, b).None? ==>
      d == Refuse(OAuthError("invalid_grant", None, 400))
  {
    if Get(b, "grant_type") != Some(JStr("authorization_code")) then Refuse(OAuthError("unsupported_grant_type", None, 400))
    else if Bind(Get(b, "code")).Err? then Refuse(Thrown(Bind(Get(b, "code")).message))
    else
      match Found(codes, b)
      case None => Refuse(OAuthError("invalid_grant", None, 400))
      case Some(c) =>
        if Get(b, "client_id") != Some(JStr(c.clientId)) then Refuse(OAuthError("invalid_grant", None, 400))
        else if Get(b, "redirect_uri") != Some(JStr(c.redirectUri)) then Refuse(OAuthError("invalid_grant", None, 400))
        else if c.expiresAt < now then Refuse(OAuthError("invalid_grant", Some("Code expired"), 400))
        else if ChallengeSet(c) && !Present(Get(b, "code_verifier")) then
          Refuse(OAuthError("invalid_grant", Some("code_verifier required"), 400))
        else if ChallengeSet(c) && !VerifyPkce(ToText(Get(b, "code_verifier").value), c.challenge.value, sha256, btoa) then
          Refuse(OAuthError("invalid_grant", Some("PKCE verification failed"), 400))
        else Redeem(c)
  }

  /** A stored code that a request satisfies in every respect is redeemed: the
      lookup by the bound code finds that very row, the codes being unique. */
  lemma ExchangeComplete(codes: seq<Code>, b: Json, now: int, sha256: string -> seq<bv8>, btoa: seq<bv8> -> string, c: Code)
    requires Distinct(codes, SameKeyOf(CodeKey)) && c in codes && Grants(b, now, c, sha256, btoa)
    ensures Exchange(codes, b, now, sha256, btoa) == Redeem(c)
  {
    FirstUnique(codes, CodeKey, c.code, c);
  }

  /** An expired code is refused with `Code expired` once the client and the
      redirect URI match. */
  lemma ExpiredRefused(codes: seq<Code>, b: Json, now: int, sha256: string -> seq<bv8>, btoa: seq<bv8> -> string)
    requires Get(b, "grant_type") == Some(JStr("authorization_code")) && Found(codes, b).Some?
    requires Get(b, "client_id") == Some(JStr(Found(codes, b).value.clientId))
    requires Get(b, "redirect_uri") == Some(JStr(Found(codes, b).value.redirectUri))
    requires Found(codes, b).value.expiresAt < now
    ensures Exchange(codes, b, now, sha256, btoa) == Refuse(OAuthError("invalid_grant", Some("Code expired"), 400))
  {
  }

  /** A code issued at `issuedAt` without a challenge is redeemable by a matching
      request exactly up to one minute later. */
  lemma CodeLifetimeHolds(code: string, clientId: string, redirectUri: string, p: AuthParams, issuedAt: int,
                          b: Json, now: int, sha256: string -> seq<bv8>, btoa: seq<bv8> -> string)
    requires p.challenge.None?
    requires Get(b, "grant_type") == Some(JStr("authorization_code")) && Get(b, "code") == Some(JStr(code))
    requires Get(b, "client_id") == Some(JStr(clientId)) && Get(b, "redirect_uri") == Some(JStr(redirectUri))
    ensures Grants(b, now, CodeRow(code, clientId, redirectUri, p, issuedAt), sha256, btoa) <==> now <= issuedAt + 60000
  {
  }

  /** Once a code is deleted, no request redeems it again. */
  lemma RedeemedOnce(codes: seq<Code>, k: string, b: Json, now: int, sha256: string -> seq<bv8>, btoa: seq<bv8> -> string)
    ensures var d := Exchange(WithoutKey(codes, CodeKey, k), b, now, sha256, btoa);
      d.Redeem? ==> d.code.code != k
  {
  }

  function TokenJson(token: string): (j: Json)
    ensures Get(j, "access_token") == Some(JStr(token)) && Get(j, "token_type") == Some(JStr("Bearer"))
  {
    var fields := [("access_token", JStr(token)), ("token_type", JStr("Bearer"))];
    LookupAt(fields, 1);
    JObj(fields)
  }

  /** The writes of a successful exchange: delete the code, then store a token made
      of two generated ids for the code's client. */
  method RedeemCode(db: Database, ids: IdGen, c: Code, now: int) returns (r: Response)
    requires db.Valid()
    modifies db, ids
    ensures db.Valid()
    ensures var token := ids.source(old(ids.issued)) + ids.source(old(ids.issued) + 1);
      && db.codes == WithoutKey(old(db.codes), CodeKey, c.code)
      && (r.Reply? <==> !TokenTaken(old(db.tokens), token))
      && (r.Reply? ==> r == JsonReply(TokenJson(token), 200) && db.tokens == old(db.tokens) + [Token(token, c.clientId, now)])
      && (r.Thrown? ==> db.tokens == old(db.tokens))
    ensures db.ideas == old(db.ideas) && db.connections == old(db.connections) && db.notes == old(db.notes)
    ensures db.media == old(db.media) && db.clients == old(db.clients)
  {
    DeleteCode(db, c.code);
    var first := ids.Next();
    var second := ids.Next();
    var inserted := InsertToken(db, Token(first + second, c.clientId, now));
    if inserted.Err? {
      return Thrown(inserted.message);
    }
    r := JsonReply(TokenJson(first + second), 200);
  }

  /** `POST /oauth/token`. A refused request changes nothing. A redeemed code is
      deleted before the token, two generated ids end to end, is stored for the
      code's client and returned as a Bearer token. */
  method IssueToken(db: Database, ids: IdGen, contentType: Option<string>, json: Option<Json>,
                    form: Option<seq<(string, string)>>, now: int,
                    sha256: string -> seq<bv8>, btoa: seq<bv8> -> string) returns (r: Response)
    requires db.Valid()
    modifies db, ids
    ensures db.Valid()
    ensures var body := TokenBody(contentType, json, form);
      && (body.None? ==> r == OAuthError("invalid_request", None, 400))
      && (body == Some(JNull) ==> r.Thrown?)
      && (body.Some? && body.value != JNull && Exchange(old(db.codes), body.value, now, sha256, btoa).Refuse? ==>
            r == Exchange(old(db.codes), body.value, now, sha256, btoa).response)
    ensures var body := TokenBody(contentType, json, form);
      var token := ids.source(old(ids.issued)) + ids.source(old(ids.issued) + 1);
      && (r.Reply? && r.status == 200 <==>
            body.Some? && body.value != JNull && Exchange(old(db.codes), body.value, now, sha256, btoa).Redeem?
            && !TokenTaken(old(db.tokens), token))
      && (r.Reply? && r.status == 200 ==>
            var c := Exchange(old(db.codes), body.value, now, sha256, btoa).code;
            && db.codes == WithoutKey(old(db.codes), CodeKey, c.code)
            && db.tokens == old(db.tokens) + [Token(token, c.clientId, now)]
            && r == JsonReply(TokenJson(token), 200))
    ensures r.Reply? && r.status != 200 ==> db.codes == old(db.codes) && db.tokens == old(db.tokens)
    ensures db.ideas == old(db.ideas) && db.connections == old(db.connections) && db.notes == old(db.notes)
    ensures db.media == old(db.media) && db.clients == old(db.clients)
  {
    var body := TokenBody(contentType, json, form);
    if body.None? {
      return OAuthError("invalid_request", None, 400);
    }
    if body.value == JNull {
      return Thrown("Cannot destructure property 'grant_type' of 'body' as it is null.");
    }
    var decision := Exchange(db.codes, body.value, now, sha256, btoa);
    if decision.Refuse? {
      return decision.response;
    }
    r := RedeemCode(db, ids, decision.code, now);
  }
}
