/** The D1 database as the Worker sees it: the ideas, connections, notes and media
    tables and the three OAuth tables, each a sequence of rows in rowid order, with
    the constraints the handlers rely on. The schema itself is not part of the
    source; the constraints below are the ones the handlers' error handling and
    comments imply. */
module Store {
  import opened Wrappers
  import opened Json
  import opened Queries
  import Numbers
  import Strings

  /** Binding a JavaScript value to a statement parameter destined for a TEXT column:
      `null` is NULL, a string is itself, a number or boolean is stored as its text
      (TEXT affinity), and `undefined`, objects and arrays make D1 throw. */
  function Bind(v: Option<Json>): (r: Result<Option<string>>)
    ensures v.Some? && v.value.JStr? ==> r == Ok(Some(v.value.s))
    ensures r == Ok(None) <==> v == Some(JNull)
    ensures r.Err? <==> v.None? || v.value.JArr? || v.value.JObj?
  {
    match v
    case None => Err(TypeError("undefined", "undefined"))
    case Some(JNull) => Ok(None)
    case Some(JBool(b)) => Ok(Some(if b then "1" else "0"))
    case Some(JNum(n)) => Ok(Some(Numbers.IntToString(n)))
    case Some(JStr(s)) => Ok(Some(s))
    case Some(_) => Err(TypeError("object", "[object Object]"))
  }

  /** The error D1 raises for a parameter of a type it cannot bind. */
  function TypeError(kind: string, value: string): string {
    "D1_TYPE_ERROR: Type '" + kind + "' not supported for value '" + value + "'"
  }

  /** A binding error is never mistaken for a constraint violation: its message does
      not mention `UNIQUE`. */
  lemma BindErrorNotUnique(v: Option<Json>)
    requires Bind(v).Err?
    ensures !Strings.Contains(Bind(v).message, "UNIQUE")
  {
    var kind, value := if v.None? then "undefined" else "object", if v.None? then "undefined" else "[object Object]";
    assert 'U' !in "D1_TYPE_ERROR: Type '" && 'U' !in "' not supported for value '" && 'U' !in "'";
    assert 'U' !in kind && 'U' !in value;
    Strings.LacksFirst(TypeError(kind, value), "UNIQUE");
  }

  /** JavaScript `v ?? null` before binding. */
  function OrNull(v: Option<Json>): (r: Option<Json>)
    ensures r.Some?
    ensures v.Some? ==> r == v
  {
    if v.Some? then v else Some(JNull)
  }

  /** Binding to a column that holds an id: the text, or the error D1 reports. A NULL id
      is refused (the model assumes the id columns are NOT NULL). */
  function BindId(v: Option<Json>, column: string): (r: Result<string>)
    ensures v.Some? && v.value.JStr? ==> r == Ok(v.value.s)
    ensures r.Ok? <==> Bind(v).Ok? && Bind(v).value.Some?
  {
    match Bind(v)
    case Err(m) => Err(m)
    case Ok(None) => Err("NOT NULL constraint failed: " + column)
    case Ok(Some(s)) => Ok(s)
  }

  /** A row of `ideas`. `kind` is the `type` column. */
  datatype Idea = Idea(
    id: string, kind: Option<string>, title: Option<string>, url: Option<string>,
    summary: Option<string>, r2Key: string, createdAt: int, updatedAt: int)

  /** A row of `connections`: a directed, optionally labelled edge between two ideas. */
  datatype Connection = Connection(id: string, fromId: string, toId: string, edgeLabel: Option<string>, createdAt: int)

  datatype Note = Note(id: string, ideaId: string, body: Option<string>, createdAt: int, updatedAt: int)

  datatype Media = Media(
    id: string, ideaId: string, r2Key: string, filename: string, mimeType: string,
    sizeBytes: nat, createdAt: int)

  /** A registered OAuth client; `redirectUris` is the array it registered. */
  datatype Client = Client(clientId: string, redirectUris: seq<Json>, createdAt: int)

  /** An issued authorization code. */
  datatype Code = Code(
    code: string, clientId: string, redirectUri: string, challenge: Option<string>,
    challengeMethod: Option<string>, createdAt: int, expiresAt: int)

  datatype Token = Token(token: string, clientId: string, createdAt: int)

  const TaggedWith: string := "tagged_with"

  function IdeaId(x: Idea): string { x.id }
  function ConnectionId(x: Connection): string { x.id }
  function NoteId(x: Note): string { x.id }
  function MediaId(x: Media): string { x.id }
  function ClientKey(x: Client): string { x.clientId }
  function CodeKey(x: Code): string { x.code }
  function TokenKey(x: Token): string { x.token }

  /** Two connections clash under UNIQUE(from_id, to_id, label); as in SQLite, rows
      whose label is NULL never clash. */
  predicate SameEdge(a: Connection, b: Connection) {
    a.fromId == b.fromId && a.toId == b.toId && a.edgeLabel.Some? && a.edgeLabel == b.edgeLabel
  }

  /** `ORDER BY created_at DESC` on ideas. */
  predicate NewerIdea(a: Idea, b: Idea) { a.createdAt > b.createdAt }

  predicate NewerConnection(a: Connection, b: Connection) { a.createdAt > b.createdAt }

  /** `ORDER BY created_at ASC` on notes and media. */
  predicate OlderNote(a: Note, b: Note) { a.createdAt < b.createdAt }

  predicate OlderMedia(a: Media, b: Media) { a.createdAt < b.createdAt }

  lemma TimeOrdersStrict()
    ensures StrictOrder(NewerIdea) && StrictOrder(NewerConnection)
    ensures StrictOrder(OlderNote) && StrictOrder(OlderMedia)
  {
  }

  /** Primary keys are unique in the content tables and no two connections share
      (from_id, to_id, label). */
  ghost predicate ContentValid(ideas: seq<Idea>, connections: seq<Connection>, notes: seq<Note>, media: seq<Media>) {
    && Distinct(ideas, SameKeyOf(IdeaId))
    && Distinct(connections, SameKeyOf(ConnectionId))
    && Distinct(connections, SameEdge)
    && Distinct(notes, SameKeyOf(NoteId))
    && Distinct(media, SameKeyOf(MediaId))
  }

  /** Client ids, codes and tokens are unique. */
  ghost predicate OAuthValid(clients: seq<Client>, codes: seq<Code>, tokens: seq<Token>) {
    && Distinct(clients, SameKeyOf(ClientKey))
    && Distinct(codes, SameKeyOf(CodeKey))
    && Distinct(tokens, SameKeyOf(TokenKey))
  }

  class Database {
    var ideas: seq<Idea>
    var connections: seq<Connection>
    var notes: seq<Note>
    var media: seq<Media>
    var clients: seq<Client>
    var codes: seq<Code>
    var tokens: seq<Token>

    ghost predicate Valid()
      reads this
    {
      ContentValid(ideas, connections, notes, media) && OAuthValid(clients, codes, tokens)
    }

    constructor ()
      ensures Valid()
      ensures ideas == [] && connections == [] && notes == [] && media == []
      ensures clients == [] && codes == [] && tokens == []
    {
      ideas, connections, notes, media := [], [], [], [];
      clients, codes, tokens := [], [], [];
    }
  }

  /** The invariant, assembled from its two halves. */
  lemma ValidFromParts(db: Database)
    requires ContentValid(db.ideas, db.connections, db.notes, db.media)
    requires OAuthValid(db.clients, db.codes, db.tokens)
    ensures db.Valid()
  {
  }

  /** `generateId()`: a supply of ids, the `issued`-th of which comes next. */
  class IdGen {
    const source: nat -> string
    var issued: nat

    constructor (source: nat -> string)
      ensures this.source == source && issued == 0
    {
      this.source := source;
      issued := 0;
    }

    method Next() returns (id: string)
      modifies this
      ensures id == source(old(issued)) && issued == old(issued) + 1
    {
      id := source(issued);
      issued := issued + 1;
    }
  }

  /** The JSON a row of `ideas` is returned as (`SELECT *`). */
  function IdeaJson(x: Idea): Json {
    JObj([("id", JStr(x.id)), ("type", TextOrNull(x.kind)), ("title", TextOrNull(x.title)),
          ("url", TextOrNull(x.url)), ("summary", TextOrNull(x.summary)), ("r2_key", JStr(x.r2Key)),
          ("created_at", JNum(x.createdAt)), ("updated_at", JNum(x.updatedAt))])
  }

  function ConnectionJson(x: Connection): Json {
    JObj([("id", JStr(x.id)), ("from_id", JStr(x.fromId)), ("to_id", JStr(x.toId)),
          ("label", TextOrNull(x.edgeLabel)), ("created_at", JNum(x.createdAt))])
  }

  function NoteJson(x: Note): Json {
    JObj([("id", JStr(x.id)), ("idea_id", JStr(x.ideaId)), ("body", TextOrNull(x.body)),
          ("created_at", JNum(x.createdAt)), ("updated_at", JNum(x.updatedAt))])
  }

  function MediaJson(x: Media): Json {
    JObj([("id", JStr(x.id)), ("idea_id", JStr(x.ideaId)), ("r2_key", JStr(x.r2Key)),
          ("filename", JStr(x.filename)), ("mime_type", JStr(x.mimeType)),
          ("size_bytes", JNum(x.sizeBytes)), ("created_at", JNum(x.createdAt))])
  }

  /** A row returned by `.first()`, or JSON `null` when there is none. */
  function RowOrNull<T>(row: Option<T>, toJson: T -> Json): Json {
    if row.Some? then toJson(row.value) else JNull
  }

  function Rows<T>(s: seq<T>, toJson: T -> Json): (r: Json)
    ensures r.JArr? && |r.items| == |s|
  {
    JArr(seq(|s|, i requires 0 <= i < |s| => toJson(s[i])))
  }
}
