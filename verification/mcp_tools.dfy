/** The tools the MCP endpoint offers: their catalogue, as `tools/list` returns it,
    and what calling each one does to the store. A tool either returns a JSON
    result or fails with a message. */
module McpTools {
  import opened Wrappers
  import opened Json
  import opened Queries
  import opened Store
  import opened R2
  import opened IdeasDb
  import opened ConnectionsDb
  import opened NotesDb
  import ConnectionsRoutes
  import IdeasRoutes
  import TagsRoutes

  // ---------------------------------------------------------------- the catalogue

  /** One argument of a tool: its name, its JSON type, and the type of its elements
      for an array. The description texts are left out. */
  datatype Property = Property(name: string, kind: string, items: Option<string>)

  datatype Tool = Tool(name: string, properties: seq<Property>, required: Option<seq<string>>)

  function P(name: string, kind: string): Property {
    Property(name, kind, None)
  }

  /** `TOOLS`, in order. */
  const Catalogue: seq<Tool> := [
    Tool("list_tags", [], None),
    Tool("capture_idea", [P("content", "string"), P("title", "string"), Property("tag_ids", "array", Some("string"))],
         Some(["content"])),
    Tool("search_ideas", [P("q", "string"), P("limit", "number")], Some(["q"])),
    Tool("list_ideas", [P("type", "string"), P("tag", "string"), P("limit", "number"), P("cursor", "string")], None),
    Tool("get_idea", [P("id", "string")], Some(["id"])),
    Tool("create_idea", [P("type", "string"), P("title", "string"), P("url", "string"), P("summary", "string"),
                         P("data", "object")], Some(["type"])),
    Tool("tag_idea", [P("idea_id", "string"), P("tag_id", "string")], Some(["idea_id", "tag_id"])),
    Tool("create_connection", [P("from_id", "string"), P("to_id", "string"), P("label", "string")],
         Some(["from_id", "to_id"])),
    Tool("add_note", [P("idea_id", "string"), P("body", "string")], Some(["idea_id", "body"]))
  ]

  /** The names `executeTool` dispatches on. */
  const ToolNames: seq<string> :=
    ["list_tags", "capture_idea", "search_ideas", "list_ideas", "get_idea",
     "create_idea", "tag_idea", "create_connection", "add_note"]

  /** The catalogue lists exactly the tools that can be called, each once, and every
      argument a tool requires is one it declares. */
  lemma CatalogueMatchesDispatch()
    ensures |Catalogue| == |ToolNames| == 9
    ensures forall i :: 0 <= i < |Catalogue| ==> Catalogue[i].name == ToolNames[i]
    ensures forall i, j :: 0 <= i < j < |ToolNames| ==> ToolNames[i] != ToolNames[j]
    ensures forall i :: 0 <= i < |Catalogue| && Catalogue[i].required.Some? ==>
      forall r :: r in Catalogue[i].required.value ==>
        exists p :: p in Catalogue[i].properties && p.name == r
  {
    assert Catalogue[1].properties[0].name == "content";
    assert Catalogue[2].properties[0].name == "q";
    assert Catalogue[4].properties[0].name == "id";
    assert Catalogue[5].properties[0].name == "type";
    assert Catalogue[6].properties[0].name == "idea_id" && Catalogue[6].properties[1].name == "tag_id";
    assert Catalogue[7].properties[0].name == "from_id" && Catalogue[7].properties[1].name == "to_id";
    assert Catalogue[8].properties[0].name == "idea_id" && Catalogue[8].properties[1].name == "body";
  }

  function PropertyJson(p: Property): Json {
    var items := if p.items.Some? then [("items", JObj([("type", JStr(p.items.value))]))] else [];
    JObj([("type", JStr(p.kind))] + items)
  }

  function SchemaJson(t: Tool): Json {
    var props := seq(|t.properties|, i requires 0 <= i < |t.properties| => (t.properties[i].name, PropertyJson(t.properties[i])));
    var required := if t.required.Some?
                    then [("required", JArr(seq(|t.required.value|, i requires 0 <= i < |t.required.value| => JStr(t.required.value[i]))))]
                    else [];
    JObj([("type", JStr("object")), ("properties", JObj(props))] + required)
  }

  function ToolJson(t: Tool): Json {
    JObj([("name", JStr(t.name)), ("inputSchema", SchemaJson(t))])
  }

  /** The `tools` array of a `tools/list` answer. */
  function CatalogueJson(): (j: Json)
    ensures j.JArr? && |j.items| == 9
    ensures forall i :: 0 <= i < 9 ==> Get(j.items[i], "name") == Some(JStr(ToolNames[i]))
  {
    var j := Rows(Catalogue, ToolJson);
    forall i | 0 <= i < 9 ensures Get(j.items[i], "name") == Some(JStr(ToolNames[i])) {
      assert j.items[i] == ToolJson(Catalogue[i]);
    }
    j
  }

  // ---------------------------------------------------------------- reading tools

  /** A template literal's rendering of a possibly absent value. */
  function Interpolate(v: Option<Json>): (t: string)
    ensures v.None? ==> t == "undefined"
    ensures v.Some? ==> t == ToText(v.value)
  {
    if v.None? then "undefined" else ToText(v.value)
  }

  /** `list_tags`: the tag listing of `GET /api/tags`. */
  function ListTags(db: Database): (r: Result<Json>)
    reads db
    ensures r.Ok? && Get(r.value, "tags") == Some(Rows(TagsRoutes.Tags(db), TagsRoutes.TagJson))
  {
    Ok(TagsRoutes.List(db).body.json)
  }

  /** `search_ideas`: `searchIdeas` with the `q` and `limit` arguments. */
  function SearchTool(args: Json, fts: Option<string> -> Result<seq<Idea>>): (r: Result<Json>)
    ensures r.Ok? <==> SearchIdeas(Get(args, "q"), Get(args, "limit"), fts).Ok?
    ensures r.Ok? ==> Get(r.value, "ideas") == Some(Rows(SearchIdeas(Get(args, "q"), Get(args, "limit"), fts).value, IdeaJson))
    ensures r.Err? ==> r.message == SearchIdeas(Get(args, "q"), Get(args, "limit"), fts).message
  {
    match SearchIdeas(Get(args, "q"), Get(args, "limit"), fts)
    case Err(m) => Err(m)
    case Ok(rows) => Ok(JObj([("ideas", Rows(rows, IdeaJson))]))
  }

  /** The `listIdeas` options the `list_ideas` tool passes: no url filter. */
  function ListArgs(args: Json): ListQuery {
    ListQuery(Get(args, "type"), Get(args, "tag"), None, Get(args, "limit"), Get(args, "cursor"))
  }

  /** `list_ideas`: the page object `listIdeas` returns. */
  function ListTool(db: Database, args: Json): (r: Result<Json>)
    reads db
    ensures r.Ok? <==> ListIdeas(db, ListArgs(args)).Ok?
    ensures r.Ok? ==> r.value == IdeasRoutes.PageJson(ListIdeas(db, ListArgs(args)).value)
    ensures r.Ok? ==> Get(r.value, "ideas") == Some(Rows(ListIdeas(db, ListArgs(args)).value.ideas, IdeaJson))
  {
    match ListIdeas(db, ListArgs(args))
    case Err(m) => Err(m)
    case Ok(page) => Ok(IdeasRoutes.PageJson(page))
  }

  /** The answer of `get_idea` for an idea that exists. */
  function IdeaDetailJson(idea: Idea, data: Option<Json>, connections: seq<ConnectionView>, notes: seq<Note>): (j: Json)
    ensures Get(j, "idea") == Some(IdeaJson(idea))
    ensures Get(j, "data") == Some(OrElse(data, Empty))
    ensures Get(j, "connections") == Some(Rows(connections, ConnectionViewJson))
    ensures Get(j, "notes") == Some(Rows(notes, NoteJson))
  {
    var i, d, c, n := IdeaJson(idea), OrElse(data, Empty), Rows(connections, ConnectionViewJson), Rows(notes, NoteJson);
    var fields := [("idea", i), ("data", d), ("connections", c), ("notes", n)];
    LookupDistinct(fields);
    assert fields[1].0 == "data" && fields[2].0 == "connections" && fields[3].0 == "notes";
    JObj(fields)
  }

  /** `get_idea`: the idea with its blob, connections and notes; an `error` object
      naming the id when there is no such idea; a failure when the id cannot be
      bound or the blob cannot be read. */
  function GetIdeaTool(db: Database, objects: map<string, Blob>, args: Json): (r: Result<Json>)
    reads db
    ensures ConnectionsRoutes.IdeaFor(db.ideas, Get(args, "id")).Err? ==> r.Err?
    ensures ConnectionsRoutes.IdeaFor(db.ideas, Get(args, "id")) == Ok(None) ==>
      r == Ok(JObj([("error", JStr("Idea " + Interpolate(Get(args, "id")) + " not found"))]))
    ensures ConnectionsRoutes.IdeaFor(db.ideas, Get(args, "id")).Ok? && ConnectionsRoutes.IdeaFor(db.ideas, Get(args, "id")).value.Some? ==>
      var idea := ConnectionsRoutes.IdeaFor(db.ideas, Get(args, "id")).value.value;
      && (r.Ok? <==> Read(objects, idea.r2Key).Ok?)
      && (r.Ok? ==> r.value == IdeaDetailJson(idea, Read(objects, idea.r2Key).value,
                                          GetIdeaConnections(db, idea.id), GetIdeaNotes(db, idea.id)))
  {
    match ConnectionsRoutes.IdeaFor(db.ideas, Get(args, "id"))
    case Err(m) => Err(m)
    case Ok(None) => Ok(JObj([("error", JStr("Idea " + Interpolate(Get(args, "id")) + " not found"))]))
    case Ok(Some(idea)) =>
      match Read(objects, idea.r2Key)
      case Err(m) => Err(m)
      case Ok(data) => Ok(IdeaDetailJson(idea, data, GetIdeaConnections(db, idea.id), GetIdeaNotes(db, idea.id)))
  }

  // ---------------------------------------------------------------- writing tools

  /** What the writing tools change: three tables, the bucket, and how many ids
      have been drawn. */
  datatype Tables = Tables(ideas: seq<Idea>, connections: seq<Connection>, notes: seq<Note>,
                           objects: map<string, Blob>, issued: nat)

  function Snap(db: Database, bucket: Bucket, ids: IdGen): Tables
    reads db, bucket, ids
  {
    Tables(db.ideas, db.connections, db.notes, bucket.objects, ids.issued)
  }

  /** The blob `capture_idea` stores: `{text: content}`, which `JSON.stringify`
      writes as `{}` when there is no content. */
  function CaptureBlob(content: Option<Json>): (j: Json)
    ensures content.Some? ==> Get(j, "text") == content
    ensures content.None? ==> j == Empty
  {
    if content.Some? then JObj([("text", content.value)]) else Empty
  }

  /** `insertConnection` with ids given as request values: binding `from_id`, then
      `to_id`, then the label. */
  method InsertEdge(db: Database, id: string, from: Option<Json>, to: Option<Json>, edgeLabel: Option<Json>, now: int)
    returns (r: Result<Connection>)
    requires db.Valid()
    modifies db
    ensures db.Valid()
    ensures BindId(from, "connections.from_id").Err? ==> r == Err(BindId(from, "connections.from_id").message)
    ensures BindId(from, "connections.from_id").Ok? && BindId(to, "connections.to_id").Err? ==>
      r == Err(BindId(to, "connections.to_id").message)
    ensures BindId(from, "connections.from_id").Ok? && BindId(to, "connections.to_id").Ok? ==>
      var row := NewConnectionRow(id, BindId(from, "connections.from_id").value, BindId(to, "connections.to_id").value, edgeLabel, now);
      && (r.Ok? <==> row.Ok? && !Collides(old(db.connections), row.value))
      && (r.Ok? ==> r.value == row.value)
    ensures r.Ok? ==> db.connections == old(db.connections) + [r.value]
    ensures r.Err? ==> db.connections == old(db.connections)
    ensures db.ideas == old(db.ideas) && db.notes == old(db.notes) && db.media == old(db.media)
    ensures db.clients == old(db.clients) && db.codes == old(db.codes) && db.tokens == old(db.tokens)
  {
    var f := BindId(from, "connections.from_id");
    if f.Err? {
      return Err(f.message);
    }
    var t := BindId(to, "connections.to_id");
    if t.Err? {
      return Err(t.message);
    }
    var done := InsertConnection(db, id, f.value, t.value, edgeLabel, now);
    if done.Err? {
      return Err(done.message);
    }
    r := Ok(NewConnectionRow(id, f.value, t.value, edgeLabel, now).value);
  }

  /** The `tagged_with` edge `capture_idea` adds for one element of `tag_ids`. */
  predicate CaptureEdge(c: Connection, id: string, fromId: string, tag: Json, now: int) {
    TaggedEdge(id, Some(JStr(fromId)), Some(tag), now) == Ok(c)
  }

  /** `conns` is `before` followed by one `tagged_with` edge from `fromId` to each
      tag, in order, the edge to `tags[j]` with id `source(first + j)`. */
  ghost predicate TaggedAll(conns: seq<Connection>, before: seq<Connection>, source: nat -> string, first: nat,
                            fromId: string, tags: seq<Json>, now: int) {
    && |conns| == |before| + |tags| && conns[..|before|] == before
    && forall j :: 0 <= j < |tags| ==> CaptureEdge(conns[|before| + j], source(first + j), fromId, tags[j], now)
  }

  /** `tag_ids?.length` is truthy. */
  predicate HasLength(v: Option<Json>) {
    v.Some? &&
    match v.value
    case JArr(items) => |items| > 0
    case JStr(s) => |s| > 0
    case JObj(fields) => Present(Lookup(fields, "length"))
    case _ => false
  }

  /** The `Promise.all` over `tag_ids`: every element gets a fresh id and an insert,
      whatever the others do; the first failure, if any, is reported. */
  method TagAll(db: Database, ids: IdGen, fromId: string, tags: seq<Json>, now: int) returns (failure: Option<string>)
    requires db.Valid()
    modifies db, ids
    ensures db.Valid()
    ensures ids.issued == old(ids.issued) + |tags|
    ensures |old(db.connections)| <= |db.connections| && db.connections[..|old(db.connections)|] == old(db.connections)
    ensures forall k :: |old(db.connections)| <= k < |db.connections| ==>
      db.connections[k].fromId == fromId && db.connections[k].edgeLabel == Some("tagged_with") && db.connections[k].createdAt == now
    ensures failure.None? ==> |db.connections| == |old(db.connections)| + |tags|
    ensures failure.None? ==> forall j :: 0 <= j < |tags| ==>
      CaptureEdge(db.connections[|old(db.connections)| + j], ids.source(old(ids.issued) + j), fromId, tags[j], now)
    ensures db.ideas == old(db.ideas) && db.notes == old(db.notes) && db.media == old(db.media)
    ensures db.clients == old(db.clients) && db.codes == old(db.codes) && db.tokens == old(db.tokens)
  {
    ghost var before := db.connections;
    ghost var base := ids.issued;
    failure := None;
    for i := 0 to |tags|
      invariant db.Valid()
      invariant ids.issued == base + i
      invariant |before| <= |db.connections| && db.connections[..|before|] == before
      invariant forall k :: |before| <= k < |db.connections| ==>
        db.connections[k].fromId == fromId && db.connections[k].edgeLabel == Some("tagged_with") && db.connections[k].createdAt == now
      invariant failure.None? ==> |db.connections| == |before| + i
      invariant failure.None? ==> forall j :: 0 <= j < i ==>
        CaptureEdge(db.connections[|before| + j], ids.source(base + j), fromId, tags[j], now)
      invariant db.ideas == old(db.ideas) && db.notes == old(db.notes) && db.media == old(db.media)
      invariant db.clients == old(db.clients) && db.codes == old(db.codes) && db.tokens == old(db.tokens)
    {
      ghost var cs := db.connections;
      var id := ids.Next();
      var done := InsertEdge(db, id, Some(JStr(fromId)), Some(tags[i]), Some(JStr("tagged_with")), now);
      if done.Ok? {
        assert CaptureEdge(done.value, ids.source(base + i), fromId, tags[i], now);
        assert db.connections[..|before|] == before by {
          assert db.connections[..|cs|] == cs;
        }
      } else if failure.None? {
        failure := Some(done.message);
      }
    }
  }

  /** The row `capture_idea` inserts: a `note` without url or summary whose blob
      is at its data key, titled by the `title` argument when that is text, and
      refused only for a title that cannot be bound. */
  function CaptureRow(id: string, args: Json, now: int): (r: Result<Idea>)
    ensures r.Ok? <==> Bind(OrNull(Get(args, "title"))).Ok?
    ensures r.Ok? ==>
      && r.value.id == id && r.value.kind == Some("note") && r.value.url.None? && r.value.summary.None?
      && r.value.r2Key == DataKey(id) && r.value.createdAt == now
      && (Get(args, "title").Some? && Get(args, "title").value.JStr? ==> r.value.title == Some(Get(args, "title").value.s))
  {
    NewIdeaRow(id, Some(JStr("note")), OrNull(Get(args, "title")), Some(JNull), Some(JNull), DataKey(id), now, now)
  }

  /** The `tag_ids` step of `capture_idea`: nothing when `tag_ids?.length` is falsy,
      a failure when it is truthy but `tag_ids` is not an array, and otherwise one
      edge per element. */
  method TagCaptured(db: Database, ids: IdGen, id: string, tagIds: Option<Json>, now: int) returns (failure: Option<string>)
    requires db.Valid()
    modifies db, ids
    ensures db.Valid()
    ensures !HasLength(tagIds) ==> failure.None? && db.connections == old(db.connections) && ids.issued == old(ids.issued)
    ensures HasLength(tagIds) && !tagIds.value.JArr? ==>
      failure == Some("args.tag_ids.map is not a function") && db.connections == old(db.connections)
    ensures failure.None? && HasLength(tagIds) && tagIds.value.JArr? ==>
      TaggedAll(db.connections, old(db.connections), ids.source, old(ids.issued), id, tagIds.value.items, now)
    ensures db.ideas == old(db.ideas) && db.notes == old(db.notes) && db.media == old(db.media)
    ensures db.clients == old(db.clients) && db.codes == old(db.codes) && db.tokens == old(db.tokens)
  {
    failure := None;
    if HasLength(tagIds) {
      if !tagIds.value.JArr? {
        return Some("args.tag_ids.map is not a function");
      }
      failure := TagAll(db, ids, id, tagIds.value.items, now);
    }
  }

  /** The first two steps of `capture_idea`: the blob, then the row. */
  method StoreCapture(db: Database, bucket: Bucket, id: string, args: Json, now: int) returns (r: Result<()>)
    requires db.Valid()
    modifies db, bucket
    ensures db.Valid()
    ensures bucket.objects == old(bucket.objects)[DataKey(id) := JsonBlob(CaptureBlob(Get(args, "content")))]
    ensures r.Ok? <==> CaptureRow(id, args, now).Ok? && !IdeaIdTaken(old(db.ideas), id)
    ensures r.Ok? ==> db.ideas == old(db.ideas) + [CaptureRow(id, args, now).value]
    ensures r.Err? ==> db.ideas == old(db.ideas)
    ensures db.connections == old(db.connections) && db.notes == old(db.notes) && db.media == old(db.media)
    ensures db.clients == old(db.clients) && db.codes == old(db.codes) && db.tokens == old(db.tokens)
  {
    PutJson(bucket, DataKey(id), CaptureBlob(Get(args, "content")));
    r := InsertIdea(db, id, Some(JStr("note")), OrNull(Get(args, "title")), Some(JNull), Some(JNull), DataKey(id), now, now);
  }

  /** What `capture_idea` does to the tables `b`, giving `a` and answering `r`: the
      blob is written under the first id drawn whatever happens; when the row
      cannot be stored nothing else changes; otherwise the row is added and, when
      `tag_ids` is a non-empty array, one edge per element follows, drawn from the
      next ids. */
  ghost predicate CaptureDone(b: Tables, a: Tables, source: nat -> string, args: Json, now: int, r: Result<Json>) {
    var id := source(b.issued);
    var row := CaptureRow(id, args, now);
    var tags := Get(args, "tag_ids");
    && a.objects == b.objects[DataKey(id) := JsonBlob(CaptureBlob(Get(args, "content")))]
    && a.notes == b.notes
    && (row.Err? || IdeaIdTaken(b.ideas, id) ==> r.Err? && a.ideas == b.ideas && a.connections == b.connections)
    && (row.Ok? && !IdeaIdTaken(b.ideas, id) ==> a.ideas == b.ideas + [row.value])
    && (r.Ok? ==> r.value == JObj([("idea", IdeaJson(row.value))]))
    && (r.Ok? && HasLength(tags) && tags.value.JArr? ==>
          TaggedAll(a.connections, b.connections, source, b.issued + 1, id, tags.value.items, now))
    && (r.Ok? && !HasLength(tags) ==> a.connections == b.connections)
    && (HasLength(tags) && !tags.value.JArr? ==> r.Err? && a.connections == b.connections)
  }

  /** A capture whose row was refused: only the blob was written. */
  lemma CaptureRejected(b: Tables, a: Tables, source: nat -> string, args: Json, now: int, r: Result<Json>)
    requires var id := source(b.issued);
      && a.objects == b.objects[DataKey(id) := JsonBlob(CaptureBlob(Get(args, "content")))]
      && a.ideas == b.ideas && a.connections == b.connections && a.notes == b.notes
      && (CaptureRow(id, args, now).Err? || IdeaIdTaken(b.ideas, id)) && r.Err?
    ensures CaptureDone(b, a, source, args, now, r)
  {
  }

  /** A capture whose row was stored in `m`, then tagged into `a`, `failure` being
      the tagging's first failure. */
  lemma CaptureStored(b: Tables, m: Tables, a: Tables, source: nat -> string, args: Json, now: int,
                      failure: Option<string>, r: Result<Json>)
    requires var id := source(b.issued);
      var row := CaptureRow(id, args, now);
      var tags := Get(args, "tag_ids");
      && row.Ok? && !IdeaIdTaken(b.ideas, id)
      && m.objects == b.objects[DataKey(id) := JsonBlob(CaptureBlob(Get(args, "content")))]
      && m.ideas == b.ideas + [row.value] && m.connections == b.connections && m.notes == b.notes
      && m.issued == b.issued + 1
      && a.objects == m.objects && a.ideas == m.ideas && a.notes == m.notes
      && (!HasLength(tags) ==> failure.None? && a.connections == m.connections)
      && (HasLength(tags) && !tags.value.JArr? ==> failure.Some? && a.connections == m.connections)
      && (failure.None? && HasLength(tags) && tags.value.JArr? ==>
            TaggedAll(a.connections, m.connections, source, m.issued, id, tags.value.items, now))
      && (failure.Some? ==> r.Err?)
      && (failure.None? ==> r == Ok(JObj([("idea", IdeaJson(row.value))])))
    ensures CaptureDone(b, a, source, args, now, r)
  {
  }

  /** `capture_idea`: a `note` idea holding the content, tagged with every id in
      `tag_ids`. The blob is written first and stays even when the insert fails. */
  method CaptureIdea(db: Database, bucket: Bucket, ids: IdGen, args: Json, now: int) returns (r: Result<Json>)
    requires db.Valid()
    modifies db, bucket, ids
    ensures db.Valid()
    ensures CaptureDone(old(Snap(db, bucket, ids)), Snap(db, bucket, ids), ids.source, args, now, r)
    ensures db.media == old(db.media)
    ensures db.clients == old(db.clients) && db.codes == old(db.codes) && db.tokens == old(db.tokens)
  {
    ghost var b := Snap(db, bucket, ids);
    var id := ids.Next();
    var ins := StoreCapture(db, bucket, id, args, now);
    if ins.Err? {
      r := Err(ins.message);
      CaptureRejected(b, Snap(db, bucket, ids), ids.source, args, now, r);
      return;
    }
    ghost var m := Snap(db, bucket, ids);
    var failure := TagCaptured(db, ids, id, Get(args, "tag_ids"), now);
    if failure.Some? {
      r := Err(failure.value);
    } else {
      FindAfterInsert(b.ideas, CaptureRow(id, args, now).value, id);
      var stored := GetIdea(db, id);
      assert stored == Some(CaptureRow(id, args, now).value);
      r := Ok(JObj([("idea", RowOrNull(stored, IdeaJson))]));
    }
    CaptureStored(b, m, Snap(db, bucket, ids), ids.source, args, now, failure, r);
  }

  /** What `create_idea` does: one id drawn, the blob `data` (or `{}`) written under
      it, and the row appended exactly when it binds and its id is free. */
  ghost predicate CreateDone(b: Tables, a: Tables, source: nat -> string, args: Json, now: int, r: Result<Json>) {
    var id := source(b.issued);
    var row := NewIdeaRow(id, Get(args, "type"), OrNull(Get(args, "title")), OrNull(Get(args, "url")),
                          OrNull(Get(args, "summary")), DataKey(id), now, now);
    && a.issued == b.issued + 1
    && a.objects == b.objects[DataKey(id) := JsonBlob(OrElse(Get(args, "data"), Empty))]
    && (r.Ok? <==> row.Ok? && !IdeaIdTaken(b.ideas, id))
    && (r.Ok? ==> a.ideas == b.ideas + [row.value] && r.value == JObj([("idea", IdeaJson(row.value))]))
    && (r.Err? ==> a.ideas == b.ideas)
    && a.connections == b.connections && a.notes == b.notes
  }

  /** `create_idea`: an idea of the given type whose blob is `data`, or `{}`. */
  method CreateIdea(db: Database, bucket: Bucket, ids: IdGen, args: Json, now: int) returns (r: Result<Json>)
    requires db.Valid()
    modifies db, bucket, ids
    ensures db.Valid()
    ensures CreateDone(old(Snap(db, bucket, ids)), Snap(db, bucket, ids), ids.source, args, now, r)
    ensures db.media == old(db.media)
    ensures db.clients == old(db.clients) && db.codes == old(db.codes) && db.tokens == old(db.tokens)
  {
    var id := ids.Next();
    var key := DataKey(id);
    PutJson(bucket, key, OrElse(Get(args, "data"), Empty));
    var kind, title, url, summary := Get(args, "type"), OrNull(Get(args, "title")), OrNull(Get(args, "url")), OrNull(Get(args, "summary"));
    var ins := InsertIdea(db, id, kind, title, url, summary, key, now, now);
    if ins.Err? {
      return Err(ins.message);
    }
    var row := NewIdeaRow(id, kind, title, url, summary, key, now, now).value;
    FindAfterInsert(old(db.ideas), row, id);
    r := Ok(JObj([("idea", RowOrNull(GetIdea(db, id), IdeaJson))]));
  }

  /** The edge `tag_idea` and `capture_idea` write: ids bound from request values,
      labelled `tagged_with`. */
  function TaggedEdge(id: string, from: Option<Json>, to: Option<Json>, now: int): (r: Result<Connection>)
    ensures r.Ok? <==> BindId(from, "connections.from_id").Ok? && BindId(to, "connections.to_id").Ok?
    ensures r.Ok? ==> r.value.id == id && r.value.edgeLabel == Some("tagged_with") && r.value.createdAt == now
    ensures r.Ok? ==> r.value.fromId == BindId(from, "connections.from_id").value && r.value.toId == BindId(to, "connections.to_id").value
  {
    var f := BindId(from, "connections.from_id");
    var t := BindId(to, "connections.to_id");
    if f.Err? then Err(f.message)
    else if t.Err? then Err(t.message)
    else Ok(Connection(id, f.value, t.value, Some("tagged_with"), now))
  }

  /** What `tag_idea` does: one id drawn, and the `tagged_with` edge appended
      exactly when both ids bind and it is not stored yet; nothing else changes. */
  ghost predicate TagDone(b: Tables, a: Tables, source: nat -> string, args: Json, now: int, r: Result<Json>) {
    var edge := TaggedEdge(source(b.issued), Get(args, "idea_id"), Get(args, "tag_id"), now);
    && a.issued == b.issued + 1
    && (r.Ok? <==> edge.Ok? && !Collides(b.connections, edge.value))
    && (r.Ok? ==> a.connections == b.connections + [edge.value])
    && (r.Ok? ==> r.value == JObj([("tagged", JBool(true)), ("idea_id", Get(args, "idea_id").value),
                                   ("tag_id", Get(args, "tag_id").value)]))
    && (r.Err? ==> a.connections == b.connections)
    && a.ideas == b.ideas && a.notes == b.notes && a.objects == b.objects
  }

  /** `tag_idea`: a `tagged_with` edge from `idea_id` to `tag_id`, unless either id
      cannot be bound or the edge is already stored. */
  method TagIdea(db: Database, bucket: Bucket, ids: IdGen, args: Json, now: int) returns (r: Result<Json>)
    requires db.Valid()
    modifies db, ids
    ensures db.Valid()
    ensures TagDone(old(Snap(db, bucket, ids)), Snap(db, bucket, ids), ids.source, args, now, r)
    ensures db.media == old(db.media)
    ensures db.clients == old(db.clients) && db.codes == old(db.codes) && db.tokens == old(db.tokens)
  {
    var id := ids.Next();
    var done := InsertEdge(db, id, Get(args, "idea_id"), Get(args, "tag_id"), Some(JStr("tagged_with")), now);
    if done.Err? {
      return Err(done.message);
    }
    r := Ok(JObj([("tagged", JBool(true)), ("idea_id", Get(args, "idea_id").value), ("tag_id", Get(args, "tag_id").value)]));
  }

  /** What `create_connection` does: one id drawn, and the labelled edge appended
      exactly when the ids and the label bind and it collides with nothing. */
  ghost predicate ConnectDone(b: Tables, a: Tables, source: nat -> string, args: Json, now: int, r: Result<Json>) {
    var id := source(b.issued);
    var from, to := Get(args, "from_id"), Get(args, "to_id");
    && a.issued == b.issued + 1
    && (r.Ok? <==> BindId(from, "connections.from_id").Ok? && BindId(to, "connections.to_id").Ok?
                   && var row := NewConnectionRow(id, BindId(from, "connections.from_id").value,
                                                  BindId(to, "connections.to_id").value, Get(args, "label"), now);
                      row.Ok? && !Collides(b.connections, row.value))
    && (r.Ok? ==> a.connections == b.connections + [NewConnectionRow(id, BindId(from, "connections.from_id").value,
                                                  BindId(to, "connections.to_id").value, Get(args, "label"), now).value])
    && (r.Ok? ==> r.value == JObj([("connection", JObj([("id", JStr(id)), ("from_id", from.value), ("to_id", to.value),
                                                       ("label", OrNull(Get(args, "label")).value)]))]))
    && (r.Err? ==> a.connections == b.connections)
    && a.ideas == b.ideas && a.notes == b.notes && a.objects == b.objects
  }

  /** `create_connection`: an edge with the given label, or none; the answer echoes
      the arguments. */
  method CreateConnection(db: Database, bucket: Bucket, ids: IdGen, args: Json, now: int) returns (r: Result<Json>)
    requires db.Valid()
    modifies db, ids
    ensures db.Valid()
    ensures ConnectDone(old(Snap(db, bucket, ids)), Snap(db, bucket, ids), ids.source, args, now, r)
    ensures db.media == old(db.media)
    ensures db.clients == old(db.clients) && db.codes == old(db.codes) && db.tokens == old(db.tokens)
  {
    var id := ids.Next();
    var from, to := Get(args, "from_id"), Get(args, "to_id");
    var done := InsertEdge(db, id, from, to, Get(args, "label"), now);
    if done.Err? {
      return Err(done.message);
    }
    r := Ok(JObj([("connection", JObj([("id", JStr(id)), ("from_id", from.value), ("to_id", to.value),
                                       ("label", OrNull(Get(args, "label")).value)]))]));
  }

  /** What `add_note` does: one id drawn, and the note appended exactly when the
      idea id and the body bind and its id is free. */
  ghost predicate NoteDone(b: Tables, a: Tables, source: nat -> string, args: Json, now: int, r: Result<Json>) {
    var id := source(b.issued);
    var ideaId := BindId(Get(args, "idea_id"), "notes.idea_id");
    && a.issued == b.issued + 1
    && (r.Ok? <==> ideaId.Ok? && NewNoteRow(id, ideaId.value, Get(args, "body"), now, now).Ok? && !NoteIdTaken(b.notes, id))
    && (r.Ok? ==> var row := NewNoteRow(id, ideaId.value, Get(args, "body"), now, now).value;
                  a.notes == b.notes + [row] && r.value == JObj([("note", NoteJson(row))]))
    && (r.Err? ==> a.notes == b.notes)
    && a.ideas == b.ideas && a.connections == b.connections && a.objects == b.objects
  }

  /** `add_note`: a note on `idea_id` (which need not exist), answered with the row
      read back. */
  method AddNote(db: Database, bucket: Bucket, ids: IdGen, args: Json, now: int) returns (r: Result<Json>)
    requires db.Valid()
    modifies db, ids
    ensures db.Valid()
    ensures NoteDone(old(Snap(db, bucket, ids)), Snap(db, bucket, ids), ids.source, args, now, r)
    ensures db.media == old(db.media)
    ensures db.clients == old(db.clients) && db.codes == old(db.codes) && db.tokens == old(db.tokens)
  {
    var id := ids.Next();
    var ideaId := BindId(Get(args, "idea_id"), "notes.idea_id");
    if ideaId.Err? {
      return Err(ideaId.message);
    }
    var done := InsertNote(db, id, ideaId.value, Get(args, "body"), now, now);
    if done.Err? {
      return Err(done.message);
    }
    var row := NewNoteRow(id, ideaId.value, Get(args, "body"), now, now).value;
    FindStoredNote(db.notes, row);
    r := Ok(JObj([("note", RowOrNull(FindNote(db.notes, id), NoteJson))]));
  }

  // ---------------------------------------------------------------- executeTool

  /** The tools that only read. */
  const ReadTools: seq<string> := ["list_tags", "search_ideas", "list_ideas", "get_idea"]

  /** The tools that write. */
  const WriteTools: seq<string> := ["capture_idea", "create_idea", "tag_idea", "create_connection", "add_note"]

  /** The two groups are the dispatch names. */
  lemma ToolGroups()
    ensures forall n :: n in ToolNames <==> n in ReadTools || n in WriteTools
    ensures forall n :: n in ReadTools ==> n !in WriteTools
  {
  }

  /** A reading tool's result. */
  function ReadTool(db: Database, objects: map<string, Blob>, name: string, args: Json,
                    fts: Option<string> -> Result<seq<Idea>>): (r: Result<Json>)
    reads db
    requires name in ReadTools
    ensures name == "list_tags" ==> r == ListTags(db)
    ensures name == "search_ideas" ==> r == SearchTool(args, fts)
    ensures name == "list_ideas" ==> r == ListTool(db, args)
    ensures name == "get_idea" ==> r == GetIdeaTool(db, objects, args)
  {
    if name == "list_tags" then ListTags(db)
    else if name == "search_ideas" then SearchTool(args, fts)
    else if name == "list_ideas" then ListTool(db, args)
    else GetIdeaTool(db, objects, args)
  }

  /** What the writing tool `name` does to the tables `b`, giving `a`. */
  ghost predicate WriteDone(name: string, b: Tables, a: Tables, source: nat -> string, args: Json, now: int, r: Result<Json>) {
    && (name == "capture_idea" ==> CaptureDone(b, a, source, args, now, r))
    && (name == "create_idea" ==> CreateDone(b, a, source, args, now, r))
    && (name == "tag_idea" ==> TagDone(b, a, source, args, now, r))
    && (name == "create_connection" ==> ConnectDone(b, a, source, args, now, r))
    && (name == "add_note" ==> NoteDone(b, a, source, args, now, r))
  }

  /** A writing tool's effect: the one its name selects. */
  method WriteTool(db: Database, bucket: Bucket, ids: IdGen, name: string, args: Json, now: int) returns (r: Result<Json>)
    requires db.Valid() && name in WriteTools
    modifies db, bucket, ids
    ensures db.Valid()
    ensures WriteDone(name, old(Snap(db, bucket, ids)), Snap(db, bucket, ids), ids.source, args, now, r)
    ensures db.media == old(db.media)
    ensures db.clients == old(db.clients) && db.codes == old(db.codes) && db.tokens == old(db.tokens)
  {
    if name == "capture_idea" {
      r := CaptureIdea(db, bucket, ids, args, now);
    } else if name == "create_idea" {
      r := CreateIdea(db, bucket, ids, args, now);
    } else if name == "tag_idea" {
      r := TagIdea(db, bucket, ids, args, now);
    } else if name == "create_connection" {
      r := CreateConnection(db, bucket, ids, args, now);
    } else {
      r := AddNote(db, bucket, ids, args, now);
    }
  }

  /** What `executeTool` did when it started from the tables `b` and answered `r`:
      an unknown name fails with `Unknown tool: <name>` and a reading tool answers
      what its function gives from the tables, and neither changes them; a writing
      tool does what its name selects. */
  ghost predicate Executed(name: Json, args: Json, now: int, fts: Option<string> -> Result<seq<Idea>>, b: Tables,
                           db: Database, bucket: Bucket, ids: IdGen, r: Result<Json>)
    reads db, bucket, ids
  {
    && (!(name.JStr? && name.s in ToolNames) ==> r == Err("Unknown tool: " + ToText(name)))
    && (name.JStr? && name.s in ReadTools ==> r == ReadTool(db, bucket.objects, name.s, args, fts))
    && (name.JStr? && name.s in WriteTools ==> WriteDone(name.s, b, Snap(db, bucket, ids), ids.source, args, now, r))
    && (!(name.JStr? && name.s in WriteTools) ==> Snap(db, bucket, ids) == b)
  }

  /** `executeTool`: run the named tool, or fail for a name that is not one. */
  method ExecuteTool(db: Database, bucket: Bucket, ids: IdGen, name: Json, args: Json, now: int,
                     fts: Option<string> -> Result<seq<Idea>>) returns (r: Result<Json>)
    requires db.Valid()
    modifies db, bucket, ids
    ensures db.Valid()
    ensures Executed(name, args, now, fts, old(Snap(db, bucket, ids)), db, bucket, ids, r)
    ensures db.media == old(db.media)
    ensures db.clients == old(db.clients) && db.codes == old(db.codes) && db.tokens == old(db.tokens)
  {
    ToolGroups();
    if name.JStr? && name.s in ReadTools {
      r := ReadTool(db, bucket.objects, name.s, args, fts);
    } else if name.JStr? && name.s in WriteTools {
      r := WriteTool(db, bucket, ids, name.s, args, now);
    } else {
      r := Err("Unknown tool: " + ToText(name));
    }
  }
}
