/** The `/api/ideas` handlers: full-text search, the paginated listing, create,
    read with connections, notes and media, update, the article fetch for page
    ideas, and delete with its blobs. */
module IdeasRoutes {
  import opened Wrappers
  import opened Json
  import opened Queries
  import opened Store
  import opened Errors
  import opened R2
  import opened IdeasDb
  import opened Article

  /** A query-string parameter: absent, or its text. */
  function Param(v: Option<string>): (j: Option<Json>)
    ensures j.None? <==> v.None?
    ensures v.Some? ==> j == Some(JStr(v.value))
  {
    if v.Some? then Some(JStr(v.value)) else None
  }

  // ---------------------------------------------------------------- GET /search

  /** `GET /api/ideas/search?q=&limit=`: a missing or empty `q` is refused before
      the search runs. */
  function Search(q: Option<string>, limit: Option<string>, fts: Option<string> -> Result<seq<Idea>>): (r: Response)
    ensures q.None? || q == Some("") ==> r == BadRequest(Some("Missing q parameter"))
    ensures q.Some? && q.value != "" ==>
      && (r.Thrown? <==> fts(Some(q.value)).Err?)
      && (r.Reply? ==> r.status == 200)
    ensures q.Some? && q.value != "" && fts(Some(q.value)).Ok? ==>
      var found := SearchIdeas(Param(q), Param(limit), fts).value;
      && found == fts(Some(q.value)).value[..|found|]
      && (EffectiveLimit(Param(limit)) >= 1 ==> |found| <= EffectiveLimit(Param(limit)))
      && r == JsonReply(JObj([("ideas", Rows(found, IdeaJson))]), 200)
  {
    if q.None? || q.value == "" then BadRequest(Some("Missing q parameter"))
    else
      assert Bind(Param(q)) == Ok(Some(q.value));
      match SearchIdeas(Param(q), Param(limit), fts)
      case Err(m) => Thrown(m)
      case Ok(rows) => JsonReply(JObj([("ideas", Rows(rows, IdeaJson))]), 200)
  }

  // ---------------------------------------------------------------- GET /

  /** The query parameters of the listing; `project` filters on the url column. */
  datatype ListParams = ListParams(
    kind: Option<string>, tag: Option<string>, project: Option<string>, limit: Option<string>, cursor: Option<string>)

  function ToQuery(p: ListParams): ListQuery {
    ListQuery(Param(p.kind), Param(p.tag), Param(p.project), Param(p.limit), Param(p.cursor))
  }

  function PageJson(p: Page): (j: Json)
    ensures Get(j, "ideas") == Some(Rows(p.ideas, IdeaJson))
    ensures p.nextCursor.Some? ==> Get(j, "nextCursor") == Some(JNum(p.nextCursor.value))
    ensures p.nextCursor.None? ==> Get(j, "nextCursor") == Some(JNull)
  {
    var fields := [("ideas", Rows(p.ideas, IdeaJson)),
                   ("nextCursor", if p.nextCursor.Some? then JNum(p.nextCursor.value) else JNull)];
    LookupAt(fields, 1);
    JObj(fields)
  }

  /** Query-string values are text, so binding the clauses never fails. */
  lemma TextClausesBind(p: ListParams)
    ensures BindClauses(ToQuery(p)).Ok?
  {
  }

  /** `GET /api/ideas`: the page `listIdeas` returns, or the exception it throws. */
  function List(db: Database, p: ListParams): (r: Response)
    reads db
    ensures r.Reply? <==> ListIdeas(db, ToQuery(p)).Ok?
    ensures r.Reply? ==> r == JsonReply(PageJson(ListIdeas(db, ToQuery(p)).value), 200)
    ensures EffectiveLimit(Param(p.limit)) >= 1 ==> r.Reply?
  {
    TextClausesBind(p);
    match ListIdeas(db, ToQuery(p))
    case Err(m) => Thrown(m)
    case Ok(page) => JsonReply(PageJson(page), 200)
  }

  // ---------------------------------------------------------------- POST /

  /** `url ?? (type === 'meta' ? (data?.project ?? null) : null)`: an explicit url
      wins; a meta idea without one takes its data's `project`. */
  function ResolvedUrl(kind: Json, url: Option<Json>, data: Option<Json>): (r: Json)
    ensures url.Some? && url.value != JNull ==> r == url.value
    ensures (url.None? || url == Some(JNull)) && kind != JStr("meta") ==> r == JNull
    ensures (url.None? || url == Some(JNull)) && kind == JStr("meta") ==>
      r == (if data.Some? && data.value != JNull then OrElse(Get(data.value, "project"), JNull) else JNull)
  {
    if url.Some? && url.value != JNull then url.value
    else if kind == JStr("meta") then
      if data.Some? && data.value != JNull then OrElse(Get(data.value, "project"), JNull) else JNull
    else JNull
  }

  /** The create body is accepted: it parsed, is not `null`, and has a truthy type. */
  predicate Accepted(body: Option<Json>) {
    body.Some? && body.value != JNull && Present(Get(body.value, "type"))
  }

  /** The row a create body asks for. */
  function RowFor(body: Json, id: string, now: int): (r: Result<Idea>)
    requires Present(Get(body, "type"))
    ensures r.Ok? ==> && r.value.id == id && r.value.r2Key == DataKey(id) && r.value.kind.Some?
                      && r.value.createdAt == now && r.value.updatedAt == now
    ensures r.Ok? && Get(body, "url").Some? && Get(body, "url").value.JStr? ==> r.value.url == Some(Get(body, "url").value.s)
    ensures r.Ok? && Get(body, "title").None? ==> r.value.title.None?
    ensures r.Ok? && Get(body, "summary").None? ==> r.value.summary.None?
  {
    NewIdeaRow(id, Get(body, "type"), Get(body, "title"),
               Some(ResolvedUrl(Get(body, "type").value, Get(body, "url"), Get(body, "data"))),
               Get(body, "summary"), DataKey(id), now, now)
  }

  /** `POST /api/ideas`: refuse a bad body, else write the blob at the new idea's
      data key, insert the row with `created_at = updated_at = now`, and answer 201
      with the stored row and the data. */
  method Create(db: Database, bucket: Bucket, ids: IdGen, now: int, body: Option<Json>) returns (r: Response)
    requires db.Valid()
    modifies db, bucket, ids
    ensures db.Valid()
    ensures body.None? ==> r == BadRequest(Some("Invalid JSON"))
    ensures body == Some(JNull) ==> r.Thrown?
    ensures body.Some? && body.value != JNull && !Accepted(body) ==> r == BadRequest(Some("type is required"))
    ensures !Accepted(body) ==>
      db.ideas == old(db.ideas) && bucket.objects == old(bucket.objects) && ids.issued == old(ids.issued)
    ensures Accepted(body) ==>
      var id := ids.source(old(ids.issued));
      && bucket.objects == old(bucket.objects)[DataKey(id) := JsonBlob(OrElse(Get(body.value, "data"), Empty))]
      && (r.Reply? <==> RowFor(body.value, id, now).Ok? && !IdeaIdTaken(old(db.ideas), id))
      && (r.Reply? ==> r.status == 201 && db.ideas == old(db.ideas) + [RowFor(body.value, id, now).value])
      && (r.Reply? ==> r == JsonReply(JObj([("idea", IdeaJson(RowFor(body.value, id, now).value)),
                                            ("data", OrElse(Get(body.value, "data"), Empty))]), 201))
      && (r.Thrown? ==> db.ideas == old(db.ideas))
    ensures db.connections == old(db.connections) && db.notes == old(db.notes) && db.media == old(db.media)
    ensures db.clients == old(db.clients) && db.codes == old(db.codes) && db.tokens == old(db.tokens)
  {
    if body.None? {
      return BadRequest(Some("Invalid JSON"));
    }
    var b := body.value;
    if b == JNull {
      return Thrown("Cannot destructure property 'type' of 'body' as it is null.");
    }
    var kind := Get(b, "type");
    if !Present(kind) {
      return BadRequest(Some("type is required"));
    }
    var id := ids.Next();
    var key := DataKey(id);
    var data := OrElse(Get(b, "data"), Empty);
    PutJson(bucket, key, data);
    var url := ResolvedUrl(kind.value, Get(b, "url"), Get(b, "data"));
    var inserted := InsertIdea(db, id, kind, Get(b, "title"), Some(url), Get(b, "summary"), key, now, now);
    if inserted.Err? {
      return Thrown(inserted.message);
    }
    CreatedRow(old(db.ideas), b, id, now);
    var idea := GetIdea(db, id);
    r := JsonReply(JObj([("idea", RowOrNull(idea, IdeaJson)), ("data", data)]), 201);
  }

  /** The row a successful create stores is the one the lookup then finds, with the
      new id, its data key and both timestamps at `now`. */
  lemma CreatedRow(ideas: seq<Idea>, body: Json, id: string, now: int)
    requires Present(Get(body, "type"))
    requires RowFor(body, id, now).Ok? && !IdeaIdTaken(ideas, id)
    ensures var row := RowFor(body, id, now).value;
      && FindIdea(ideas + [row], id) == Some(row)
      && row.r2Key == DataKey(id) && row.createdAt == now && row.updatedAt == now
  {
    FindAfterInsert(ideas, RowFor(body, id, now).value, id);
  }

  // ---------------------------------------------------------------- GET /:id

  /** `GET /api/ideas/:id`: the row, its blob (`{}` when none is stored), and its
      connections, notes and media. */
  function Detail(db: Database, bucket: Bucket, id: string): (r: Response)
    reads db, bucket
    ensures GetIdea(db, id).None? ==> r == NotFound(Some("Idea not found"))
    ensures GetIdea(db, id).Some? ==>
      var blob := Read(bucket.objects, GetIdea(db, id).value.r2Key);
      && (r.Thrown? <==> blob.Err?)
      && (r.Reply? ==> r.status == 200 && r.body.JsonBody?
                       && Get(r.body.json, "idea") == Some(IdeaJson(GetIdea(db, id).value))
                       && Get(r.body.json, "data") == Some(OrElse(blob.value, Empty))
                       && Get(r.body.json, "connections") == Some(Rows(IdeaConnections(db.ideas, db.connections, id), ConnectionViewJson))
                       && Get(r.body.json, "notes") == Some(Rows(IdeaNotes(db.notes, id), NoteJson))
                       && Get(r.body.json, "media") == Some(Rows(IdeaMedia(db.media, id), MediaJson)))
  {
    match GetIdea(db, id)
    case None => NotFound(Some("Idea not found"))
    case Some(idea) =>
      match Read(bucket.objects, idea.r2Key)
      case Err(m) => Thrown(m)
      case Ok(data) =>
        JsonReply(DetailJson(idea, OrElse(data, Empty), GetIdeaConnections(db, id), GetIdeaNotes(db, id),
                             GetIdeaMedia(db, id)), 200)
  }

  function DetailJson(idea: Idea, data: Json, cs: seq<ConnectionView>, notes: seq<Note>, media: seq<Media>): (j: Json)
    ensures Get(j, "idea") == Some(IdeaJson(idea)) && Get(j, "data") == Some(data)
    ensures Get(j, "connections") == Some(Rows(cs, ConnectionViewJson))
    ensures Get(j, "notes") == Some(Rows(notes, NoteJson)) && Get(j, "media") == Some(Rows(media, MediaJson))
  {
    var fields := [("idea", IdeaJson(idea)), ("data", data), ("connections", Rows(cs, ConnectionViewJson)),
                   ("notes", Rows(notes, NoteJson)), ("media", Rows(media, MediaJson))];
    LookupDistinct(fields);
    assert fields[1].0 == "data" && fields[2].0 == "connections" && fields[3].0 == "notes" && fields[4].0 == "media";
    JObj(fields)
  }

  // ---------------------------------------------------------------- PUT /:id

  /** `v !== undefined ? v : existing.v`: a field present in the body, `null`
      included, replaces the stored value; an absent one keeps it. */
  function Pick(body: Json, key: string, stored: Option<string>): (j: Json)
    ensures Get(body, key).Some? ==> j == Get(body, key).value
    ensures Get(body, key).None? ==> Bind(OrNull(Some(j))) == Ok(stored)
  {
    if Get(body, key).Some? then Get(body, key).value else TextOrNull(stored)
  }

  /** `PUT /api/ideas/:id`: replace the blob when `data` is present, then the text
      fields as picked, and answer with the row and blob read back. */
  method Update(db: Database, bucket: Bucket, id: string, now: int, body: Option<Json>) returns (r: Response)
    requires db.Valid()
    modifies db, bucket
    ensures db.Valid()
    ensures old(GetIdea(db, id)).None? ==> r == NotFound(Some("Idea not found"))
    ensures old(GetIdea(db, id)).Some? && body.None? ==> r == BadRequest(Some("Invalid JSON"))
    ensures old(GetIdea(db, id)).Some? && body == Some(JNull) ==> r.Thrown?
    ensures old(GetIdea(db, id)).None? || body.None? || body == Some(JNull) ==>
      db.ideas == old(db.ideas) && bucket.objects == old(bucket.objects)
    ensures old(GetIdea(db, id)).Some? && body.Some? && body.value != JNull ==>
      var existing := old(GetIdea(db, id)).value;
      var data := Get(body.value, "data");
      && bucket.objects == (if data.Some? then old(bucket.objects)[existing.r2Key := JsonBlob(data.value)]
                            else old(bucket.objects))
      && (r.Reply? ==> r.status == 200)
      && var t := Bind(Some(Pick(body.value, "title", existing.title)));
         var u := Bind(Some(Pick(body.value, "url", existing.url)));
         var s := Bind(Some(Pick(body.value, "summary", existing.summary)));
         && (!(t.Ok? && u.Ok? && s.Ok?) ==> r.Thrown? && db.ideas == old(db.ideas))
         && (t.Ok? && u.Ok? && s.Ok? ==>
               var blob := Read(bucket.objects, existing.r2Key);
               var after := existing.(title := t.value, url := u.value, summary := s.value, updatedAt := now);
               && db.ideas == SetIdeaFields(old(db.ideas), id, t.value, u.value, s.value, now)
               && (r.Reply? <==> blob.Ok?)
               && (r.Reply? ==> r == JsonReply(JObj([("idea", IdeaJson(after)), ("data", OrElse(blob.value, Empty))]), 200)))
    ensures db.connections == old(db.connections) && db.notes == old(db.notes) && db.media == old(db.media)
    ensures db.clients == old(db.clients) && db.codes == old(db.codes) && db.tokens == old(db.tokens)
  {
    var found := GetIdea(db, id);
    if found.None? {
      return NotFound(Some("Idea not found"));
    }
    var existing := found.value;
    if body.None? {
      return BadRequest(Some("Invalid JSON"));
    }
    var b := body.value;
    if b == JNull {
      return Thrown("Cannot destructure property 'title' of 'body' as it is null.");
    }
    var data := Get(b, "data");
    if data.Some? {
      PutJson(bucket, existing.r2Key, data.value);
    }
    var updated := UpdateIdea(db, id, Some(Pick(b, "title", existing.title)), Some(Pick(b, "url", existing.url)),
                              Some(Pick(b, "summary", existing.summary)), now);
    if updated.Err? {
      return Thrown(updated.message);
    }
    FindUpdated(old(db.ideas), db.ideas, id, Bind(Some(Pick(b, "title", existing.title))).value,
                Bind(Some(Pick(b, "url", existing.url))).value, Bind(Some(Pick(b, "summary", existing.summary))).value, now);
    // the row just updated is found, so `idea.r2_key` is read from a row
    var idea := GetIdea(db, id);
    var blob := GetJson(bucket, idea.value.r2Key);
    if blob.Err? {
      return Thrown(blob.message);
    }
    r := JsonReply(JObj([("idea", IdeaJson(idea.value)), ("data", OrElse(blob.value, Empty))]), 200);
  }

  /** An update keeps the row findable by its id, with the same id, type, data key
      and creation time. */
  lemma UpdateKeepsRow(ideas: seq<Idea>, id: string, t: Option<string>, u: Option<string>, s: Option<string>, now: int)
    requires FindIdea(ideas, id).Some?
    ensures var after := FindIdea(SetIdeaFields(ideas, id, t, u, s, now), id);
      && after.Some?
      && after.value.kind == FindIdea(ideas, id).value.kind
      && after.value.r2Key == FindIdea(ideas, id).value.r2Key
      && after.value.createdAt == FindIdea(ideas, id).value.createdAt
      && after.value.title == t && after.value.url == u && after.value.summary == s && after.value.updatedAt == now
  {
    var before := FindIdea(ideas, id).value;
    var updated := SetIdeaFields(ideas, id, t, u, s, now);
    FindUpdated(ideas, updated, id, t, u, s, now);
  }

  lemma {:induction false} FindUpdated(ideas: seq<Idea>, updated: seq<Idea>, id: string,
                                       t: Option<string>, u: Option<string>, s: Option<string>, now: int)
    requires updated == SetIdeaFields(ideas, id, t, u, s, now)
    requires FindIdea(ideas, id).Some?
    ensures var before := FindIdea(ideas, id).value;
      FindIdea(updated, id) == Some(before.(title := t, url := u, summary := s, updatedAt := now))
    decreases |ideas|
  {
    if ideas[0].id == id {
      assert KeyIs(IdeaId, id)(ideas[0]) && KeyIs(IdeaId, id)(updated[0]);
    } else {
      assert FindIdea(ideas, id) == FindIdea(ideas[1..], id) by {
        assert First(ideas, KeyIs(IdeaId, id)) == First(ideas[1..], KeyIs(IdeaId, id));
      }
      var rest := SetIdeaFields(ideas[1..], id, t, u, s, now);
      assert updated[1..] == rest;
      assert FindIdea(updated, id) == FindIdea(updated[1..], id) by {
        assert First(updated, KeyIs(IdeaId, id)) == First(updated[1..], KeyIs(IdeaId, id));
      }
      FindUpdated(ideas[1..], rest, id, t, u, s, now);
    }
  }

  // ---------------------------------------------------------------- POST /:id/fetch-content

  /** `text ? {...existing, text} : {...existing, article: false}`. */
  function Merged(existing: Json, text: Option<string>): (r: Json)
    ensures r.JObj?
    ensures text.Some? && text.value != "" ==> Lookup(r.fields, "text") == Some(JStr(text.value))
    ensures !(text.Some? && text.value != "") ==> Lookup(r.fields, "article") == Some(JBool(false))
    ensures text.Some? && text.value != "" ==> forall k :: k != "text" ==> Lookup(r.fields, k) == Lookup(Entries(existing), k)
    ensures !(text.Some? && text.value != "") ==> forall k :: k != "article" ==> Lookup(r.fields, k) == Lookup(Entries(existing), k)
  {
    var key := if text.Some? && text.value != "" then "text" else "article";
    var v := if text.Some? && text.value != "" then JStr(text.value) else JBool(false);
    var fields := Put(Entries(existing), key, v);
    assert forall k :: k != key ==> Lookup(fields, k) == Lookup(Entries(existing), k);
    JObj(fields)
  }

  /** `POST /api/ideas/:id/fetch-content`: only for page ideas with a url; the
      blob is replaced by itself merged with the article text, or with
      `article: false` when there is none. `fetch` is what fetching a url yields. */
  method FetchContent(db: Database, bucket: Bucket, id: string, fetch: string -> Fetched) returns (r: Response)
    modifies bucket
    ensures GetIdea(db, id).None? ==> r == NotFound(Some("Idea not found"))
    ensures GetIdea(db, id).Some? && GetIdea(db, id).value.kind != Some("page") ==>
      r == BadRequest(Some("Only page ideas support content fetching"))
    ensures GetIdea(db, id).Some? && GetIdea(db, id).value.kind == Some("page") && GetIdea(db, id).value.url.GetOr("") == "" ==>
      r == BadRequest(Some("Idea has no URL"))
    ensures GetIdea(db, id).Some? && GetIdea(db, id).value.kind == Some("page") && GetIdea(db, id).value.url.GetOr("") != "" ==>
      && (r.Thrown? <==> Read(old(bucket.objects), GetIdea(db, id).value.r2Key).Err?)
      && (r.Reply? ==> r.status == 200)
    ensures !(r.Reply? && r.status == 200) ==> bucket.objects == old(bucket.objects)
    ensures r.Reply? && r.status == 200 ==>
      && GetIdea(db, id).Some?
      && GetIdea(db, id).value.kind == Some("page") && GetIdea(db, id).value.url.GetOr("") != ""
      && Read(old(bucket.objects), GetIdea(db, id).value.r2Key).Ok?
    ensures r.Reply? && r.status == 200 ==>
      var idea := GetIdea(db, id).value;
      var updated := Merged(OrElse(Read(old(bucket.objects), idea.r2Key).value, Empty), ArticleTextOf(fetch(idea.url.value)));
      && bucket.objects == old(bucket.objects)[idea.r2Key := JsonBlob(updated)]
      && r == JsonReply(JObj([("data", updated)]), 200)
  {
    var found := GetIdea(db, id);
    if found.None? {
      return NotFound(Some("Idea not found"));
    }
    var idea := found.value;
    if idea.kind != Some("page") {
      return BadRequest(Some("Only page ideas support content fetching"));
    }
    if idea.url.GetOr("") == "" {
      return BadRequest(Some("Idea has no URL"));
    }
    var stored := GetJson(bucket, idea.r2Key);
    if stored.Err? {
      return Thrown(stored.message);
    }
    var existing := OrElse(stored.value, Empty);
    var text := ExtractArticleText(fetch(idea.url.value));
    var updated := Merged(existing, text);
    PutJson(bucket, idea.r2Key, updated);
    r := JsonReply(JObj([("data", updated)]), 200);
  }

  /** What `extractArticleText` yields for a fetched page. */
  function ArticleTextOf(page: Fetched): Option<string> {
    if page.NetworkError? || !page.ok || !Strings.Contains(page.contentType.GetOr(""), "text/html") then None
    else ArticleText(Run(page.events).paragraphs)
  }

  // ---------------------------------------------------------------- DELETE /:id

  /** `SELECT r2_key FROM media WHERE idea_id = ?`. */
  function MediaKeys(media: seq<Media>, id: string): (keys: seq<string>)
    ensures forall k :: k in keys <==> exists i :: 0 <= i < |media| && media[i].ideaId == id && media[i].r2Key == k
  {
    if |media| == 0 then []
    else
      var rest := MediaKeys(media[1..], id);
      assert forall i :: 0 < i < |media| ==> media[i] == media[1..][i - 1];
      if media[0].ideaId == id then [media[0].r2Key] + rest else rest
  }

  /** `DELETE /api/ideas/:id`: delete the idea's blob and every media blob of the
      idea, then the row (the cascade removes its connections, notes and media). */
  method Delete(db: Database, bucket: Bucket, id: string) returns (r: Response)
    requires db.Valid()
    modifies db, bucket
    ensures db.Valid()
    ensures old(GetIdea(db, id)).None? ==>
      r == NotFound(Some("Idea not found")) && db.ideas == old(db.ideas) && bucket.objects == old(bucket.objects)
    ensures old(GetIdea(db, id)).Some? ==>
      && r == JsonReply(JObj([("deleted", JStr(id))]), 200)
      && bucket.objects == old(bucket.objects) - ({old(GetIdea(db, id)).value.r2Key} + Elements(MediaKeys(old(db.media), id)))
      && db.ideas == WithoutKey(old(db.ideas), IdeaId, id)
      && db.connections == WithoutEndpoint(old(db.connections), id)
      && db.notes == NotesWithout(old(db.notes), id)
      && db.media == MediaWithout(old(db.media), id)
    ensures GetIdea(db, id).None?
    ensures db.clients == old(db.clients) && db.codes == old(db.codes) && db.tokens == old(db.tokens)
  {
    var found := GetIdea(db, id);
    if found.None? {
      return NotFound(Some("Idea not found"));
    }
    var keys := MediaKeys(db.media, id);
    DeleteObject(bucket, found.value.r2Key);
    for i := 0 to |keys|
      modifies bucket
      invariant bucket.objects == old(bucket.objects) - ({found.value.r2Key} + Elements(keys[..i]))
    {
      ElementsAppend(keys[..i], keys[i]);
      assert keys[..i + 1] == keys[..i] + [keys[i]];
      DeleteObject(bucket, keys[i]);
    }
    assert keys[..|keys|] == keys;
    DeleteIdea(db, id);
    r := JsonReply(JObj([("deleted", JStr(id))]), 200);
  }
}
