/** What the capture clients (the Chrome extension, the iOS share sheet and the
    macOS capture panel) send to the Worker: a create-idea request and, for each
    chosen tag, a `tagged_with` connection from the new idea to the tag. */
module Capture {
  import opened Wrappers
  import opened Json
  import Store
  import IdeasRoutes
  import IdeasDb
  import R2

  /** The body of `POST /api/ideas`: `{type, title, url, summary, data}`, with an
      absent value sent as `null`. */
  datatype IdeaRequest = IdeaRequest(kind: string, title: Option<string>, url: Option<string>,
                                     summary: Option<string>, data: Json)

  /** The body of `POST /api/connections`: `{from_id, to_id, label}`. */
  datatype ConnectionRequest = ConnectionRequest(fromId: string, toId: string, edgeLabel: string)

  function RequestJson(q: IdeaRequest): Json {
    JObj([("type", JStr(q.kind)), ("title", TextOrNull(q.title)), ("url", TextOrNull(q.url)),
          ("summary", TextOrNull(q.summary)), ("data", q.data)])
  }

  /** A request with a non-empty type is accepted by the Worker's create handler,
      which stores its type, title and summary as sent, and its URL whenever one
      is given. (A `meta` request without a URL takes its URL from the data's
      `project` and is left aside here.) */
  lemma RequestStored(q: IdeaRequest, id: string, now: int)
    requires q.kind != "" && (q.kind != "meta" || q.url.Some?)
    ensures IdeasRoutes.Accepted(Some(RequestJson(q)))
    ensures var row := IdeasRoutes.RowFor(RequestJson(q), id, now);
      && row.Ok?
      && row.value.kind == Some(q.kind) && row.value.title == q.title && row.value.summary == q.summary
      && (q.url.Some? ==> row.value.url == q.url)
  {
    var j := RequestJson(q);
    var fields := j.fields;
    LookupDistinct(fields);
    assert fields[0].0 == "type" && fields[1].0 == "title" && fields[2].0 == "url"
        && fields[3].0 == "summary" && fields[4].0 == "data";
    assert Get(j, "type") == Some(JStr(q.kind));
    assert Get(j, "title") == Some(TextOrNull(q.title));
    assert Get(j, "url") == Some(TextOrNull(q.url));
    assert Get(j, "summary") == Some(TextOrNull(q.summary));
    var url := IdeasRoutes.ResolvedUrl(JStr(q.kind), Get(j, "url"), Get(j, "data"));
    assert q.url.Some? ==> url == JStr(q.url.value);
    BindText(q.title);
    BindText(q.summary);
    StoredRow(id, q.kind, q.title, url, q.summary, now);
  }

  /** A text or `null` binds to the column as that text or NULL. */
  lemma BindText(t: Option<string>)
    ensures Store.Bind(Store.OrNull(Some(TextOrNull(t)))) == Ok(t)
  {
  }

  lemma StoredRow(id: string, kind: string, title: Option<string>, url: Json, summary: Option<string>, now: int)
    requires Store.Bind(Store.OrNull(Some(TextOrNull(title)))) == Ok(title)
    requires Store.Bind(Store.OrNull(Some(TextOrNull(summary)))) == Ok(summary)
    requires url.JStr? || url == JNull
    ensures var row := IdeasDb.NewIdeaRow(id, Some(JStr(kind)), Some(TextOrNull(title)), Some(url),
                                          Some(TextOrNull(summary)), R2.DataKey(id), now, now);
      && row.Ok? && row.value.kind == Some(kind) && row.value.title == title && row.value.summary == summary
      && (url.JStr? ==> row.value.url == Some(url.s))
  {
  }

  /** The connections a client sends once the idea exists: one `tagged_with` edge
      from the idea to each chosen tag, in the order the tags were chosen. */
  method LinkTags(ideaId: string, tagIds: seq<string>) returns (sent: seq<ConnectionRequest>)
    ensures |sent| == |tagIds|
    ensures forall i :: 0 <= i < |sent| ==> sent[i] == ConnectionRequest(ideaId, tagIds[i], Store.TaggedWith)
  {
    sent := [];
    var i := 0;
    while i < |tagIds|
      invariant 0 <= i <= |tagIds| && |sent| == i
      invariant forall j :: 0 <= j < i ==> sent[j] == ConnectionRequest(ideaId, tagIds[j], Store.TaggedWith)
    {
      sent := sent + [ConnectionRequest(ideaId, tagIds[i], Store.TaggedWith)];
      i := i + 1;
    }
  }
}
