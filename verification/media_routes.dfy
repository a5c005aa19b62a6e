/** The media handlers: upload of a multipart file and server-side fetch of an
    image url (both under `/api/ideas/:id/media`), and `GET /api/media/:id/url` and
    `DELETE /api/media/:id`. The handlers run their media-table statements
    themselves. */
module MediaRoutes {
  import opened Wrappers
  import opened Json
  import opened Queries
  import opened Store
  import opened Errors
  import opened R2
  import opened IdeasDb
  import Strings
  import Numbers

  // ---------------------------------------------------------------- the media table

  predicate MediaIdTaken(media: seq<Media>, id: string) {
    exists k :: 0 <= k < |media| && media[k].id == id
  }

  /** `INSERT INTO media ...`: the row is appended unless its id is taken. Every
      column is bound from a string or a number, so binding cannot fail. */
  method InsertMedia(db: Database, row: Media) returns (r: Result<()>)
    requires db.Valid()
    modifies db
    ensures db.Valid()
    ensures r.Ok? <==> !MediaIdTaken(old(db.media), row.id)
    ensures r.Ok? ==> db.media == old(db.media) + [row]
    ensures r.Err? ==> db.media == old(db.media)
    ensures db.ideas == old(db.ideas) && db.connections == old(db.connections) && db.notes == old(db.notes)
    ensures db.clients == old(db.clients) && db.codes == old(db.codes) && db.tokens == old(db.tokens)
  {
    if MediaIdTaken(db.media, row.id) {
      return Err("UNIQUE constraint failed: media.id");
    }
    var media := db.media;
    forall k | 0 <= k < |media| ensures !SameKeyOf(MediaId)(media[k], row) {
      assert MediaId(media[k]) != MediaId(row);
    }
    AppendDistinct(media, row, SameKeyOf(MediaId));
    assert OAuthValid(db.clients, db.codes, db.tokens) && ContentValid(db.ideas, db.connections, db.notes, media);
    db.media := media + [row];
    ValidFromParts(db);
    r := Ok(());
  }

  /** `SELECT * FROM media WHERE id = ?`. */
  function FindMedia(media: seq<Media>, id: string): (r: Option<Media>)
    ensures r.Some? ==> r.value in media && r.value.id == id
    ensures r.None? <==> !MediaIdTaken(media, id)
  {
    First(media, KeyIs(MediaId, id))
  }

  /** Under the key constraint the lookup finds the one row with the id; in
      particular a row just inserted. */
  lemma FindStoredMedia(media: seq<Media>, m: Media)
    requires Distinct(media, SameKeyOf(MediaId)) && m in media
    ensures FindMedia(media, m.id) == Some(m)
  {
    FirstUnique(media, MediaId, m.id, m);
  }

  /** `DELETE FROM media WHERE id = ?`. */
  method DeleteMediaRow(db: Database, id: string)
    requires db.Valid()
    modifies db
    ensures db.Valid()
    ensures db.media == WithoutKey(old(db.media), MediaId, id)
    ensures FindMedia(db.media, id).None?
    ensures db.ideas == old(db.ideas) && db.connections == old(db.connections) && db.notes == old(db.notes)
    ensures db.clients == old(db.clients) && db.codes == old(db.codes) && db.tokens == old(db.tokens)
  {
    var media := db.media;
    assert OAuthValid(db.clients, db.codes, db.tokens) && ContentValid(db.ideas, db.connections, db.notes, media);
    FilterDistinct(media, NotKey(MediaId, id), SameKeyOf(MediaId));
    WithoutKeyNotFound(media, MediaId, id);
    db.media := WithoutKey(media, MediaId, id);
    ValidFromParts(db);
  }

  // ---------------------------------------------------------------- POST /api/ideas/:id/media

  /** The `file` field of the submitted form: absent, a plain text field, or a file
      with its name, its type and its length in bytes. */
  datatype FormField = Missing | TextField(text: string) | FileField(name: string, mimeType: string, size: nat)

  /** The key an upload is stored under: the new id and the original name, joined
      by `_`, in the idea's media folder. */
  function UploadKey(ideaId: string, id: string, name: string): (k: string)
    ensures k == MediaKey(ideaId, id + "_" + name)
    ensures Strings.EndsWith(k, name)
  {
    var k := MediaKey(ideaId, id + "_" + name);
    assert k[|k| - |name|..] == name;
    k
  }

  /** `POST /api/ideas/:id/media`: store the bytes at the upload key, then add the
      row, which keeps the original name, the type and the length. */
  method Upload(db: Database, bucket: Bucket, ids: IdGen, ideaId: string, now: int, file: FormField)
    returns (r: Response)
    requires db.Valid()
    modifies db, bucket, ids
    ensures db.Valid()
    ensures old(GetIdea(db, ideaId)).None? ==> r == NotFound(Some("Idea not found"))
    ensures old(GetIdea(db, ideaId)).Some? && !file.FileField? ==> r == BadRequest(Some("file field required"))
    ensures old(GetIdea(db, ideaId)).None? || !file.FileField? ==>
      db.media == old(db.media) && bucket.objects == old(bucket.objects)
    ensures old(GetIdea(db, ideaId)).Some? && file.FileField? ==>
      var id := ids.source(old(ids.issued));
      var key := UploadKey(ideaId, id, file.name);
      && bucket.objects == old(bucket.objects)[key := BinaryBlob(file.size, file.mimeType)]
      && (r.Reply? <==> !MediaIdTaken(old(db.media), id))
      && (r.Reply? ==> r.status == 201)
      && (r.Reply? ==> db.media == old(db.media) + [Media(id, ideaId, key, file.name, file.mimeType, file.size, now)])
      && (r.Reply? ==> r == JsonReply(JObj([("media", MediaJson(Media(id, ideaId, key, file.name, file.mimeType, file.size, now)))]), 201))
      && (r.Thrown? ==> db.media == old(db.media))
    ensures db.ideas == old(db.ideas) && db.connections == old(db.connections) && db.notes == old(db.notes)
    ensures db.clients == old(db.clients) && db.codes == old(db.codes) && db.tokens == old(db.tokens)
  {
    var idea := GetIdea(db, ideaId);
    if idea.None? {
      return NotFound(Some("Idea not found"));
    }
    if !file.FileField? {
      return BadRequest(Some("file field required"));
    }
    var id := ids.Next();
    var key := UploadKey(ideaId, id, file.name);
    PutBinary(bucket, key, file.size, file.mimeType);
    var row := Media(id, ideaId, key, file.name, file.mimeType, file.size, now);
    var inserted := InsertMedia(db, row);
    if inserted.Err? {
      return Thrown(inserted.message);
    }
    FindStoredMedia(db.media, row);
    var stored := FindMedia(db.media, id);
    r := JsonReply(JObj([("media", RowOrNull(stored, MediaJson))]), 201);
  }

  // ---------------------------------------------------------------- POST /api/ideas/:id/media/fetch

  /** The file name `/fetch` gives a downloaded image: the last segment of the url
      path, cut at the first `?`, `image` when that is empty, with `.jpg` appended
      when it has no `.`. */
  function FetchedFilename(path: string): (name: string)
    ensures '/' !in name && '?' !in name && '.' in name
    ensures var raw := Strings.Split(Strings.LastSegment(path, '/'), '?')[0];
      && (raw == "" ==> name == "image.jpg")
      && (raw != "" && '.' in raw ==> name == raw)
      && (raw != "" && '.' !in raw ==> name == raw + ".jpg")
  {
    var segment := Strings.LastSegment(path, '/');
    Strings.SplitHead(segment, '?');
    var raw := Strings.Split(segment, '?')[0];
    assert '/' !in raw;
    var base := if raw == "" then "image" else raw;
    assert "image.jpg"[5] == '.' && (raw + ".jpg")[|raw|] == '.';
    if '.' in base then base else base + ".jpg"
  }

  /** What fetching the url yields: a network failure with its message, or a
      response with its status and content type (`None` when the header is absent)
      and the length of its body. */
  datatype Download = FetchFailed(message: string) | Downloaded(status: int, contentType: Option<string>, size: nat)

  /** `res.ok`. */
  predicate Ok2xx(status: int) { 200 <= status <= 299 }

  /** `POST /api/ideas/:id/media/fetch`: download the url, store the bytes under the
      derived name and add the row. `fetch` answers a url; `pathname` is the path
      component the URL parser gives for it. */
  method FetchImage(db: Database, bucket: Bucket, ids: IdGen, ideaId: string, now: int, body: Option<Json>,
                    fetch: string -> Download, pathname: string -> string)
    returns (r: Response)
    requires db.Valid()
    modifies db, bucket, ids
    ensures db.Valid()
    ensures old(GetIdea(db, ideaId)).None? ==> r == NotFound(Some("Idea not found"))
    ensures old(GetIdea(db, ideaId)).Some? && body.None? ==> r == BadRequest(Some("Invalid JSON"))
    ensures old(GetIdea(db, ideaId)).Some? && body.Some? && body.value != JNull && !Present(Get(body.value, "url")) ==>
      r == BadRequest(Some("url is required"))
    ensures old(GetIdea(db, ideaId)).Some? && body.Some? && body.value != JNull && Present(Get(body.value, "url")) ==>
      var url := ToText(Get(body.value, "url").value);
      && (fetch(url).FetchFailed? ==> r == BadRequest(Some("Could not fetch URL: " + fetch(url).message)))
      && (fetch(url).Downloaded? && !Ok2xx(fetch(url).status) ==>
            r == BadRequest(Some("Remote returned " + Numbers.IntToString(fetch(url).status))))
      && (fetch(url).Downloaded? && Ok2xx(fetch(url).status) ==>
            && (r.Reply? <==> !MediaIdTaken(old(db.media), ids.source(old(ids.issued))))
            && (r.Reply? ==> r.status == 201)
            && (!r.Reply? ==> r.Thrown? && db.media == old(db.media)))
    ensures old(GetIdea(db, ideaId)).Some? && body == Some(JNull) ==> r.Thrown?
    ensures !(r.Reply? && r.status == 201) && !r.Thrown? ==> db.media == old(db.media) && bucket.objects == old(bucket.objects)
    ensures r.Reply? && r.status == 201 ==>
      && body.Some? && body.value != JNull && Present(Get(body.value, "url"))
      && var url := ToText(Get(body.value, "url").value);
         var got := fetch(url);
         var name := FetchedFilename(pathname(url));
         var id := ids.source(old(ids.issued));
         var key := MediaKey(ideaId, id + "_" + name);
         && got.Downloaded? && Ok2xx(got.status)
         && bucket.objects == old(bucket.objects)[key := BinaryBlob(got.size, got.contentType.GetOr("application/octet-stream"))]
         && var row := Media(id, ideaId, key, name, got.contentType.GetOr("application/octet-stream"), got.size, now);
            db.media == old(db.media) + [row] && r == JsonReply(JObj([("media", MediaJson(row))]), 201)
    ensures db.ideas == old(db.ideas) && db.connections == old(db.connections) && db.notes == old(db.notes)
    ensures db.clients == old(db.clients) && db.codes == old(db.codes) && db.tokens == old(db.tokens)
  {
    var idea := GetIdea(db, ideaId);
    if idea.None? {
      return NotFound(Some("Idea not found"));
    }
    if body.None? {
      return BadRequest(Some("Invalid JSON"));
    }
    if body.value == JNull {
      return Thrown("Cannot destructure property 'url' of 'body' as it is null.");
    }
    var urlField := Get(body.value, "url");
    if !Present(urlField) {
      return BadRequest(Some("url is required"));
    }
    var url := ToText(urlField.value);
    var got := fetch(url);
    if got.FetchFailed? {
      return BadRequest(Some("Could not fetch URL: " + got.message));
    }
    if !Ok2xx(got.status) {
      return BadRequest(Some("Remote returned " + Numbers.IntToString(got.status)));
    }
    var contentType := got.contentType.GetOr("application/octet-stream");
    var name := FetchedFilename(pathname(url));
    var id := ids.Next();
    var key := MediaKey(ideaId, id + "_" + name);
    PutBinary(bucket, key, got.size, contentType);
    var row := Media(id, ideaId, key, name, contentType, got.size, now);
    var inserted := InsertMedia(db, row);
    if inserted.Err? {
      return Thrown(inserted.message);
    }
    FindStoredMedia(db.media, row);
    var stored := FindMedia(db.media, id);
    r := JsonReply(JObj([("media", RowOrNull(stored, MediaJson))]), 201);
  }

  /** With ids free of '/', the key a fetched image is stored under is in its idea's
      media folder and is never a content blob's key. */
  lemma FetchedKeyNotDataKey(ideaId: string, id: string, path: string, other: string)
    requires '/' !in ideaId && '/' !in other
    ensures DataKey(other) != MediaKey(ideaId, id + "_" + FetchedFilename(path))
  {
    DataKeyNotMediaKey(other, ideaId, id + "_" + FetchedFilename(path));
  }

  // ---------------------------------------------------------------- GET /api/media/:id/url

  /** `GET /api/media/:id/url`: the stored object streamed with the row's type, an
      inline disposition naming its file, and a one-hour private cache lifetime. */
  function ObjectUrl(db: Database, bucket: Bucket, id: string): (r: Response)
    reads db, bucket
    ensures FindMedia(db.media, id).None? ==> r == NotFound(Some("Media not found"))
    ensures FindMedia(db.media, id).Some? && FindMedia(db.media, id).value.r2Key !in bucket.objects ==>
      r == NotFound(Some("Media object not found in storage"))
    ensures r.Reply? && r.status == 200 <==>
      FindMedia(db.media, id).Some? && FindMedia(db.media, id).value.r2Key in bucket.objects
    ensures r.Reply? && r.status == 200 ==>
      var row := FindMedia(db.media, id).value;
      r.body == Stream(row.mimeType, "inline; filename=\"" + row.filename + "\"", "private, max-age=3600", row.r2Key)
  {
    match FindMedia(db.media, id)
    case None => NotFound(Some("Media not found"))
    case Some(row) =>
      if row.r2Key !in bucket.objects then NotFound(Some("Media object not found in storage"))
      else Reply(200, Stream(row.mimeType, "inline; filename=\"" + row.filename + "\"", "private, max-age=3600", row.r2Key))
  }

  // ---------------------------------------------------------------- DELETE /api/media/:id

  /** `DELETE /api/media/:id`: the object first, then the row. */
  method Delete(db: Database, bucket: Bucket, id: string) returns (r: Response)
    requires db.Valid()
    modifies db, bucket
    ensures db.Valid()
    ensures old(FindMedia(db.media, id)).None? ==>
      r == NotFound(Some("Media not found")) && db.media == old(db.media) && bucket.objects == old(bucket.objects)
    ensures old(FindMedia(db.media, id)).Some? ==>
      && r == JsonReply(JObj([("deleted", JStr(id))]), 200)
      && bucket.objects == old(bucket.objects) - {old(FindMedia(db.media, id)).value.r2Key}
      && db.media == WithoutKey(old(db.media), MediaId, id)
    ensures FindMedia(db.media, id).None?
    ensures db.ideas == old(db.ideas) && db.connections == old(db.connections) && db.notes == old(db.notes)
    ensures db.clients == old(db.clients) && db.codes == old(db.codes) && db.tokens == old(db.tokens)
  {
    var row := FindMedia(db.media, id);
    if row.None? {
      return NotFound(Some("Media not found"));
    }
    DeleteObject(bucket, row.value.r2Key);
    DeleteMediaRow(db, id);
    r := JsonReply(JObj([("deleted", JStr(id))]), 200);
  }
}
