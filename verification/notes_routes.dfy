/** The notes handlers: `POST /api/ideas/:id/notes`, and `PUT` and `DELETE` on
    `/api/notes/:id`. Each looks the row up before reading the body, so a missing
    row is reported even when the body is malformed. */
module NotesRoutes {
  import opened Wrappers
  import opened Json
  import opened Queries
  import opened Store
  import opened Errors
  import opened IdeasDb
  import opened NotesDb

  /** The note text of a request body, once the body parsed and is not `null`:
      `None` when the `body` field is missing or falsy. */
  function NoteBody(body: Json): (v: Option<Json>)
    ensures v.Some? <==> Present(Get(body, "body"))
    ensures v.Some? ==> v == Get(body, "body")
  {
    if Present(Get(body, "body")) then Get(body, "body") else None
  }

  /** The response to a body that cannot be used, or `None` for a usable one. */
  function RefuseBody(body: Option<Json>): (r: Option<Response>)
    ensures body.None? ==> r == Some(BadRequest(Some("Invalid JSON")))
    ensures body == Some(JNull) ==> r.Some? && r.value.Thrown?
    ensures body.Some? && body.value != JNull ==>
      (r.None? <==> NoteBody(body.value).Some?) && (r.Some? ==> r == Some(BadRequest(Some("body is required"))))
  {
    if body.None? then Some(BadRequest(Some("Invalid JSON")))
    else if body.value == JNull then Some(Thrown("Cannot destructure property 'body' of 'body' as it is null."))
    else if NoteBody(body.value).None? then Some(BadRequest(Some("body is required")))
    else None
  }

  /** `POST /api/ideas/:id/notes`: a note with a fresh id and both timestamps at
      `now` is added to an existing idea. */
  method Create(db: Database, ids: IdGen, ideaId: string, now: int, body: Option<Json>) returns (r: Response)
    requires db.Valid()
    modifies db, ids
    ensures db.Valid()
    ensures old(GetIdea(db, ideaId)).None? ==> r == NotFound(Some("Idea not found"))
    ensures old(GetIdea(db, ideaId)).Some? && RefuseBody(body).Some? ==> r == RefuseBody(body).value
    ensures old(GetIdea(db, ideaId)).Some? && RefuseBody(body).None? ==>
      var id := ids.source(old(ids.issued));
      var row := NewNoteRow(id, ideaId, NoteBody(body.value), now, now);
      && (r.Reply? <==> row.Ok? && !NoteIdTaken(old(db.notes), id))
      && (r.Reply? ==> r.status == 201 && db.notes == old(db.notes) + [row.value])
      && (r.Reply? ==> r == JsonReply(JObj([("note", NoteJson(row.value))]), 201))
    ensures !r.Reply? || r.status != 201 ==> db.notes == old(db.notes)
    ensures db.ideas == old(db.ideas) && db.connections == old(db.connections) && db.media == old(db.media)
    ensures db.clients == old(db.clients) && db.codes == old(db.codes) && db.tokens == old(db.tokens)
  {
    var idea := GetIdea(db, ideaId);
    if idea.None? {
      return NotFound(Some("Idea not found"));
    }
    var refused := RefuseBody(body);
    if refused.Some? {
      return refused.value;
    }
    var id := ids.Next();
    var inserted := InsertNote(db, id, ideaId, NoteBody(body.value), now, now);
    if inserted.Err? {
      return Thrown(inserted.message);
    }
    FindStoredNote(db.notes, NewNoteRow(id, ideaId, NoteBody(body.value), now, now).value);
    var note := GetNote(db, id);
    r := JsonReply(JObj([("note", RowOrNull(note, NoteJson))]), 201);
  }

  /** `PUT /api/notes/:id`: the body and `updated_at` of an existing note are
      replaced, and the updated row is returned. */
  method Update(db: Database, id: string, now: int, body: Option<Json>) returns (r: Response)
    requires db.Valid()
    modifies db
    ensures db.Valid()
    ensures old(GetNote(db, id)).None? ==> r == NotFound(Some("Note not found"))
    ensures old(GetNote(db, id)).Some? && RefuseBody(body).Some? ==> r == RefuseBody(body).value
    ensures old(GetNote(db, id)).Some? && RefuseBody(body).None? ==>
      var b := Bind(NoteBody(body.value));
      && (r.Reply? <==> b.Ok?)
      && (r.Reply? ==> r.status == 200 && db.notes == SetNoteBody(old(db.notes), id, b.value, now))
    ensures !r.Reply? || r.status != 200 ==> db.notes == old(db.notes)
    ensures r.Reply? && r.status == 200 ==>
      r == JsonReply(JObj([("note", NoteJson(old(GetNote(db, id)).value.(body := Bind(NoteBody(body.value)).value, updatedAt := now)))]), 200)
    ensures db.ideas == old(db.ideas) && db.connections == old(db.connections) && db.media == old(db.media)
    ensures db.clients == old(db.clients) && db.codes == old(db.codes) && db.tokens == old(db.tokens)
  {
    var existing := GetNote(db, id);
    if existing.None? {
      return NotFound(Some("Note not found"));
    }
    var refused := RefuseBody(body);
    if refused.Some? {
      return refused.value;
    }
    var notes := db.notes;
    var updated := UpdateNote(db, id, NoteBody(body.value), now);
    if updated.Err? {
      return Thrown(updated.message);
    }
    FindUpdatedNote(notes, existing.value, Bind(NoteBody(body.value)).value, now);
    var note := GetNote(db, id);
    r := JsonReply(JObj([("note", RowOrNull(note, NoteJson))]), 200);
  }

  /** `DELETE /api/notes/:id`. */
  method Delete(db: Database, id: string) returns (r: Response)
    requires db.Valid()
    modifies db
    ensures db.Valid()
    ensures old(GetNote(db, id)).None? ==> r == NotFound(Some("Note not found")) && db.notes == old(db.notes)
    ensures old(GetNote(db, id)).Some? ==>
      r == JsonReply(JObj([("deleted", JStr(id))]), 200) && db.notes == WithoutKey(old(db.notes), NoteId, id)
    ensures GetNote(db, id).None?
    ensures db.ideas == old(db.ideas) && db.connections == old(db.connections) && db.media == old(db.media)
    ensures db.clients == old(db.clients) && db.codes == old(db.codes) && db.tokens == old(db.tokens)
  {
    var existing := GetNote(db, id);
    if existing.None? {
      return NotFound(Some("Note not found"));
    }
    DeleteNote(db, id);
    r := JsonReply(JObj([("deleted", JStr(id))]), 200);
  }
}
