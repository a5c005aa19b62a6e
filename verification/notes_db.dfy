/** The statements on the notes table: insert, lookup by id, update of the body,
    and delete. */
module NotesDb {
  import opened Wrappers
  import opened Json
  import opened Queries
  import opened Store

  /** The row `insertNote` writes, or the error D1 raises while binding the body. */
  function NewNoteRow(id: string, ideaId: string, body: Option<Json>, createdAt: int, updatedAt: int)
    : (r: Result<Note>)
    ensures r.Ok? <==> Bind(body).Ok?
    ensures r.Ok? ==> r.value == Note(id, ideaId, Bind(body).value, createdAt, updatedAt)
    ensures body.Some? && body.value.JStr? ==> r.Ok? && r.value.body == Some(body.value.s)
  {
    match Bind(body)
    case Err(m) => Err(m)
    case Ok(b) => Ok(Note(id, ideaId, b, createdAt, updatedAt))
  }

  predicate NoteIdTaken(notes: seq<Note>, id: string) {
    exists k :: 0 <= k < |notes| && notes[k].id == id
  }

  /** `insertNote`: the row is appended unless binding fails or the id is taken. */
  method InsertNote(db: Database, id: string, ideaId: string, body: Option<Json>, createdAt: int, updatedAt: int)
    returns (r: Result<()>)
    requires db.Valid()
    modifies db
    ensures db.Valid()
    ensures var row := NewNoteRow(id, ideaId, body, createdAt, updatedAt);
      && (r.Ok? <==> row.Ok? && !NoteIdTaken(old(db.notes), id))
      && (r.Ok? ==> db.notes == old(db.notes) + [row.value])
      && (r.Err? ==> db.notes == old(db.notes))
    ensures db.ideas == old(db.ideas) && db.connections == old(db.connections) && db.media == old(db.media)
    ensures db.clients == old(db.clients) && db.codes == old(db.codes) && db.tokens == old(db.tokens)
  {
    var row := NewNoteRow(id, ideaId, body, createdAt, updatedAt);
    if row.Err? {
      return Err(row.message);
    }
    if NoteIdTaken(db.notes, id) {
      return Err("UNIQUE constraint failed: notes.id");
    }
    var notes := db.notes;
    forall k | 0 <= k < |notes| ensures !SameKeyOf(NoteId)(notes[k], row.value) {
      assert NoteId(notes[k]) != NoteId(row.value);
    }
    AppendDistinct(notes, row.value, SameKeyOf(NoteId));
    assert OAuthValid(db.clients, db.codes, db.tokens) && ContentValid(db.ideas, db.connections, notes, db.media);
    db.notes := notes + [row.value];
    ValidFromParts(db);
    r := Ok(());
  }

  /** `SELECT * FROM notes WHERE id = ?`. */
  function FindNote(notes: seq<Note>, id: string): (r: Option<Note>)
    ensures r.Some? ==> r.value in notes && r.value.id == id
    ensures r.None? <==> !NoteIdTaken(notes, id)
  {
    First(notes, KeyIs(NoteId, id))
  }

  function GetNote(db: Database, id: string): (r: Option<Note>)
    reads db
    ensures r == FindNote(db.notes, id)
  {
    FindNote(db.notes, id)
  }

  /** Under the key constraint the lookup finds the one note with the id. */
  lemma FindStoredNote(notes: seq<Note>, n: Note)
    requires Distinct(notes, SameKeyOf(NoteId)) && n in notes
    ensures FindNote(notes, n.id) == Some(n)
  {
    FirstUnique(notes, NoteId, n.id, n);
  }

  /** The table after `UPDATE notes SET body = ?, updated_at = ? WHERE id = ?`. */
  function SetNoteBody(notes: seq<Note>, id: string, body: Option<string>, updatedAt: int): (r: seq<Note>)
    ensures |r| == |notes|
    ensures forall k :: 0 <= k < |notes| ==>
      r[k].id == notes[k].id && r[k].ideaId == notes[k].ideaId && r[k].createdAt == notes[k].createdAt
    ensures forall k :: 0 <= k < |notes| && notes[k].id != id ==> r[k] == notes[k]
    ensures forall k :: 0 <= k < |notes| && notes[k].id == id ==> r[k].body == body && r[k].updatedAt == updatedAt
  {
    seq(|notes|, k requires 0 <= k < |notes| =>
      if notes[k].id == id then notes[k].(body := body, updatedAt := updatedAt) else notes[k])
  }

  /** After the update, the note with the id carries the new body. */
  lemma FindUpdatedNote(notes: seq<Note>, n: Note, body: Option<string>, updatedAt: int)
    requires Distinct(notes, SameKeyOf(NoteId)) && n in notes
    ensures FindNote(SetNoteBody(notes, n.id, body, updatedAt), n.id) == Some(n.(body := body, updatedAt := updatedAt))
  {
    var r := SetNoteBody(notes, n.id, body, updatedAt);
    var i :| 0 <= i < |notes| && notes[i] == n;
    assert Distinct(r, SameKeyOf(NoteId)) by {
      forall a, b | 0 <= a < b < |r| ensures !SameKeyOf(NoteId)(r[a], r[b]) {
        assert !SameKeyOf(NoteId)(notes[a], notes[b]);
        assert NoteId(r[a]) == NoteId(notes[a]) && NoteId(r[b]) == NoteId(notes[b]);
      }
    }
    assert r[i] in r;
    FirstUnique(r, NoteId, n.id, r[i]);
  }

  /** `updateNote`: the body and `updated_at` of the note with the id are replaced,
      unless binding the body fails. */
  method UpdateNote(db: Database, id: string, body: Option<Json>, updatedAt: int) returns (r: Result<()>)
    requires db.Valid()
    modifies db
    ensures db.Valid()
    ensures r.Ok? <==> Bind(body).Ok?
    ensures r.Ok? ==> db.notes == SetNoteBody(old(db.notes), id, Bind(body).value, updatedAt)
    ensures r.Err? ==> db.notes == old(db.notes)
    ensures db.ideas == old(db.ideas) && db.connections == old(db.connections) && db.media == old(db.media)
    ensures db.clients == old(db.clients) && db.codes == old(db.codes) && db.tokens == old(db.tokens)
  {
    var b := Bind(body);
    if b.Err? {
      return Err(b.message);
    }
    var notes := db.notes;
    var updated := SetNoteBody(notes, id, b.value, updatedAt);
    assert Distinct(updated, SameKeyOf(NoteId)) by {
      forall i, j | 0 <= i < j < |updated| ensures !SameKeyOf(NoteId)(updated[i], updated[j]) {
        assert !SameKeyOf(NoteId)(notes[i], notes[j]);
        assert NoteId(updated[i]) == NoteId(notes[i]) && NoteId(updated[j]) == NoteId(notes[j]);
      }
    }
    assert OAuthValid(db.clients, db.codes, db.tokens) && ContentValid(db.ideas, db.connections, updated, db.media);
    db.notes := updated;
    ValidFromParts(db);
    r := Ok(());
  }

  /** `deleteNote`: the note with the id goes; nothing else changes. */
  method DeleteNote(db: Database, id: string)
    requires db.Valid()
    modifies db
    ensures db.Valid()
    ensures db.notes == WithoutKey(old(db.notes), NoteId, id)
    ensures db.ideas == old(db.ideas) && db.connections == old(db.connections) && db.media == old(db.media)
    ensures db.clients == old(db.clients) && db.codes == old(db.codes) && db.tokens == old(db.tokens)
    ensures GetNote(db, id).None?
  {
    var notes := db.notes;
    assert OAuthValid(db.clients, db.codes, db.tokens) && ContentValid(db.ideas, db.connections, notes, db.media);
    FilterDistinct(notes, NotKey(NoteId, id), SameKeyOf(NoteId));
    WithoutKeyNotFound(notes, NoteId, id);
    db.notes := WithoutKey(notes, NoteId, id);
    ValidFromParts(db);
  }
}
