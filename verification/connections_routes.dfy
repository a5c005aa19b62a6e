/** The `/api/connections` handlers: create a connection between two existing
    ideas, and delete one. */
module ConnectionsRoutes {
  import opened Wrappers
  import opened Json
  import opened Queries
  import opened Store
  import opened Errors
  import opened IdeasDb
  import opened ConnectionsDb
  import Strings

  /** `getIdea(db, v)` for a request value: the value is bound first, and NULL
      matches no row. */
  function IdeaFor(ideas: seq<Idea>, v: Option<Json>): (r: Result<Option<Idea>>)
    ensures r.Err? <==> Bind(v).Err?
    ensures Bind(v).Ok? && Bind(v).value.Some? ==> r == Ok(FindIdea(ideas, Bind(v).value.value))
    ensures v == Some(JNull) ==> r == Ok(None)
  {
    match Bind(v)
    case Err(m) => Err(m)
    case Ok(None) => Ok(None)
    case Ok(Some(key)) => Ok(FindIdea(ideas, key))
  }

  /** What the handler decides before inserting: a response that ends the request,
      or the ids of the two ideas to connect. */
  datatype Check = Refused(response: Response) | Proceed(fromId: string, toId: string)

  /** The checks of `POST /api/connections`, in the order the handler makes them. */
  function Validate(ideas: seq<Idea>, body: Option<Json>): (c: Check)
    ensures body.None? ==> c == Refused(BadRequest(Some("Invalid JSON")))
    ensures body == Some(JNull) ==> c.Refused? && c.response.Thrown?
    ensures body.Some? && body.value != JNull && !(Present(Get(body.value, "from_id")) && Present(Get(body.value, "to_id"))) ==>
      c == Refused(BadRequest(Some("from_id and to_id are required")))
    ensures body.Some? && body.value != JNull && Present(Get(body.value, "from_id")) && Present(Get(body.value, "to_id")) ==>
      var f, t := IdeaFor(ideas, Get(body.value, "from_id")), IdeaFor(ideas, Get(body.value, "to_id"));
      && (f.Err? || t.Err? ==> c.Refused? && c.response.Thrown?)
      && (f.Ok? && t.Ok? && f.value.None? ==>
            c == Refused(NotFound(Some("Idea " + ToText(Get(body.value, "from_id").value) + " not found"))))
      && (f.Ok? && t.Ok? && f.value.Some? && t.value.None? ==>
            c == Refused(NotFound(Some("Idea " + ToText(Get(body.value, "to_id").value) + " not found"))))
      && (f.Ok? && t.Ok? && f.value.Some? && t.value.Some? ==>
            c == Proceed(f.value.value.id, t.value.value.id))
    ensures c.Proceed? ==> IdeaIdTaken(ideas, c.fromId) && IdeaIdTaken(ideas, c.toId)
  {
    if body.None? then Refused(BadRequest(Some("Invalid JSON")))
    else if body.value == JNull then Refused(Thrown("Cannot destructure property 'from_id' of 'body' as it is null."))
    else
      var fromId, toId := Get(body.value, "from_id"), Get(body.value, "to_id");
      if !Present(fromId) || !Present(toId) then Refused(BadRequest(Some("from_id and to_id are required")))
      else
        match (IdeaFor(ideas, fromId), IdeaFor(ideas, toId))
        case (Err(m), _) => Refused(Thrown(m))
        case (_, Err(m)) => Refused(Thrown(m))
        case (Ok(None), _) => Refused(NotFound(Some("Idea " + ToText(fromId.value) + " not found")))
        case (_, Ok(None)) => Refused(NotFound(Some("Idea " + ToText(toId.value) + " not found")))
        case (Ok(Some(from)), Ok(Some(to))) =>
          assert from in ideas && to in ideas;
          Proceed(from.id, to.id)
  }

  /** `POST /api/connections`: after the checks, insert the connection under a fresh
      id with the label (NULL when absent) and answer 201 with the stored row; a
      violated UNIQUE constraint is answered with 400, any other failure is rethrown. */
  method Create(db: Database, ids: IdGen, now: int, body: Option<Json>) returns (r: Response)
    requires db.Valid()
    modifies db, ids
    ensures db.Valid()
    ensures Validate(old(db.ideas), body).Refused? ==>
      r == Validate(old(db.ideas), body).response && db.connections == old(db.connections)
    ensures Validate(old(db.ideas), body).Proceed? ==>
      var c := Validate(old(db.ideas), body);
      var row := NewConnectionRow(ids.source(old(ids.issued)), c.fromId, c.toId, Get(body.value, "label"), now);
      && (r.Reply? && r.status == 201 <==> row.Ok? && !Collides(old(db.connections), row.value))
      && (r.Reply? && r.status == 201 ==> db.connections == old(db.connections) + [row.value])
      && (r.Reply? && r.status == 201 ==> r == JsonReply(JObj([("connection", ConnectionJson(row.value))]), 201))
      && (!(r.Reply? && r.status == 201) ==> db.connections == old(db.connections))
      && (row.Ok? && Collides(old(db.connections), row.value) ==> r == BadRequest(Some("Connection already exists")))
      && (row.Err? ==> r == Thrown(row.message))
    ensures db.ideas == old(db.ideas) && db.notes == old(db.notes) && db.media == old(db.media)
    ensures db.clients == old(db.clients) && db.codes == old(db.codes) && db.tokens == old(db.tokens)
  {
    var check := Validate(db.ideas, body);
    if check.Refused? {
      return check.response;
    }
    var id := ids.Next();
    var edgeLabel := Get(body.value, "label");
    var inserted := InsertConnection(db, id, check.fromId, check.toId, edgeLabel, now);
    if inserted.Err? {
      if NewConnectionRow(id, check.fromId, check.toId, edgeLabel, now).Err? {
        BindErrorNotUnique(OrNull(edgeLabel));
      }
      if Strings.Contains(inserted.message, "UNIQUE") {
        return BadRequest(Some("Connection already exists"));
      }
      return Thrown(inserted.message);
    }
    ghost var row := NewConnectionRow(id, check.fromId, check.toId, edgeLabel, now).value;
    FindInsertedConnection(old(db.connections), row);
    var connection := GetConnection(db, id);
    r := JsonReply(JObj([("connection", RowOrNull(connection, ConnectionJson))]), 201);
  }

  /** `DELETE /api/connections/:id`. */
  method Delete(db: Database, id: string) returns (r: Response)
    requires db.Valid()
    modifies db
    ensures db.Valid()
    ensures old(GetConnection(db, id)).None? ==>
      r == NotFound(Some("Connection not found")) && db.connections == old(db.connections)
    ensures old(GetConnection(db, id)).Some? ==>
      r == JsonReply(JObj([("deleted", JStr(id))]), 200) && db.connections == WithoutKey(old(db.connections), ConnectionId, id)
    ensures GetConnection(db, id).None?
    ensures db.ideas == old(db.ideas) && db.notes == old(db.notes) && db.media == old(db.media)
    ensures db.clients == old(db.clients) && db.codes == old(db.codes) && db.tokens == old(db.tokens)
  {
    var existing := GetConnection(db, id);
    if existing.None? {
      return NotFound(Some("Connection not found"));
    }
    DeleteConnection(db, id);
    r := JsonReply(JObj([("deleted", JStr(id))]), 200);
  }
}
