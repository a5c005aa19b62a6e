/** The statements on the connections table: insert, lookup by id, delete, and
    the whole table newest first for the graph view. */
module ConnectionsDb {
  import opened Wrappers
  import opened Json
  import opened Queries
  import opened Store

  /** The row `insertConnection` writes: the label as given, with a missing one
      stored as NULL; or the error D1 raises while binding it. */
  function NewConnectionRow(id: string, fromId: string, toId: string, edgeLabel: Option<Json>, createdAt: int)
    : (r: Result<Connection>)
    ensures r.Ok? <==> Bind(OrNull(edgeLabel)).Ok?
    ensures r.Ok? ==> r.value.id == id && r.value.fromId == fromId && r.value.toId == toId
    ensures r.Ok? ==> r.value.edgeLabel == Bind(OrNull(edgeLabel)).value && r.value.createdAt == createdAt
    ensures r.Ok? && (edgeLabel.None? || edgeLabel == Some(JNull)) ==> r.value.edgeLabel.None?
    ensures r.Err? ==> r.message == Bind(OrNull(edgeLabel)).message
  {
    match Bind(OrNull(edgeLabel))
    case Err(m) => Err(m)
    case Ok(l) => Ok(Connection(id, fromId, toId, l, createdAt))
  }

  /** A stored connection clashes with `row` on the id or on (from_id, to_id, label). */
  predicate Collides(cs: seq<Connection>, row: Connection) {
    exists k :: 0 <= k < |cs| && (cs[k].id == row.id || SameEdge(cs[k], row))
  }

  /** The message D1 raises for a violated constraint of the table. */
  function ConstraintError(cs: seq<Connection>, row: Connection): (m: string)
    ensures Strings.Contains(m, "UNIQUE")
  {
    var columns := if exists k :: 0 <= k < |cs| && cs[k].id == row.id then "connections.id"
                   else "connections.from_id, connections.to_id, connections.label";
    var m := "UNIQUE" + " constraint failed: " + columns;
    assert m[..6] == "UNIQUE";
    Strings.ContainsAt(m, "UNIQUE", 0);
    m
  }

  /** `insertConnection`: the row is appended unless binding fails or it collides with
      a stored row, in which case the table is left as it was. */
  method InsertConnection(db: Database, id: string, fromId: string, toId: string, edgeLabel: Option<Json>, createdAt: int)
    returns (r: Result<()>)
    requires db.Valid()
    modifies db
    ensures db.Valid()
    ensures var row := NewConnectionRow(id, fromId, toId, edgeLabel, createdAt);
      && (r.Ok? <==> row.Ok? && !Collides(old(db.connections), row.value))
      && (r.Ok? ==> db.connections == old(db.connections) + [row.value])
      && (r.Err? ==> db.connections == old(db.connections))
      && (r.Err? && row.Ok? ==> Strings.Contains(r.message, "UNIQUE"))
      && (r.Err? && row.Err? ==> r.message == row.message)
    ensures db.ideas == old(db.ideas) && db.notes == old(db.notes) && db.media == old(db.media)
    ensures db.clients == old(db.clients) && db.codes == old(db.codes) && db.tokens == old(db.tokens)
  {
    var row := NewConnectionRow(id, fromId, toId, edgeLabel, createdAt);
    if row.Err? {
      return Err(row.message);
    }
    if Collides(db.connections, row.value) {
      return Err(ConstraintError(db.connections, row.value));
    }
    var cs := db.connections;
    forall k | 0 <= k < |cs| ensures !SameKeyOf(ConnectionId)(cs[k], row.value) && !SameEdge(cs[k], row.value) {
      assert ConnectionId(cs[k]) != ConnectionId(row.value);
    }
    AppendDistinct(cs, row.value, SameKeyOf(ConnectionId));
    AppendDistinct(cs, row.value, SameEdge);
    assert OAuthValid(db.clients, db.codes, db.tokens) && ContentValid(db.ideas, cs, db.notes, db.media);
    db.connections := cs + [row.value];
    ValidFromParts(db);
    r := Ok(());
  }

  /** `SELECT * FROM connections WHERE id = ?`. */
  function FindConnection(cs: seq<Connection>, id: string): (r: Option<Connection>)
    ensures r.Some? ==> r.value in cs && r.value.id == id
    ensures r.None? <==> forall i :: 0 <= i < |cs| ==> cs[i].id != id
  {
    First(cs, KeyIs(ConnectionId, id))
  }

  function GetConnection(db: Database, id: string): (r: Option<Connection>)
    reads db
    ensures r == FindConnection(db.connections, id)
  {
    FindConnection(db.connections, id)
  }

  /** Under the key constraint the lookup finds the one row with the id. */
  lemma FindStoredConnection(cs: seq<Connection>, c: Connection)
    requires Distinct(cs, SameKeyOf(ConnectionId)) && c in cs
    ensures FindConnection(cs, c.id) == Some(c)
  {
    FirstUnique(cs, ConnectionId, c.id, c);
  }

  /** A connection just inserted is what the lookup by its id finds. */
  lemma FindInsertedConnection(cs: seq<Connection>, row: Connection)
    requires Distinct(cs + [row], SameKeyOf(ConnectionId))
    ensures FindConnection(cs + [row], row.id) == Some(row)
  {
    FindStoredConnection(cs + [row], row);
  }

  /** `deleteConnection`: the row with the id goes; nothing else changes. */
  method DeleteConnection(db: Database, id: string)
    requires db.Valid()
    modifies db
    ensures db.Valid()
    ensures db.connections == WithoutKey(old(db.connections), ConnectionId, id)
    ensures db.ideas == old(db.ideas) && db.notes == old(db.notes) && db.media == old(db.media)
    ensures db.clients == old(db.clients) && db.codes == old(db.codes) && db.tokens == old(db.tokens)
    ensures GetConnection(db, id).None?
  {
    var cs := db.connections;
    assert OAuthValid(db.clients, db.codes, db.tokens) && ContentValid(db.ideas, cs, db.notes, db.media);
    FilterDistinct(cs, NotKey(ConnectionId, id), SameKeyOf(ConnectionId));
    FilterDistinct(cs, NotKey(ConnectionId, id), SameEdge);
    WithoutKeyNotFound(cs, ConnectionId, id);
    db.connections := WithoutKey(cs, ConnectionId, id);
    ValidFromParts(db);
  }

  /** `getAllConnections`: every connection, newest first. */
  function AllConnections(db: Database): (r: seq<Connection>)
    reads db
    ensures SortedBy(r, NewerConnection)
    ensures multiset(r) == multiset(db.connections)
    ensures forall c :: c in r <==> c in db.connections
  {
    var r := Sort(db.connections, NewerConnection);
    TimeOrdersStrict();
    SortSorted(db.connections, NewerConnection);
    assert forall c :: c in r <==> c in multiset(r);
    assert forall c :: c in db.connections <==> c in multiset(db.connections);
    r
  }
}
