/** The graph handlers: every idea and connection for the graph view, and the
    one-hop neighbourhood of an idea. */
module GraphRoutes {
  import opened Wrappers
  import opened Json
  import opened Queries
  import opened Store
  import opened Errors
  import opened IdeasDb
  import opened ConnectionsDb

  // ---------------------------------------------------------------- GET /api/graph

  /** `SELECT ... FROM ideas ORDER BY created_at DESC`: every idea, newest first. */
  function Nodes(ideas: seq<Idea>): (r: seq<Idea>)
    ensures SortedBy(r, NewerIdea)
    ensures multiset(r) == multiset(ideas)
    ensures forall x :: x in r <==> x in ideas
  {
    var r := Sort(ideas, NewerIdea);
    TimeOrdersStrict();
    SortSorted(ideas, NewerIdea);
    assert forall x :: x in r <==> x in multiset(r);
    assert forall x :: x in ideas <==> x in multiset(ideas);
    r
  }

  /** The node columns `id, type, title, url, created_at`. */
  function NodeJson(x: Idea): Json {
    JObj([("id", JStr(x.id)), ("type", TextOrNull(x.kind)), ("title", TextOrNull(x.title)),
          ("url", TextOrNull(x.url)), ("created_at", JNum(x.createdAt))])
  }

  /** `GET /api/graph`: `{nodes, edges}`. */
  function Graph(db: Database): (r: Response)
    reads db
    ensures r.Reply? && r.status == 200 && r.body.JsonBody?
    ensures Get(r.body.json, "nodes") == Some(Rows(Nodes(db.ideas), NodeJson))
    ensures Get(r.body.json, "edges") == Some(Rows(AllConnections(db), ConnectionJson))
  {
    var fields := [("nodes", Rows(Nodes(db.ideas), NodeJson)), ("edges", Rows(AllConnections(db), ConnectionJson))];
    LookupAt(fields, 1);
    JsonReply(JObj(fields), 200)
  }

  // ---------------------------------------------------------------- GET /api/graph/:id/neighbors

  /** The ends of one connection other than `id`. */
  function OtherEnds(c: Connection, id: string): set<string> {
    (if c.fromId != id then {c.fromId} else {}) + (if c.toId != id then {c.toId} else {})
  }

  /** The neighbour id set after the connections `cs`: exactly the endpoints of the
      connections other than the idea itself, so a self-loop adds nothing. */
  function NeighborIds(cs: seq<ConnectionView>, id: string): (r: set<string>)
    ensures forall x :: x in r <==>
      x != id && exists k :: 0 <= k < |cs| && (cs[k].conn.fromId == x || cs[k].conn.toId == x)
  {
    if |cs| == 0 then {}
    else
      var init := cs[..|cs| - 1];
      assert forall k :: 0 <= k < |init| ==> init[k] == cs[k];
      NeighborIds(init, id) + OtherEnds(cs[|cs| - 1].conn, id)
  }

  /** The loop that fills `neighborIds`. */
  method CollectNeighborIds(cs: seq<ConnectionView>, id: string) returns (ids: set<string>)
    ensures ids == NeighborIds(cs, id)
  {
    ids := {};
    for i := 0 to |cs|
      invariant ids == NeighborIds(cs[..i], id)
    {
      assert cs[..i + 1][..i] == cs[..i];
      var conn := cs[i].conn;
      if conn.fromId != id {
        ids := ids + {conn.fromId};
      }
      if conn.toId != id {
        ids := ids + {conn.toId};
      }
    }
    assert cs[..|cs|] == cs;
  }

  function IdIn(ids: set<string>): Idea -> bool {
    (x: Idea) => x.id in ids
  }

  /** `SELECT id, type, title, url FROM ideas WHERE id IN (...)`, skipped (and
      empty) when there are no ids. */
  function NeighborRows(ideas: seq<Idea>, ids: set<string>): (r: seq<Idea>)
    ensures ids == {} ==> r == []
    ensures forall x :: x in r <==> x in ideas && x.id in ids
  {
    if |ids| == 0 then [] else Filter(ideas, IdIn(ids))
  }

  function NeighborJson(x: Idea): Json {
    JObj([("id", JStr(x.id)), ("type", TextOrNull(x.kind)), ("title", TextOrNull(x.title)), ("url", TextOrNull(x.url))])
  }

  /** `GET /api/graph/:id/neighbors`: the idea, its connections, and the ideas at
      their other ends. */
  method Neighbors(db: Database, id: string) returns (r: Response)
    ensures GetIdea(db, id).None? ==> r == NotFound(Some("Idea not found"))
    ensures GetIdea(db, id).Some? ==>
      var cs := GetIdeaConnections(db, id);
      r == JsonReply(JObj([("idea", IdeaJson(GetIdea(db, id).value)),
                           ("connections", Rows(cs, ConnectionViewJson)),
                           ("neighbors", Rows(NeighborRows(db.ideas, NeighborIds(cs, id)), NeighborJson))]), 200)
  {
    var idea := GetIdea(db, id);
    if idea.None? {
      return NotFound(Some("Idea not found"));
    }
    var cs := GetIdeaConnections(db, id);
    var ids := CollectNeighborIds(cs, id);
    var neighbors: seq<Idea> := [];
    if |ids| > 0 {
      neighbors := Filter(db.ideas, IdIn(ids));
    }
    r := JsonReply(JObj([("idea", IdeaJson(idea.value)), ("connections", Rows(cs, ConnectionViewJson)),
                         ("neighbors", Rows(neighbors, NeighborJson))]), 200);
  }

  /** A neighbour is another idea joined to this one by a connection, in either
      direction. */
  lemma NeighborIsConnected(db: Database, id: string, x: Idea)
    requires x in NeighborRows(db.ideas, NeighborIds(GetIdeaConnections(db, id), id))
    ensures x in db.ideas && x.id != id
    ensures exists c :: c in db.connections && ((c.fromId == id && c.toId == x.id) || (c.toId == id && c.fromId == x.id))
  {
    var cs := GetIdeaConnections(db, id);
    var k :| 0 <= k < |cs| && (cs[k].conn.fromId == x.id || cs[k].conn.toId == x.id);
    assert cs[k] in cs;
  }
}
