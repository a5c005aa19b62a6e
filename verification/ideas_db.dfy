/** The statements on the ideas table: insert, lookup by id and by url, the
    filtered and cursor-paginated listing, update, cascading delete, full-text
    search, and the per-idea reads of connections, notes and media. */
module IdeasDb {
  import opened Wrappers
  import opened Json
  import opened Queries
  import opened Store
  import Numbers

  // ---------------------------------------------------------------- insertIdea

  /** The row `insertIdea` writes: the type as given, and `title`, `url` and
      `summary` with a missing value stored as NULL; or the error D1 raises while
      binding them. */
  function NewIdeaRow(id: string, kind: Option<Json>, title: Option<Json>, url: Option<Json>,
                      summary: Option<Json>, r2Key: string, createdAt: int, updatedAt: int): (r: Result<Idea>)
    ensures r.Ok? <==> Bind(kind).Ok? && Bind(OrNull(title)).Ok? && Bind(OrNull(url)).Ok? && Bind(OrNull(summary)).Ok?
    ensures r.Ok? ==> r.value.id == id && r.value.r2Key == r2Key
    ensures r.Ok? ==> r.value.createdAt == createdAt && r.value.updatedAt == updatedAt
    ensures r.Ok? ==> r.value.kind == Bind(kind).value
    ensures r.Ok? ==> r.value.title == Bind(OrNull(title)).value && r.value.url == Bind(OrNull(url)).value
                      && r.value.summary == Bind(OrNull(summary)).value
    ensures r.Ok? && title.None? ==> r.value.title.None?
    ensures r.Ok? && url.None? ==> r.value.url.None?
    ensures r.Ok? && summary.None? ==> r.value.summary.None?
  {
    var k := Bind(kind);
    var t := Bind(OrNull(title));
    var u := Bind(OrNull(url));
    var s := Bind(OrNull(summary));
    if k.Err? then Err(k.message)
    else if t.Err? then Err(t.message)
    else if u.Err? then Err(u.message)
    else if s.Err? then Err(s.message)
    else Ok(Idea(id, k.value, t.value, u.value, s.value, r2Key, createdAt, updatedAt))
  }

  /** An idea with this id is already stored. */
  predicate IdeaIdTaken(ideas: seq<Idea>, id: string) {
    exists i :: 0 <= i < |ideas| && ideas[i].id == id
  }

  method InsertIdea(db: Database, id: string, kind: Option<Json>, title: Option<Json>, url: Option<Json>,
                    summary: Option<Json>, r2Key: string, createdAt: int, updatedAt: int)
    returns (r: Result<()>)
    requires db.Valid()
    modifies db
    ensures db.Valid()
    ensures var row := NewIdeaRow(id, kind, title, url, summary, r2Key, createdAt, updatedAt);
      && (r.Ok? <==> row.Ok? && !IdeaIdTaken(old(db.ideas), id))
      && (r.Ok? ==> db.ideas == old(db.ideas) + [row.value])
      && (r.Err? ==> db.ideas == old(db.ideas))
    ensures db.connections == old(db.connections) && db.notes == old(db.notes) && db.media == old(db.media)
    ensures db.clients == old(db.clients) && db.codes == old(db.codes) && db.tokens == old(db.tokens)
  {
    var row := NewIdeaRow(id, kind, title, url, summary, r2Key, createdAt, updatedAt);
    if row.Err? {
      return Err(row.message);
    }
    if IdeaIdTaken(db.ideas, id) {
      return Err("UNIQUE constraint failed: ideas.id");
    }
    forall k | 0 <= k < |db.ideas| ensures !SameKeyOf(IdeaId)(db.ideas[k], row.value) {
      assert IdeaId(db.ideas[k]) != IdeaId(row.value);
    }
    AppendDistinct(db.ideas, row.value, SameKeyOf(IdeaId));
    db.ideas := db.ideas + [row.value];
    r := Ok(());
  }

  // ---------------------------------------------------------------- getIdea / getIdeaByUrl

  /** `SELECT * FROM ideas WHERE id = ?` over a table content. */
  function FindIdea(ideas: seq<Idea>, id: string): (r: Option<Idea>)
    ensures r.Some? ==> r.value in ideas && r.value.id == id
    ensures r.None? <==> !IdeaIdTaken(ideas, id)
  {
    First(ideas, KeyIs(IdeaId, id))
  }

  function GetIdea(db: Database, id: string): (r: Option<Idea>)
    reads db
    ensures r == FindIdea(db.ideas, id)
  {
    FindIdea(db.ideas, id)
  }

  /** `getIdeaByUrl`: the first idea, in table order, whose url is the given text. */
  function GetIdeaByUrl(db: Database, url: string): (r: Option<Idea>)
    reads db
    ensures r.Some? ==> r.value in db.ideas && r.value.url == Some(url)
    ensures r.None? <==> forall i :: 0 <= i < |db.ideas| ==> db.ideas[i].url != Some(url)
  {
    First(db.ideas, (x: Idea) => x.url == Some(url))
  }

  /** A row just inserted is what the lookup by its id finds; lookups of other ids
      are unaffected. */
  lemma FindAfterInsert(ideas: seq<Idea>, row: Idea, other: string)
    requires !IdeaIdTaken(ideas, row.id)
    ensures FindIdea(ideas + [row], row.id) == Some(row)
    ensures other != row.id ==> FindIdea(ideas + [row], other) == FindIdea(ideas, other)
  {
    var s := ideas + [row];
    assert forall i :: 0 <= i < |ideas| ==> s[i] == ideas[i];
    FindAppend(ideas, row, row.id);
    if other != row.id {
      FindAppend(ideas, row, other);
    }
  }

  lemma {:induction false} FindAppend(ideas: seq<Idea>, row: Idea, id: string)
    ensures FindIdea(ideas + [row], id) == if IdeaIdTaken(ideas, id) then FindIdea(ideas, id)
                                           else if row.id == id then Some(row) else None
    decreases |ideas|
  {
    if |ideas| > 0 {
      assert (ideas + [row])[1..] == ideas[1..] + [row];
      FindAppend(ideas[1..], row, id);
      if ideas[0].id != id {
        assert IdeaIdTaken(ideas, id) <==> IdeaIdTaken(ideas[1..], id) by {
          if IdeaIdTaken(ideas, id) {
            var i :| 0 <= i < |ideas| && ideas[i].id == id;
            assert ideas[1..][i - 1] == ideas[i];
          }
          if IdeaIdTaken(ideas[1..], id) {
            var i :| 0 <= i < |ideas[1..]| && ideas[1..][i].id == id;
            assert ideas[i + 1] == ideas[1..][i];
          }
        }
      }
    }
  }

  // ---------------------------------------------------------------- listIdeas

  /** The arguments of `listIdeas`, as the caller passes them. */
  datatype ListQuery = ListQuery(
    kind: Option<Json>, tag: Option<Json>, url: Option<Json>, limit: Option<Json>, cursor: Option<Json>)

  /** A page of ideas and the cursor of the next page. */
  datatype Page = Page(ideas: seq<Idea>, nextCursor: Option<int>)

  /** `Math.min(Number(limit) || 20, 100)`. */
  function EffectiveLimit(limit: Option<Json>): (n: int)
    ensures n <= 100 && n != 0
    ensures limit.None? || limit == Some(JNull) ==> n == 20
    ensures ToNumber(limit).NaN? || ToNumber(limit) == Numbers.Num(0) ==> n == 20
    ensures ToNumber(limit).Num? && 1 <= ToNumber(limit).n <= 100 ==> n == ToNumber(limit).n
    ensures ToNumber(limit).Num? && ToNumber(limit).n > 100 ==> n == 100
    ensures ToNumber(limit).Num? && ToNumber(limit).n < 0 ==> n == ToNumber(limit).n
  {
    var v := ToNumber(limit);
    var m := if v.Truthy() then v.n else 20;
    if m < 100 then m else 100
  }

  /** The WHERE clauses a query carries once its parameters are bound; `None` is a
      clause that is left out because its argument is falsy. */
  datatype Clauses = Clauses(
    kind: Option<string>, url: Option<string>, before: Option<Numbers.Number>, tag: Option<string>)

  /** A clause's parameter: left out when the argument is falsy, else bound. */
  function BindClause(v: Option<Json>): (r: Result<Option<string>>)
    ensures !Present(v) ==> r == Ok(None)
    ensures Present(v) && v.value.JStr? ==> r == Ok(Some(v.value.s))
  {
    if !Present(v) then Ok(None)
    else match Bind(v)
      case Err(m) => Err(m)
      case Ok(t) => Ok(t)
  }

  /** Binding the parameters of the listing, in the order they are pushed. */
  function BindClauses(q: ListQuery): (r: Result<Clauses>)
    ensures r.Ok? ==> (r.value.before.Some? <==> Present(q.cursor))
    ensures r.Ok? && Present(q.cursor) ==> r.value.before == Some(ToNumber(q.cursor))
  {
    var tag := BindClause(q.tag);
    var kind := BindClause(q.kind);
    var url := BindClause(q.url);
    if tag.Err? then Err(tag.message)
    else if kind.Err? then Err(kind.message)
    else if url.Err? then Err(url.message)
    else Ok(Clauses(kind.value, url.value, if Present(q.cursor) then Some(ToNumber(q.cursor)) else None, tag.value))
  }

  /** The type, url and cursor clauses. A NaN cursor binds as NULL, and
      `created_at < NULL` holds for no row. */
  predicate Passes(x: Idea, c: Clauses) {
    && (c.kind.Some? ==> x.kind == c.kind)
    && (c.url.Some? ==> x.url == c.url)
    && (c.before.Some? ==> c.before.value.Num? && x.createdAt < c.before.value.n)
  }

  /** One row of the tag join: `x` has a 'tagged_with' connection `c` to the tag idea
      `t`, whose id or title is the requested tag. */
  predicate TagEdge(x: Idea, c: Connection, t: Idea, tag: string) {
    && c.fromId == x.id && c.edgeLabel == Some(TaggedWith)
    && t.id == c.toId && t.kind == Some("tag")
    && (t.id == tag || t.title == Some(tag))
  }

  /** `x` is tagged with `tag` in the given tables. */
  ghost predicate IsTagged(x: Idea, cs: seq<Connection>, ts: seq<Idea>, tag: string) {
    exists c, t :: c in cs && t in ts && TagEdge(x, c, t, tag)
  }

  /** The rows `x JOIN c JOIN t` contributes for one connection: one per matching tag idea. */
  function JoinTargets(x: Idea, c: Connection, ts: seq<Idea>, tag: string): (r: seq<Idea>)
    ensures forall y :: y in r ==> y == x
    ensures |r| > 0 <==> exists t :: t in ts && TagEdge(x, c, t, tag)
  {
    if |ts| == 0 then []
    else
      var rest := JoinTargets(x, c, ts[1..], tag);
      assert forall t :: t in ts <==> t == ts[0] || t in ts[1..];
      (if TagEdge(x, c, ts[0], tag) then [x] else []) + rest
  }

  /** The rows one idea contributes to the tag join. */
  function JoinEdges(x: Idea, cs: seq<Connection>, ts: seq<Idea>, tag: string): (r: seq<Idea>)
    ensures forall y :: y in r ==> y == x
    ensures |r| > 0 <==> IsTagged(x, cs, ts, tag)
  {
    if |cs| == 0 then []
    else
      var here := JoinTargets(x, cs[0], ts, tag);
      var rest := JoinEdges(x, cs[1..], ts, tag);
      assert forall c :: c in cs <==> c == cs[0] || c in cs[1..];
      assert |rest| > 0 <==> IsTagged(x, cs[1..], ts, tag);
      here + rest
  }

  /** `ideas i JOIN connections c ... JOIN ideas t ...`, one row per matching
      (connection, tag) pair, in table order. An idea tagged by two matching tag
      ideas (two tags with the same title, or one matching by id and another by
      title) appears twice. */
  function TagJoin(xs: seq<Idea>, cs: seq<Connection>, ts: seq<Idea>, tag: string): (r: seq<Idea>)
    ensures forall y :: y in r <==> y in xs && IsTagged(y, cs, ts, tag)
  {
    if |xs| == 0 then []
    else
      var here := JoinEdges(xs[0], cs, ts, tag);
      var rest := TagJoin(xs[1..], cs, ts, tag);
      assert forall y :: y in xs <==> y == xs[0] || y in xs[1..];
      assert |here| > 0 ==> here[0] in here;
      assert forall y :: y in here <==> y == xs[0] && |here| > 0;
      here + rest
  }

  /** `x` belongs in the listing: stored, passing the clauses, and tagged when a tag
      is asked for. */
  ghost predicate Listed(db: Database, c: Clauses, x: Idea)
    reads db
  {
    x in db.ideas && Passes(x, c) && (c.tag.Some? ==> IsTagged(x, db.connections, db.ideas, c.tag.value))
  }

  /** The rows the FROM/JOIN part produces. */
  function Source(db: Database, c: Clauses): seq<Idea>
    reads db
  {
    if c.tag.Some? then TagJoin(db.ideas, db.connections, db.ideas, c.tag.value) else db.ideas
  }

  function Where(s: seq<Idea>, c: Clauses): (r: seq<Idea>)
    ensures forall x :: x in r <==> x in s && Passes(x, c)
  {
    Filter(s, (x: Idea) => Passes(x, c))
  }

  /** Every row the listing's query selects, in its `ORDER BY created_at DESC`
      order, before `LIMIT`. */
  function Selection(db: Database, c: Clauses): (r: seq<Idea>)
    reads db
    ensures SortedBy(r, NewerIdea)
    ensures forall x :: x in r <==> Listed(db, c, x)
  {
    var w := Where(Source(db, c), c);
    var r := Sort(w, NewerIdea);
    TimeOrdersStrict();
    SortSorted(w, NewerIdea);
    assert forall x :: x in r <==> x in w by {
      assert multiset(r) == multiset(w);
      forall x ensures x in r <==> x in w {
        assert x in r <==> x in multiset(r);
        assert x in w <==> x in multiset(w);
      }
    }
    r
  }

  /** The end of `listIdeas`: when more rows came back than the limit, `pop()` the
      extra one and take the `created_at` of the new last row as the next cursor.
      `pop()` leaves an empty array empty, and reading `created_at` of the missing
      last row throws. */
  function Paginate(results: seq<Idea>, limit: int): (r: Result<Page>)
    ensures r.Err? <==> |results| > limit && |results| <= 1
    ensures r.Ok? && |results| <= limit ==> r.value == Page(results, None)
    ensures r.Ok? && |results| > limit ==>
      && r.value.ideas == results[..|results| - 1]
      && r.value.nextCursor == Some(results[|results| - 2].createdAt)
  {
    if |results| > limit then
      var popped := if |results| > 0 then results[..|results| - 1] else results;
      if |popped| == 0 then Err("Cannot read properties of undefined (reading 'created_at')")
      else Ok(Page(popped, Some(popped[|popped| - 1].createdAt)))
    else Ok(Page(results, None))
  }

  /** What a page cut from an ordered selection with `LIMIT limit + 1` holds: a
      prefix of the selection, in order; for a positive limit, `limit` rows and a
      cursor exactly when more rows exist; for a negative limit (no SQL limit), an
      error exactly when at most one row was selected or the limit is -1. */
  lemma {:induction false} PaginateLimit(sel: seq<Idea>, limit: int)
    requires SortedBy(sel, NewerIdea)
    ensures var r := Paginate(Limit(sel, limit + 1), limit);
      && (r.Ok? ==> |r.value.ideas| <= |sel| && r.value.ideas == sel[..|r.value.ideas|])
      && (r.Ok? ==> SortedBy(r.value.ideas, NewerIdea) && forall x :: x in r.value.ideas ==> x in sel)
      && (r.Ok? && r.value.nextCursor.Some? ==>
            |r.value.ideas| > 0 && r.value.nextCursor.value == r.value.ideas[|r.value.ideas| - 1].createdAt)
      && (limit >= 1 ==> r.Ok? && |r.value.ideas| == (if |sel| <= limit then |sel| else limit))
      && (limit >= 1 ==> r.Ok? && (r.value.nextCursor.Some? <==> |sel| > limit))
      && (limit < 0 ==> (r.Err? <==> limit == -1 || |sel| <= 1))
  {
    var results := Limit(sel, limit + 1);
    var r := Paginate(results, limit);
    if r.Ok? {
      var n := |r.value.ideas|;
      assert n <= |results|;
      assert r.value.ideas == sel[..n];
      PrefixSorted(sel, n, NewerIdea);
      assert forall x :: x in r.value.ideas ==> x in sel;
    }
  }

  /** `listIdeas`: the ideas the query selects, newest first, cut to a page. */
  function ListIdeas(db: Database, q: ListQuery): (r: Result<Page>)
    reads db
    ensures BindClauses(q).Err? ==> r.Err?
    ensures BindClauses(q).Ok? ==>
      var sel := Selection(db, BindClauses(q).value);
      var limit := EffectiveLimit(q.limit);
      && (r.Ok? ==> |r.value.ideas| <= |sel| && r.value.ideas == sel[..|r.value.ideas|])
      && (limit >= 1 ==> r.Ok? && |r.value.ideas| == (if |sel| <= limit then |sel| else limit))
      && (limit >= 1 ==> r.Ok? && (r.value.nextCursor.Some? <==> |sel| > limit))
      && (limit < 0 ==> (r.Err? <==> limit == -1 || |sel| <= 1))
    ensures r.Ok? ==> SortedBy(r.value.ideas, NewerIdea)
    ensures r.Ok? && r.value.nextCursor.Some? ==>
      |r.value.ideas| > 0 && r.value.nextCursor.value == r.value.ideas[|r.value.ideas| - 1].createdAt
    ensures r.Ok? ==> forall x :: x in r.value.ideas ==> Listed(db, BindClauses(q).value, x)
  {
    match BindClauses(q)
    case Err(m) => Err(m)
    case Ok(c) =>
      var sel := Selection(db, c);
      var limit := EffectiveLimit(q.limit);
      PaginateLimit(sel, limit);
      Paginate(Limit(sel, limit + 1), limit)
  }

  /** With a cursor, every listed idea is older than the cursor. */
  lemma ListedBeforeCursor(db: Database, q: ListQuery, x: Idea)
    requires BindClauses(q).Ok? && Present(q.cursor) && Listed(db, BindClauses(q).value, x)
    ensures ToNumber(q.cursor).Num? && x.createdAt < ToNumber(q.cursor).n
  {
  }

  // ---------------------------------------------------------------- updateIdea

  /** The table after `UPDATE ideas SET title, url, summary, updated_at WHERE id = ?`. */
  function SetIdeaFields(s: seq<Idea>, id: string, title: Option<string>, url: Option<string>,
                         summary: Option<string>, updatedAt: int): (r: seq<Idea>)
    ensures |r| == |s|
    ensures forall k :: 0 <= k < |s| ==>
      && r[k].id == s[k].id && r[k].kind == s[k].kind && r[k].r2Key == s[k].r2Key
      && r[k].createdAt == s[k].createdAt
    ensures forall k :: 0 <= k < |s| && s[k].id != id ==> r[k] == s[k]
    ensures forall k :: 0 <= k < |s| && s[k].id == id ==>
      r[k].title == title && r[k].url == url && r[k].summary == summary && r[k].updatedAt == updatedAt
  {
    seq(|s|, k requires 0 <= k < |s| =>
      if s[k].id == id then s[k].(title := title, url := url, summary := summary, updatedAt := updatedAt)
      else s[k])
  }

  method UpdateIdea(db: Database, id: string, title: Option<Json>, url: Option<Json>,
                    summary: Option<Json>, updatedAt: int) returns (r: Result<()>)
    requires db.Valid()
    modifies db
    ensures db.Valid()
    ensures var t, u, s := Bind(OrNull(title)), Bind(OrNull(url)), Bind(OrNull(summary));
      && (r.Ok? <==> t.Ok? && u.Ok? && s.Ok?)
      && (r.Ok? ==> db.ideas == SetIdeaFields(old(db.ideas), id, t.value, u.value, s.value, updatedAt))
      && (r.Err? ==> db.ideas == old(db.ideas))
    ensures db.connections == old(db.connections) && db.notes == old(db.notes) && db.media == old(db.media)
    ensures db.clients == old(db.clients) && db.codes == old(db.codes) && db.tokens == old(db.tokens)
  {
    var t, u, s := Bind(OrNull(title)), Bind(OrNull(url)), Bind(OrNull(summary));
    if t.Err? {
      return Err(t.message);
    }
    if u.Err? {
      return Err(u.message);
    }
    if s.Err? {
      return Err(s.message);
    }
    var updated := SetIdeaFields(db.ideas, id, t.value, u.value, s.value, updatedAt);
    assert Distinct(updated, SameKeyOf(IdeaId)) by {
      forall i, j | 0 <= i < j < |updated| ensures !SameKeyOf(IdeaId)(updated[i], updated[j]) {
        assert !SameKeyOf(IdeaId)(db.ideas[i], db.ideas[j]);
        assert IdeaId(updated[i]) == IdeaId(db.ideas[i]) && IdeaId(updated[j]) == IdeaId(db.ideas[j]);
      }
    }
    db.ideas := updated;
    r := Ok(());
  }

  // ---------------------------------------------------------------- deleteIdea

  function NotTouching(id: string): Connection -> bool { (x: Connection) => x.fromId != id && x.toId != id }
  function NoteNotOf(id: string): Note -> bool { (x: Note) => x.ideaId != id }
  function MediaNotOf(id: string): Media -> bool { (x: Media) => x.ideaId != id }

  function WithoutEndpoint(s: seq<Connection>, id: string): (r: seq<Connection>)
    ensures forall x :: x in r <==> x in s && x.fromId != id && x.toId != id
  {
    Filter(s, NotTouching(id))
  }

  function NotesWithout(s: seq<Note>, id: string): (r: seq<Note>)
    ensures forall x :: x in r <==> x in s && x.ideaId != id
  {
    Filter(s, NoteNotOf(id))
  }

  function MediaWithout(s: seq<Media>, id: string): (r: seq<Media>)
    ensures forall x :: x in r <==> x in s && x.ideaId != id
  {
    Filter(s, MediaNotOf(id))
  }

  /** Deleting rows never breaks a uniqueness constraint. */
  lemma CascadeKeepsKeys(ideas: seq<Idea>, connections: seq<Connection>, notes: seq<Note>, media: seq<Media>, id: string)
    requires ContentValid(ideas, connections, notes, media)
    ensures ContentValid(WithoutKey(ideas, IdeaId, id), WithoutEndpoint(connections, id), NotesWithout(notes, id), MediaWithout(media, id))
  {
    FilterDistinct(ideas, NotKey(IdeaId, id), SameKeyOf(IdeaId));
    FilterDistinct(connections, NotTouching(id), SameKeyOf(ConnectionId));
    FilterDistinct(connections, NotTouching(id), SameEdge);
    FilterDistinct(notes, NoteNotOf(id), SameKeyOf(NoteId));
    FilterDistinct(media, MediaNotOf(id), SameKeyOf(MediaId));
  }

  /** `deleteIdea`: the row goes, and with it (ON DELETE CASCADE) every connection
      from or to it and every note and media row of it. */
  method DeleteIdea(db: Database, id: string)
    requires db.Valid()
    modifies db
    ensures db.Valid()
    ensures db.ideas == WithoutKey(old(db.ideas), IdeaId, id)
    ensures db.connections == WithoutEndpoint(old(db.connections), id)
    ensures db.notes == NotesWithout(old(db.notes), id)
    ensures db.media == MediaWithout(old(db.media), id)
    ensures db.clients == old(db.clients) && db.codes == old(db.codes) && db.tokens == old(db.tokens)
    ensures GetIdea(db, id).None?
  {
    var ideas, connections, notes, media := db.ideas, db.connections, db.notes, db.media;
    assert OAuthValid(db.clients, db.codes, db.tokens) && ContentValid(ideas, connections, notes, media);
    CascadeKeepsKeys(ideas, connections, notes, media, id);
    WithoutKeyNotFound(ideas, IdeaId, id);
    db.ideas, db.connections, db.notes, db.media :=
      WithoutKey(ideas, IdeaId, id), WithoutEndpoint(connections, id), NotesWithout(notes, id), MediaWithout(media, id);
    ValidFromParts(db);
  }

  // ---------------------------------------------------------------- searchIdeas

  /** `searchIdeas`: the full-text match (`fts`, given the bound query, answers the
      rows in rank order or the error of a malformed query) cut to the clamped limit. */
  function SearchIdeas(query: Option<Json>, limit: Option<Json>, fts: Option<string> -> Result<seq<Idea>>)
    : (r: Result<seq<Idea>>)
    ensures Bind(query).Err? ==> r.Err?
    ensures Bind(query).Ok? ==> (r.Ok? <==> fts(Bind(query).value).Ok?)
    ensures r.Ok? ==> |r.value| <= |fts(Bind(query).value).value|
                      && r.value == fts(Bind(query).value).value[..|r.value|]
    ensures r.Ok? ==>
      var matches, n := |fts(Bind(query).value).value|, EffectiveLimit(limit);
      |r.value| == if n < 0 || matches <= n then matches else n
    ensures r.Ok? && EffectiveLimit(limit) >= 1 ==> |r.value| <= EffectiveLimit(limit) <= 100
  {
    match Bind(query)
    case Err(m) => Err(m)
    case Ok(q) =>
      match fts(q)
      case Err(m) => Err(m)
      case Ok(rows) => Ok(Limit(rows, EffectiveLimit(limit)))
  }

  // ---------------------------------------------------------------- per-idea reads

  /** A row of `getIdeaConnections`: the connection with the type and title of both
      ends. */
  datatype ConnectionView = ConnectionView(
    conn: Connection, fromKind: Option<string>, fromTitle: Option<string>,
    toKind: Option<string>, toTitle: Option<string>)

  function ConnectionViewJson(v: ConnectionView): Json {
    JObj([("id", JStr(v.conn.id)), ("from_id", JStr(v.conn.fromId)), ("to_id", JStr(v.conn.toId)),
          ("label", TextOrNull(v.conn.edgeLabel)), ("created_at", JNum(v.conn.createdAt)),
          ("from_type", TextOrNull(v.fromKind)), ("from_title", TextOrNull(v.fromTitle)),
          ("to_type", TextOrNull(v.toKind)), ("to_title", TextOrNull(v.toTitle))])
  }

  /** `getIdeaConnections`: the connections from or to `id`, in table order, joined
      with both end ideas; a connection whose other end is missing is dropped by
      the inner join. */
  function IdeaConnections(ideas: seq<Idea>, cs: seq<Connection>, id: string): (r: seq<ConnectionView>)
    ensures forall v :: v in r ==> v.conn in cs && (v.conn.fromId == id || v.conn.toId == id)
    ensures forall v :: v in r ==> IdeaIdTaken(ideas, v.conn.fromId) && IdeaIdTaken(ideas, v.conn.toId)
    ensures forall v :: v in r ==>
      && v.fromKind == FindIdea(ideas, v.conn.fromId).value.kind && v.fromTitle == FindIdea(ideas, v.conn.fromId).value.title
      && v.toKind == FindIdea(ideas, v.conn.toId).value.kind && v.toTitle == FindIdea(ideas, v.conn.toId).value.title
    ensures forall c :: c in cs && (c.fromId == id || c.toId == id)
                        && IdeaIdTaken(ideas, c.fromId) && IdeaIdTaken(ideas, c.toId)
                        ==> exists v :: v in r && v.conn == c
  {
    if |cs| == 0 then []
    else
      var c := cs[0];
      var rest := IdeaConnections(ideas, cs[1..], id);
      assert forall x :: x in cs <==> x == c || x in cs[1..];
      var fi, ti := FindIdea(ideas, c.fromId), FindIdea(ideas, c.toId);
      if (c.fromId == id || c.toId == id) && fi.Some? && ti.Some? then
        var v := ConnectionView(c, fi.value.kind, fi.value.title, ti.value.kind, ti.value.title);
        assert v in [v] + rest;
        [v] + rest
      else rest
  }

  function GetIdeaConnections(db: Database, id: string): (r: seq<ConnectionView>)
    reads db
    ensures r == IdeaConnections(db.ideas, db.connections, id)
  {
    IdeaConnections(db.ideas, db.connections, id)
  }

  /** `getIdeaNotes`: the idea's notes, oldest first; every note of the idea, and
      nothing else, appears as often as it is stored. */
  function IdeaNotes(notes: seq<Note>, id: string): (r: seq<Note>)
    ensures SortedBy(r, OlderNote)
    ensures forall n :: n in r ==> n.ideaId == id
    ensures multiset(r) == multiset(Filter(notes, (n: Note) => n.ideaId == id))
    ensures forall n :: n in notes && n.ideaId == id ==> n in r
  {
    var mine := Filter(notes, (n: Note) => n.ideaId == id);
    TimeOrdersStrict();
    SortSorted(mine, OlderNote);
    var r := Sort(mine, OlderNote);
    assert forall n :: n in r <==> n in multiset(r);
    assert forall n :: n in mine <==> n in multiset(mine);
    r
  }

  function GetIdeaNotes(db: Database, id: string): (r: seq<Note>)
    reads db
    ensures r == IdeaNotes(db.notes, id)
  {
    IdeaNotes(db.notes, id)
  }

  /** `getIdeaMedia`: the idea's media rows, oldest first. */
  function IdeaMedia(media: seq<Media>, id: string): (r: seq<Media>)
    ensures SortedBy(r, OlderMedia)
    ensures forall m :: m in r ==> m.ideaId == id
    ensures multiset(r) == multiset(Filter(media, (m: Media) => m.ideaId == id))
    ensures forall m :: m in media && m.ideaId == id ==> m in r
  {
    var mine := Filter(media, (m: Media) => m.ideaId == id);
    TimeOrdersStrict();
    SortSorted(mine, OlderMedia);
    var r := Sort(mine, OlderMedia);
    assert forall m :: m in r <==> m in multiset(r);
    assert forall m :: m in mine <==> m in multiset(mine);
    r
  }

  function GetIdeaMedia(db: Database, id: string): (r: seq<Media>)
    reads db
    ensures r == IdeaMedia(db.media, id)
  {
    IdeaMedia(db.media, id)
  }
}
