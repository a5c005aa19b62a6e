/** `GET /api/tags`: every idea of type `tag` with the number of `tagged_with`
    connections pointing at it, most used first and then by title. */
module TagsRoutes {
  import opened Wrappers
  import opened Json
  import opened Queries
  import opened Store
  import opened Errors
  import Strings

  /** A result row: the tag's columns and its `usage_count`. */
  datatype TagUsage = TagUsage(tag: Idea, usage: nat)

  function TagKey(u: TagUsage): string { u.tag.id }

  predicate IsTag(x: Idea) { x.kind == Some("tag") }

  /** The joined rows of the LEFT JOIN for one tag. */
  function TaggedWith(id: string): Connection -> bool {
    (c: Connection) => c.toId == id && c.edgeLabel == Some("tagged_with")
  }

  /** `COUNT(c.id)` for one tag: the `tagged_with` connections whose `to_id` is it;
      zero for an unused tag, whose one joined row has a NULL `c.id`. */
  function Usage(cs: seq<Connection>, id: string): (n: nat)
    ensures n <= |cs|
    ensures n == 0 <==> forall i :: 0 <= i < |cs| ==> !(cs[i].toId == id && cs[i].edgeLabel == Some("tagged_with"))
  {
    Count(cs, TaggedWith(id))
  }

  /** `ORDER BY t.title ASC`: NULL first, then by text. */
  predicate TitleBefore(a: Option<string>, b: Option<string>) {
    (a.None? && b.Some?) || (a.Some? && b.Some? && Strings.Less(a.value, b.value))
  }

  /** `ORDER BY usage_count DESC, t.title ASC`. */
  predicate TagBefore(a: TagUsage, b: TagUsage) {
    a.usage > b.usage || (a.usage == b.usage && TitleBefore(a.tag.title, b.tag.title))
  }

  lemma TagOrderStrict()
    ensures StrictOrder(TagBefore)
  {
    forall a: TagUsage, b: TagUsage | TagBefore(a, b) ensures !TagBefore(b, a) {
      if a.tag.title.Some? && b.tag.title.Some? {
        Strings.LessIrreflexive(a.tag.title.value, b.tag.title.value);
      }
    }
    forall a: TagUsage, b: TagUsage, c: TagUsage | TagBefore(a, b) && TagBefore(b, c) ensures TagBefore(a, c) {
      if a.usage == b.usage == c.usage && a.tag.title.Some? {
        Strings.LessTransitive(a.tag.title.value, b.tag.title.value, c.tag.title.value);
      }
    }
  }

  /** The grouped rows in table order: one per tag idea. */
  function Grouped(ideas: seq<Idea>, cs: seq<Connection>): (r: seq<TagUsage>)
    ensures forall u :: u in r <==> u.tag in ideas && IsTag(u.tag) && u.usage == Usage(cs, u.tag.id)
  {
    var ts := Filter(ideas, IsTag);
    var r := seq(|ts|, i requires 0 <= i < |ts| => TagUsage(ts[i], Usage(cs, ts[i].id)));
    assert forall u :: u in r ==> u.tag in ts;
    assert forall t :: t in ts ==> TagUsage(t, Usage(cs, t.id)) in r by {
      forall t | t in ts ensures TagUsage(t, Usage(cs, t.id)) in r {
        var i :| 0 <= i < |ts| && ts[i] == t;
        assert r[i] == TagUsage(t, Usage(cs, t.id));
      }
    }
    r
  }

  /** Grouping by `t.id` over unique ids gives each tag one row. */
  lemma GroupedOnce(ideas: seq<Idea>, cs: seq<Connection>)
    requires Distinct(ideas, SameKeyOf(IdeaId))
    ensures Distinct(Grouped(ideas, cs), SameKeyOf(TagKey))
  {
    var ts := Filter(ideas, IsTag);
    FilterDistinct(ideas, IsTag, SameKeyOf(IdeaId));
    var r := Grouped(ideas, cs);
    assert |r| == |ts| && forall i :: 0 <= i < |r| ==> r[i].tag == ts[i];
    forall i, j | 0 <= i < j < |r| ensures !SameKeyOf(TagKey)(r[i], r[j]) {
      assert !SameKeyOf(IdeaId)(ts[i], ts[j]);
      assert TagKey(r[i]) == IdeaId(ts[i]) && TagKey(r[j]) == IdeaId(ts[j]);
    }
  }

  /** The rows of `GET /api/tags`. */
  function Tags(db: Database): (r: seq<TagUsage>)
    reads db
    ensures SortedBy(r, TagBefore)
    ensures multiset(r) == multiset(Grouped(db.ideas, db.connections))
    ensures forall u :: u in r <==> u.tag in db.ideas && IsTag(u.tag) && u.usage == Usage(db.connections, u.tag.id)
  {
    var rows := Grouped(db.ideas, db.connections);
    TagOrderStrict();
    SortSorted(rows, TagBefore);
    var r := Sort(rows, TagBefore);
    assert forall u :: u in r <==> u in multiset(r);
    assert forall u :: u in rows <==> u in multiset(rows);
    r
  }

  /** Each tag appears exactly once. */
  lemma TagsOnce(db: Database)
    requires db.Valid()
    ensures Distinct(Tags(db), SameKeyOf(TagKey))
  {
    GroupedOnce(db.ideas, db.connections);
    assert Symmetric(SameKeyOf(TagKey));
    SortDistinct(Grouped(db.ideas, db.connections), TagBefore, SameKeyOf(TagKey));
  }

  /** `t.*` with `usage_count`. */
  function TagJson(u: TagUsage): Json {
    JObj(IdeaJson(u.tag).fields + [("usage_count", JNum(u.usage))])
  }

  /** `GET /api/tags`. */
  function List(db: Database): (r: Response)
    reads db
    ensures r.Reply? && r.status == 200 && r.body.JsonBody?
    ensures Get(r.body.json, "tags") == Some(Rows(Tags(db), TagJson))
  {
    JsonReply(JObj([("tags", Rows(Tags(db), TagJson))]), 200)
  }
}
