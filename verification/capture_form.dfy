/** The capture form shared by the iOS share sheet, the macOS capture panel and
    the iOS quick-note sheet: the tags picked so far, the suggestions offered for
    the tag query, the title fallback, and the requests `save` makes. */
module CaptureForm {
  import opened Wrappers
  import Strings
  import Store
  import Capture
  import ClientModels
  import opened Json
  import IdeasRoutes

  // ---------------------------------------------------------------- tag items

  /** `TagItem`: an existing tag idea, or a name to be created on save under a
      client-side UUID. */
  datatype TagItem = TagItem(id: string, name: string, isNew: bool)

  /** `TagItem(existing:)` */
  function Existing(idea: ClientModels.Idea): TagItem {
    TagItem(idea.id, idea.title.GetOr(""), false)
  }

  /** `TagItem(newName:)`, with the UUID it draws passed in. */
  function Fresh(name: string, uuid: string): TagItem {
    TagItem(uuid, name, true)
  }

  /** `selectedTags.contains(where: { $0.id == id })` */
  function HasId(s: seq<TagItem>, id: string): (b: bool)
    ensures b <==> exists t :: t in s && t.id == id
  {
    if |s| == 0 then false
    else
      assert forall t :: t in s <==> t == s[0] || t in s[1..];
      s[0].id == id || HasId(s[1..], id)
  }

  /** `selectedTags.contains(where: { $0.name.lowercased() == name.lowercased() })` */
  function HasName(s: seq<TagItem>, name: string): (b: bool)
    ensures b <==> exists t :: t in s && Strings.EqualsIgnoringCase(t.name, name)
  {
    if |s| == 0 then false
    else
      assert forall t :: t in s <==> t == s[0] || t in s[1..];
      Strings.EqualsIgnoringCase(s[0].name, name) || HasName(s[1..], name)
  }

  /** `allTags.contains { ($0.title ?? "").lowercased() == q.lowercased() }` */
  function HasTitle(tags: seq<ClientModels.Idea>, q: string): (b: bool)
    ensures b <==> exists x :: x in tags && Strings.EqualsIgnoringCase(x.title.GetOr(""), q)
  {
    if |tags| == 0 then false
    else
      assert forall x :: x in tags <==> x == tags[0] || x in tags[1..];
      Strings.EqualsIgnoringCase(tags[0].title.GetOr(""), q) || HasTitle(tags[1..], q)
  }

  /** `Set(selectedTags.filter { !$0.isNew }.map(\.id))`: the ids of the existing
      tags picked so far. */
  function PickedIds(s: seq<TagItem>): (r: set<string>)
    ensures forall id :: id in r <==> exists t :: t in s && !t.isNew && t.id == id
  {
    set t | t in s && !t.isNew :: t.id
  }

  // ---------------------------------------------------------------- suggestions

  /** A tag is offered when it is not picked yet and, for a non-empty query, its
      title contains the query ignoring case. */
  predicate Offered(x: ClientModels.Idea, picked: set<string>, query: string) {
    x.id !in picked && (query == "" || Strings.ContainsIgnoringCase(x.title.GetOr(""), query))
  }

  /** The tags offered, in the order of the tag list. */
  function Pool(allTags: seq<ClientModels.Idea>, picked: set<string>, query: string): (r: seq<ClientModels.Idea>)
    ensures |r| <= |allTags|
    ensures forall x :: x in r <==> x in allTags && Offered(x, picked, query)
  {
    if |allTags| == 0 then []
    else
      assert forall x :: x in allTags <==> x == allTags[0] || x in allTags[1..];
      var rest := Pool(allTags[1..], picked, query);
      if Offered(allTags[0], picked, query) then [allTags[0]] + rest else rest
  }

  /** The pool is a filter: it keeps the tag list's order. */
  lemma {:induction false} PoolAppend(a: seq<ClientModels.Idea>, b: seq<ClientModels.Idea>, picked: set<string>, query: string)
    ensures Pool(a + b, picked, query) == Pool(a, picked, query) + Pool(b, picked, query)
  {
    if |a| > 0 {
      assert (a + b)[1..] == a[1..] + b;
      PoolAppend(a[1..], b, picked, query);
    } else {
      assert a + b == b;
    }
  }

  /** `tagSuggestions`: the first six tags offered. */
  function Suggestions(allTags: seq<ClientModels.Idea>, selected: seq<TagItem>, query: string): (r: seq<ClientModels.Idea>)
    ensures var pool := Pool(allTags, PickedIds(selected), query);
      && |r| == (if |pool| < 6 then |pool| else 6) && r == pool[..|r|]
    ensures forall x :: x in r ==> x in allTags && !(exists t :: t in selected && !t.isNew && t.id == x.id)
    ensures query != "" ==> forall x :: x in r ==> Strings.ContainsIgnoringCase(x.title.GetOr(""), query)
  {
    var pool := Pool(allTags, PickedIds(selected), query);
    if |pool| <= 6 then pool else pool[..6]
  }

  /** `canCreateNewTag`: the trimmed query is not blank and names no tag in the
      list and no picked tag, ignoring case. */
  function CanCreateNewTag(allTags: seq<ClientModels.Idea>, selected: seq<TagItem>, query: string): (b: bool)
    ensures var q := Strings.TrimBlanks(query);
      b <==> && q != ""
             && (forall x :: x in allTags ==> !Strings.EqualsIgnoringCase(x.title.GetOr(""), q))
             && (forall t :: t in selected ==> !Strings.EqualsIgnoringCase(t.name, q))
  {
    var q := Strings.TrimBlanks(query);
    q != "" && !HasTitle(allTags, q) && !HasName(selected, q)
  }

  // ---------------------------------------------------------------- picking

  /** `addExistingTag`'s list: the tag is appended unless its id is picked. */
  function WithExisting(s: seq<TagItem>, idea: ClientModels.Idea): (r: seq<TagItem>)
    ensures s <= r && |r| <= |s| + 1
    ensures HasId(r, idea.id)
    ensures r == s <==> HasId(s, idea.id)
  {
    if HasId(s, idea.id) then s else s + [Existing(idea)]
  }

  /** The quick-note sheet's `onAddNew`: the name is appended under a fresh UUID
      unless a picked tag has that name, ignoring case. */
  function WithNamed(s: seq<TagItem>, name: string, uuid: string): (r: seq<TagItem>)
    ensures s <= r && |r| <= |s| + 1
    ensures HasName(r, name)
    ensures r == s <==> HasName(s, name)
  {
    if HasName(s, name) then s else s + [Fresh(name, uuid)]
  }

  /** `addNewTag`'s list: the query trimmed of blanks, when it is not empty, added
      as a new name. */
  function WithQuery(s: seq<TagItem>, query: string, uuid: string): (r: seq<TagItem>)
    ensures s <= r && |r| <= |s| + 1
    ensures Strings.TrimBlanks(query) == "" ==> r == s
    ensures Strings.TrimBlanks(query) != "" ==> HasName(r, Strings.TrimBlanks(query))
  {
    var name := Strings.TrimBlanks(query);
    if name == "" then s else WithNamed(s, name, uuid)
  }

  /** `selectedTags.removeAll { $0.id == id }` */
  function Without(s: seq<TagItem>, id: string): (r: seq<TagItem>)
    ensures |r| <= |s|
  {
    if |s| == 0 then []
    else
      var rest := Without(s[1..], id);
      if s[0].id == id then rest else [s[0]] + rest
  }

  /** Removal drops every tag with the id and keeps every other. */
  lemma {:induction false} WithoutMembers(s: seq<TagItem>, id: string)
    ensures forall t :: t in Without(s, id) <==> t in s && t.id != id
  {
    if |s| > 0 {
      WithoutMembers(s[1..], id);
      assert forall t :: t in s <==> t == s[0] || t in s[1..];
    }
  }

  /** Removal keeps the order of the tags that stay. */
  lemma {:induction false} WithoutAppend(a: seq<TagItem>, b: seq<TagItem>, id: string)
    ensures Without(a + b, id) == Without(a, id) + Without(b, id)
  {
    if |a| > 0 {
      assert (a + b)[1..] == a[1..] + b;
      WithoutAppend(a[1..], b, id);
    } else {
      assert a + b == b;
    }
  }

  /** Removing an id that is not picked changes nothing. */
  lemma {:induction false} WithoutAbsent(s: seq<TagItem>, id: string)
    requires !HasId(s, id)
    ensures Without(s, id) == s
  {
    if |s| > 0 {
      assert s[0] in s;
      assert forall t :: t in s[1..] ==> t in s;
      WithoutAbsent(s[1..], id);
      assert s == [s[0]] + s[1..];
    }
  }

  /** Adding a tag and removing it again gives back the list. */
  lemma RemoveUndoesAdd(s: seq<TagItem>, idea: ClientModels.Idea, name: string, uuid: string)
    ensures !HasId(s, idea.id) ==> Without(WithExisting(s, idea), idea.id) == s
    ensures !HasId(s, uuid) ==> Without(WithNamed(s, name, uuid), uuid) == s
  {
    if !HasId(s, idea.id) {
      WithoutAppend(s, [Existing(idea)], idea.id);
      WithoutAbsent(s, idea.id);
    }
    if !HasId(s, uuid) {
      WithoutAppend(s, [Fresh(name, uuid)], uuid);
      WithoutAbsent(s, uuid);
    }
  }

  /** Adding the same tag twice is adding it once. */
  lemma AddTwice(s: seq<TagItem>, idea: ClientModels.Idea, name: string, uuid: string, uuid2: string)
    ensures WithExisting(WithExisting(s, idea), idea) == WithExisting(s, idea)
    ensures WithNamed(WithNamed(s, name, uuid), name, uuid2) == WithNamed(s, name, uuid)
  {
    assert Existing(idea) in s + [Existing(idea)];
    assert Fresh(name, uuid) in s + [Fresh(name, uuid)];
  }

  /** The picked tags never repeat an id, and a new name never repeats, ignoring
      case, the name of a tag picked before it. */
  predicate Compatible(earlier: TagItem, later: TagItem) {
    earlier.id != later.id && (later.isNew ==> !Strings.EqualsIgnoringCase(earlier.name, later.name))
  }

  predicate WellFormed(s: seq<TagItem>) {
    forall i, j :: 0 <= i < j < |s| ==> Compatible(s[i], s[j])
  }

  lemma WithExistingWellFormed(s: seq<TagItem>, idea: ClientModels.Idea)
    requires WellFormed(s)
    ensures WellFormed(WithExisting(s, idea))
  {
    if !HasId(s, idea.id) {
      var r := s + [Existing(idea)];
      forall i, j | 0 <= i < j < |r| ensures Compatible(r[i], r[j]) {
        if j == |s| {
          assert r[i] in s;
        }
      }
    }
  }

  /** A fresh UUID keeps the ids apart. */
  lemma WithNamedWellFormed(s: seq<TagItem>, name: string, uuid: string)
    requires WellFormed(s) && !HasId(s, uuid)
    ensures WellFormed(WithNamed(s, name, uuid))
  {
    if !HasName(s, name) {
      var r := s + [Fresh(name, uuid)];
      forall i, j | 0 <= i < j < |r| ensures Compatible(r[i], r[j]) {
        if j == |s| {
          assert r[i] in s;
        }
      }
    }
  }

  lemma {:induction false} WithoutWellFormed(s: seq<TagItem>, id: string)
    requires WellFormed(s)
    ensures WellFormed(Without(s, id))
  {
    if |s| > 0 {
      WellFormedParts(s);
      WithoutWellFormed(s[1..], id);
      WithoutMembers(s[1..], id);
      if s[0].id != id {
        WellFormedCons(s[0], Without(s[1..], id));
      }
    }
  }

  /** A well-formed list is its head, compatible with everything after it,
      followed by a well-formed tail. */
  lemma WellFormedParts(s: seq<TagItem>)
    requires WellFormed(s) && |s| > 0
    ensures WellFormed(s[1..])
    ensures forall t :: t in s[1..] ==> Compatible(s[0], t)
  {
    var tail := s[1..];
    forall i, j | 0 <= i < j < |tail| ensures Compatible(tail[i], tail[j]) {
      assert tail[i] == s[i + 1] && tail[j] == s[j + 1];
    }
    forall t | t in tail ensures Compatible(s[0], t) {
      var k :| 0 <= k < |tail| && tail[k] == t;
      assert s[k + 1] == t;
    }
  }

  lemma WellFormedCons(x: TagItem, rest: seq<TagItem>)
    requires WellFormed(rest) && forall t :: t in rest ==> Compatible(x, t)
    ensures WellFormed([x] + rest)
  {
    var r := [x] + rest;
    forall i, j | 0 <= i < j < |r| ensures Compatible(r[i], r[j]) {
      assert r[j] == rest[j - 1];
      if i > 0 {
        assert r[i] == rest[i - 1];
      }
    }
  }

  /** A name the create button accepts is added: nothing picked has that name. */
  lemma CreatableIsAdded(allTags: seq<ClientModels.Idea>, s: seq<TagItem>, query: string, uuid: string)
    requires CanCreateNewTag(allTags, s, query)
    ensures WithQuery(s, query, uuid) == s + [Fresh(Strings.TrimBlanks(query), uuid)]
  {
  }

  /** The form's tag state: the tags picked so far and the text in the tag field. */
  class TagPicker {
    var selectedTags: seq<TagItem>
    var tagQuery: string

    constructor ()
      ensures selectedTags == [] && tagQuery == ""
    {
      selectedTags := [];
      tagQuery := "";
    }

    /** `addExistingTag`: append the tag unless its id is picked; the query is
        cleared only when the tag was added. */
    method AddExistingTag(idea: ClientModels.Idea)
      requires WellFormed(selectedTags)
      modifies this
      ensures WellFormed(selectedTags)
      ensures selectedTags == WithExisting(old(selectedTags), idea)
      ensures tagQuery == if HasId(old(selectedTags), idea.id) then old(tagQuery) else ""
    {
      WithExistingWellFormed(selectedTags, idea);
      if HasId(selectedTags, idea.id) {
        return;
      }
      selectedTags := selectedTags + [Existing(idea)];
      tagQuery := "";
    }

    /** `addNewTag`: append the trimmed query as a new tag unless it is blank or
        names a picked tag; the query is cleared only when the tag was added. */
    method AddNewTag(uuid: string)
      requires WellFormed(selectedTags) && !HasId(selectedTags, uuid)
      modifies this
      ensures WellFormed(selectedTags)
      ensures selectedTags == WithQuery(old(selectedTags), old(tagQuery), uuid)
      ensures tagQuery == if selectedTags == old(selectedTags) then old(tagQuery) else ""
    {
      var name := Strings.TrimBlanks(tagQuery);
      WithNamedWellFormed(selectedTags, name, uuid);
      if name == "" || HasName(selectedTags, name) {
        assert WithQuery(selectedTags, tagQuery, uuid) == selectedTags;
        return;
      }
      assert WithQuery(selectedTags, tagQuery, uuid) == selectedTags + [Fresh(name, uuid)];
      selectedTags := selectedTags + [Fresh(name, uuid)];
      tagQuery := "";
    }

    /** `.onSubmit { if canCreateNewTag { addNewTag() } }` */
    method Submit(allTags: seq<ClientModels.Idea>, uuid: string)
      requires WellFormed(selectedTags) && !HasId(selectedTags, uuid)
      modifies this
      ensures WellFormed(selectedTags)
      ensures CanCreateNewTag(allTags, old(selectedTags), old(tagQuery)) ==>
        selectedTags == old(selectedTags) + [Fresh(Strings.TrimBlanks(old(tagQuery)), uuid)] && tagQuery == ""
      ensures !CanCreateNewTag(allTags, old(selectedTags), old(tagQuery)) ==>
        selectedTags == old(selectedTags) && tagQuery == old(tagQuery)
    {
      if CanCreateNewTag(allTags, selectedTags, tagQuery) {
        CreatableIsAdded(allTags, selectedTags, tagQuery, uuid);
        AddNewTag(uuid);
      }
    }

    /** `removeTag`: drop every picked tag with that id. */
    method RemoveTag(id: string)
      requires WellFormed(selectedTags)
      modifies this
      ensures WellFormed(selectedTags)
      ensures selectedTags == Without(old(selectedTags), id) && tagQuery == old(tagQuery)
    {
      WithoutWellFormed(selectedTags, id);
      selectedTags := Without(selectedTags, id);
    }
  }

  // ---------------------------------------------------------------- saving

  /** `t = title.isEmpty ? (url ?? text ?? "") : title`, sent as `nil` when empty. */
  function FallbackTitle(title: string, url: Option<string>, text: Option<string>): (r: Option<string>)
    ensures title != "" ==> r == Some(title)
    ensures title == "" && url.Some? ==> r == (if url.value == "" then None else url)
    ensures title == "" && url.None? ==> r == (if text.GetOr("") == "" then None else text)
    ensures r.Some? ==> r.value != ""
  {
    var t := if title != "" then title else if url.Some? then url.value else text.GetOr("");
    if t == "" then None else Some(t)
  }

  /** `CreateIdeaBody`: the body `createIdea` posts. `data` is the dictionary
      literal the form builds, in the order it is written, with optional values. */
  datatype CreateBody = CreateBody(kind: string, title: Option<string>, url: Option<string>,
                                   summary: Option<string>, data: Option<seq<(string, Option<string>)>>)

  /** `createIdea(type: "tag", title: name, url: nil)` */
  function TagBody(name: string): CreateBody {
    CreateBody("tag", Some(name), None, None, None)
  }

  /** An optional string member: left out of the JSON text when `nil`. */
  function Member(key: string, v: Option<string>): (m: seq<(string, Json)>)
    ensures forall k :: Lookup(m, k) == if k == key && v.Some? then Some(JStr(v.value)) else None
  {
    if v.Some? then [(key, JStr(v.value))] else []
  }

  /** The `data` dictionary as JSON: a `nil` value is `null`. */
  function DataFields(entries: seq<(string, Option<string>)>): (r: seq<(string, Json)>)
    ensures |r| == |entries|
  {
    if |entries| == 0 then []
    else [(entries[0].0, TextOrNull(entries[0].1))] + DataFields(entries[1..])
  }

  /** The JSON text `createIdea` posts: every `nil` member of the body is left out. */
  function BodyJson(b: CreateBody): Json {
    JObj([("type", JStr(b.kind))] + Member("title", b.title) + Member("url", b.url) + Member("summary", b.summary)
         + (if b.data.Some? then [("data", JObj(DataFields(b.data.value)))] else []))
  }

  /** The Worker finds each member of the body under its own key, and a `nil`
      member not at all. */
  lemma BodyJsonFields(b: CreateBody)
    ensures var j := BodyJson(b);
      && Get(j, "type") == Some(JStr(b.kind))
      && Get(j, "title") == (if b.title.Some? then Some(JStr(b.title.value)) else None)
      && Get(j, "url") == (if b.url.Some? then Some(JStr(b.url.value)) else None)
      && Get(j, "summary") == (if b.summary.Some? then Some(JStr(b.summary.value)) else None)
      && Get(j, "data") == (if b.data.Some? then Some(JObj(DataFields(b.data.value))) else None)
  {
    assert "data" != "type" by { assert "data"[0] != "type"[0]; }
    BodyLookup(b, "type");
    BodyLookup(b, "title");
    BodyLookup(b, "url");
    BodyLookup(b, "summary");
    BodyLookup(b, "data");
  }

  /** A key of the body's JSON finds the first of its members that binds it. */
  lemma BodyLookup(b: CreateBody, k: string)
    ensures var d := if b.data.Some? then [("data", JObj(DataFields(b.data.value)))] else [];
      Get(BodyJson(b), k) == Earlier(Earlier(Earlier(Earlier(Lookup([("type", JStr(b.kind))], k), Lookup(Member("title", b.title), k)),
                                                     Lookup(Member("url", b.url), k)), Lookup(Member("summary", b.summary), k)), Lookup(d, k))
  {
    var t := [("type", JStr(b.kind))];
    var mt := Member("title", b.title);
    var mu := Member("url", b.url);
    var ms := Member("summary", b.summary);
    var d := if b.data.Some? then [("data", JObj(DataFields(b.data.value)))] else [];
    LookupConcat(t, mt, k);
    LookupConcat(t + mt, mu, k);
    LookupConcat(t + mt + mu, ms, k);
    LookupConcat(t + mt + mu + ms, d, k);
  }

  /** The first binding found. */
  function Earlier(a: Option<Json>, b: Option<Json>): Option<Json> {
    if a.Some? then a else b
  }

  /** The first `project` entry of the dictionary; `nil` when there is none or
      its value is `nil`. */
  function ProjectOf(entries: seq<(string, Option<string>)>): (r: Option<string>)
    ensures r.Some? ==> ("project", r) in entries
  {
    if |entries| == 0 then None
    else if entries[0].0 == "project" then entries[0].1
    else ProjectOf(entries[1..])
  }

  /** `data?.project ?? null` on the dictionary's JSON. */
  lemma {:induction false} DataProject(entries: seq<(string, Option<string>)>)
    ensures OrElse(Lookup(DataFields(entries), "project"), JNull) == TextOrNull(ProjectOf(entries))
  {
    if |entries| > 0 {
      DataProject(entries[1..]);
      assert DataFields(entries)[1..] == DataFields(entries[1..]);
    }
  }

  /** The url a body leaves in the stored row: its own, else, for a meta idea,
      its data's `project`. */
  function StoredUrl(b: CreateBody): (r: Option<string>)
    ensures b.url.Some? ==> r == b.url
    ensures b.url.None? && b.kind != "meta" ==> r.None?
  {
    if b.url.Some? then b.url
    else if b.kind == "meta" && b.data.Some? then ProjectOf(b.data.value)
    else None
  }

  /** Every body with a type is accepted by `POST /api/ideas`, and the row it asks
      for holds what the client sent: the type, the title, the summary, and the
      url, or for a meta idea without one the project of its data. */
  lemma StoredAsSent(b: CreateBody, id: string, now: int)
    requires b.kind != ""
    ensures IdeasRoutes.Accepted(Some(BodyJson(b)))
    ensures var r := IdeasRoutes.RowFor(BodyJson(b), id, now);
      && r.Ok? && r.value.id == id && r.value.kind == Some(b.kind) && r.value.title == b.title
      && r.value.url == StoredUrl(b) && r.value.summary == b.summary
  {
    var j := BodyJson(b);
    BodyJsonFields(b);
    if b.data.Some? {
      DataProject(b.data.value);
    }
  }

  /** A tag created while saving is stored as a `tag` idea titled by its name,
      with no url and no summary. */
  lemma TagStored(name: string, id: string, now: int)
    ensures var r := IdeasRoutes.RowFor(BodyJson(TagBody(name)), id, now);
      && r.Ok? && r.value.kind == Some("tag") && r.value.title == Some(name)
      && r.value.url.None? && r.value.summary.None?
  {
    StoredAsSent(TagBody(name), id, now);
  }

  /** A request `save` makes: create an idea, or connect two. */
  datatype ApiCall = CreateIdea(body: CreateBody) | Connect(request: Capture.ConnectionRequest)

  /** What the Worker answers the requests of a save with, by their number: the
      new idea's or connection's id, or the error the request throws. (Which
      request is number `k` is itself decided by the earlier answers.) */
  type Answers = nat -> Result<string>

  /** The requests a save made, in order, and the error that stopped it. */
  datatype Outcome = Outcome(calls: seq<ApiCall>, failure: Option<string>)

  /** One pass of the tag loop, whose first request is number `at`: a new tag is
      created first and the id the Worker gives it is used; the tag is then
      connected to the idea with `tagged_with`. A request that throws ends the
      pass. */
  function Step(ideaId: string, t: TagItem, answer: Answers, at: nat): (o: Outcome)
    ensures |o.calls| == (if t.isNew && answer(at).Ok? then 2 else 1)
  {
    if !t.isNew then Outcome([Connect(Tagging(ideaId, t.id))], Failure(answer(at)))
    else if answer(at).Err? then Outcome([CreateIdea(TagBody(t.name))], Failure(answer(at)))
    else Outcome([CreateIdea(TagBody(t.name)), Connect(Tagging(ideaId, answer(at).value))], Failure(answer(at + 1)))
  }

  /** A pass fails exactly when its last request threw. */
  lemma StepFailsLast(ideaId: string, t: TagItem, answer: Answers, at: nat)
    ensures var o := Step(ideaId, t, answer, at);
      o.failure.Some? <==> answer(at + |o.calls| - 1).Err?
  {
  }

  /** The `tagged_with` connection from the idea to a tag. */
  function Tagging(ideaId: string, tagId: string): Capture.ConnectionRequest {
    Capture.ConnectionRequest(ideaId, tagId, Store.TaggedWith)
  }

  /** The error a request threw, if it threw. */
  function Failure(r: Result<string>): (e: Option<string>)
    ensures e.Some? <==> r.Err?
  {
    if r.Err? then Some(r.message) else None
  }

  /** The tag loop of `save`, whose first request is number `at`: one pass per
      tag, in order, until a request throws. */
  function Linked(ideaId: string, tags: seq<TagItem>, answer: Answers, at: nat): (o: Outcome)
    ensures |o.calls| <= 2 * |tags|
    decreases |tags|
  {
    if |tags| == 0 then Outcome([], None)
    else
      var first := Step(ideaId, tags[0], answer, at);
      if first.failure.Some? then first
      else
        var rest := Linked(ideaId, tags[1..], answer, at + |first.calls|);
        Outcome(first.calls + rest.calls, rest.failure)
  }

  /** A loop that failed failed on its last request. */
  lemma {:induction false} LinkedFailsLast(ideaId: string, tags: seq<TagItem>, answer: Answers, at: nat)
    ensures var o := Linked(ideaId, tags, answer, at);
      o.failure.Some? ==> |o.calls| > 0 && answer(at + |o.calls| - 1).Err?
    decreases |tags|
  {
    if |tags| > 0 {
      var first := Step(ideaId, tags[0], answer, at);
      if first.failure.None? {
        LinkedFailsLast(ideaId, tags[1..], answer, at + |first.calls|);
      }
    }
  }

  /** The loop stops at the first request that throws: every request before the
      last was answered, and so was the last when the loop went through. */
  lemma {:induction false} LinkedAnswered(ideaId: string, tags: seq<TagItem>, answer: Answers, at: nat, k: nat)
    requires var o := Linked(ideaId, tags, answer, at);
      k < |o.calls| - 1 || (o.failure.None? && k < |o.calls|)
    ensures answer(at + k).Ok?
    decreases |tags|
  {
    var first := Step(ideaId, tags[0], answer, at);
    if first.failure.None? && k >= |first.calls| {
      LinkedAnswered(ideaId, tags[1..], answer, at + |first.calls|, k - |first.calls|);
    }
  }

  /** A request that creates a tag and is answered is followed at once by the
      connection from the idea to the tag it created. */
  lemma {:induction false} CreatedThenLinked(ideaId: string, tags: seq<TagItem>, answer: Answers, at: nat, k: nat)
    requires var o := Linked(ideaId, tags, answer, at);
      k < |o.calls| && o.calls[k].CreateIdea? && answer(at + k).Ok?
    ensures var o := Linked(ideaId, tags, answer, at);
      && o.calls[k].body.kind == "tag" && k + 1 < |o.calls|
      && o.calls[k + 1] == Connect(Tagging(ideaId, answer(at + k).value))
    decreases |tags|
  {
    var n := |Step(ideaId, tags[0], answer, at).calls|;
    if k < n {
      CreatedInFirstPass(ideaId, tags, answer, at, k);
    } else {
      LaterPass(ideaId, tags, answer, at, k);
      assert at + n + (k - n) == at + k;
      CreatedThenLinked(ideaId, tags[1..], answer, at + n, k - n);
    }
  }

  /** The request numbered `k` of the first pass is the first pass's. */
  lemma CreatedInFirstPass(ideaId: string, tags: seq<TagItem>, answer: Answers, at: nat, k: nat)
    requires |tags| > 0 && k < |Step(ideaId, tags[0], answer, at).calls|
    requires var o := Linked(ideaId, tags, answer, at);
      k < |o.calls| && o.calls[k].CreateIdea? && answer(at + k).Ok?
    ensures var o := Linked(ideaId, tags, answer, at);
      && o.calls[k].body.kind == "tag" && k + 1 < |o.calls|
      && o.calls[k + 1] == Connect(Tagging(ideaId, answer(at + k).value))
  {
    var first := Step(ideaId, tags[0], answer, at);
    var o := Linked(ideaId, tags, answer, at);
    assert o.calls[..|first.calls|] == first.calls;
    StepCreated(ideaId, tags[0], answer, at, k);
  }

  /** A request after the first pass is the rest of the loop's, as many places
      earlier as the first pass made requests. */
  lemma LaterPass(ideaId: string, tags: seq<TagItem>, answer: Answers, at: nat, k: nat)
    requires |tags| > 0 && k >= |Step(ideaId, tags[0], answer, at).calls| && k < |Linked(ideaId, tags, answer, at).calls|
    ensures var n := |Step(ideaId, tags[0], answer, at).calls|;
      var o := Linked(ideaId, tags, answer, at);
      var rest := Linked(ideaId, tags[1..], answer, at + n);
      && Step(ideaId, tags[0], answer, at).failure.None?
      && |o.calls| == n + |rest.calls|
      && o.calls[k] == rest.calls[k - n]
      && (k + 1 < |o.calls| ==> o.calls[k + 1] == rest.calls[k - n + 1])
  {
  }

  /** Within one pass, an answered creation is the first request and the
      connection to the created tag comes next. */
  lemma StepCreated(ideaId: string, t: TagItem, answer: Answers, at: nat, k: nat)
    requires var o := Step(ideaId, t, answer, at);
      k < |o.calls| && o.calls[k].CreateIdea? && answer(at + k).Ok?
    ensures var o := Step(ideaId, t, answer, at);
      && k == 0 && |o.calls| == 2 && o.calls[0].body.kind == "tag"
      && o.calls[1] == Connect(Tagging(ideaId, answer(at).value))
  {
  }

  /** The connections among the requests, in order. */
  function Links(calls: seq<ApiCall>): (r: seq<Capture.ConnectionRequest>)
    ensures |r| <= |calls|
  {
    if |calls| == 0 then []
    else (if calls[0].Connect? then [calls[0].request] else []) + Links(calls[1..])
  }

  lemma {:induction false} LinksAppend(a: seq<ApiCall>, b: seq<ApiCall>)
    ensures Links(a + b) == Links(a) + Links(b)
  {
    if |a| > 0 {
      assert (a + b)[1..] == a[1..] + b;
      LinksAppend(a[1..], b);
    } else {
      assert a + b == b;
    }
  }

  /** The names of the tags created among the requests, in order. */
  function Created(calls: seq<ApiCall>): (r: seq<string>)
    ensures |r| <= |calls|
  {
    if |calls| == 0 then []
    else (if calls[0].CreateIdea? then [calls[0].body.title.GetOr("")] else []) + Created(calls[1..])
  }

  lemma {:induction false} CreatedAppend(a: seq<ApiCall>, b: seq<ApiCall>)
    ensures Created(a + b) == Created(a) + Created(b)
  {
    if |a| > 0 {
      assert (a + b)[1..] == a[1..] + b;
      CreatedAppend(a[1..], b);
    } else {
      assert a + b == b;
    }
  }

  /** The names of the new tags, in order. */
  function NewNames(tags: seq<TagItem>): seq<string> {
    if |tags| == 0 then [] else (if tags[0].isNew then [tags[0].name] else []) + NewNames(tags[1..])
  }

  /** A pass that went through: the tag's connection, after the tag's creation
      when it is new. */
  lemma StepLinks(ideaId: string, t: TagItem, answer: Answers, at: nat)
    requires Step(ideaId, t, answer, at).failure.None?
    ensures var o := Step(ideaId, t, answer, at);
      && Links(o.calls) == [Capture.ConnectionRequest(ideaId, if t.isNew then answer(at).value else t.id, Store.TaggedWith)]
      && Created(o.calls) == (if t.isNew then [t.name] else [])
  {
    var o := Step(ideaId, t, answer, at);
    var link := o.calls[|o.calls| - 1];
    if t.isNew {
      assert o.calls == [o.calls[0]] + [link];
      LinksAppend([o.calls[0]], [link]);
      CreatedAppend([o.calls[0]], [link]);
    } else {
      assert o.calls == [link];
    }
  }

  /** A loop that went through made one connection per tag. */
  lemma {:induction false} LinkCount(ideaId: string, tags: seq<TagItem>, answer: Answers, at: nat)
    requires Linked(ideaId, tags, answer, at).failure.None?
    ensures |Links(Linked(ideaId, tags, answer, at).calls)| == |tags|
  {
    if |tags| > 0 {
      var first := Step(ideaId, tags[0], answer, at);
      var rest := Linked(ideaId, tags[1..], answer, at + |first.calls|);
      assert Linked(ideaId, tags, answer, at).calls == first.calls + rest.calls;
      LinkCount(ideaId, tags[1..], answer, at + |first.calls|);
      LinksAppend(first.calls, rest.calls);
      StepLinks(ideaId, tags[0], answer, at);
    }
  }

  /** The `i`-th connection of a loop that went through is the `tagged_with`
      connection from the idea to the `i`-th tag (to its own id when it
      already existed). */
  lemma {:induction false} LinkAt(ideaId: string, tags: seq<TagItem>, answer: Answers, at: nat, i: nat)
    requires Linked(ideaId, tags, answer, at).failure.None? && i < |tags|
    ensures var links := Links(Linked(ideaId, tags, answer, at).calls);
      && i < |links| && links[i].fromId == ideaId && links[i].edgeLabel == Store.TaggedWith
      && (!tags[i].isNew ==> links[i].toId == tags[i].id)
  {
    var first := Step(ideaId, tags[0], answer, at);
    var rest := Linked(ideaId, tags[1..], answer, at + |first.calls|);
    assert Linked(ideaId, tags, answer, at).calls == first.calls + rest.calls;
    LinksAppend(first.calls, rest.calls);
    StepLinks(ideaId, tags[0], answer, at);
    if i > 0 {
      LinkAt(ideaId, tags[1..], answer, at + |first.calls|, i - 1);
      assert tags[i] == tags[1..][i - 1];
    }
  }

  /** A loop that went through made one `tagged_with` connection from the idea
      per tag, in the order the tags were picked (to the tag's own id for an
      existing tag). */
  lemma LinkedAll(ideaId: string, tags: seq<TagItem>, answer: Answers, at: nat)
    requires Linked(ideaId, tags, answer, at).failure.None?
    ensures var links := Links(Linked(ideaId, tags, answer, at).calls);
      && |links| == |tags|
      && forall i :: 0 <= i < |tags| ==>
           && links[i].fromId == ideaId && links[i].edgeLabel == Store.TaggedWith
           && (!tags[i].isNew ==> links[i].toId == tags[i].id)
  {
    LinkCount(ideaId, tags, answer, at);
    forall i | 0 <= i < |tags| {
      LinkAt(ideaId, tags, answer, at, i);
    }
  }

  /** A loop that went through created exactly the new tags, in order. */
  lemma {:induction false} LinkedCreated(ideaId: string, tags: seq<TagItem>, answer: Answers, at: nat)
    requires Linked(ideaId, tags, answer, at).failure.None?
    ensures Created(Linked(ideaId, tags, answer, at).calls) == NewNames(tags)
  {
    if |tags| > 0 {
      var first := Step(ideaId, tags[0], answer, at);
      var rest := Linked(ideaId, tags[1..], answer, at + |first.calls|);
      assert Linked(ideaId, tags, answer, at).calls == first.calls + rest.calls;
      LinkedCreated(ideaId, tags[1..], answer, at + |first.calls|);
      CreatedAppend(first.calls, rest.calls);
      StepLinks(ideaId, tags[0], answer, at);
    }
  }

  /** A Worker that answers every request lets the loop go through. */
  lemma {:induction false} ReliableLinks(ideaId: string, tags: seq<TagItem>, answer: Answers, at: nat)
    requires forall k :: answer(k).Ok?
    ensures Linked(ideaId, tags, answer, at).failure.None?
    decreases |tags|
  {
    if |tags| > 0 {
      var first := Step(ideaId, tags[0], answer, at);
      ReliableLinks(ideaId, tags[1..], answer, at + |first.calls|);
    }
  }

  /** The whole of `save`: create the idea (request 0), then run the tag loop
      after it; a create that throws ends the save before any tag is touched. */
  function Saved(body: CreateBody, tags: seq<TagItem>, answer: Answers): (o: Outcome)
    ensures |o.calls| > 0 && o.calls[0] == CreateIdea(body)
    ensures answer(0).Err? ==> o == Outcome([CreateIdea(body)], Some(answer(0).message))
    ensures answer(0).Ok? ==>
      o.calls[1..] == Linked(answer(0).value, tags, answer, 1).calls && o.failure == Linked(answer(0).value, tags, answer, 1).failure
  {
    match answer(0)
    case Err(m) => Outcome([CreateIdea(body)], Some(m))
    case Ok(id) =>
      var o := Linked(id, tags, answer, 1);
      Outcome([CreateIdea(body)] + o.calls, o.failure)
  }

  /** The loop from tag `i` on, after the requests in `sent`: the pass for tag
      `i`, then (when it went through) the loop from tag `i + 1` on. */
  lemma LinkedNext(ideaId: string, tags: seq<TagItem>, i: nat, answer: Answers, sent: seq<ApiCall>)
    requires i < |tags|
    ensures var first := Step(ideaId, tags[i], answer, |sent|);
      var o := Linked(ideaId, tags[i..], answer, |sent|);
      && (first.failure.Some? ==> o == first)
      && (first.failure.None? ==>
            var next := Linked(ideaId, tags[i + 1..], answer, |sent + first.calls|);
            (sent + first.calls) + next.calls == sent + o.calls && next.failure == o.failure)
  {
    assert tags[i..][0] == tags[i] && tags[i..][1..] == tags[i + 1..];
  }

  /** One pass of `save`'s loop, made after the requests in `sent`. */
  method Pass(ideaId: string, t: TagItem, answer: Answers, sent: seq<ApiCall>) returns (calls: seq<ApiCall>, failure: Option<string>)
    ensures var step := Step(ideaId, t, answer, |sent|);
      calls == sent + step.calls && failure == step.failure
  {
    calls := sent;
    var tagId := t.id;
    if t.isNew {
      var made := answer(|calls|);
      calls := calls + [CreateIdea(TagBody(t.name))];
      if made.Err? {
        return calls, Some(made.message);
      }
      tagId := made.value;
    }
    var linked := answer(|calls|);
    calls := calls + [Connect(Capture.ConnectionRequest(ideaId, tagId, Store.TaggedWith))];
    failure := if linked.Err? then Some(linked.message) else None;
  }

  /** `save`'s requests, one at a time. */
  method Save(body: CreateBody, tags: seq<TagItem>, answer: Answers) returns (o: Outcome)
    ensures o == Saved(body, tags, answer)
  {
    ghost var whole := Saved(body, tags, answer);
    var calls := [CreateIdea(body)];
    var created := answer(0);
    if created.Err? {
      return Outcome(calls, Some(created.message));
    }
    var ideaId := created.value;
    assert tags[0..] == tags;
    var i := 0;
    while i < |tags|
      invariant 0 <= i <= |tags|
      invariant var rest := Linked(ideaId, tags[i..], answer, |calls|);
        calls + rest.calls == whole.calls && rest.failure == whole.failure
    {
      LinkedNext(ideaId, tags, i, answer, calls);
      var failure;
      calls, failure := Pass(ideaId, tags[i], answer, calls);
      if failure.Some? {
        return Outcome(calls, failure);
      }
      i := i + 1;
    }
    assert tags[i..] == [];
    return Outcome(calls, None);
  }
}
