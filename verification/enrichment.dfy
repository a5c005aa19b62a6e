/** Automatic tagging of a new idea: the idea and the available tags are described
    to a language model, its answer is read as a JSON array of tag ids, and a
    `tagged_with` connection is added from the idea to every valid tag named.
    Every failure ends the run silently. */
module Enrichment {
  import opened Wrappers
  import opened Json
  import opened Queries
  import opened Store
  import opened R2
  import opened IdeasDb
  import opened ConnectionsDb
  import opened TagsRoutes
  import Strings

  // ---------------------------------------------------------------- the description

  /** The line `prefix` + value for a field that is set and non-empty, else none. */
  function FieldLine(prefix: string, v: Option<string>): (r: seq<string>)
    requires prefix != ""
    ensures |r| <= 1
    ensures forall p :: p in r <==> v.Some? && v.value != "" && p == prefix + v.value
    ensures forall p :: p in r ==> p != "" && p[0] == prefix[0]
  {
    if v.Some? && v.value != "" then [prefix + v.value] else []
  }

  /** `Title:`, `Summary:` and `URL:` lines for the fields that are set and non-empty. */
  function FieldLines(idea: Idea): (parts: seq<string>)
    ensures (idea.title.Some? && idea.title.value != "") <==> "Title: " + idea.title.GetOr("") in parts
    ensures (idea.summary.Some? && idea.summary.value != "") <==> "Summary: " + idea.summary.GetOr("") in parts
    ensures (idea.url.Some? && idea.url.value != "") <==> "URL: " + idea.url.GetOr("") in parts
    ensures |parts| <= 3
    ensures forall p :: p in parts ==> p != ""
  {
    var t, s, u := FieldLine("Title: ", idea.title), FieldLine("Summary: ", idea.summary), FieldLine("URL: ", idea.url);
    var parts := t + s + u;
    assert forall p :: p in parts <==> p in t || p in s || p in u;
    assert ("Title: " + idea.title.GetOr(""))[0] == 'T';
    assert ("Summary: " + idea.summary.GetOr(""))[0] == 'S';
    assert ("URL: " + idea.url.GetOr(""))[0] == 'U';
    parts
  }

  /** A blob entry that is described: not the `text` key, and a string or number
      that is neither null nor the empty string. */
  predicate Described(e: (string, Json)) {
    e.0 != "text" && ((e.1.JStr? && e.1.s != "") || e.1.JNum?)
  }

  /** `k: v` lines for the described entries, in entry order. */
  function EntryLines(entries: seq<(string, Json)>): (parts: seq<string>)
    ensures |parts| <= |entries|
    ensures forall e :: e in entries && Described(e) ==> e.0 + ": " + ToText(e.1) in parts
    ensures forall p :: p in parts ==> exists e :: e in entries && Described(e) && p == e.0 + ": " + ToText(e.1)
    ensures forall p :: p in parts ==> p != ""
  {
    if |entries| == 0 then []
    else
      var e := entries[0];
      var rest := EntryLines(entries[1..]);
      assert forall x :: x in entries <==> x == e || x in entries[1..];
      if Described(e) then [e.0 + ": " + ToText(e.1)] + rest else rest
  }

  /** `buildIdeaDescription`: the field lines, then the entry lines, joined by line
      breaks, or `(no description)` when there are none. */
  function Description(idea: Idea, data: Json): (r: string)
    ensures FieldLines(idea) + EntryLines(Entries(data)) == [] ==> r == "(no description)"
    ensures FieldLines(idea) + EntryLines(Entries(data)) != [] ==> r == Strings.Join(FieldLines(idea) + EntryLines(Entries(data)), "\n")
  {
    var parts := FieldLines(idea) + EntryLines(Entries(data));
    var joined := Strings.Join(parts, "\n");
    JoinEmpty(parts);
    if joined == "" then "(no description)" else joined
  }

  /** Lines that are all non-empty join to a non-empty text. */
  lemma JoinEmpty(parts: seq<string>)
    requires forall p :: p in parts ==> p != ""
    ensures Strings.Join(parts, "\n") == "" <==> parts == []
  {
    if |parts| > 1 {
      assert parts[0] in parts;
    } else if |parts| == 1 {
      assert parts[0] in parts;
    }
  }

  // ---------------------------------------------------------------- reading the answer

  /** Position `k` holds the last `]` of `text`, and a `[` comes before it. */
  predicate BracketsAt(text: string, k: int) {
    && '[' in text && Strings.FirstIndexOf(text, '[') <= k < |text|
    && text[k] == ']' && ']' !in text[k + 1..]
  }

  /** The first match of `/\[[\s\S]*\]/`: from the first `[` to the last `]` after
      it, or `None` when there is no such pair. */
  function BracketSpan(text: string): (r: Option<string>)
    ensures r.None? <==> '[' !in text || ']' !in text[Strings.FirstIndexOf(text, '[')..]
    ensures r.Some? ==> exists k :: BracketsAt(text, k) && r.value == text[Strings.FirstIndexOf(text, '[')..k + 1]
    ensures r.Some? ==> |r.value| >= 1 && r.value[0] == '[' && r.value[|r.value| - 1] == ']'
  {
    if '[' !in text then None
    else
      var i := Strings.FirstIndexOf(text, '[');
      var tail := text[i..];
      if ']' !in tail then None
      else
        var k := i + Strings.LastIndexOf(tail, ']');
        assert text[k] == ']' && text[k + 1..] == tail[k - i + 1..];
        var span := text[i..k + 1];
        assert span[0] == '[' && span[|span| - 1] == ']';
        assert BracketsAt(text, k);
        Some(span)
  }

  /** The tag ids the answer names: `JSON.parse` of the answer, else of its bracketed
      part; `None` when neither parses or the result is not a non-empty array.
      `parse` is `JSON.parse`, `None` where it throws. */
  function SuggestedIds(answer: string, parse: string -> Option<Json>): (r: Option<seq<Json>>)
    ensures r.Some? ==> |r.value| > 0
    ensures parse(answer).Some? ==> r == (if parse(answer).value.JArr? && |parse(answer).value.items| > 0
                                          then Some(parse(answer).value.items) else None)
    ensures parse(answer).None? && BracketSpan(answer).None? ==> r.None?
  {
    var parsed := if parse(answer).Some? then parse(answer)
                  else if BracketSpan(answer).Some? then parse(BracketSpan(answer).value)
                  else None;
    if parsed.Some? && parsed.value.JArr? && |parsed.value.items| > 0 then Some(parsed.value.items) else None
  }

  // ---------------------------------------------------------------- the run

  /** The tag list in the prompt: `id: title` lines, tags ordered by title. */
  function TagList(ideas: seq<Idea>): string {
    var tags := Sort(Filter(ideas, IsTag), (a: Idea, b: Idea) => TitleBefore(a.title, b.title));
    Strings.Join(seq(|tags|, i requires 0 <= i < |tags| => tags[i].id + ": " + ToText(TextOrNull(tags[i].title))), "\n")
  }

  /** The ids of the tag ideas: the only ids a suggestion may link to. */
  function TagIds(ideas: seq<Idea>): (r: set<string>)
    ensures forall t :: t in r <==> exists k :: 0 <= k < |ideas| && ideas[k].id == t && IsTag(ideas[k])
  {
    set k | 0 <= k < |ideas| && IsTag(ideas[k]) :: ideas[k].id
  }

  /** The user message of the model call: the idea's description and the tag list. */
  function Prompt(ideas: seq<Idea>, idea: Idea, stored: Option<Json>): string {
    "Idea:\n" + Description(idea, OrElse(stored, Empty)) + "\n\nAvailable tags:\n" + TagList(ideas)
  }

  /** `response?.response?.trim() ?? ''`. */
  function Answer(reply: Option<string>): string {
    if reply.Some? then Strings.Trim(reply.value) else ""
  }

  /** What the run decides before writing: the suggested items and the valid tag
      ids, or `None` when it stops without writing (the idea is missing or is a
      tag, there are no tags, the blob cannot be read, the model call fails, or
      the answer names no tags). `ai` answers a prompt with the model's text,
      `None` where the reply has no text and `Err` where the call fails. */
  function Plan(ideas: seq<Idea>, objects: map<string, Blob>, ideaId: string,
                ai: string -> Result<Option<string>>, parse: string -> Option<Json>): (r: Option<(seq<Json>, set<string>)>)
    ensures r.Some? ==>
      && FindIdea(ideas, ideaId).Some? && !IsTag(FindIdea(ideas, ideaId).value)
      && Read(objects, FindIdea(ideas, ideaId).value.r2Key).Ok?
      && r.value.1 == TagIds(ideas) && r.value.1 != {}
    ensures FindIdea(ideas, ideaId).None? ==> r.None?
    ensures FindIdea(ideas, ideaId).Some? && IsTag(FindIdea(ideas, ideaId).value) ==> r.None?
    ensures TagIds(ideas) == {} ==> r.None?
    ensures r.Some? ==> |r.value.0| > 0
  {
    match FindIdea(ideas, ideaId)
    case None => None
    case Some(idea) =>
      if IsTag(idea) || TagIds(ideas) == {} then None
      else
        match Read(objects, idea.r2Key)
        case Err(_) => None
        case Ok(stored) =>
          match ai(Prompt(ideas, idea, stored))
          case Err(_) => None
          case Ok(reply) =>
            match SuggestedIds(Answer(reply), parse)
            case None => None
            case Some(items) => Some((items, TagIds(ideas)))
  }

  /** Once the idea, the tags and the blob are there, the run goes on exactly when
      the model call succeeds and its answer names a non-empty array, whose items
      are then the suggestions. */
  lemma PlanFollowsAnswer(ideas: seq<Idea>, objects: map<string, Blob>, ideaId: string,
                          ai: string -> Result<Option<string>>, parse: string -> Option<Json>)
    requires FindIdea(ideas, ideaId).Some? && !IsTag(FindIdea(ideas, ideaId).value) && TagIds(ideas) != {}
    ensures var idea := FindIdea(ideas, ideaId).value;
      Read(objects, idea.r2Key).Ok? ==>
        var prompt := Prompt(ideas, idea, Read(objects, idea.r2Key).value);
        && (ai(prompt).Err? ==> Plan(ideas, objects, ideaId, ai, parse).None?)
        && (ai(prompt).Ok? ==>
              Plan(ideas, objects, ideaId, ai, parse) ==
                (var items := SuggestedIds(Answer(ai(prompt).value), parse);
                 if items.Some? then Some((items.value, TagIds(ideas))) else None))
  {
  }

  /** Without a readable blob the run stops. */
  lemma PlanNeedsBlob(ideas: seq<Idea>, objects: map<string, Blob>, ideaId: string,
                      ai: string -> Result<Option<string>>, parse: string -> Option<Json>)
    requires FindIdea(ideas, ideaId).Some? && Read(objects, FindIdea(ideas, ideaId).value.r2Key).Err?
    ensures Plan(ideas, objects, ideaId, ai, parse).None?
  {
  }

  /** A `tagged_with` edge from `from` to `to` is stored. */
  predicate Linked(cs: seq<Connection>, from: string, to: string) {
    exists k :: 0 <= k < |cs| && cs[k].fromId == from && cs[k].toId == to && cs[k].edgeLabel == Some("tagged_with")
  }

  /** A suggestion that names a valid tag: a string among the tag ids (`Set.has`
      compares without conversion). */
  predicate Names(item: Json, valid: set<string>) {
    item.JStr? && item.s in valid
  }

  /** `INSERT OR IGNORE INTO connections ...`: the row is added unless it violates
      a constraint of the table. */
  method InsertOrIgnore(db: Database, row: Connection)
    requires db.Valid()
    modifies db
    ensures db.Valid()
    ensures db.connections == if Collides(old(db.connections), row) then old(db.connections) else old(db.connections) + [row]
    ensures db.ideas == old(db.ideas) && db.notes == old(db.notes) && db.media == old(db.media)
    ensures db.clients == old(db.clients) && db.codes == old(db.codes) && db.tokens == old(db.tokens)
  {
    if Collides(db.connections, row) {
      return;
    }
    var cs := db.connections;
    forall k | 0 <= k < |cs| ensures !SameKeyOf(ConnectionId)(cs[k], row) && !SameEdge(cs[k], row) {
      assert ConnectionId(cs[k]) != ConnectionId(row);
    }
    AppendDistinct(cs, row, SameKeyOf(ConnectionId));
    AppendDistinct(cs, row, SameEdge);
    assert OAuthValid(db.clients, db.codes, db.tokens) && ContentValid(db.ideas, cs, db.notes, db.media);
    db.connections := cs + [row];
    ValidFromParts(db);
  }

  /** The edges the run adds: from the idea, to a valid tag, labelled `tagged_with`,
      created at `now`. */
  predicate TagEdgeOf(c: Connection, ideaId: string, valid: set<string>, now: int) {
    c.fromId == ideaId && c.toId in valid && c.edgeLabel == Some("tagged_with") && c.createdAt == now
  }

  predicate ConnectionIdTaken(cs: seq<Connection>, id: string) {
    exists j :: 0 <= j < |cs| && cs[j].id == id
  }

  /** One iteration of the loop for a valid tag id: a fresh id, then the insert. */
  method LinkTag(db: Database, ids: IdGen, ideaId: string, tagId: string, now: int)
    requires db.Valid()
    modifies db, ids
    ensures db.Valid()
    ensures ids.issued == old(ids.issued) + 1
    ensures var row := Connection(ids.source(old(ids.issued)), ideaId, tagId, Some("tagged_with"), now);
      db.connections == if Collides(old(db.connections), row) then old(db.connections) else old(db.connections) + [row]
    ensures db.ideas == old(db.ideas) && db.notes == old(db.notes) && db.media == old(db.media)
    ensures db.clients == old(db.clients) && db.codes == old(db.codes) && db.tokens == old(db.tokens)
  {
    var id := ids.Next();
    InsertOrIgnore(db, Connection(id, ideaId, tagId, Some("tagged_with"), now));
  }

  /** What linking `items` did to the connections table: the rows before are
      kept in place, every added row is a `tagged_with` edge from the idea to a
      valid tag that one of the items names, and every valid tag an item names is
      linked, unless one of the ids generated on the way (numbers `first` up to
      `last`) was already taken. */
  ghost predicate LinksAdded(before: seq<Connection>, after: seq<Connection>, ideaId: string, items: seq<Json>,
                             valid: set<string>, now: int, source: nat -> string, first: nat, last: nat)
  {
    && |before| <= |after| && after[..|before|] == before
    && (forall k :: |before| <= k < |after| ==>
          && TagEdgeOf(after[k], ideaId, valid, now)
          && exists j :: 0 <= j < |items| && Names(items[j], valid) && items[j].s == after[k].toId)
    && forall k :: 0 <= k < |items| && Names(items[k], valid) ==>
         Linked(after, ideaId, items[k].s)
         || exists n :: first <= n < last && ConnectionIdTaken(after, source(n))
  }

  /** The loop of `enrichIdea`: every item that is a valid tag id gets a fresh id
      and an `INSERT OR IGNORE` of the edge from the idea to it. Each valid tag ends
      up linked, unless an id generated for the run was already in use; only
      such edges are added. */
  method LinkAll(db: Database, ids: IdGen, ideaId: string, items: seq<Json>, valid: set<string>, now: int)
    requires db.Valid()
    modifies db, ids
    ensures db.Valid()
    ensures LinksAdded(old(db.connections), db.connections, ideaId, items, valid, now, ids.source, old(ids.issued), ids.issued)
    ensures db.ideas == old(db.ideas) && db.notes == old(db.notes) && db.media == old(db.media)
    ensures db.clients == old(db.clients) && db.codes == old(db.codes) && db.tokens == old(db.tokens)
  {
    ghost var before := db.connections;
    ghost var first := ids.issued;
    for i := 0 to |items|
      invariant db.Valid()
      invariant first <= ids.issued
      invariant |before| <= |db.connections| && db.connections[..|before|] == before
      invariant forall k :: |before| <= k < |db.connections| ==>
        && TagEdgeOf(db.connections[k], ideaId, valid, now)
        && exists j :: 0 <= j < i && Names(items[j], valid) && items[j].s == db.connections[k].toId
      invariant forall k :: 0 <= k < i && Names(items[k], valid) ==>
        Linked(db.connections, ideaId, items[k].s)
        || exists n :: first <= n < ids.issued && ConnectionIdTaken(db.connections, ids.source(n))
      invariant db.ideas == old(db.ideas) && db.notes == old(db.notes) && db.media == old(db.media)
      invariant db.clients == old(db.clients) && db.codes == old(db.codes) && db.tokens == old(db.tokens)
    {
      ghost var cs := db.connections;
      if Names(items[i], valid) {
        ghost var n := ids.issued;
        LinkTag(db, ids, ideaId, items[i].s, now);
        LinkedAfter(cs, db.connections, Connection(ids.source(n), ideaId, items[i].s, Some("tagged_with"), now));
        assert db.connections[..|before|] == before by {
          assert db.connections[..|cs|] == cs;
        }
      }
      forall k | |before| <= k < |db.connections|
        ensures exists j :: 0 <= j < i + 1 && Names(items[j], valid) && items[j].s == db.connections[k].toId
      {
        if k < |cs| {
          assert db.connections[k] == cs[k];
          var j :| 0 <= j < i && Names(items[j], valid) && items[j].s == cs[k].toId;
        } else {
          assert Names(items[i], valid) && items[i].s == db.connections[k].toId;
        }
      }
    }
  }

  /** `enrichIdea`: when the checks pass, link the idea to the valid tags the answer
      names; otherwise write nothing. */
  method Enrich(db: Database, bucket: Bucket, ids: IdGen, ideaId: string, now: int,
                ai: string -> Result<Option<string>>, parse: string -> Option<Json>)
    requires db.Valid()
    modifies db, ids
    ensures db.Valid()
    ensures var plan := Plan(old(db.ideas), bucket.objects, ideaId, ai, parse);
      && (plan.None? ==> db.connections == old(db.connections))
      && (plan.Some? ==> LinksAdded(old(db.connections), db.connections, ideaId, plan.value.0, plan.value.1, now,
                                    ids.source, old(ids.issued), ids.issued))
    ensures db.ideas == old(db.ideas) && db.notes == old(db.notes) && db.media == old(db.media)
    ensures db.clients == old(db.clients) && db.codes == old(db.codes) && db.tokens == old(db.tokens)
  {
    var plan := Plan(db.ideas, bucket.objects, ideaId, ai, parse);
    if plan.Some? {
      LinkAll(db, ids, ideaId, plan.value.0, plan.value.1, now);
    }
  }

  /** After inserting or ignoring a `tagged_with` row, its edge is stored unless its
      id was taken; every edge and id stored before still is. */
  lemma LinkedAfter(cs: seq<Connection>, after: seq<Connection>, row: Connection)
    requires after == if Collides(cs, row) then cs else cs + [row]
    requires row.edgeLabel == Some("tagged_with")
    ensures Linked(after, row.fromId, row.toId) || ConnectionIdTaken(after, row.id)
    ensures |cs| <= |after| && after[..|cs|] == cs
    ensures forall f, t :: Linked(cs, f, t) ==> Linked(after, f, t)
    ensures forall id :: ConnectionIdTaken(cs, id) ==> ConnectionIdTaken(after, id)
  {
    if Collides(cs, row) {
      var k :| 0 <= k < |cs| && (cs[k].id == row.id || SameEdge(cs[k], row));
    } else {
      assert after[|cs|] == row;
    }
    assert after[..|cs|] == cs;
    forall f, t | Linked(cs, f, t) ensures Linked(after, f, t) {
      var k :| 0 <= k < |cs| && cs[k].fromId == f && cs[k].toId == t && cs[k].edgeLabel == Some("tagged_with");
      assert after[k] == cs[k];
    }
    forall id | ConnectionIdTaken(cs, id) ensures ConnectionIdTaken(after, id) {
      var k :| 0 <= k < |cs| && cs[k].id == id;
      assert after[k] == cs[k];
    }
  }
}
