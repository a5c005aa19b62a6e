/** The records the iOS and macOS apps decode from the Worker's JSON, as Swift's
    `JSONDecoder` reads them, and the values they compute from them. */
module ClientModels {
  import opened Wrappers
  import opened Json
  import Store
  import IdeasDb

  /** The app's idea types; a raw value it does not know reads as `note`. */
  datatype IdeaType = Page | Tweet | Book | Quote | Note | Image | Text | Video | Tag | Meta

  function RawValue(t: IdeaType): string {
    match t
    case Page => "page"
    case Tweet => "tweet"
    case Book => "book"
    case Quote => "quote"
    case Note => "note"
    case Image => "image"
    case Text => "text"
    case Video => "video"
    case Tag => "tag"
    case Meta => "meta"
  }

  /** `IdeaType(rawValue: s) ?? .note` */
  function FromRaw(s: string): (t: IdeaType)
    ensures RawValue(t) == s || (t == Note && forall u: IdeaType :: RawValue(u) != s)
  {
    match s
    case "page" => Page
    case "tweet" => Tweet
    case "book" => Book
    case "quote" => Quote
    case "note" => Note
    case "image" => Image
    case "text" => Text
    case "video" => Video
    case "tag" => Tag
    case "meta" => Meta
    case _ => Note
  }

  /** Every type reads back as itself. */
  lemma RawValueRoundTrip(t: IdeaType)
    ensures FromRaw(RawValue(t)) == t
  {
  }

  // ---------------------------------------------------------------- ideas

  /** `Idea` (id, type, title, url, summary, created_at). */
  datatype Idea = Idea(id: string, kind: string, title: Option<string>, url: Option<string>,
                       summary: Option<string>, createdAt: int)

  /** `displayTitle`: the title when it is present and not empty, else the url,
      else `(untitled)`. */
  function DisplayTitle(title: Option<string>, url: Option<string>): (r: string)
    ensures title.Some? && title.value != "" ==> r == title.value
    ensures (title.None? || title.value == "") && url.Some? ==> r == url.value
    ensures (title.None? || title.value == "") && url.None? ==> r == "(untitled)"
  {
    if title.Some? && title.value != "" then title.value
    else if url.Some? then url.value
    else "(untitled)"
  }

  /** A display title is empty only for an idea without a title whose url is
      the empty text. */
  lemma DisplayTitleEmpty(title: Option<string>, url: Option<string>)
    ensures DisplayTitle(title, url) == "" <==> (title.None? || title.value == "") && url == Some("")
  {
  }

  // ---------------------------------------------------------------- decoding

  /** Swift's `Int` on the 64-bit platforms the apps run on. */
  predicate IsInt64(n: int) {
    -0x8000_0000_0000_0000 <= n < 0x8000_0000_0000_0000
  }

  /** A non-optional `String` field: a missing key, a `null` or another kind of
      value is a decoding error. */
  function DecodeString(j: Json, key: string): (r: Result<string>)
    ensures r.Ok? <==> Get(j, key).Some? && Get(j, key).value.JStr?
    ensures r.Ok? ==> r.value == Get(j, key).value.s
  {
    match Get(j, key)
    case None => Err("keyNotFound: " + key)
    case Some(v) =>
      if v.JStr? then Ok(v.s)
      else if v == JNull then Err("valueNotFound: " + key)
      else Err("typeMismatch: " + key)
  }

  /** An optional `String` field: a missing key and `null` are `nil`. */
  function DecodeOptString(j: Json, key: string): (r: Result<Option<string>>)
    ensures r.Ok? <==> Get(j, key).None? || Get(j, key).value == JNull || Get(j, key).value.JStr?
    ensures r.Ok? && Get(j, key).Some? && Get(j, key).value.JStr? ==> r.value == Some(Get(j, key).value.s)
    ensures r.Ok? && (Get(j, key).None? || Get(j, key).value == JNull) ==> r.value.None?
  {
    match Get(j, key)
    case None => Ok(None)
    case Some(v) =>
      if v.JStr? then Ok(Some(v.s))
      else if v == JNull then Ok(None)
      else Err("typeMismatch: " + key)
  }

  /** A non-optional `Int` field: a whole number in range. */
  function DecodeInt(j: Json, key: string): (r: Result<int>)
    ensures r.Ok? <==> Get(j, key).Some? && Get(j, key).value.JNum? && IsInt64(Get(j, key).value.n)
    ensures r.Ok? ==> r.value == Get(j, key).value.n
  {
    match Get(j, key)
    case None => Err("keyNotFound: " + key)
    case Some(v) =>
      if v.JNum? && IsInt64(v.n) then Ok(v.n)
      else if v == JNull then Err("valueNotFound: " + key)
      else Err("typeMismatch: " + key)
  }

  /** An optional `Int` field. */
  function DecodeOptInt(j: Json, key: string): (r: Result<Option<int>>)
    ensures r.Ok? <==> Get(j, key).None? || Get(j, key).value == JNull || (Get(j, key).value.JNum? && IsInt64(Get(j, key).value.n))
    ensures r.Ok? && Get(j, key).Some? && Get(j, key).value.JNum? ==> r.value == Some(Get(j, key).value.n)
    ensures r.Ok? && (Get(j, key).None? || Get(j, key).value == JNull) ==> r.value.None?
  {
    match Get(j, key)
    case None => Ok(None)
    case Some(v) =>
      if v == JNull then Ok(None)
      else if v.JNum? && IsInt64(v.n) then Ok(Some(v.n))
      else Err("typeMismatch: " + key)
  }

  /** `Idea`'s decoder, field by field in declaration order. */
  function DecodeIdea(j: Json): (r: Result<Idea>)
    ensures r.Ok? <==>
      && j.JObj? && DecodeString(j, "id").Ok? && DecodeString(j, "type").Ok? && DecodeOptString(j, "title").Ok?
      && DecodeOptString(j, "url").Ok? && DecodeOptString(j, "summary").Ok? && DecodeInt(j, "created_at").Ok?
    ensures r.Ok? ==>
      && r.value.id == DecodeString(j, "id").value && r.value.kind == DecodeString(j, "type").value
      && r.value.title == DecodeOptString(j, "title").value && r.value.url == DecodeOptString(j, "url").value
      && r.value.summary == DecodeOptString(j, "summary").value && r.value.createdAt == DecodeInt(j, "created_at").value
  {
    if !j.JObj? then Err("typeMismatch: Idea")
    else
      var id := DecodeString(j, "id");
      var kind := DecodeString(j, "type");
      var title := DecodeOptString(j, "title");
      var url := DecodeOptString(j, "url");
      var summary := DecodeOptString(j, "summary");
      var createdAt := DecodeInt(j, "created_at");
      if id.Err? then Err(id.message)
      else if kind.Err? then Err(kind.message)
      else if title.Err? then Err(title.message)
      else if url.Err? then Err(url.message)
      else if summary.Err? then Err(summary.message)
      else if createdAt.Err? then Err(createdAt.message)
      else Ok(Idea(id.value, kind.value, title.value, url.value, summary.value, createdAt.value))
  }

  /** The app's view of a stored row (the type is always present in the rows
      the Worker can send; see `Decodable`). */
  function FromRow(x: Store.Idea): Idea {
    Idea(x.id, x.kind.GetOr(""), x.title, x.url, x.summary, x.createdAt)
  }

  /** A row the Worker can send: it has a type and a creation time Swift can hold. */
  predicate Decodable(x: Store.Idea) {
    x.kind.Some? && IsInt64(x.createdAt)
  }

  /** Every row the Worker sends as `IdeaJson` decodes to the same idea. */
  lemma IdeaRoundTrip(x: Store.Idea)
    requires Decodable(x)
    ensures DecodeIdea(Store.IdeaJson(x)) == Ok(FromRow(x))
  {
    var j := Store.IdeaJson(x);
    IdeaJsonFields(x);
    OptionalText(j, "title", x.title);
    OptionalText(j, "url", x.url);
    OptionalText(j, "summary", x.summary);
  }

  /** The keys the decoder reads from `IdeaJson`. */
  lemma IdeaJsonFields(x: Store.Idea)
    ensures var j := Store.IdeaJson(x);
      && Get(j, "id") == Some(JStr(x.id)) && Get(j, "type") == Some(TextOrNull(x.kind))
      && Get(j, "title") == Some(TextOrNull(x.title)) && Get(j, "url") == Some(TextOrNull(x.url))
      && Get(j, "summary") == Some(TextOrNull(x.summary)) && Get(j, "created_at") == Some(JNum(x.createdAt))
  {
    var fields := Store.IdeaJson(x).fields;
    assert forall a, b :: 0 <= a < b < |fields| ==> fields[a].0 != fields[b].0 by {
      assert fields[0].0[0] == 'i' && fields[1].0[1] == 'y' && fields[2].0[1] == 'i' && fields[3].0[0] == 'u';
      assert fields[4].0[0] == 's' && fields[5].0[0] == 'r' && fields[6].0[0] == 'c' && fields[7].0[1] == 'p';
    }
    LookupDistinct(fields);
    assert fields[0].0 == "id" && fields[1].0 == "type" && fields[2].0 == "title" && fields[3].0 == "url"
        && fields[4].0 == "summary" && fields[6].0 == "created_at";
  }

  lemma OptionalText(j: Json, key: string, t: Option<string>)
    requires Get(j, key) == Some(TextOrNull(t))
    ensures DecodeOptString(j, key) == Ok(t)
  {
  }

  /** `[Idea]`: every element must decode. */
  function DecodeIdeas(items: seq<Json>): (r: Result<seq<Idea>>)
    ensures r.Ok? ==> |r.value| == |items|
    ensures r.Ok? <==> forall i :: 0 <= i < |items| ==> DecodeIdea(items[i]).Ok?
    ensures r.Ok? ==> forall i :: 0 <= i < |items| ==> r.value[i] == DecodeIdea(items[i]).value
  {
    if |items| == 0 then Ok([])
    else
      match DecodeIdea(items[0])
      case Err(m) => Err(m)
      case Ok(x) =>
        match DecodeIdeas(items[1..])
        case Err(m) => Err(m)
        case Ok(rest) =>
          assert forall i :: 1 <= i < |items| ==> items[i] == items[1..][i - 1];
          Ok([x] + rest)
  }

  /** The app's view of a list of stored rows. */
  function FromRows(rows: seq<Store.Idea>): (r: seq<Idea>)
    ensures |r| == |rows| && forall i :: 0 <= i < |rows| ==> r[i] == FromRow(rows[i])
  {
    seq(|rows|, i requires 0 <= i < |rows| => FromRow(rows[i]))
  }

  /** A list of rows the Worker sends decodes to those ideas, in order. */
  lemma RowsRoundTrip(rows: seq<Store.Idea>)
    requires forall i :: 0 <= i < |rows| ==> Decodable(rows[i])
    ensures DecodeIdeas(Store.Rows(rows, Store.IdeaJson).items) == Ok(FromRows(rows))
  {
    var items := Store.Rows(rows, Store.IdeaJson).items;
    forall i | 0 <= i < |rows| ensures DecodeIdea(items[i]) == Ok(FromRow(rows[i])) {
      assert items[i] == Store.IdeaJson(rows[i]);
      IdeaRoundTrip(rows[i]);
    }
    var d := DecodeIdeas(items);
    assert d.Ok?;
    assert d.value == FromRows(rows);
  }

  // ---------------------------------------------------------------- pages

  /** A page of the listing: the ideas and where the next page starts. */
  datatype IdeasPage = IdeasPage(ideas: seq<Idea>, cursor: Option<int>)

  /** The page decoder that reads the cursor from the `nextCursor` key. */
  function DecodePage(j: Json): (r: Result<IdeasPage>)
    ensures r.Ok? <==> j.JObj? && Get(j, "ideas").Some? && Get(j, "ideas").value.JArr?
                       && DecodeIdeas(Get(j, "ideas").value.items).Ok? && DecodeOptInt(j, "nextCursor").Ok?
    ensures r.Ok? ==> r.value.cursor == DecodeOptInt(j, "nextCursor").value
  {
    if !j.JObj? then Err("typeMismatch: IdeasResponse")
    else
      match Get(j, "ideas")
      case None => Err("keyNotFound: ideas")
      case Some(v) =>
        if !v.JArr? then Err("typeMismatch: ideas")
        else
          match DecodeIdeas(v.items)
          case Err(m) => Err(m)
          case Ok(ideas) =>
            match DecodeOptInt(j, "nextCursor")
            case Err(m) => Err(m)
            case Ok(c) => Ok(IdeasPage(ideas, c))
  }

  /** A page the Worker's listing returns decodes to its ideas and its cursor. */
  lemma PageRoundTrip(p: IdeasDb.Page, j: Json)
    requires forall i :: 0 <= i < |p.ideas| ==> Decodable(p.ideas[i])
    requires p.nextCursor.Some? ==> IsInt64(p.nextCursor.value)
    requires j.JObj? && Get(j, "ideas") == Some(Store.Rows(p.ideas, Store.IdeaJson))
    requires p.nextCursor.Some? ==> Get(j, "nextCursor") == Some(JNum(p.nextCursor.value))
    requires p.nextCursor.None? ==> Get(j, "nextCursor") == Some(JNull)
    ensures DecodePage(j) == Ok(IdeasPage(FromRows(p.ideas), p.nextCursor))
  {
    RowsRoundTrip(p.ideas);
  }
}
