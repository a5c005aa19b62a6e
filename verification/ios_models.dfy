/** The iOS app's records: the detail view's connections, split into the tags
    and the other connections, the connected idea's title, and the listing page
    as the iOS app decodes it. */
module IosModels {
  import opened Wrappers
  import opened Json
  import Store
  import IdeasDb
  import IdeasRoutes
  import ClientModels

  // ---------------------------------------------------------------- connections

  /** `Connection.ConnectedIdea`: the idea at the other end of a connection. */
  datatype ConnectedIdea = ConnectedIdea(id: string, kind: string, title: Option<string>, url: Option<string>)

  /** `ConnectedIdea.displayTitle`: the title whenever there is one, even an empty
      one; else the url; else `(untitled)`. */
  function ConnectedTitle(title: Option<string>, url: Option<string>): (r: string)
    ensures title.Some? ==> r == title.value
    ensures title.None? && url.Some? ==> r == url.value
    ensures title.None? && url.None? ==> r == "(untitled)"
  {
    match title
    case Some(t) => t
    case None => url.GetOr("(untitled)")
  }

  /** The connected idea's title and the idea's own `displayTitle` part only on
      an empty title: the connected idea shows it (an empty line), the idea
      falls back to its url or `(untitled)`. */
  lemma ConnectedTitleDiffers(title: Option<string>, url: Option<string>)
    ensures ConnectedTitle(title, url) != ClientModels.DisplayTitle(title, url) <==> title == Some("") && url != Some("")
  {
  }

  /** `Connection`: the label, the direction seen from the idea on show, and the
      idea at the other end. */
  datatype Connection = Connection(id: string, edgeLabel: Option<string>, direction: Option<string>, idea: ConnectedIdea)

  /** `IdeaDetail`, without its free-form content and notes. */
  datatype IdeaDetail = IdeaDetail(id: string, kind: string, title: Option<string>, url: Option<string>,
                                   summary: Option<string>, createdAt: int, connections: Option<seq<Connection>>)

  /** `$0.label == "tagged_with"`: a `nil` label is not a tag. */
  predicate IsTag(c: Connection) {
    c.edgeLabel == Some(Store.TaggedWith)
  }

  /** `filter`: the connections that are tags (`tagged` true) or are not, in order. */
  function Select(cs: seq<Connection>, tagged: bool): (r: seq<Connection>)
    ensures |r| <= |cs|
    ensures forall c :: c in r <==> c in cs && IsTag(c) == tagged
  {
    if |cs| == 0 then []
    else
      assert forall c :: c in cs <==> c == cs[0] || c in cs[1..];
      (if IsTag(cs[0]) == tagged then [cs[0]] else []) + Select(cs[1..], tagged)
  }

  /** `tags`: the connections labelled `tagged_with`; none when the detail came
      without connections. */
  function Tags(d: IdeaDetail): (r: seq<Connection>)
    ensures forall c :: c in r <==> d.connections.Some? && c in d.connections.value && IsTag(c)
  {
    if d.connections.Some? then Select(d.connections.value, true) else []
  }

  /** `relatedConnections`: every other connection, an unlabelled one included;
      none when the detail came without connections. */
  function Related(d: IdeaDetail): (r: seq<Connection>)
    ensures forall c :: c in r <==> d.connections.Some? && c in d.connections.value && !IsTag(c)
  {
    if d.connections.Some? then Select(d.connections.value, false) else []
  }

  /** Selection is a filter: it keeps the order of the list. */
  lemma {:induction false} SelectAppend(a: seq<Connection>, b: seq<Connection>, tagged: bool)
    ensures Select(a + b, tagged) == Select(a, tagged) + Select(b, tagged)
  {
    if |a| > 0 {
      assert (a + b)[1..] == a[1..] + b;
      SelectAppend(a[1..], b, tagged);
    } else {
      assert a + b == b;
    }
  }

  /** Every connection is either a tag or related, exactly once: the two lists
      together hold the connections, repeats included. */
  lemma {:induction false} SelectPartition(cs: seq<Connection>)
    ensures multiset(Select(cs, true)) + multiset(Select(cs, false)) == multiset(cs)
    ensures |Select(cs, true)| + |Select(cs, false)| == |cs|
  {
    if |cs| > 0 {
      SelectPartition(cs[1..]);
      assert cs == [cs[0]] + cs[1..];
    }
  }

  /** The detail view's two lists partition the detail's connections. */
  lemma TagsAndRelated(d: IdeaDetail)
    ensures d.connections.None? ==> Tags(d) == [] && Related(d) == []
    ensures d.connections.Some? ==> multiset(Tags(d)) + multiset(Related(d)) == multiset(d.connections.value)
    ensures |Tags(d)| + |Related(d)| == if d.connections.Some? then |d.connections.value| else 0
  {
    if d.connections.Some? {
      SelectPartition(d.connections.value);
    }
  }

  // ---------------------------------------------------------------- listing page

  /** The iOS `IdeasResponse`: the ideas and a `String?` cursor. */
  datatype IosPage = IosPage(ideas: seq<ClientModels.Idea>, cursor: Option<string>)

  /** The iOS page decoder, which reads the cursor from the `cursor` key. */
  function DecodeIosPage(j: Json): (r: Result<IosPage>)
    ensures r.Ok? <==> j.JObj? && Get(j, "ideas").Some? && Get(j, "ideas").value.JArr?
                       && ClientModels.DecodeIdeas(Get(j, "ideas").value.items).Ok? && ClientModels.DecodeOptString(j, "cursor").Ok?
    ensures r.Ok? ==> r.value.cursor == ClientModels.DecodeOptString(j, "cursor").value
  {
    if !j.JObj? then Err("typeMismatch: IdeasResponse")
    else
      match Get(j, "ideas")
      case None => Err("keyNotFound: ideas")
      case Some(v) =>
        if !v.JArr? then Err("typeMismatch: ideas")
        else
          match ClientModels.DecodeIdeas(v.items)
          case Err(m) => Err(m)
          case Ok(ideas) =>
            match ClientModels.DecodeOptString(j, "cursor")
            case Err(m) => Err(m)
            case Ok(c) => Ok(IosPage(ideas, c))
  }

  /** The Worker's listing page has no `cursor` key, so the iOS app reads every
      page, the ones followed by more included, as the last: its cursor is
      always `nil`. */
  lemma CursorNeverRead(p: IdeasDb.Page)
    requires forall i :: 0 <= i < |p.ideas| ==> ClientModels.Decodable(p.ideas[i])
    ensures DecodeIosPage(IdeasRoutes.PageJson(p)) == Ok(IosPage(ClientModels.FromRows(p.ideas), None))
  {
    var j := IdeasRoutes.PageJson(p);
    assert j.fields[0].0[0] == 'i' && j.fields[1].0[0] == 'n';
    assert Get(j, "cursor") == None;
    ClientModels.RowsRoundTrip(p.ideas);
  }

  /** A first page of ideas followed by more, from the cursor 5 on: the page
      decoder that reads `nextCursor` keeps the cursor, the iOS one loses it. */
  lemma CursorLostExample()
    ensures var j := IdeasRoutes.PageJson(IdeasDb.Page([], Some(5)));
      && ClientModels.DecodePage(j) == Ok(ClientModels.IdeasPage([], Some(5)))
      && DecodeIosPage(j) == Ok(IosPage([], None))
  {
    var p := IdeasDb.Page([], Some(5));
    CursorNeverRead(p);
    ClientModels.PageRoundTrip(p, IdeasRoutes.PageJson(p));
  }
}
