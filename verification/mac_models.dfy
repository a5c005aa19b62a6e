/** The macOS app's records: a connection read from the snake_case columns of the
    Worker's connection listing, and the idea listing page, whose cursor is read
    from `nextCursor`. */
module MacModels {
  import opened Wrappers
  import opened Json
  import IdeasDb
  import IdeasRoutes
  import ClientModels

  /** `Connection`: a stored edge with the type and title of both ends. */
  datatype Connection = Connection(id: string, edgeLabel: Option<string>,
                                   fromId: string, fromType: string, fromTitle: Option<string>,
                                   toId: string, toType: string, toTitle: Option<string>)

  /** `Connection`'s decoder, field by field in declaration order. */
  function DecodeConnection(j: Json): (r: Result<Connection>)
    ensures r.Ok? <==>
      && j.JObj? && ClientModels.DecodeString(j, "id").Ok? && ClientModels.DecodeOptString(j, "label").Ok?
      && ClientModels.DecodeString(j, "from_id").Ok? && ClientModels.DecodeString(j, "from_type").Ok?
      && ClientModels.DecodeOptString(j, "from_title").Ok? && ClientModels.DecodeString(j, "to_id").Ok?
      && ClientModels.DecodeString(j, "to_type").Ok? && ClientModels.DecodeOptString(j, "to_title").Ok?
    ensures r.Ok? ==>
      && r.value.fromId == ClientModels.DecodeString(j, "from_id").value
      && r.value.toId == ClientModels.DecodeString(j, "to_id").value
      && r.value.edgeLabel == ClientModels.DecodeOptString(j, "label").value
  {
    if !j.JObj? then Err("typeMismatch: Connection")
    else
      var id := ClientModels.DecodeString(j, "id");
      var edge := ClientModels.DecodeOptString(j, "label");
      var fromId := ClientModels.DecodeString(j, "from_id");
      var fromType := ClientModels.DecodeString(j, "from_type");
      var fromTitle := ClientModels.DecodeOptString(j, "from_title");
      var toId := ClientModels.DecodeString(j, "to_id");
      var toType := ClientModels.DecodeString(j, "to_type");
      var toTitle := ClientModels.DecodeOptString(j, "to_title");
      if id.Err? then Err(id.message)
      else if edge.Err? then Err(edge.message)
      else if fromId.Err? then Err(fromId.message)
      else if fromType.Err? then Err(fromType.message)
      else if fromTitle.Err? then Err(fromTitle.message)
      else if toId.Err? then Err(toId.message)
      else if toType.Err? then Err(toType.message)
      else if toTitle.Err? then Err(toTitle.message)
      else Ok(Connection(id.value, edge.value, fromId.value, fromType.value, fromTitle.value,
                         toId.value, toType.value, toTitle.value))
  }

  /** The app's view of one row of the Worker's connection listing. */
  function FromView(v: IdeasDb.ConnectionView): Connection {
    Connection(v.conn.id, v.conn.edgeLabel, v.conn.fromId, v.fromKind.GetOr(""), v.fromTitle,
               v.conn.toId, v.toKind.GetOr(""), v.toTitle)
  }

  /** Every joined connection row whose two ends have a type decodes to that
      connection: the app's keys are the columns the listing produces. */
  lemma ConnectionRoundTrip(v: IdeasDb.ConnectionView)
    requires v.fromKind.Some? && v.toKind.Some?
    ensures DecodeConnection(IdeasDb.ConnectionViewJson(v)) == Ok(FromView(v))
  {
    var j := IdeasDb.ConnectionViewJson(v);
    ViewJsonFields(v);
    ClientModels.OptionalText(j, "label", v.conn.edgeLabel);
    ClientModels.OptionalText(j, "from_title", v.fromTitle);
    ClientModels.OptionalText(j, "to_title", v.toTitle);
  }

  /** The keys the decoder reads from `ConnectionViewJson`. */
  lemma ViewJsonFields(v: IdeasDb.ConnectionView)
    ensures var j := IdeasDb.ConnectionViewJson(v);
      && Get(j, "id") == Some(JStr(v.conn.id)) && Get(j, "label") == Some(TextOrNull(v.conn.edgeLabel))
      && Get(j, "from_id") == Some(JStr(v.conn.fromId)) && Get(j, "from_type") == Some(TextOrNull(v.fromKind))
      && Get(j, "from_title") == Some(TextOrNull(v.fromTitle)) && Get(j, "to_id") == Some(JStr(v.conn.toId))
      && Get(j, "to_type") == Some(TextOrNull(v.toKind)) && Get(j, "to_title") == Some(TextOrNull(v.toTitle))
  {
    var fields := IdeasDb.ConnectionViewJson(v).fields;
    ViewKeysDistinct(v);
    LookupDistinct(fields);
    assert fields[0].0 == "id" && fields[1].0 == "from_id" && fields[2].0 == "to_id" && fields[3].0 == "label"
        && fields[5].0 == "from_type" && fields[6].0 == "from_title" && fields[7].0 == "to_type" && fields[8].0 == "to_title";
  }

  /** The listing's columns have pairwise different names. */
  lemma ViewKeysDistinct(v: IdeasDb.ConnectionView)
    ensures var fields := IdeasDb.ConnectionViewJson(v).fields;
      forall a, b :: 0 <= a < b < |fields| ==> fields[a].0 != fields[b].0
  {
    var fields := IdeasDb.ConnectionViewJson(v).fields;
    assert fields[0].0[0] == 'i' && fields[1].0[0] == 'f' && fields[2].0[0] == 't' && fields[3].0[0] == 'l';
    assert fields[4].0[0] == 'c' && fields[5].0[5] == 't' && fields[6].0[6] == 'i' && fields[7].0[3] == 't';
    assert fields[8].0[4] == 'i' && fields[1].0[5] == 'i' && fields[2].0[3] == 'i';
  }

  /** A connection whose end idea has lost its type (a NULL `type` column) is a
      decoding error: `fromType` and `toType` are not optional. */
  lemma UntypedEndFails(v: IdeasDb.ConnectionView)
    requires v.fromKind.None? || v.toKind.None?
    ensures DecodeConnection(IdeasDb.ConnectionViewJson(v)).Err?
  {
    ViewJsonFields(v);
  }

  /** `IdeasResponse`: the listing page, read with `ClientModels.DecodePage`
      (the cursor comes from `nextCursor`). The page the Worker's listing route
      returns decodes to its ideas and to the same cursor. */
  lemma ListingRoundTrip(p: IdeasDb.Page)
    requires forall i :: 0 <= i < |p.ideas| ==> ClientModels.Decodable(p.ideas[i])
    requires p.nextCursor.Some? ==> ClientModels.IsInt64(p.nextCursor.value)
    ensures ClientModels.DecodePage(IdeasRoutes.PageJson(p)) == Ok(ClientModels.IdeasPage(ClientModels.FromRows(p.ideas), p.nextCursor))
  {
    ClientModels.PageRoundTrip(p, IdeasRoutes.PageJson(p));
  }
}
