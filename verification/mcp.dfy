/** The MCP endpoint: a JSON-RPC 2.0 server over one HTTP POST. A body is one
    message or a batch of them; a message with an `id` gets a reply, one without
    is a notification and gets none. */
module Mcp {
  import opened Wrappers
  import opened Json
  import opened Store
  import opened R2
  import opened Errors
  import opened IdeasDb
  import opened McpTools

  const ProtocolVersion: string := "2024-11-05"

  // ---------------------------------------------------------------- envelopes

  /** A JSON-RPC reply to the request with id `id`: version `2.0`, the id echoed,
      and exactly one of `result` and `error`. */
  predicate Envelope(j: Json, id: Json) {
    && Get(j, "jsonrpc") == Some(JStr("2.0"))
    && Get(j, "id") == Some(id)
    && (Get(j, "result").Some? <==> Get(j, "error").None?)
  }

  /** The error code of a reply, if it is an error reply. */
  function ErrorCode(j: Json): Option<Json> {
    if Get(j, "error").Some? then Get(Get(j, "error").value, "code") else None
  }

  function RpcResult(id: Json, result: Json): (j: Json)
    ensures Envelope(j, id) && Get(j, "result") == Some(result)
  {
    var fields := [("jsonrpc", JStr("2.0")), ("id", id), ("result", result)];
    LookupAt(fields, 1);
    LookupAt(fields, 2);
    JObj(fields)
  }

  function RpcError(id: Json, code: int, message: string): (j: Json)
    ensures Envelope(j, id) && Get(j, "result").None?
    ensures ErrorCode(j) == Some(JNum(code))
    ensures Get(Get(j, "error").value, "message") == Some(JStr(message))
  {
    var err := [("code", JNum(code)), ("message", JStr(message))];
    LookupAt(err, 1);
    var fields := [("jsonrpc", JStr("2.0")), ("id", id), ("error", JObj(err))];
    LookupAt(fields, 1);
    LookupAt(fields, 2);
    JObj(fields)
  }

  /** The answer to `initialize`. */
  function InitializeResult(): (j: Json)
    ensures Get(j, "protocolVersion") == Some(JStr(ProtocolVersion))
    ensures Get(j, "capabilities") == Some(JObj([("tools", Empty)]))
  {
    var fields := [("protocolVersion", JStr(ProtocolVersion)),
                   ("serverInfo", JObj([("name", JStr("sfl")), ("version", JStr("1.0.0"))])),
                   ("capabilities", JObj([("tools", Empty)]))];
    LookupAt(fields, 2);
    JObj(fields)
  }

  /** The reply to a `tools/call`: the tool's result as one text item, or, when the
      tool failed, its message after `Error: ` and `isError` set. `stringify` is
      `JSON.stringify(result, null, 2)`. */
  function CallReply(id: Json, outcome: Result<Json>, stringify: Json -> string): (j: Json)
    ensures Envelope(j, id) && Get(j, "result").Some? && ErrorCode(j).None?
    ensures var result := Get(j, "result").value;
      && (outcome.Ok? ==> Get(result, "content") == Some(JArr([TextItem(stringify(outcome.value))]))
                          && Get(result, "isError").None?)
      && (outcome.Err? ==> Get(result, "content") == Some(JArr([TextItem("Error: " + outcome.message)]))
                           && Get(result, "isError") == Some(JBool(true)))
  {
    match outcome
    case Ok(v) => RpcResult(id, JObj([("content", JArr([TextItem(stringify(v))]))]))
    case Err(m) =>
      var fields := [("content", JArr([TextItem("Error: " + m)])), ("isError", JBool(true))];
      LookupAt(fields, 1);
      RpcResult(id, JObj(fields))
  }

  function TextItem(text: string): Json {
    JObj([("type", JStr("text")), ("text", JStr(text))])
  }

  // ---------------------------------------------------------------- handleMessage

  /** What `handleMessage` does with a message before any tool runs. */
  datatype Action =
    | Notification
    /** The `'id' in msg` test throws on a value that is not an object. */
    | Reject(message: string)
    | Answer(reply: Json)
    | Call(id: Json, name: Json, args: Json)

  /** The request id, for a message that has one. */
  function MessageId(msg: Json): Option<Json> {
    if msg.JObj? then Lookup(msg.fields, "id") else None
  }

  function Route(msg: Json): (a: Action)
    ensures a.Reject? <==> !msg.JObj? && !msg.JArr?
    ensures a.Notification? <==> msg.JArr? || (msg.JObj? && MessageId(msg).None?)
    ensures a.Answer? ==> MessageId(msg).Some? && Envelope(a.reply, MessageId(msg).value)
    ensures a.Answer? && ErrorCode(a.reply).Some? ==> ErrorCode(a.reply) in {Some(JNum(-32602)), Some(JNum(-32601))}
    ensures a.Call? ==>
      && MessageId(msg) == Some(a.id)
      && Get(msg, "method") == Some(JStr("tools/call"))
      && Truthy(a.name)
    ensures MessageId(msg).Some? ==>
      var id, m := MessageId(msg).value, Get(msg, "method");
      && (m == Some(JStr("initialize")) ==> a == Answer(RpcResult(id, InitializeResult())))
      && (m == Some(JStr("ping")) ==> a == Answer(RpcResult(id, Empty)))
      && (m == Some(JStr("tools/list")) ==> a == Answer(RpcResult(id, JObj([("tools", CatalogueJson())]))))
      && (m == Some(JStr("tools/call")) ==>
            var params := OrElse(Get(msg, "params"), Empty);
            && (!Present(Get(params, "name")) ==> a == Answer(RpcError(id, -32602, "Missing tool name")))
            && (Present(Get(params, "name")) ==>
                  a == Call(id, Get(params, "name").value, OrElse(Get(params, "arguments"), Empty))))
      && (m !in {Some(JStr("initialize")), Some(JStr("ping")), Some(JStr("tools/list")), Some(JStr("tools/call"))} ==>
            a == Answer(RpcError(id, -32601, "Method not found: " + Interpolate(m))))
  {
    if !msg.JObj? && !msg.JArr? then Reject("Cannot use 'in' operator to search for 'id' in " + ToText(msg))
    else if MessageId(msg).None? then Notification
    else
      var id, m := MessageId(msg).value, Get(msg, "method");
      if m == Some(JStr("initialize")) then Answer(RpcResult(id, InitializeResult()))
      else if m == Some(JStr("ping")) then Answer(RpcResult(id, Empty))
      else if m == Some(JStr("tools/list")) then Answer(RpcResult(id, JObj([("tools", CatalogueJson())])))
      else if m == Some(JStr("tools/call")) then
        var params := OrElse(Get(msg, "params"), Empty);
        if !Present(Get(params, "name")) then Answer(RpcError(id, -32602, "Missing tool name"))
        else Call(id, Get(params, "name").value, OrElse(Get(params, "arguments"), Empty))
      else Answer(RpcError(id, -32601, "Method not found: " + Interpolate(m)))
  }

  /** What handling one message produced. */
  datatype Outcome = NoReply | Replied(reply: Json) | Failed(message: string)

  /** What `handleMessage` gives for `msg` when the tool it calls, if any, answered
      `outcome`. */
  function ReplyTo(msg: Json, outcome: Result<Json>, stringify: Json -> string): (o: Outcome)
    ensures o.Replied? <==> Route(msg).Answer? || Route(msg).Call?
    ensures o.Replied? ==> Envelope(o.reply, MessageId(msg).value)
    ensures o.Failed? <==> Route(msg).Reject?
    ensures o.NoReply? <==> Route(msg).Notification?
    ensures Route(msg).Call? ==> Get(o.reply, "result").Some? && ErrorCode(o.reply).None?
    ensures Route(msg).Call? && outcome.Err? ==>
      Get(Get(o.reply, "result").value, "isError") == Some(JBool(true))
  {
    match Route(msg)
    case Notification => NoReply
    case Reject(m) => Failed(m)
    case Answer(j) => Replied(j)
    case Call(id, _, _) => Replied(CallReply(id, outcome, stringify))
  }

  /** `handleMessage`: answer, ignore or run a tool; the reply to a tool call
      carries the outcome of that tool, which `outcome` names. */
  method HandleMessage(db: Database, bucket: Bucket, ids: IdGen, msg: Json, now: int,
                       fts: Option<string> -> Result<seq<Idea>>, stringify: Json -> string)
    returns (r: Outcome, ghost outcome: Result<Json>)
    requires db.Valid()
    modifies db, bucket, ids
    ensures db.Valid()
    ensures r == ReplyTo(msg, outcome, stringify)
    ensures Route(msg).Call? ==>
      Executed(Route(msg).name, Route(msg).args, now, fts, old(Snap(db, bucket, ids)), db, bucket, ids, outcome)
    ensures !Route(msg).Call? ==> Snap(db, bucket, ids) == old(Snap(db, bucket, ids))
    ensures db.media == old(db.media)
    ensures db.clients == old(db.clients) && db.codes == old(db.codes) && db.tokens == old(db.tokens)
  {
    outcome := Ok(JNull);
    match Route(msg)
    case Notification => r := NoReply;
    case Reject(m) => r := Failed(m);
    case Answer(j) => r := Replied(j);
    case Call(id, name, args) =>
      var o := ExecuteTool(db, bucket, ids, name, args, now, fts);
      r, outcome := Replied(CallReply(id, o, stringify)), o;
  }

  /** One message's step through the tables, as the batch records it: a call of a
      writing tool does what its name selects; every other message leaves the
      tables as they were, and a call of an unknown name fails. */
  ghost predicate Stepped(msg: Json, b: Tables, a: Tables, source: nat -> string, now: int, outcome: Result<Json>) {
    StepOf(Route(msg), b, a, source, now, outcome)
  }

  ghost predicate StepOf(action: Action, b: Tables, a: Tables, source: nat -> string, now: int, outcome: Result<Json>) {
    if action.Call? && action.name.JStr? && action.name.s in WriteTools then
      WriteDone(action.name.s, b, a, source, action.args, now, outcome)
    else
      && a == b
      && (action.Call? && !(action.name.JStr? && action.name.s in ToolNames) ==>
            outcome == Err("Unknown tool: " + ToText(action.name)))
  }

  // ---------------------------------------------------------------- handleMcpRequest

  /** The ids of the messages of a batch that get a reply, in order. */
  function RepliedIds(batch: seq<Json>): (r: seq<Json>)
    ensures |r| <= |batch|
  {
    if |batch| == 0 then []
    else
      var last := batch[|batch| - 1];
      RepliedIds(batch[..|batch| - 1]) + (if Route(last).Answer? || Route(last).Call? then [MessageId(last).value] else [])
  }

  /** The first message of a batch that makes `handleMessage` throw, if any. */
  function FirstReject(batch: seq<Json>): (r: Option<string>)
    ensures r.None? <==> forall i :: 0 <= i < |batch| ==> !Route(batch[i]).Reject?
  {
    if |batch| == 0 then None
    else
      var last := batch[|batch| - 1];
      var earlier := FirstReject(batch[..|batch| - 1]);
      assert forall i :: 0 <= i < |batch| - 1 ==> batch[..|batch| - 1][i] == batch[i];
      if earlier.Some? then earlier else if Route(last).Reject? then Some(Route(last).message) else None
  }

  /** A batch whose messages are all notifications gets no reply at all. */
  lemma {:induction false} NotificationsOnly(batch: seq<Json>)
    ensures RepliedIds(batch) == [] <==> forall i :: 0 <= i < |batch| ==> Route(batch[i]).Notification? || Route(batch[i]).Reject?
  {
    if |batch| > 0 {
      var init := batch[..|batch| - 1];
      NotificationsOnly(init);
      assert forall i :: 0 <= i < |batch| - 1 ==> init[i] == batch[i];
    }
  }

  /** `states` and `outcomes` trace a batch: message `j` takes the tables from
      `states[j]` to `states[j + 1]`, its tool answering `outcomes[j]`. */
  ghost predicate Traced(batch: seq<Json>, states: seq<Tables>, outcomes: seq<Result<Json>>, source: nat -> string, now: int)
    decreases |batch|
  {
    && |states| == |batch| + 1 && |outcomes| == |batch|
    && (|batch| > 0 ==>
          var n := |batch| - 1;
          && Traced(batch[..n], states[..n + 1], outcomes[..n], source, now)
          && Stepped(batch[n], states[n], states[n + 1], source, now, outcomes[n]))
  }

  /** A trace is one step per message. */
  lemma {:induction false} TracedEach(batch: seq<Json>, states: seq<Tables>, outcomes: seq<Result<Json>>,
                                      source: nat -> string, now: int)
    requires Traced(batch, states, outcomes, source, now)
    ensures forall i :: 0 <= i < |batch| ==> Stepped(batch[i], states[i], states[i + 1], source, now, outcomes[i])
  {
    if |batch| > 0 {
      var n := |batch| - 1;
      TracedEach(batch[..n], states[..n + 1], outcomes[..n], source, now);
      forall i | 0 <= i < n
        ensures Stepped(batch[i], states[i], states[i + 1], source, now, outcomes[i])
      {
        assert batch[..n][i] == batch[i] && outcomes[..n][i] == outcomes[i];
        assert states[..n + 1][i] == states[i] && states[..n + 1][i + 1] == states[i + 1];
      }
    }
  }

  /** What `handleMessage` gives for each message of a batch, their tools having
      answered `outcomes`. */
  function Answers(batch: seq<Json>, outcomes: seq<Result<Json>>, stringify: Json -> string): (r: seq<Outcome>)
    requires |outcomes| == |batch|
    ensures |r| == |batch|
  {
    if |batch| == 0 then []
    else
      var n := |batch| - 1;
      Answers(batch[..n], outcomes[..n], stringify) + [ReplyTo(batch[n], outcomes[n], stringify)]
  }

  /** The replies among some answers, in order. */
  function Kept(answers: seq<Outcome>): (r: seq<Json>)
    ensures |r| <= |answers|
  {
    if |answers| == 0 then []
    else
      var n := |answers| - 1;
      Kept(answers[..n]) + (if answers[n].Replied? then [answers[n].reply] else [])
  }

  /** The first throw among some answers. */
  function FirstFailure(answers: seq<Outcome>): Option<string> {
    if |answers| == 0 then None
    else
      var n := |answers| - 1;
      var earlier := FirstFailure(answers[..n]);
      if earlier.Some? then earlier else if answers[n].Failed? then Some(answers[n].message) else None
  }

  /** The replies a batch gets when its messages' tools answered `outcomes`. */
  function RepliesTo(batch: seq<Json>, outcomes: seq<Result<Json>>, stringify: Json -> string): (r: seq<Json>)
    requires |outcomes| == |batch|
    ensures |r| <= |batch|
  {
    Kept(Answers(batch, outcomes, stringify))
  }

  /** Each message of a batch gets its own answer. */
  lemma {:induction false} AnswersEach(batch: seq<Json>, outcomes: seq<Result<Json>>, stringify: Json -> string)
    requires |outcomes| == |batch|
    ensures forall j :: 0 <= j < |batch| ==> Answers(batch, outcomes, stringify)[j] == ReplyTo(batch[j], outcomes[j], stringify)
  {
    if |batch| > 0 {
      var n := |batch| - 1;
      AnswersEach(batch[..n], outcomes[..n], stringify);
      forall j | 0 <= j < n
        ensures Answers(batch, outcomes, stringify)[j] == ReplyTo(batch[j], outcomes[j], stringify)
      {
        assert batch[..n][j] == batch[j] && outcomes[..n][j] == outcomes[j];
      }
    }
  }

  /** `answers` are what `handleMessage` gave for the first `n` messages of a
      batch, one message at a time. */
  ghost predicate Answered(batch: seq<Json>, n: nat, outcomes: seq<Result<Json>>, answers: seq<Outcome>,
                           stringify: Json -> string)
  {
    && n <= |batch| && |outcomes| == n && |answers| == n
    && (n > 0 ==>
          && Answered(batch, n - 1, outcomes[..n - 1], answers[..n - 1], stringify)
          && answers[n - 1] == ReplyTo(batch[n - 1], outcomes[n - 1], stringify))
  }

  /** Answers given one message at a time are the batch's answers. */
  lemma {:induction false} AnsweredAll(batch: seq<Json>, n: nat, outcomes: seq<Result<Json>>, answers: seq<Outcome>,
                                       stringify: Json -> string)
    requires Answered(batch, n, outcomes, answers, stringify)
    ensures answers == Answers(batch[..n], outcomes, stringify)
  {
    if n > 0 {
      AnsweredAll(batch, n - 1, outcomes[..n - 1], answers[..n - 1], stringify);
      assert batch[..n][..n - 1] == batch[..n - 1] && batch[..n][n - 1] == batch[n - 1];
      assert Answers(batch[..n], outcomes, stringify) == answers[..n - 1] + [ReplyTo(batch[n - 1], outcomes[n - 1], stringify)];
      assert answers == answers[..n - 1] + [answers[n - 1]];
    }
  }

  /** The ids of some replies. */
  function IdsOf(replies: seq<Json>): (r: seq<Json>)
    ensures |r| == |replies|
  {
    if |replies| == 0 then []
    else IdsOf(replies[..|replies| - 1]) + [Get(replies[|replies| - 1], "id").GetOr(JNull)]
  }

  /** One more message of a batch: it adds its id when it gets a reply. */
  lemma RepliedIdsStep(batch: seq<Json>, i: nat)
    requires i < |batch|
    ensures RepliedIds(batch[..i + 1]) == RepliedIds(batch[..i]) +
      (if Route(batch[i]).Answer? || Route(batch[i]).Call? then [MessageId(batch[i]).value] else [])
    ensures FirstReject(batch[..i + 1]) ==
      if FirstReject(batch[..i]).Some? then FirstReject(batch[..i])
      else if Route(batch[i]).Reject? then Some(Route(batch[i]).message) else None
  {
    assert batch[..i + 1][..i] == batch[..i];
  }

  /** A JSON-RPC 2.0 message. */
  predicate Rpc(j: Json) {
    Get(j, "jsonrpc") == Some(JStr("2.0"))
  }

  /** Keeping the replies of answers that are all JSON-RPC 2.0 messages. */
  lemma {:induction false} KeptRpc(answers: seq<Outcome>)
    requires forall j :: 0 <= j < |answers| && answers[j].Replied? ==> Rpc(answers[j].reply)
    ensures forall j :: 0 <= j < |Kept(answers)| ==> Rpc(Kept(answers)[j])
  {
    if |answers| > 0 {
      var n := |answers| - 1;
      KeptRpc(answers[..n]);
      assert forall j :: 0 <= j < n ==> answers[..n][j] == answers[j];
    }
  }

  /** Every reply of a batch is a JSON-RPC 2.0 message. */
  lemma RepliesAreRpc(batch: seq<Json>, outcomes: seq<Result<Json>>, stringify: Json -> string)
    requires |outcomes| == |batch|
    ensures var r := RepliesTo(batch, outcomes, stringify);
      forall j :: 0 <= j < |r| ==> Rpc(r[j])
  {
    var answers := Answers(batch, outcomes, stringify);
    AnswersEach(batch, outcomes, stringify);
    forall j | 0 <= j < |answers| && answers[j].Replied?
      ensures Rpc(answers[j].reply)
    {
      assert Envelope(answers[j].reply, MessageId(batch[j]).value);
    }
    KeptRpc(answers);
  }

  /** The replies of a batch carry the ids of the messages that get one, in order,
      and its first throw is that of its first rejected message. */
  lemma {:induction false} RepliesCarryIds(batch: seq<Json>, outcomes: seq<Result<Json>>, stringify: Json -> string)
    requires |outcomes| == |batch|
    ensures IdsOf(RepliesTo(batch, outcomes, stringify)) == RepliedIds(batch)
    ensures FirstFailure(Answers(batch, outcomes, stringify)) == FirstReject(batch)
  {
    if |batch| > 0 {
      var n := |batch| - 1;
      var earlier := Answers(batch[..n], outcomes[..n], stringify);
      var init := Kept(earlier);
      RepliesCarryIds(batch[..n], outcomes[..n], stringify);
      var o := ReplyTo(batch[n], outcomes[n], stringify);
      var answers := earlier + [o];
      assert Answers(batch, outcomes, stringify) == answers;
      assert answers[..n] == earlier;
      assert Kept(answers) == init + (if o.Replied? then [o.reply] else []);
      assert RepliedIds(batch) == RepliedIds(batch[..n]) + (if o.Replied? then [MessageId(batch[n]).value] else []);
      if o.Replied? {
        assert (init + [o.reply])[..|init|] == init;
        assert IdsOf(init + [o.reply]) == IdsOf(init) + [MessageId(batch[n]).value];
      } else {
        assert init + [] == init;
      }
    }
  }

  /** A message gets a reply: it is a request, not a notification, and does not throw. */
  predicate GetsReply(msg: Json) {
    Route(msg).Answer? || Route(msg).Call?
  }

  /** `Promise.all` over a batch, run in order: every message is handled; the
      non-null replies are kept in order; the first throw, if any, is reported.
      `states[i]` are the tables before message `i` and `outcomes[i]` its tool's
      answer. */
  method HandleBatch(db: Database, bucket: Bucket, ids: IdGen, batch: seq<Json>, now: int,
                     fts: Option<string> -> Result<seq<Idea>>, stringify: Json -> string)
    returns (replies: seq<Json>, failure: Option<string>, ghost outcomes: seq<Result<Json>>, ghost states: seq<Tables>)
    requires db.Valid()
    modifies db, bucket, ids
    ensures db.Valid()
    ensures Traced(batch, states, outcomes, ids.source, now)
    ensures states[0] == old(Snap(db, bucket, ids)) && states[|batch|] == Snap(db, bucket, ids)
    ensures replies == RepliesTo(batch, outcomes, stringify)
    ensures failure == FirstReject(batch)
    ensures db.media == old(db.media)
    ensures db.clients == old(db.clients) && db.codes == old(db.codes) && db.tokens == old(db.tokens)
  {
    replies, failure, outcomes, states := [], None, [], [Snap(db, bucket, ids)];
    ghost var answers: seq<Outcome> := [];
    for i := 0 to |batch|
      invariant db.Valid()
      invariant Traced(batch[..i], states, outcomes, ids.source, now)
      invariant states[0] == old(Snap(db, bucket, ids)) && states[i] == Snap(db, bucket, ids)
      invariant Answered(batch, i, outcomes, answers, stringify)
      invariant replies == Kept(answers) && failure == FirstFailure(answers)
      invariant db.media == old(db.media)
      invariant db.clients == old(db.clients) && db.codes == old(db.codes) && db.tokens == old(db.tokens)
    {
      replies, failure, states, outcomes, answers :=
        HandleOne(db, bucket, ids, batch, i, now, fts, stringify, replies, failure, states, outcomes, answers);
    }
    assert batch[..|batch|] == batch;
    AnsweredAll(batch, |batch|, outcomes, answers, stringify);
    RepliesCarryIds(batch, outcomes, stringify);
  }

  /** `handleMessage` as one step of a batch. */
  method Step(db: Database, bucket: Bucket, ids: IdGen, msg: Json, now: int,
              fts: Option<string> -> Result<seq<Idea>>, stringify: Json -> string)
    returns (r: Outcome, ghost outcome: Result<Json>)
    requires db.Valid()
    modifies db, bucket, ids
    ensures db.Valid()
    ensures r == ReplyTo(msg, outcome, stringify)
    ensures Stepped(msg, old(Snap(db, bucket, ids)), Snap(db, bucket, ids), ids.source, now, outcome)
    ensures db.media == old(db.media)
    ensures db.clients == old(db.clients) && db.codes == old(db.codes) && db.tokens == old(db.tokens)
  {
    ToolGroups();
    r, outcome := HandleMessage(db, bucket, ids, msg, now, fts, stringify);
  }

  /** A trace grows by one step. */
  lemma TraceStep(batch: seq<Json>, i: nat, states: seq<Tables>, outcomes: seq<Result<Json>>, after: Tables,
                  outcome: Result<Json>, source: nat -> string, now: int)
    requires i < |batch| && Traced(batch[..i], states, outcomes, source, now)
    requires Stepped(batch[i], states[i], after, source, now, outcome)
    ensures Traced(batch[..i + 1], states + [after], outcomes + [outcome], source, now)
  {
    assert batch[..i + 1][..i] == batch[..i] && (outcomes + [outcome])[..i] == outcomes;
    assert (states + [after])[..i + 1] == states;
  }

  /** Answers grow by one answer. */
  lemma AnswerStep(batch: seq<Json>, i: nat, outcomes: seq<Result<Json>>, answers: seq<Outcome>,
                   outcome: Result<Json>, r: Outcome, stringify: Json -> string)
    requires i < |batch| && Answered(batch, i, outcomes, answers, stringify)
    requires r == ReplyTo(batch[i], outcome, stringify)
    ensures Answered(batch, i + 1, outcomes + [outcome], answers + [r], stringify)
  {
    assert (outcomes + [outcome])[..i] == outcomes && (answers + [r])[..i] == answers;
  }

  /** One more answer adds its reply, if any, and its throw unless an earlier
      answer threw. */
  lemma KeptStep(answers: seq<Outcome>, r: Outcome)
    ensures Kept(answers + [r]) == Kept(answers) + (if r.Replied? then [r.reply] else [])
    ensures FirstFailure(answers + [r]) ==
      if FirstFailure(answers).None? && r.Failed? then Some(r.message) else FirstFailure(answers)
  {
    assert (answers + [r])[..|answers|] == answers;
  }

  /** `handleMessage` on message `i` of a batch: its reply is added to the
      replies so far and its throw recorded unless an earlier one was; the batch's
      trace and answers grow by its own. */
  method HandleOne(db: Database, bucket: Bucket, ids: IdGen, batch: seq<Json>, i: nat, now: int,
                   fts: Option<string> -> Result<seq<Idea>>, stringify: Json -> string,
                   replies: seq<Json>, failure: Option<string>,
                   ghost states: seq<Tables>, ghost outcomes: seq<Result<Json>>, ghost answers: seq<Outcome>)
    returns (replies1: seq<Json>, failure1: Option<string>,
             ghost states1: seq<Tables>, ghost outcomes1: seq<Result<Json>>, ghost answers1: seq<Outcome>)
    requires db.Valid() && i < |batch|
    requires Traced(batch[..i], states, outcomes, ids.source, now) && states[i] == Snap(db, bucket, ids)
    requires Answered(batch, i, outcomes, answers, stringify)
    requires replies == Kept(answers) && failure == FirstFailure(answers)
    modifies db, bucket, ids
    ensures db.Valid()
    ensures Traced(batch[..i + 1], states1, outcomes1, ids.source, now)
    ensures states1[0] == states[0] && states1[i + 1] == Snap(db, bucket, ids)
    ensures Answered(batch, i + 1, outcomes1, answers1, stringify)
    ensures replies1 == Kept(answers1) && failure1 == FirstFailure(answers1)
    ensures db.media == old(db.media)
    ensures db.clients == old(db.clients) && db.codes == old(db.codes) && db.tokens == old(db.tokens)
  {
    var r;
    ghost var outcome;
    r, outcome := Step(db, bucket, ids, batch[i], now, fts, stringify);
    TraceStep(batch, i, states, outcomes, Snap(db, bucket, ids), outcome, ids.source, now);
    AnswerStep(batch, i, outcomes, answers, outcome, r, stringify);
    KeptStep(answers, r);
    replies1, failure1 := replies, failure;
    if r.Replied? {
      replies1 := replies + [r.reply];
    }
    if r.Failed? && failure.None? {
      failure1 := Some(r.message);
    }
    states1, outcomes1, answers1 := states + [Snap(db, bucket, ids)], outcomes + [outcome], answers + [r];
  }

  /** `handleMcpRequest`: an unparsable body is a -32700 error with a null id and
      status 400; a batch is answered with the array of its replies, or 202 and
      no body when there are none; a single message likewise. A message that
      throws makes the request fail. */
  method HandleRequest(db: Database, bucket: Bucket, ids: IdGen, body: Option<Json>, now: int,
                       fts: Option<string> -> Result<seq<Idea>>, stringify: Json -> string)
    returns (r: Response, ghost outcomes: seq<Result<Json>>, ghost states: seq<Tables>)
    requires db.Valid()
    modifies db, bucket, ids
    ensures db.Valid()
    ensures body.None? ==> r == JsonReply(RpcError(JNull, -32700, "Parse error"), 400)
    ensures body.Some? && body.value.JArr? ==>
      var batch := body.value.items;
      && Traced(batch, states, outcomes, ids.source, now)
      && states[0] == old(Snap(db, bucket, ids)) && states[|batch|] == Snap(db, bucket, ids)
      && (FirstReject(batch).Some? ==> r == Thrown(FirstReject(batch).value))
      && (FirstReject(batch).None? && RepliedIds(batch) == [] ==> r == Reply(202, NoBody))
      && (FirstReject(batch).None? && RepliedIds(batch) != [] ==>
            r == JsonReply(JArr(RepliesTo(batch, outcomes, stringify)), 200))
    ensures body.Some? && !body.value.JArr? ==>
      var msg := body.value;
      && |outcomes| == 1
      && var one := ReplyTo(msg, outcomes[0], stringify);
      && (one.NoReply? ==> r == Reply(202, NoBody))
      && (one.Failed? ==> r == Thrown(one.message))
      && (one.Replied? ==> r == JsonReply(one.reply, 200))
      && (Route(msg).Call? ==>
            Executed(Route(msg).name, Route(msg).args, now, fts, old(Snap(db, bucket, ids)), db, bucket, ids, outcomes[0]))
      && (!Route(msg).Call? ==> Snap(db, bucket, ids) == old(Snap(db, bucket, ids)))
    ensures body.None? ==> Snap(db, bucket, ids) == old(Snap(db, bucket, ids))
    ensures db.media == old(db.media)
    ensures db.clients == old(db.clients) && db.codes == old(db.codes) && db.tokens == old(db.tokens)
  {
    outcomes, states := [], [Snap(db, bucket, ids)];
    if body.None? {
      return JsonReply(RpcError(JNull, -32700, "Parse error"), 400), outcomes, states;
    }
    var msg := body.value;
    if msg.JArr? {
      var replies, failure;
      replies, failure, outcomes, states := HandleBatch(db, bucket, ids, msg.items, now, fts, stringify);
      RepliesCarryIds(msg.items, outcomes, stringify);
      if failure.Some? {
        return Thrown(failure.value), outcomes, states;
      }
      if |replies| == 0 {
        return Reply(202, NoBody), outcomes, states;
      }
      return JsonReply(JArr(replies), 200), outcomes, states;
    }
    var one;
    ghost var o;
    one, o := HandleMessage(db, bucket, ids, msg, now, fts, stringify);
    outcomes, states := [o], states + [Snap(db, bucket, ids)];
    match one
    case NoReply => r := Reply(202, NoBody);
    case Failed(m) => r := Thrown(m);
    case Replied(j) => r := JsonReply(j, 200);
  }
}
