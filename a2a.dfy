/**
 * The A2A client: the agent-card request, the JSON-RPC `tasks/send`
 * envelope, the resolution of the agent's reply into text, and the
 * `A2AServerConfig` adapter. HTTP is a function from request to response
 * given by the caller; a response carries its status code, its body text
 * and its body decoded as JSON (`None` when the body is not JSON).
 */
module A2A {
  import opened Wrappers
  import PyInt
  import opened Text

  /** A decoded JSON value. Numbers are integers here. */
  datatype Json =
    | JNull
    | JBool(b: bool)
    | JNum(n: int)
    | JStr(s: string)
    | JArr(items: seq<Json>)
    | JObj(fields: map<string, Json>)

  datatype Request =
    | Get(url: string, headers: map<string, string>)
    | Post(url: string, payload: Json)

  datatype HttpResponse = HttpResponse(statusCode: int, text: string, json: Option<Json>)

  /** Why a call fails: the two `RuntimeError`s, a body that is not JSON, or a value of the wrong shape. */
  datatype Failure =
    | CardFetchFailed(status: int)
    | TaskRequestFailed(status: int, body: string)
    | InvalidJson
    | Malformed

  const NoMessagesReply: string := "No messages in response!"
  const IncompletePrefix: string := "Task did not complete. Status: "

  function CardUrl(baseUrl: string): string { baseUrl + "/.well-known/agent.json" }
  function TasksSendUrl(baseUrl: string): string { baseUrl + "/tasks/send" }

  /** The message of the `RuntimeError`s raised on a bad status code. */
  function Describe(f: Failure): string {
    match f
    case CardFetchFailed(code) => "Failed to get agent card: " + PyInt.Show(code)
    case TaskRequestFailed(code, body) => "Task request failed: " + PyInt.Show(code) + ", " + body
    case InvalidJson => "body is not JSON"
    case Malformed => "unexpected value in response"
  }

  /** Python truthiness of a JSON value. */
  predicate Truthy(j: Json) {
    match j
    case JNull => false
    case JBool(b) => b
    case JNum(n) => n != 0
    case JStr(s) => s != ""
    case JArr(xs) => xs != []
    case JObj(m) => m != map[]
  }

  /** `j.get(key, default)`, which fails unless `j` is a dict. */
  function GetOr(j: Json, key: string, default: Json): Result<Json, Failure> {
    if j.JObj? then Ok(if key in j.fields then j.fields[key] else default) else Err(Malformed)
  }

  // ---------------------------------------------------------------- envelope

  datatype TaskEnvelope = TaskEnvelope(taskId: string, sessionId: string, userText: string)

  function TextPart(text: string): Json {
    JObj(map["type" := JStr("text"), "text" := JStr(text)])
  }

  function UserMessage(text: string): Json {
    JObj(map["role" := JStr("user"), "parts" := JArr([TextPart(text)])])
  }

  function TaskParams(e: TaskEnvelope): Json {
    JObj(map[
      "id" := JStr(e.taskId),
      "sessionId" := JStr(e.sessionId),
      "acceptedOutputModes" := JArr([JStr("text")]),
      "message" := UserMessage(e.userText)])
  }

  /** The JSON-RPC request posted to `tasks/send`. */
  function Envelope(e: TaskEnvelope): Json {
    JObj(map[
      "jsonrpc" := JStr("2.0"),
      "id" := JStr(e.taskId),
      "method" := JStr("tasks/send"),
      "params" := TaskParams(e)])
  }

  /** The user text of a message holding exactly one text part, and nothing else. */
  function ReadUserMessage(j: Json): Option<string> {
    if j.JObj? && j.fields.Keys == {"role", "parts"} && j.fields["role"] == JStr("user")
       && j.fields["parts"].JArr? && |j.fields["parts"].items| == 1
    then
      var p := j.fields["parts"].items[0];
      if p.JObj? && p.fields.Keys == {"type", "text"} && p.fields["type"] == JStr("text") && p.fields["text"].JStr?
      then Some(p.fields["text"].s) else None
    else None
  }

  /**
   * Reads a `tasks/send` request back: version "2.0", method "tasks/send",
   * the request id equal to the task id, text as the only output mode and a
   * user message with a single text part.
   */
  function ReadEnvelope(j: Json): Option<TaskEnvelope> {
    if j.JObj? && j.fields.Keys == {"jsonrpc", "id", "method", "params"}
       && j.fields["jsonrpc"] == JStr("2.0") && j.fields["method"] == JStr("tasks/send")
       && j.fields["id"].JStr?
    then
      var params := j.fields["params"];
      if params.JObj? && params.fields.Keys == {"id", "sessionId", "acceptedOutputModes", "message"}
         && params.fields["id"] == j.fields["id"] && params.fields["sessionId"].JStr?
         && params.fields["acceptedOutputModes"] == JArr([JStr("text")])
      then
        match ReadUserMessage(params.fields["message"])
        case None => None
        case Some(text) => Some(TaskEnvelope(j.fields["id"].s, params.fields["sessionId"].s, text))
      else None
    else None
  }

  lemma EnvelopeRoundTrip(e: TaskEnvelope)
    ensures ReadEnvelope(Envelope(e)) == Some(e)
  {
    var p := TextPart(e.userText);
    assert p.fields.Keys == {"type", "text"};
    assert UserMessage(e.userText).fields.Keys == {"role", "parts"};
    assert ReadUserMessage(UserMessage(e.userText)) == Some(e.userText);
    assert TaskParams(e).fields.Keys == {"id", "sessionId", "acceptedOutputModes", "message"};
    assert Envelope(e).fields.Keys == {"jsonrpc", "id", "method", "params"};
  }

  lemma ReadUserMessageExact(j: Json, text: string)
    requires ReadUserMessage(j) == Some(text)
    ensures j == UserMessage(text)
  {
    var p := j.fields["parts"].items[0];
    assert p.fields == TextPart(text).fields;
    assert j.fields["parts"] == JArr([TextPart(text)]);
    assert j.fields == UserMessage(text).fields;
  }

  /** Only the envelope of `e` reads back as `e`: the request format has no other members or variants. */
  lemma ReadEnvelopeExact(j: Json, e: TaskEnvelope)
    requires ReadEnvelope(j) == Some(e)
    ensures j == Envelope(e)
  {
    var params := j.fields["params"];
    ReadUserMessageExact(params.fields["message"], e.userText);
    assert params.fields == TaskParams(e).fields;
    assert j.fields == Envelope(e).fields;
  }

  // ---------------------------------------------------------------- reply text

  /** What one iteration of the parts loop appends, or the error it raises. */
  function PartText(p: Json): Result<string, Failure> {
    match p
    case JObj(m) =>
      if "text" in m then (if m["text"].JStr? then Ok(m["text"].s) else Err(Malformed)) else Ok("")
    case JStr(s) => if Contains(s, "text") then Err(Malformed) else Ok("")
    case JArr(xs) => if JStr("text") in xs then Err(Malformed) else Ok("")
    case _ => Err(Malformed)
  }

  /** The parts loop over a list, as a fold from the left. */
  function PartsText(parts: seq<Json>): Result<string, Failure>
    decreases |parts|
  {
    if parts == [] then Ok("")
    else
      match PartsText(parts[..|parts| - 1])
      case Err(e) => Err(e)
      case Ok(acc) =>
        match PartText(parts[|parts| - 1])
        case Err(e) => Err(e)
        case Ok(t) => Ok(acc + t)
  }

  /** The `text` a part contributes: a dict part's string `text`, else nothing. */
  function TextOf(p: Json): string {
    if p.JObj? && "text" in p.fields && p.fields["text"].JStr? then p.fields["text"].s else ""
  }

  /** The in-order concatenation of the parts' texts. */
  function Concat(parts: seq<Json>): string
    decreases |parts|
  {
    if parts == [] then "" else TextOf(parts[0]) + Concat(parts[1..])
  }

  /** A part the loop gets through. */
  predicate PartOk(p: Json) {
    PartText(p).Ok?
  }

  lemma {:induction false} ConcatSnoc(parts: seq<Json>, p: Json)
    ensures Concat(parts + [p]) == Concat(parts) + TextOf(p)
    decreases |parts|
  {
    if parts == [] {
      assert [] + [p] == [p];
      assert [p][1..] == [];
    } else {
      assert (parts + [p])[1..] == parts[1..] + [p];
      ConcatSnoc(parts[1..], p);
    }
  }

  lemma PartTextIsTextOf(p: Json)
    requires PartOk(p)
    ensures PartText(p) == Ok(TextOf(p))
  {
  }

  lemma PartTextFailure(p: Json)
    requires !PartOk(p)
    ensures PartText(p) == Err(Malformed)
  {
  }

  /** All parts are acceptable iff all but the last are and the last is. */
  lemma AllOkSnoc(parts: seq<Json>, init: seq<Json>, last: Json)
    requires parts == init + [last]
    ensures (forall i :: 0 <= i < |parts| ==> PartOk(parts[i]))
        <==> (forall i :: 0 <= i < |init| ==> PartOk(init[i])) && PartOk(last)
  {
    assert forall i :: 0 <= i < |init| ==> PartOk(init[i]) == PartOk(parts[i]);
    assert parts[|init|] == last;
  }

  /**
   * The loop yields the concatenation of the texts of the parts that have
   * one, in order, when every part is acceptable, and fails otherwise.
   */
  lemma {:induction false} PartsTextMeaning(parts: seq<Json>)
    ensures PartsText(parts) == if forall i :: 0 <= i < |parts| ==> PartOk(parts[i]) then Ok(Concat(parts)) else Err(Malformed)
    decreases |parts|
  {
    if parts != [] {
      var init, last := parts[..|parts| - 1], parts[|parts| - 1];
      assert parts == init + [last];
      PartsTextMeaning(init);
      AllOkSnoc(parts, init, last);
      if PartsText(init).Ok? {
        if PartOk(last) {
          ConcatSnoc(init, last);
          PartTextIsTextOf(last);
        } else {
          PartTextFailure(last);
        }
      }
    }
  }

  /** The parts of a message that the loop iterates, and what comes of them; the message must be a dict. */
  function ReplyText(message: Json): Result<string, Failure> {
    match GetOr(message, "parts", JArr([]))
    case Err(e) => Err(e)
    case Ok(parts) =>
      match parts
      case JArr(xs) => PartsText(xs)
      // a string is iterated by characters, and no single character contains "text"
      case JStr(_) => Ok("")
      // a dict is iterated by keys; a key containing "text" is then used as an index into a string
      case JObj(m) => if exists k :: k in m && Contains(k, "text") then Err(Malformed) else Ok("")
      case _ => Err(Malformed)
  }

  /** The `for part in ...` loop accumulating `agent_reply_text`. */
  method JoinPartTexts(parts: seq<Json>) returns (r: Result<string, Failure>)
    ensures r == PartsText(parts)
    ensures (forall i :: 0 <= i < |parts| ==> PartOk(parts[i])) ==> r == Ok(Concat(parts))
    ensures (exists i :: 0 <= i < |parts| && !PartOk(parts[i])) ==> r == Err(Malformed)
  {
    var replyText := "";
    var i := 0;
    while i < |parts|
      invariant 0 <= i <= |parts|
      invariant PartsText(parts[..i]) == Ok(replyText)
    {
      assert parts[..i + 1][..i] == parts[..i];
      match PartText(parts[i])
      case Err(e) =>
        PartsTextErr(parts, i + 1);
        PartsTextMeaning(parts);
        return Err(e);
      case Ok(t) =>
        replyText := replyText + t;
      i := i + 1;
    }
    assert parts[..i] == parts;
    PartsTextMeaning(parts);
    r := Ok(replyText);
  }

  /** Once a prefix of the parts fails, the whole loop fails. */
  lemma {:induction false} PartsTextErr(parts: seq<Json>, n: nat)
    requires n <= |parts| && PartsText(parts[..n]).Err?
    ensures PartsText(parts).Err?
    decreases |parts| - n
  {
    if n < |parts| {
      assert parts[..n + 1][..n] == parts[..n];
      PartsTextErr(parts, n + 1);
    } else {
      assert parts[..n] == parts;
    }
  }

  /** A message with a single text part reads back as that text: the reply an echoing agent would give. */
  lemma EchoedMessageText(text: string)
    ensures ReplyText(UserMessage(text)) == Ok(text)
  {
    var parts := [TextPart(text)];
    assert GetOr(UserMessage(text), "parts", JArr([])) == Ok(JArr(parts));
    assert PartOk(parts[0]) && TextOf(parts[0]) == text;
    PartsTextMeaning(parts);
    assert parts[1..] == [];
    assert Concat(parts) == text + "" == text;
  }

  // ---------------------------------------------------------------- reply resolution

  /** Turns the decoded body of a successful `tasks/send` answer into the reply text. */
  function ResolveReply(taskResponse: Json, show: Json -> string): Result<string, Failure> {
    match GetOr(taskResponse, "result", JObj(map[]))
    case Err(e) => Err(e)
    case Ok(res) =>
      match GetOr(res, "status", JObj(map[]))
      case Err(e) => Err(e)
      case Ok(status) =>
        match GetOr(status, "state", JNull)
        case Err(e) => Err(e)
        case Ok(state) =>
          if state == JStr("completed") then
            match GetOr(res, "messages", JArr([]))
            case Err(e) => Err(e)
            case Ok(messages) =>
              var chosen :=
                if !Truthy(messages) && "status" in res.fields && "message" in status.fields
                then JArr([status.fields["message"]]) else messages;
              if Truthy(chosen) then
                (if chosen.JArr? then ReplyText(chosen.items[|chosen.items| - 1]) else Err(Malformed))
              else Ok(NoMessagesReply)
          else
            Ok(IncompletePrefix + show(if "status" in res.fields then res.fields["status"] else JNull))
  }

  /** The answer's `result` dict, its `status` dict, and that status is `completed`. */
  predicate Completed(taskResponse: Json, res: map<string, Json>, status: map<string, Json>) {
    taskResponse.JObj? && "result" in taskResponse.fields && taskResponse.fields["result"] == JObj(res)
    && "status" in res && res["status"] == JObj(status)
    && "state" in status && status["state"] == JStr("completed")
  }

  /** A completed task with a non-empty `messages` list: the reply is read from its last message. */
  lemma ReplyFromLastMessage(taskResponse: Json, res: map<string, Json>, status: map<string, Json>, show: Json -> string)
    requires Completed(taskResponse, res, status)
    requires "messages" in res && res["messages"].JArr? && res["messages"].items != []
    ensures ResolveReply(taskResponse, show) == ReplyText(res["messages"].items[|res["messages"].items| - 1])
  {
  }

  /** A completed task whose `messages` is empty or absent falls back on `status.message`. */
  lemma ReplyFromStatusMessage(taskResponse: Json, res: map<string, Json>, status: map<string, Json>, show: Json -> string)
    requires Completed(taskResponse, res, status)
    requires "messages" !in res || !Truthy(res["messages"])
    requires "message" in status
    ensures ResolveReply(taskResponse, show) == ReplyText(status["message"])
  {
  }

  /** A completed task with no message anywhere gives the fixed reply. */
  lemma NoMessagesAnywhere(taskResponse: Json, res: map<string, Json>, status: map<string, Json>, show: Json -> string)
    requires Completed(taskResponse, res, status)
    requires "messages" !in res || !Truthy(res["messages"])
    requires "message" !in status
    ensures ResolveReply(taskResponse, show) == Ok(NoMessagesReply)
  {
  }

  /**
   * Any other state, a status without state or no status at all, is
   * reported as text and never raises.
   */
  lemma IncompleteIsReported(taskResponse: Json, res: map<string, Json>, show: Json -> string)
    requires taskResponse.JObj? && "result" in taskResponse.fields && taskResponse.fields["result"] == JObj(res)
    requires "status" in res ==> res["status"].JObj? && ("state" !in res["status"].fields || res["status"].fields["state"] != JStr("completed"))
    ensures ResolveReply(taskResponse, show) == Ok(IncompletePrefix + show(if "status" in res then res["status"] else JNull))
  {
  }

  /** An answer without `result` is treated as an empty result: the task did not complete and its status is None. */
  lemma MissingResultIsIncomplete(taskResponse: Json, show: Json -> string)
    requires taskResponse.JObj? && "result" !in taskResponse.fields
    ensures ResolveReply(taskResponse, show) == Ok(IncompletePrefix + show(JNull))
  {
  }

  /** An agent that completes the task by echoing the posted message back is read as the user's text. */
  lemma EchoedTaskIsUserText(e: TaskEnvelope, show: Json -> string)
    ensures ResolveReply(JObj(map["result" := JObj(map[
              "status" := JObj(map["state" := JStr("completed")]),
              "messages" := JArr([UserMessage(e.userText)])])]), show) == Ok(e.userText)
  {
    var status := JObj(map["state" := JStr("completed")]);
    var messages := JArr([UserMessage(e.userText)]);
    var res := map["status" := status, "messages" := messages];
    assert GetOr(status, "state", JNull) == Ok(JStr("completed"));
    assert GetOr(JObj(res), "messages", JArr([])) == Ok(messages);
    assert Truthy(messages);
    EchoedMessageText(e.userText);
    ReplyFromLastMessage(JObj(map["result" := JObj(res)]), res, status.fields, show);
  }

  // ---------------------------------------------------------------- send_a2a_task

  /** The requests made and the reply returned (or the failure raised). */
  datatype Exchange = Exchange(requests: seq<Request>, reply: Result<string, Failure>)

  /**
   * `send_a2a_task`: fetch the agent card, post the task envelope, resolve the
   * answer. The two uuids are parameters.
   */
  function SendA2aTask(baseUrl: string, userText: string, taskId: string, sessionId: string,
                       fetch: Request -> HttpResponse, show: Json -> string): Exchange
  {
    var cardRequest := Get(CardUrl(baseUrl), map[]);
    var card := fetch(cardRequest);
    if card.statusCode != 200 then Exchange([cardRequest], Err(CardFetchFailed(card.statusCode)))
    else
      var post := Post(TasksSendUrl(baseUrl), Envelope(TaskEnvelope(taskId, sessionId, userText)));
      var answer := fetch(post);
      if answer.statusCode != 200 then
        Exchange([cardRequest, post], Err(TaskRequestFailed(answer.statusCode, answer.text)))
      else
        match answer.json
        case None => Exchange([cardRequest, post], Err(InvalidJson))
        case Some(body) => Exchange([cardRequest, post], ResolveReply(body, show))
  }

  /** A card request that does not answer 200 raises, and no task is posted. */
  lemma CardFailureStopsBeforePost(baseUrl: string, userText: string, taskId: string, sessionId: string,
                                   fetch: Request -> HttpResponse, show: Json -> string)
    requires fetch(Get(CardUrl(baseUrl), map[])).statusCode != 200
    ensures var x := SendA2aTask(baseUrl, userText, taskId, sessionId, fetch, show);
      x.requests == [Get(CardUrl(baseUrl), map[])]
      && x.reply == Err(CardFetchFailed(fetch(Get(CardUrl(baseUrl), map[])).statusCode))
      && forall r :: r in x.requests ==> !r.Post?
  {
  }

  /**
   * Once the card answers 200 exactly one request is posted, to `tasks/send`,
   * and it reads back as this task; a post answered other than 200 raises with
   * its status code and body.
   */
  lemma PostedEnvelope(baseUrl: string, userText: string, taskId: string, sessionId: string,
                       fetch: Request -> HttpResponse, show: Json -> string)
    requires fetch(Get(CardUrl(baseUrl), map[])).statusCode == 200
    ensures var x := SendA2aTask(baseUrl, userText, taskId, sessionId, fetch, show);
      |x.requests| == 2 && x.requests[0] == Get(CardUrl(baseUrl), map[])
      && x.requests[1].Post? && x.requests[1].url == TasksSendUrl(baseUrl)
      && ReadEnvelope(x.requests[1].payload) == Some(TaskEnvelope(taskId, sessionId, userText))
      && var answer := fetch(x.requests[1]);
      (answer.statusCode != 200 ==> x.reply == Err(TaskRequestFailed(answer.statusCode, answer.text)))
      && (answer.statusCode == 200 && answer.json.None? ==> x.reply == Err(InvalidJson))
      && (answer.statusCode == 200 && answer.json.Some? ==> x.reply == ResolveReply(answer.json.value, show))
  {
    var e := TaskEnvelope(taskId, sessionId, userText);
    var post := Post(TasksSendUrl(baseUrl), Envelope(e));
    var x := SendA2aTask(baseUrl, userText, taskId, sessionId, fetch, show);
    assert x.requests == [Get(CardUrl(baseUrl), map[]), post];
    EnvelopeRoundTrip(e);
  }

  // ---------------------------------------------------------------- A2AServerConfig

  /** An A2A agent used as a tool server. */
  class A2AServerConfig {
    var kind: string
    var baseUrl: string
    var headers: map<string, string>
    var name: string

    constructor (baseUrl: string, headers: map<string, string>, name: string)
      ensures kind == "a2a" && this.baseUrl == baseUrl && this.headers == headers && this.name == name
    {
      kind := "a2a";
      this.baseUrl := baseUrl;
      this.headers := headers;
      this.name := name;
    }

    /** The skills listed on the agent card, `[]` when the card lists none. */
    method ListTools(fetch: Request -> HttpResponse) returns (skills: Result<Json, Failure>)
      ensures var response := fetch(Get(CardUrl(baseUrl), headers));
        (response.statusCode != 200 ==> skills == Err(CardFetchFailed(response.statusCode)))
        && (response.statusCode == 200 && response.json.None? ==> skills == Err(InvalidJson))
        && (response.statusCode == 200 && response.json.Some? && !response.json.value.JObj? ==> skills == Err(Malformed))
        && (response.statusCode == 200 && response.json.Some? && response.json.value.JObj? ==>
              skills == Ok(if "skills" in response.json.value.fields then response.json.value.fields["skills"] else JArr([])))
    {
      var response := fetch(Get(CardUrl(baseUrl), headers));
      if response.statusCode != 200 {
        return Err(CardFetchFailed(response.statusCode));
      }
      match response.json
      case None =>
        skills := Err(InvalidJson);
      case Some(card) =>
        skills := GetOr(card, "skills", JArr([]));
    }

    /** Nothing to connect to: the adapter's fields stay as they are. */
    method Connect()
      ensures kind == old(kind) && baseUrl == old(baseUrl) && headers == old(headers) && name == old(name)
    {
    }
  }
}
