/**
 * The chat routes: sending a message (with the conversation so far) to the
 * model, reading the stored history, and saving it.
 */
module ChatHandler {
  import opened Wrappers
  import opened Json
  import opened Http

  const MessagePath := "/api/v1/chat/message"
  const HistoryPath := "/api/v1/chat/history"
  const DefaultModel := "gemini-pro"
  const DefaultTemperature: real := 0.7
  const MaxOutputTokens: nat := 2048

  /** One history item in the model's format: only the role "user" stays "user". */
  function ToContent(entry: HistoryEntry): Content
  {
    Content(if entry.role == Given("user") then "user" else "model", [Part(entry.content)])
  }

  /** `history?.map(...) || []` */
  function GeminiHistory(history: Field<seq<HistoryEntry>>): (contents: seq<Content>)
    ensures !history.Given? ==> contents == []
    ensures history.Given? ==> |contents| == |history.value|
  {
    match history
    case Given(h) => seq(|h|, i requires 0 <= i < |h| => ToContent(h[i]))
    case _ => []
  }

  /**
   * The history conversion keeps length and order, maps a role to "user"
   * exactly when it is "user" and to "model" otherwise, and wraps the
   * content as the single text part; a missing or null history is empty.
   */
  lemma HistoryMapping(history: Field<seq<HistoryEntry>>)
    ensures !history.Given? ==> GeminiHistory(history) == []
    ensures history.Given? ==> |GeminiHistory(history)| == |history.value|
    ensures history.Given? ==> forall i :: 0 <= i < |history.value| ==>
      (GeminiHistory(history)[i].role == "user" <==> history.value[i].role == Given("user")) &&
      (GeminiHistory(history)[i].role != "user" ==> GeminiHistory(history)[i].role == "model") &&
      GeminiHistory(history)[i].parts == [Part(history.value[i].content)]
  {
  }

  /** Converting a longer history converts the shorter one first. */
  lemma HistoryAppend(h1: seq<HistoryEntry>, h2: seq<HistoryEntry>)
    ensures GeminiHistory(Given(h1 + h2)) == GeminiHistory(Given(h1)) + GeminiHistory(Given(h2))
  {
  }

  /** The chat request for a message, with the body's model and temperature or their defaults */
  function ChatCall(body: Body): (call: ModelCall)
    requires Truthy(body.message)
    ensures call.SendChat? && call.message == body.message.value && call.message != ""
    ensures call.maxOutputTokens == MaxOutputTokens
    ensures call.history == GeminiHistory(body.history)
    ensures body.model.Absent? ==> call.model == Given(DefaultModel)
    ensures !body.model.Absent? ==> call.model == body.model
    ensures body.temperature.Absent? ==> call.temperature == Given(DefaultTemperature)
    ensures !body.temperature.Absent? ==> call.temperature == body.temperature
  {
    SendChat(WithDefault(body.model, DefaultModel), GeminiHistory(body.history),
             WithDefault(body.temperature, DefaultTemperature), MaxOutputTokens, body.message.value)
  }

  /** A token count as a JSON number; a missing count is `undefined` */
  function CountValue(n: Option<nat>): Option<Value>
  {
    if n.Some? then Some(Num(n.value as real)) else None
  }

  /**
   * `usage: { promptTokens, completionTokens, totalTokens }`, dropping the
   * missing counts: each member holds the service's count when it reported
   * one, and all are missing when it reported no usage at all.
   */
  function UsageMembers(usage: Option<Usage>): (members: seq<(string, Value)>)
    ensures usage.None? ==> members == []
    ensures usage.Some? ==> Lookup(members, "promptTokens") == CountValue(usage.value.promptTokenCount)
    ensures usage.Some? ==> Lookup(members, "completionTokens") == CountValue(usage.value.candidatesTokenCount)
    ensures usage.Some? ==> Lookup(members, "totalTokens") == CountValue(usage.value.totalTokenCount)
    ensures |members| <= 3
  {
    match usage
    case None => []
    case Some(u) =>
      var total := EchoOption("totalTokens", CountValue(u.totalTokenCount));
      var completion := EchoOption("completionTokens", CountValue(u.candidatesTokenCount));
      var prompt := EchoOption("promptTokens", CountValue(u.promptTokenCount));
      LookupPastEcho("totalTokens", CountValue(u.totalTokenCount), [], "totalTokens");
      LookupPastEcho("completionTokens", CountValue(u.candidatesTokenCount), total, "completionTokens");
      LookupPastEcho("completionTokens", CountValue(u.candidatesTokenCount), total, "totalTokens");
      LookupPastEcho("promptTokens", CountValue(u.promptTokenCount), completion + total, "promptTokens");
      LookupPastEcho("promptTokens", CountValue(u.promptTokenCount), completion + total, "completionTokens");
      LookupPastEcho("promptTokens", CountValue(u.promptTokenCount), completion + total, "totalTokens");
      assert total + [] == total;
      assert prompt + completion + total == prompt + (completion + total);
      prompt + completion + total
  }

  /** The 200 reply carrying the model's answer as an assistant message */
  function ChatReply(text: string, usage: Option<Usage>, clock: Clock): (r: Response)
    ensures r.status == 200 && r.payload.JsonPayload?
    ensures Get(r.payload.value, "success") == Some(Bool(true))
    ensures Get2(r.payload.value, "message", "role") == Some(Str("assistant"))
    ensures Get2(r.payload.value, "message", "content") == Some(Str(text))
    ensures Get(r.payload.value, "usage") == Some(Obj(UsageMembers(usage)))
    ensures usage.Some? ==> Get2(r.payload.value, "usage", "promptTokens") == CountValue(usage.value.promptTokenCount)
    ensures (usage.Some? ==>
              Get2(r.payload.value, "usage", "completionTokens") == CountValue(usage.value.candidatesTokenCount))
    ensures usage.Some? ==> Get2(r.payload.value, "usage", "totalTokens") == CountValue(usage.value.totalTokenCount)
  {
    var message := [("role", Str("assistant")), ("content", Str(text)), ("timestamp", Str(clock.iso))];
    var members := [("success", Bool(true)), ("message", Obj(message)), ("usage", Obj(UsageMembers(usage)))];
    LookupAt(members, 1, "message");
    LookupAt(message, 1, "content");
    LookupAt(members, 2, "usage");
    Response(200, JsonPayload(Obj(members)))
  }

  /** `handleMessage(req, res)` for a request with a body */
  function HandleMessage(body: Body, client: Client, clock: Clock): (o: Outcome)
    ensures o.modelCall.Some? <==> Truthy(body.message)
    ensures !Truthy(body.message) ==> o == Reply(BadRequest("Message is required"))
    ensures Truthy(body.message) ==> o.modelCall == Some(ChatCall(body))
    ensures Truthy(body.message) && client(ChatCall(body)).Failed? ==>
      o.response == Some(ServiceError("Failed to generate response"))
    ensures Truthy(body.message) && client(ChatCall(body)).Generated? ==>
      o.response == Some(ChatReply(client(ChatCall(body)).text, client(ChatCall(body)).usage, clock))
  {
    if !Truthy(body.message) then Reply(BadRequest("Message is required"))
    else
      var call := ChatCall(body);
      Outcome(Some(call), Some(
        match client(call)
        case Failed => ServiceError("Failed to generate response")
        case Generated(text, usage) => ChatReply(text, usage, clock)))
  }

  /** `handleHistory(req, res)`: always an empty history, echoing the `userId` query parameter */
  function HandleHistory(req: Request): (r: Response)
    ensures r.status == 200 && r.payload.JsonPayload?
    ensures Get(r.payload.value, "history") == Some(Arr([]))
    ensures ("userId" in req.query) == Get(r.payload.value, "userId").Some?
    ensures "userId" in req.query ==> Get(r.payload.value, "userId") == Some(Str(req.query["userId"]))
  {
    var userId := if "userId" in req.query then Given(req.query["userId"]) else Absent;
    var members := [("success", Bool(true)), ("history", Arr([]))] + Echo("userId", userId);
    LookupAt(members, 1, "history");
    var r := Response(200, JsonPayload(Obj(members)));
    if userId.Given? then LookupAt(members, 2, "userId"); r
    else LookupMissing(members, "userId"); r
  }

  /** `handleSaveHistory(req, res)`: nothing is stored; both members must be present. */
  function HandleSaveHistory(body: Body): (r: Response)
    ensures r.status == 400 <==> !Truthy(body.userId) || !body.history.Given?
    ensures r.status != 400 ==> r.status == 200
    ensures r.status == 400 ==> r == BadRequest("userId and history are required")
    ensures r.status == 200 ==> r.payload.JsonPayload? && Get(r.payload.value, "userId") == Some(Str(body.userId.value))
  {
    if !Truthy(body.userId) || !body.history.Given? then BadRequest("userId and history are required")
    else
      var members := [("success", Bool(true)), ("message", Str("History saved successfully")),
                      ("userId", Str(body.userId.value))];
      LookupAt(members, 2, "userId");
      Response(200, JsonPayload(Obj(members)))
  }

  /** `chatHandler(req, res)` */
  function Handle(req: Request, client: Client, clock: Clock): (o: Outcome)
    ensures SubPath(req.url) != Some(MessagePath) && SubPath(req.url) != Some(HistoryPath) ==>
      o == Reply(NotFound("Chat endpoint not found"))
    ensures SubPath(req.url) == Some(MessagePath) && req.httpMethod != "POST" ==> o == NoReply
    ensures SubPath(req.url) == Some(HistoryPath) && req.httpMethod != "GET" && req.httpMethod != "POST" ==> o == NoReply
    ensures SubPath(req.url) == Some(HistoryPath) && req.httpMethod == "GET" ==> o == Reply(HandleHistory(req))
    ensures ((SubPath(req.url) == Some(MessagePath) || SubPath(req.url) == Some(HistoryPath)) &&
             req.httpMethod == "POST" && req.body.None?) ==> o == Reply(OperationFailed("Chat operation failed"))
    ensures SubPath(req.url) == Some(MessagePath) && req.httpMethod == "POST" && req.body.Some? ==>
      o == HandleMessage(req.body.value, client, clock)
    ensures SubPath(req.url) == Some(HistoryPath) && req.httpMethod == "POST" && req.body.Some? ==>
      o == Reply(HandleSaveHistory(req.body.value))
  {
    var path := SubPath(req.url);
    if path == Some(MessagePath) then
      if req.httpMethod == "POST" then WithBody(req, "Chat operation failed", b => HandleMessage(b, client, clock)) else NoReply
    else if path == Some(HistoryPath) then
      if req.httpMethod == "GET" then Reply(HandleHistory(req))
      else if req.httpMethod == "POST" then WithBody(req, "Chat operation failed", b => Reply(HandleSaveHistory(b)))
      else NoReply
    else Reply(NotFound("Chat endpoint not found"))
  }
}
