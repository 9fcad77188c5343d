/**
 * The request and response shapes shared by the serverless handlers, the
 * JavaScript value rules they depend on (truthiness, destructuring
 * defaults, template interpolation, dropping `undefined` members) and the
 * interface to the generative-model client, whose answers are an input.
 */
module Http {
  import opened Wrappers
  import opened Json
  import Text

  /**
   * A request-body field: missing from the JSON body (`undefined`), sent
   * as JSON `null`, or given.
   */
  datatype Field<+T> = Absent | Null | Given(value: T)

  /** JavaScript truthiness of a string field: only a non-empty string is true. */
  predicate Truthy(f: Field<string>)
  {
    f.Given? && f.value != ""
  }

  /** JavaScript truthiness of a JSON value */
  predicate TruthyValue(v: Value)
  {
    match v
    case Null => false
    case Bool(b) => b
    case Num(n) => n != 0.0
    case Str(s) => s != ""
    case _ => true
  }

  /** `f || fallback` on a string field */
  function OrElse(f: Field<string>, fallback: string): (s: string)
    ensures Truthy(f) ==> s == f.value
    ensures !Truthy(f) ==> s == fallback
  {
    if Truthy(f) then f.value else fallback
  }

  /** `const { f = d } = body`: the default replaces a missing field only. */
  function WithDefault<T>(f: Field<T>, d: T): (g: Field<T>)
    ensures g.Given? || g.Null?
    ensures f.Absent? ==> g == Given(d)
    ensures !f.Absent? ==> g == f
  {
    if f.Absent? then Given(d) else f
  }

  /** `${f}` for a string field */
  function Interp(f: Field<string>): string
  {
    match f
    case Absent => "undefined"
    case Null => "null"
    case Given(s) => s
  }

  /** The member `key: f` of an object literal, as `JSON.stringify` writes it */
  function Echo(key: string, f: Field<string>): seq<(string, Value)>
  {
    match f
    case Absent => []
    case Null => [(key, Json.Null)]
    case Given(s) => [(key, Str(s))]
  }

  /** The JSON value of a field that a default has filled in */
  function ToJson(f: Field<string>): (v: Value)
    requires !f.Absent?
    ensures f.Given? ==> v == Str(f.value)
  {
    if f.Given? then Str(f.value) else Json.Null
  }

  /** `key: v` where `v` may be `undefined` */
  function EchoOption(key: string, v: Option<Value>): seq<(string, Value)>
  {
    match v
    case None => []
    case Some(x) => [(key, x)]
  }

  /** Looking a key up past an optional member: the member itself, or what follows it */
  lemma LookupPastEcho(key: string, v: Option<Value>, rest: seq<(string, Value)>, k: string)
    ensures Lookup(EchoOption(key, v) + rest, k) == if k == key && v.Some? then v else Lookup(rest, k)
  {
    if v.Some? {
      var members := EchoOption(key, v) + rest;
      assert members[0] == (key, v.value) && members[1..] == rest;
    } else {
      assert EchoOption(key, v) + rest == rest;
    }
  }

  /** One element of the chat history a client sends */
  datatype HistoryEntry = HistoryEntry(role: Field<string>, content: Field<string>)

  /**
   * The parsed JSON body, restricted to the members some handler reads.
   * `kind` is the member named `type`.
   */
  datatype Body = Body(
    message: Field<string>,
    history: Field<seq<HistoryEntry>>,
    model: Field<string>,
    temperature: Field<real>,
    userId: Field<string>,
    code: Field<string>,
    language: Field<string>,
    analysisType: Field<string>,
    detailLevel: Field<string>,
    refactorType: Field<string>,
    constraints: Field<seq<string>>,
    screenshot: Field<string>,
    context: Field<Value>,
    kind: Field<string>,
    issue: Field<string>,
    currentCode: Field<string>,
    fixType: Field<string>,
    deviceId: Field<string>,
    token: Field<string>)

  /**
   * A request as the platform hands it over: `url` holds path and query
   * string and may be missing, `query` is the platform's parse of the
   * query string, `body` is None when no body was sent (the platform
   * passes `null`). Header names are lower-case.
   */
  datatype Request = Request(
    httpMethod: string,
    url: Option<string>,
    headers: map<string, string>,
    query: map<string, string>,
    body: Option<Body>)

  /** The clock readings a handler takes: `toISOString()` and `Date.now()` */
  datatype Clock = Clock(iso: string, millis: nat)

  /** What is written after `res.status(...)`: `.end()` or `.json(v)` */
  datatype Payload = NoPayload | JsonPayload(value: Value)

  datatype Response = Response(status: int, payload: Payload)

  /** The message text of a response `{ ..., message: m }` */
  function MessageOf(r: Response): Option<Value>
  {
    if r.payload.JsonPayload? then Get(r.payload.value, "message") else None
  }

  /** `res.status(status).json({ error, message })` */
  function ErrorReply(status: int, error: string, message: string): (r: Response)
    ensures r.status == status && MessageOf(r) == Some(Str(message))
  {
    var members := [("error", Str(error)), ("message", Str(message))];
    assert members[1..] == [("message", Str(message))];
    assert Lookup(members[1..], "message") == Some(Str(message));
    assert Lookup(members, "message") == Some(Str(message));
    Response(status, JsonPayload(Obj(members)))
  }

  function BadRequest(message: string): Response
  {
    ErrorReply(400, "Bad Request", message)
  }

  function NotFound(message: string): Response
  {
    ErrorReply(404, "Not Found", message)
  }

  /** What a sub-router's outer catch sends */
  function OperationFailed(message: string): Response
  {
    ErrorReply(500, "Internal Server Error", message)
  }

  /** What a handler's catch around the model call sends */
  function ServiceError(message: string): Response
  {
    ErrorReply(500, "AI Service Error", message)
  }

  /** One part of a chat message: `{ text }` */
  datatype Part = Part(text: Field<string>)

  /** One chat-history item in the model's format: `{ role, parts }` */
  datatype Content = Content(role: string, parts: seq<Part>)

  /** A request to the generative-model service */
  datatype ModelCall =
    | SendChat(model: Field<string>, history: seq<Content>, temperature: Field<real>,
               maxOutputTokens: nat, message: string)
    | Generate(modelName: string, prompt: string)

  /** `result.usageMetadata` */
  datatype Usage = Usage(promptTokenCount: Option<nat>, candidatesTokenCount: Option<nat>,
                         totalTokenCount: Option<nat>)

  /** The service's answer; any thrown error is `Failed` */
  datatype ModelResult = Generated(text: string, usage: Option<Usage>) | Failed

  /** The generative-model client */
  type Client = ModelCall -> ModelResult

  /**
   * What handling one request did: the model call it made, if any, and the
   * response it sent, if any (a `break` out of a route's `switch` sends
   * nothing).
   */
  datatype Outcome = Outcome(modelCall: Option<ModelCall>, response: Option<Response>)

  function Reply(r: Response): Outcome
  {
    Outcome(None, Some(r))
  }

  const NoReply := Outcome(None, None)

  /** `url?.split('?')[0]`: the path a sub-router switches on */
  function SubPath(url: Option<string>): (p: Option<string>)
    ensures p.Some? <==> url.Some?
    ensures p.Some? ==> '?' !in p.value && Text.StartsWith(url.value, p.value)
  {
    match url
    case None => None
    case Some(u) => Text.SplitFirst(u, '?'); Some(Text.Split(u, '?')[0])
  }

  /**
   * A route whose handler destructures `req.body`: with no body the
   * destructuring throws and the sub-router's catch answers 500 `failure`.
   */
  function WithBody(req: Request, failure: string, handled: Body -> Outcome): Outcome
  {
    match req.body
    case None => Reply(OperationFailed(failure))
    case Some(b) => handled(b)
  }
}
