/**
 * The error middleware: shaping a thrown error into the JSON error
 * response, the not-found response, and `createError`.
 */
module ErrorHandler {
  import opened Wrappers
  import opened Json
  import opened Http
  import EnvConfig

  /**
   * The members of a thrown error the middleware reads: `statusCode` and
   * `code` may be missing; `message` is the Error's message ("" when none).
   */
  datatype AppError = AppError(statusCode: Option<int>, message: string, code: Option<string>)

  /** `error.statusCode || 500` */
  function StatusOf(err: AppError): (s: int)
    ensures s != 0
    ensures err.statusCode.Some? && err.statusCode.value != 0 ==> s == err.statusCode.value
    ensures !(err.statusCode.Some? && err.statusCode.value != 0) ==> s == 500
  {
    if err.statusCode.Some? && err.statusCode.value != 0 then err.statusCode.value else 500
  }

  /** `error.code || 'INTERNAL_ERROR'` */
  function CodeOf(err: AppError): (c: string)
    ensures c != ""
    ensures err.code.Some? && err.code.value != "" ==> c == err.code.value
    ensures !(err.code.Some? && err.code.value != "") ==> c == "INTERNAL_ERROR"
  {
    if err.code.Some? && err.code.value != "" then err.code.value else "INTERNAL_ERROR"
  }

  /** `process.env.NODE_ENV === 'production'` */
  predicate InProduction(env: EnvConfig.Env)
  {
    EnvConfig.Lookup(env, "NODE_ENV") == Some("production")
  }

  /** The message that is sent: masked for a 500 in production */
  function ShownMessage(err: AppError, env: EnvConfig.Env): (m: string)
    ensures m != ""
    ensures InProduction(env) && StatusOf(err) == 500 ==> m == "Something went wrong"
    ensures !(InProduction(env) && StatusOf(err) == 500) && err.message != "" ==> m == err.message
    ensures !(InProduction(env) && StatusOf(err) == 500) && err.message == "" ==> m == "Internal Server Error"
  {
    if InProduction(env) && StatusOf(err) == 500 then "Something went wrong"
    else if err.message != "" then err.message
    else "Internal Server Error"
  }

  /** `req.headers['x-request-id']`, when truthy */
  function RequestId(req: Request): (id: Option<string>)
    ensures id.Some? <==> "x-request-id" in req.headers && req.headers["x-request-id"] != ""
    ensures id.Some? ==> id.value == req.headers["x-request-id"]
  {
    if "x-request-id" in req.headers && req.headers["x-request-id"] != "" then Some(req.headers["x-request-id"])
    else None
  }

  /** `errorHandler(error, req, res)` */
  function RespondToError(err: AppError, req: Request, env: EnvConfig.Env, clock: Clock): (r: Response)
    ensures r.status == StatusOf(err)
    ensures r.payload.JsonPayload? && Get(r.payload.value, "success") == Some(Bool(false))
    ensures Get2(r.payload.value, "error", "code") == Some(Str(CodeOf(err)))
    ensures Get2(r.payload.value, "error", "message") == Some(Str(ShownMessage(err, env)))
    ensures Get2(r.payload.value, "error", "requestId").Some? <==> RequestId(req).Some?
    ensures RequestId(req).Some? ==> Get2(r.payload.value, "error", "requestId") == Some(Str(RequestId(req).value))
  {
    var base := [("code", Str(CodeOf(err))), ("message", Str(ShownMessage(err, env))), ("timestamp", Str(clock.iso))];
    var tracked := match RequestId(req) case Some(id) => [("requestId", Str(id))] case None => [];
    var members := [("success", Bool(false)), ("error", Obj(base + tracked))];
    var errorMembers := base + tracked;
    LookupAt(members, 1, "error");
    LookupAt(errorMembers, 0, "code");
    LookupAt(errorMembers, 1, "message");
    var r := Response(StatusOf(err), JsonPayload(Obj(members)));
    if RequestId(req).Some? then LookupAt(errorMembers, 3, "requestId"); r
    else LookupMissing(errorMembers, "requestId"); r
  }

  /** `createError(statusCode, message, code)` */
  function CreateError(statusCode: int, message: string, code: Option<string>): (err: AppError)
    ensures err.statusCode == Some(statusCode) && err.message == message
    ensures code.Some? && code.value != "" ==> err.code == code
    ensures !(code.Some? && code.value != "") ==> err.code == Some("CUSTOM_ERROR")
  {
    AppError(Some(statusCode), message, Some(if code.Some? && code.value != "" then code.value else "CUSTOM_ERROR"))
  }

  /** A created error comes back out of the middleware with its own status, message and code. */
  lemma CreatedErrorRoundTrip(s: int, m: string, c: string, req: Request, env: EnvConfig.Env, clock: Clock)
    requires s != 0 && m != "" && c != ""
    requires !(InProduction(env) && s == 500)
    ensures var r := RespondToError(CreateError(s, m, Some(c)), req, env, clock);
      r.status == s &&
      Get2(r.payload.value, "error", "message") == Some(Str(m)) &&
      Get2(r.payload.value, "error", "code") == Some(Str(c))
  {
  }

  /** Without a code, a created error is reported with CUSTOM_ERROR rather than INTERNAL_ERROR. */
  lemma CreatedErrorDefaultCode(s: int, m: string, req: Request, env: EnvConfig.Env, clock: Clock)
    ensures Get2(RespondToError(CreateError(s, m, None), req, env, clock).payload.value, "error", "code")
      == Some(Str("CUSTOM_ERROR"))
  {
  }

  /** In production a 500 never reveals its message; every other status keeps it. */
  lemma ProductionMasking(err: AppError, env: EnvConfig.Env)
    ensures InProduction(env) && StatusOf(err) == 500 ==> ShownMessage(err, env) == "Something went wrong"
    ensures !(InProduction(env) && StatusOf(err) == 500) && err.message != "" ==> ShownMessage(err, env) == err.message
    ensures !(InProduction(env) && StatusOf(err) == 500) && err.message == "" ==>
      ShownMessage(err, env) == "Internal Server Error"
    ensures InProduction(env) <==> EnvConfig.IsProduction(EnvConfig.Load(env))
  {
  }

  /** `notFoundHandler(req, res)` */
  function RespondNotFound(req: Request, clock: Clock): (r: Response)
    ensures r.status == 404
    ensures r.payload.JsonPayload? && Get(r.payload.value, "success") == Some(Bool(false))
    ensures Get2(r.payload.value, "error", "code") == Some(Str("NOT_FOUND"))
    ensures Get2(r.payload.value, "error", "message")
      == Some(Str("Route " + req.httpMethod + " " + req.url.GetOr("undefined") + " not found"))
  {
    var message := "Route " + req.httpMethod + " " + req.url.GetOr("undefined") + " not found";
    var errorMembers := [("code", Str("NOT_FOUND")), ("message", Str(message)), ("timestamp", Str(clock.iso))];
    var members := [("success", Bool(false)), ("error", Obj(errorMembers))];
    LookupAt(members, 1, "error");
    LookupAt(errorMembers, 0, "code");
    LookupAt(errorMembers, 1, "message");
    Response(404, JsonPayload(Obj(members)))
  }
}
