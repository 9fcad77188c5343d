/**
 * The device-pairing routes: pairing hands out a placeholder token made
 * from the clock, and verification accepts any token.
 */
module AuthHandler {
  import opened Wrappers
  import opened Json
  import opened Http
  import Text

  const PairPath := "/api/v1/auth/pair"
  const VerifyPath := "/api/v1/auth/verify"
  const TokenPrefix := "mock-token-"

  /** `mock-token-${Date.now()}` */
  function MockToken(millis: nat): (t: string)
    ensures Text.StartsWith(t, TokenPrefix)
    ensures Text.AllDigits(t[|TokenPrefix|..]) && |t| > |TokenPrefix|
  {
    var t := TokenPrefix + Text.Decimal(millis);
    assert t[..|TokenPrefix|] == TokenPrefix && t[|TokenPrefix|..] == Text.Decimal(millis);
    t
  }

  /** The token carries the moment it was issued: reading its digits gives the clock back. */
  lemma MockTokenRoundTrip(m: nat, n: nat)
    ensures Text.DecimalValue(MockToken(m)[|TokenPrefix|..]) == m
    ensures MockToken(m) == MockToken(n) <==> m == n
  {
    var t := MockToken(m);
    assert t[|TokenPrefix|..] == Text.Decimal(m);
    Text.DecimalRoundTrip(m);
    if MockToken(m) == MockToken(n) {
      assert MockToken(n)[|TokenPrefix|..] == Text.Decimal(n);
      Text.DecimalInjective(m, n);
    }
  }

  /** `handlePair(req, res)` for a request with a body */
  function HandlePair(body: Body, clock: Clock): (r: Response)
    ensures r.status == 400 <==> !Truthy(body.code) || !Truthy(body.deviceId)
    ensures r.status == 400 ==> r == BadRequest("Code and deviceId are required")
    ensures r.status != 400 ==>
      r.status == 200 && r.payload.JsonPayload? &&
      Get(r.payload.value, "success") == Some(Bool(true)) &&
      Get(r.payload.value, "token") == Some(Str(MockToken(clock.millis))) &&
      Get(r.payload.value, "expiresIn") == Some(Str("24h")) &&
      Get(r.payload.value, "deviceId") == Some(Str(body.deviceId.value))
  {
    if !Truthy(body.code) || !Truthy(body.deviceId) then BadRequest("Code and deviceId are required")
    else
      var members := [("success", Bool(true)), ("token", Str(MockToken(clock.millis))), ("expiresIn", Str("24h")),
                      ("deviceId", Str(body.deviceId.value)), ("timestamp", Str(clock.iso))];
      LookupAt(members, 1, "token");
      LookupAt(members, 2, "expiresIn");
      LookupAt(members, 3, "deviceId");
      Response(200, JsonPayload(Obj(members)))
  }

  /** `handleVerify(req, res)` for a request with a body: every non-empty token is valid. */
  function HandleVerify(body: Body, clock: Clock): (r: Response)
    ensures r.status == 400 <==> !Truthy(body.token)
    ensures r.status == 400 ==> r == BadRequest("Token is required")
    ensures r.status != 400 ==>
      r.status == 200 && r.payload.JsonPayload? &&
      Get(r.payload.value, "success") == Some(Bool(true)) &&
      Get(r.payload.value, "valid") == Some(Bool(true))
  {
    if !Truthy(body.token) then BadRequest("Token is required")
    else
      var members := [("success", Bool(true)), ("valid", Bool(true)), ("timestamp", Str(clock.iso))];
      LookupAt(members, 1, "valid");
      Response(200, JsonPayload(Obj(members)))
  }

  /** A token issued by pairing passes verification. */
  lemma PairedTokenVerifies(body: Body, clock: Clock, later: Clock)
    requires Truthy(body.code) && Truthy(body.deviceId)
    ensures var paired := HandlePair(body, clock);
      var token := Get(paired.payload.value, "token").value.s;
      HandleVerify(body.(token := Given(token)), later).status == 200
  {
    var token := MockToken(clock.millis);
    assert token != "";
  }

  /** One of the two auth paths */
  predicate IsAuthRoute(path: Option<string>)
  {
    path == Some(PairPath) || path == Some(VerifyPath)
  }

  /** `authHandler(req, res)` */
  function Handle(req: Request, clock: Clock): (o: Outcome)
    ensures o.modelCall.None?
    ensures !IsAuthRoute(SubPath(req.url)) ==> o == Reply(NotFound("Auth endpoint not found"))
    ensures IsAuthRoute(SubPath(req.url)) && req.httpMethod != "POST" ==> o == NoReply
    ensures IsAuthRoute(SubPath(req.url)) && req.httpMethod == "POST" && req.body.None? ==>
      o == Reply(OperationFailed("Authentication failed"))
    ensures SubPath(req.url) == Some(PairPath) && req.httpMethod == "POST" && req.body.Some? ==>
      o == Reply(HandlePair(req.body.value, clock))
    ensures SubPath(req.url) == Some(VerifyPath) && req.httpMethod == "POST" && req.body.Some? ==>
      o == Reply(HandleVerify(req.body.value, clock))
  {
    var path := SubPath(req.url);
    if path == Some(PairPath) then
      if req.httpMethod == "POST" then WithBody(req, "Authentication failed", b => Reply(HandlePair(b, clock)))
      else NoReply
    else if path == Some(VerifyPath) then
      if req.httpMethod == "POST" then WithBody(req, "Authentication failed", b => Reply(HandleVerify(b, clock)))
      else NoReply
    else Reply(NotFound("Auth endpoint not found"))
  }
}
