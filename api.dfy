/**
 * The serverless entry point: it sets the CORS headers, answers preflight
 * requests, hands each request to the sub-router whose prefix its path
 * carries, and otherwise answers the health check or 404.
 */
module Api {
  import opened Wrappers
  import opened Json
  import opened Http
  import Text
  import EnvConfig
  import AuthHandler
  import ChatHandler
  import BrainHandler
  import AutomationHandler

  /** The four CORS headers set on every response */
  const CorsHeaders: map<string, string> := map[
    "Access-Control-Allow-Credentials" := "true",
    "Access-Control-Allow-Origin" := "*",
    "Access-Control-Allow-Methods" := "GET,OPTIONS,PATCH,DELETE,POST,PUT",
    "Access-Control-Allow-Headers" := "X-CSRF-Token, X-Requested-With, Accept, Accept-Version, Content-Length, "
      + "Content-MD5, Content-Type, Date, X-Api-Version, Authorization"]

  const AuthPrefix := "/api/v1/auth/"
  const ChatPrefix := "/api/v1/chat/"
  const BrainPrefix := "/api/v1/brain/"
  const AutomationPrefix := "/api/v1/automation/"
  const HealthPath := "/api/health"
  const Version := "1.0.0"

  /** `(req.url || '').split('?')[0]` */
  function RoutingPath(url: Option<string>): (path: string)
    ensures '?' !in path
    ensures url.Some? ==> Text.StartsWith(url.value, path)
    ensures url.Some? && '?' !in url.value ==> path == url.value
    ensures url.None? || url == Some("") ==> path == ""
  {
    var u := url.GetOr("");
    Text.SplitFirst(u, '?');
    Text.Split(u, '?')[0]
  }

  /** The query string does not take part in routing. */
  lemma RoutingIgnoresQuery(path: string, query: string)
    requires '?' !in path
    ensures RoutingPath(Some(path + "?" + query)) == path
  {
    Text.SplitAt(path, '?', query);
  }

  /** Where the entry point sends a request */
  datatype Route = Preflight | ToAuth | ToChat | ToBrain | ToAutomation | Health | Unrouted

  /** The branch of the entry point a request takes, in the order the code tests them */
  function RouteOf(httpMethod: string, url: Option<string>): (route: Route)
    ensures route == Preflight <==> httpMethod == "OPTIONS"
    ensures route == ToAuth ==> Text.StartsWith(RoutingPath(url), AuthPrefix)
    ensures route == ToChat ==> Text.StartsWith(RoutingPath(url), ChatPrefix)
    ensures route == ToBrain ==> Text.StartsWith(RoutingPath(url), BrainPrefix)
    ensures route == ToAutomation ==> Text.StartsWith(RoutingPath(url), AutomationPrefix)
    ensures (httpMethod != "OPTIONS" && Text.StartsWith(RoutingPath(url), AuthPrefix) ==>
              route == ToAuth)
    ensures (httpMethod != "OPTIONS" && Text.StartsWith(RoutingPath(url), ChatPrefix) ==>
              route == ToChat)
    ensures (httpMethod != "OPTIONS" && Text.StartsWith(RoutingPath(url), BrainPrefix) ==>
              route == ToBrain)
    ensures (httpMethod != "OPTIONS" && Text.StartsWith(RoutingPath(url), AutomationPrefix) ==>
              route == ToAutomation)
    ensures route == Health <==> httpMethod != "OPTIONS" && RoutingPath(url) == HealthPath
    ensures (route == Unrouted ==>
              !Text.StartsWith(RoutingPath(url), AuthPrefix) && !Text.StartsWith(RoutingPath(url), ChatPrefix) &&
              !Text.StartsWith(RoutingPath(url), BrainPrefix) &&
              !Text.StartsWith(RoutingPath(url), AutomationPrefix) && RoutingPath(url) != HealthPath)
  {
    var path := RoutingPath(url);
    PrefixesDisjoint(path);
    if httpMethod == "OPTIONS" then Preflight
    else if Text.StartsWith(path, AuthPrefix) then ToAuth
    else if Text.StartsWith(path, ChatPrefix) then ToChat
    else if Text.StartsWith(path, BrainPrefix) then ToBrain
    else if Text.StartsWith(path, AutomationPrefix) then ToAutomation
    else if path == HealthPath then Health
    else Unrouted
  }

  /**
   * No path carries two of the four prefixes, and the health path carries
   * none, so the order of the tests does not matter.
   */
  lemma PrefixesDisjoint(path: string)
    ensures (Text.StartsWith(path, AuthPrefix) ==>
              !Text.StartsWith(path, ChatPrefix) && !Text.StartsWith(path, BrainPrefix) &&
              !Text.StartsWith(path, AutomationPrefix))
    ensures (Text.StartsWith(path, ChatPrefix) ==>
              !Text.StartsWith(path, BrainPrefix) && !Text.StartsWith(path, AutomationPrefix))
    ensures Text.StartsWith(path, BrainPrefix) ==> !Text.StartsWith(path, AutomationPrefix)
    ensures (path == HealthPath ==>
              !Text.StartsWith(path, AuthPrefix) && !Text.StartsWith(path, ChatPrefix) &&
              !Text.StartsWith(path, BrainPrefix) && !Text.StartsWith(path, AutomationPrefix))
  {
    if Text.StartsWith(path, AuthPrefix) {
      assert path[8] == 'a' && path[11] == 'h';
    }
    if Text.StartsWith(path, ChatPrefix) {
      assert path[8] == 'c';
    }
    if Text.StartsWith(path, BrainPrefix) {
      assert path[8] == 'b';
    }
  }

  /** The health-check payload */
  function HealthReply(env: EnvConfig.Env, clock: Clock): (r: Response)
    ensures r.status == 200 && r.payload.JsonPayload?
    ensures Get(r.payload.value, "status") == Some(Str("healthy"))
    ensures Get(r.payload.value, "version") == Some(Str(Version))
    ensures Get(r.payload.value, "environment") == Some(Str(EnvConfig.Load(env).nodeEnv))
  {
    var members := [("status", Str("healthy")), ("timestamp", Str(clock.iso)), ("version", Str(Version)),
                    ("environment", Str(EnvConfig.Load(env).nodeEnv))];
    LookupAt(members, 2, "version");
    LookupAt(members, 3, "environment");
    Response(200, JsonPayload(Obj(members)))
  }

  /** What the entry point did: the headers it set and what handling the request did */
  datatype Served = Served(headers: map<string, string>, outcome: Outcome)

  /** `handler(req, res)`; `env` is the environment the configuration was read from. */
  function Handler(req: Request, env: EnvConfig.Env, client: ModelCall -> ModelResult, clock: Clock): (s: Served)
    ensures s.headers == CorsHeaders
    ensures RouteOf(req.httpMethod, req.url) == Preflight ==> s.outcome == Reply(Response(200, NoPayload))
    ensures RouteOf(req.httpMethod, req.url) == ToAuth ==> s.outcome == AuthHandler.Handle(req, clock)
    ensures RouteOf(req.httpMethod, req.url) == ToChat ==> s.outcome == ChatHandler.Handle(req, client, clock)
    ensures RouteOf(req.httpMethod, req.url) == ToBrain ==> s.outcome == BrainHandler.Handle(req, client, clock)
    ensures (RouteOf(req.httpMethod, req.url) == ToAutomation ==>
              s.outcome == AutomationHandler.Handle(req, client, clock))
    ensures RouteOf(req.httpMethod, req.url) == Health ==> s.outcome == Reply(HealthReply(env, clock))
    ensures (RouteOf(req.httpMethod, req.url) == Unrouted ==>
              s.outcome == Reply(NotFound("API route " + RoutingPath(req.url) + " not found")))
  {
    var outcome := match RouteOf(req.httpMethod, req.url)
      case Preflight => Reply(Response(200, NoPayload))
      case ToAuth => AuthHandler.Handle(req, clock)
      case ToChat => ChatHandler.Handle(req, client, clock)
      case ToBrain => BrainHandler.Handle(req, client, clock)
      case ToAutomation => AutomationHandler.Handle(req, client, clock)
      case Health => Reply(HealthReply(env, clock))
      case Unrouted => Reply(NotFound("API route " + RoutingPath(req.url) + " not found"));
    Served(CorsHeaders, outcome)
  }

  /** A preflight request is answered 200 with an empty body, whatever its path, without calling the model. */
  lemma PreflightAlwaysOk(req: Request, env: EnvConfig.Env, client: ModelCall -> ModelResult, clock: Clock)
    requires req.httpMethod == "OPTIONS"
    ensures Handler(req, env, client, clock).outcome == Outcome(None, Some(Response(200, NoPayload)))
  {
  }

  /**
   * A sub-router sees the same path the entry point routed on: the
   * request it is handed has a url, and cutting its query gives the path.
   */
  lemma SubRoutersSeeRoutingPath(req: Request)
    requires RouteOf(req.httpMethod, req.url) in {ToAuth, ToChat, ToBrain, ToAutomation}
    ensures req.url.Some? && SubPath(req.url) == Some(RoutingPath(req.url))
  {
  }

  /**
   * Every path under a prefix that none of the sub-router's own routes
   * matches ends in that sub-router's 404, never in the entry point's.
   */
  lemma UnknownChatRoute(req: Request, env: EnvConfig.Env, client: ModelCall -> ModelResult, clock: Clock)
    requires req.httpMethod != "OPTIONS" && req.url.Some? && '?' !in req.url.value
    requires Text.StartsWith(req.url.value, ChatPrefix)
    requires req.url.value != ChatHandler.MessagePath && req.url.value != ChatHandler.HistoryPath
    ensures Handler(req, env, client, clock).outcome == Reply(NotFound("Chat endpoint not found"))
  {
    PrefixesDisjoint(req.url.value);
    Text.SplitWithout(req.url.value, '?');
  }

  /** Changing the query string never changes where a request goes. */
  lemma RouteIgnoresQuery(httpMethod: string, path: string, query: string)
    requires '?' !in path
    ensures RouteOf(httpMethod, Some(path + "?" + query)) == RouteOf(httpMethod, Some(path))
  {
    RoutingIgnoresQuery(path, query);
  }

  /** The health check answers only on its exact path, with the configured environment. */
  lemma HealthCheck(req: Request, env: EnvConfig.Env, client: ModelCall -> ModelResult, clock: Clock)
    requires req.httpMethod != "OPTIONS" && RoutingPath(req.url) == HealthPath
    ensures var o := Handler(req, env, client, clock).outcome;
      o.modelCall.None? && o.response == Some(HealthReply(env, clock)) &&
      (EnvConfig.Unset(env, "NODE_ENV") ==>
        Get(o.response.value.payload.value, "environment") == Some(Str("development")))
  {
    PrefixesDisjoint(HealthPath);
  }

  /** A path outside the API gets the entry point's 404, naming the path without its query. */
  lemma UnknownRoute(path: string, query: string, req: Request, env: EnvConfig.Env,
                     client: ModelCall -> ModelResult, clock: Clock)
    requires '?' !in path && !Text.StartsWith(path, "/api/") && req.httpMethod != "OPTIONS"
    requires req.url == Some(path + "?" + query)
    ensures Handler(req, env, client, clock).outcome == Reply(NotFound("API route " + path + " not found"))
    ensures MessageOf(Handler(req, env, client, clock).outcome.response.value) == Some(Str("API route " + path + " not found"))
  {
    RoutingIgnoresQuery(path, query);
    assert "/api/" <= AuthPrefix && "/api/" <= ChatPrefix && "/api/" <= BrainPrefix && "/api/" <= AutomationPrefix;
    assert "/api/" <= HealthPath;
    assert RouteOf(req.httpMethod, req.url) == Unrouted;
  }

  /**
   * An end-to-end chat exchange: a message posted with a query string
   * reaches the model with the default model and temperature and the
   * model's text comes back as the assistant's message.
   */
  lemma ChatRoundTrip(body: Body, env: EnvConfig.Env, client: ModelCall -> ModelResult, clock: Clock, query: string)
    requires Truthy(body.message) && body.model.Absent? && body.temperature.Absent? && body.history.Absent?
    requires client(SendChat(Given("gemini-pro"), [], Given(0.7), 2048, body.message.value)).Generated?
    ensures var req := Request("POST", Some(ChatHandler.MessagePath + "?" + query), map[], map[], Some(body));
      var o := Handler(req, env, client, clock).outcome;
      o.modelCall == Some(SendChat(Given("gemini-pro"), [], Given(0.7), 2048, body.message.value)) &&
      o.response.value.status == 200 &&
      Get2(o.response.value.payload.value, "message", "content") ==
        Some(Str(client(SendChat(Given("gemini-pro"), [], Given(0.7), 2048, body.message.value)).text))
  {
    var req := Request("POST", Some(ChatHandler.MessagePath + "?" + query), map[], map[], Some(body));
    RoutingIgnoresQuery(ChatHandler.MessagePath, query);
    assert RouteOf("POST", req.url) == ToChat by {
      assert ChatHandler.MessagePath[..|ChatPrefix|] == ChatPrefix;
      PrefixesDisjoint(ChatHandler.MessagePath);
    }
    SubRoutersSeeRoutingPath(req);
  }
}
