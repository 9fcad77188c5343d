/**
 * The automation routes: a placeholder analysis of a screenshot, and an
 * automated fix the model proposes for an issue in a piece of code.
 */
module AutomationHandler {
  import opened Wrappers
  import opened Json
  import opened Http
  import Text

  const CapturePath := "/api/v1/automation/capture"
  const ApplyFixPath := "/api/v1/automation/apply-fix"
  const FixModel := "gemini-pro"

  /** The single fixed finding every capture reports */
  const CannedFinding := Obj([("element", Str("UI Component")), ("issue", Str("Potential accessibility concern")),
                              ("suggestion", Str("Consider adding ARIA labels")), ("confidence", Num(0.85))])

  /** `context` as `JSON.stringify` writes it: dropped when missing */
  function ContextMembers(context: Field<Value>): seq<(string, Value)>
  {
    match context
    case Absent => []
    case Null => [("context", Json.Null)]
    case Given(v) => [("context", v)]
  }

  /** The `analysis` object of a capture */
  function CaptureAnalysis(kind: Field<string>, context: Field<Value>, clock: Clock): (analysis: seq<(string, Value)>)
    requires !kind.Absent?
    ensures Lookup(analysis, "type") == Some(ToJson(kind))
    ensures Lookup(analysis, "context").Some? <==> !context.Absent?
    ensures context.Given? ==> Lookup(analysis, "context") == Some(context.value)
    ensures Lookup(analysis, "findings") == Some(Arr([CannedFinding]))
  {
    var head := [("type", ToJson(kind))] + ContextMembers(context);
    var tail := [("findings", Arr([CannedFinding])), ("timestamp", Str(clock.iso))];
    var analysis := head + tail;
    LookupAt(analysis, 0, "type");
    LookupAt(analysis, |head|, "findings");
    if context.Absent? then LookupMissing(analysis, "context"); analysis
    else LookupAt(analysis, 1, "context"); analysis
  }

  /** `handleCapture(req, res)` for a request with a body; the model is not consulted. */
  function HandleCapture(body: Body, clock: Clock): (r: Response)
    ensures r.status == 400 <==> !Truthy(body.screenshot)
    ensures !Truthy(body.screenshot) ==> r == BadRequest("Screenshot data is required")
    ensures Truthy(body.screenshot) ==>
      r.status == 200 && r.payload.JsonPayload? &&
      Get(r.payload.value, "success") == Some(Bool(true)) &&
      Get(r.payload.value, "analysis") == Some(Obj(CaptureAnalysis(WithDefault(body.kind, "screen"), body.context, clock)))
  {
    if !Truthy(body.screenshot) then BadRequest("Screenshot data is required")
    else
      var members := [("success", Bool(true)),
                      ("analysis", Obj(CaptureAnalysis(WithDefault(body.kind, "screen"), body.context, clock)))];
      LookupAt(members, 1, "analysis");
      Response(200, JsonPayload(Obj(members)))
  }

  /** A capture reports the kind asked for ("screen" by default), echoes the context, and lists the one finding. */
  lemma CaptureEchoes(body: Body, clock: Clock)
    requires Truthy(body.screenshot)
    ensures var analysis := Get(HandleCapture(body, clock).payload.value, "analysis").value;
      (body.kind.Absent? ==> Get(analysis, "type") == Some(Str("screen"))) &&
      (body.kind.Given? ==> Get(analysis, "type") == Some(Str(body.kind.value))) &&
      (Get(analysis, "context").Some? <==> !body.context.Absent?) &&
      (body.context.Given? ==> Get(analysis, "context") == Some(body.context.value)) &&
      Get(analysis, "findings") == Some(Arr([CannedFinding]))
  {
  }

  /** The opening of the fix prompt, up to the issue */
  const FixIntro := "\nAnalyze the following issue and provide an automated fix:\n\nIssue: "

  const FixTail := "\n\nProvide:\n1. Root cause analysis\n2. Suggested fix with code changes\n"
    + "3. Implementation steps\n4. Testing recommendations\n"

  /** The code block of the fix prompt: an unlabelled fence */
  function CodeBlock(currentCode: string): string
  {
    "\nCurrent code:\n```\n" + currentCode + "\n```"
  }

  /** The line naming the kind of fix */
  function FixTypeLine(fixType: Field<string>): string
  {
    "\n\nFix type: " + Interp(fixType)
  }

  /** The fix prompt: it names the issue, holds the code and states the kind of fix. */
  function FixPrompt(issue: string, currentCode: string, fixType: Field<string>): (prompt: string)
    ensures Text.Contains(prompt, issue)
    ensures Text.Contains(prompt, CodeBlock(currentCode))
    ensures Text.Contains(prompt, FixTypeLine(fixType))
  {
    Text.ContainsEachOfFive(FixIntro, issue, CodeBlock(currentCode), FixTypeLine(fixType), FixTail);
    FixIntro + issue + CodeBlock(currentCode) + FixTypeLine(fixType) + FixTail
  }

  /** A missing kind of fix is stated as "automated"; a given one verbatim. */
  lemma FixTypeDefault(fixType: Field<string>)
    ensures fixType.Absent? ==> FixTypeLine(WithDefault(fixType, "automated")) == "\n\nFix type: automated"
    ensures fixType.Given? ==> FixTypeLine(WithDefault(fixType, "automated")) == "\n\nFix type: " + fixType.value
  {
  }

  /** The 200 reply to a fix */
  function FixReply(issue: string, currentCode: string, fixType: Field<string>, text: string, clock: Clock): (r: Response)
    requires !fixType.Absent?
    ensures r.status == 200 && r.payload.JsonPayload?
    ensures Get(r.payload.value, "success") == Some(Bool(true))
    ensures Get2(r.payload.value, "fix", "issue") == Some(Str(issue))
    ensures Get2(r.payload.value, "fix", "currentCode") == Some(Str(currentCode))
    ensures Get2(r.payload.value, "fix", "fixType") == Some(ToJson(fixType))
    ensures Get2(r.payload.value, "fix", "solution") == Some(Str(text))
  {
    var fix := [("issue", Str(issue)), ("currentCode", Str(currentCode)), ("fixType", ToJson(fixType)),
                ("solution", Str(text)), ("timestamp", Str(clock.iso))];
    var members := [("success", Bool(true)), ("fix", Obj(fix))];
    LookupAt(members, 1, "fix");
    LookupAt(fix, 0, "issue");
    LookupAt(fix, 1, "currentCode");
    LookupAt(fix, 2, "fixType");
    LookupAt(fix, 3, "solution");
    Response(200, JsonPayload(Obj(members)))
  }

  /** `handleApplyFix(req, res)` for a request with a body */
  function HandleApplyFix(body: Body, client: Client, clock: Clock): (o: Outcome)
    ensures o.modelCall.Some? <==> Truthy(body.issue) && Truthy(body.currentCode)
    ensures !(Truthy(body.issue) && Truthy(body.currentCode)) ==>
      o == Reply(BadRequest("Issue description and current code are required"))
    ensures Truthy(body.issue) && Truthy(body.currentCode) ==>
      o.modelCall == Some(Generate(FixModel, FixPrompt(body.issue.value, body.currentCode.value,
                                                       WithDefault(body.fixType, "automated"))))
    ensures o.modelCall.Some? && client(o.modelCall.value).Failed? ==> o.response == Some(ServiceError("Failed to generate fix"))
    ensures o.modelCall.Some? && client(o.modelCall.value).Generated? ==>
      o.response == Some(FixReply(body.issue.value, body.currentCode.value, WithDefault(body.fixType, "automated"),
                                  client(o.modelCall.value).text, clock))
  {
    if !Truthy(body.issue) || !Truthy(body.currentCode) then
      Reply(BadRequest("Issue description and current code are required"))
    else
      var fixType := WithDefault(body.fixType, "automated");
      var call := Generate(FixModel, FixPrompt(body.issue.value, body.currentCode.value, fixType));
      Outcome(Some(call), Some(
        match client(call)
        case Failed => ServiceError("Failed to generate fix")
        case Generated(text, _) => FixReply(body.issue.value, body.currentCode.value, fixType, text, clock)))
  }

  /** One of the two automation paths */
  predicate IsAutomationRoute(path: Option<string>)
  {
    path == Some(CapturePath) || path == Some(ApplyFixPath)
  }

  /** `automationHandler(req, res)` */
  function Handle(req: Request, client: Client, clock: Clock): (o: Outcome)
    ensures !IsAutomationRoute(SubPath(req.url)) ==> o == Reply(NotFound("Automation endpoint not found"))
    ensures IsAutomationRoute(SubPath(req.url)) && req.httpMethod != "POST" ==> o == NoReply
    ensures IsAutomationRoute(SubPath(req.url)) && req.httpMethod == "POST" && req.body.None? ==>
      o == Reply(OperationFailed("Automation operation failed"))
    ensures SubPath(req.url) == Some(CapturePath) && req.httpMethod == "POST" && req.body.Some? ==>
      o == Reply(HandleCapture(req.body.value, clock))
    ensures SubPath(req.url) == Some(ApplyFixPath) && req.httpMethod == "POST" && req.body.Some? ==>
      o == HandleApplyFix(req.body.value, client, clock)
  {
    var path := SubPath(req.url);
    if path == Some(CapturePath) then
      if req.httpMethod == "POST" then WithBody(req, "Automation operation failed", b => Reply(HandleCapture(b, clock)))
      else NoReply
    else if path == Some(ApplyFixPath) then
      if req.httpMethod == "POST" then WithBody(req, "Automation operation failed", b => HandleApplyFix(b, client, clock))
      else NoReply
    else Reply(NotFound("Automation endpoint not found"))
  }
}
