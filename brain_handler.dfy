/**
 * The code-intelligence routes: analyse, explain and refactor a piece of
 * code by sending a prompt built from the request to the model.
 */
module BrainHandler {
  import opened Wrappers
  import opened Json
  import opened Http
  import Text

  const AnalyzePath := "/api/v1/brain/analyze"
  const ExplainPath := "/api/v1/brain/explain"
  const RefactorPath := "/api/v1/brain/refactor"
  const BrainModel := "gemini-pro"

  /** The opening line of a fenced code block in the given language, and its close */
  function Fenced(language: string, code: string): string
  {
    "```" + language + "\n" + code + "\n```"
  }

  /** The bullets of an analysis of the given kind */
  const SecurityFocus := "- Security vulnerabilities\n- Potential security risks\n- Best practices for security"
  const PerformanceFocus := "- Performance bottlenecks\n- Optimization opportunities\n- Scalability concerns"
  const GeneralFocus := "- Code quality and structure\n- Potential bugs or issues\n- Best practices compliance\n- Maintainability"

  /** `analysisType === 'security' ? ... : analysisType === 'performance' ? ... : ...` */
  function FocusList(analysisType: Field<string>): (bullets: string)
    ensures analysisType == Given("security") ==> bullets == SecurityFocus
    ensures analysisType == Given("performance") ==> bullets == PerformanceFocus
    ensures analysisType != Given("security") && analysisType != Given("performance") ==> bullets == GeneralFocus
  {
    if analysisType == Given("security") then SecurityFocus
    else if analysisType == Given("performance") then PerformanceFocus
    else GeneralFocus
  }

  function AnalyzeIntro(language: Field<string>): string
  {
    "\nAnalyze the following " + OrElse(language, "code") + " and provide insights on:\n\n"
  }

  const AnalyzeCodeLabel := "\n\nCode to analyze:\n"

  const AnalyzeTail := "\n\nProvide a detailed analysis with:\n1. Summary of findings\n2. Specific issues identified\n"
    + "3. Recommendations for improvement\n4. Code examples where applicable\n"

  /** The analysis prompt */
  function AnalyzePrompt(code: string, language: Field<string>, analysisType: Field<string>): (prompt: string)
    ensures Text.Contains(prompt, Fenced(OrElse(language, "code"), code))
    ensures Text.Contains(prompt, AnalyzeIntro(language))
    ensures Text.Contains(prompt, FocusList(analysisType))
  {
    var intro, focus, fence := AnalyzeIntro(language), FocusList(analysisType), Fenced(OrElse(language, "code"), code);
    Text.ContainsEachOfFive(intro, focus, AnalyzeCodeLabel, fence, AnalyzeTail);
    intro + focus + AnalyzeCodeLabel + fence + AnalyzeTail
  }

  const SimpleInstruction := "Explain in simple terms " + "suitable for beginners"
  const MediumInstruction := "Provide a balanced explanation " + "for intermediate developers"
  const DetailedInstruction := "Give a comprehensive explanation " + "with technical details"
  const FallbackInstruction := "Provide a balanced explanation"

  /**
   * The instruction for a detail level: one of three for the three known
   * levels, the fallback for every other value. This is the lookup the
   * code evidently intends (see `DetailInstructionAsWritten`).
   */
  function DetailInstruction(detailLevel: Field<string>): (instruction: string)
    ensures |instruction| > 0 && (instruction[0] == 'E' || instruction[0] == 'P' || instruction[0] == 'G')
  {
    if detailLevel == Given("simple") then SimpleInstruction
    else if detailLevel == Given("medium") then MediumInstruction
    else if detailLevel == Given("detailed") then DetailedInstruction
    else FallbackInstruction
  }

  /** The members every plain JavaScript object inherits from `Object.prototype` */
  const InheritedMembers := {"constructor", "hasOwnProperty", "isPrototypeOf", "propertyIsEnumerable",
                             "toString", "valueOf", "toLocaleString", "__defineGetter__", "__defineSetter__",
                             "__lookupGetter__", "__lookupSetter__", "__proto__"}

  /** The detail level names a member inherited from `Object.prototype` */
  predicate NamesInherited(detailLevel: Field<string>)
  {
    detailLevel.Given? && detailLevel.value in InheritedMembers
  }

  /**
   * `{ simple: ..., medium: ..., detailed: ... }[detailLevel] || fallback`
   * as written: indexing an object literal also finds the inherited
   * members, which are truthy, and the template then shows their text.
   * It agrees with the intended lookup on every other level.
   */
  function DetailInstructionAsWritten(detailLevel: Field<string>): (instruction: string)
    ensures !NamesInherited(detailLevel) ==> instruction == DetailInstruction(detailLevel)
    ensures |instruction| > 0
    ensures NamesInherited(detailLevel) ==> instruction != DetailInstruction(detailLevel)
    ensures NamesInherited(detailLevel) ==> instruction[0] == 'f' || instruction[0] == '['
  {
    if NamesInherited(detailLevel) then NativeText(detailLevel.value)
    else DetailInstruction(detailLevel)
  }

  /** How a template shows an inherited member: a native function's source, or the prototype object */
  function NativeText(member: string): (text: string)
    ensures |text| > 0 && (text[0] == 'f' || text[0] == '[')
  {
    if member == "__proto__" then "[object Object]"
    else if member == "constructor" then "function Object() { [native code] }"
    else "function " + member + "() { [native code] }"
  }

  /** Asking for the detail level "toString" puts the text of a native function into the prompt. */
  lemma DetailLevelToString()
    ensures DetailInstructionAsWritten(Given("toString")) == "function toString() { [native code] }"
    ensures DetailInstruction(Given("toString")) == FallbackInstruction
  {
  }

  /** The three levels have their own instructions; anything else gets the balanced fallback. */
  lemma DetailInstructions(detailLevel: Field<string>)
    ensures DetailInstruction(Given("simple")) == SimpleInstruction
    ensures DetailInstruction(Given("medium")) == MediumInstruction
    ensures DetailInstruction(Given("detailed")) == DetailedInstruction
    ensures detailLevel != Given("simple") && detailLevel != Given("medium") && detailLevel != Given("detailed") ==>
      DetailInstruction(detailLevel) == FallbackInstruction
  {
  }

  const ExplainTail := "\n\nPlease provide:\n1. High-level overview\n2. Step-by-step explanation\n"
    + "3. Key concepts and patterns used\n4. Potential improvements or alternatives\n"

  /** The explanation prompt after its instruction line: the request and the code block */
  function ExplainRest(code: string, language: Field<string>): (rest: string)
    ensures |rest| > 0 && rest[0] == '\n'
    ensures Text.Contains(rest, Fenced(OrElse(language, "code"), code))
  {
    var fence := Fenced(OrElse(language, "code"), code);
    var ask := "\n\nExplain what this " + OrElse(language, "code") + " does:\n\n";
    Text.ContainsMiddle(ask, fence, ExplainTail);
    ask + fence + ExplainTail
  }

  /** The explanation prompt around a given instruction, which is its second line */
  function ExplainPromptWith(code: string, language: Field<string>, instruction: string): (prompt: string)
    ensures Text.Contains(prompt, Fenced(OrElse(language, "code"), code))
    ensures Text.Contains(prompt, instruction)
    ensures |prompt| > |instruction| && prompt[1..|instruction| + 1] == instruction
  {
    var rest := ExplainRest(code, language);
    Text.ContainsMiddle("\n", instruction, rest);
    Text.ContainsRight("\n" + instruction, rest, Fenced(OrElse(language, "code"), code));
    "\n" + instruction + rest
  }

  /** The explanation prompt, with the intended instruction for the detail level */
  function ExplainPrompt(code: string, language: Field<string>, detailLevel: Field<string>): (prompt: string)
    ensures Text.Contains(prompt, Fenced(OrElse(language, "code"), code))
    ensures Text.Contains(prompt, DetailInstruction(detailLevel))
  {
    ExplainPromptWith(code, language, DetailInstruction(detailLevel))
  }

  /**
   * The explanation prompt as the code builds it: the same as the intended
   * one except for a detail level naming an inherited member, where the
   * instruction line differs.
   */
  function ExplainPromptAsWritten(code: string, language: Field<string>, detailLevel: Field<string>): (prompt: string)
    ensures Text.Contains(prompt, DetailInstructionAsWritten(detailLevel))
    ensures !NamesInherited(detailLevel) ==> prompt == ExplainPrompt(code, language, detailLevel)
    ensures NamesInherited(detailLevel) ==> prompt != ExplainPrompt(code, language, detailLevel)
  {
    var written, intended := DetailInstructionAsWritten(detailLevel), DetailInstruction(detailLevel);
    var prompt := ExplainPromptWith(code, language, written);
    if NamesInherited(detailLevel) then
      assert prompt[1] == written[0] != intended[0] == ExplainPrompt(code, language, detailLevel)[1];
      prompt
    else prompt
  }

  /** One line of the constraint list */
  function ConstraintLine(c: string): string
  {
    "- " + c
  }

  /** `constraints.map(c => `- ${c}`)` */
  function ConstraintLines(constraints: seq<string>): seq<string>
  {
    seq(|constraints|, i requires 0 <= i < |constraints| => ConstraintLine(constraints[i]))
  }

  const ConstraintHeader := "\n\nConstraints to follow:\n"

  /** `constraintText`: empty for no constraints, else the header and one line per constraint */
  function ConstraintText(constraints: seq<string>): string
  {
    if |constraints| > 0 then ConstraintHeader + Text.Join(ConstraintLines(constraints), "\n") else ""
  }

  /**
   * The constraint text is empty exactly when there are no constraints;
   * otherwise, after the header, its lines are exactly `- c` for each
   * constraint `c` in order (when no constraint holds a line break).
   */
  lemma ConstraintTextLines(constraints: seq<string>)
    ensures ConstraintText(constraints) == "" <==> |constraints| == 0
    ensures |constraints| > 0 ==> Text.StartsWith(ConstraintText(constraints), ConstraintHeader)
    ensures |constraints| > 0 && (forall i :: 0 <= i < |constraints| ==> '\n' !in constraints[i]) ==>
      Text.Split(ConstraintText(constraints)[|ConstraintHeader|..], '\n') == ConstraintLines(constraints)
  {
    if |constraints| > 0 {
      var text := ConstraintText(constraints);
      assert text[..|ConstraintHeader|] == ConstraintHeader;
      if forall i :: 0 <= i < |constraints| ==> '\n' !in constraints[i] {
        var lines := ConstraintLines(constraints);
        forall i | 0 <= i < |lines| ensures '\n' !in lines[i] {
          assert lines[i] == "- " + constraints[i];
        }
        assert text[|ConstraintHeader|..] == Text.Join(lines, "\n");
        Text.SplitJoin(lines, '\n');
      }
    }
  }

  /** The opening of the refactoring prompt, before the constraints */
  function RefactorIntro(language: Field<string>, refactorType: Field<string>): string
  {
    "\nRefactor the following " + OrElse(language, "code") + " with focus on " + Interp(refactorType) + ".\n\n"
  }

  /** The label of the code block, after the constraints */
  const RefactorCodeLabel := "\n\nOriginal code:\n"

  const RefactorTail := "\n\nProvide:\n1. Refactored code with improvements\n2. Summary of changes made\n"
    + "3. Benefits of the refactoring\n4. Alternative approaches considered\n"

  /** The refactoring prompt */
  function RefactorPrompt(code: string, language: Field<string>, refactorType: Field<string>,
                          constraints: seq<string>): (prompt: string)
    ensures Text.Contains(prompt, Fenced(OrElse(language, "code"), code))
    ensures Text.Contains(prompt, RefactorIntro(language, refactorType))
    ensures Text.Contains(prompt, ConstraintText(constraints))
  {
    var intro, listed, fence := RefactorIntro(language, refactorType), ConstraintText(constraints),
                                Fenced(OrElse(language, "code"), code);
    Text.ContainsEachOfFive(intro, listed, RefactorCodeLabel, fence, RefactorTail);
    intro + listed + RefactorCodeLabel + fence + RefactorTail
  }

  /** The 200 reply to an analysis */
  function AnalyzeReply(analysisType: Field<string>, language: Field<string>, text: string, clock: Clock): (r: Response)
    requires !analysisType.Absent?
    ensures r.status == 200 && r.payload.JsonPayload?
    ensures Get(r.payload.value, "success") == Some(Bool(true))
    ensures Get2(r.payload.value, "analysis", "type") == Some(ToJson(analysisType))
    ensures Get2(r.payload.value, "analysis", "language") == Some(Str(OrElse(language, "unknown")))
    ensures Get2(r.payload.value, "analysis", "findings") == Some(Str(text))
  {
    var analysis := [("type", ToJson(analysisType)), ("language", Str(OrElse(language, "unknown"))),
                     ("findings", Str(text)), ("timestamp", Str(clock.iso))];
    var members := [("success", Bool(true)), ("analysis", Obj(analysis))];
    LookupAt(members, 1, "analysis");
    LookupAt(analysis, 1, "language");
    LookupAt(analysis, 2, "findings");
    Response(200, JsonPayload(Obj(members)))
  }

  /** `handleAnalyze(req, res)` for a request with a body */
  function HandleAnalyze(body: Body, client: Client, clock: Clock): (o: Outcome)
    ensures o.modelCall.Some? <==> Truthy(body.code)
    ensures !Truthy(body.code) ==> o == Reply(BadRequest("Code is required"))
    ensures Truthy(body.code) ==>
      o.modelCall == Some(Generate(BrainModel, AnalyzePrompt(body.code.value, body.language, WithDefault(body.analysisType, "general"))))
    ensures o.modelCall.Some? && client(o.modelCall.value).Failed? ==> o.response == Some(ServiceError("Failed to analyze code"))
    ensures o.modelCall.Some? && client(o.modelCall.value).Generated? ==>
      o.response == Some(AnalyzeReply(WithDefault(body.analysisType, "general"), body.language,
                                      client(o.modelCall.value).text, clock))
  {
    if !Truthy(body.code) then Reply(BadRequest("Code is required"))
    else
      var analysisType := WithDefault(body.analysisType, "general");
      var call := Generate(BrainModel, AnalyzePrompt(body.code.value, body.language, analysisType));
      Outcome(Some(call), Some(
        match client(call)
        case Failed => ServiceError("Failed to analyze code")
        case Generated(text, _) => AnalyzeReply(analysisType, body.language, text, clock)))
  }

  /** The 200 reply to an explanation */
  function ExplainReply(code: string, language: Field<string>, detailLevel: Field<string>, text: string,
                        clock: Clock): (r: Response)
    requires !detailLevel.Absent?
    ensures r.status == 200 && r.payload.JsonPayload?
    ensures Get(r.payload.value, "success") == Some(Bool(true))
    ensures Get2(r.payload.value, "explanation", "code") == Some(Str(code))
    ensures Get2(r.payload.value, "explanation", "language") == Some(Str(OrElse(language, "unknown")))
    ensures Get2(r.payload.value, "explanation", "detailLevel") == Some(ToJson(detailLevel))
    ensures Get2(r.payload.value, "explanation", "explanation") == Some(Str(text))
  {
    var explanation := [("code", Str(code)), ("language", Str(OrElse(language, "unknown"))),
                        ("detailLevel", ToJson(detailLevel)), ("explanation", Str(text)), ("timestamp", Str(clock.iso))];
    var members := [("success", Bool(true)), ("explanation", Obj(explanation))];
    LookupAt(members, 1, "explanation");
    LookupAt(explanation, 0, "code");
    LookupAt(explanation, 1, "language");
    LookupAt(explanation, 2, "detailLevel");
    LookupAt(explanation, 3, "explanation");
    Response(200, JsonPayload(Obj(members)))
  }

  /** `handleExplain(req, res)` for a request with a body */
  function HandleExplain(body: Body, client: Client, clock: Clock): (o: Outcome)
    ensures o.modelCall.Some? <==> Truthy(body.code)
    ensures !Truthy(body.code) ==> o == Reply(BadRequest("Code is required"))
    ensures Truthy(body.code) ==>
      o.modelCall == Some(Generate(BrainModel, ExplainPrompt(body.code.value, body.language, WithDefault(body.detailLevel, "medium"))))
    ensures o.modelCall.Some? && client(o.modelCall.value).Failed? ==> o.response == Some(ServiceError("Failed to explain code"))
    ensures o.modelCall.Some? && client(o.modelCall.value).Generated? ==>
      o.response == Some(ExplainReply(body.code.value, body.language, WithDefault(body.detailLevel, "medium"),
                                      client(o.modelCall.value).text, clock))
  {
    if !Truthy(body.code) then Reply(BadRequest("Code is required"))
    else
      var detailLevel := WithDefault(body.detailLevel, "medium");
      var call := Generate(BrainModel, ExplainPrompt(body.code.value, body.language, detailLevel));
      Outcome(Some(call), Some(
        match client(call)
        case Failed => ServiceError("Failed to explain code")
        case Generated(text, _) => ExplainReply(body.code.value, body.language, detailLevel, text, clock)))
  }

  /** `constraints` as the JSON array echoed back */
  function StringArray(items: seq<string>): (v: Value)
    ensures v.Arr? && |v.items| == |items|
    ensures forall i :: 0 <= i < |items| ==> v.items[i] == Str(items[i])
  {
    Arr(seq(|items|, i requires 0 <= i < |items| => Str(items[i])))
  }

  /** The 200 reply to a refactoring */
  function RefactorReply(code: string, language: Field<string>, refactorType: Field<string>, text: string,
                         constraints: seq<string>, clock: Clock): (r: Response)
    requires !refactorType.Absent?
    ensures r.status == 200 && r.payload.JsonPayload?
    ensures Get(r.payload.value, "success") == Some(Bool(true))
    ensures Get2(r.payload.value, "refactor", "original") == Some(Str(code))
    ensures Get2(r.payload.value, "refactor", "language") == Some(Str(OrElse(language, "unknown")))
    ensures Get2(r.payload.value, "refactor", "type") == Some(ToJson(refactorType))
    ensures Get2(r.payload.value, "refactor", "refactored") == Some(Str(text))
    ensures Get2(r.payload.value, "refactor", "constraints") == Some(StringArray(constraints))
  {
    var refactor := [("original", Str(code)), ("language", Str(OrElse(language, "unknown"))),
                     ("type", ToJson(refactorType)), ("refactored", Str(text)),
                     ("constraints", StringArray(constraints)), ("timestamp", Str(clock.iso))];
    var members := [("success", Bool(true)), ("refactor", Obj(refactor))];
    LookupAt(members, 1, "refactor");
    LookupAt(refactor, 0, "original");
    LookupAt(refactor, 1, "language");
    LookupAt(refactor, 2, "type");
    LookupAt(refactor, 3, "refactored");
    LookupAt(refactor, 4, "constraints");
    Response(200, JsonPayload(Obj(members)))
  }

  /** `handleRefactor(req, res)` for a request with a body */
  function HandleRefactor(body: Body, client: Client, clock: Clock): (o: Outcome)
    ensures o.modelCall.Some? <==> Truthy(body.code) && !body.constraints.Null?
    ensures !Truthy(body.code) ==> o == Reply(BadRequest("Code is required"))
    ensures Truthy(body.code) && body.constraints.Null? ==> o == Reply(ServiceError("Failed to refactor code"))
    ensures Truthy(body.code) && !body.constraints.Null? ==>
      o.modelCall == Some(Generate(BrainModel, RefactorPrompt(body.code.value, body.language, WithDefault(body.refactorType, "general"),
                                                              WithDefault(body.constraints, []).value)))
    ensures o.modelCall.Some? && client(o.modelCall.value).Failed? ==> o.response == Some(ServiceError("Failed to refactor code"))
    ensures o.modelCall.Some? && client(o.modelCall.value).Generated? ==>
      o.response == Some(RefactorReply(body.code.value, body.language, WithDefault(body.refactorType, "general"),
                                       client(o.modelCall.value).text, WithDefault(body.constraints, []).value, clock))
  {
    if !Truthy(body.code) then Reply(BadRequest("Code is required"))
    else if body.constraints.Null? then
      // `constraints.length` on null throws inside the try around the model call
      Reply(ServiceError("Failed to refactor code"))
    else
      var refactorType := WithDefault(body.refactorType, "general");
      var constraints := WithDefault(body.constraints, []).value;
      var call := Generate(BrainModel, RefactorPrompt(body.code.value, body.language, refactorType, constraints));
      Outcome(Some(call), Some(
        match client(call)
        case Failed => ServiceError("Failed to refactor code")
        case Generated(text, _) => RefactorReply(body.code.value, body.language, refactorType, text, constraints, clock)))
  }

  /**
   * A given kind of analysis, detail level or refactoring is echoed back
   * verbatim; a missing one is echoed as its default.
   */
  lemma RepliesEchoKind(body: Body, text: string, clock: Clock)
    ensures (body.analysisType.Given? ==>
      Get2(AnalyzeReply(WithDefault(body.analysisType, "general"), body.language, text, clock).payload.value, "analysis", "type")
        == Some(Str(body.analysisType.value)))
    ensures (body.analysisType.Absent? ==>
      Get2(AnalyzeReply(WithDefault(body.analysisType, "general"), body.language, text, clock).payload.value, "analysis", "type")
        == Some(Str("general")))
    ensures (body.detailLevel.Absent? ==>
      Get2(ExplainReply("", body.language, WithDefault(body.detailLevel, "medium"), text, clock).payload.value,
           "explanation", "detailLevel") == Some(Str("medium")))
    ensures (body.refactorType.Absent? ==>
      Get2(RefactorReply("", body.language, WithDefault(body.refactorType, "general"), text, [], clock).payload.value,
           "refactor", "type") == Some(Str("general")))
  {
  }

  /** One of the three brain paths */
  predicate IsBrainRoute(path: Option<string>)
  {
    path == Some(AnalyzePath) || path == Some(ExplainPath) || path == Some(RefactorPath)
  }

  /** `brainHandler(req, res)` */
  function Handle(req: Request, client: Client, clock: Clock): (o: Outcome)
    ensures !IsBrainRoute(SubPath(req.url)) ==> o == Reply(NotFound("Brain endpoint not found"))
    ensures IsBrainRoute(SubPath(req.url)) && req.httpMethod != "POST" ==> o == NoReply
    ensures IsBrainRoute(SubPath(req.url)) && req.httpMethod == "POST" && req.body.None? ==>
      o == Reply(OperationFailed("Brain operation failed"))
    ensures SubPath(req.url) == Some(AnalyzePath) && req.httpMethod == "POST" && req.body.Some? ==>
      o == HandleAnalyze(req.body.value, client, clock)
    ensures SubPath(req.url) == Some(ExplainPath) && req.httpMethod == "POST" && req.body.Some? ==>
      o == HandleExplain(req.body.value, client, clock)
    ensures SubPath(req.url) == Some(RefactorPath) && req.httpMethod == "POST" && req.body.Some? ==>
      o == HandleRefactor(req.body.value, client, clock)
  {
    var path := SubPath(req.url);
    if path == Some(AnalyzePath) then
      if req.httpMethod == "POST" then WithBody(req, "Brain operation failed", b => HandleAnalyze(b, client, clock)) else NoReply
    else if path == Some(ExplainPath) then
      if req.httpMethod == "POST" then WithBody(req, "Brain operation failed", b => HandleExplain(b, client, clock)) else NoReply
    else if path == Some(RefactorPath) then
      if req.httpMethod == "POST" then WithBody(req, "Brain operation failed", b => HandleRefactor(b, client, clock)) else NoReply
    else Reply(NotFound("Brain endpoint not found"))
  }
}
