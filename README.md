# The AI-for-coders serverless API, modelled in Dafny

This project models the request-handling layer of the AI-for-coders API.
That layer is a single serverless entry point. It sets the CORS headers,
answers preflight requests, and routes every other request by URL prefix to
one of four sub-routers:

- **auth** pairs a device and verifies a token. Both are placeholders: the
  token is `mock-token-` followed by the clock in milliseconds, and every
  non-empty token is accepted.
- **chat** sends a message and the earlier conversation to the generative
  model. It also has two placeholder history routes.
- **brain** builds an analysis, explanation or refactoring prompt around a
  piece of code and sends it to the model.
- **automation** returns a fixed screenshot analysis. It also asks the model
  for an automated fix of an issue.

Besides these, the model covers:

- the error middleware: `errorHandler`, `notFoundHandler` and `createError`;
- the environment configuration record and its validation;
- the two pure helpers of the encryption utilities: the HTML-escaping
  sanitiser and the key-length check.

The model is pure: datatypes, functions and lemmas. The core holds no state
across requests. It changes things in place only locally:

- the error middleware adds `requestId` to the response object it is
  building, and overwrites the message in production;
- `createError` sets `statusCode` and `code` on a fresh Error.

The model renders each of these as a record built once, with its final
members. A handler is a function from the request to an `Outcome`, which
holds two things:

- the model call the handler made, if any;
- the response it sent, if any. A `break` out of a sub-router's `switch`
  sends nothing; that outcome is `NoReply`.

The generative-model client is a parameter (`ModelCall -> ModelResult`). Its
answer is either a text or `Failed`, which stands for any thrown error. The
clock is also a parameter: an ISO text and a millisecond count. So is the
process environment, a map from variable name to value.

JavaScript behaviour that the handlers depend on is written out:

- A body member is `Absent` (`undefined`), `Null` or `Given`.
- A destructuring default replaces `Absent` only.
- `x || d` and `!x` use JavaScript truthiness.
- A template prints `undefined` and `null` as those words.
- `JSON.stringify` drops an `undefined` member.
- A request without a body makes destructuring throw. The sub-router's catch
  then answers 500.

Modules follow the source files:

- `Api` models `index.ts`.
- `AuthHandler`, `ChatHandler`, `BrainHandler` and `AutomationHandler` model
  the four sub-routers.
- `ErrorHandler` models the middleware.
- `Encryption` models the two helpers.
- `EnvConfig` models the configuration.
- `Http`, `Json`, `Text` and `Wrappers` hold the shared request, response,
  JSON and string vocabulary.

The brain sub-router modelled is `temp-repo/apps/api/src/api/brain/brain.handler.ts`.
The configuration modelled is `temp-repo/apps/api/src/config/env.config.ts`.
The one place the model departs from the code is the detail-level lookup
under "## Findings". The explanation handler uses the corrected lookup, and
the lookup as written is modelled beside it.

Behaviours of the code that are easy to misread:

- `ALLOWED_ORIGINS` set to the empty string gives `[""]`, not the default
  origins. The code uses `?.split`, and a non-empty array is truthy.
- The request id is added only when the header is present and non-empty.
- The error middleware reads `NODE_ENV` from the process environment, not
  from the configuration record. `ProductionMasking` shows the two agree.
- A refactoring request with `constraints: null` does not call the model.
  The `.length` read throws inside the handler's try, and the answer is
  500 "Failed to refactor code".

## Model

| member | source | states |
|---|---|---|
| Api.Handler | apps/api/src/index.ts:9-54 | every response carries the four CORS headers; each route (preflight, the four prefixes, health, other) yields exactly the outcome of its branch |
| Api.RoutingPath | apps/api/src/index.ts:21-22 | the routing path is the url up to the first `?`: a prefix of the url, free of `?`, and the whole url when it has no query; a missing url routes as "" |
| Api.RouteOf | apps/api/src/index.ts:17-42 | OPTIONS and only OPTIONS is a preflight; each sub-router route implies its prefix on the routing path, and each of the four prefixes on a non-OPTIONS request reaches its sub-router; the health branch is taken exactly for a non-OPTIONS request on the health path; an unrouted path carries no prefix and is not the health path |
| Api.RoutingIgnoresQuery | apps/api/src/index.ts:21-22 | the path of `p?q` is `p` for every query `q` |
| Api.RouteIgnoresQuery | apps/api/src/index.ts:21-39 | adding a query string never changes which branch a request takes |
| Api.PrefixesDisjoint | apps/api/src/index.ts:25-42 | no path carries two of the four prefixes, and the health path carries none, so the order of the tests is immaterial |
| Api.PreflightAlwaysOk | apps/api/src/index.ts:17-19 | an OPTIONS request is answered 200 with an empty body whatever its path, and the model is not called |
| Api.SubRoutersSeeRoutingPath | apps/api/src/index.ts:25-39 | a routed request has a url, and its sub-router's own path (`url?.split('?')[0]`) equals the path the entry point routed on |
| Api.UnknownChatRoute | apps/api/src/index.ts:29-31 | a path under the chat prefix that is neither chat route gets the chat sub-router's 404, not the entry point's |
| Api.HealthReply | apps/api/src/index.ts:42-49 | the health payload has status "healthy", version "1.0.0" and the configured environment |
| Api.HealthCheck | apps/api/src/index.ts:42-49 | the exact health path gets the health reply without a model call; an unset NODE_ENV reports "development" |
| Api.UnknownRoute | apps/api/src/index.ts:51-54 | a path outside `/api/` gets 404 "API route p not found", naming the path without its query |
| Api.ChatRoundTrip | apps/api/src/index.ts:29-31 | end to end: a message posted with a query string reaches the model with the default model, temperature and token limit, and the model's text comes back as the assistant message |
| AuthHandler.MockToken | apps/api/src/api/auth/auth.handler.ts:52 | the token is "mock-token-" followed by a non-empty run of decimal digits |
| AuthHandler.MockTokenRoundTrip | apps/api/src/api/auth/auth.handler.ts:52 | the token's digits read back as the clock; two tokens are equal exactly when their clocks are |
| AuthHandler.HandlePair | apps/api/src/api/auth/auth.handler.ts:40-61 | 400 "Code and deviceId are required" exactly when either is falsy; otherwise 200 with the token, expiresIn "24h" and the device id echoed |
| AuthHandler.HandleVerify | apps/api/src/api/auth/auth.handler.ts:63-79 | 400 "Token is required" exactly when the token is falsy; otherwise 200 with valid true |
| AuthHandler.PairedTokenVerifies | apps/api/src/api/auth/auth.handler.ts:40-79 | a token issued by pairing passes verification |
| AuthHandler.Handle | apps/api/src/api/auth/auth.handler.ts:7-38 | the routing of the auth sub-router: its two POST routes, no reply for other methods, its 404, 500 "Authentication failed" without a body, and never a model call |
| ChatHandler.GeminiHistory | apps/api/src/api/chat/chat.handler.ts:57-60 | a given history converts to one item per entry; a missing or null one converts to the empty history |
| ChatHandler.ChatCall | apps/api/src/api/chat/chat.handler.ts:44-70 | the model call is a chat with the converted history, at most 2048 output tokens and the non-empty message; a missing model is "gemini-pro" and a missing temperature 0.7, while given or null ones are passed on as they are |
| ChatHandler.HistoryMapping | apps/api/src/api/chat/chat.handler.ts:57-60 | the history conversion keeps length and order; a role becomes "user" exactly when it is "user", else "model"; the content becomes the single text part; a missing or null history is empty |
| ChatHandler.HistoryAppend | apps/api/src/api/chat/chat.handler.ts:57-60 | converting a concatenated history converts each part |
| ChatHandler.UsageMembers | apps/api/src/api/chat/chat.handler.ts:81-85 | promptTokens, completionTokens and totalTokens each hold the service's count when it reported one and are dropped otherwise; no usage gives an empty object |
| ChatHandler.ChatReply | apps/api/src/api/chat/chat.handler.ts:74-86 | the success reply is 200 with success true and an assistant message whose content is the model's text; its usage object echoes the three token counts |
| ChatHandler.HandleMessage | apps/api/src/api/chat/chat.handler.ts:43-95 | the model is called exactly when the message is truthy, with the body's model and temperature or "gemini-pro" and 0.7 and at most 2048 tokens; 400 "Message is required" otherwise; a failed call gives 500 "Failed to generate response" |
| ChatHandler.HandleHistory | apps/api/src/api/chat/chat.handler.ts:97-107 | always 200 with an empty history; the userId query parameter is echoed exactly when present |
| ChatHandler.HandleSaveHistory | apps/api/src/api/chat/chat.handler.ts:109-125 | 400 "userId and history are required" exactly when userId is falsy or history is missing or null; otherwise 200 echoing userId |
| ChatHandler.Handle | apps/api/src/api/chat/chat.handler.ts:7-41 | the routing of the chat sub-router: POST message, GET and POST history, no reply for other methods, its 404, and 500 "Chat operation failed" without a body |
| BrainHandler.FocusList | temp-repo/apps/api/src/api/brain/brain.handler.ts:62-64 | "security" and "performance" pick their own bullets; every other analysis type picks the general ones |
| BrainHandler.AnalyzePrompt | temp-repo/apps/api/src/api/brain/brain.handler.ts:59-76 | the analysis prompt contains its opening line with the language or "code", the bullets of the chosen analysis type, and the code verbatim in a block fenced with the language or "code" |
| BrainHandler.DetailInstructions | temp-repo/apps/api/src/api/brain/brain.handler.ts:114-118 | the three detail levels have their own instructions; every other level gets the balanced fallback |
| BrainHandler.DetailInstructionAsWritten | temp-repo/apps/api/src/api/brain/brain.handler.ts:114-118 | the lookup as written agrees with the intended one on every level that is not an inherited member name, and differs from it on each of those |
| BrainHandler.DetailLevelToString | temp-repo/apps/api/src/api/brain/brain.handler.ts:114-118 | as written, the level "toString" puts the text of a native function into the prompt where the fallback was intended |
| BrainHandler.ExplainPromptWith | temp-repo/apps/api/src/api/brain/brain.handler.ts:120-134 | the explanation prompt contains the code verbatim in a block fenced with the language or "code", and has the instruction as its second line |
| BrainHandler.ExplainPrompt | temp-repo/apps/api/src/api/brain/brain.handler.ts:113-134 | the explanation prompt with the intended lookup holds the code block and the intended instruction for the level |
| BrainHandler.ExplainPromptAsWritten | temp-repo/apps/api/src/api/brain/brain.handler.ts:113-134 | the prompt the code builds holds the as-written instruction; it is the intended prompt except for a level naming an inherited member, where it differs |
| BrainHandler.ConstraintTextLines | temp-repo/apps/api/src/api/brain/brain.handler.ts:173 | the constraint text is empty exactly when there are no constraints; otherwise it is the header followed by one line `- c` per constraint, in order |
| BrainHandler.RefactorPrompt | temp-repo/apps/api/src/api/brain/brain.handler.ts:173-190 | the refactoring prompt contains its opening line with the language and the kind of refactoring, the constraint text, and the code verbatim in a block fenced with the language or "code" |
| BrainHandler.AnalyzeReply | temp-repo/apps/api/src/api/brain/brain.handler.ts:82-90 | the analysis reply is 200 and carries the type, the language or "unknown", and the model's text as findings |
| BrainHandler.HandleAnalyze | temp-repo/apps/api/src/api/brain/brain.handler.ts:46-99 | the model is called exactly when the code is truthy, with the analysis prompt and the type defaulted to "general"; 400 "Code is required" otherwise; a failed call gives 500 "Failed to analyze code" |
| BrainHandler.ExplainReply | temp-repo/apps/api/src/api/brain/brain.handler.ts:140-149 | the explanation reply is 200 and carries the code, the language or "unknown", the detail level and the model's text |
| BrainHandler.HandleExplain | temp-repo/apps/api/src/api/brain/brain.handler.ts:101-158 | the model is called exactly when the code is truthy, with the explanation prompt (intended lookup) and the level defaulted to "medium"; 400 otherwise; a failed call gives 500 "Failed to explain code" |
| BrainHandler.StringArray | temp-repo/apps/api/src/api/brain/brain.handler.ts:203 | the echoed constraints are a JSON array of the same strings in the same order |
| BrainHandler.RefactorReply | temp-repo/apps/api/src/api/brain/brain.handler.ts:196-205 | the refactoring reply is 200 and carries the original code, the language or "unknown", the type, the model's text and the constraints |
| BrainHandler.HandleRefactor | temp-repo/apps/api/src/api/brain/brain.handler.ts:160-215 | the model is called exactly when the code is truthy and the constraints are not null, with the type defaulted to "general" and the constraints to []; 400 when the code is falsy; 500 "Failed to refactor code" for null constraints or a failed call |
| BrainHandler.RepliesEchoKind | temp-repo/apps/api/src/api/brain/brain.handler.ts:47-201 | a given analysis type is echoed verbatim; a missing type, level or refactoring kind is echoed as its default |
| BrainHandler.Handle | temp-repo/apps/api/src/api/brain/brain.handler.ts:7-44 | the routing of the brain sub-router: three POST routes, no reply for other methods, its 404, and 500 "Brain operation failed" without a body |
| AutomationHandler.CaptureAnalysis | apps/api/src/api/automation/automation.handler.ts:53-65 | the analysis carries the type, the context exactly when one was sent, and the single canned finding |
| AutomationHandler.HandleCapture | apps/api/src/api/automation/automation.handler.ts:40-79 | 400 "Screenshot data is required" exactly when the screenshot is falsy; otherwise 200 with the analysis of the type, defaulted to "screen", and the context |
| AutomationHandler.CaptureEchoes | apps/api/src/api/automation/automation.handler.ts:41-65 | a capture reports the type asked for, or "screen"; it echoes a given context and omits a missing one; it lists the one finding |
| AutomationHandler.FixPrompt | apps/api/src/api/automation/automation.handler.ts:94-110 | the fix prompt contains the issue, the code in an unlabelled fence, and the fix-type line |
| AutomationHandler.FixTypeDefault | apps/api/src/api/automation/automation.handler.ts:82-103 | a missing fix type is stated as "automated" and a given one verbatim |
| AutomationHandler.FixReply | apps/api/src/api/automation/automation.handler.ts:116-125 | the fix reply is 200 and echoes the issue, the code and the fix type, with the model's text as the solution |
| AutomationHandler.HandleApplyFix | apps/api/src/api/automation/automation.handler.ts:81-134 | the model is called exactly when the issue and the code are both truthy; 400 "Issue description and current code are required" otherwise; a failed call gives 500 "Failed to generate fix" |
| AutomationHandler.Handle | apps/api/src/api/automation/automation.handler.ts:7-38 | the routing of the automation sub-router: two POST routes, no reply for other methods, its 404, and 500 "Automation operation failed" without a body |
| ErrorHandler.StatusOf | apps/api/src/api/middleware/error.handler.ts:18 | the status is never 0: the error's status code when it is present and non-zero, else 500 |
| ErrorHandler.CodeOf | apps/api/src/api/middleware/error.handler.ts:20 | the code is never empty: the error's code when it is present and non-empty, else "INTERNAL_ERROR" |
| ErrorHandler.ShownMessage | apps/api/src/api/middleware/error.handler.ts:19 | the shown message is never empty: "Something went wrong" for a 500 in production, else the error's message, or "Internal Server Error" when that is empty |
| ErrorHandler.RequestId | apps/api/src/api/middleware/error.handler.ts:32-34 | a request id is reported exactly when the header is present and non-empty, and then it is the header's value |
| ErrorHandler.RespondToError | apps/api/src/api/middleware/error.handler.ts:8-42 | the response has the error's status, success false, the code and the shown message; it has a requestId exactly when the header is truthy, and then with the header's value |
| ErrorHandler.ProductionMasking | apps/api/src/api/middleware/error.handler.ts:19-39 | in production a 500 shows "Something went wrong"; otherwise the error's own message is shown, or "Internal Server Error" when it is empty |
| ErrorHandler.RespondNotFound | apps/api/src/api/middleware/error.handler.ts:44-53 | 404 with code NOT_FOUND and the message "Route METHOD URL not found" |
| ErrorHandler.CreateError | apps/api/src/api/middleware/error.handler.ts:61-66 | the created error has the given status and message, and the given code or "CUSTOM_ERROR" |
| ErrorHandler.CreatedErrorRoundTrip | apps/api/src/api/middleware/error.handler.ts:8-66 | a created error comes back out of the middleware with its own status, message and code, unless it is a 500 in production |
| ErrorHandler.CreatedErrorDefaultCode | apps/api/src/api/middleware/error.handler.ts:61-66 | a created error without a code is reported as CUSTOM_ERROR, not INTERNAL_ERROR |
| Encryption.EscapeChar | apps/api/src/utils/encryption.util.ts:56-67 | each of the five special characters becomes an entity `&...;`; every other character stays itself |
| Encryption.SanitizeInput | apps/api/src/utils/encryption.util.ts:56-67 | the result contains no `<`, `>`, `"` or `'`, and is at least as long as the input |
| Encryption.SanitizeAppend | apps/api/src/utils/encryption.util.ts:56-67 | sanitising distributes over concatenation |
| Encryption.SanitizeClean | apps/api/src/utils/encryption.util.ts:56-67 | a string without the five characters is returned unchanged |
| Encryption.EscapeTable | apps/api/src/utils/encryption.util.ts:58-64 | the escape table: `&lt;`, `&gt;`, `&quot;`, `&#x27;`, `&amp;` |
| Encryption.UnescapeSanitize | apps/api/src/utils/encryption.util.ts:56-67 | decoding the five entities gives back the input, so sanitising loses nothing |
| Encryption.Utf16Length | apps/api/src/utils/encryption.util.ts:53 | `key.length` counts UTF-16 code units: at least one and at most two per character |
| Encryption.Utf16LengthBasic | apps/api/src/utils/encryption.util.ts:53 | a string without characters above U+FFFF has one code unit per character |
| Encryption.Utf16LengthAstral | apps/api/src/utils/encryption.util.ts:53 | a string of characters above U+FFFF has two code units per character |
| Encryption.ValidateEncryptionKey | apps/api/src/utils/encryption.util.ts:52-54 | the result is "" exactly for the empty key; for any other key it is the boolean "at least 32 UTF-16 code units" |
| Encryption.KeyAcceptedIffLong | apps/api/src/utils/encryption.util.ts:52-54 | a key is accepted (the result is truthy) exactly when it has at least 32 UTF-16 code units |
| Encryption.KeyLengthInCodeUnits | apps/api/src/utils/encryption.util.ts:52-54 | a key without characters above U+FFFF is accepted exactly when it has 32 characters or more; 16 characters above U+FFFF are already accepted |
| EnvConfig.Load | temp-repo/apps/api/src/config/env.config.ts:1-35 | every `||` member is its variable when that is set and non-empty, else its fallback: "development", "http://localhost:3000", "3000", "your-secret-key-change-in-production", "", "900000", "100", "your-encryption-key-32-chars", "your-iv-16-chars"; so every member with a non-empty fallback is non-empty, and the Gemini key is empty exactly when its variable is unset or empty; DATABASE_URL, VERCEL_ENV and VERCEL_URL are present exactly when set, with their values; there is always at least one allowed origin |
| EnvConfig.Or | temp-repo/apps/api/src/config/env.config.ts:1-35 | `process.env[k] || d` is `d` exactly when the variable is unset or empty |
| EnvConfig.EmptyIsUnset | temp-repo/apps/api/src/config/env.config.ts:1-35 | for every variable read with a fallback, setting it to "" loads the same configuration as leaving it unset |
| EnvConfig.AllowedOrigins | temp-repo/apps/api/src/config/env.config.ts:26 | the origins are the two local ones when the variable is unset; otherwise its comma-separated pieces, which join back to it |
| EnvConfig.EnvironmentKinds | temp-repo/apps/api/src/config/env.config.ts:48-55 | production and development exclude each other; an unset or empty NODE_ENV means development |
| EnvConfig.IsProduction | temp-repo/apps/api/src/config/env.config.ts:48-50 | a production configuration is not a development one and has a non-empty environment |
| EnvConfig.IsDevelopment | temp-repo/apps/api/src/config/env.config.ts:53-55 | a development configuration is not a production one and has a non-empty environment |
| EnvConfig.ValidateConfig | temp-repo/apps/api/src/config/env.config.ts:38-45 | validation throws exactly when some required variable is unset or empty, with a message starting "Missing required environment variables: " |
| EnvConfig.MissingKeysExactly | temp-repo/apps/api/src/config/env.config.ts:38-41 | a key is reported missing exactly when it is required and its variable is unset or empty |
| EnvConfig.ValidateConfigThrows | temp-repo/apps/api/src/config/env.config.ts:38-45 | validation throws exactly when GEMINI_API_KEY is unset or empty, with the message naming it |
| Http.SubPath | apps/api/src/api/chat/chat.handler.ts:9 | a sub-router's path exists exactly when the url does; it is a prefix of the url and free of `?` |
| Http.WithDefault | apps/api/src/api/chat/chat.handler.ts:44 | a destructuring default replaces a missing member only, never a null one |
| Text.JoinSplit | temp-repo/apps/api/src/config/env.config.ts:26 | joining the pieces of a split with the separator gives back the string |
| Text.SplitJoin | temp-repo/apps/api/src/api/brain/brain.handler.ts:173 | splitting a join of separator-free pieces gives back the pieces |
| Text.DecimalRoundTrip | apps/api/src/api/auth/auth.handler.ts:52 | the decimal rendering of a millisecond count reads back as that count |

## Left out

- The generative-model client is a parameter. The model covers the request
  it is sent and what is done with its answer; its network calls and its
  binding to `GEMINI_API_KEY` are not modelled.
- Logging (`console.error`) has no effect on responses and is left out.
- The clock is a parameter giving an ISO text and a millisecond count. The
  rendering of a count of 10^21 or more in exponent form is not modelled.
- `encrypt`, `decrypt`, `hashData` and `generateSecureToken` are
  cryptographic or random. Only the two pure helpers are modelled.
- `asyncHandler` only forwards a rejected promise; it is not modelled.
- The top-level catch of the entry point is not modelled. The entry point
  `return`s each sub-router's promise without `await`. So a rejection from a
  sub-router would never reach that `try` in any case. Each sub-router also
  catches everything itself. The remaining statements in the `try` (setting
  headers, writing a response) are not modelled as throwing.
- `PORT`, `RATE_LIMIT_WINDOW_MS` and `RATE_LIMIT_MAX` are kept as the text
  handed to `parseInt`. The integer parse (and NaN) is not modelled because
  nothing in the core reads them.
- Body members of an unexpected JSON type are not modelled: a number where
  a string is expected, or a non-array history or constraint list. Each
  string member is a string, null or missing, and `context` is any JSON
  value.
- The query map is a separate input, not parsed from the url. A repeated
  query parameter (an array value) is not modelled.
- `res.status` throws on an invalid status code; this is not modelled, so
  `ErrorHandler.StatusOf` accepts any non-zero status.
- JSON numbers are `real`, and the constants 0.7 and 0.85 are exact.
- The web front end and the shared constants and types are not part of this
  model.
- Api.HealthReply: the timestamp member is carried but not stated.
- BrainHandler.HandleExplain: it builds its prompt with the corrected
  detail-level lookup, so for a level naming one of the twelve members
  inherited from `Object.prototype` its prompt differs from the code's.
  The code's prompt is `BrainHandler.ExplainPromptAsWritten`, and the two
  are proved equal on every other level.

## Findings

| source | as written | input that shows it | evidently intended | confidence | as-written member | corrected member |
|---|---|---|---|---|---|---|
| temp-repo/apps/api/src/api/brain/brain.handler.ts:114-118 | the detail instruction is looked up by indexing an object literal, so inherited members such as `toString`, `constructor` or `__proto__` are found and are truthy | `detailLevel: "toString"` puts "function toString() { [native code] }" into the prompt | any level other than simple, medium and detailed gets "Provide a balanced explanation" | not executed | BrainHandler.DetailInstructionAsWritten and BrainHandler.ExplainPromptAsWritten (shown by BrainHandler.DetailLevelToString) | BrainHandler.DetailInstruction and BrainHandler.ExplainPrompt |
