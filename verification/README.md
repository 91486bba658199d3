# fa-mcp-server-core in Dafny

A model of the request-handling core of fa-mcp-server-core, a TypeScript
framework for Model Context Protocol (MCP) servers, with proofs about it.
The model covers:

- the bearer-token gate: the token shape, issuing a token, checking it in a fixed order of failure reasons, the HTTP verdict, and the token-generator endpoints;
- the MCP error classes and their JSON-RPC error envelope;
- the POST `/mcp` pipeline: authorisation, rate-limit points, the method switch and error normalisation, plus `/health` and the 404 listing;
- the prompt, resource and tool catalogs and the tool router;
- the three test clients: id counters, request headers and the classification of replies;
- small utilities: value predicates, `isMainModule`, the main-database helpers, the about page's computed parts, the favicon middleware, and the Markdown test report.

The model follows the structure of the source, one module per file.

- Pure code becomes functions over a small JavaScript value type (`Js.Value`: undefined, null, booleans, integers, strings, arrays and objects).
- Code that changes state becomes classes:
  - the test clients' counters and request logs;
  - the prompt and resource caches;
  - the rate limiter's history and the HTTP response;
  - the recordset that `mergeByBatch` empties;
  - the test result whose response object the report rewrites.
- Foreign code becomes function-typed parameters:
  - AES encryption and decryption;
  - `JSON.stringify` and `JSON.parse`;
  - SHA-1;
  - `fetch` and the event source;
  - the limiter's decision;
  - the tool, resource and prompt handlers;
  - the clock.
- What those must satisfy is stated as a precondition where a proof needs it: decryption undoes encryption, and parsing undoes serialising.

## Model

| member | source | states |
|---|---|---|
| TokenCore.PermanentSet | src/core/token/token-core.ts:13 | the permanent-token set holds exactly the elements of a configured array, or the single configured value |
| TokenCore.MatchToken | src/core/token/token-core.ts:22 | a match splits the token at its dot into at least 13 decimal digits and at least 32 hex digits |
| TokenCore.MatchTokenComplete | src/core/token/token-core.ts:22 | every `<13+ digits>.<32+ hex>` string matches, and is split into exactly those two parts |
| TokenCore.TokenShapeIsTrimmed | src/core/token/token-core.ts:81 | trimming leaves a string of the token shape unchanged |
| TokenCore.OpensTo | src/core/token/token-core.ts:94-121 | a well-shaped non-permanent token whose ciphertext decrypts and parses gets past the early steps with the expiry read from its digit prefix and the parsed payload |
| TokenCore.DecryptFailed | src/core/token/token-core.ts:108-110 | a decryption failure gives a non-empty reason |
| TokenCore.ParseFailed | src/core/token/token-core.ts:117-120 | a payload that does not parse gives a non-empty reason |
| TokenCore.UserMismatch | src/core/token/token-core.ts:125-129 | a user mismatch gives a non-empty reason |
| TokenCore.Expired | src/core/token/token-core.ts:137-141 | an expired token gives a non-empty reason |
| TokenCore.NormalizeUser | src/core/token/token-core.ts:123 | a falsy user normalises to the empty string, and a string user normalises to empty only when it is all white space |
| TokenCore.Open | src/core/token/token-core.ts:81-121 | the early steps in order: empty token → 'Token not passed'; permanent token → accepted as permanent; wrong shape → not a JWT; a ciphertext that does not decrypt → 'Error decrypting JWT token :: <message>' with no type; one whose text does not parse → 'Error deserializing payload of JWT token :: <message>' as a JWT; otherwise the token opens to the expiry of its digit prefix and the parsed payload |
| TokenCore.FailureReasonsDiffer | src/core/token/token-core.ts:103-121 | a decrypt failure and a parse failure never give the same reason, whatever their messages |
| TokenCore.Verdict | src/core/token/token-core.ts:123-144 | no reason exactly when no user is expected or the payload's user matches, and `now` is not past the expiry; a mismatch is reported whatever the time; success carries the payload as a JWT |
| TokenCore.CheckTokenAsWritten | src/core/token/token-core.ts:80-145 | checkToken as written throws exactly when the token opens to a null payload and a user is expected |
| TokenCore.CheckToken | src/core/token/token-core.ts:80-145 | corrected checkToken on the trimmed token: the empty, permanent and not-a-JWT cases; the decrypt-failure and parse-failure reasons; a token that opens gets the user-then-expiry verdict for the normalised expected user; a payload only on success, and `isTokenDecrypted` only with a reason |
| TokenCore.ReasonIsNonEmpty | src/core/token/token-core.ts:80-145 | every reason checkToken gives is a non-empty string |
| TokenCore.EarlyReasonIsNonEmpty | src/core/token/token-core.ts:81-121 | every reason from the early steps is non-empty |
| TokenCore.CheckTokenAgrees | src/core/token/token-core.ts:123-130 | whenever checkToken as written returns, it returns the corrected checkToken's result |
| TokenCore.CheckTokenAccepts | src/core/token/token-core.ts:123-144 | a token is accepted as a JWT exactly when it opens, its user matches (if one is expected) and it has not expired |
| TokenCore.PermanentNeedsNoCipher | src/core/token/token-core.ts:88-92 | a permanent token is accepted whatever the cipher and JSON codec do |
| TokenCore.UserCheckedBeforeExpiry | src/core/token/token-core.ts:123-142 | with a mismatching user the result is the user mismatch, flagged as decrypted, even for an expired token |
| TokenCore.NullPayloadThrows | src/core/token/token-core.ts:123-124 | a well-shaped token that decrypts to `null`, checked with an expected user, makes checkToken as written throw |
| TokenCore.NullPayloadMismatch | src/core/token/token-core.ts:123-130 | the same token under the corrected checkToken is a user mismatch against an undefined user |
| TokenCore.StampPayload | src/core/token/token-core.ts:65-69 | the payload is the caller's object (or `{}`) with user, expire and serviceName written over it and every other key kept |
| TokenCore.GenerateToken | src/core/token/token-core.ts:59-71 | fails with 'generateToken: Username is empty' exactly when the normalised user is empty; otherwise the token is `<now + liveTimeSec*1000>.<encrypt(JSON of the stamped payload)>` |
| TokenCore.Issue | src/core/token/token-core.ts:64-70 | an issued token carries the stamped payload, and its text is the expiry, a dot and the encrypted JSON of that payload |
| TokenCore.StampPayloadNaN | src/core/token/token-core.ts:64-69 | with a NaN lifetime the payload is stamped as usual except that its expire is NaN, written as null by JSON |
| TokenCore.GenerateTokenNaN | src/core/token/token-core.ts:59-71 | generateToken with a NaN lifetime: the same refusal of an empty user, and a token of 'NaN.' followed by the encrypted stamped payload |
| TokenCore.NaNTokenIsNotAJwt | src/core/token/token-core.ts:94-100 | a token starting with 'NaN.' is rejected as not a JWT, unless it is a registered permanent token |
| TokenCore.IssueThenCheck | src/core/token/token-core.ts:59-145 | round trip: with a sound cipher and JSON codec, a token issued for a user is accepted with its payload, for that user or for none, at every moment up to its expiry |
| TokenCore.AcceptedWhenDecrypted | src/core/token/token-core.ts:123-144 | a token that opens to a payload naming the expected user is accepted until its expiry |
| TokenCore.StampKeepsJsonSafe | src/core/token/token-core.ts:65-70 | stamping a JSON-representable payload keeps it JSON-representable |
| TokenCore.ArrayPayloadLosesUser | src/core/token/token-core.ts:65-69 | an array payload keeps none of the stamped keys, so the issued payload has no user |
| TokenAuth.StripBearer | src/core/token/token.ts:12 | a leading "Bearer" and the spaces after it are removed, and nothing else |
| TokenAuth.GetTokenFromHttpHeader | src/core/token/token.ts:10-14 | the token is the authorization header without a leading 'Bearer' and the spaces after it; the user is the user header lower-cased, of the same length, with no capital letter left; a missing header gives '' |
| TokenAuth.DebugAuth | src/core/token/token.ts:18-32 | returns its code and message unchanged |
| TokenAuth.GetAuthByTokenError | src/core/token/token.ts:40-53 | nothing when authorisation is off; 400 'Missing authorization header' for an empty token; otherwise 401 with checkToken's reason exactly when it gives one |
| TokenAuth.AuthTokenMW | src/core/token/token.ts:64-71 | the request goes on exactly when there is no error; otherwise the reply is the error's status (400 or 401) and message |
| TokenAuth.AuthByToken | src/core/token/token.ts:55-62 | true exactly when the middleware would let the request through; when false, it writes the same reply |
| TokenAuth.RejectsExactlyWhenCheckFails | src/core/token/token.ts:44-52 | with a token, the request is answered 401 with checkToken's reason exactly when there is one |
| TokenAuth.DisabledLetsEverythingThrough | src/core/token/token.ts:41-43 | with authorisation off every request is let through |
| TokenAuth.BareBearerIsMissing | src/core/token/token.ts:12 | an authorization header of "Bearer" and spaces only is answered 400 'Missing authorization header' |
| GenTokenServer.TimeToSeconds | src/core/token/gen-token-app/gen-token-server.ts:22-28 | the corrected unit table: exactly the five units have lengths, 60, 3600, 86400, 2592000 and 31536000 seconds |
| GenTokenServer.TimeToSecondsAsWritten | src/core/token/gen-token-app/gen-token-server.ts:50-51 | the lookup as written: the five units as in the table, a truthy inherited member for exactly the names every object inherits, nothing otherwise |
| GenTokenServer.UnitsAreOrdered | src/core/token/gen-token-app/gen-token-server.ts:22-28 | the units grow strictly from minutes to years and each is a whole number of minutes |
| GenTokenServer.ReplyJson | src/core/token/gen-token-app/gen-token-server.ts:44-103 | the reply objects: `success` is false only for failures; exactly the keys each reply sends |
| GenTokenServer.FalsyUnitIsUnknown | src/core/token/gen-token-app/gen-token-server.ts:50-51 | a falsy time unit names no unit |
| GenTokenServer.FalsyUnitIsNotInherited | src/core/token/gen-token-app/gen-token-server.ts:43-51 | a falsy time unit is not the name of an inherited member either |
| GenTokenServer.LiveTimeSec | src/core/token/gen-token-app/gen-token-server.ts:50-58 | the lifetime is timeValue times the unit's length, and exists exactly for a known unit |
| GenTokenServer.PayloadOrEmpty | src/core/token/gen-token-app/gen-token-server.ts:59 | a truthy payload is kept, any other becomes `{}` |
| GenTokenServer.GenerateTokenReply | src/core/token/gen-token-app/gen-token-server.ts:34-75 | corrected generate-token: a missing user, lifetime or unit fails first; a unit outside the table, inherited names included, fails next; a token is handed out exactly when generateToken accepts the user, and it is generateToken's token |
| GenTokenServer.GenerateTokenReplyAsWritten | src/core/token/gen-token-app/gen-token-server.ts:34-75 | generate-token as written: the corrected reply for every unit that is not an inherited name; for an inherited name, generateToken's 'NaN.' token or its refusal |
| GenTokenServer.InheritedUnitGivesUnusableToken | src/core/token/gen-token-app/gen-token-server.ts:50-66 | a unit such as 'constructor': as written the reply is success with a 'NaN.' token that validate-token rejects as not a JWT; corrected, 'Invalid Time Unit' |
| GenTokenServer.BlankUserIsRefused | src/core/token/gen-token-app/gen-token-server.ts:43-74 | a user of only spaces passes the form check but gets generateToken's 'Username is empty' error |
| GenTokenServer.ValidateTokenReply | src/core/token/gen-token-app/gen-token-server.ts:77-111 | a falsy token → 'Token Not Transferred'; a truthy token that is not a string → the TypeError checkToken's `trim` raises; a string → the string reply |
| GenTokenServer.ValidateTokenString | src/core/token/gen-token-app/gen-token-server.ts:81-103 | for a string: '' → 'Token Not Transferred'; valid exactly when checkToken gives no reason, with its payload and type; otherwise the reason |
| GenTokenServer.GenerateThenValidate | src/core/token/gen-token-app/gen-token-server.ts:34-111 | a token handed out by generate-token is reported valid, as a JWT with the stamped payload, until it expires |
| BaseMcpErrors.New | src/core/errors/BaseMcpError.ts:17-45 | the name is the concrete class's; code and message as given; details present exactly when not undefined; a falsy status code becomes 500; printed exactly for a true flag |
| BaseMcpErrors.ToJson | src/core/errors/BaseMcpError.ts:47-62 | code and message always; details and stack as keys exactly when they are defined, with their values |
| BaseMcpErrors.ToJsonWithoutDetails | src/core/errors/BaseMcpError.ts:27-32 | an error constructed without details never serialises a details key |
| McpErrors.ToolExecutionError | src/core/errors/errors.ts:7-17 | code 'TOOL_EXECUTION_ERROR', message "Failed to execute tool '<tool>': <msg>", status 400, no details, printed only when asked |
| McpErrors.SearchError | src/core/errors/errors.ts:19-29 | code 'SEARCH_ERROR', message "Failed to search '<entity>': <msg>", status 400, no details, always printed |
| McpErrors.ServerError | src/core/errors/errors.ts:34-38 | code 'SERVER_ERROR', the message as given, status 500, details exactly when defined |
| McpErrors.JsonRpcErrorResponse | src/core/errors/errors.ts:43-58 | the envelope has exactly jsonrpc '2.0', id and error; the id is the request id unless that is null or undefined (then 1); the code is a numeric MCP code, -32000 for a string-coded MCP error, -32603 for any other Error; data is the details only when an MCP error has them |
| McpErrors.ToError | src/core/errors/errors.ts:60-62 | an Error is returned unchanged; anything else becomes an Error whose message is String(x) |
| McpErrors.ToStr | src/core/errors/errors.ts:64-66 | an Error's message; 'Unknown error' for a falsy value; String(x) otherwise |
| McpErrors.AddErrorMessage | src/core/errors/errors.ts:68-72 | an Error's message becomes "<msg>. <old>" and nothing else about it changes; a non-Error is left as it is |
| McpErrors.ToStrOfToError | src/core/errors/errors.ts:60-66 | for an Error or a truthy value, toStr after toError gives the same text as toStr |
| ValidationErrors.ValidationError | src/core/errors/ValidationError.ts:3-7 | code 'VALIDATION_ERROR', status 400, no details, printed only for a true flag |
| ValidationErrors.ValidationErrorEnvelope | src/core/errors/ValidationError.ts:5 | a ValidationError's envelope has code -32000, its message and no data |
| ServerHttp.RateLimiter.constructor | src/core/web/server-http.ts:70-74 | a fresh limiter has consumed nothing |
| ServerHttp.Response.constructor | src/core/web/server-http.ts:174 | a fresh response has no reply written |
| ServerHttp.McpHttpServer.constructor | src/core/web/server-http.ts:70-74 | a server over the configuration and the limiter, with no tool call made |
| ServerHttp.RateLimiter.Consume | src/core/web/server-http.ts:37 | one consume appends its key to the history and answers the limiter's decision for that history |
| ServerHttp.Response.Send | src/core/web/server-http.ts:47 | the first write is what the client receives; a later write changes nothing and throws ERR_HTTP_HEADERS_SENT |
| ServerHttp.RateLimitEnvelope | src/core/web/server-http.ts:47-54 | the denial is `{jsonrpc, id: id ?? 1, error: {code: -32000, message}}` |
| ServerHttp.HandleRateLimit | src/core/web/server-http.ts:28-62 | consumes exactly one point under the key; returns normally when allowed or when a refusal is written to a response with nothing written yet; when a reply has already gone out, the refusal's write throws ERR_HTTP_HEADERS_SENT instead; throws the refusal as an Error without a response; rethrows a limiter failure |
| ServerHttp.ClientId | src/core/web/server-http.ts:177 | the client's ip, or 'unknown' when it has none; never empty |
| ServerHttp.Dispatch | src/core/web/server-http.ts:187-244 | initialize → the initialize result; tools/list → `{tools}`; tools/call → the tool handler's result or error; prompts/list → the prompt list; prompts/get → getPrompt of the request; resources/list → the resource list; resources/read → a TypeError exactly when params is null or undefined, else `{}`; ping → `{pong: true}`; notifications/initialized is exactly the method without a reply body |
| ServerHttp.ErrorObject | src/core/web/server-http.ts:256-275 | code -1; an MCP error keeps its message with its code and details as data; any other error gets toStr's message and no data |
| ServerHttp.ErrorEnvelope | src/core/web/server-http.ts:276-280 | the error reply keeps the request id, or 1 when it is null or undefined |
| ServerHttp.HttpReply | src/core/web/server-http.ts:234-280 | 204 with no body for the notification; a result echoes the id unchanged; an error becomes the error envelope |
| ServerHttp.PrintedTypeError | src/core/web/server-http.ts:252-254 | the TypeError the catch block raises on `error.printed` for a nullish or primitive error, with a message |
| ServerHttp.Written | src/core/web/server-http.ts:246-280 | a fresh response ends with nothing exactly when the outcome is an error the catch block cannot mark; otherwise with the reply for the outcome |
| ServerHttp.Catch | src/core/web/server-http.ts:251-280 | a nullish or primitive error gets no reply and escapes as that TypeError; another error gets the error envelope, or, after a reply, its write throws ERR_HTTP_HEADERS_SENT out of the handler |
| ServerHttp.Finish | src/core/web/server-http.ts:246-280 | on a fresh response, the reply for the outcome (none when the catch block throws), with an error escaping exactly when nothing is written; after a reply, nothing changes and an error escapes |
| ServerHttp.McpHttpServer.Run | src/core/web/server-http.ts:187-244 | runs the method switch and records a tool call exactly for tools/call |
| ServerHttp.McpHttpServer.HandleMcpPost | src/core/web/server-http.ts:174-282 | corrected POST /mcp: an auth refusal answers and touches neither limiter nor tools; then one point under the client key, and for tools/call one under `tool-<key>`; a refusal ends the request with the denial; a limiter failure gives the error envelope; otherwise the method's reply; a thrown nullish or primitive value gets no reply; an error escapes exactly when nothing is written |
| ServerHttp.McpHttpServer.HandleMcpPostAsWritten | src/core/web/server-http.ts:174-282 | POST /mcp as written: after a written refusal the request goes on. A tools/call consumes its `tool-<key>` point unless the limiter failed. Its tool runs when that point is allowed, and also when it is refused while the first point was allowed: the client then sees the tool denial while the tool runs. When both points are refused, the second denial's write throws and the tool does not run. The client keeps the first denial, and a later write throws out of the handler |
| ServerHttp.McpHttpServer.AdmitAndRunAsWritten | src/core/web/server-http.ts:176-250 | the as-written steps after authorisation: the same points, tool runs, replies and escaped errors as HandleMcpPostAsWritten states |
| ServerHttp.McpHttpServer.ToolCallAsWritten | src/core/web/server-http.ts:209-214 | the tools/call step as written: the `tool-<key>` point is consumed; the tool runs when it is allowed, or refused with nothing written yet (then the denial is the reply); with a reply already written, a refusal's write throws first and the earlier reply is kept; a limiter failure runs no tool |
| ServerHttp.McpHttpServer.SseToolCall | src/core/web/server-http.ts:148-158 | an SSE tool call consumes one point under `sse-tool-<key>`; a refusal is thrown and runs no tool; otherwise the tool runs and only its content is returned, while a null or undefined result throws a TypeError at `result.content` |
| ServerHttp.UnknownMethodReply | src/core/web/server-http.ts:242-243 | an unknown method is answered with status 200, code -1, 'Unknown method: <m>' and the request id (1 when absent) |
| ServerHttp.InitializeReply | src/core/web/server-http.ts:188-203 | initialize answers protocol version 2024-11-05, the capabilities `{tools: {}, prompts: {}, resources: {}}` and the server's name and version, echoing the id |
| ServerHttp.PingReply | src/core/web/server-http.ts:238-240 | ping answers `{pong: true}` under the request id |
| ServerHttp.ToolErrorReply | src/core/web/server-http.ts:257-268 | a tool's MCP error reaches the client with code -1, its message, and its code as data |
| ServerHttp.Health | src/core/web/server-http.ts:102-117 | unhealthy exactly when the main database is used and reports 'error'; the connection status is listed exactly when the database is used |
| ServerHttp.AvailableEndpoints | src/core/web/server-http.ts:286-298 | about, health, sse and mcp, docs only with swagger, and the project's own entries, which win over the built-in ones |
| ServerHttp.NotFound | src/core/web/server-http.ts:300-304 | 404 with 'Not Found', 'Cannot <method> <path>' and the endpoint listing |
| Prompts.CreatePrompts | src/core/mcp/prompts.ts:8-25 | agent_brief then agent_prompt, with the agent's texts and no arguments, then exactly the custom prompts in their order |
| Prompts.PromptInfo | src/core/mcp/prompts.ts:41 | a listed prompt has its name, description and arguments and no content |
| Prompts.PromptsList | src/core/mcp/prompts.ts:38-43 | `{prompts}` with one entry per prompt, in order, each without its content |
| Prompts.FindFrom | src/core/mcp/prompts.ts:48 | the index of the first prompt from `from` on with the name; none exactly when no prompt there has it |
| Prompts.Find | src/core/mcp/prompts.ts:48 | the first prompt with the requested name, or none when no prompt has it |
| Prompts.PromptMessages | src/core/mcp/prompts.ts:56-66 | exactly one system message whose content is the text |
| Prompts.GetPromptFrom | src/core/mcp/prompts.ts:45-67 | a request without params fails; otherwise success exactly when the first prompt with the name resolves to non-empty text (a computed content is given the whole request), and the error is 'Unknown prompt: <name>' |
| Prompts.ListOrder | src/core/mcp/prompts.ts:8-43 | the listing shows agent_brief, agent_prompt, then the custom prompts in order, none with content |
| Prompts.AgentPromptsShadowCustom | src/core/mcp/prompts.ts:48 | a custom prompt named agent_brief is never reached: prompts/get returns the agent's brief |
| Prompts.PromptStore.GetPrompts | src/core/mcp/prompts.ts:28-35 | the list is built on first use; once built the same list is returned |
| Prompts.PromptStore.GetPromptsList | src/core/mcp/prompts.ts:38-43 | the listing of the created prompts, with the cache filled |
| Prompts.PromptStore.GetPrompt | src/core/mcp/prompts.ts:45-67 | prompts/get over the created prompts, with the cache filled |
| Resources.Readme | src/core/mcp/resources.ts:25-32 | the README resource has uri doc://readme and the README text |
| Resources.HeadersNote | src/core/mcp/resources.ts:37-43 | the headers note has uri required://http-headers |
| Resources.CreateResources | src/core/mcp/resources.ts:21-47 | the README first; the headers note second exactly when headers are required; then the custom resources |
| Resources.ResourceInfo | src/core/mcp/resources.ts:62 | a listed resource has exactly uri, name, description and mimeType, with the resource's values |
| Resources.ResourcesList | src/core/mcp/resources.ts:59-64 | `{resources}` with one entry per resource, in order, each without content |
| Resources.FindFrom | src/core/mcp/resources.ts:68 | the index of the first resource from `from` on with the uri; none exactly when no resource there has it |
| Resources.ResourceContents | src/core/mcp/resources.ts:79-87 | a single contents entry with the matched resource's uri and mimeType and the text |
| Resources.GetResourceFrom | src/core/mcp/resources.ts:66-88 | 'Unknown resource: <uri>' when no resource matches; the empty-content error when the first match resolves to empty text; otherwise its contents |
| Resources.ReadmeAlwaysReadable | src/core/mcp/resources.ts:24-33 | a non-empty README is always readable, whatever custom resources follow |
| Resources.ListFrom | src/core/mcp/resources.ts:62 | the listing shows the resources from any position on, in their order |
| Resources.CustomAfterBuiltIns | src/core/mcp/resources.ts:46 | the custom resources follow the one or two built-in ones |
| Resources.ListKeepsCustomOrder | src/core/mcp/resources.ts:21-64 | the listing has one entry per resource, with the custom resources last and in order |
| Resources.ResourceStore.GetResources | src/core/mcp/resources.ts:50-57 | the list is built while the cache is empty, and since it is never empty it is built once |
| Resources.ResourceStore.GetResourcesList | src/core/mcp/resources.ts:59-64 | the listing of the created resources, with the cache filled |
| Resources.ResourceStore.GetResource | src/core/mcp/resources.ts:66-88 | resources/read over the created resources, with the cache filled |
| Tools.GenericInputSchema | src/template/tools/tools.ts:17-31 | an object schema requiring exactly `query`; its properties are `query` and the caller's own, which win over `query`; the query description defaults to 'Input query or text' |
| Tools.SearchInputSchema | src/template/tools/tools.ts:33-56 | query, limit in 1..100 and threshold in 0..1, with only query required |
| Tools.ToolList | src/template/tools/tools.ts:59-82 | exactly two tools, example_tool with the generic schema and example_search with the search schema |
| Tools.FindFrom | src/template/tools/tools.ts:86 | a tool is found exactly when one from `from` on has the name, and it is the first such tool |
| Tools.GetToolByName | src/template/tools/tools.ts:85-87 | a tool is found exactly for the names example_tool and example_search, and it has the requested name |
| Tools.GetToolNames | src/template/tools/tools.ts:90-92 | the tool names in list order: example_tool, example_search |
| Tools.NamesFindTools | src/template/tools/tools.ts:85-92 | every listed name finds its own tool |
| HandleToolCall.HandleExampleTool | src/template/tools/handle-tool-call.ts:34-50 | fails exactly when the query is falsy, with ToolExecutionError('example_tool', 'Query parameter is required'); otherwise formats 'Processed query: <query>' with the time |
| HandleToolCall.DestructureError | src/template/tools/handle-tool-call.ts:11 | destructuring missing params throws a TypeError, not an MCP error |
| HandleToolCall.UnknownTool | src/template/tools/handle-tool-call.ts:22 | an unknown name is a ToolExecutionError 'Unknown tool: <name>' with status 400 |
| HandleToolCall.HandleToolCall | src/template/tools/handle-tool-call.ts:10-28 | missing params fail on destructuring; example_tool goes to its handler, whose errors pass through unchanged; every other name is an unknown tool |
| HandleToolCall.AdvertisedSearchIsUnhandled | src/template/tools/handle-tool-call.ts:17-22 | the advertised example_search has no handler: calling it is an unknown-tool error with status 400 |
| HandleToolCall.ToolErrorEnvelope | src/template/tools/handle-tool-call.ts:22-26 | a tool's MCP error reaches a JSON-RPC envelope as code -32000 with its message |
| SimpleHttpClient.RequestHeaders | src/tests/McpSimpleHttpClient.ts:95-99 | the JSON Content-Type and Accept headers, each overridden by a custom header of the same name, which are all kept |
| SimpleHttpClient.Classify | src/tests/McpSimpleHttpClient.ts:129-143 | a reply is the answer exactly when its result is defined and its id numeric; an error reply with an `id` key throws 'MCP Error <code>: <message>' with the error's data; anything else is 'Invalid MCP response: <JSON>'; a null reply throws a TypeError |
| SimpleHttpClient.RpcOutcome | src/tests/McpSimpleHttpClient.ts:107-143 | only a 2xx response with a readable body can succeed, and then with the reply's result; a non-2xx status throws 'HTTP request failed: <status> <text>' |
| SimpleHttpClient.McpSimpleHttpClient.constructor | src/tests/McpSimpleHttpClient.ts:64-73 | one trailing slash is dropped from the base URL; endpoint '/mcp', no headers and 120000 ms by default; no call sent yet |
| SimpleHttpClient.McpSimpleHttpClient.SendRequest | src/tests/McpSimpleHttpClient.ts:94-113 | exactly one POST to baseUrl + endpointPath with the request headers and the body; its outcome is the response read |
| SimpleHttpClient.McpSimpleHttpClient.Notify | src/tests/McpSimpleHttpClient.ts:115-121 | one POST of a notification without an id; the id counter and the id invariant are unchanged and failures are ignored |
| SimpleHttpClient.McpSimpleHttpClient.SendRpc | src/tests/McpSimpleHttpClient.ts:123-144 | the call carries the next id, the counter moves by one, the ids sent stay 1, 2, … in order, and the result is the classified reply |
| SimpleHttpClient.McpSimpleHttpClient.Initialize | src/tests/McpSimpleHttpClient.ts:75-88 | on success protocolVersion, capabilities and serverInfo come from the reply and notifications/initialized follows the call; on failure nothing else changes and no notification is sent |
| SimpleHttpClient.McpSimpleHttpClient.ListTools | src/tests/McpSimpleHttpClient.ts:147-150 | tools/list with the next id; the result's `tools`, or the whole result when that is nullish; failures pass through |
| SimpleHttpClient.McpSimpleHttpClient.CallTool | src/tests/McpSimpleHttpClient.ts:152-154 | tools/call with `{name, arguments}` and the next id |
| HttpClient.RequestHeaders | src/tests/McpHttpClient.ts:38-41 | the JSON Content-Type, overridden by a custom header of the same name, which are all kept |
| HttpClient.McpError | src/tests/McpHttpClient.ts:65-70 | an error reply's Error carries the error's data and the whole reply |
| HttpClient.SendOutcome | src/tests/McpHttpClient.ts:50-89 | success exactly for a 2xx response whose body is an object without a truthy error, giving its result and the headers; 'HTTP <status>: <text>' for a non-2xx status; every thrown error carries the request headers |
| HttpClient.McpHttpClient.constructor | src/tests/McpHttpClient.ts:26-30 | the base URL is kept as given, the headers default to none, and the first id is 1 |
| HttpClient.McpHttpClient.SendRequest | src/tests/McpHttpClient.ts:35-90 | the call carries the next id and is POSTed to `<baseUrl>/mcp`; the ids sent stay 1, 2, … in order |
| HttpClient.McpHttpClient.ListTools | src/tests/McpHttpClient.ts:92-95 | tools/list with the next id; the result alone, failures passed through |
| HttpClient.McpHttpClient.CallTool | src/tests/McpHttpClient.ts:97-102 | tools/call with `{name, arguments}` and the next id |
| SseClient.RequestQuery | src/tests/McpSseClient.ts:66-71 | `request` holds the request JSON, then every custom header becomes a query parameter, which can replace `request` |
| SseClient.Decide | src/tests/McpSseClient.ts:89-126 | a message with another id is skipped; one with the call's id rejects on a truthy error and otherwise resolves with the result and the custom headers; unparsable data, a connection error and the timeout reject |
| SseClient.FirstDecided | src/tests/McpSseClient.ts:89-126 | the first event that settles the call; every earlier event is skipped |
| SseClient.SettlesOnce | src/tests/McpSseClient.ts:95-96 | once the call has settled, later events change nothing |
| SseClient.ForeignMessagesAreSkipped | src/tests/McpSseClient.ts:94 | messages for other ids in front of the events do not change how the call settles |
| SseClient.FirstDecidedPrefix | src/tests/McpSseClient.ts:95-96 | appending events keeps the first settling event |
| SseClient.FirstDecidedSkip | src/tests/McpSseClient.ts:94 | foreign messages only shift the first settling event |
| SseClient.FirstDecidedShift | src/tests/McpSseClient.ts:94 | searching past a prefix finds the same event, shifted by the prefix length |
| SseClient.McpSseClient.constructor | src/tests/McpSseClient.ts:26-30 | one trailing slash is dropped from the base URL, the headers default to none, the first id is 1 |
| SseClient.McpSseClient.SendRequest | src/tests/McpSseClient.ts:35-128 | the call carries the next id, opens an event source on `<baseUrl>/sse` with the request's query, and ends with the first settling event, reading nothing after it |
| SseClient.McpSseClient.ListTools | src/tests/McpSseClient.ts:130-133 | tools/list; the result alone once settled, failures passed through |
| Utils.Trim | src/core/utils/utils.ts:1 | a falsy value gives ''; the result has no white space at either end, keeps a tidy string unchanged, and is '' only for an all-white-space string |
| Utils.TrimSource | src/core/utils/utils.ts:1 | `String(v || '')`: '' for a falsy value, the string itself for a string |
| Utils.TrimIsInnerSlice | src/core/utils/utils.ts:1 | the result is the slice of the source text right after its leading white space, and everything after it is white space |
| Utils.IsObject | src/core/utils/utils.ts:7 | true exactly for arrays and objects (null is excluded) |
| Utils.IsNonEmptyObject | src/core/utils/utils.ts:9 | true exactly for a non-array object with some own value that is not undefined |
| Utils.ModulePath | src/core/utils/utils.ts:12 | argv[1], or '' when absent, with every backslash turned into a slash and every other character kept in place |
| Utils.StripFileScheme | src/core/utils/utils.ts:13 | the leftmost 'file:' followed by slashes loses the scheme and all those slashes; a url without it is unchanged |
| Utils.IsMainModuleAsWritten | src/core/utils/utils.ts:11-15 | true exactly when argv[1] is non-empty and equals the stripped url |
| Utils.PosixEntryNotRecognised | src/core/utils/utils.ts:13-14 | as written, 'file:///app.js' does not match the entry '/app.js' that produced it |
| Utils.IsMainModule | src/core/utils/utils.ts:11-15 | the corrected check still needs a non-empty argv[1] and accepts every non-absolute match the written check accepts |
| Utils.PosixEntryRecognised | src/core/utils/utils.ts:11-15 | with the correction, every absolute POSIX path is recognised from its file url |
| Utils.DropLeadingSlashes | src/core/utils/utils.ts:13 | a run of slashes in front of a path does not change what is left once they are dropped |
| PgDb.QueryMainArgs | src/core/db/pg-db.ts:21-24 | a SQL string becomes `{sqlText, sqlValues, throwError}`, an argument object keeps its other keys, and either way connectionId is 'main' |
| PgDb.ConnectionStatus | src/core/db/pg-db.ts:32-43 | 'db_not_used' exactly when the main database is unused; 'connected' exactly when some pooled client is connected; 'error' when the pool cannot be had |
| PgDb.AnyConnected | src/core/db/pg-db.ts:38 | true exactly when some client from the index on is connected |
| PgDb.SumRowCountsAppend | src/core/db/pg-db.ts:70 | the row-count total of two batches is the sum of their totals |
| PgDb.UncountedAddNothing | src/core/db/pg-db.ts:70 | results without a row count add 0 to the total |
| PgDb.ExecMainValue | src/core/db/pg-db.ts:60-71 | an array of results gives the sum of their row counts; one result gives its rowCount, or undefined when that is nullish |
| PgDb.RecordSet.constructor | src/core/db/pg-db.ts:137 | a recordset holding the given rows |
| PgDb.BatchesCover | src/core/db/pg-db.ts:147-148 | the batches taken off the front, concatenated, are the recordset in order |
| PgDb.BatchesCount | src/core/db/pg-db.ts:147-148 | there are ceil(n / batchSize) batches |
| PgDb.BatchesSizes | src/core/db/pg-db.ts:148 | every batch but the last has batchSize rows; the last has between 1 and batchSize |
| PgDb.BatchesBracket | src/core/db/pg-db.ts:147-148 | k batches hold more than (k - 1) * batchSize and at most k * batchSize rows |
| PgDb.CeilDivIs | src/core/db/pg-db.ts:147-148 | ceil(n / size) is the k with (k - 1) * size < n <= k * size |
| PgDb.DivUnique | src/core/db/pg-db.ts:147-148 | the quotient is the only multiple of the divisor that brackets the number |
| PgDb.MulMonotone | src/core/db/pg-db.ts:147-148 | multiplying by a natural number keeps the order |
| PgDb.MergeByBatch | src/core/db/pg-db.ts:136-154 | the caller's recordset ends empty, and there is one merge query per batch, run in batch order, whose results are returned in that order |
| AboutPage.UptimeParts | src/core/web/about-page/render.ts:11-15 | hours, minutes and seconds add back up to the whole seconds elapsed, with minutes and seconds below 60 |
| AboutPage.UptimePartsUnique | src/core/web/about-page/render.ts:12-15 | that split is the only one with minutes and seconds below 60 |
| AboutPage.FormatUptime | src/core/web/about-page/render.ts:10-24 | 'Hh Mm Ss' from one hour on, 'Mm Ss' from one minute on, otherwise 'Ss' |
| AboutPage.CollapseSpaces | src/core/web/about-page/render.ts:35 | no two white-space characters are left next to each other; nothing grows; a string already without doubled white space is unchanged |
| AboutPage.SliceKeepsNoDoubleSpaces | src/core/web/about-page/render.ts:35 | any slice of a string without doubled white space has none either |
| AboutPage.TrimKeepsNoDoubleSpaces | src/core/web/about-page/render.ts:35 | trimming keeps a string free of doubled white space |
| AboutPage.RemoveFirstMcp | src/core/web/about-page/render.ts:35 | the first 'MCP', in any letter case, is cut out; a name without one is unchanged |
| AboutPage.ServiceTitle | src/core/web/about-page/render.ts:35 | the title has no white space at either end and none doubled; a tidy name without 'MCP' is kept as it is |
| AboutPage.ChooseSections | src/core/web/about-page/render.ts:44-92 | the Swagger line exactly with a swagger component; the database line with its status exactly when the main database is used; the Consul line exactly when registration is on and the service has an id |
| AboutPage.FooterData | src/core/web/about-page/render.ts:73-79 | the repository link, then the maintainer's HTML, each only when it is given |
| AboutPage.FooterText | src/core/web/about-page/render.ts:270 | the entries joined by ' • ': empty, the one entry, or both with the separator |
| Favicon.DotMatchesAnyCharacter | src/core/web/favicon-svg.ts:29 | the path test accepts '/favicon.svg' and '/favicon' + any non-line-terminator + 'svg' at the end, and rejects a trailing slash |
| Favicon.LengthsAgreeIffAscii | src/core/web/favicon-svg.ts:14 | a string's UTF-16 length never exceeds its UTF-8 byte length, and they agree exactly for ASCII text |
| Favicon.Prefix | src/core/web/favicon-svg.ts:13 | `substring(0, n)`: a prefix of at most n characters, exactly n when there are enough |
| Favicon.ETagFields | src/core/web/favicon-svg.ts:7-15 | the ETag is quoted, its length field before the first dash is the UTF-8 byte length in hex, and the rest is at most 27 characters of the digest |
| Favicon.Paint | src/core/web/favicon-svg.ts:20 | the painted attribute is the colour plus seven characters |
| Favicon.GetFaviconSvg | src/core/web/favicon-svg.ts:17-21 | the favicon, or the placeholder, with only its first `fill="currentColor"` replaced by the primary colour |
| Favicon.PlaceholderHasNoEquals | src/core/web/favicon-svg.ts:19 | the placeholder has no '=' |
| Favicon.PlaceholderIsUnpainted | src/core/web/favicon-svg.ts:19-20 | without a favicon, or with an empty one, the placeholder is served unchanged |
| Favicon.LaterFillsKept | src/core/web/favicon-svg.ts:20 | a later `fill="currentColor"` is kept, shifted by the change in length |
| Favicon.CacheControl | src/core/web/favicon-svg.ts:45 | 'public, max-age=31536000', one year in seconds |
| Favicon.ContentLength | src/core/web/favicon-svg.ts:47-50 | the corrected header is the decimal UTF-8 byte length of the body sent |
| Favicon.ContentLengthAsWritten | src/core/web/favicon-svg.ts:47 | the header as written is the decimal JavaScript length of the SVG |
| Favicon.LengthsAppend | src/core/web/favicon-svg.ts:14 | both lengths add up over a concatenation |
| Favicon.AsciiLengths | src/core/web/favicon-svg.ts:14 | ASCII text has one byte and one UTF-16 unit per character |
| Favicon.ContentLengthUnderstatesBody | src/core/web/favicon-svg.ts:47 | as written, '<svg>é</svg>' is announced as 12 bytes while 13 are sent |
| Favicon.HttpResponse.constructor | src/core/web/favicon-svg.ts:28 | a fresh response: status 200, no headers, not ended |
| Favicon.HttpResponse.SetHeader | src/core/web/favicon-svg.ts:36-48 | the header is set, replacing any earlier value, and no other changes |
| Favicon.HttpResponse.End | src/core/web/favicon-svg.ts:50 | the response ends with the given body |
| Favicon.FaviconSvg | src/core/web/favicon-svg.ts:27-51 | as written: another path calls next and leaves the response untouched; a method other than GET or HEAD gets 200 for OPTIONS, else 405, with Allow and an empty body; GET and HEAD get status 200, the SVG and its four headers, with the JavaScript length as Content-Length |
| Favicon.FaviconSvgCorrected | src/core/web/favicon-svg.ts:27-51 | the same middleware with the UTF-8 byte length as Content-Length |
| Favicon.Serve | src/core/web/favicon-svg.ts:28-50 | the path test, the refusal of other methods, and the served status, headers and body, for a given Content-Length |
| Favicon.ServedLengthAsWritten | src/core/web/favicon-svg.ts:47 | as written, the announced length is the body's byte length exactly when the SVG is all ASCII |
| Favicon.ServedLengthMatchesBody | src/core/web/favicon-svg.ts:45-50 | a served favicon's Content-Length is its byte length, the number the ETag's length field gives in hex, next to the year-long cache and the SVG content type |
| TestReport.StatusLine | src/tests/utils.ts:59-81 | passed, expected failure, or failed for every other status; never the initial 'unknown' line |
| TestReport.ErrorSection | src/tests/utils.ts:63-75 | empty exactly for a passed test; otherwise the full MCP response when there is one, else the error followed by its details when given |
| TestReport.FullResponseTakesPrecedence | src/tests/utils.ts:67-68 | with a full MCP response, the error message and details do not change the section |
| TestReport.HeaderLines | src/tests/utils.ts:85 | one '  name: value' line per header, in order |
| TestReport.HeadersBlock | src/tests/utils.ts:83-86 | empty exactly when there are no headers; otherwise 'Headers:' and the lines |
| TestReport.WithClipboard | src/tests/utils.ts:113-119 | the first content item's text becomes the clipboard mark and nothing else in the object changes |
| TestReport.ClipboardIsStable | src/tests/utils.ts:113-119 | marking twice is marking once, and the marked text is the mark |
| TestReport.ObjectSection | src/tests/utils.ts:109-120 | the JSON response section, followed by the moved text when the first content item has a text |
| TestReport.ResponseSection | src/tests/utils.ts:88-126 | nothing for a nullish, boolean or number response; an unparsable string as text; a parsed string's copy left unchanged in the caller; an object shown and, when it has a text, marked in place |
| TestReport.JsonScalarStringIsDropped | src/tests/utils.ts:96-120 | a string holding JSON that is not an object leaves no response section |
| TestReport.TestResult.constructor | src/tests/utils.ts:53 | the result holds the given fields |
| TestReport.FormatResponse | src/tests/utils.ts:88-126 | the text and the caller's response after formatting are the response section's |
| TestReport.FormatResultAsMarkdown | src/tests/utils.ts:53-137 | the report is the fixed layout of status line, headers block, description, parameters, response section and error section, and the caller's response is marked as the response section says |
| TestReport.SecondReportShowsClipboard | src/tests/utils.ts:113-119 | a second report of the same object shows the clipboard mark as the formatted text |
| Prompts.PromptStore.constructor | src/core/mcp/prompts.ts:28 | the prompt cache starts empty, over the agent texts and custom prompts of the configuration |
| Resources.ResourceStore.constructor | src/core/mcp/resources.ts:50 | the resource cache starts as the empty list |
| Network.StripTrailingSlash | src/tests/McpSimpleHttpClient.ts:69 | `replace(/\/$/, '')`: one trailing slash is removed when there is one, otherwise the URL is unchanged |
| Network.CallIdsAppend | src/tests/McpSimpleHttpClient.ts:124-125 | posting one more body adds its id to the ids posted so far, and a body without an id adds nothing |
| Strings.Trim | src/core/utils/utils.ts:1 | String.prototype.trim: no white space at either end, a tidy string unchanged, '' exactly for an all-white-space string |
| Strings.LeadingSpaces | src/core/utils/utils.ts:1 | the number of white-space characters a string starts with: all before it are white space, the next one is not |
| Strings.TrimIsInnerSlice | src/core/utils/utils.ts:1 | trim's result is the slice right after the leading white space, and everything after it is white space |
| Js.Read | src/core/token/token-core.ts:124 | `v.k`: reading from null or undefined is a TypeError; otherwise the own property, or undefined |
| Strings.LowerFoldsEach | src/core/token/token.ts:13 | toLowerCase on ASCII: each character is folded on its own and no capital letter is left |
| Strings.ReplaceFirst | src/core/web/favicon-svg.ts:20 | `s.replace(pattern, rep)` with a string pattern: only the first occurrence is replaced, and a string without one is unchanged |
| Js.OrElse | src/core/web/server-http.ts:48 | `v ?? d`: v unless it is null or undefined, d otherwise |

## Left out

- Cryptography is left out: AES-256-CTR, random IVs, the SHA-256 key derivation and the SHA-1 digest behind the ETag. They are function parameters. Token proofs assume only that decryption undoes encryption.
- The rate limiter's internals are left out: the window, `points = maxRequests` and `duration = windowMs / 1000`. The limiter is an oracle that decides from the history of keys consumed. `isRateLimitError` and `formatRateLimitError` are not part of this model; a denial carries its message.
- Parts of the server are left out:
  - the MCP SDK wrappers and the stdio transport;
  - Express, helmet and cors;
  - the `/sse` transport, except the rate-limited tool call it makes;
  - the Express error middleware;
  - the logging done when the catch block first marks an error `printed` (the TypeError that marking raises for a nullish or primitive error is modelled);
  - what Express does with an error that escapes a handler (`escaped` in the model).
- Logging (`logger`, `console.log`, the test runner's `logResultToFile`), timers and `process.exit` are left out. The clock is a parameter (`now`, the uptime in milliseconds).
- The 100 ms delay in handle-tool-call.ts:42 is not modelled, and neither is `formatToolResult`, which is a parameter.
- `JSON.stringify` and `JSON.parse` are parameters; a stringify that throws (a cyclic value) is not modelled. For the same reason, the test report's outer `catch`, which falls back to `String(response)`, is not modelled.
- Numbers are integers: there are no fractions or Infinity, and NaN only as the lifetime an inherited unit name gives (TokenCore.GenerateTokenNaN). Expiry times, durations and row counts are unbounded integers.
- `toLowerCase` folds ASCII letters only. Strings are sequences of Unicode code points, so `|s|` differs from JavaScript's `length` for characters outside the Basic Multilingual Plane (Favicon.Utf16Length counts those twice, as JavaScript does); lone surrogates are not modelled.
- Header names are compared as given; Node's case-insensitive header lookup is not modelled.
- `String.prototype.replace` is modelled only for the literal patterns the source uses: no `$` substitution patterns appear in the replacement strings.
- `resources/read` on POST `/mcp` assigns the un-awaited promise of `getResource` (server-http.ts:230). Its JSON is `{}`, and that is what the model returns; the promise's possible rejection is not modelled.
- ServerHttp.McpHttpServer.HandleMcpPost: the corrected pipeline stops at a written rate-limit refusal. The source goes on; that behaviour is HandleMcpPostAsWritten.
- Favicon.FaviconSvg, Favicon.FaviconSvgCorrected: a HEAD request records the body passed to `res.end`, which Node discards on the wire.
- TestReport.HeadersBlock: the headers are listed in the map's insertion order; `Object.entries` lists integer-like keys first, in ascending order, which the model does not reproduce.
- GenTokenServer.ValidateTokenReply: the TypeError message for a non-string token is V8's wording, taken as a constant.
- AboutPage.CollapseSpaces: the contract states the properties of the result (no doubled white space, never longer, unchanged when already tidy), not the exact string.
- AboutPage.ServiceTitle: the contract states the title's shape and when the name is kept; it does not give the title for every name.
- Utils.IsMainModule: the contract states that the corrected check needs a non-empty argv[1] and agrees with the written check; PosixEntryRecognised covers POSIX paths. It is not an exact characterisation.
- The HTML and CSS templates are left out:
  - the about page's HTML, CSS and embedded scripts;
  - `encodeSvgForDataUri`;
  - the token generator's HTML page.
- The database I/O is left out: `queryPg`, the pools, the SQL builders and the pgvector type registration in `queryMAIN`. `queryRsMAIN`, `oneRowMAIN` and `checkMainDB` are thin wrappers over that I/O and are also left out.
- PgDb.RowCount: a rowCount that is not a number counts as 0, whereas JavaScript would concatenate it.
- PgDb.MergeByBatch requires a batch size of at least 1. With 0 or a negative size, `splice` takes nothing and the source loops forever. The default of 999 is the caller's to pass.
- The simple client's `listResources`, `readResource`, `listPrompts`, `getPrompt`, `ping` and `close` are not modelled separately. The first five are `sendRpc` under their method name, and `close` does nothing.
- The unused `requestTimeoutMs` is only stored.
- `getJsonFromResult` and `getJsonFromStreamResult` feed only logging or other tests.
- The SSE client's `callTool` is `sendRequest('tools/call', …)`, which `SendRequest` covers.
- The SSE client has two 30-second timers, the call's and the event source's. Both are one `TimedOut` event carrying the call's message.
- `ppj` is pretty-printing through `JSON.stringify` and is left out.
- Type-only files, bootstrap, configuration, Consul registration and the test runners are left out.
- Configuration values (appConfig) are parameters.

## Findings

| source | as written | input that shows it | evidently intended | confidence | as-written member | corrected member |
|---|---|---|---|---|---|---|
| src/core/token/token-core.ts:123-130 | with an expected user, `payload.user` is read from whatever the token decrypts to, so a payload that parses to `null` throws a TypeError out of checkToken | a well-formed token whose ciphertext decrypts to `null`, checked with a non-empty expected user | checkToken never throws; such a token is a user mismatch | not executed | TokenCore.NullPayloadThrows | TokenCore.NullPayloadMismatch |
| src/core/utils/utils.ts:11-15 | the `file:\/+` pattern removes every slash after the scheme, including the leading slash of a POSIX path, so the url never equals argv[1] | url `file:///app.js` with argv[1] `/app.js` | the started module is recognised on POSIX systems as on Windows | not executed | Utils.PosixEntryNotRecognised | Utils.PosixEntryRecognised |
| src/core/web/server-http.ts:178-214 | handleRateLimit returns normally after writing the refusal (line 54), so POST /mcp goes on: a tools/call whose `tool-<key>` point is refused still runs the tool | a tools/call whose first rate-limit point is allowed and whose `tool-<key>` point is refused: the client gets the denial and the tool runs | a refused request does nothing further | not executed | ServerHttp.McpHttpServer.HandleMcpPostAsWritten | ServerHttp.McpHttpServer.HandleMcpPost |
| src/core/web/favicon-svg.ts:47 | Content-Length is `svg.length` (Favicon.FaviconSvg), the count of UTF-16 units, while the body is sent as UTF-8 | a favicon `<svg>é</svg>`: 12 announced, 13 bytes sent | the byte length, as the ETag already counts it (line 14) | not executed | Favicon.ContentLengthUnderstatesBody | Favicon.ServedLengthMatchesBody |
| src/core/token/gen-token-app/gen-token-server.ts:50-51 | `timeToSeconds[timeUnit]` also finds the members every object inherits, so a unit named 'constructor' passes the check, the lifetime is NaN and the reply is success with a 'NaN.' token | `{user: 'a', timeValue: 1, timeUnit: 'constructor'}`: success, and validate-token then rejects the token as not a JWT | 'Invalid Time Unit', as for any other name outside the table | not executed | GenTokenServer.InheritedUnitGivesUnusableToken | GenTokenServer.GenerateTokenReply |
