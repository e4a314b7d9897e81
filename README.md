# CalorieTrack core in Dafny

CalorieTrack is a calorie diary web app. The browser keeps a day's food
entries against a daily goal and asks an AI for calorie estimates. A photo
is described by a vision model first. Three kinds of server code sit
behind it:

- an Express proxy (`server.js`) and a Netlify function
  (`netlify/functions/clodudflare.js`). Each forwards one call per request
  and charges one credit per successful call against a per-user, per-day
  allowance of 1000, in an in-memory ledger;
- a Netlify function (`netlify/functions/credits.js`) that reports the
  credit status from a ledger of its own;
- two AI handlers:
  - a Cloudflare worker (`cloudflare-ai/src/worker.ts`) that estimates the
    calories of a text description;
  - a chat-style handler (`netlify/functions/cloudflare.ts`) that
    describes a photo or takes the text, asks for an estimate with a
    fallback, and asks for an Arabic name.

The model keeps each source file's own form:

- The credit ledger is a class over a `map`. Its methods update the map in
  place and are proved against the pure functions `Touched`, `Charged` and
  `Purged`. The hourly cleanup is a loop with invariants.
- Each proxy is a class whose handler method is proved equal to a pure
  outcome function of the old ledger. The properties of the proxy are
  lemmas about that function: admission, charging only on success, the
  headers, and staying within the limit.
- The AI handlers keep no state. They are functions over JSON values, with
  lemmas for every answer they can give.
- The main screen (`src/App.jsx`) is a class whose handler methods update
  its state. The goal dialog, the entry-name helper and the client's AI
  calls are pure functions with lemmas.

Modules:

- `JsValues`, `JsStrings` and `Braces`: the JavaScript semantics the code
  relies on:
  - truthiness, `||`, `??` and optional chaining;
  - `trim`;
  - `parseInt` and `String`;
  - `Number` and `Math.round`;
  - the two brace-matching regular expressions.
- `Http`, `CreditReplies`, `Credits` and `Auth`: the shared shapes:
  - responses and the credit bodies and headers;
  - the ledger;
  - the bearer-token check.
- `ExpressServer`, `NetlifyClaude`, `NetlifyCredits`, `Worker`,
  `NetlifyVision`, `Api`, `Helpers`, `GoalModal` and `Diary`: one module
  per source file.

Things outside the code are parameters:

- the clock: each group of `new Date().toDateString()` reads is one `Day`
  argument;
- the Firebase token verifier;
- `fetch`;
- `JSON.parse`;
- the `env.AI.run` models;
- JavaScript's string-to-number grammar.

Each of these is an uninterpreted function, so every property holds for
every behaviour of these collaborators.

## Model

| member | source | states |
|---|---|---|
| Credits.Used | server.js:53-62 | the caller's count for a day, 0 before the first read; stated by Credits.TouchedKeepsCounts and Credits.ChargedCounts |
| Credits.Touched | server.js:53-62 | `getUserCredits`: a zero record inserted when missing; Credits.TouchedKeepsCounts, Credits.TouchedWithinLimit and Credits.ChargedWellKeyed state that it changes no count and keeps both invariants |
| Credits.Charged | server.js:71-75 | `incrementCredits`: Credits.ChargedCounts states that exactly the caller's day rises by one; Credits.ChargedWithinLimit and Credits.ChargedWellKeyed that the invariants hold |
| Credits.Purged | server.js:247-255 | the hourly cleanup: Credits.PurgedCounts states that today's records are kept and the others dropped |
| Credits.DayOfKeyOfKey | server.js:55 | the day can be read back from the key `${userId}:${today}` |
| Credits.KeyInjective | server.js:55 | two distinct (user, day) pairs never share a ledger key, because a day string has no ':' |
| Credits.TouchedKeepsCounts | server.js:53-62 | `getUserCredits` changes no count of any user on any day, and adds only the caller's key |
| Credits.ChargedCounts | server.js:71-75 | `incrementCredits` raises exactly the caller's count for today by one; every other user and day keeps its count |
| Credits.ChargedWellKeyed | server.js:53-75 | inserting or charging a record keeps every record under the key of its own date |
| Credits.TouchedWithinLimit | server.js:53-62 | reading credits keeps every count within the daily limit |
| Credits.ChargedWithinLimit | server.js:65-75 | a charge admitted by `hasCreditsRemaining` keeps every count within the limit |
| Credits.ChargedTimesCount | server.js:71-75 | after n charges on one day, the count has risen by exactly n |
| Credits.PurgedCounts | server.js:247-255 | cleanup keeps every record of today with its count, drops every record of another day, and adds no key |
| Credits.CreditLedger.constructor | server.js:45 | the ledger starts as an empty map |
| Credits.CreditLedger.GetUserCredits | server.js:53-62 | returns today's record (count 0 when it was missing), inserts it when missing, and changes nothing else |
| Credits.CreditLedger.HasCreditsRemaining | server.js:65-68 | true exactly when today's count is below 1000 |
| Credits.CreditLedger.IncrementCredits | server.js:71-75 | the new ledger is the old one with today's count one higher |
| Credits.CreditLedger.GetRemainingCredits | server.js:78-81 | remaining plus today's count equals the limit |
| Credits.CreditLedger.Cleanup | server.js:247-255 | after the loop over the entries, exactly the records dated today are left, unchanged |
| Auth.BearerToken | server.js:88-92 | a token exists exactly when the header starts with "Bearer " |
| Auth.BearerTokenSpec | server.js:92 | the token is the text after the first "Bearer ", up to any later "Bearer " (`split(...)[1]`) |
| Auth.VerifyAuth | netlify/functions/clodudflare.js:56-73 | NoToken exactly when the header check fails; otherwise the verifier's identity or its rejection |
| Auth.TokenOfSingleBearer | netlify/functions/clodudflare.js:61 | "Bearer " + t yields t whenever t holds no further "Bearer " |
| Auth.BearerTokenExample | netlify/functions/credits.js:41 | "Bearer t" yields the token "t" |
| CreditReplies.LimitReachedBody | server.js:194-201 | the 429 body: the error text, the limit, the count used, 0 remaining and the reset message; netlify/functions/clodudflare.js lines 112-122 send the same body; `resetTime` is left out; stated by ExpressServer.ChargeOrder and NetlifyClaude.ServeRefusals, which give it the caller's count at the limit |
| CreditReplies.CreditStatusBody | server.js:162-167 | the status body `{remaining, used, limit}`; netlify/functions/credits.js lines 79-84 send the same body; `resetTime` is left out; stated by ExpressServer.CreditsAnswers and NetlifyCredits.ReportAnswers, where remaining plus used is the limit on one day |
| CreditReplies.CreditHeaders | netlify/functions/clodudflare.js:159-161 | the three credit headers as `String` of their numbers; stated by CreditReplies.CreditHeadersReadBack, CreditReplies.MergedCreditHeadersReadBack and NetlifyClaude.CreditHeadersAdded |
| CreditReplies.CreditHeadersReadBack | netlify/functions/clodudflare.js:159-161 | each credit header, written with `String`, reads back through `parseInt` as the number sent |
| CreditReplies.MergedCreditHeadersReadBack | netlify/functions/clodudflare.js:159-161 | merged over any base headers, the credit headers are present and still read back as the numbers sent |
| ExpressServer.ChargeOutcome | server.js:172-229 | lines 172-229 on an authenticated caller; stated by ExpressServer.ChargeOrder, ExpressServer.ChargeCounts, ExpressServer.ChargeWithinLimit and ExpressServer.ChargeWellKeyed |
| ExpressServer.ForwardCharge | server.js:205-229 | the upstream call and the charge after an ok answer; stated by ExpressServer.ForwardWellKeyed and, through ChargeOutcome, ExpressServer.ChargeCounts |
| ExpressServer.FinishAsWritten | server.js:229-243 | line 235 as written, where the undeclared name throws into the catch; stated by ExpressServer.AsWrittenNeverOk |
| ExpressServer.FinishIntended | server.js:229-239 | line 235 as intended; stated by ExpressServer.IntendedFinish and ExpressServer.IntendedAnswers |
| ExpressServer.ClaudeOutcome | server.js:171-244 | `POST /api/claude` with either finish; stated by ExpressServer.Authenticate, ExpressServer.AsWrittenNeverOk and ExpressServer.IntendedAnswers |
| ExpressServer.CreditsOutcome | server.js:156-168 | `GET /api/credits`; stated by ExpressServer.CreditsAnswers |
| ExpressServer.Authenticate | server.js:84-108 | the middleware answers 401 exactly when the token check fails, and passes the verified identity otherwise |
| ExpressServer.ChargeOrder | server.js:172-229 | a missing key gives 500 and a user at the limit gives 429, neither touching the counts or upstream; upstream is called iff the key is set and the user is below the limit; a thrown fetch gives 500 and a non-ok status is passed on; only an ok answer reaches the charge |
| ExpressServer.ChargeCounts | server.js:181-229 | only a successful call raises a count: the caller's count for the charge day, by one; the counts reported are the new count and the rest of the allowance |
| ExpressServer.ChargeWithinLimit | server.js:181-229 | for a call on one day, every count stays within the limit |
| ExpressServer.ChargeWellKeyed | server.js:181-229 | every call keeps each record under its own day's key |
| ExpressServer.ForwardWellKeyed | server.js:205-229 | the forward-and-charge step keeps each record under its own day's key |
| ExpressServer.AsWrittenNeverOk | server.js:226-243 | as written, `/api/claude` never answers 200: an ok upstream answer is charged and then answered with 500 (ReferenceError) |
| ExpressServer.IntendedAnswers | server.js:171-244 | intended handler: 401 changes nothing; upstream is called iff the key is set and the user is below the limit; 200 iff upstream answered ok, with the upstream body and the new count's credit headers |
| ExpressServer.IntendedFinish | server.js:226-239 | intended finish: 200 exactly for a charged call, with the credit headers of its new count |
| ExpressServer.AnsweredNotOk | server.js:172-223 | no early answer of the handler is 200 |
| ExpressServer.CreditsAnswers | server.js:156-168 | 401 without a valid token and the ledger unchanged; otherwise 200 with the counts read, which sum to the limit when both reads fall on one day; no count of anyone changes |
| ExpressServer.ProxyServer.constructor | server.js:45 | the server starts with an empty ledger |
| ExpressServer.ProxyServer.Admit | server.js:181-191 | the three reads insert today's record and report the count; admitted iff below the limit |
| ExpressServer.ProxyServer.ChargeOne | server.js:226-229 | the ledger is charged once; the new count and the remaining allowance are read back |
| ExpressServer.ProxyServer.ChargeCall | server.js:172-229 | the new ledger, the outcome and whether upstream was called equal ChargeOutcome of the old ledger |
| ExpressServer.ProxyServer.Forward | server.js:205-229 | the new ledger and the outcome equal ForwardCharge of the old ledger |
| ExpressServer.ProxyServer.HandleClaude | server.js:171-244 | as written: the new ledger and the answer equal ClaudeOutcome with the as-written finish |
| ExpressServer.ProxyServer.HandleClaudeIntended | server.js:171-244 | with line 235 using the value of line 229: the new ledger and the answer equal ClaudeOutcome with the intended finish |
| ExpressServer.ProxyServer.HandleCredits | server.js:156-168 | the new ledger and the answer equal CreditsOutcome of the old ledger |
| ExpressServer.ProxyServer.ReadStatus | server.js:157-158 | the remaining count is read on one day and the used count on the other, each against the old ledger |
| ExpressServer.DemoCall | server.js:171-244 | a fresh ledger and an ok upstream give one credit used, with 500 as written and 200 plus credit headers as intended |
| ExpressServer.SuccessfulCallAsWritten | server.js:229-235 | on a fresh server, a successful call is charged one credit and answered 500 |
| ExpressServer.SuccessfulCallIntended | server.js:229-235 | the same call to the intended handler answers 200, with X-Credits-Used "1" |
| NetlifyClaude.HandlerOutcome | netlify/functions/clodudflare.js:76-180 | `exports.handler`; stated by NetlifyClaude.HandlerRejections, NetlifyClaude.HandlerAdmission, NetlifyClaude.HandlerSuccess, NetlifyClaude.HandlerFailures, NetlifyClaude.HandlerCharges, NetlifyClaude.SuccessHeaders and NetlifyClaude.HandlerWithinLimit |
| NetlifyClaude.ServeOutcome | netlify/functions/clodudflare.js:105-178 | the authenticated part of the handler; stated by NetlifyClaude.ServeRefusals and NetlifyClaude.SuccessWasForwarded |
| NetlifyClaude.ForwardOutcome | netlify/functions/clodudflare.js:133-167 | the worker call and the charge; stated by NetlifyClaude.ForwardStatus, NetlifyClaude.ForwardCharges, NetlifyClaude.ForwardFailures and NetlifyClaude.ForwardHeaders |
| NetlifyClaude.CatchResponse | netlify/functions/clodudflare.js:169-178 | the catch answers 401 iff the message mentions "authentication" and 500 otherwise; the body is the message, or "Internal server error" when it is empty |
| NetlifyClaude.AuthMessage | netlify/functions/clodudflare.js:56-72 | a missing or malformed header throws "No authentication token provided" (line 58), and a rejected token throws "Invalid authentication token" whatever the verifier said (line 71); stated by NetlifyClaude.AuthFailuresAreUnauthorized, which shows both answer 401 |
| NetlifyClaude.MentionsAuthentication | netlify/functions/clodudflare.js:173 | any text built around "authentication" contains it |
| NetlifyClaude.AuthFailuresAreUnauthorized | netlify/functions/clodudflare.js:56-73 | both messages `verifyAuth` throws are answered 401 |
| NetlifyClaude.CreditHeadersAdded | netlify/functions/clodudflare.js:159-161 | the three header assignments give the CORS headers plus the credit headers |
| NetlifyClaude.HandlerRejections | netlify/functions/clodudflare.js:84-100 | OPTIONS gives 204 with an empty body and any other non-POST gives 405, both before authentication; a failed authentication gives 401; none of these change the ledger or call the worker |
| NetlifyClaude.ServeRefusals | netlify/functions/clodudflare.js:105-128 | at the limit the answer is 429 with the count used and zero remaining, the ledger unchanged and no worker call; below it a body that does not parse goes to the catch with its parse error, before the worker is called, with the record inserted and no count charged |
| NetlifyClaude.HandlerAdmission | netlify/functions/clodudflare.js:100-141 | the worker is called exactly for an authenticated POST below the limit whose body parses |
| NetlifyClaude.HandlerSuccess | netlify/functions/clodudflare.js:143-167 | 200 iff the worker was called and answered ok; any other answer carries just the CORS headers |
| NetlifyClaude.HandlerCharges | netlify/functions/clodudflare.js:105-161 | the caller's count for the charge day rises by one exactly when the answer is 200; every other count is unchanged |
| NetlifyClaude.ForwardStatus | netlify/functions/clodudflare.js:133-167 | a forwarded call answers 200 iff the worker answered ok, and otherwise with just the CORS headers |
| NetlifyClaude.ForwardCharges | netlify/functions/clodudflare.js:143-161 | a forwarded call charges the caller's charge day once when it answers 200, and nothing else |
| NetlifyClaude.ForwardFailures | netlify/functions/clodudflare.js:141-150 | a thrown fetch or body parse goes to the catch with its message, and a non-ok worker answer is passed on with its own status and body; the ledger is unchanged in both cases |
| NetlifyClaude.HandlerFailures | netlify/functions/clodudflare.js:141-150 | for an authenticated POST below the limit whose body parses, the worker is called; a thrown fetch answers `CatchResponse(message)`, and a non-ok answer keeps its status and body; the ledger then holds only the record touched at admission |
| NetlifyClaude.SuccessWasForwarded | netlify/functions/clodudflare.js:90-167 | a 200 answer comes from an authenticated POST below the limit whose body parsed, forwarded on the touched ledger |
| NetlifyClaude.ForwardHeaders | netlify/functions/clodudflare.js:153-165 | a 200 answer carries the CORS headers plus the credit headers of the caller's new count, one above the old |
| NetlifyClaude.SuccessHeaders | netlify/functions/clodudflare.js:100-165 | a 200 answer was authenticated, and carries the CORS headers plus the credit headers of the caller's count after the call |
| NetlifyClaude.HandlerWithinLimit | netlify/functions/clodudflare.js:105-153 | when both groups of clock reads fall on one day, no count passes the limit |
| NetlifyClaude.ClaudeFunction.constructor | netlify/functions/clodudflare.js:21 | the function starts with its own empty ledger |
| NetlifyClaude.ClaudeFunction.Admit | netlify/functions/clodudflare.js:105-110 | reports the count so far; admits iff below the limit; the record is inserted when admitted |
| NetlifyClaude.ClaudeFunction.Charge | netlify/functions/clodudflare.js:153-161 | charges once and returns the CORS headers plus the credit headers of the new count |
| NetlifyClaude.ClaudeFunction.Forward | netlify/functions/clodudflare.js:133-167 | the new ledger and the answer equal ForwardOutcome of the old ledger |
| NetlifyClaude.ClaudeFunction.Serve | netlify/functions/clodudflare.js:105-178 | the new ledger, the answer and the worker call equal ServeOutcome of the old ledger |
| NetlifyClaude.ClaudeFunction.Handle | netlify/functions/clodudflare.js:76-180 | the new ledger, the answer and the worker call equal HandlerOutcome of the old ledger |
| NetlifyCredits.ReportOutcome | netlify/functions/credits.js:49-94 | `exports.handler`; stated by NetlifyCredits.ReportAnswers, NetlifyCredits.ReportNeverCharges and NetlifyCredits.ReportWellKeyed |
| NetlifyCredits.AuthMessage | netlify/functions/credits.js:36-42 | a missing or malformed header throws "No authentication token provided" (line 38), and a rejected token throws the verifier's own message, since line 42 has no catch; stated by NetlifyCredits.ReportAnswers, which answers 401 with each |
| NetlifyCredits.ReportAnswers | netlify/functions/credits.js:49-94 | every answer carries the CORS headers; OPTIONS gives 204 and non-GET gives 405; a failed authentication gives 401 with the thrown message; an authenticated GET gives 200 with the counts, which sum to the limit on one day |
| NetlifyCredits.ReportNeverCharges | netlify/functions/credits.js:71-72 | reading the status changes no count of any user on any day |
| NetlifyCredits.ReportWellKeyed | netlify/functions/credits.js:71-72 | reading the status keeps every record under its own day's key |
| NetlifyCredits.CreditsFunction.constructor | netlify/functions/credits.js:17 | the function starts with its own empty ledger |
| NetlifyCredits.CreditsFunction.Handle | netlify/functions/credits.js:49-94 | the new ledger and the answer equal ReportOutcome of the old ledger |
| NetlifyCredits.CreditsFunction.Answer | netlify/functions/credits.js:71-85 | both reads insert the records; 200 with the remaining and used counts read against the old ledger |
| NetlifyCredits.DemoCallSucceeds | netlify/functions/clodudflare.js:100-167 | the demo user's first call on a fresh ledger answers 200 |
| NetlifyCredits.DemoReportFresh | netlify/functions/credits.js:71-85 | a fresh ledger reports all 1000 remaining and 0 used |
| NetlifyCredits.LedgersAreSeparate | netlify/functions/credits.js:16-17 | after a charged 200 call to clodudflare.js, credits.js still reports 0 used, because the two keep separate maps |
| Worker.Fetch | cloudflare-ai/src/worker.ts:30-61 | the worker's `fetch`; stated by Worker.FetchRejects and Worker.FetchDispatch |
| Worker.HandleTextEstimation | cloudflare-ai/src/worker.ts:64-121 | `handleTextEstimation`; stated by Worker.FoodValidation and Worker.FoodForwarded |
| Worker.Prompt | cloudflare-ai/src/worker.ts:80-86 | the model prompt; stated by Worker.PromptCarriesFood |
| Worker.Estimate | cloudflare-ai/src/worker.ts:88-119 | reading the model's answer; stated by Worker.EstimateStatuses, Worker.EstimateOutcome, Worker.EstimateAccepts and the rejection lemmas below |
| Worker.EstimateBody | cloudflare-ai/src/worker.ts:112-116 | the 200 body; stated by Worker.EstimateBodyFields |
| Worker.PromptCarriesFood | cloudflare-ai/src/worker.ts:80-86 | the prompt is the fixed head, the trimmed food, then a closing quote |
| Worker.FetchRejects | cloudflare-ai/src/worker.ts:32-45 | OPTIONS gives the CORS headers and no body; non-POST gives 405; a body that is not JSON gives 400 |
| Worker.FetchDispatch | cloudflare-ai/src/worker.ts:47-61 | type "text" goes to the estimation, "image" gives 501, any other type gives 400; a null body throws on reading `type` |
| Worker.FoodValidation | cloudflare-ai/src/worker.ts:69-78 | a falsy or whitespace-only food gives 400 and a non-string throws; more than 500 characters gives 400 |
| Worker.FoodForwarded | cloudflare-ai/src/worker.ts:69-95 | a food of at most 500 characters that is not all whitespace reaches the model, prompted with its trimmed text |
| Worker.EstimateStatuses | cloudflare-ai/src/worker.ts:88-119 | every estimate answer is JSON with the CORS headers, with status 200, 502 or 503 |
| Worker.EstimateOutcome | cloudflare-ai/src/worker.ts:98-116 | 200 only when the model's text has a first `{...}` that parses to a non-null value with a finite positive `calories`; the body is built from that value |
| Worker.EstimateAccepts | cloudflare-ai/src/worker.ts:98-116 | conversely, such an answer always gives 200 with that body |
| Worker.EstimateBodyFields | cloudflare-ai/src/worker.ts:112-116 | calories are `Math.round` of the accepted number: never negative, and zero exactly below one half; confidence and breakdown pass through unless nullish, then default to "medium" and null |
| Worker.ModelRejected | cloudflare-ai/src/worker.ts:88-118 | a model call that fails answers 503 "AI service unavailable" |
| Worker.NoObjectRejected | cloudflare-ai/src/worker.ts:98-103 | a model text with no `{` followed later by `}` answers 502 "AI returned invalid JSON" |
| Worker.BadCaloriesRejected | cloudflare-ai/src/worker.ts:105-110 | calories that are not a finite number above zero answer 502 "Invalid calorie value" |
| Worker.CutRejected | cloudflare-ai/src/worker.ts:99-105 | a first `{...}` that the parser rejects gives 503 |
| Worker.NestedObjectUnavailable | cloudflare-ai/src/worker.ts:99-118 | a nested object in the model's text is cut at its inner `}`; when that cut text does not parse, the answer is 503 |
| NetlifyVision.Fetch | netlify/functions/cloudflare.ts:18-124 | the handler; stated by NetlifyVision.FetchDispatch and NetlifyVision.FetchStatuses |
| NetlifyVision.Describe | netlify/functions/cloudflare.ts:42-64 | the food description; stated by NetlifyVision.DescribeAnswers, NetlifyVision.DescribeFailures and NetlifyVision.UnknownFood |
| NetlifyVision.ParsedEstimate | netlify/functions/cloudflare.ts:83-90 | the greedily cut and parsed estimate; stated by NetlifyVision.FallbackEstimate |
| NetlifyVision.Fallback | netlify/functions/cloudflare.ts:92-94 | the fallback estimate; stated by NetlifyVision.FallbackBody |
| NetlifyVision.ServerError | netlify/functions/cloudflare.ts:118-121 | the catch's answer; stated by NetlifyVision.ServerErrorAnswers |
| NetlifyVision.ServerErrorAnswers | netlify/functions/cloudflare.ts:118-121 | the catch answers 500 with JSON and CORS headers; the error is the message, or "Server error" when it is empty |
| NetlifyVision.ArabicName | netlify/functions/cloudflare.ts:108 | the Arabic name; stated by NetlifyVision.ArabicNameCases and NetlifyVision.ArabicNameThrows |
| NetlifyVision.EstimateBody | netlify/functions/cloudflare.ts:110-116 | the 200 body; stated by NetlifyVision.ResponseDefaults |
| NetlifyVision.EstimateFor | netlify/functions/cloudflare.ts:66-121 | estimate and translation once described; stated by NetlifyVision.EstimateForAnswers |
| NetlifyVision.FindImagePart | netlify/functions/cloudflare.ts:49 | finds the first element with a truthy `image_base64`; Missing means no element has one and none is null; Threw means a null element was read |
| NetlifyVision.Chosen | netlify/functions/cloudflare.ts:92-94 | the estimate used is always an object with a `foodName` |
| NetlifyVision.FetchDispatch | netlify/functions/cloudflare.ts:20-40 | OPTIONS gives the CORS headers and no body; non-POST gives 405; a body that is not JSON gives 500; a missing or non-array `messages` gives 400 |
| NetlifyVision.FetchStatuses | netlify/functions/cloudflare.ts:30-121 | every answer but preflight is JSON with the CORS headers; the status is always 200, 400, 405 or 500 |
| NetlifyVision.DescribeAnswers | netlify/functions/cloudflare.ts:42-64 | string content is used as is; an array with no image part gives "No image provided" 400; no messages, or other content, gives "Unsupported content type" 400 |
| NetlifyVision.DescribeFailures | netlify/functions/cloudflare.ts:42-64 | a refused description is a JSON answer with the CORS headers and status 400 or 500 |
| NetlifyVision.UnknownFood | netlify/functions/cloudflare.ts:59 | a vision result with neither a truthy description nor a truthy response describes the photo as "unknown food" |
| NetlifyVision.EstimateForAnswers | netlify/functions/cloudflare.ts:66-121 | once the description is known, the answer is 200 or 500, with the JSON and CORS headers; a rejected estimate call gives 500 |
| NetlifyVision.FallbackEstimate | netlify/functions/cloudflare.ts:83-94 | no greedy `{...}` span, or a span that does not parse, gives null; an estimate without a truthy `foodName` is replaced by the fallback |
| NetlifyVision.ArabicNameCases | netlify/functions/cloudflare.ts:108 | a nullish translation, or one that trims to nothing, gives the English name; otherwise the trimmed translation |
| NetlifyVision.ArabicNameThrows | netlify/functions/cloudflare.ts:108 | a translation that is neither nullish nor a string throws, and the answer is 500 |
| NetlifyVision.ResponseDefaults | netlify/functions/cloudflare.ts:110-116 | the 200 body keeps the name and the Arabic name; calories, confidence and breakdown are kept when truthy, else 0, "medium" and null |
| NetlifyVision.FallbackBody | netlify/functions/cloudflare.ts:92-94 | the fallback answers with the description as the name, 0 calories, "low" confidence and a null breakdown |
| Api.BuildScanPrompt | src/utils/api.js:42-58 | one user message whose content has exactly two parts: first the photo as an `input_image` part, then the JSON instruction as an `input_text` part |
| Api.BuildEstimatePrompt | src/utils/api.js:64-73 | one user message whose content is the string EstimateText of the name, which Api.EstimateTextCarriesFood shows starts with the JSON instruction and ends with "Food: " and the name |
| Api.EstimateTextCarriesFood | src/utils/api.js:68-70 | the estimate text starts with the JSON instruction and ends with "Food: " and the name |
| Api.ScanPromptIgnoresMimeType | src/utils/api.js:42 | `mimeType` has no effect on the prompt |
| Api.ScanPromptReachesVision | src/utils/api.js:42-58 | when the photo is non-empty, netlify/functions/cloudflare.ts finds it as the image part of a scan prompt |
| Api.EmptyScanRefused | src/utils/api.js:42-58 | a scan prompt with an empty photo is refused by netlify/functions/cloudflare.ts with "No image provided" 400 |
| Api.EmptyPhotoMissing | src/utils/api.js:47-55 | with an empty photo, neither part of the scan prompt counts as an image |
| Api.EstimatePromptIsText | src/utils/api.js:64-73 | netlify/functions/cloudflare.ts takes the estimate prompt's own text as the food description |
| Api.StripFences | src/utils/api.js:24 | removing "```json" and "```" leaves no "```"; it never lengthens the text and keeps a first character that is not a backtick |
| Api.NoBackticksUnchanged | src/utils/api.js:24 | a text without backticks is unchanged by the removal |
| Api.TrimStartKeepsNoFence | src/utils/api.js:24 | dropping leading whitespace from a text without "```" leaves none |
| Api.TrimEndKeepsNoFence | src/utils/api.js:24 | dropping trailing whitespace from a text without "```" leaves none |
| Api.TrimKeepsNoFence | src/utils/api.js:24 | trimming a text without "```" leaves none |
| Api.CleanReply | src/utils/api.js:24 | the text returned has no "```" and no whitespace at either end |
| Api.CallAI | src/utils/api.js:5-25 | `callAI` once `fetch` has resolved; stated by Api.CallAIFailure, Api.CallAISuccess, Api.PromptRefusedByWorker and Api.VisionEstimateHasNoText |
| Api.CallAIFailure | src/utils/api.js:15-18 | a non-ok response always throws. A body that is JSON other than null gives its truthy `error`, else "AI request failed". A body that is not JSON gives "AI request failed". A `null` body gives the TypeError of reading `null.error` |
| Api.CallAISuccess | src/utils/api.js:21-24 | an ok response yields text exactly when its body is an object whose `text` is a string; the text comes back cleaned |
| Api.PromptRefusedByWorker | src/utils/api.js:7-18 | the `{messages}` body `callAI` posts has no `type`, so cloudflare-ai/src/worker.ts answers 400 "Invalid request type. Use 'text' or 'image'.", and `callAI` throws with that message |
| Api.VisionEstimateHasNoText | src/utils/api.js:21-24 | the 200 estimate body of netlify/functions/cloudflare.ts has no `text`, so `callAI` throws a TypeError on it |
| Helpers.GetEntryName | src/utils/helpers.js:9-12 | the name in the active language, or the other when it is empty; empty only when both are |
| Helpers.SingleNameShownEverywhere | src/utils/helpers.js:9-12 | a name stored in one language only is shown in every language |
| Helpers.EntryName | src/utils/helpers.js:9-12 | `getEntryName` on names of any value: the preferred name when truthy, else the other; falsy only when both are; Helpers.EntryNameOfStrings proves it agrees with Helpers.GetEntryName on strings |
| Helpers.EntryNameOfStrings | src/utils/helpers.js:9-12 | on string names, the value version gives exactly the string version's name |
| GoalModal.SubmittedGoal | src/components/GoalModal/GoalModal.jsx:14-17 | the goal is saved exactly when `parseInt` reads a number from 500 to 10000, and then it is that number |
| GoalModal.GoalInRangeSaved | src/components/GoalModal/GoalModal.jsx:14-17 | every goal in range, typed as its decimal digits, is saved as itself |
| GoalModal.GoalBounds | src/components/GoalModal/GoalModal.jsx:16 | 499 and 10001 are refused |
| GoalModal.NotANumberRefused | src/components/GoalModal/GoalModal.jsx:15-16 | text with no leading digits, the empty text among it, is NaN and is refused |
| GoalModal.TrailingUnitIgnored | src/components/GoalModal/GoalModal.jsx:15 | `parseInt` stops at the first non-digit: "2000kcal" saves 2000 |
| GoalModal.ExponentNotRead | src/components/GoalModal/GoalModal.jsx:15 | "1e4" reads as 1 and is refused |
| Diary.TotalEaten | src/App.jsx:44 | `totalEaten`; stated by Diary.TotalEatenIsSum and Diary.AddThenDelete |
| Diary.OverGoal | src/App.jsx:47 | `overGoal`; stated by Diary.RemainingAndOverGoal |
| Diary.CaloriesOr0 | src/App.jsx:175 | `result.calories`, or 0 when it is falsy; stated, for the entry, by Diary.AddedEntryAnsweredCalories: a truthy number is kept, a falsy value gives 0, any other truthy value gives NaN |
| Diary.AddedEntry | src/App.jsx:159-195 | the entry `handleAdd` builds; stated by Diary.AddedEntryCalories, Diary.AddedEntryAnsweredCalories, Diary.AddedEntryNameEn, Diary.AddedEntryNameAr, Diary.AddedEntryNamed and Diary.UnparsedAnswerKeepsNaN |
| Diary.Add | src/App.jsx:44 | a sum of numbers is finite exactly when both are (NaN absorbs) |
| Diary.TotalEatenIsSum | src/App.jsx:44 | the total is a number exactly when every entry's calories are, and then it is their sum |
| Diary.Remaining | src/App.jsx:45 | remaining is never negative and never less than goal minus total; it is one of the two; it is NaN exactly when the total is |
| Diary.RemainingAndOverGoal | src/App.jsx:45-47 | over the goal nothing remains; on or under a set goal, the goal minus the total remains |
| Diary.RemoveId | src/App.jsx:203 | deleting keeps no entry with that id and never lengthens the list |
| Diary.RemoveIdMembers | src/App.jsx:203 | an entry is kept iff it was there with another id; the kept count plus the dropped count is the old length |
| Diary.RemoveIdConcat | src/App.jsx:203 | deleting from a concatenation deletes from each part, so the kept entries keep their order |
| Diary.RemoveIdUnchanged | src/App.jsx:203 | deleting an id no entry carries changes nothing; deleting twice is deleting once |
| Diary.SafeParse | src/App.jsx:69-81 | null for an empty or non-string text and for text the parser refuses; otherwise the parsed value |
| Diary.ManualCalories | src/App.jsx:164-166 | the form's `parseInt` value, kept exactly when it is neither NaN nor 0 |
| Diary.AddedEntryCalories | src/App.jsx:159-195 | the entry has the clock's id and time; a nonzero typed count is kept whatever the AI answers; when the AI call throws, calories are 0; in both cases each name is the one typed for its language, else the trimmed typed text |
| Diary.AnsweredEntry | src/App.jsx:169-177 | the entry once the AI's text is parsed; stated, through Diary.AddedEntry, by Diary.AddedEntryAnsweredCalories, Diary.AddedEntryNameEn, Diary.AddedEntryNameAr and Diary.UnparsedAnswerKeepsNaN |
| Diary.AddedEntryAnsweredCalories | src/App.jsx:164-177 | when the AI is asked and its text parses to a truthy value, the calories are its `calories` when that is a truthy number, 0 when it is falsy, and NaN for any other truthy value (the source would store that value as it is); when the text gives no truthy value, the form's count stays, 0 or NaN |
| Diary.AddedEntryNameEn | src/App.jsx:162-173 | when the AI is asked, a truthy `foodName` in its parsed answer becomes the English name whatever kind of value it is; otherwise the typed English name, or else the trimmed text, is kept |
| Diary.AddedEntryNameAr | src/App.jsx:163-174 | the same for the Arabic name and `foodNameAr` |
| Diary.AddedEntryNamed | src/App.jsx:160-174 | an entry added from a non-blank name has a truthy name in both languages |
| Diary.AddedEntryShown | src/App.jsx:160-174 | an entry added from a non-blank name shows a truthy name through `getEntryName` in every language |
| Diary.NumberNameKept | src/App.jsx:173 | when the AI is asked, a `foodName` of 5 in its answer is stored as the number 5, whatever name was typed |
| Diary.UnparsedAnswerKeepsNaN | src/App.jsx:164-190 | an AI reply that is not JSON leaves the form's empty calories as NaN |
| Diary.Diary.constructor | src/App.jsx:29-37 | a new user starts with lang "en", no goal, no entries and an empty form |
| Diary.Diary.ResetForm | src/App.jsx:215-221 | every form field is cleared; diary, goal and language are untouched |
| Diary.Diary.HandleFoodNameChange | src/App.jsx:57-66 | the typed name goes to the active language's field and the other is cleared |
| Diary.Diary.SyncFoodName | src/App.jsx:51-55 | when either name is set, the shown name becomes `getEntryName` of them in the active language |
| Diary.Diary.TypeName | src/App.jsx:51-66 | typing a name and letting the effect run shows exactly the typed name, in either language |
| Diary.Diary.HandleAdd | src/App.jsx:159-200 | nothing changes when the trimmed name is empty; otherwise the new entry is put before the old ones, unchanged, and the form is cleared |
| Diary.Diary.HandleDelete | src/App.jsx:202-205 | the entries become RemoveId of the old entries; nothing else changes |
| Diary.Diary.HandleReset | src/App.jsx:207-213 | when confirmed, the goal and the diary are cleared; otherwise nothing changes |
| Diary.Diary.SubmitGoal | src/App.jsx:223-231 | the goal becomes the dialog's saved goal when there is one, and is otherwise unchanged |
| Diary.AddThenDelete | src/App.jsx:197-203 | a new entry adds its calories to the total; deleting its id, when no older entry carries it, restores the old list |
| JsStrings.Trim | cloudflare-ai/src/worker.ts:69 | `String.prototype.trim`; stated by JsStrings.TrimEmptyIffBlank and JsStrings.TrimEnds |
| JsStrings.ParseInt | src/components/GoalModal/GoalModal.jsx:15 | `parseInt(s, 10)`; stated by JsStrings.ParseIntOfString, JsStrings.ParseIntOfNatural and JsStrings.ParseIntOfNegative |
| JsStrings.IntToString | netlify/functions/clodudflare.js:159-161 | `String(n)`; stated by JsStrings.ParseIntOfString |
| JsStrings.TrimStart | cloudflare-ai/src/worker.ts:69 | `trimStart` returns a suffix of its input |
| JsStrings.TrimStartStops | cloudflare-ai/src/worker.ts:69 | whatever `trimStart` keeps does not start with whitespace |
| JsStrings.TrimStartSkipsWhitespace | cloudflare-ai/src/worker.ts:69 | everything `trimStart` drops is whitespace |
| JsStrings.TrimEnd | cloudflare-ai/src/worker.ts:69 | `trimEnd` returns a prefix of its input |
| JsStrings.TrimEndStops | cloudflare-ai/src/worker.ts:69 | whatever `trimEnd` keeps does not end with whitespace |
| JsStrings.TrimEndSkipsWhitespace | cloudflare-ai/src/worker.ts:69 | everything `trimEnd` drops is whitespace |
| JsStrings.TrimEmptyIffBlank | cloudflare-ai/src/worker.ts:69 | `trim` gives "" exactly when every character is whitespace |
| JsStrings.TrimEnds | netlify/functions/cloudflare.ts:108 | trimmed text has no whitespace at either end |
| JsStrings.UpTo | server.js:92 | the text up to the first occurrence of the separator: a prefix, with no occurrence starting inside it, and stopped by one when shorter than the input |
| JsStrings.DigitPrefix | src/components/GoalModal/GoalModal.jsx:15 | the longest prefix made of decimal digits |
| JsStrings.NatToString | netlify/functions/clodudflare.js:159-161 | `String(n)` of a natural number is a non-empty string of digits |
| JsStrings.NatToStringValue | netlify/functions/clodudflare.js:159-161 | the digits `String` writes are worth n again |
| JsStrings.ParseIntOfString | netlify/functions/clodudflare.js:159-161 | `parseInt(String(n), 10) == n` for every integer |
| JsStrings.ParseIntOfNatural | src/components/GoalModal/GoalModal.jsx:15 | the digits of m followed by a non-digit read as m |
| JsStrings.ParseIntOfNegative | src/App.jsx:164 | "-" then the digits of m, followed by a non-digit, read as -m |
| JsValues.Truthy | netlify/functions/cloudflare.ts:92 | JavaScript truthiness; stated, where the code relies on it, by NetlifyVision.FallbackEstimate and Diary.AddedEntryNamed |
| JsValues.Or | netlify/functions/cloudflare.ts:113-115 | JavaScript's logical or, which returns an operand; stated by NetlifyVision.ResponseDefaults and Diary.AddedEntryNameEn |
| JsValues.Coalesce | cloudflare-ai/src/worker.ts:114-115 | `a ?? b`; stated by Worker.EstimateBodyFields |
| JsValues.Get | cloudflare-ai/src/worker.ts:47 | a property read that throws on null or undefined; stated by Worker.FetchDispatch and NetlifyVision.FindImagePart |
| JsValues.ToNumber | cloudflare-ai/src/worker.ts:106 | `Number(v)`; stated by JsValues.ArrayToNumber and Worker.EstimateOutcome |
| JsValues.Round | cloudflare-ai/src/worker.ts:113 | `Math.round(x)` is the integer within one half of x, with halves rounded up |
| JsValues.RoundPositive | cloudflare-ai/src/worker.ts:108-113 | a positive number rounds to a non-negative integer, and to zero exactly below one half |
| JsValues.ArrayToNumber | cloudflare-ai/src/worker.ts:106 | `Number` of a one-element array converts its element, except that a boolean there is NaN; a longer array is NaN |
| Braces.IndexOf | cloudflare-ai/src/worker.ts:99 | the first position at or after `from` that holds the character, or none |
| Braces.LastIndexOf | netlify/functions/cloudflare.ts:86 | the last position that holds the character, or none |
| Braces.LazyObject | cloudflare-ai/src/worker.ts:99 | the non-greedy `/\{[\s\S]*?\}/` as a scan for the first `{` and then the first `}` after it; stated by Braces.LazyObjectSpec, Braces.LazyPrefixOfGreedy and Braces.NestedObjectLazy |
| Braces.GreedyObject | netlify/functions/cloudflare.ts:86 | the greedy `/\{[\s\S]*\}/` as the first `{` to the last `}`; stated by Braces.GreedyObjectSpec, Braces.LazyPrefixOfGreedy and Braces.NestedObjectGreedy |
| Braces.LazyObjectSpec | cloudflare-ai/src/worker.ts:99 | `/\{[\s\S]*?\}/` matches iff some `{` has a `}` after it; the match runs from the leftmost such `{` to the first `}` after it |
| Braces.GreedyObjectSpec | netlify/functions/cloudflare.ts:86 | `/\{[\s\S]*\}/` matches iff some `{` has a `}` after it; the match runs from the leftmost such `{` to the rightmost `}` |
| Braces.LazyPrefixOfGreedy | netlify/functions/cloudflare.ts:86 | both expressions match on the same texts, from the same `{`; the non-greedy match is a prefix of the greedy one |
| Braces.NestedObjectLazy | cloudflare-ai/src/worker.ts:99 | the non-greedy rule cuts a nested object at its inner `}` |
| Braces.NestedObjectGreedy | netlify/functions/cloudflare.ts:86 | the greedy rule keeps the same nested object whole |

## Left out

- The clock. `new Date().toDateString()` is a `Day` parameter, and each group of reads is collapsed into one day:
  - in server.js, lines 181-191 (`admitDay`) and lines 226-229 (`chargeDay`);
  - in clodudflare.js, lines 105-110 and lines 153-160.
  A day change inside one group is not modelled.
- `resetTime`, `Date.now()` and `toLocaleTimeString`: not computed. The entry's id and time are parameters of `HandleAdd`.
- Concurrency: each invocation runs alone. Interleaved awaits on one ledger are not modelled.
- IEEE doubles: numbers are exact reals. `JsStrings.ParseInt` returns unbounded integers, so the loss of precision on very long digit strings is not modelled.
- Strings are sequences of characters. There are no UTF-16 code units and no Unicode normalisation.
- The TypeError messages of the engine stand as the one constant `TYPE_ERROR`. `Error(String(x))` in callAI is the error's value, not its text.
- `Worker.Reply.Crashed`: a TypeError thrown outside any try in worker.ts is a distinct outcome. The runtime's own answer to it is not modelled.
- Express routing, body-parser, the `cors()` middleware and the headers it adds, the `/health`, `/api/debug/credits` and `/api/test/credit-check` routes, and `app.listen`: not modelled.
- Firebase initialisation: not modelled. The token verifier is a parameter.
- A missing `event.headers` object, which would throw in the Netlify functions: not modelled. `Event` always carries an optional authorization and a body text.
- `console` logging, toasts and the `estimating`/`scanning` flags: not modelled.
- The React rendering, `pct` (line 46 of App.jsx), the storage hooks and the language switch: not modelled. The state they keep is the fields of `Diary.Diary`.
- `handlePhotoSelect` and `handleEstimate` in App.jsx: left out. They only fill form fields from the same `callAI` and `safeParse` that handleAdd uses, which are modelled.
- `fileToBase64` in api.js: left out, because it relies on the browser's FileReader.
- `fetch` in callAI: the resolved response is the `Api.Reply` parameter.
- The handler behind `callAI`: api.js posts `{messages}` to the workers.dev URL and reads `text` from the reply, the shape cloudflare-ai/worker.js answers with; that file is not part of this model. `Api.PromptRefusedByWorker` and `Api.VisionEstimateHasNoText` show what `callAI` makes of the two modelled handlers instead.
- cloudflare-ai/worker.js is not part of this model. Only cloudflare-ai/src/worker.ts is modelled.
- The base64 decoding of the photo in netlify/functions/cloudflare.ts: part of the `vision` oracle.
- OPTIONS status. worker.ts and cloudflare.ts answer 200 with no body (`new Response(null, ...)`), and the model follows that code.
- `JsValues.ToNumber`: JavaScript's StringToNumber grammar is an uninterpreted `textToNumber` parameter. What is proved holds for any such conversion.
- `Diary.AddedEntry`: an AI `calories` that is truthy but not a number is NaN here. In the source, App.jsx:175 stores any such value as it is: a non-empty string, `true`, an object or an array. `totalEaten` (App.jsx:44) then adds it with JavaScript's `+`, which concatenates a string, an object or an array and counts `true` as 1. That mixed arithmetic is not modelled.
- `Diary.Diary.HandleAdd`: the AI call is made only when the typed count is NaN or 0. Its result is the `estimate` parameter. The parameter is ignored otherwise, as `Diary.AddedEntryCalories` proves.

## Findings

| source | as written | input that shows it | evidently intended | confidence | as-written member | corrected member |
|---|---|---|---|---|---|---|
| server.js:229-235 | line 229 declares `remainingFfter`, but line 235 reads `remainingAfter`, which is not declared. The ReferenceError falls into the catch, which answers 500 after the credit was already charged | an authenticated POST /api/claude with the key configured, below the limit, whose upstream answers 200 | answer 200 with the upstream body and X-Credits-Remaining, X-Credits-Used and X-Credits-Limit of the new count | high (not executed) | ExpressServer.AsWrittenNeverOk, ExpressServer.SuccessfulCallAsWritten | ExpressServer.IntendedAnswers, ExpressServer.SuccessfulCallIntended |
