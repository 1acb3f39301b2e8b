# howtojaydes: the generation pipeline, modelled in Dafny

howtojaydes is a small Express server that writes lyrics in the voice of a
reference artist. It has two generation endpoints:

- `POST /api/gen` takes a prompt and asks a language model for new lyrics.
- `POST /api/rewrite` takes lyrics and an optional prompt and asks for a rewrite.

Each request goes through the same pipeline:

1. the `/api` rate limiter;
2. a method guard that answers anything but `POST` with 405;
3. the generation rate limiter;
4. validation of the request fields, which are capped with `safeStr` and then trimmed;
5. loading the reference file `lyrics.txt`, cut to 14000 characters;
6. building an instruction prompt from fixed text, the reference and the user's input;
7. calling the model provider;
8. classifying the outcome into a JSON envelope with a status code.

The model is pure: the server's handlers compute one response from one
request, and nothing in the core is updated in place. The modules are:

- `JsString`: the JavaScript string built-ins the server uses. These are `trim`
  (over the ECMAScript white-space and line-terminator characters),
  `includes`, `toLowerCase` and `slice(0, n)`. For `trim` the model proves:
  - what it leaves is a contiguous piece of the input;
  - that piece is empty exactly for all-white input;
  - the piece starts and ends with a non-white character;
  - it removes exactly the surrounding white space;
  - it is idempotent.
- `Json` and `Helpers`: the parsed request body, `safeStr` and the reference
  loader `getReferenceText`. The file read is a parameter: `None` stands for a
  read that throws.
- `Prompts` and `PromptFacts`: `baseBlock`, `buildMakePrompt` and
  `buildRewritePrompt`. Each template starts and ends with a newline and is
  then trimmed. The model proves that this trim removes exactly the two framing
  newlines, so the reference, the prompt and the lyrics reach the model
  verbatim. The optional `Prompt:` block of the rewrite prompt is stated at its
  position, right after the lyrics block. It is there exactly when the prompt
  is non-empty. A plain "the text contains `Prompt:`" statement would be false:
  `PromptFacts.PromptTextFromLyrics` shows that lyrics containing a line
  `Prompt:` put that text into the prompt even when no prompt was given.
- `Gateway`: what `generateText` makes of the provider's reply. That is either
  the reply's text, or the empty string, trimmed; or the thrown value, passed on.
- `Routes`: the two endpoints as two phases.
  - `Prepare` runs the limiters, the method guard and validation, in the
    server's order. It either rejects with a status and an error, or names the
    job to send.
  - `Finish` turns the provider's outcome into the response.
  - `Handle` composes the two. The provider is a function parameter, and only a
    `Call` decision applies it.
- `Scenarios`: whole requests with concrete bodies, files and provider replies,
  and the response each gets.

Each endpoint uses fixed prompt templates and fixed sampling settings (0.95/0.95
for `/api/gen`, 0.8/0.95 for `/api/rewrite`).

## Model

| member | source | states |
|---|---|---|
| JsString.TrimFacts | server.js:148 | `trim` leaves a contiguous piece of its input, no longer than the input, and leaves nothing exactly when the input is all white space |
| JsString.TrimEnds | server.js:148 | what `trim` leaves, when non-empty, starts and ends with a non-white character |
| JsString.TrimFramed | server.js:45-51 | trimming a piece with non-white ends, framed by white space, gives back exactly the piece |
| JsString.TrimIdempotent | server.js:157 | trimming twice equals trimming once, so the handler's second trim of the already-trimmed model output changes nothing |
| Json.Field | server.js:147 | a body field is present exactly when the body is an object holding the key, and is then that key's value |
| Json.FieldIsLookup | server.js:147 | `Field` equals the lookup of `key` in the body-or-`{}` of the source, with JavaScript truthiness, for every body and every truthiness of numbers: a falsy or absent body becomes `{}`, and only an object supplies the field |
| Helpers.ReferenceText | server.js:29-36 | the reference is at most 14000 characters and a prefix of the file; it is the whole file when the file is short enough; it is exactly the first 14000 characters when the file is longer; it is empty when the read fails; it is empty exactly when the read fails or the file is empty |
| Helpers.SafeStr | server.js:39-42 | the result is at most `maxLen` long and a prefix of the value when that is a string, or of the default otherwise; it is the whole value, or the whole default, when it fits; it is exactly `maxLen` long when the source string is longer |
| Prompts.BaseBlockIsBanner | server.js:44-52 | trimming the `baseBlock` template removes exactly its two framing newlines, leaving the banner from `YOU ARE` to `explanations.` |
| Prompts.BaseBlock | server.js:44-52 | the base block is non-empty, starts with `Y` and ends with `.` |
| Prompts.MakePrompt | server.js:54-68 | the trimmed make prompt is the base block, the reference section, `Prompt:` and the prompt, then `Write.`; nothing of the reference or the prompt is trimmed away |
| Prompts.RewritePrompt | server.js:70-88 | the trimmed rewrite prompt is the base block, the reference and lyrics sections, the optional prompt block, then `Rewrite.`; nothing of the inputs is trimmed away |
| PromptFacts.MakePromptShape | server.js:54-68 | the make prompt starts with the base block, ends with `Write.`, and contains the reference and the prompt verbatim |
| PromptFacts.RewritePromptShape | server.js:70-88 | the rewrite prompt starts with the base block, ends with `Rewrite.`, and contains the reference and the lyrics verbatim |
| PromptFacts.RewritePromptBlock | server.js:84 | right after the lyrics block, `Prompt:` followed by the prompt occurs exactly when the prompt is non-empty; with an empty prompt, the closing `Rewrite.` follows directly |
| PromptFacts.PromptTextFromLyrics | server.js:79-84 | lyrics holding `Prompt:` on a line put that text into the rewrite prompt even when the prompt is empty, so containment alone does not show that a prompt was given |
| Gateway.GenerateText | server.js:90-105 | a resolved call yields the reply text trimmed, or empty when the text is missing, and that result is already trimmed; a thrown value reaches the handler unchanged |
| Routes.CappedFieldFacts | server.js:148 | a capped, trimmed field is at most the cap long, already trimmed, a piece of the capped string, and empty exactly when the capped string is white space |
| Routes.CappedBeforeTrim | server.js:176 | because the cap comes before the trim, a string field is empty after both exactly when its first `cap` characters are white space, whatever follows them |
| Routes.NonStringField | server.js:40 | a missing or non-string field becomes the empty string |
| Routes.PrepareAdmitted | server.js:145 | a `POST` admitted by both limiters goes on to the handler's own checks |
| Routes.RateLimited | server.js:113-128 | the `/api` limiter answers before anything else, and the generation limiter answers for a `POST`; both answer 429 "rate limited" |
| Routes.MethodGuard | server.js:135-142 | any other method past the `/api` limiter gets 405 "use POST" with the route, whatever the body, the generation limiter or the file |
| Routes.ValidateOutcomes | server.js:147-152 | the handler calls the provider exactly when the required field and the reference are non-empty; an empty required field is a 400; a present field with no reference is a 500 "missing lyrics.txt" |
| Routes.ValidateGenOutcomes | server.js:147-155 | `/api/gen` calls exactly when the prompt and the reference are non-empty; an empty prompt is a 400 "missing prompt"; otherwise a missing reference is a 500 |
| Routes.ValidateRewriteOutcomes | server.js:175-184 | `/api/rewrite` calls exactly when the lyrics and the reference are non-empty; empty lyrics are a 400 "missing lyrics"; otherwise a missing reference is a 500 |
| Routes.PrepareCallsExactly | server.js:145-155 | a request reaches the provider exactly when both limiters admit it, it is a `POST`, the required field is non-empty and the reference is non-empty |
| Routes.PrepareRejects | server.js:135-152 | every rejection before the provider call is a 400, 405, 429 or 500 |
| Routes.PrepareGenJob | server.js:148-155 | `/api/gen` builds its job from the loaded reference and the capped, trimmed prompt, and uses the `/api/gen` settings |
| Routes.PrepareRewriteJob | server.js:176-184 | `/api/rewrite` builds its job from the loaded reference and the capped, trimmed lyrics and prompt, and uses the `/api/rewrite` settings |
| Routes.MissingInput | server.js:176-178 | an empty required field is a 400 with the endpoint's message, whatever the file and, for a rewrite, whatever the prompt |
| Routes.MissingReference | server.js:180-181 | valid input with an unreadable or empty reference file is a 500 "missing lyrics.txt" |
| Routes.ErrorMessage | server.js:162 | the failure message is a non-empty `message` when there is one; otherwise it is the value's `String(e)`, carried as `name`, for a value with an empty string message; for any other value it is the rendering it carries, `String` of its truthy message or of itself |
| Routes.ErrorMessageIsJs | server.js:162 | `ErrorMessage` equals `String` of the message-or-value expression of the source: a truthy message is taken unchanged; otherwise the thrown value is rendered, and an error goes through `Error.prototype.toString` |
| Routes.AbortAnyCase | server.js:163 | `abort` in any mix of upper and lower case marks the failure as a timeout |
| Routes.Finish | server.js:157-169 | the response carries lyrics exactly when its status is 200 |
| Routes.FinishSuccess | server.js:157-160 | lyrics are returned exactly when the output trims to something non-empty, and are then that trimmed output; output that trims to nothing is a 502 "empty response" |
| Routes.FinishFailure | server.js:161-169 | a thrown value is a 504 "timed out" exactly when its lower-cased message contains `abort`, and a 502 "failed" otherwise; `details` is the message |
| Routes.HandleResponse | server.js:145-171 | every response has one of the codes 200, 400, 405, 429, 500, 502 or 504; it carries lyrics exactly when it is a 200, and those lyrics are non-empty and trimmed |
| Routes.RejectNeverCallsProvider | server.js:149-152 | a rejected request is answered with the rejection alone, without details, whatever the provider would do |
| Routes.CallUsesProvider | server.js:154-155 | an admitted request is answered from the provider's reply to the built prompt under this endpoint's settings |
| JsString.Trim | server.js:148 | `String.prototype.trim`; no contract of its own; stated by JsString.TrimFacts, JsString.TrimEnds, JsString.TrimFramed and JsString.TrimIdempotent |
| JsString.Prefix | server.js:41 | `s.slice(0, n)`: the result has length min(n, length of s) and is a prefix of s |
| JsString.Lower | server.js:163 | `toLowerCase` for ASCII: the result has the input's length and folds each character on its own, ASCII capitals to their lower-case letters and everything else unchanged; used by Routes.AbortAnyCase |
| Routes.CappedField | server.js:148 | `safeStr(body[key], cap, "").trim()`; no contract of its own; stated by Routes.CappedFieldFacts, Routes.CappedBeforeTrim and Routes.NonStringField |
| Routes.Prepare | server.js:113-152 | everything before the provider call, in registration order; no contract of its own; stated by Routes.RateLimited, Routes.MethodGuard, Routes.PrepareAdmitted, Routes.PrepareCallsExactly and Routes.PrepareRejects |
| Routes.ValidateGen | server.js:147-155 | the checks of the `/api/gen` handler; no contract of its own; stated by Routes.ValidateGenOutcomes and Routes.PrepareGenJob |
| Routes.ValidateRewrite | server.js:175-184 | the checks of the `/api/rewrite` handler; no contract of its own; stated by Routes.ValidateRewriteOutcomes and Routes.PrepareRewriteJob |
| Routes.IsAbort | server.js:163 | `msg.toLowerCase().includes("abort")`; no contract of its own; stated by Routes.AbortAnyCase, Scenarios.NoAbortWithoutB and Routes.FinishFailure |
| Routes.Handle | server.js:145-200 | one request from the limiters to the JSON response; no contract of its own; stated by Routes.HandleResponse, Routes.RejectNeverCallsProvider and Routes.CallUsesProvider |
| Scenarios.NoAbortWithoutB | server.js:163 | a message with no `b` in either case is never classified as a timeout |
| Scenarios.GetRewrite | server.js:139-142 | `GET /api/rewrite` is a 405 "use POST /api/rewrite" |
| Scenarios.RewriteWithoutLyrics | server.js:176-178 | a rewrite with empty lyrics is a 400 "missing lyrics" even when a prompt is given |
| Scenarios.RewriteWithoutLyricsRejected | server.js:176-178 | the same request is rejected by `Prepare` with 400 "missing lyrics", whatever the file |
| Scenarios.NoLyricsField | server.js:176 | empty lyrics make the required field empty |
| Scenarios.PaddedPrompt | server.js:148-149 | a prompt of 2000 white-space characters followed by any text is a 400 "missing prompt" |
| Scenarios.PaddedPromptRejected | server.js:148-149 | the same request is rejected by `Prepare` with 400 "missing prompt" |
| Scenarios.PaddedPromptField | server.js:148 | such a prompt is empty once capped and trimmed |
| Scenarios.GenSuccess | server.js:145-160 | "a song about rain" with a non-empty reference and a provider that answers with framed text gets 200 with that text trimmed |
| Scenarios.GenSuccessCalls | server.js:145-155 | that request passes every check and reaches the provider |
| Scenarios.RainField | server.js:148 | that prompt is non-empty once capped and trimmed |
| Scenarios.SingerLyrics | server.js:157-160 | a reply framed by newlines becomes a 200 with the inner text |
| Scenarios.Timeout | server.js:161-167 | an `AbortError` with message "This operation was aborted" is a 504 "timed out" carrying the message |
| Scenarios.AbortByName | server.js:162-165 | an error with an empty message is classified by its name, so `AbortError` is a 504 |
| Scenarios.NetworkFailure | server.js:161-169 | a "fetch failed" error is a 502 "failed" carrying the message |

## Left out

- Express wiring is not modelled: the app setup, the JSON body parser and its 64kb limit, malformed JSON, the `Content-Type` header, static files, the `/api` 404 route, the HTML fallback and `listen`. None of these lies between a parsed request and its response.
- `GET /api/ref` is a diagnostic route outside the generation pipeline.
- Rate limiting is modelled only by its verdict, `Routes.Admission`, one boolean per limiter. The per-client counters and their 60-second windows are left out, because they are state kept by a library.
- The provider call is a function parameter returning a `Reply`. Left out are the Gemini SDK, the API key and its startup check, the `AbortController`, and the 25-second timer that aborts the call. The abort is modelled only by the `AbortError` it throws.
- The sampling settings are floating point. The model carries them only as the endpoint tag given to the provider.
- The file read in `getReferenceText` is an `Option<string>` parameter, and its `console.error` diagnostic is left out. The same holds for the `console.error` calls in the handlers.
- Strings are sequences of Unicode scalar values, one per UTF-16 code unit, so the model covers only text without surrogate code units. JavaScript's `slice(0, 2000)`, `slice(0, 9000)` and `slice(0, 14000)` count code units and can split a surrogate pair; the caps agree with JavaScript only for text without characters outside the Basic Multilingual Plane, such as emoji.
- JsString.Lower: only the ASCII letters are lowercased, where JavaScript's `toLowerCase` folds all of Unicode. Only U+0130 (to `i` and U+0307) and U+212A (to `k`) fold into ASCII, and neither gives a letter of `abort`, so for the text the model covers the ASCII fold decides whether the message contains `abort` exactly as the source does.
- Routes.ErrorMessage: a thrown value is taken by its `message` when that is a non-empty string, whether it is an `Error` or a plain object. An empty string message falls back to `String(e)`, which the model carries as `name`: the name for an `Error` (through `Error.prototype.toString`), `[object Object]` for a plain object. Any other thrown value carries its rendering `String(e?.message || e)`, which the model takes as given: `String(message)` for a truthy non-string message (a thrown `{message: ["abort"]}` renders as `abort`), `String(e)` when the message is missing or falsy.
- Json.Field: a body that is not an object supplies no field. Properties inherited from the object prototype are not modelled; `prompt` and `lyrics` are not such properties.
- The browser client in `public/` is not part of this model.
