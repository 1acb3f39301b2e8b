/**
 * The result of `generateText`. The provider call, its 25-second abort
 * timer and the SDK are outside the model: what they hand back is a
 * `Reply`, and this module models only what `generateText` makes of it.
 */
module Gateway {
  import opened Wrappers
  import opened JsString

  /**
   * A value thrown by the provider call. `ErrorObject` stands for any thrown
   * value whose `message` is a string, an `Error` or a plain object alike;
   * `name` is what `String(e)` yields for it when the message is empty (an
   * `Error`'s name). `OtherValue` stands for any value whose `message` is not
   * a string, given by `String(e?.message || e)`: `String(message)` when the
   * message is truthy (`String(["abort"])` is `"abort"`), `String(e)` when it
   * is missing or falsy.
   */
  datatype Thrown = ErrorObject(name: string, message: string) | OtherValue(rendered: string)

  /** What the provider call does: resolve with a response whose `text` may be missing, or throw. */
  datatype Reply = Returned(text: Option<string>) | Threw(thrown: Thrown)

  /** What `generateText` yields to the route handler: trimmed text, or the thrown value. */
  datatype Outcome = Ok(text: string) | Failed(thrown: Thrown)

  /**
   * `generateText`: a resolved call yields `(out?.text || "").trim()`; a
   * thrown value propagates to the handler unchanged.
   */
  function GenerateText(reply: Reply): (o: Outcome)
    ensures o.Ok? <==> reply.Returned?
    ensures o.Ok? ==> Trim(o.text) == o.text
    ensures o.Ok? && reply.text.Some? ==> o.text == Trim(reply.text.value)
    ensures o.Ok? && reply.text.None? ==> o.text == []
    ensures reply.Threw? ==> o == Failed(reply.thrown)
  {
    match reply
    case Returned(text) =>
      var raw := if text.Some? then text.value else "";
      TrimIdempotent(raw);
      Ok(Trim(raw))
    case Threw(e) => Failed(e)
  }
}

/**
 * The two generation endpoints, `/api/gen` and `/api/rewrite`, as a
 * two-phase pure function. `Prepare` runs every check that precedes the
 * provider call and either rejects the request or names the job to send;
 * `Finish` turns the call's outcome into the response. `Handle` composes
 * them, with the provider as a parameter that only a `Call` decision ever
 * applies.
 */
module Routes {
  import opened Wrappers
  import opened JsString
  import opened Json
  import opened Helpers
  import opened Prompts
  import opened Gateway

  /** The generation endpoints; the tag also stands for the endpoint's fixed sampling settings. */
  datatype Endpoint = Gen | Rewrite

  function Path(ep: Endpoint): string {
    match ep
    case Gen => "/api/gen"
    case Rewrite => "/api/rewrite"
  }

  /**
   * The verdicts of the two rate limiters for this request: the limiter on
   * every `/api` request, and the one on the generation routes.
   */
  datatype Admission = Admission(api: bool, gen: bool)

  /**
   * What a validated request asks the model for: the inputs of
   * `buildMakePrompt` for `/api/gen`, those of `buildRewritePrompt` for
   * `/api/rewrite`.
   */
  datatype Job =
    | MakeJob(ref: string, prompt: string)
    | RewriteJob(ref: string, lyrics: string, prompt: string)

  /** The endpoint a job belongs to, which fixes the sampling settings of the call. */
  function JobEndpoint(job: Job): Endpoint {
    match job
    case MakeJob(_, _) => Gen
    case RewriteJob(_, _, _) => Rewrite
  }

  /** The text sent to the model for a job. */
  function JobPrompt(job: Job): string {
    match job
    case MakeJob(ref, prompt) => MakePrompt(ref, prompt)
    case RewriteJob(ref, lyrics, prompt) => RewritePrompt(ref, lyrics, prompt)
  }

  datatype Decision = Reject(status: int, error: string) | Call(job: Job)

  /** The JSON envelope: `{ok: true, lyrics}` or `{ok: false, error, details?}`. */
  datatype Envelope = Lyrics(lyrics: string) | Failure(error: string, details: Option<string>)

  datatype Response = Response(status: int, body: Envelope)

  /** The status codes the two endpoints answer with. */
  predicate StatusCode(status: int) {
    status == 200 || status == 400 || status == 405 || status == 429 || status == 500 || status == 502 || status == 504
  }

  /** The per-field caps of the handlers. */
  const PROMPT_CAP: nat := 2000
  const LYRICS_CAP: nat := 9000

  /**
   * `safeStr(body[key], cap, "").trim()`: a request field capped and
   * trimmed, empty when the field is missing, not a string, or white space
   * in its first `cap` characters.
   */
  function CappedField(body: Option<Value>, key: string, cap: nat): string {
    Trim(SafeStr(Field(body, key), cap, ""))
  }

  /**
   * A capped field is at most `cap` characters long, already trimmed, a piece
   * of the capped string, and empty exactly when that string is white space.
   */
  lemma CappedFieldFacts(body: Option<Value>, key: string, cap: nat)
    ensures var r, s := CappedField(body, key, cap), SafeStr(Field(body, key), cap, "");
      && |r| <= cap
      && Trim(r) == r
      && (r == [] <==> AllWhite(s))
      && Contains(s, r)
  {
    TrimFacts(SafeStr(Field(body, key), cap, ""));
    TrimIdempotent(SafeStr(Field(body, key), cap, ""));
  }

  /** The field that must be non-empty: the prompt for `/api/gen`, the lyrics for `/api/rewrite`. */
  function RequiredInput(ep: Endpoint, body: Option<Value>): string {
    match ep
    case Gen => CappedField(body, "prompt", PROMPT_CAP)
    case Rewrite => CappedField(body, "lyrics", LYRICS_CAP)
  }

  /**
   * Everything before the provider call, in the order the server runs it:
   * the `/api` limiter, the method guard, the generation limiter, then the
   * handler's own checks.
   */
  function Prepare(ep: Endpoint, verb: string, body: Option<Value>, admission: Admission, file: Option<string>): Decision {
    if !admission.api then Reject(429, "rate limited")
    else if verb != "POST" then Reject(405, "use POST " + Path(ep))
    else if !admission.gen then Reject(429, "rate limited")
    else Validate(ep, body, file)
  }

  /** The checks of the handler itself: input validation, then the reference file. */
  function Validate(ep: Endpoint, body: Option<Value>, file: Option<string>): Decision {
    match ep
    case Gen => ValidateGen(body, file)
    case Rewrite => ValidateRewrite(body, file)
  }

  function ValidateGen(body: Option<Value>, file: Option<string>): Decision {
    var promptIn := CappedField(body, "prompt", PROMPT_CAP);
    if promptIn == [] then Reject(400, "missing prompt")
    else
      var ref := ReferenceText(file);
      if ref == [] then Reject(500, "missing lyrics.txt")
      else Call(MakeJob(ref, promptIn))
  }

  function ValidateRewrite(body: Option<Value>, file: Option<string>): Decision {
    var lyrics := CappedField(body, "lyrics", LYRICS_CAP);
    var promptIn := CappedField(body, "prompt", PROMPT_CAP);
    if lyrics == [] then Reject(400, "missing lyrics")
    else
      var ref := ReferenceText(file);
      if ref == [] then Reject(500, "missing lyrics.txt")
      else Call(RewriteJob(ref, lyrics, promptIn))
  }

  /** An admitted `POST` goes on to the handler's own checks. */
  lemma PrepareAdmitted(ep: Endpoint, verb: string, body: Option<Value>, admission: Admission, file: Option<string>)
    requires admission.api && verb == "POST" && admission.gen
    ensures Prepare(ep, verb, body, admission, file) == Validate(ep, body, file)
  {
  }

  /**
   * The `/api` limiter answers before anything else, and the generation
   * limiter answers once the method is `POST`; both with 429 "rate limited".
   */
  lemma RateLimited(ep: Endpoint, verb: string, body: Option<Value>, admission: Admission, file: Option<string>)
    requires !admission.api || (verb == "POST" && !admission.gen)
    ensures Prepare(ep, verb, body, admission, file) == Reject(429, "rate limited")
  {
  }

  /**
   * Any method other than `POST` that gets past the `/api` limiter is a 405
   * naming the route, whatever the body, the generation limiter or the file.
   */
  lemma MethodGuard(ep: Endpoint, verb: string, body: Option<Value>, admission: Admission, file: Option<string>)
    requires admission.api && verb != "POST"
    ensures Prepare(ep, verb, body, admission, file) == Reject(405, "use POST " + Path(ep))
  {
  }

  /**
   * The handler's own checks call the provider exactly when the required
   * field and the reference are non-empty; otherwise they answer 400 for the
   * field, or 500 for the reference once the field is present.
   */
  lemma ValidateOutcomes(ep: Endpoint, body: Option<Value>, file: Option<string>)
    ensures var d := Validate(ep, body, file);
      && (d.Call? <==> RequiredInput(ep, body) != [] && ReferenceText(file) != [])
      && (d.Reject? && RequiredInput(ep, body) == [] ==> d.status == 400)
      && (d.Reject? && RequiredInput(ep, body) != [] ==> d == Reject(500, "missing lyrics.txt"))
  {
    if ep == Gen {
      assert Validate(ep, body, file) == ValidateGen(body, file);
      assert RequiredInput(ep, body) == CappedField(body, "prompt", PROMPT_CAP);
      ValidateGenOutcomes(body, file);
    } else {
      assert Validate(ep, body, file) == ValidateRewrite(body, file);
      assert RequiredInput(ep, body) == CappedField(body, "lyrics", LYRICS_CAP);
      ValidateRewriteOutcomes(body, file);
    }
  }

  lemma ValidateGenOutcomes(body: Option<Value>, file: Option<string>)
    ensures var d, input := ValidateGen(body, file), CappedField(body, "prompt", PROMPT_CAP);
      && (d.Call? <==> input != [] && ReferenceText(file) != [])
      && (input == [] ==> d == Reject(400, "missing prompt"))
      && (d.Reject? && input != [] ==> d == Reject(500, "missing lyrics.txt"))
  {
  }

  lemma ValidateRewriteOutcomes(body: Option<Value>, file: Option<string>)
    ensures var d, input := ValidateRewrite(body, file), CappedField(body, "lyrics", LYRICS_CAP);
      && (d.Call? <==> input != [] && ReferenceText(file) != [])
      && (input == [] ==> d == Reject(400, "missing lyrics"))
      && (d.Reject? && input != [] ==> d == Reject(500, "missing lyrics.txt"))
  {
  }

  /** A request reaches the provider exactly when it passes every check. */
  lemma PrepareCallsExactly(ep: Endpoint, verb: string, body: Option<Value>, admission: Admission, file: Option<string>)
    ensures Prepare(ep, verb, body, admission, file).Call? <==>
      admission.api && verb == "POST" && admission.gen && RequiredInput(ep, body) != [] && ReferenceText(file) != []
  {
    if !admission.api || (verb == "POST" && !admission.gen) {
      RateLimited(ep, verb, body, admission, file);
    } else if verb != "POST" {
      MethodGuard(ep, verb, body, admission, file);
    } else {
      PrepareAdmitted(ep, verb, body, admission, file);
      ValidateOutcomes(ep, body, file);
    }
  }

  /** A rejection is a validation error, a wrong method, a rate limit or a missing reference. */
  lemma PrepareRejects(ep: Endpoint, verb: string, body: Option<Value>, admission: Admission, file: Option<string>)
    ensures var d := Prepare(ep, verb, body, admission, file);
      d.Reject? ==> (d.status == 400 || d.status == 405 || d.status == 429 || d.status == 500)
  {
    if !admission.api || (verb == "POST" && !admission.gen) {
      RateLimited(ep, verb, body, admission, file);
    } else if verb != "POST" {
      MethodGuard(ep, verb, body, admission, file);
    } else {
      PrepareAdmitted(ep, verb, body, admission, file);
      ValidateOutcomes(ep, body, file);
    }
  }

  /**
   * `/api/gen` sends its job to the `/api/gen` settings, built from the
   * loaded reference and the capped, trimmed prompt.
   */
  lemma PrepareGenJob(verb: string, body: Option<Value>, admission: Admission, file: Option<string>)
    ensures var d := Prepare(Gen, verb, body, admission, file);
      d.Call? ==> d.job == MakeJob(ReferenceText(file), CappedField(body, "prompt", PROMPT_CAP)) && JobEndpoint(d.job) == Gen
  {
    if admission.api && verb == "POST" && admission.gen {
      PrepareAdmitted(Gen, verb, body, admission, file);
      assert Validate(Gen, body, file) == ValidateGen(body, file);
    }
  }

  /**
   * `/api/rewrite` sends its job to the `/api/rewrite` settings, built from
   * the loaded reference and the capped, trimmed lyrics and prompt.
   */
  lemma PrepareRewriteJob(verb: string, body: Option<Value>, admission: Admission, file: Option<string>)
    ensures var d := Prepare(Rewrite, verb, body, admission, file);
      d.Call? ==>
        && d.job == RewriteJob(ReferenceText(file), CappedField(body, "lyrics", LYRICS_CAP), CappedField(body, "prompt", PROMPT_CAP))
        && JobEndpoint(d.job) == Rewrite
  {
    if admission.api && verb == "POST" && admission.gen {
      PrepareAdmitted(Rewrite, verb, body, admission, file);
      assert Validate(Rewrite, body, file) == ValidateRewrite(body, file);
    }
  }

  /**
   * A required field that is missing, not a string, or white space in its
   * first characters up to the cap is a 400, checked before the reference
   * is read, so it does not depend on the file; for `/api/rewrite` it does
   * not depend on the prompt field either.
   */
  lemma MissingInput(ep: Endpoint, verb: string, body: Option<Value>, admission: Admission, file: Option<string>)
    requires admission.api && verb == "POST" && admission.gen
    requires RequiredInput(ep, body) == []
    ensures Prepare(ep, verb, body, admission, file) == Reject(400, if ep == Gen then "missing prompt" else "missing lyrics")
  {
    PrepareAdmitted(ep, verb, body, admission, file);
    if ep == Gen {
      assert Validate(ep, body, file) == ValidateGen(body, file);
    } else {
      assert Validate(ep, body, file) == ValidateRewrite(body, file);
    }
  }

  /** Valid input with a reference file that is unreadable or empty is a 500 "missing lyrics.txt". */
  lemma MissingReference(ep: Endpoint, verb: string, body: Option<Value>, admission: Admission, file: Option<string>)
    requires admission.api && verb == "POST" && admission.gen
    requires RequiredInput(ep, body) != []
    requires file.None? || file.value == []
    ensures Prepare(ep, verb, body, admission, file) == Reject(500, "missing lyrics.txt")
  {
    PrepareAdmitted(ep, verb, body, admission, file);
    ValidateOutcomes(ep, body, file);
  }

  /**
   * The cap is applied before the trim: a string field is empty after both
   * exactly when its first `cap` characters are white space, whatever
   * follows them.
   */
  lemma CappedBeforeTrim(body: Option<Value>, key: string, cap: nat, s: string)
    requires Field(body, key) == Some(Str(s))
    ensures CappedField(body, key, cap) == [] <==> forall i | 0 <= i < |s| && i < cap :: IsWhite(s[i])
  {
    assert SafeStr(Field(body, key), cap, "") == Prefix(s, cap);
    CappedFieldFacts(body, key, cap);
    PrefixAllWhite(s, cap);
  }

  /** A field that is missing or not a string counts as empty. */
  lemma NonStringField(body: Option<Value>, key: string, cap: nat)
    requires !(Field(body, key).Some? && Field(body, key).value.Str?)
    ensures CappedField(body, key, cap) == []
  {
    assert SafeStr(Field(body, key), cap, "") == [];
    CappedFieldFacts(body, key, cap);
  }

  /**
   * `String(e?.message || e)`: a non-empty string message as it is; an empty
   * one falls back to the value's name; any other value is its rendering.
   */
  function ErrorMessage(e: Thrown): (m: string)
    ensures e.ErrorObject? && e.message != [] ==> m == e.message
    ensures e.ErrorObject? && e.message == [] ==> m == e.name
    ensures e.OtherValue? ==> m == e.rendered
  {
    match e
    case ErrorObject(name, message) => if message != [] then message else name
    case OtherValue(rendered) => rendered
  }

  /**
   * `Error.prototype.toString`: the name, then `": "` and the message, where
   * an empty name gives the message alone and an empty message the name alone.
   */
  function ErrorToString(name: string, message: string): string {
    if name == [] then message
    else if message == [] then name
    else name + ": " + message
  }

  /**
   * What the message falls back to when it is not a non-empty string:
   * `String(e)` for a value with a string message, through
   * `Error.prototype.toString`, and the given rendering of any other value.
   */
  function Render(e: Thrown): string {
    match e
    case ErrorObject(name, message) => ErrorToString(name, message)
    case OtherValue(rendered) => rendered
  }

  /**
   * `ErrorMessage` is `String(e?.message || e)` as written: a non-empty string
   * message is taken as it is (`String` of a string is that string); an empty
   * one is falsy, so the thrown value itself is rendered.
   */
  lemma ErrorMessageIsJs(e: Thrown)
    ensures ErrorMessage(e) == if e.ErrorObject? && e.message != [] then e.message else Render(e)
  {
  }

  /** The failure is a timeout when its message, lower-cased, contains `abort`. */
  predicate IsAbort(message: string) {
    Contains(Lower(message), "abort")
  }

  /** `abort` is found in any mix of upper and lower case: "Aborted", "ABORT_ERR" and "aborted" all count. */
  lemma AbortAnyCase(message: string, i: int)
    requires 0 <= i && i + 5 <= |message|
    requires Lower(message[i..i + 5]) == "abort"
    ensures IsAbort(message)
  {
    LowerSlice(message, i, i + 5);
    assert OccursAt(Lower(message), "abort", i);
  }

  /**
   * Everything after the provider call: lyrics with status 200 when the
   * output, trimmed once more, is non-empty; otherwise a failure envelope.
   */
  function Finish(o: Outcome): (r: Response)
    ensures r.body.Lyrics? <==> r.status == 200
  {
    match o
    case Ok(txt) =>
      var out := Trim(txt);
      if out == [] then Response(502, Failure("empty response", None))
      else Response(200, Lyrics(out))
    case Failed(e) =>
      var msg := ErrorMessage(e);
      var isAbort := IsAbort(msg);
      Response(if isAbort then 504 else 502, Failure(if isAbort then "timed out" else "failed", Some(msg)))
  }

  /**
   * A successful response carries the model's output, trimmed, and never
   * empty; output that trims to nothing is a 502 "empty response".
   */
  lemma FinishSuccess(o: Outcome)
    ensures var r := Finish(o);
      && (r.body.Lyrics? <==> o.Ok? && Trim(o.text) != [])
      && (r.body.Lyrics? ==> r.body.lyrics == Trim(o.text) && r.body.lyrics != [] && Trim(r.body.lyrics) == r.body.lyrics)
      && (o.Ok? && Trim(o.text) == [] ==> r == Response(502, Failure("empty response", None)))
  {
    if o.Ok? {
      TrimIdempotent(o.text);
    }
  }

  /**
   * A thrown value is a 504 "timed out" exactly when its message, lower-cased,
   * contains `abort`, and a 502 "failed" otherwise; `details` is the message.
   */
  lemma FinishFailure(e: Thrown)
    ensures var r := Finish(Failed(e));
      && (r.status == 502 || r.status == 504)
      && (r.status == 504 <==> IsAbort(ErrorMessage(e)))
      && r.body == Failure(if r.status == 504 then "timed out" else "failed", Some(ErrorMessage(e)))
  {
  }

  /** One request to a generation endpoint, from the rate limiters to the JSON response. */
  function Handle(ep: Endpoint, verb: string, body: Option<Value>, admission: Admission, file: Option<string>,
                  provider: (Endpoint, string) -> Reply): Response
  {
    match Prepare(ep, verb, body, admission, file)
    case Reject(status, error) => Response(status, Failure(error, None))
    case Call(job) => Finish(GenerateText(provider(JobEndpoint(job), JobPrompt(job))))
  }

  /**
   * Every response has one of the endpoints' status codes; it carries lyrics
   * exactly when it is a 200, and the lyrics are then non-empty and trimmed.
   */
  lemma HandleResponse(ep: Endpoint, verb: string, body: Option<Value>, admission: Admission, file: Option<string>,
                       provider: (Endpoint, string) -> Reply)
    ensures var r := Handle(ep, verb, body, admission, file, provider);
      && StatusCode(r.status)
      && (r.body.Lyrics? <==> r.status == 200)
      && (r.body.Lyrics? ==> r.body.lyrics != [] && Trim(r.body.lyrics) == r.body.lyrics)
  {
    var d := Prepare(ep, verb, body, admission, file);
    if d.Reject? {
      PrepareRejects(ep, verb, body, admission, file);
      assert Handle(ep, verb, body, admission, file, provider) == Response(d.status, Failure(d.error, None));
    } else {
      var o := GenerateText(provider(JobEndpoint(d.job), JobPrompt(d.job)));
      assert Handle(ep, verb, body, admission, file, provider) == Finish(o);
      FinishSuccess(o);
      if o.Failed? {
        FinishFailure(o.thrown);
      }
    }
  }

  /**
   * A rejected request never reaches the provider: its response is the
   * rejection itself, with no details, whatever the provider would do.
   */
  lemma RejectNeverCallsProvider(ep: Endpoint, verb: string, body: Option<Value>, admission: Admission, file: Option<string>,
                                 p1: (Endpoint, string) -> Reply, p2: (Endpoint, string) -> Reply)
    requires Prepare(ep, verb, body, admission, file).Reject?
    ensures var d := Prepare(ep, verb, body, admission, file);
      && Handle(ep, verb, body, admission, file, p1) == Response(d.status, Failure(d.error, None))
      && Handle(ep, verb, body, admission, file, p2) == Handle(ep, verb, body, admission, file, p1)
  {
  }

  /**
   * A request that passes every check is answered from the provider's reply
   * to this endpoint's settings and the built prompt, and from nothing else.
   */
  lemma CallUsesProvider(ep: Endpoint, verb: string, body: Option<Value>, admission: Admission, file: Option<string>,
                         provider: (Endpoint, string) -> Reply)
    requires Prepare(ep, verb, body, admission, file).Call?
    ensures var d := Prepare(ep, verb, body, admission, file);
      Handle(ep, verb, body, admission, file, provider) == Finish(GenerateText(provider(ep, JobPrompt(d.job))))
  {
    if ep == Gen {
      PrepareGenJob(verb, body, admission, file);
    } else {
      PrepareRewriteJob(verb, body, admission, file);
    }
  }
}
