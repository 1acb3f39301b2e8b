/**
 * Whole requests, end to end: concrete bodies, files and provider replies,
 * and the response each one gets.
 */
module Scenarios {
  import opened Wrappers
  import opened JsString
  import opened Json
  import opened Gateway
  import opened Routes

  /** Both limiters let the request through. */
  const ADMITTED := Admission(true, true)

  /** A thrown value whose message has no `b` in either case is never a timeout. */
  lemma NoAbortWithoutB(message: string)
    requires forall i | 0 <= i < |message| :: LowerChar(message[i]) != 'b'
    ensures !IsAbort(message)
  {
    var lower := Lower(message);
    forall i | 0 <= i <= |lower| - 5
      ensures !OccursAt(lower, "abort", i)
    {
      assert lower[i..i + 5][1] == lower[i + 1] != "abort"[1];
    }
  }

  /** A `GET` to `/api/rewrite` is told to use `POST`, and nothing else is looked at. */
  lemma GetRewrite(body: Option<Value>, file: Option<string>, provider: (Endpoint, string) -> Reply)
    ensures Handle(Rewrite, "GET", body, ADMITTED, file, provider) == Response(405, Failure("use POST " + "/api/rewrite", None))
  {
    MethodGuard(Rewrite, "GET", body, ADMITTED, file);
    RejectNeverCallsProvider(Rewrite, "GET", body, ADMITTED, file, provider, provider);
  }

  /** A rewrite body whose lyrics are empty and whose prompt is not. */
  const NO_LYRICS: Option<Value> := Some(Object(map["prompt" := Str("x"), "lyrics" := Str("")]))

  /** A rewrite with empty lyrics is a 400 "missing lyrics" even when a prompt is given. */
  lemma RewriteWithoutLyrics(file: Option<string>, provider: (Endpoint, string) -> Reply)
    ensures Handle(Rewrite, "POST", NO_LYRICS, ADMITTED, file, provider) == Response(400, Failure("missing lyrics", None))
  {
    RewriteWithoutLyricsRejected(file);
    RejectNeverCallsProvider(Rewrite, "POST", NO_LYRICS, ADMITTED, file, provider, provider);
  }

  lemma RewriteWithoutLyricsRejected(file: Option<string>)
    ensures Prepare(Rewrite, "POST", NO_LYRICS, ADMITTED, file) == Reject(400, "missing lyrics")
  {
    NoLyricsField();
    MissingInput(Rewrite, "POST", NO_LYRICS, ADMITTED, file);
  }

  lemma NoLyricsField()
    ensures RequiredInput(Rewrite, NO_LYRICS) == []
  {
    assert Field(NO_LYRICS, "lyrics") == Some(Str(""));
    CappedBeforeTrim(NO_LYRICS, "lyrics", LYRICS_CAP, "");
  }

  /** A `/api/gen` body whose prompt is `pad` followed by `text`. */
  function PromptBody(pad: string, text: string): Option<Value> {
    Some(Object(map["prompt" := Str(pad + text)]))
  }

  /**
   * A prompt of 2000 white-space characters followed by any text is cut
   * before it is trimmed, so `/api/gen` answers 400 "missing prompt".
   */
  lemma PaddedPrompt(pad: string, text: string, file: Option<string>, provider: (Endpoint, string) -> Reply)
    requires |pad| == PROMPT_CAP && AllWhite(pad)
    ensures Handle(Gen, "POST", PromptBody(pad, text), ADMITTED, file, provider) == Response(400, Failure("missing prompt", None))
  {
    PaddedPromptRejected(pad, text, file);
    RejectNeverCallsProvider(Gen, "POST", PromptBody(pad, text), ADMITTED, file, provider, provider);
  }

  lemma PaddedPromptRejected(pad: string, text: string, file: Option<string>)
    requires |pad| == PROMPT_CAP && AllWhite(pad)
    ensures Prepare(Gen, "POST", PromptBody(pad, text), ADMITTED, file) == Reject(400, "missing prompt")
  {
    PaddedPromptField(pad, text);
    MissingInput(Gen, "POST", PromptBody(pad, text), ADMITTED, file);
  }

  lemma PaddedPromptField(pad: string, text: string)
    requires |pad| == PROMPT_CAP && AllWhite(pad)
    ensures RequiredInput(Gen, PromptBody(pad, text)) == []
  {
    var body := PromptBody(pad, text);
    assert Field(body, "prompt") == Some(Str(pad + text));
    forall i | 0 <= i < |pad + text| && i < PROMPT_CAP
      ensures IsWhite((pad + text)[i])
    {
      assert (pad + text)[i] == pad[i];
    }
    CappedBeforeTrim(body, "prompt", PROMPT_CAP, pad + text);
  }

  /** A `/api/gen` body asking for a song about rain. */
  const RAIN: Option<Value> := Some(Object(map["prompt" := Str("a song about rain")]))

  /** A provider that answers every call with the text of a short song, framed by newlines. */
  const SINGER: (Endpoint, string) -> Reply := (ep: Endpoint, p: string) => Returned(Some("\nla la la\n"))

  /**
   * A song request with a readable reference file is answered with the
   * model's text, trimmed.
   */
  lemma GenSuccess(ref: string)
    requires ref != []
    ensures Handle(Gen, "POST", RAIN, ADMITTED, Some(ref), SINGER) == Response(200, Lyrics("la la la"))
  {
    GenSuccessCalls(ref);
    CallUsesProvider(Gen, "POST", RAIN, ADMITTED, Some(ref), SINGER);
    SingerLyrics();
  }

  lemma GenSuccessCalls(ref: string)
    requires ref != []
    ensures Prepare(Gen, "POST", RAIN, ADMITTED, Some(ref)).Call?
  {
    RainField();
    PrepareCallsExactly(Gen, "POST", RAIN, ADMITTED, Some(ref));
  }

  lemma RainField()
    ensures RequiredInput(Gen, RAIN) != []
  {
    assert Field(RAIN, "prompt") == Some(Str("a song about rain"));
    assert !IsWhite("a song about rain"[0]);
    CappedBeforeTrim(RAIN, "prompt", PROMPT_CAP, "a song about rain");
  }

  lemma SingerLyrics()
    ensures Finish(GenerateText(Returned(Some("\nla la la\n")))) == Response(200, Lyrics("la la la"))
  {
    assert "\n" + "la la la" + "\n" == "\nla la la\n";
    assert AllWhite("\n");
    TrimFramed("\n", "la la la", "\n");
    TrimIdempotent("la la la");
  }

  /** An `AbortError` thrown by the call surfaces as a 504 "timed out" with the message as details. */
  lemma Timeout()
    ensures var message := "This operation was " + "aborted";
      Finish(Failed(ErrorObject("AbortError", message))) == Response(504, Failure("timed out", Some(message)))
  {
    var message := "This operation was " + "aborted";
    assert message[19..24] == "abort";
    AbortAnyCase(message, 19);
  }

  /** An error object with an empty message is classified by its name. */
  lemma AbortByName()
    ensures Finish(Failed(ErrorObject("AbortError", ""))) == Response(504, Failure("timed out", Some("AbortError")))
  {
    assert "AbortError"[0..5] == "Abort";
    AbortAnyCase("AbortError", 0);
  }

  /** Any other failure is a 502 "failed" with the message as details. */
  lemma NetworkFailure()
    ensures Finish(Failed(ErrorObject("TypeError", "fetch failed"))) == Response(502, Failure("failed", Some("fetch failed")))
  {
    NoAbortWithoutB("fetch failed");
  }
}
