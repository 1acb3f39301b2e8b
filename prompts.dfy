/**
 * The prompt builders: `baseBlock`, `buildMakePrompt` and `buildRewritePrompt`.
 * Each is a template literal that starts and ends with a newline and is
 * trimmed; the lemmas below show that the trim removes only those two
 * newlines, so the user's text always reaches the model verbatim.
 */
module Prompts {
  import opened JsString

  /** The text of `baseBlock` once trimmed, line by line. */
  const BANNER := "YOU ARE \"howtojaydes\".\n" + "ghost writer trained on jaydes\n" + "\n"
    + "Output only lyrics.\n" + "No titles. No explanations."

  /**
   * `baseBlock()`: the banner template, framed by a newline on each side,
   * trimmed; the trim removes exactly the two framing newlines.
   */
  function BaseBlock(): (r: string)
    ensures r != [] && r[0] == 'Y' && r[|r| - 1] == '.'
  {
    BaseBlockIsBanner();
    Trim("\n" + BANNER + "\n")
  }

  /** Trimming the banner template removes exactly its two framing newlines. */
  lemma BaseBlockIsBanner()
    ensures Trim("\n" + BANNER + "\n") == BANNER
    ensures BANNER != [] && BANNER[0] == 'Y' && BANNER[|BANNER| - 1] == '.'
  {
    assert BANNER[0] == 'Y' && BANNER[|BANNER| - 1] == '.';
    TrimFramed("\n", BANNER, "\n");
  }

  /** The reference block shared by both prompts, from the blank line before `Reference:` to the closing `---`. */
  function ReferenceSection(ref: string): string {
    "\n\nReference:\n---\n" + ref + "\n---"
  }

  /** The lyrics block of the rewrite prompt. */
  function LyricsSection(lyrics: string): string {
    "\n\nLyrics:\n---\n" + lyrics + "\n---"
  }

  /** The optional `Prompt:` block of the rewrite prompt: present only for a non-empty prompt. */
  function PromptSection(prompt: string): string {
    if prompt != [] then "Prompt:\n" + prompt + "\n" else ""
  }

  /**
   * `buildMakePrompt({ref, prompt})`: the banner, the reference block, the
   * prompt and the closing `Write.`; the trim of the template removes only
   * its framing newlines, never any part of `ref` or `prompt`.
   */
  function MakePrompt(ref: string, prompt: string): (r: string)
    ensures r == BaseBlock() + ReferenceSection(ref) + "\n\nPrompt:\n" + prompt + "\n\nWrite."
  {
    var body := BaseBlock() + ReferenceSection(ref) + "\n\nPrompt:\n" + prompt;
    assert body[0] == 'Y';
    ClosedBy(body, "\n\nWrite.");
    Trim("\n" + body + "\n\nWrite." + "\n")
  }

  /**
   * `buildRewritePrompt({ref, lyrics, prompt})`: the banner, the reference
   * block, the lyrics block, the prompt block when there is a prompt, and
   * the closing `Rewrite.`; again the trim removes only the framing newlines.
   */
  function RewritePrompt(ref: string, lyrics: string, prompt: string): (r: string)
    ensures r == BaseBlock() + ReferenceSection(ref) + LyricsSection(lyrics) + "\n\n" + PromptSection(prompt) + "\n\nRewrite."
  {
    var body := BaseBlock() + ReferenceSection(ref) + LyricsSection(lyrics) + "\n\n" + PromptSection(prompt);
    assert body[0] == 'Y';
    ClosedBy(body, "\n\nRewrite.");
    Trim("\n" + body + "\n\nRewrite." + "\n")
  }

  /** Concatenation regroups freely. */
  lemma Assoc(a: string, b: string, c: string)
    ensures a + b + c == a + (b + c)
  {
  }

  /**
   * A template that opens with a newline, starts with a non-white
   * character, and closes with an instruction ending in a full stop and a
   * newline trims to exactly what lies between the two framing newlines.
   */
  lemma ClosedBy(body: string, closing: string)
    requires body != [] && !IsWhite(body[0])
    requires closing != [] && closing[|closing| - 1] == '.'
    ensures Trim("\n" + body + closing + "\n") == body + closing
  {
    var core := body + closing;
    Assoc("\n", body, closing);
    assert core[0] == body[0];
    assert core[|core| - 1] == closing[|closing| - 1];
    TrimFramed("\n", core, "\n");
  }
}

/** What the prompt builders promise about the text they produce. */
module PromptFacts {
  import opened JsString
  import opened Prompts

  /** The reference text appears verbatim in its block, after the block's heading. */
  lemma ReferenceInSection(ref: string)
    ensures OccursAt(ReferenceSection(ref), ref, |"\n\nReference:\n---\n"|)
  {
    OccursSelf(ref);
    OccursRight("\n\nReference:\n---\n", ref, ref, 0);
    OccursLeft("\n\nReference:\n---\n" + ref, "\n---", ref, |"\n\nReference:\n---\n"|);
  }

  /** The lyrics appear verbatim in their block, after the block's heading. */
  lemma LyricsInSection(lyrics: string)
    ensures OccursAt(LyricsSection(lyrics), lyrics, |"\n\nLyrics:\n---\n"|)
  {
    OccursSelf(lyrics);
    OccursRight("\n\nLyrics:\n---\n", lyrics, lyrics, 0);
    OccursLeft("\n\nLyrics:\n---\n" + lyrics, "\n---", lyrics, |"\n\nLyrics:\n---\n"|);
  }

  /**
   * `buildMakePrompt` opens with `baseBlock()`, ends with `Write.`, and
   * holds both the reference and the prompt verbatim.
   */
  lemma MakePromptShape(ref: string, prompt: string)
    ensures var r := MakePrompt(ref, prompt);
      && StartsWith(r, BaseBlock()) && EndsWith(r, "Write.")
      && Contains(r, ref) && Contains(r, prompt)
  {
    var b, sec := BaseBlock(), ReferenceSection(ref);
    ReferenceInSection(ref);
    FiveParts(b, sec, "\n\nPrompt:\n", prompt, "\n\nWrite.", ref, |"\n\nReference:\n---\n"|);
    ClosingLine(b + sec + "\n\nPrompt:\n" + prompt, "\n\nWrite.", "Write.");
  }

  /**
   * `buildRewritePrompt` opens with `baseBlock()`, ends with `Rewrite.`,
   * and holds the reference and the lyrics verbatim.
   */
  lemma RewritePromptShape(ref: string, lyrics: string, prompt: string)
    ensures var r := RewritePrompt(ref, lyrics, prompt);
      && StartsWith(r, BaseBlock()) && EndsWith(r, "Rewrite.")
      && Contains(r, ref) && Contains(r, lyrics)
  {
    var b, sec, lsec := BaseBlock(), ReferenceSection(ref), LyricsSection(lyrics);
    ReferenceInSection(ref);
    LyricsInSection(lyrics);
    SixParts(b, sec, lsec, "\n\n", PromptSection(prompt), "\n\nRewrite.",
      ref, |"\n\nReference:\n---\n"|, lyrics, |"\n\nLyrics:\n---\n"|);
    ClosingLine(b + sec + lsec + "\n\n" + PromptSection(prompt), "\n\nRewrite.", "Rewrite.");
  }

  /** Where the optional prompt block of the rewrite prompt begins: right after the lyrics block and a blank line. */
  function PromptBlockStart(ref: string, lyrics: string): nat {
    |BaseBlock() + ReferenceSection(ref) + LyricsSection(lyrics) + "\n\n"|
  }

  /**
   * The rewrite prompt carries a `Prompt:` block holding the prompt exactly
   * when the prompt is non-empty; with an empty prompt the lyrics block is
   * followed directly by the closing `Rewrite.`.
   */
  lemma RewritePromptBlock(ref: string, lyrics: string, prompt: string)
    ensures var r := RewritePrompt(ref, lyrics, prompt);
      OccursAt(r, "Prompt:\n" + prompt, PromptBlockStart(ref, lyrics)) <==> prompt != []
    ensures prompt == [] ==> RewritePrompt(ref, lyrics, prompt)[PromptBlockStart(ref, lyrics)..] == "\n\nRewrite."
  {
    if prompt != [] {
      PromptBlockPresent(ref, lyrics, prompt);
    } else {
      PromptBlockAbsent(ref, lyrics, prompt);
    }
  }

  /** With a prompt, the `Prompt:` block holding it starts right after the lyrics block. */
  lemma PromptBlockPresent(ref: string, lyrics: string, prompt: string)
    requires prompt != []
    ensures OccursAt(RewritePrompt(ref, lyrics, prompt), "Prompt:\n" + prompt, PromptBlockStart(ref, lyrics))
  {
    PromptBlockAfter(BaseBlock() + ReferenceSection(ref) + LyricsSection(lyrics) + "\n\n", prompt);
  }

  /** The `Prompt:` block, followed by the closing line, occurs right after whatever precedes it. */
  lemma PromptBlockAfter(x: string, prompt: string)
    requires prompt != []
    ensures OccursAt(x + PromptSection(prompt) + "\n\nRewrite.", "Prompt:\n" + prompt, |x|)
  {
    var t := "Prompt:\n" + prompt;
    OccursSelf(t);
    OccursLeft(t, "\n", t, 0);
    Middle(x, PromptSection(prompt), "\n\nRewrite.", t, 0);
  }

  /** Without a prompt, the closing line follows the lyrics block directly and no `Prompt:` starts there. */
  lemma PromptBlockAbsent(ref: string, lyrics: string, prompt: string)
    requires prompt == []
    ensures var r := RewritePrompt(ref, lyrics, prompt);
      && r[PromptBlockStart(ref, lyrics)..] == "\n\nRewrite."
      && !OccursAt(r, "Prompt:\n" + prompt, PromptBlockStart(ref, lyrics))
  {
    var t := "Prompt:\n";
    AppendEmpty(t, prompt);
    assert PromptSection(prompt) == [];
    assert "\n\nRewrite."[0] != t[0];
    AbsentAfter(BaseBlock() + ReferenceSection(ref) + LyricsSection(lyrics) + "\n\n", PromptSection(prompt), "\n\nRewrite.", t);
  }

  /**
   * Plain containment of `"Prompt:\n" + prompt` does not tell whether a
   * prompt was given: lyrics that hold the text `Prompt:` on a line put it
   * in the rewrite prompt even when the prompt is empty.
   */
  lemma PromptTextFromLyrics(ref: string, lyrics: string, prompt: string, i: int)
    requires prompt == []
    requires OccursAt(lyrics, "Prompt:\n", i)
    ensures Contains(RewritePrompt(ref, lyrics, prompt), "Prompt:\n" + prompt)
  {
    var lsec := LyricsSection(lyrics);
    var t := "Prompt:\n";
    LyricsInSection(lyrics);
    OccursWithin(lsec, lyrics, t, |"\n\nLyrics:\n---\n"|, i);
    ThirdOfSix(BaseBlock(), ReferenceSection(ref), lsec, "\n\n", PromptSection(prompt), "\n\nRewrite.",
      t, |"\n\nLyrics:\n---\n"| + i);
    AppendEmpty(t, prompt);
  }

  /** Appending the empty string changes nothing. */
  lemma AppendEmpty(x: string, e: string)
    requires e == []
    ensures x + e == x
  {
  }

  // Layout facts about concatenations, stated over arbitrary parts so that
  // the concrete prompt texts need not be unfolded to use them.

  /** In `a + b + c + d + e`: `a` starts it, an occurrence of `t` in `b` is shifted by `|a|`, and `d` sits after `a + b + c`. */
  lemma FiveParts(a: string, b: string, c: string, d: string, e: string, t: string, i: int)
    requires OccursAt(b, t, i)
    ensures StartsWith(a + b + c + d + e, a)
    ensures OccursAt(a + b + c + d + e, t, |a| + i)
    ensures OccursAt(a + b + c + d + e, d, |a + b + c|)
  {
    assert StartsWith(a, a);
    StartsLeft(a, b, a);
    StartsLeft(a + b, c, a);
    StartsLeft(a + b + c, d, a);
    StartsLeft(a + b + c + d, e, a);
    OccursRight(a, b, t, i);
    OccursLeft(a + b, c, t, |a| + i);
    OccursLeft(a + b + c, d, t, |a| + i);
    OccursLeft(a + b + c + d, e, t, |a| + i);
    OccursSelf(d);
    OccursRight(a + b + c, d, d, 0);
    OccursLeft(a + b + c + d, e, d, |a + b + c|);
  }

  /** In `a + b + c + d + e + f`: `a` starts it, and occurrences of `t` in `b` and of `u` in `c` are shifted by the parts before them. */
  lemma SixParts(a: string, b: string, c: string, d: string, e: string, f: string,
                 t: string, i: int, u: string, j: int)
    requires OccursAt(b, t, i) && OccursAt(c, u, j)
    ensures StartsWith(a + b + c + d + e + f, a)
    ensures OccursAt(a + b + c + d + e + f, t, |a| + i)
    ensures OccursAt(a + b + c + d + e + f, u, |a + b| + j)
  {
    assert StartsWith(a, a);
    StartsLeft(a, b, a);
    StartsLeft(a + b, c, a);
    StartsLeft(a + b + c, d, a);
    StartsLeft(a + b + c + d, e, a);
    StartsLeft(a + b + c + d + e, f, a);
    OccursRight(a, b, t, i);
    OccursLeft(a + b, c, t, |a| + i);
    OccursLeft(a + b + c, d, t, |a| + i);
    OccursLeft(a + b + c + d, e, t, |a| + i);
    OccursLeft(a + b + c + d + e, f, t, |a| + i);
    OccursRight(a + b, c, u, j);
    OccursLeft(a + b + c, d, u, |a + b| + j);
    OccursLeft(a + b + c + d, e, u, |a + b| + j);
    OccursLeft(a + b + c + d + e, f, u, |a + b| + j);
  }

  /** An occurrence of `u` in the third of six parts is contained in their concatenation. */
  lemma ThirdOfSix(a: string, b: string, c: string, d: string, e: string, f: string, u: string, j: int)
    requires OccursAt(c, u, j)
    ensures Contains(a + b + c + d + e + f, u)
  {
    SixParts(a, b, c, d, e, f, "", 0, u, j);
    assert OccursAt(a + b + c + d + e + f, u, |a + b| + j);
  }

  /** A prompt that closes with a blank line and `Write.` or `Rewrite.` ends with that closing word. */
  lemma ClosingLine(front: string, closing: string, tail: string)
    requires (closing == "\n\nWrite." && tail == "Write.") || (closing == "\n\nRewrite." && tail == "Rewrite.")
    ensures EndsWith(front + closing, tail)
  {
    assert EndsWith(closing, tail);
    EndsRight(front, closing, tail);
  }

  /** An occurrence of `t` in the middle part `m` of `x + m + y` lies `|x|` further on. */
  lemma Middle(x: string, m: string, y: string, t: string, i: int)
    requires OccursAt(m, t, i)
    ensures OccursAt(x + m + y, t, |x| + i)
  {
    OccursRight(x, m, t, i);
    OccursLeft(x + m, y, t, |x| + i);
  }

  /** An occurrence of `t` inside an occurrence of `u` in `s` is an occurrence of `t` in `s`. */
  lemma OccursWithin(s: string, u: string, t: string, j: int, i: int)
    requires OccursAt(s, u, j) && OccursAt(u, t, i)
    ensures OccursAt(s, t, j + i)
  {
    forall k | 0 <= k < |t| ensures s[j + i..j + i + |t|][k] == t[k] {
      assert s[j + i + k] == s[j..j + |u|][i + k];
      assert t[k] == u[i..i + |t|][k];
    }
    assert s[j + i..j + i + |t|] == t;
  }

  /** With an empty middle part, `y` follows `x` directly, so a `t` starting differently from `y` does not occur right after `x`. */
  lemma AbsentAfter(x: string, m: string, y: string, t: string)
    requires m == []
    requires y != [] && t != [] && y[0] != t[0]
    ensures (x + m + y)[|x|..] == y
    ensures !OccursAt(x + m + y, t, |x|)
  {
    assert x + m + y == x + y;
    if |x| + |t| <= |x + y| {
      assert (x + y)[|x|..|x| + |t|][0] == y[0];
    }
  }
}
