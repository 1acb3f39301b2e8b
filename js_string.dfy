/** A small option type for values that may be absent (JavaScript's `undefined`). */
module Wrappers {
  datatype Option<+T> = None | Some(value: T)
}

/**
 * The JavaScript string built-ins the server relies on: `trim`, `includes`,
 * `toLowerCase` and prefix `slice`. Strings are sequences of characters.
 */
module JsString {

  /** The characters `String.prototype.trim` removes: ECMAScript WhiteSpace and LineTerminator. */
  predicate IsWhite(c: char) {
    var n := c as int;
    n == 0x09 || n == 0x0A || n == 0x0B || n == 0x0C || n == 0x0D || n == 0x20 || n == 0xA0
    || n == 0x1680 || (0x2000 <= n <= 0x200A) || n == 0x2028 || n == 0x2029 || n == 0x202F
    || n == 0x205F || n == 0x3000 || n == 0xFEFF
  }

  predicate AllWhite(s: string) {
    forall i | 0 <= i < |s| :: IsWhite(s[i])
  }

  predicate StartsWith(s: string, p: string) {
    |p| <= |s| && s[..|p|] == p
  }

  predicate EndsWith(s: string, q: string) {
    |q| <= |s| && s[|s| - |q|..] == q
  }

  /** `t` occurs in `s` starting at index `i`. */
  predicate OccursAt(s: string, t: string, i: int) {
    0 <= i && i + |t| <= |s| && s[i..i + |t|] == t
  }

  /** `s.includes(t)`. */
  predicate Contains(s: string, t: string) {
    exists i | 0 <= i <= |s| - |t| :: OccursAt(s, t, i)
  }

  /** Removes leading white space: what remains is a suffix of `s` that starts with a non-white character. */
  function TrimStart(s: string): (r: string)
    ensures |r| <= |s| && r == s[|s| - |r|..]
    ensures forall i | 0 <= i < |s| - |r| :: IsWhite(s[i])
    ensures r != [] ==> !IsWhite(r[0])
    decreases |s|
  {
    if s != [] && IsWhite(s[0]) then
      TrimStart(s[1..])
    else
      s
  }

  /** Removes trailing white space: what remains is a prefix of `s` that ends with a non-white character. */
  function TrimEnd(s: string): (r: string)
    ensures |r| <= |s| && r == s[..|r|]
    ensures forall i | |r| <= i < |s| :: IsWhite(s[i])
    ensures r != [] ==> !IsWhite(r[|r| - 1])
    decreases |s|
  {
    if s != [] && IsWhite(s[|s| - 1]) then
      TrimEnd(s[..|s| - 1])
    else
      s
  }

  /** `s.trim()`: drops white space from the front, then from the back, one character at a time. */
  function Trim(s: string): string
    decreases |s|
  {
    if s != [] && IsWhite(s[0]) then Trim(s[1..])
    else if s != [] && IsWhite(s[|s| - 1]) then Trim(s[..|s| - 1])
    else s
  }

  /**
   * What `trim` leaves is a contiguous piece of `s`, empty exactly when `s` is
   * all white space.
   */
  lemma TrimFacts(s: string)
    ensures var r := Trim(s);
      && |r| <= |s| && Contains(s, r)
      && (r == [] <==> AllWhite(s))
  {
    TrimIsStartEnd(s);
    StartEndPiece(s);
    TrimEmpty(s);
  }

  /** What `trim` leaves, when not empty, starts and ends with a non-white character. */
  lemma TrimEnds(s: string)
    ensures var r := Trim(s); r != [] ==> !IsWhite(r[0]) && !IsWhite(r[|r| - 1])
  {
    TrimIsStartEnd(s);
    StartEndEnds(s);
  }

  /** Removing leading, then trailing white space leaves a contiguous piece of `s`. */
  lemma StartEndPiece(s: string)
    ensures var r := TrimEnd(TrimStart(s)); |r| <= |s| && Contains(s, r)
  {
    var t := TrimStart(s);
    TrimOccurs(s);
    assert OccursAt(s, TrimEnd(t), |s| - |t|);
  }

  /** `TrimEnds`, for leading white space removed first and trailing white space second. */
  lemma StartEndEnds(s: string)
    ensures var r := TrimEnd(TrimStart(s)); r != [] ==> !IsWhite(r[0]) && !IsWhite(r[|r| - 1])
  {
    var t := TrimStart(s);
    var r := TrimEnd(t);
    if r != [] {
      PrefixFirst(t, r);
    }
  }

  lemma PrefixFirst(t: string, r: string)
    requires r != [] && |r| <= |t| && r == t[..|r|]
    ensures r[0] == t[0]
  {
  }

  /** Trimming is removing leading white space, then trailing white space. */
  lemma {:induction false} TrimIsStartEnd(s: string)
    ensures Trim(s) == TrimEnd(TrimStart(s))
    decreases |s|
  {
    if s != [] && IsWhite(s[0]) {
      TrimIsStartEnd(s[1..]);
      assert TrimStart(s) == TrimStart(s[1..]);
    } else if s != [] && IsWhite(s[|s| - 1]) {
      var s' := s[..|s| - 1];
      TrimIsStartEnd(s');
      assert s'[0] == s[0];
      assert TrimStart(s') == s';
      assert TrimEnd(s) == TrimEnd(s');
    } else {
      assert TrimStart(s) == s;
    }
  }

  /** Trimming both ends leaves the piece of `s` that starts where the leading white space ends. */
  lemma TrimOccurs(s: string)
    ensures OccursAt(s, TrimEnd(TrimStart(s)), |s| - |TrimStart(s)|)
  {
    var t := TrimStart(s);
    PrefixOfSuffix(s, t, TrimEnd(t), |s| - |t|);
  }

  /** A prefix of the suffix of `s` from `k` occurs in `s` at `k`. */
  lemma PrefixOfSuffix(s: string, t: string, r: string, k: int)
    requires 0 <= k <= |s| && t == s[k..]
    requires |r| <= |t| && r == t[..|r|]
    ensures OccursAt(s, r, k)
  {
    forall i | 0 <= i < |r|
      ensures s[k..k + |r|][i] == r[i]
    {
      assert r[i] == t[i] == s[k + i];
    }
  }

  /** Trimming both ends leaves nothing exactly when `s` is all white space. */
  lemma TrimEmpty(s: string)
    ensures TrimEnd(TrimStart(s)) == [] <==> AllWhite(s)
  {
    var t := TrimStart(s);
    TrimStartEmpty(s);
    TrimEndEmpty(t);
    if t != [] {
      assert !IsWhite(t[0]);
    }
  }

  /** Removing leading white space leaves nothing exactly when `s` is all white space. */
  lemma TrimStartEmpty(s: string)
    ensures TrimStart(s) == [] <==> AllWhite(s)
  {
    var r := TrimStart(s);
    if r != [] {
      assert s[|s| - |r|] == r[0];
    }
  }

  /** Removing trailing white space leaves nothing exactly when `s` is all white space. */
  lemma TrimEndEmpty(s: string)
    ensures TrimEnd(s) == [] <==> AllWhite(s)
  {
    var r := TrimEnd(s);
    if r != [] {
      assert s[|r| - 1] == r[|r| - 1];
    }
  }

  lemma {:induction false} TrimStartFramed(p: string, x: string)
    requires AllWhite(p)
    requires x == [] || !IsWhite(x[0])
    ensures TrimStart(p + x) == x
    decreases |p|
  {
    if p == [] {
      assert p + x == x;
    } else {
      assert (p + x)[0] == p[0];
      assert (p + x)[1..] == p[1..] + x;
      TrimStartFramed(p[1..], x);
    }
  }

  lemma {:induction false} TrimEndFramed(x: string, q: string)
    requires AllWhite(q)
    requires x == [] || !IsWhite(x[|x| - 1])
    ensures TrimEnd(x + q) == x
    decreases |q|
  {
    if q == [] {
      assert x + q == x;
    } else {
      var q' := q[..|q| - 1];
      assert (x + q)[|x + q| - 1] == q[|q| - 1];
      assert (x + q)[..|x + q| - 1] == x + q';
      TrimEndFramed(x, q');
    }
  }

  /**
   * Trim removes exactly the surrounding white space: framing a piece that
   * starts and ends with non-white characters by white space and trimming
   * gives the piece back unchanged.
   */
  lemma TrimFramed(p: string, c: string, q: string)
    requires AllWhite(p) && AllWhite(q)
    requires c == [] || (!IsWhite(c[0]) && !IsWhite(c[|c| - 1]))
    ensures Trim(p + c + q) == c
  {
    if c == [] {
      assert p + c + q == p + q;
      WhiteOnly(p, q);
    } else {
      WhiteAround(p, c, q);
    }
  }

  /** Trimming white space alone leaves nothing. */
  lemma WhiteOnly(p: string, q: string)
    requires AllWhite(p) && AllWhite(q)
    ensures Trim(p + q) == []
  {
    TrimIsStartEnd(p + q);
    TrimEmpty(p + q);
    forall i | 0 <= i < |p + q|
      ensures IsWhite((p + q)[i])
    {
      if i < |p| { assert (p + q)[i] == p[i]; } else { assert (p + q)[i] == q[i - |p|]; }
    }
  }

  /** Trimming a non-empty piece framed by white space leaves the piece. */
  lemma WhiteAround(p: string, c: string, q: string)
    requires AllWhite(p) && AllWhite(q)
    requires c != [] && !IsWhite(c[0]) && !IsWhite(c[|c| - 1])
    ensures Trim(p + c + q) == c
  {
    TrimIsStartEnd(p + c + q);
    assert p + c + q == p + (c + q);
    assert (c + q)[0] == c[0];
    TrimStartFramed(p, c + q);
    TrimEndFramed(c, q);
  }

  /** Trimming twice is the same as trimming once. */
  lemma {:induction false} TrimIdempotent(s: string)
    ensures Trim(Trim(s)) == Trim(s)
  {
    var r := Trim(s);
    TrimEnds(s);
    assert [] + r + [] == r;
    TrimFramed([], r, []);
  }

  /** An occurrence inside the left operand of a concatenation is an occurrence in the whole. */
  lemma OccursLeft(x: string, y: string, t: string, i: int)
    requires OccursAt(x, t, i)
    ensures OccursAt(x + y, t, i)
  {
    assert (x + y)[i..i + |t|] == x[i..i + |t|];
  }

  /** An occurrence inside the right operand of a concatenation, shifted by the left operand's length. */
  lemma OccursRight(x: string, y: string, t: string, i: int)
    requires OccursAt(y, t, i)
    ensures OccursAt(x + y, t, |x| + i)
  {
    assert (x + y)[|x| + i..|x| + i + |t|] == y[i..i + |t|];
  }

  lemma OccursSelf(t: string)
    ensures OccursAt(t, t, 0)
  {
    assert t[0..|t|] == t;
  }

  lemma StartsLeft(x: string, y: string, t: string)
    requires StartsWith(x, t)
    ensures StartsWith(x + y, t)
  {
    assert (x + y)[..|t|] == x[..|t|];
  }

  lemma EndsRight(x: string, y: string, t: string)
    requires EndsWith(y, t)
    ensures EndsWith(x + y, t)
  {
    assert (x + y)[|x + y| - |t|..] == y[|y| - |t|..];
  }

  /** ASCII case fold of one character. */
  function LowerChar(c: char): (d: char)
    ensures 'A' <= c <= 'Z' ==> d as int == c as int + 32
    ensures !('A' <= c <= 'Z') ==> d == c
  {
    if 'A' <= c <= 'Z' then (c as int + 32) as char else c
  }

  /** `s.toLowerCase()`, restricted to the ASCII letters. */
  function Lower(s: string): (r: string)
    ensures |r| == |s|
    ensures forall i | 0 <= i < |s| :: r[i] == LowerChar(s[i])
  {
    seq(|s|, i requires 0 <= i < |s| => LowerChar(s[i]))
  }

  /** Lower-casing commutes with taking a slice. */
  lemma LowerSlice(s: string, i: int, j: int)
    requires 0 <= i <= j <= |s|
    ensures Lower(s)[i..j] == Lower(s[i..j])
  {
  }

  /** `s.slice(0, n)` for a non-negative `n`: the longest prefix of `s` of length at most `n`. */
  function Prefix(s: string, n: nat): (r: string)
    ensures |r| == if |s| <= n then |s| else n
    ensures StartsWith(s, r)
  {
    if |s| <= n then s else s[..n]
  }

  /** A prefix of at most `n` characters is all white space exactly when the first `n` characters are. */
  lemma PrefixAllWhite(s: string, n: nat)
    ensures AllWhite(Prefix(s, n)) <==> forall i | 0 <= i < |s| && i < n :: IsWhite(s[i])
  {
    var p := Prefix(s, n);
    forall i | 0 <= i < |p|
      ensures p[i] == s[i]
    {
      assert p[i] == s[..|p|][i];
    }
  }
}
