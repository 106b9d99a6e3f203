/**
 * String helpers shared by the editor front end and the back end:
 * whitespace trimming (Python `str.strip()`, JavaScript `String.prototype.trim`),
 * prefix and suffix tests, substring search (`String.prototype.includes`) and
 * lower-casing (`String.prototype.toLowerCase`).
 */
module Text {

  /** The characters for which Python's `str.isspace()` holds: what `str.strip()` removes. */
  const PyWhitespace: set<char> :=
    {'\t', '\n', '\U{0B}', '\U{0C}', '\r', '\U{1C}', '\U{1D}', '\U{1E}', '\U{1F}', ' ',
     '\U{85}', '\U{A0}', '\U{1680}',
     '\U{2000}', '\U{2001}', '\U{2002}', '\U{2003}', '\U{2004}', '\U{2005}',
     '\U{2006}', '\U{2007}', '\U{2008}', '\U{2009}', '\U{200A}',
     '\U{2028}', '\U{2029}', '\U{202F}', '\U{205F}', '\U{3000}'}

  /** JavaScript's WhiteSpace and LineTerminator characters: what `trim()` removes. */
  const JsWhitespace: set<char> :=
    {'\t', '\n', '\U{0B}', '\U{0C}', '\r', ' ',
     '\U{A0}', '\U{1680}',
     '\U{2000}', '\U{2001}', '\U{2002}', '\U{2003}', '\U{2004}', '\U{2005}',
     '\U{2006}', '\U{2007}', '\U{2008}', '\U{2009}', '\U{200A}',
     '\U{2028}', '\U{2029}', '\U{202F}', '\U{205F}', '\U{3000}', '\U{FEFF}'}

  /** Every character of `s` is in `ws`. */
  predicate AllIn(s: string, ws: set<char>) {
    forall i :: 0 <= i < |s| ==> s[i] in ws
  }

  /** `s` neither starts nor ends with a character of `ws`. */
  predicate Trimmed(s: string, ws: set<char>) {
    s == [] || (s[0] !in ws && s[|s| - 1] !in ws)
  }

  /** Drops the leading characters that are in `ws`. */
  function TrimStart(s: string, ws: set<char>): string
    decreases |s|
  {
    if s != [] && s[0] in ws then TrimStart(s[1..], ws) else s
  }

  /** Drops the trailing characters that are in `ws`. */
  function TrimEnd(s: string, ws: set<char>): string
    decreases |s|
  {
    if s != [] && s[|s| - 1] in ws then TrimEnd(s[..|s| - 1], ws) else s
  }

  /** Drops leading and trailing characters that are in `ws`. */
  function Strip(s: string, ws: set<char>): string {
    TrimEnd(TrimStart(s, ws), ws)
  }

  /** Python's `str.strip()` with no argument. */
  function PyStrip(s: string): string {
    Strip(s, PyWhitespace)
  }

  /** JavaScript's `String.prototype.trim()`. */
  function JsTrim(s: string): string {
    Strip(s, JsWhitespace)
  }

  /** `TrimStart` keeps a suffix of `s`, drops only characters of `ws`, and stops at the first other one. */
  lemma {:induction false} TrimStartSpec(s: string, ws: set<char>)
    ensures |TrimStart(s, ws)| <= |s|
    ensures TrimStart(s, ws) == s[|s| - |TrimStart(s, ws)|..]
    ensures AllIn(s[..|s| - |TrimStart(s, ws)|], ws)
    ensures TrimStart(s, ws) != [] ==> TrimStart(s, ws)[0] !in ws
    decreases |s|
  {
    if s != [] && s[0] in ws {
      var r := TrimStart(s[1..], ws);
      TrimStartSpec(s[1..], ws);
      var n := |s| - |r|;
      assert s[1..][..|s| - 1 - |r|] == s[1..n];
      forall i | 0 <= i < n ensures s[..n][i] in ws {
        if i > 0 { assert s[..n][i] == s[1..n][i - 1]; }
      }
    } else {
      assert s[..0] == [];
    }
  }

  /** `TrimEnd` keeps a prefix of `s`, drops only characters of `ws`, and stops at the last other one. */
  lemma {:induction false} TrimEndSpec(s: string, ws: set<char>)
    ensures |TrimEnd(s, ws)| <= |s|
    ensures TrimEnd(s, ws) == s[..|TrimEnd(s, ws)|]
    ensures AllIn(s[|TrimEnd(s, ws)|..], ws)
    ensures TrimEnd(s, ws) != [] ==> TrimEnd(s, ws)[|TrimEnd(s, ws)| - 1] !in ws
    decreases |s|
  {
    if s != [] && s[|s| - 1] in ws {
      var r := TrimEnd(s[..|s| - 1], ws);
      TrimEndSpec(s[..|s| - 1], ws);
      var n := |r|;
      assert s[..|s| - 1][n..] == s[n..|s| - 1];
      forall i | 0 <= i < |s| - n ensures s[n..][i] in ws {
        if i < |s| - 1 - n { assert s[n..][i] == s[n..|s| - 1][i]; }
      }
    } else {
      assert s[|s|..] == [];
    }
  }

  /** The stripped string neither starts nor ends with whitespace, and it is empty exactly when `s` is all whitespace. */
  lemma StripSpec(s: string, ws: set<char>)
    ensures Trimmed(Strip(s, ws), ws)
    ensures Strip(s, ws) == [] <==> AllIn(s, ws)
  {
    var t := TrimStart(s, ws);
    TrimStartSpec(s, ws);
    TrimEndSpec(t, ws);
    var r := TrimEnd(t, ws);
    if r == [] {
      assert s[..|s|] == s;
    } else {
      assert r[0] == t[0];
      assert !AllIn(s, ws) by {
        assert s[|s| - |t|] == t[0];
      }
    }
  }

  /** Stripping removes exactly the padding: whitespace around a trimmed core comes off and nothing else. */
  lemma StripPadded(pre: string, core: string, post: string, ws: set<char>)
    requires AllIn(pre, ws) && AllIn(post, ws) && Trimmed(core, ws)
    ensures Strip(pre + core + post, ws) == core
  {
    var s := pre + core + post;
    if core == [] {
      assert AllIn(s, ws) by {
        forall i | 0 <= i < |s| ensures s[i] in ws {
          if i < |pre| { assert s[i] == pre[i]; } else { assert s[i] == post[i - |pre|]; }
        }
      }
      StripSpec(s, ws);
    } else {
      assert s == pre + (core + post);
      TrimStartPadded(pre, core + post, ws);
      TrimEndPadded(core, post, ws);
    }
  }

  lemma {:induction false} TrimStartPadded(pre: string, rest: string, ws: set<char>)
    requires AllIn(pre, ws) && rest != [] && rest[0] !in ws
    ensures TrimStart(pre + rest, ws) == rest
    decreases |pre|
  {
    if pre != [] {
      assert (pre + rest)[1..] == pre[1..] + rest;
      TrimStartPadded(pre[1..], rest, ws);
    } else {
      assert pre + rest == rest;
    }
  }

  lemma {:induction false} TrimEndPadded(rest: string, post: string, ws: set<char>)
    requires AllIn(post, ws) && rest != [] && rest[|rest| - 1] !in ws
    ensures TrimEnd(rest + post, ws) == rest
    decreases |post|
  {
    if post != [] {
      var s := rest + post;
      assert s[..|s| - 1] == rest + post[..|post| - 1];
      TrimEndPadded(rest, post[..|post| - 1], ws);
    } else {
      assert rest + post == rest;
    }
  }

  /** Stripping twice is the same as stripping once. */
  lemma StripIdempotent(s: string, ws: set<char>)
    ensures Strip(Strip(s, ws), ws) == Strip(s, ws)
  {
    var r := Strip(s, ws);
    StripSpec(s, ws);
    var e: string := [];
    assert e + r + e == r;
    StripPadded(e, r, e, ws);
  }

  /** `p` is a prefix of `s` (Python `startswith`). */
  predicate StartsWith(s: string, p: string) {
    |p| <= |s| && s[..|p|] == p
  }

  /** `p` is a suffix of `s` (Python `endswith`). */
  predicate EndsWith(s: string, p: string) {
    |p| <= |s| && s[|s| - |p|..] == p
  }

  /** `sub` occurs in `s` starting at index `i`. */
  predicate OccursAt(s: string, sub: string, i: int) {
    0 <= i <= |s| - |sub| && s[i..i + |sub|] == sub
  }

  /** `sub` occurs in `s` at some position (JavaScript `includes`). */
  predicate Contains(s: string, sub: string) {
    exists i | 0 <= i <= |s| - |sub| :: OccursAt(s, sub, i)
  }

  /** Every string contains the empty string. */
  lemma ContainsEmpty(s: string)
    ensures Contains(s, "")
  {
    assert OccursAt(s, "", 0);
  }

  /** A string contains every one of its infixes, its prefixes and suffixes among them. */
  lemma ContainsInfix(a: string, sub: string, b: string)
    ensures Contains(a + sub + b, sub)
  {
    var s := a + sub + b;
    assert s[|a|..|a| + |sub|] == sub;
    assert OccursAt(s, sub, |a|);
  }

  /** Lower-cases one character; only the ASCII letters A-Z change. */
  function LowerChar(c: char): (d: char)
    ensures 'A' <= c <= 'Z' ==> 'a' <= d <= 'z' && d as int - c as int == 32
    ensures !('A' <= c <= 'Z') ==> d == c
  {
    if 'A' <= c <= 'Z' then (c as int + 32) as char else c
  }

  /** `toLowerCase()`, restricted to the ASCII letters. */
  function Lower(s: string): (r: string)
    ensures |r| == |s|
    ensures forall i :: 0 <= i < |s| ==> r[i] == LowerChar(s[i])
  {
    seq(|s|, i requires 0 <= i < |s| => LowerChar(s[i]))
  }

  /** Upper-cases one character; only the ASCII letters a-z change. */
  function UpperChar(c: char): (d: char)
    ensures 'a' <= c <= 'z' ==> 'A' <= d <= 'Z' && c as int - d as int == 32
    ensures !('a' <= c <= 'z') ==> d == c
  {
    if 'a' <= c <= 'z' then (c as int - 32) as char else c
  }

  /** `toUpperCase()`, restricted to the ASCII letters. */
  function Upper(s: string): (r: string)
    ensures |r| == |s|
    ensures forall i :: 0 <= i < |s| ==> r[i] == UpperChar(s[i])
  {
    seq(|s|, i requires 0 <= i < |s| => UpperChar(s[i]))
  }

  /** Lower-casing an already lower-cased string changes nothing. */
  lemma LowerIdempotent(s: string)
    ensures Lower(Lower(s)) == Lower(s)
  {
  }
}
