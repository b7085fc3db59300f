/**
 * The JavaScript string built-ins that the extension's core relies on:
 * `String.prototype.trim`, `startsWith`, `split`, `Array.prototype.join`
 * and `repeat`. Strings are sequences of characters.
 */
module JsText {

  /** ECMAScript WhiteSpace and LineTerminator code points: exactly what `trim` removes. */
  predicate IsWhitespace(c: char)
  {
    || c == '\t' || c == '\n' || c == '\U{000B}' || c == '\U{000C}' || c == '\r' || c == ' '
    || c == '\U{00A0}' || c == '\U{1680}' || ('\U{2000}' <= c <= '\U{200A}')
    || c == '\U{2028}' || c == '\U{2029}' || c == '\U{202F}' || c == '\U{205F}'
    || c == '\U{3000}' || c == '\U{FEFF}'
  }

  /** True when every character of `s` is whitespace (so `s.trim() === ''`). */
  predicate IsBlank(s: string)
  {
    forall k :: 0 <= k < |s| ==> IsWhitespace(s[k])
  }

  /** The number of whitespace characters at the start of `s`. */
  function LeadingWhitespace(s: string): (n: nat)
    ensures n <= |s|
  {
    if |s| == 0 || !IsWhitespace(s[0]) then 0
    else 1 + LeadingWhitespace(s[1..])
  }

  /** The leading run is whitespace, and the character after it is not. */
  lemma {:induction false} LeadingWhitespaceSpec(s: string)
    ensures var n := LeadingWhitespace(s);
      && (forall k :: 0 <= k < n ==> IsWhitespace(s[k]))
      && (n < |s| ==> !IsWhitespace(s[n]))
  {
    if |s| > 0 && IsWhitespace(s[0]) {
      var rest := s[1..];
      LeadingWhitespaceSpec(rest);
      forall k | 1 <= k < LeadingWhitespace(s)
        ensures IsWhitespace(s[k])
      {
        assert s[k] == rest[k - 1];
      }
      if LeadingWhitespace(s) < |s| {
        assert s[LeadingWhitespace(s)] == rest[LeadingWhitespace(rest)];
      }
    }
  }

  /** The index where the run of whitespace at the end of `s` begins. */
  function TrailingWhitespaceStart(s: string): (n: nat)
    ensures n <= |s|
  {
    if |s| == 0 || !IsWhitespace(s[|s| - 1]) then |s|
    else TrailingWhitespaceStart(s[..|s| - 1])
  }

  /** The trailing run is whitespace, and the character before it is not. */
  lemma {:induction false} TrailingWhitespaceSpec(s: string)
    ensures var n := TrailingWhitespaceStart(s);
      && (forall k :: n <= k < |s| ==> IsWhitespace(s[k]))
      && (0 < n ==> !IsWhitespace(s[n - 1]))
  {
    if |s| > 0 && IsWhitespace(s[|s| - 1]) {
      var init := s[..|s| - 1];
      TrailingWhitespaceSpec(init);
      assert forall k :: 0 <= k < |init| ==> init[k] == s[k];
    }
  }

  /** `s.trim()`: `s` without its leading and trailing whitespace. */
  function Trim(s: string): (r: string)
    ensures |r| <= |s|
  {
    var t := s[LeadingWhitespace(s)..];
    t[..TrailingWhitespaceStart(t)]
  }

  /** What `trim` keeps is the slice of `s` between two runs of whitespace. */
  lemma TrimSlice(s: string)
    ensures var a := LeadingWhitespace(s);
      && a + |Trim(s)| <= |s|
      && Trim(s) == s[a..a + |Trim(s)|]
      && (forall k :: 0 <= k < a ==> IsWhitespace(s[k]))
      && (forall k :: a + |Trim(s)| <= k < |s| ==> IsWhitespace(s[k]))
  {
    var a := LeadingWhitespace(s);
    var t := s[a..];
    var b := TrailingWhitespaceStart(t);
    LeadingWhitespaceSpec(s);
    TrailingWhitespaceSpec(t);
    assert Trim(s) == t[..b];
    assert t[..b] == s[a..a + b];
    WhitespaceAfter(s, a, t, b);
  }

  /** Whitespace at the end of a suffix of `s` is whitespace at the end of `s`. */
  lemma WhitespaceAfter(s: string, a: nat, t: string, b: nat)
    requires a <= |s| && t == s[a..] && b <= |t|
    requires forall k :: b <= k < |t| ==> IsWhitespace(t[k])
    ensures forall k :: a + b <= k < |s| ==> IsWhitespace(s[k])
  {
    forall k | a + b <= k < |s| ensures IsWhitespace(s[k]) {
      assert s[k] == t[k - a];
    }
  }

  /** The result of `trim` neither starts nor ends with whitespace, and it is
      empty exactly when `s` is blank. */
  lemma TrimShape(s: string)
    ensures |Trim(s)| > 0 ==> !IsWhitespace(Trim(s)[0]) && !IsWhitespace(Trim(s)[|Trim(s)| - 1])
    ensures Trim(s) == "" <==> IsBlank(s)
  {
    var a := LeadingWhitespace(s);
    var t := s[a..];
    var b := TrailingWhitespaceStart(t);
    LeadingWhitespaceSpec(s);
    TrailingWhitespaceSpec(t);
    TrimSlice(s);
    if |Trim(s)| > 0 {
      assert Trim(s)[0] == s[a];
      assert Trim(s)[|Trim(s)| - 1] == t[b - 1];
    }
  }

  /** A string that already neither starts nor ends with whitespace is left alone. */
  lemma TrimOfTrimmed(s: string)
    requires |s| > 0 ==> !IsWhitespace(s[0]) && !IsWhitespace(s[|s| - 1])
    ensures Trim(s) == s
  {
    var a := LeadingWhitespace(s);
    LeadingWhitespaceSpec(s);
    assert a == 0;
    assert s[a..] == s;
    var b := TrailingWhitespaceStart(s);
    TrailingWhitespaceSpec(s);
    assert b == |s|;
  }

  /** `trim` is idempotent. */
  lemma TrimIdempotent(s: string)
    ensures Trim(Trim(s)) == Trim(s)
  {
    TrimShape(s);
    TrimOfTrimmed(Trim(s));
  }

  /** A whitespace character that can only occur at the start of `s` does
      not survive `trim`. */
  lemma TrimDropsLeading(s: string, c: char)
    requires IsWhitespace(c)
    requires forall k :: 1 <= k < |s| ==> s[k] != c
    ensures c !in Trim(s)
  {
    TrimSlice(s);
    TrimShape(s);
    var a := LeadingWhitespace(s);
    var r := Trim(s);
    forall j | 0 <= j < |r|
      ensures r[j] != c
    {
      assert r[j] == s[a + j];
    }
  }

  /** `s.startsWith(prefix)`. */
  predicate StartsWith(s: string, prefix: string)
  {
    |prefix| <= |s| && s[..|prefix|] == prefix
  }

  /** `s.endsWith(suffix)`. */
  predicate EndsWith(s: string, suffix: string)
  {
    |suffix| <= |s| && s[|s| - |suffix|..] == suffix
  }

  /** A concatenation starts with its first part and ends with its last. */
  lemma ConcatEnds(a: string, b: string)
    ensures StartsWith(a + b, a) && EndsWith(a + b, b)
    ensures (a + b)[|a|..] == b
  {
  }

  /** `s.split(sep)` for a one-character separator: the pieces between
      separators, in order; `""` splits into `[""]`. */
  function Split(s: string, sep: char): (parts: seq<string>)
    ensures |parts| >= 1
    ensures forall i :: 0 <= i < |parts| ==> sep !in parts[i]
  {
    if |s| == 0 then [""]
    else
      var rest := Split(s[1..], sep);
      if s[0] == sep then [""] + rest
      else [[s[0]] + rest[0]] + rest[1..]
  }

  /** `parts.join(sep)`. */
  function Join(parts: seq<string>, sep: string): string
  {
    if |parts| == 0 then ""
    else if |parts| == 1 then parts[0]
    else parts[0] + sep + Join(parts[1..], sep)
  }

  /** Joining the pieces of a split with the separator gives back the string. */
  lemma {:induction false} JoinSplit(s: string, sep: char)
    ensures Join(Split(s, sep), [sep]) == s
  {
    if |s| > 0 {
      var rest := Split(s[1..], sep);
      JoinSplit(s[1..], sep);
      if s[0] == sep {
        assert Split(s, sep) == [""] + rest;
        assert ([""] + rest)[1..] == rest;
        assert s == [sep] + s[1..];
      } else {
        var parts := Split(s, sep);
        assert parts == [[s[0]] + rest[0]] + rest[1..];
        if |rest| == 1 {
          assert s[1..] == rest[0];
        } else {
          assert parts[1..] == rest[1..];
          assert s[1..] == rest[0] + [sep] + Join(rest[1..], [sep]);
        }
      }
    }
  }

  /** `c.repeat(n)`. */
  function Repeat(c: char, n: nat): (r: string)
    ensures |r| == n
    ensures forall k :: 0 <= k < n ==> r[k] == c
  {
    if n == 0 then "" else [c] + Repeat(c, n - 1)
  }
}
