/** The pieces of JavaScript string behaviour the application relies on:
    `trim()` emptiness, `Array.prototype.join`, `substring` clamping,
    `toLowerCase` (ASCII letters), `split(sep).pop()` and number printing. */
module JsStrings {

  /** The ECMAScript WhiteSpace and LineTerminator code points: exactly the
      characters `String.prototype.trim` removes. */
  predicate IsJsWhitespace(c: char)
  {
    c == '\t' || c == '\n' || c == '\U{B}' || c == '\U{C}' || c == '\r' || c == ' ' ||
    c == '\U{A0}' || c == '\U{1680}' || ('\U{2000}' <= c <= '\U{200A}') ||
    c == '\U{2028}' || c == '\U{2029}' || c == '\U{202F}' || c == '\U{205F}' ||
    c == '\U{3000}' || c == '\U{FEFF}'
  }

  /** `!s.trim()`: the string is empty once trimmed. */
  predicate IsBlank(s: string)
  {
    forall i :: 0 <= i < |s| ==> IsJsWhitespace(s[i])
  }

  predicate StartsWith(s: string, prefix: string)
  {
    |prefix| <= |s| && s[..|prefix|] == prefix
  }

  predicate EndsWith(s: string, suffix: string)
  {
    |suffix| <= |s| && s[|s| - |suffix|..] == suffix
  }

  /** `w` occurs in `s` starting at index `i`. */
  predicate OccursAt(s: string, w: string, i: int)
  {
    0 <= i <= |s| - |w| && s[i..i + |w|] == w
  }

  /** `s.includes(w)`. */
  predicate Contains(s: string, w: string)
  {
    exists i :: 0 <= i <= |s| - |w| && OccursAt(s, w, i)
  }

  /** `xs.join(sep)`. */
  function Join(xs: seq<string>, sep: string): string
  {
    if |xs| == 0 then ""
    else if |xs| == 1 then xs[0]
    else xs[0] + sep + Join(xs[1..], sep)
  }

  /** `s.substring(0, n)` for a non-negative `n`: the end is clamped to the length. */
  function Prefix(s: string, n: nat): (r: string)
    ensures |r| == if n <= |s| then n else |s|
    ensures StartsWith(s, r)
  {
    if n <= |s| then s[..n] else s
  }

  /** `s.substring(start)`: a negative start is clamped to 0, one past the end to the length. */
  function SuffixFrom(s: string, start: int): (r: string)
    ensures start <= 0 ==> r == s
    ensures 0 <= start <= |s| ==> |r| == |s| - start
    ensures EndsWith(s, r)
  {
    if start <= 0 then s else if start >= |s| then "" else s[start..]
  }

  function LowerChar(c: char): char
  {
    if 'A' <= c <= 'Z' then (c as int + 32) as char else c
  }

  /** A character outside the Basic Multilingual Plane, which UTF-16 stores
      as a surrogate pair. */
  predicate IsAstral(c: char)
  {
    c > '\U{FFFF}'
  }

  /** `s.length`: the number of UTF-16 code units, two for every astral
      character and one for every other. */
  function Utf16Length(s: string): (n: nat)
    ensures |s| <= n <= 2 * |s|
    ensures (forall i :: 0 <= i < |s| ==> !IsAstral(s[i])) ==> n == |s|
    ensures (forall i :: 0 <= i < |s| ==> IsAstral(s[i])) ==> n == 2 * |s|
  {
    if |s| == 0 then 0
    else
      assert forall i :: 1 <= i < |s| ==> s[1..][i - 1] == s[i];
      (if IsAstral(s[0]) then 2 else 1) + Utf16Length(s[1..])
  }

  /** `s.toLowerCase()` on the ASCII letters. */
  function ToLower(s: string): (r: string)
    ensures |r| == |s|
    ensures forall i :: 0 <= i < |s| ==> r[i] == LowerChar(s[i])
  {
    seq(|s|, i requires 0 <= i < |s| => LowerChar(s[i]))
  }

  /** `s.split(sep).pop()`: the text after the last separator, or all of `s`
      when there is none. */
  function LastSegment(s: string, sep: char): (r: string)
    ensures |r| <= |s| && r == s[|s| - |r|..]
    ensures forall i :: 0 <= i < |r| ==> r[i] != sep
    ensures |r| < |s| ==> s[|s| - |r| - 1] == sep
  {
    if |s| == 0 then ""
    else if s[|s| - 1] == sep then ""
    else LastSegment(s[..|s| - 1], sep) + [s[|s| - 1]]
  }

  function DigitChar(d: nat): char
    requires d < 10
  {
    ('0' as int + d) as char
  }

  /** The decimal text of a natural number, as a template literal prints it. */
  function NatToString(n: nat): (r: string)
    ensures |r| > 0
    ensures forall i :: 0 <= i < |r| ==> '0' <= r[i] <= '9'
  {
    if n < 10 then [DigitChar(n)] else NatToString(n / 10) + [DigitChar(n % 10)]
  }

  /** Reads a string of decimal digits back as a number. */
  function DigitsValue(s: string): nat
    requires forall i :: 0 <= i < |s| ==> '0' <= s[i] <= '9'
  {
    if |s| == 0 then 0 else DigitsValue(s[..|s| - 1]) * 10 + (s[|s| - 1] as int - '0' as int)
  }

  /** Printing a number loses nothing: reading the digits back gives the number. */
  lemma {:induction false} NatToStringRoundTrip(n: nat)
    ensures DigitsValue(NatToString(n)) == n
  {
    var r := NatToString(n);
    if n >= 10 {
      NatToStringRoundTrip(n / 10);
      assert r[..|r| - 1] == NatToString(n / 10);
    }
  }

  /** Distinct numbers print differently. */
  lemma NatToStringInjective(m: nat, n: nat)
    requires NatToString(m) == NatToString(n)
    ensures m == n
  {
    NatToStringRoundTrip(m);
    NatToStringRoundTrip(n);
  }

  /** Every element of a joined list occurs in the joined text. */
  lemma {:induction false} JoinContainsEach(xs: seq<string>, sep: string, k: nat)
    requires k < |xs|
    ensures Contains(Join(xs, sep), xs[k])
  {
    var j := Join(xs, sep);
    if |xs| == 1 || k == 0 {
      assert j[0..|xs[0]|] == xs[0];
      assert OccursAt(j, xs[k], 0);
    } else {
      assert xs[1..][k - 1] == xs[k];
      JoinContainsEach(xs[1..], sep, k - 1);
      var rest := Join(xs[1..], sep);
      var i :| 0 <= i <= |rest| - |xs[k]| && OccursAt(rest, xs[k], i);
      var off := |xs[0]| + |sep|;
      assert j == xs[0] + sep + rest;
      assert j[off + i..off + i + |xs[k]|] == rest[i..i + |xs[k]|];
      assert OccursAt(j, xs[k], off + i);
    }
  }

  /** A string in which the first character of `w` never occurs cannot contain `w`. */
  lemma NotContainsWithoutFirstChar(s: string, w: string)
    requires |w| > 0
    requires forall i :: 0 <= i < |s| ==> s[i] != w[0]
    ensures !Contains(s, w)
  {
    forall i | 0 <= i <= |s| - |w|
      ensures !OccursAt(s, w, i)
    {
      assert s[i..i + |w|][0] == s[i];
    }
  }

  /** Gluing two strings creates no occurrence of `w` when a character that
      `w` does not use stands at the seam. */
  lemma NotContainsConcat(a: string, b: string, w: string)
    requires |w| > 0
    requires !Contains(a, w) && !Contains(b, w)
    requires |a| == 0 || |b| == 0 || (a[|a| - 1] !in w) || (b[0] !in w)
    ensures !Contains(a + b, w)
  {
    var s := a + b;
    forall i | 0 <= i <= |s| - |w|
      ensures !OccursAt(s, w, i)
    {
      if i + |w| <= |a| {
        assert a[i..i + |w|] == s[i..i + |w|];
        assert !OccursAt(a, w, i);
      } else if i >= |a| {
        assert b[i - |a|..i - |a| + |w|] == s[i..i + |w|];
        assert !OccursAt(b, w, i - |a|);
      } else {
        assert s[i..i + |w|][|a| - 1 - i] == a[|a| - 1];
        assert s[i..i + |w|][|a| - i] == b[0];
      }
    }
  }

  /** Putting a character other than `w`'s first in front creates no occurrence of `w`. */
  lemma NotContainsCons(c: char, b: string, w: string)
    requires |w| > 0 && c != w[0]
    requires !Contains(b, w)
    ensures !Contains([c] + b, w)
  {
    var s := [c] + b;
    forall i | 0 <= i <= |s| - |w|
      ensures !OccursAt(s, w, i)
    {
      if i == 0 {
        assert s[i..i + |w|][0] == c;
      } else {
        assert b[i - 1..i - 1 + |w|] == s[i..i + |w|];
        assert !OccursAt(b, w, i - 1);
      }
    }
  }

  /** `Join` with a separator that `w` does not use at either end preserves
      the absence of `w`. */
  lemma {:induction false} NotContainsJoin(xs: seq<string>, sep: string, w: string)
    requires |w| > 0 && |sep| > 0 && sep[0] !in w && sep[|sep| - 1] !in w
    requires !Contains(sep, w)
    requires forall k :: 0 <= k < |xs| ==> !Contains(xs[k], w)
    ensures !Contains(Join(xs, sep), w)
  {
    if |xs| == 0 {
      NotContainsWithoutFirstChar("", w);
    } else if |xs| > 1 {
      NotContainsJoin(xs[1..], sep, w);
      NotContainsConcat(sep, Join(xs[1..], sep), w);
      NotContainsConcat(xs[0], sep + Join(xs[1..], sep), w);
      assert xs[0] + sep + Join(xs[1..], sep) == xs[0] + (sep + Join(xs[1..], sep));
    }
  }

  /** The text after a separator that does not occur again is the last segment. */
  lemma {:induction false} LastSegmentAfter(a: string, sep: char, b: string)
    requires sep !in b
    ensures LastSegment(a + [sep] + b, sep) == b
  {
    var s := a + [sep] + b;
    if |b| == 0 {
      assert s[|s| - 1] == sep;
    } else {
      var init := b[..|b| - 1];
      assert s[..|s| - 1] == a + [sep] + init;
      assert s[|s| - 1] == b[|b| - 1];
      LastSegmentAfter(a, sep, init);
      assert b == init + [b[|b| - 1]];
    }
  }

  /** Lower-casing twice is lower-casing once. */
  lemma ToLowerIdempotent(s: string)
    ensures ToLower(ToLower(s)) == ToLower(s)
  {
  }

  /** Only the separator itself lower-cases to a separator that is not a letter. */
  lemma LowerCharIsSeparator(c: char, sep: char)
    requires !('A' <= sep <= 'Z') && !('a' <= sep <= 'z')
    ensures LowerChar(c) == sep <==> c == sep
  {
  }

  /** Lower-casing a text with one more character appends that character lower-cased. */
  lemma ToLowerSnoc(s: string, c: char)
    ensures ToLower(s + [c]) == ToLower(s) + [LowerChar(c)]
  {
  }

  /** Lower-casing commutes with taking the last segment when the separator
      is not a letter. */
  lemma {:induction false} LastSegmentOfLower(s: string, sep: char)
    requires !('A' <= sep <= 'Z') && !('a' <= sep <= 'z')
    ensures LastSegment(ToLower(s), sep) == ToLower(LastSegment(s, sep))
  {
    if |s| > 0 {
      var n := |s|;
      var last := s[n - 1];
      var init := s[..n - 1];
      assert s == init + [last];
      ToLowerSnoc(init, last);
      var t := ToLower(init) + [LowerChar(last)];
      assert t[..n - 1] == ToLower(init);
      LowerCharIsSeparator(last, sep);
      LastSegmentOfLower(init, sep);
      if last != sep {
        ToLowerSnoc(LastSegment(init, sep), last);
      }
    }
  }
}
