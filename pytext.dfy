/**
 * The Python string built-ins that the test generator applies to program
 * text, oracle replies and tool output: `in`, find, split, strip, count,
 * lower, int() and str() of an integer. Each is written out so that the
 * rest of the model can state what is done with the text.
 */
module PyText {
  import opened Wrappers

  /** str.isspace() of one character: what str.split() and str.strip() treat as whitespace. */
  predicate IsSpace(c: char) {
    c == ' ' || '\t' <= c <= '\r' || '\U{1c}' <= c <= '\U{1f}' || c == '\U{85}' || c == '\U{a0}'
    || c == '\U{1680}' || '\U{2000}' <= c <= '\U{200a}' || c == '\U{2028}' || c == '\U{2029}'
    || c == '\U{202f}' || c == '\U{205f}' || c == '\U{3000}'
  }

  predicate IsDigit(c: char) {
    '0' <= c <= '9'
  }

  /** `pat` occurs in `s` starting at index `i`. */
  predicate OccursAt(s: string, pat: string, i: int) {
    0 <= i && i + |pat| <= |s| && s[i..i + |pat|] == pat
  }

  /** Python's `pat in s`. */
  predicate Contains(s: string, pat: string) {
    exists i | 0 <= i <= |s| - |pat| :: OccursAt(s, pat, i)
  }

  predicate StartsWith(s: string, prefix: string) {
    |prefix| <= |s| && s[..|prefix|] == prefix
  }

  /** Python's s.find(pat, start): the first index from `start` on where `pat` occurs, or -1. */
  function Find(s: string, pat: string, start: nat): (r: int)
    decreases |s| - start
    ensures r == -1 || (start <= r && OccursAt(s, pat, r))
    ensures forall j :: start <= j && (r == -1 || j < r) ==> !OccursAt(s, pat, j)
  {
    if start + |pat| > |s| then -1
    else if s[start..start + |pat|] == pat then start
    else Find(s, pat, start + 1)
  }

  /** Find returns the first occurrence, whichever index that is. */
  lemma FindFirst(s: string, pat: string, i: nat)
    requires OccursAt(s, pat, i)
    requires forall j :: 0 <= j < i ==> !OccursAt(s, pat, j)
    ensures Find(s, pat, 0) == i
  {
  }

  lemma FindSucceedsIffContains(s: string, pat: string)
    ensures Find(s, pat, 0) >= 0 <==> Contains(s, pat)
  {
    var r := Find(s, pat, 0);
    if r >= 0 {
      assert OccursAt(s, pat, r);
    } else {
      assert forall i | 0 <= i <= |s| - |pat| :: !OccursAt(s, pat, i);
    }
  }

  /** An occurrence that ends inside a prefix is an occurrence in that prefix. */
  lemma OccursInPrefix(a: string, x: string, pat: string, j: int)
    ensures OccursAt(a + x, pat, j) && j + |pat| <= |a| ==> OccursAt(a, pat, j)
  {
    if OccursAt(a + x, pat, j) && j + |pat| <= |a| {
      assert (a + x)[j..j + |pat|] == a[j..j + |pat|];
    }
  }

  /** A one-character pattern occurs exactly where that character is. */
  lemma OccursAtChar(s: string, c: char, j: int)
    ensures OccursAt(s, [c], j) <==> 0 <= j < |s| && s[j] == c
  {
    if 0 <= j < |s| {
      assert s[j..j + 1] == [s[j]];
    }
  }

  /** Python's s.split(sep) for a non-empty separator. */
  function Split(s: string, sep: string): (parts: seq<string>)
    requires sep != ""
    decreases |s|
    ensures |parts| >= 1
  {
    var i := Find(s, sep, 0);
    if i < 0 then [s] else [s[..i]] + Split(s[i + |sep|..], sep)
  }

  /** A string holding the separator splits into at least two parts, so `split(sep)[1]` exists. */
  lemma SplitHasSecondPart(s: string, sep: string)
    requires sep != "" && Contains(s, sep)
    ensures |Split(s, sep)| >= 2
  {
    FindSucceedsIffContains(s, sep);
  }

  /** The first part of a split never holds the separator. */
  lemma FirstPartLacksSeparator(s: string, sep: string)
    requires sep != ""
    ensures !Contains(Split(s, sep)[0], sep)
  {
    var i := Find(s, sep, 0);
    FindSucceedsIffContains(s, sep);
    var head := Split(s, sep)[0];
    if i >= 0 {
      assert head == s[..i];
      if Contains(head, sep) {
        var j :| 0 <= j <= |head| - |sep| && OccursAt(head, sep, j);
        assert head[j..j + |sep|] == s[j..j + |sep|];
        assert OccursAt(s, sep, j) && j < i;
      }
    }
  }

  /** Number of whitespace characters at the start of s. */
  function LeadingSpace(s: string): (n: nat)
    ensures n <= |s|
    ensures forall k :: 0 <= k < n ==> IsSpace(s[k])
    ensures n < |s| ==> !IsSpace(s[n])
  {
    if s != [] && IsSpace(s[0]) then 1 + LeadingSpace(s[1..]) else 0
  }

  /** Number of whitespace characters at the end of s. */
  function TrailingSpace(s: string): (n: nat)
    ensures n <= |s|
    ensures forall k :: |s| - n <= k < |s| ==> IsSpace(s[k])
    ensures n < |s| ==> !IsSpace(s[|s| - 1 - n])
  {
    if s != [] && IsSpace(s[|s| - 1]) then 1 + TrailingSpace(s[..|s| - 1]) else 0
  }

  /** Python's s.strip(): s without its leading and trailing whitespace. */
  function Strip(s: string): (r: string)
    ensures |r| <= |s|
    ensures r == [] || (!IsSpace(r[0]) && !IsSpace(r[|r| - 1]))
  {
    var t := s[LeadingSpace(s)..];
    t[..|t| - TrailingSpace(t)]
  }

  /** Text with no whitespace at either end is left alone by strip. */
  lemma StripUnchanged(t: string)
    requires t == [] || (!IsSpace(t[0]) && !IsSpace(t[|t| - 1]))
    ensures Strip(t) == t
  {
    assert LeadingSpace(t) == 0;
    assert t[0..] == t;
    assert TrailingSpace(t) == 0;
  }

  lemma StripIdempotent(s: string)
    ensures Strip(Strip(s)) == Strip(s)
  {
    StripUnchanged(Strip(s));
  }

  /** Stripping only removes text, so it cannot create an occurrence of a pattern. */
  lemma StripKeepsAbsence(s: string, pat: string)
    requires !Contains(s, pat)
    ensures !Contains(Strip(s), pat)
  {
    var a := LeadingSpace(s);
    var t := s[a..];
    var b := |t| - TrailingSpace(t);
    assert Strip(s) == s[a..a + b];
    forall j | 0 <= j <= |Strip(s)| - |pat|
      ensures !OccursAt(Strip(s), pat, j)
    {
      OccursInSlice(s, a, a + b, pat, j);
    }
  }

  /** An occurrence in a slice is an occurrence in the whole text, shifted by the slice's start. */
  lemma OccursInSlice(s: string, lo: int, hi: int, pat: string, j: int)
    ensures 0 <= lo <= hi <= |s| && OccursAt(s[lo..hi], pat, j) ==> OccursAt(s, pat, lo + j)
  {
    if 0 <= lo <= hi <= |s| && OccursAt(s[lo..hi], pat, j) {
      var v, w := s[lo..hi][j..j + |pat|], s[lo + j..lo + j + |pat|];
      assert forall k | 0 <= k < |pat| :: v[k] == w[k];
      assert v == w;
    }
  }

  /** Number of non-whitespace characters at the start of s. */
  function WordLength(s: string): (n: nat)
    ensures n <= |s|
  {
    if s != [] && !IsSpace(s[0]) then 1 + WordLength(s[1..]) else 0
  }

  /** Python's s.split() with no argument: the maximal runs of non-whitespace characters. */
  function SplitWords(s: string): (words: seq<string>)
    decreases |s|
  {
    var n := LeadingSpace(s);
    if n == |s| then []
    else
      var rest := s[n..];
      var w := WordLength(rest);
      [rest[..w]] + SplitWords(rest[w..])
  }

  function LowerChar(c: char): char {
    if 'A' <= c <= 'Z' then (c as int + 32) as char else c
  }

  /** Python's s.lower(), on the ASCII letters. */
  function Lower(s: string): (r: string)
    ensures |r| == |s|
  {
    seq(|s|, i requires 0 <= i < |s| => LowerChar(s[i]))
  }

  /** Python's s.count(pat): non-overlapping occurrences, scanning from the left. */
  function Count(s: string, pat: string): (n: nat)
    decreases |s|
  {
    if pat == [] then |s| + 1
    else
      var i := Find(s, pat, 0);
      if i < 0 then 0 else 1 + Count(s[i + |pat|..], pat)
  }

  /** An occurrence inside `a` is still the first one once text is appended to `a`. */
  lemma FindInPrefix(a: string, b: string, pat: string)
    requires Find(a, pat, 0) >= 0
    ensures Find(a + b, pat, 0) == Find(a, pat, 0)
  {
    var i := Find(a, pat, 0);
    assert (a + b)[i..i + |pat|] == a[i..i + |pat|];
    forall j | 0 <= j < i
      ensures !OccursAt(a + b, pat, j)
    {
      OccursInPrefix(a, b, pat, j);
    }
    FindFirst(a + b, pat, i);
  }

  /** Appending text never lowers the count of a pattern. */
  lemma {:induction false} CountGrowsWithAppend(a: string, b: string, pat: string)
    decreases |a|
    ensures Count(a + b, pat) >= Count(a, pat)
  {
    if pat != [] {
      var i := Find(a, pat, 0);
      if i >= 0 {
        FindInPrefix(a, b, pat);
        assert (a + b)[i + |pat|..] == a[i + |pat|..] + b;
        CountGrowsWithAppend(a[i + |pat|..], b, pat);
      }
    }
  }

  /** Python's int(text) in base 10: blanks around, an optional sign, ASCII digits with single underscores between them. */
  function ParseInt(text: string): (r: Option<int>)
  {
    var t := Strip(text);
    if t != [] && (t[0] == '+' || t[0] == '-') then
      var v: int := DigitsValue(t[1..]);
      if IsDigitRun(t[1..]) then Some(if t[0] == '-' then -v else v) else None
    else if IsDigitRun(t) then Some(DigitsValue(t))
    else None
  }

  /** Digits and underscores, starting and ending with a digit, where every underscore is followed by a digit. */
  predicate IsDigitRun(t: string) {
    && t != [] && IsDigit(t[0]) && IsDigit(t[|t| - 1])
    && (forall k :: 0 <= k < |t| ==> IsDigit(t[k]) || t[k] == '_')
    && (forall k :: 0 <= k < |t| - 1 && t[k] == '_' ==> IsDigit(t[k + 1]))
  }

  /** The value of a digit run, underscores ignored. */
  function DigitsValue(t: string): nat
  {
    if t == [] then 0
    else if IsDigit(t[|t| - 1]) then 10 * DigitsValue(t[..|t| - 1]) + (t[|t| - 1] as int - '0' as int)
    else DigitsValue(t[..|t| - 1])
  }

  function DigitChar(d: nat): char
    requires d < 10
  {
    ('0' as int + d) as char
  }

  /** Python's str() of a natural number. */
  function NatToString(n: nat): (s: string)
    ensures s != [] && forall k :: 0 <= k < |s| ==> IsDigit(s[k])
  {
    if n < 10 then [DigitChar(n)] else NatToString(n / 10) + [DigitChar(n % 10)]
  }

  /** Python's str() of an integer. */
  function IntToString(n: int): string
  {
    if n < 0 then "-" + NatToString(-n) else NatToString(n)
  }

  lemma {:induction false} NatToStringValue(n: nat)
    ensures DigitsValue(NatToString(n)) == n
  {
    var s := NatToString(n);
    if n >= 10 {
      NatToStringValue(n / 10);
      assert s[..|s| - 1] == NatToString(n / 10);
    }
  }

  lemma DigitsAreDigitRun(t: string)
    requires t != [] && forall k :: 0 <= k < |t| ==> IsDigit(t[k])
    ensures IsDigitRun(t)
  {
  }

  /** int() of a digit run, with or without a leading minus sign. */
  lemma ParseSignedDigits(digits: string, negative: bool)
    requires IsDigitRun(digits)
    ensures ParseInt(if negative then "-" + digits else digits)
            == Some(if negative then -(DigitsValue(digits) as int) else DigitsValue(digits))
  {
    if negative {
      var s := "-" + digits;
      assert s[|s| - 1] == digits[|digits| - 1];
      StripUnchanged(s);
      assert s[1..] == digits;
    } else {
      StripUnchanged(digits);
      assert Strip(digits) == digits;
    }
  }

  /** int(str(n)) == n: the parser of the configuration values reads back every printed integer. */
  lemma ParseIntRoundTrip(n: int)
    ensures ParseInt(IntToString(n)) == Some(n)
  {
    var m: nat := if n < 0 then -n else n;
    NatToStringValue(m);
    DigitsAreDigitRun(NatToString(m));
    ParseSignedDigits(NatToString(m), n < 0);
  }
}
