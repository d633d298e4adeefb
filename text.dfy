/**
 The few Python string operations the parser relies on, over Dafny's
 `string` (a sequence of Unicode scalar values): `str.isspace`,
 `rstrip()`, `strip()`, `lstrip(" ")`, `split(c, 1)[0]` and `splitlines()`.
 */
module Text {

  /** Python's `str.isspace` for a single character. */
  predicate IsSpace(c: char) {
    || ('\t' <= c <= '\r')                // tab, line feed, vertical tab, form feed, carriage return
    || ('\U{1C}' <= c <= '\U{1F}')        // the four information separators
    || c == ' '
    || c == '\U{85}' || c == '\U{A0}' || c == '\U{1680}'
    || ('\U{2000}' <= c <= '\U{200A}')
    || c == '\U{2028}' || c == '\U{2029}' || c == '\U{202F}' || c == '\U{205F}' || c == '\U{3000}'
  }

  /** The characters at which Python's `str.splitlines` breaks a string. */
  predicate IsLineBreak(c: char) {
    || c == '\n' || c == '\r' || c == '\U{B}' || c == '\U{C}'
    || ('\U{1C}' <= c <= '\U{1E}')
    || c == '\U{85}' || c == '\U{2028}' || c == '\U{2029}'
  }

  predicate IsBlank(s: string) {
    forall i :: 0 <= i < |s| ==> IsSpace(s[i])
  }

  predicate NoLineBreak(s: string) {
    forall i :: 0 <= i < |s| ==> !IsLineBreak(s[i])
  }

  /** Trimmed: empty, or neither end is whitespace. */
  predicate IsTrimmed(s: string) {
    s == [] || (!IsSpace(s[0]) && !IsSpace(s[|s| - 1]))
  }

  /** The number of whitespace characters `s` starts with. */
  function LeadingWhitespace(s: string): (n: nat)
    ensures n <= |s|
    ensures forall i :: 0 <= i < n ==> IsSpace(s[i])
    ensures n == |s| || !IsSpace(s[n])
  {
    if s != [] && IsSpace(s[0]) then 1 + LeadingWhitespace(s[1..]) else 0
  }

  /** The number of whitespace characters `s` ends with. */
  function TrailingWhitespace(s: string): (n: nat)
    ensures n <= |s|
    ensures forall i :: |s| - n <= i < |s| ==> IsSpace(s[i])
    ensures n == |s| || !IsSpace(s[|s| - n - 1])
  {
    if s != [] && IsSpace(s[|s| - 1]) then 1 + TrailingWhitespace(s[..|s| - 1]) else 0
  }

  /** `s.rstrip()`: the longest prefix of `s` that does not end in whitespace. */
  function RStrip(s: string): (r: string)
    ensures r <= s
    ensures r == [] || !IsSpace(r[|r| - 1])
    ensures forall i :: |r| <= i < |s| ==> IsSpace(s[i])
  {
    s[..|s| - TrailingWhitespace(s)]
  }

  /** `s.strip()`: `s` with the whitespace at both ends removed. */
  function Strip(s: string): (r: string)
    ensures IsTrimmed(r)
    ensures r == [] <==> IsBlank(s)
    ensures LeadingWhitespace(s) + |r| <= |s|
    ensures r == s[LeadingWhitespace(s)..LeadingWhitespace(s) + |r|]
  {
    var i := LeadingWhitespace(s);
    var t := s[i..];
    var r := RStrip(t);
    assert r == s[i..i + |r|];
    if r == [] then
      assert IsBlank(s) by {
        forall j | 0 <= j < |s| ensures IsSpace(s[j]) { }
      }
      r
    else
      assert r[0] == t[0];
      r
  }

  /** What `strip()` removes is whitespace: `s` is blank before and after
      the slice that `Strip(s)` keeps. */
  lemma StripRemovesOnlyWhitespace(s: string)
    ensures var r, i := Strip(s), LeadingWhitespace(s);
            IsBlank(s[..i]) && IsBlank(s[i + |r|..])
  {
    var i := LeadingWhitespace(s);
    var t := s[i..];
    var r := RStrip(t);
    var u := s[i + |r|..];
    forall j | 0 <= j < |u| ensures IsSpace(u[j]) {
      assert u[j] == t[|r| + j];
    }
    var v := s[..i];
    forall j | 0 <= j < |v| ensures IsSpace(v[j]) { }
  }

  /** A string without whitespace at either end is its own `strip()`. */
  lemma StripOfTrimmed(s: string)
    requires IsTrimmed(s)
    ensures Strip(s) == s
  {
  }

  /** Leading whitespace does not change `strip()`. */
  lemma StripSkipsLeadingSpace(s: string, n: nat)
    requires n <= |s| && IsBlank(s[..n])
    ensures Strip(s[n..]) == Strip(s)
  {
    var m := LeadingWhitespace(s[n..]);
    assert forall i :: 0 <= i < n ==> IsSpace(s[..n][i]);
    assert n + m == LeadingWhitespace(s) by {
      forall i | 0 <= i < n + m ensures IsSpace(s[i]) {
        if i >= n { assert s[i] == s[n..][i - n]; } else { assert s[i] == s[..n][i]; }
      }
      if n + m < |s| { assert s[n + m] == s[n..][m]; }
    }
    assert s[n..][m..] == s[n + m..];
  }

  /** `len(s) - len(s.lstrip(" "))`: the number of leading space characters
      (tabs and other whitespace are not counted). */
  function LeadingSpaces(s: string): (n: nat)
    ensures n <= |s|
    ensures forall i :: 0 <= i < n ==> s[i] == ' '
    ensures n == |s| || s[n] != ' '
  {
    if s != [] && s[0] == ' ' then 1 + LeadingSpaces(s[1..]) else 0
  }

  /** The index of the first `c` in `s`, or `|s|` when there is none. */
  function IndexOf(s: string, c: char): (n: nat)
    ensures n <= |s|
    ensures forall i :: 0 <= i < n ==> s[i] != c
    ensures n < |s| ==> s[n] == c
  {
    if s == [] || s[0] == c then 0 else 1 + IndexOf(s[1..], c)
  }

  /** `s.split(c, 1)[0]`: everything before the first `c`, or all of `s`. */
  function BeforeFirst(s: string, c: char): (r: string)
    ensures r <= s && c !in r
    ensures |r| < |s| ==> s[|r|] == c
  {
    s[..IndexOf(s, c)]
  }

  /** The index of the first line break in `s`, or `|s|` when there is none. */
  function FirstBreak(s: string): (i: nat)
    ensures i <= |s|
    ensures NoLineBreak(s[..i])
    ensures i < |s| ==> IsLineBreak(s[i])
  {
    if s == [] || IsLineBreak(s[0]) then 0
    else
      var j := FirstBreak(s[1..]);
      assert s[..1 + j] == [s[0]] + s[1..][..j];
      1 + j
  }

  /** Python's `s.splitlines()`: the lines of `s` without their line breaks;
      "\r\n" is one break, and a final break does not start an empty line. */
  function SplitLines(s: string): (lines: seq<string>)
    ensures forall k :: 0 <= k < |lines| ==> NoLineBreak(lines[k])
    ensures lines == [] <==> s == []
    decreases |s|
  {
    if s == [] then []
    else
      var i := FirstBreak(s);
      if i == |s| then [s]
      else
        var next := if s[i] == '\r' && i + 1 < |s| && s[i + 1] == '\n' then i + 2 else i + 1;
        [s[..i]] + SplitLines(s[next..])
  }

  /** The first break of a text is where its break-free start ends. */
  lemma {:induction false} FirstBreakAfter(a: string, rest: string)
    requires NoLineBreak(a) && (rest == [] || IsLineBreak(rest[0]))
    ensures FirstBreak(a + rest) == |a|
  {
    if a == [] {
      assert a + rest == rest;
    } else {
      assert (a + rest)[0] == a[0] && (a + rest)[1..] == a[1..] + rest;
      FirstBreakAfter(a[1..], rest);
    }
  }

  /** A non-empty text without a line break is a single line. */
  lemma SplitLinesOfLine(a: string)
    requires a != [] && NoLineBreak(a)
    ensures SplitLines(a) == [a]
  {
    assert a + [] == a;
    FirstBreakAfter(a, []);
  }

  /** A single-character break ends the first line; the rest of the text is
      split on its own. A carriage return counts alone only when no line feed
      follows it. */
  lemma SplitLinesAtBreak(a: string, b: char, c: string)
    requires NoLineBreak(a) && IsLineBreak(b)
    requires !(b == '\r' && c != [] && c[0] == '\n')
    ensures SplitLines(a + [b] + c) == [a] + SplitLines(c)
  {
    var s := a + [b] + c;
    assert s == a + ([b] + c);
    FirstBreakAfter(a, [b] + c);
    assert s[..|a|] == a && s[|a|] == b;
    assert s[|a| + 1..] == c;
    if b == '\r' && |a| + 1 < |s| {
      assert s[|a| + 1] == c[0];
    }
  }

  /** "\r\n" is one break: it ends the first line, and the rest of the text is
      split on its own. */
  lemma SplitLinesAtCrLf(a: string, c: string)
    requires NoLineBreak(a)
    ensures SplitLines(a + "\r\n" + c) == [a] + SplitLines(c)
  {
    var rest := ['\r', '\n'] + c;
    var s := a + rest;
    assert a + "\r\n" + c == s;
    FirstBreakAfter(a, rest);
    assert s[..|a|] == a;
    assert s[|a|] == '\r' && |a| + 1 < |s| && s[|a| + 1] == '\n';
    assert s[|a| + 2..] == c;
  }

  /** The text made of `lines`, each followed by "\n". */
  function JoinLines(lines: seq<string>): string {
    if lines == [] then [] else lines[0] + "\n" + JoinLines(lines[1..])
  }

  /** Splitting the text written from break-free lines gives those lines back. */
  lemma {:induction false} SplitJoinLines(lines: seq<string>)
    requires forall k :: 0 <= k < |lines| ==> NoLineBreak(lines[k])
    ensures SplitLines(JoinLines(lines)) == lines
  {
    if lines != [] {
      var s := JoinLines(lines);
      var l := lines[0];
      assert s == l + ("\n" + JoinLines(lines[1..]));
      assert s[..|l|] == l;
      assert s[|l|] == '\n';
      var i := FirstBreak(s);
      assert i == |l|;
      assert s[|l| + 1..] == JoinLines(lines[1..]);
      SplitJoinLines(lines[1..]);
    }
  }

  /** A slice of a string without line breaks has none either. */
  lemma SliceNoLineBreak(s: string, i: nat, j: nat)
    requires i <= j <= |s| && NoLineBreak(s)
    ensures NoLineBreak(s[i..j])
  {
    var u := s[i..j];
    forall k | 0 <= k < |u| ensures !IsLineBreak(u[k]) {
      assert u[k] == s[i + k];
    }
  }

  /** The first `c` of `a + b`, when `a` has none, is the first `c` of `b`. */
  lemma IndexOfAfter(a: string, b: string, c: char)
    requires c !in a
    ensures IndexOf(a + b, c) == |a| + IndexOf(b, c)
  {
    var s := a + b;
    assert forall i :: 0 <= i < |a| ==> s[i] == a[i];
    assert forall i :: 0 <= i < |b| ==> s[|a| + i] == b[i];
  }

  /** `rstrip()` removes exactly a blank tail. */
  lemma RStripBlankTail(a: string, b: string)
    requires a == [] || !IsSpace(a[|a| - 1])
    requires IsBlank(b)
    ensures RStrip(a + b) == a
  {
    var s := a + b;
    assert forall i :: 0 <= i < |a| ==> s[i] == a[i];
    assert forall i :: 0 <= i < |b| ==> s[|a| + i] == b[i];
  }
}
