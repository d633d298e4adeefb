/**
 The tree parser (`strip_comment` and `parse_lines` in scaffold.py): it turns
 indented outline text into an ordered list of (level, name) items.
 */
module Parser {
  import opened Text

  datatype Option<T> = None | Some(value: T)

  /** One parsed outline entry: its indentation level and its trimmed content. */
  datatype Item = Item(level: nat, name: string)

  /** `strip_comment`: the line up to its first '#', with trailing whitespace
      removed. (The source's `rstrip("\n")` is subsumed by `rstrip()`.) */
  function StripComment(line: string): (r: string)
    ensures r <= line
    ensures '#' !in r
    ensures r == [] || !IsSpace(r[|r| - 1])
    ensures |r| <= IndexOf(line, '#')
    ensures forall i :: |r| <= i < IndexOf(line, '#') ==> IsSpace(line[i])
  {
    RStrip(BeforeFirst(line, '#'))
  }

  /** Python's `//` on a non-negative dividend and a positive divisor: how many
      whole times `b` fits into `a`. */
  function FloorDiv(a: nat, b: nat): nat
    requires b > 0
    decreases a
  {
    if a < b then 0 else 1 + FloorDiv(a - b, b)
  }

  /** `FloorDiv(a, b)` is the quotient of `a` by `b` rounded down. */
  lemma {:induction false} FloorDivRoundsDown(a: nat, b: nat)
    requires b > 0
    ensures FloorDiv(a, b) * b <= a < FloorDiv(a, b) * b + b
    decreases a
  {
    if a >= b {
      FloorDivRoundsDown(a - b, b);
    }
  }

  /** The body of the loop in `parse_lines` for one raw line. */
  function ParseLine(raw: string, indentSize: nat): Option<Item>
    requires indentSize > 0
  {
    var line := StripComment(raw);
    if Strip(line) == [] then None
    else
      var stripped := line[LeadingSpaces(line)..];
      var indent := |line| - |stripped|;
      var content := Strip(stripped);
      if content != [] then Some(Item(FloorDiv(indent, indentSize), content)) else None
  }

  /** A raw line yields nothing exactly when it is blank once its comment is
      cut off; otherwise it yields the item whose level is its number of
      leading spaces divided by `indentSize` (rounding down) and whose name is
      the comment-free line trimmed at both ends. */
  lemma ParseLineMeaning(raw: string, indentSize: nat)
    requires indentSize > 0
    ensures var r, line := ParseLine(raw, indentSize), StripComment(raw);
            && (r.None? <==> IsBlank(line))
            && (r.Some? ==> r.value == Item(FloorDiv(LeadingSpaces(line), indentSize), Strip(line)))
  {
    var line := StripComment(raw);
    StripSkipsLeadingSpace(line, LeadingSpaces(line));
  }

  /** What each of `lines` yields, line by line. */
  function ParseEach(lines: seq<string>, indentSize: nat): (r: seq<Option<Item>>)
    requires indentSize > 0
    ensures |r| == |lines|
  {
    seq(|lines|, j requires 0 <= j < |lines| => ParseLine(lines[j], indentSize))
  }

  /** The values of the `Some` entries of `opts`, in order. */
  function Present<T>(opts: seq<Option<T>>): seq<T> {
    if opts == [] then []
    else
      var init := Present(opts[..|opts| - 1]);
      match opts[|opts| - 1]
      case None => init
      case Some(v) => init + [v]
  }

  /** The indices of the `Some` entries of `opts`, in increasing order. */
  function Positions<T>(opts: seq<Option<T>>): (o: seq<nat>)
    ensures forall k :: 0 <= k < |o| ==> o[k] < |opts|
    ensures forall k, l :: 0 <= k < l < |o| ==> o[k] < o[l]
    ensures forall j :: 0 <= j < |opts| ==> (j in o <==> opts[j].Some?)
  {
    if opts == [] then []
    else
      var init := Positions(opts[..|opts| - 1]);
      assert forall j :: 0 <= j < |opts| - 1 ==> opts[..|opts| - 1][j] == opts[j];
      if opts[|opts| - 1].Some? then init + [|opts| - 1] else init
  }

  /** The k-th present value is the one at the k-th `Some` position. */
  lemma {:induction false} PresentAtPositions<T>(opts: seq<Option<T>>)
    ensures var vs, o := Present(opts), Positions(opts);
            |vs| == |o| && forall k :: 0 <= k < |o| ==> opts[o[k]] == Some(vs[k])
  {
    if opts != [] {
      var n := |opts| - 1;
      var init := opts[..n];
      PresentAtPositions(init);
      var o, vs := Positions(init), Present(init);
      forall k | 0 <= k < |o| ensures init[o[k]] == opts[o[k]] { }
      if opts[n].Some? {
        assert Positions(opts) == o + [n] && Present(opts) == vs + [opts[n].value];
      } else {
        assert Positions(opts) == o && Present(opts) == vs;
      }
    }
  }

  /** The items parsed from `lines`, in line order. */
  function ParseAll(lines: seq<string>, indentSize: nat): seq<Item>
    requires indentSize > 0
  {
    Present(ParseEach(lines, indentSize))
  }

  /** Parsing one more line appends what that line yields. */
  lemma ParseAllSnoc(lines: seq<string>, k: nat, indentSize: nat)
    requires indentSize > 0 && k < |lines|
    ensures ParseAll(lines[..k + 1], indentSize) ==
            match ParseLine(lines[k], indentSize)
            case None => ParseAll(lines[..k], indentSize)
            case Some(item) => ParseAll(lines[..k], indentSize) + [item]
  {
    var each := ParseEach(lines[..k + 1], indentSize);
    assert each[..k] == ParseEach(lines[..k], indentSize);
    assert each[k] == ParseLine(lines[k], indentSize);
  }

  /** `parse_lines`: split the text into lines and parse each in turn. */
  method ParseLines(specText: string, indentSize: nat) returns (items: seq<Item>)
    requires indentSize > 0
    ensures items == ParseAll(SplitLines(specText), indentSize)
  {
    var lines := SplitLines(specText);
    items := [];
    for k := 0 to |lines|
      invariant items == ParseAll(lines[..k], indentSize)
    {
      ParseAllSnoc(lines, k, indentSize);
      var parsed := ParseLine(lines[k], indentSize);
      if parsed.Some? {
        items := items + [parsed.value];
      }
    }
    assert lines[..|lines|] == lines;
  }

  /** Output order follows input line order: item k is what the line at index
      `o[k]` yields, the indices `o` increase, and they are exactly the lines
      that yield something (a blank or comment-only line yields nothing). */
  lemma ParseAllFollowsLines(lines: seq<string>, indentSize: nat)
    requires indentSize > 0
    ensures var items, o := ParseAll(lines, indentSize), Positions(ParseEach(lines, indentSize));
            && |items| == |o|
            && (forall k :: 0 <= k < |o| ==> o[k] < |lines| && Some(items[k]) == ParseLine(lines[o[k]], indentSize))
            && (forall k, l :: 0 <= k < l < |o| ==> o[k] < o[l])
            && (forall j :: 0 <= j < |lines| ==> (j in o <==> !IsBlank(StripComment(lines[j]))))
  {
    var each := ParseEach(lines, indentSize);
    PresentAtPositions(each);
    forall j | 0 <= j < |lines| ensures each[j].Some? <==> !IsBlank(StripComment(lines[j])) {
      ParseLineMeaning(lines[j], indentSize);
    }
  }

  /** The trimmed comment-free part of a line has no '#' and is a slice of
      the line. */
  lemma TrimmedContent(raw: string, line: string, name: string)
    requires line == StripComment(raw) && name == Strip(line)
    ensures '#' !in name
    ensures var i := LeadingWhitespace(line); i + |name| <= |raw| && name == raw[i..i + |name|]
  {
    var i := LeadingWhitespace(line);
    assert line == raw[..|line|];
    forall j | 0 <= j < |name| ensures name[j] == raw[i + j] && name[j] != '#' {
      assert name[j] == line[i + j];
    }
    assert name == raw[i..i + |name|];
  }

  /** What every parsed name satisfies. */
  predicate WellFormedName(name: string) {
    name != [] && IsTrimmed(name) && '#' !in name && NoLineBreak(name)
  }

  /** An item's name is non-empty, has no whitespace at either end, no '#',
      and is a slice of the raw line, so has no line break when the line has none. */
  lemma ParsedNameWellFormed(raw: string, indentSize: nat)
    requires indentSize > 0 && NoLineBreak(raw) && ParseLine(raw, indentSize).Some?
    ensures WellFormedName(ParseLine(raw, indentSize).value.name)
  {
    ParseLineMeaning(raw, indentSize);
    var line := StripComment(raw);
    var name := Strip(line);
    assert ParseLine(raw, indentSize).value.name == name;
    TrimmedContent(raw, line, name);
    var i := LeadingWhitespace(line);
    SliceNoLineBreak(raw, i, i + |name|);
  }

  /** Every parsed item has a non-empty name with no whitespace at either end,
      no '#' and no line break. */
  lemma ParseAllWellFormed(lines: seq<string>, indentSize: nat)
    requires indentSize > 0
    requires forall k :: 0 <= k < |lines| ==> NoLineBreak(lines[k])
    ensures forall item :: item in ParseAll(lines, indentSize) ==> WellFormedName(item.name)
  {
    var each := ParseEach(lines, indentSize);
    var items := ParseAll(lines, indentSize);
    PresentAtPositions(each);
    var o := Positions(each);
    forall k | 0 <= k < |items| ensures WellFormedName(items[k].name) {
      ParsedNameWellFormed(lines[o[k]], indentSize);
    }
  }

  /** Every item of the text `parse_lines` reads is well formed. */
  lemma ParseLinesWellFormed(specText: string, indentSize: nat)
    requires indentSize > 0
    ensures forall item :: item in ParseAll(SplitLines(specText), indentSize) ==> WellFormedName(item.name)
  {
    ParseAllWellFormed(SplitLines(specText), indentSize);
  }

  /** `k` space characters. */
  function Spaces(k: nat): (s: string)
    ensures |s| == k && forall i :: 0 <= i < k ==> s[i] == ' '
  {
    seq(k, i => ' ')
  }

  /** The outline line that writes `item` with `indentSize` spaces per level. */
  function RenderLine(item: Item, indentSize: nat): string {
    Spaces(item.level * indentSize) + item.name
  }

  /** The outline text that writes `items`, one line each. */
  function RenderAll(items: seq<Item>, indentSize: nat): (lines: seq<string>)
    ensures |lines| == |items|
    ensures forall k :: 0 <= k < |items| ==> lines[k] == RenderLine(items[k], indentSize)
  {
    seq(|items|, k requires 0 <= k < |items| => RenderLine(items[k], indentSize))
  }

  /** A whole number of indentation steps divides back exactly. */
  lemma {:induction false} FloorDivMultiple(k: nat, n: nat)
    requires n > 0
    ensures FloorDiv(k * n, n) == k
  {
    if k > 0 {
      assert k * n == (k - 1) * n + n;
      FloorDivMultiple(k - 1, n);
    }
  }

  /** A line of leading spaces followed by a string that starts with something
      other than a space has exactly that many leading spaces. */
  lemma LeadingSpacesOfPadded(pad: string, name: string)
    requires forall i :: 0 <= i < |pad| ==> pad[i] == ' '
    requires name != [] && name[0] != ' '
    ensures LeadingSpaces(pad + name) == |pad|
  {
    var s := pad + name;
    assert forall i :: 0 <= i < |pad| ==> s[i] == pad[i];
    assert s[|pad|] == name[0];
  }

  /** A line without '#' that does not end in whitespace is its own
      comment-free part. */
  lemma StripCommentOfPlain(raw: string)
    requires '#' !in raw && raw != [] && !IsSpace(raw[|raw| - 1])
    ensures StripComment(raw) == raw
  {
    IndexOfAfter(raw, [], '#');
    assert raw + [] == raw;
    RStripBlankTail(raw, []);
  }

  /** Spaces followed by a well-formed name have no '#', no line break, and
      end in the name's last character. */
  lemma PaddedPlain(pad: string, name: string)
    requires forall i :: 0 <= i < |pad| ==> pad[i] == ' '
    requires WellFormedName(name)
    ensures var raw := pad + name;
            '#' !in raw && NoLineBreak(raw) && !IsSpace(raw[|raw| - 1])
  {
    var raw := pad + name;
    assert forall i :: 0 <= i < |raw| ==> raw[i] == if i < |pad| then pad[i] else name[i - |pad|];
  }

  /** Spaces followed by a trimmed name strip to the name. */
  lemma StripPadded(pad: string, name: string)
    requires forall i :: 0 <= i < |pad| ==> pad[i] == ' '
    requires IsTrimmed(name) && name != []
    ensures Strip(pad + name) == name && !IsBlank(pad + name)
  {
    var raw := pad + name;
    assert IsBlank(raw[..|pad|]) by { assert raw[..|pad|] == pad; }
    StripSkipsLeadingSpace(raw, |pad|);
    assert raw[|pad|..] == name;
    StripOfTrimmed(name);
    assert raw[|pad|] == name[0];
  }

  /** Rendering then parsing a line gives the item back, for every well-formed
      name: parsing inverts rendering. */
  lemma ParseRenderLine(item: Item, indentSize: nat)
    requires indentSize > 0 && WellFormedName(item.name)
    ensures ParseLine(RenderLine(item, indentSize), indentSize) == Some(item)
  {
    var pad, name := Spaces(item.level * indentSize), item.name;
    var raw := pad + name;
    PaddedPlain(pad, name);
    StripCommentOfPlain(raw);
    LeadingSpacesOfPadded(pad, name);
    StripPadded(pad, name);
    FloorDivMultiple(item.level, indentSize);
    ParseLineMeaning(raw, indentSize);
  }

  /** `Present` of all-`Some` entries is their values. */
  lemma {:induction false} PresentAllSome<T>(opts: seq<Option<T>>, vs: seq<T>)
    requires |opts| == |vs| && forall k :: 0 <= k < |opts| ==> opts[k] == Some(vs[k])
    ensures Present(opts) == vs
  {
    if opts != [] {
      var n := |opts| - 1;
      PresentAllSome(opts[..n], vs[..n]);
      assert vs[..n] + [vs[n]] == vs;
    }
  }

  /** `parse_lines` inverts writing well-formed items out as an outline: the
      text with one rendered line per item parses back to exactly the items. */
  lemma ParseRendered(items: seq<Item>, indentSize: nat)
    requires indentSize > 0
    requires forall k :: 0 <= k < |items| ==> WellFormedName(items[k].name)
    ensures ParseAll(SplitLines(JoinLines(RenderAll(items, indentSize))), indentSize) == items
  {
    var lines := RenderAll(items, indentSize);
    forall k | 0 <= k < |lines| ensures NoLineBreak(lines[k]) {
      PaddedPlain(Spaces(items[k].level * indentSize), items[k].name);
    }
    SplitJoinLines(lines);
    var each := ParseEach(lines, indentSize);
    forall k | 0 <= k < |lines| ensures each[k] == Some(items[k]) {
      ParseRenderLine(items[k], indentSize);
    }
    PresentAllSome(each, items);
  }
}
