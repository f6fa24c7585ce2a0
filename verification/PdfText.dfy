/** Text layout of the PDF report: escaping, wrapping and pagination.
 *
 *  A Python text string is a Dafny string; a byte string is a Dafny string of characters
 *  below 256, one per byte.
 */
module PdfText {

  const PAGE_W := 612
  const PAGE_H := 792
  const MARGIN := 54
  const FONT_SIZE := 9
  const LEADING := 12
  const MAX_CHARS := 95
  const LINES_PER_PAGE := (PAGE_H - 2 * MARGIN) / LEADING

  // ---- Escaping ------------------------------------------------------------------------

  /** Python's str.replace of a single character. */
  function Replace(s: string, c: char, sub: string): string {
    if s == [] then [] else (if s[0] == c then sub else [s[0]]) + Replace(s[1..], c, sub)
  }

  function Escape(text: string): string {
    Replace(Replace(Replace(text, '\\', "\\\\"), '(', "\\("), ')', "\\)")
  }

  function EscapeChar(c: char): string {
    if c == '\\' || c == '(' || c == ')' then ['\\', c] else [c]
  }

  function EscapeEach(text: string): string {
    if text == [] then [] else EscapeChar(text[0]) + EscapeEach(text[1..])
  }

  lemma {:induction false} ReplaceAppend(a: string, b: string, c: char, sub: string)
    ensures Replace(a + b, c, sub) == Replace(a, c, sub) + Replace(b, c, sub)
    decreases |a|
  {
    if a == [] {
      assert a + b == b;
    } else {
      assert (a + b)[1..] == a[1..] + b;
      ReplaceAppend(a[1..], b, c, sub);
    }
  }

  lemma ReplaceOne(c: char, d: char, sub: string)
    ensures Replace([d], c, sub) == if d == c then sub else [d]
  {
    assert [d][1..] == [];
  }

  lemma ReplaceTwo(x: char, d: char, c: char, sub: string)
    requires x != c && d != c
    ensures Replace([x, d], c, sub) == [x, d]
  {
    assert [x, d] == [x] + [d];
    ReplaceAppend([x], [d], c, sub);
    ReplaceOne(c, x, sub);
    ReplaceOne(c, d, sub);
  }

  /** Three successive global replaces are one character map: the backslashes that the second
   *  and third insert are not escaped again. */
  lemma {:induction false} EscapeIsACharacterMap(text: string)
    ensures Escape(text) == EscapeEach(text)
    decreases |text|
  {
    if text != [] {
      var c, rest := text[0], text[1..];
      assert text == [c] + rest;
      var first := Replace([c], '\\', "\\\\");
      var second := Replace(first, '(', "\\(");
      ReplaceAppend([c], rest, '\\', "\\\\");
      ReplaceAppend(first, Replace(rest, '\\', "\\\\"), '(', "\\(");
      ReplaceAppend(second, Replace(Replace(rest, '\\', "\\\\"), '(', "\\("), ')', "\\)");
      ReplaceOne('\\', c, "\\\\");
      if c == '\\' {
        ReplaceTwo('\\', '\\', '(', "\\(");
        ReplaceTwo('\\', '\\', ')', "\\)");
      } else if c == '(' {
        ReplaceOne('(', c, "\\(");
        ReplaceTwo('\\', '(', ')', "\\)");
      } else {
        ReplaceOne('(', c, "\\(");
        ReplaceOne(')', c, "\\)");
      }
      EscapeIsACharacterMap(rest);
    }
  }

  // ---- Latin-1 with "replace" ------------------------------------------------------------

  function Latin1Char(c: char): char {
    if c as int < 256 then c else '?'
  }

  function Latin1(s: string): (b: string)
    ensures |b| == |s|
    ensures forall i :: 0 <= i < |b| ==> (b[i] as int) < 256
  {
    seq(|s|, i requires 0 <= i < |s| => Latin1Char(s[i]))
  }

  lemma Latin1Append(a: string, b: string)
    ensures Latin1(a + b) == Latin1(a) + Latin1(b)
  {
  }

  lemma Latin1Fixed(s: string)
    requires forall i :: 0 <= i < |s| ==> (s[i] as int) < 256
    ensures Latin1(s) == s
  {
  }

  lemma {:induction false} Latin1OfEscape(text: string)
    ensures Latin1(EscapeEach(text)) == EscapeEach(Latin1(text))
    decreases |text|
  {
    if text != [] {
      Latin1OfEscape(text[1..]);
      Latin1Append(EscapeChar(text[0]), EscapeEach(text[1..]));
      assert Latin1(text)[1..] == Latin1(text[1..]);
      assert Latin1(EscapeChar(text[0])) == EscapeChar(Latin1Char(text[0]));
    }
  }

  // ---- Reading a literal string, ISO 32000-1 section 7.3.4.2 -------------------------------

  datatype Literal = Unterminated | Literal(text: string, rest: string)

  function Prepend(c: string, l: Literal): Literal {
    if l.Unterminated? then l else Literal(c + l.text, l.rest)
  }

  predicate IsOctal(c: char) { '0' <= c <= '7' }

  /** Number of octal digits, at most three, at the front of s. */
  function OctalRun(s: string, most: nat): (n: nat)
    ensures n <= |s| && n <= most
  {
    if most == 0 || s == [] || !IsOctal(s[0]) then 0 else 1 + OctalRun(s[1..], most - 1)
  }

  function OctalValue(s: string): int
    requires forall i :: 0 <= i < |s| ==> IsOctal(s[i])
  {
    if s == [] then 0
    else
      assert IsOctal(s[|s| - 1]);
      8 * OctalValue(s[..|s| - 1]) + (s[|s| - 1] as int - '0' as int)
  }

  lemma {:induction false} OctalRunIsOctal(s: string, most: nat)
    ensures forall i :: 0 <= i < OctalRun(s, most) ==> IsOctal(s[i])
    decreases most
  {
    if !(most == 0 || s == [] || !IsOctal(s[0])) {
      OctalRunIsOctal(s[1..], most - 1);
    }
  }

  /** Reads up to the parenthesis that closes the literal; `depth` counts the open inner ones.
   *  An end-of-line marker inside the literal reads as a line feed, whichever it is. */
  function ReadLiteral(s: string, depth: nat): (l: Literal)
    ensures l.Literal? ==> |l.rest| < |s|
    decreases |s|
  {
    if s == [] then Unterminated
    else if s[0] == ')' then
      if depth == 0 then Literal("", s[1..]) else Prepend(")", ReadLiteral(s[1..], depth - 1))
    else if s[0] == '(' then Prepend("(", ReadLiteral(s[1..], depth + 1))
    else if s[0] == '\r' then
      if |s| > 1 && s[1] == '\n' then Prepend("\n", ReadLiteral(s[2..], depth))
      else Prepend("\n", ReadLiteral(s[1..], depth))
    else if s[0] != '\\' then Prepend([s[0]], ReadLiteral(s[1..], depth))
    else if |s| == 1 then Unterminated
    else if s[1] == 'n' then Prepend("\n", ReadLiteral(s[2..], depth))
    else if s[1] == 'r' then Prepend("\r", ReadLiteral(s[2..], depth))
    else if s[1] == 't' then Prepend("\t", ReadLiteral(s[2..], depth))
    else if s[1] == 'b' then Prepend("\U{8}", ReadLiteral(s[2..], depth))
    else if s[1] == 'f' then Prepend("\U{C}", ReadLiteral(s[2..], depth))
    else if s[1] == '\n' then ReadLiteral(s[2..], depth)
    else if s[1] == '\r' then ReadLiteral(if |s| > 2 && s[2] == '\n' then s[3..] else s[2..], depth)
    else if IsOctal(s[1]) then
      var n := OctalRun(s[1..], 3);
      OctalRunIsOctal(s[1..], 3);
      Prepend([(OctalValue(s[1..1 + n]) % 256) as char], ReadLiteral(s[1 + n..], depth))
    else Prepend([s[1]], ReadLiteral(s[2..], depth))
  }

  /** The text with every CR LF and every lone CR replaced by LF. */
  function UnixLines(t: string): string
    decreases |t|
  {
    if t == [] then []
    else if t[0] == '\r' then ['\n'] + UnixLines(if |t| > 1 && t[1] == '\n' then t[2..] else t[1..])
    else [t[0]] + UnixLines(t[1..])
  }

  /** Every string survives escaping and reading, up to its carriage returns. */
  lemma {:induction false} EscapedReadsBack(t: string, rest: string)
    ensures ReadLiteral(EscapeEach(t) + ")" + rest, 0) == Literal(UnixLines(t), rest)
    decreases |t|
  {
    var s := EscapeEach(t) + ")" + rest;
    if t == [] {
      assert s[1..] == rest;
    } else if t[0] == '\\' || t[0] == '(' || t[0] == ')' {
      assert s[0] == '\\' && s[1] == t[0];
      assert s[2..] == EscapeEach(t[1..]) + ")" + rest;
      EscapedReadsBack(t[1..], rest);
    } else if t[0] == '\r' && |t| > 1 && t[1] == '\n' {
      assert EscapeEach(t) == ['\r'] + EscapeEach(t[1..]);
      assert EscapeEach(t[1..]) == ['\n'] + EscapeEach(t[1..][1..]);
      assert t[1..][1..] == t[2..];
      assert s[0] == '\r' && s[1] == '\n';
      assert s[2..] == EscapeEach(t[2..]) + ")" + rest;
      EscapedReadsBack(t[2..], rest);
    } else {
      assert s[0] == t[0];
      assert s[1..] == EscapeEach(t[1..]) + ")" + rest;
      if t[0] == '\r' {
      }
      EscapedReadsBack(t[1..], rest);
    }
  }

  lemma {:induction false} UnixLinesHasNoCR(t: string)
    ensures '\r' !in UnixLines(t)
    ensures UnixLines(t) == t <==> '\r' !in t
    decreases |t|
  {
    if t != [] {
      if t[0] == '\r' {
        UnixLinesHasNoCR(if |t| > 1 && t[1] == '\n' then t[2..] else t[1..]);
        assert UnixLines(t)[0] == '\n';
        assert '\r' in t;
      } else {
        UnixLinesHasNoCR(t[1..]);
        assert t == [t[0]] + t[1..];
        if UnixLines(t) == t {
          assert UnixLines(t)[1..] == UnixLines(t[1..]);
        }
      }
    }
  }

  /** A line shown in the report reads back unchanged exactly when it has no carriage return. */
  lemma EscapeRoundTrip(line: string, rest: string)
    ensures ReadLiteral(Escape(line) + ")" + rest, 0) == Literal(line, rest) <==> '\r' !in line
  {
    EscapeIsACharacterMap(line);
    EscapedReadsBack(line, rest);
    UnixLinesHasNoCR(line);
  }

  // ---- Wrapping --------------------------------------------------------------------------

  /** Python's str.isspace for one character. */
  predicate IsSpace(c: char) {
    var n := c as int;
    9 <= n <= 13 || 28 <= n <= 32 || n == 0x85 || n == 0xA0 || n == 0x1680 ||
    0x2000 <= n <= 0x200A || n == 0x2028 || n == 0x2029 || n == 0x202F || n == 0x205F || n == 0x3000
  }

  function LStrip(s: string): (r: string)
    ensures |r| <= |s|
  {
    if s != [] && IsSpace(s[0]) then LStrip(s[1..]) else s
  }

  function RStripNewlines(s: string): string {
    if s != [] && s[|s| - 1] == '\n' then RStripNewlines(s[..|s| - 1]) else s
  }

  /** Index of the last space of s, or -1. */
  function LastSpace(s: string): (i: int)
    ensures -1 <= i < |s|
    ensures i >= 0 ==> s[i] == ' '
    ensures forall j :: i < j < |s| ==> s[j] != ' '
  {
    if s == [] then -1
    else if s[|s| - 1] == ' ' then |s| - 1
    else LastSpace(s[..|s| - 1])
  }

  function Cut(line: string, width: nat): (c: nat)
    requires 0 < width < |line|
    ensures 0 < c <= width
    ensures c < width ==> line[c] == ' '
  {
    var i := LastSpace(line[..width]);
    if i <= 0 then width else i
  }

  function Prepared(line: string): string {
    RStripNewlines(Replace(line, '\t', "    "))
  }

  function Wrapped(line: string, width: nat): (out: seq<string>)
    requires width > 0
    ensures out != []
    ensures forall k :: 0 <= k < |out| ==> |out[k]| <= width
    decreases |line|
  {
    if |line| <= width then [line]
    else [line[..Cut(line, width)]] + Wrapped(LStrip(line[Cut(line, width)..]), width)
  }

  function WrapSpec(line: string, width: nat): (out: seq<string>)
    requires width > 0
    ensures out != []
    ensures forall k :: 0 <= k < |out| ==> |out[k]| <= width
  {
    if Prepared(line) == "" then [""] else Wrapped(Prepared(line), width)
  }

  method Wrap(raw: string, width: nat) returns (out: seq<string>)
    requires width > 0
    ensures out == WrapSpec(raw, width)
  {
    var line := Prepared(raw);
    if line == "" {
      return [""];
    }
    out := [];
    ghost var all := line;
    while |line| > width
      invariant out + Wrapped(line, width) == Wrapped(all, width)
      decreases |line|
    {
      var cut := LastSpace(line[..width]);
      if cut <= 0 {
        cut := width;
      }
      assert cut == Cut(line, width);
      assert out + Wrapped(line, width) == out + [line[..cut]] + Wrapped(LStrip(line[cut..]), width);
      out := out + [line[..cut]];
      line := LStrip(line[cut..]);
    }
    out := out + [line];
  }

  // ---- Pagination ------------------------------------------------------------------------

  function SplitLines(text: string): (lines: seq<string>)
    ensures lines != []
  {
    if text == [] then [""]
    else
      var rest := SplitLines(text[1..]);
      if text[0] == '\n' then [""] + rest else [[text[0]] + rest[0]] + rest[1..]
  }

  function WrapAll(raws: seq<string>): (out: seq<string>)
    ensures raws != [] ==> out != []
    ensures forall k :: 0 <= k < |out| ==> |out[k]| <= MAX_CHARS
  {
    if raws == [] then [] else WrapSpec(raws[0], MAX_CHARS) + WrapAll(raws[1..])
  }

  function Chunks(lines: seq<string>, size: nat): (pages: seq<seq<string>>)
    requires size > 0
    ensures lines != [] ==> pages != []
    ensures forall p :: 0 <= p < |pages| ==> 0 < |pages[p]| <= size
    ensures forall p :: 0 <= p < |pages| - 1 ==> |pages[p]| == size
  {
    if lines == [] then []
    else if |lines| <= size then [lines]
    else [lines[..size]] + Chunks(lines[size..], size)
  }

  function Pages(text: string): (pages: seq<seq<string>>)
    ensures pages != []
    ensures forall p :: 0 <= p < |pages| ==> 0 < |pages[p]| <= LINES_PER_PAGE
    ensures forall p :: 0 <= p < |pages| - 1 ==> |pages[p]| == LINES_PER_PAGE
  {
    Chunks(WrapAll(SplitLines(text)), LINES_PER_PAGE)
  }

  lemma {:induction false} WrapAllAppend(a: seq<string>, b: seq<string>)
    ensures WrapAll(a + b) == WrapAll(a) + WrapAll(b)
    decreases |a|
  {
    if a == [] {
      assert a + b == b;
    } else {
      assert (a + b)[1..] == a[1..] + b;
      WrapAllAppend(a[1..], b);
    }
  }

  function MinLen(a: nat, b: nat): nat { if a <= b then a else b }

  lemma WrapOneMore(raws: seq<string>, r: nat)
    requires r < |raws|
    ensures WrapAll(raws[..r + 1]) == WrapAll(raws[..r]) + WrapSpec(raws[r], MAX_CHARS)
  {
    assert raws[..r + 1] == raws[..r] + [raws[r]];
    WrapAllAppend(raws[..r], [raws[r]]);
    assert WrapAll([raws[r]]) == WrapSpec(raws[r], MAX_CHARS) + WrapAll([]);
  }

  lemma NextChunk(lines: seq<string>, i: nat, size: nat)
    requires size > 0 && i < |lines|
    ensures var upto := MinLen(i + size, |lines|);
            Chunks(lines[i..], size) == [lines[i..upto]] + Chunks(lines[upto..], size)
  {
    var upto := MinLen(i + size, |lines|);
    var rest := lines[i..];
    assert lines[i..upto] == rest[..upto - i];
    assert lines[upto..] == rest[upto - i..];
    if |rest| <= size {
      assert rest == lines[i..upto] && lines[upto..] == [];
    }
  }

  /** All lines of the text, wrapped. */
  method WrapText(text: string) returns (wrapped: seq<string>)
    ensures wrapped == WrapAll(SplitLines(text))
  {
    wrapped := [];
    var raws := SplitLines(text);
    for r := 0 to |raws|
      invariant wrapped == WrapAll(raws[..r])
    {
      var lines := Wrap(raws[r], MAX_CHARS);
      wrapped := wrapped + lines;
      WrapOneMore(raws, r);
    }
    assert raws[..|raws|] == raws;
  }

  /** The lines in pages of `size`. */
  method SplitPages(lines: seq<string>, size: nat) returns (pages: seq<seq<string>>)
    requires size > 0
    ensures pages == Chunks(lines, size)
  {
    pages := [];
    var i := 0;
    while i < |lines|
      invariant pages + Chunks(lines[MinLen(i, |lines|)..], size) == Chunks(lines, size)
    {
      var page := lines[i..MinLen(i + size, |lines|)];
      NextChunk(lines, i, size);
      Regroup(pages, page, Chunks(lines[MinLen(i + size, |lines|)..], size));
      pages := pages + [page];
      i := i + size;
    }
    assert lines[|lines|..] == [];
  }

  lemma Regroup(pages: seq<seq<string>>, page: seq<string>, rest: seq<seq<string>>)
    ensures pages + ([page] + rest) == (pages + [page]) + rest
  {
  }

  method Paginate(text: string) returns (pages: seq<seq<string>>)
    ensures pages == Pages(text)
  {
    var wrapped := WrapText(text);
    pages := SplitPages(wrapped, LINES_PER_PAGE);
    if pages == [] {
      assert false;
      pages := [[""]];
    }
  }

  // ---- Nothing but white space is lost ------------------------------------------------------

  /** The characters that leave ink: the text without white space. */
  function Ink(s: string): string {
    if s == [] then [] else (if IsSpace(s[0]) then [] else [s[0]]) + Ink(s[1..])
  }

  function InkOfLines(lines: seq<string>): string {
    if lines == [] then [] else Ink(lines[0]) + InkOfLines(lines[1..])
  }

  function InkOfPages(pages: seq<seq<string>>): string {
    if pages == [] then [] else InkOfLines(pages[0]) + InkOfPages(pages[1..])
  }

  lemma {:induction false} InkAppend(a: string, b: string)
    ensures Ink(a + b) == Ink(a) + Ink(b)
    decreases |a|
  {
    if a == [] {
      assert a + b == b;
    } else {
      assert (a + b)[1..] == a[1..] + b;
      InkAppend(a[1..], b);
    }
  }

  lemma InkOfOne(c: char)
    ensures Ink([c]) == if IsSpace(c) then [] else [c]
  {
    assert [c][1..] == [];
  }

  lemma {:induction false} InkOfLStrip(s: string)
    ensures Ink(LStrip(s)) == Ink(s)
    decreases |s|
  {
    if s != [] && IsSpace(s[0]) {
      InkOfLStrip(s[1..]);
    }
  }

  lemma {:induction false} InkOfRStrip(s: string)
    ensures Ink(RStripNewlines(s)) == Ink(s)
    decreases |s|
  {
    if s != [] && s[|s| - 1] == '\n' {
      InkOfRStrip(s[..|s| - 1]);
      assert s == s[..|s| - 1] + ['\n'];
      InkAppend(s[..|s| - 1], ['\n']);
      InkOfOne('\n');
    }
  }

  lemma {:induction false} InkOfDetab(s: string)
    ensures Ink(Replace(s, '\t', "    ")) == Ink(s)
    decreases |s|
  {
    if s != [] {
      InkOfDetab(s[1..]);
      InkAppend(if s[0] == '\t' then "    " else [s[0]], Replace(s[1..], '\t', "    "));
      assert Ink("    ") == [];
      InkOfOne(s[0]);
    }
  }

  lemma {:induction false} InkOfWrapped(line: string, width: nat)
    requires width > 0
    ensures InkOfLines(Wrapped(line, width)) == Ink(line)
    decreases |line|
  {
    if |line| <= width {
      assert InkOfLines([line]) == Ink(line);
    } else {
      var cut := Cut(line, width);
      assert line == line[..cut] + line[cut..];
      InkAppend(line[..cut], line[cut..]);
      InkOfLStrip(line[cut..]);
      InkOfWrapped(LStrip(line[cut..]), width);
    }
  }

  lemma InkOfWrapSpec(line: string, width: nat)
    requires width > 0
    ensures InkOfLines(WrapSpec(line, width)) == Ink(line)
  {
    InkOfDetab(line);
    InkOfRStrip(Replace(line, '\t', "    "));
    if Prepared(line) == "" {
      assert Ink("") == "";
      assert InkOfLines([""]) == "";
    } else {
      InkOfWrapped(Prepared(line), width);
    }
  }

  lemma {:induction false} InkOfLinesAppend(a: seq<string>, b: seq<string>)
    ensures InkOfLines(a + b) == InkOfLines(a) + InkOfLines(b)
    decreases |a|
  {
    if a == [] {
      assert a + b == b;
    } else {
      assert (a + b)[1..] == a[1..] + b;
      InkOfLinesAppend(a[1..], b);
    }
  }

  lemma {:induction false} InkOfWrapAll(raws: seq<string>)
    ensures InkOfLines(WrapAll(raws)) == InkOfLines(raws)
    decreases |raws|
  {
    if raws != [] {
      InkOfWrapSpec(raws[0], MAX_CHARS);
      InkOfWrapAll(raws[1..]);
      InkOfLinesAppend(WrapSpec(raws[0], MAX_CHARS), WrapAll(raws[1..]));
    }
  }

  lemma InkOfLonger(c: char, first: string, rest: seq<string>)
    ensures InkOfLines([[c] + first] + rest) == Ink([c]) + InkOfLines([first] + rest)
  {
    InkOfLinesAppend([[c] + first], rest);
    InkOfOneLine([c] + first);
    InkAppend([c], first);
    InkOfLinesAppend([first], rest);
    InkOfOneLine(first);
  }

  lemma InkOfOneLine(line: string)
    ensures InkOfLines([line]) == Ink(line)
  {
    assert [line][1..] == [];
  }

  lemma {:induction false} InkOfSplit(text: string)
    ensures InkOfLines(SplitLines(text)) == Ink(text)
    decreases |text|
  {
    if text == [] {
      assert InkOfLines([""]) == Ink("");
    } else {
      InkOfSplit(text[1..]);
      var c, rest := text[0], SplitLines(text[1..]);
      assert text == [c] + text[1..];
      InkAppend([c], text[1..]);
      if c == '\n' {
        InkOfLinesAppend([""], rest);
        InkOfOne(c);
      } else {
        InkOfLonger(c, rest[0], rest[1..]);
        assert [rest[0]] + rest[1..] == rest;
      }
    }
  }

  lemma {:induction false} InkOfChunks(lines: seq<string>, size: nat)
    requires size > 0
    ensures InkOfPages(Chunks(lines, size)) == InkOfLines(lines)
    decreases |lines|
  {
    if lines == [] {
    } else if |lines| <= size {
      assert InkOfPages([lines]) == InkOfLines(lines) + InkOfPages([]);
    } else {
      InkOfChunks(lines[size..], size);
      assert lines == lines[..size] + lines[size..];
      InkOfLinesAppend(lines[..size], lines[size..]);
    }
  }

  /** Laying a text out loses and reorders nothing but white space. */
  lemma LayoutPreservesInk(text: string)
    ensures InkOfPages(Pages(text)) == Ink(text)
  {
    InkOfSplit(text);
    InkOfWrapAll(SplitLines(text));
    InkOfChunks(WrapAll(SplitLines(text)), LINES_PER_PAGE);
  }

  /** The page box holds it: no line is wider and no page longer than the layout allows. */
  lemma LayoutFits(text: string)
    ensures forall p, k :: 0 <= p < |Pages(text)| && 0 <= k < |Pages(text)[p]| ==>
      |Pages(text)[p][k]| <= 95
    ensures forall p :: 0 <= p < |Pages(text)| ==> |Pages(text)[p]| <= 57
  {
    ChunkLines(WrapAll(SplitLines(text)), LINES_PER_PAGE);
    var lines := WrapAll(SplitLines(text));
    forall p, k | 0 <= p < |Pages(text)| && 0 <= k < |Pages(text)[p]|
      ensures |Pages(text)[p][k]| <= 95
    {
      assert Pages(text)[p][k] in lines;
    }
  }

  lemma {:induction false} ChunkLines(lines: seq<string>, size: nat)
    requires size > 0
    ensures forall p, k :: 0 <= p < |Chunks(lines, size)| && 0 <= k < |Chunks(lines, size)[p]| ==>
      Chunks(lines, size)[p][k] in lines
    decreases |lines|
  {
    if |lines| > size {
      ChunkLines(lines[size..], size);
    }
  }

  /** Every character drawn comes from the source, or is a space from an expanded tab. */
  predicate Drawn(lines: seq<string>, source: string) {
    forall k, c :: 0 <= k < |lines| && c in lines[k] ==> c in source || c == ' '
  }

  lemma {:induction false} DrawnByReplace(s: string)
    ensures forall c :: c in Replace(s, '\t', "    ") ==> c in s || c == ' '
    decreases |s|
  {
    if s != [] {
      DrawnByReplace(s[1..]);
      forall c | c in Replace(s, '\t', "    ")
        ensures c in s || c == ' '
      {
        if c in Replace(s[1..], '\t', "    ") {
          assert c in s[1..] ==> c in s;
        } else if s[0] != '\t' {
          assert c == s[0];
        }
      }
    }
  }

  lemma {:induction false} DrawnByRStrip(s: string)
    ensures forall c :: c in RStripNewlines(s) ==> c in s
    decreases |s|
  {
    if s != [] && s[|s| - 1] == '\n' {
      DrawnByRStrip(s[..|s| - 1]);
    }
  }

  lemma {:induction false} DrawnByLStrip(s: string)
    ensures forall c :: c in LStrip(s) ==> c in s
    decreases |s|
  {
    if s != [] && IsSpace(s[0]) {
      DrawnByLStrip(s[1..]);
    }
  }

  lemma {:induction false} DrawnByWrapped(line: string, width: nat)
    requires width > 0
    ensures Drawn(Wrapped(line, width), line)
    decreases |line|
  {
    if |line| > width {
      var first, rest := line[..Cut(line, width)], line[Cut(line, width)..];
      DrawnByLStrip(rest);
      DrawnByWrapped(LStrip(rest), width);
      DrawnByMore(first, Wrapped(LStrip(rest), width), LStrip(rest), rest, line);
    }
  }

  lemma DrawnByMore(first: string, out: seq<string>, more: string, rest: string, line: string)
    requires line == first + rest && Drawn(out, more) && forall c :: c in more ==> c in rest
    ensures Drawn([first] + out, line)
  {
    forall k, c | 0 <= k < |[first] + out| && c in ([first] + out)[k]
      ensures c in line || c == ' '
    {
      if k > 0 {
        assert c in out[k - 1];
      }
    }
  }

  lemma DrawnByWrapSpec(line: string)
    ensures Drawn(WrapSpec(line, MAX_CHARS), line)
  {
    DrawnByReplace(line);
    DrawnByRStrip(Replace(line, '\t', "    "));
    DrawnByWrapped(Prepared(line), MAX_CHARS);
  }

  lemma {:induction false} DrawnByWrapAll(raws: seq<string>, source: string)
    requires Drawn(raws, source)
    ensures Drawn(WrapAll(raws), source)
    decreases |raws|
  {
    if raws != [] {
      DrawnByWrapSpec(raws[0]);
      DrawnByWrapAll(raws[1..], source);
    }
  }

  lemma {:induction false} DrawnBySplit(text: string)
    ensures Drawn(SplitLines(text), text)
    decreases |text|
  {
    if text != [] {
      DrawnBySplit(text[1..]);
      var rest, lines := SplitLines(text[1..]), SplitLines(text);
      assert forall d :: d in text[1..] ==> d in text;
      forall k, c | 0 <= k < |lines| && c in lines[k]
        ensures c in text || c == ' '
      {
        if text[0] == '\n' {
          assert k > 0 && c in rest[k - 1];
        } else if k > 0 {
          assert lines[k] == rest[k];
        } else {
          assert c == text[0] || c in rest[0];
        }
      }
    }
  }

  lemma DrawnByPages(text: string)
    ensures forall p :: 0 <= p < |Pages(text)| ==> Drawn(Pages(text)[p], text)
  {
    DrawnBySplit(text);
    DrawnByWrapAll(SplitLines(text), text);
    ChunkLines(WrapAll(SplitLines(text)), LINES_PER_PAGE);
    forall p | 0 <= p < |Pages(text)|
      ensures Drawn(Pages(text)[p], text)
    {
      forall k, c | 0 <= k < |Pages(text)[p]| && c in Pages(text)[p][k]
        ensures c in text || c == ' '
      {
        assert Pages(text)[p][k] in WrapAll(SplitLines(text));
      }
    }
  }
}
