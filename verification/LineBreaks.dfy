/** Where the layout of the PDF report breaks lines, told from the text and the lines alone. */
module LineBreaks {
  import opened PdfText

  /** White space by its code points. */
  lemma SpacesExactly(c: char)
    ensures IsSpace(c) <==>
            c in {'\t', '\n', '\U{B}', '\U{C}', '\r', '\U{1C}', '\U{1D}', '\U{1E}', '\U{1F}', ' ', '\U{85}', '\U{A0}',
                  '\U{1680}', '\U{2000}', '\U{2001}', '\U{2002}', '\U{2003}', '\U{2004}', '\U{2005}', '\U{2006}', '\U{2007}',
                  '\U{2008}', '\U{2009}', '\U{200A}', '\U{2028}', '\U{2029}', '\U{202F}', '\U{205F}', '\U{3000}'}
  {
  }

  // ---- The prepared line ------------------------------------------------------------------------

  lemma {:induction false} NoTabsNoChange(s: string)
    requires '\t' !in s
    ensures Replace(s, '\t', "    ") == s
    decreases |s|
  {
    if s != "" {
      NoTabsNoChange(s[1..]);
    }
  }

  /** A tab becomes four spaces; text without tabs stays, up to the line feeds at its end. */
  lemma TabIsFourSpaces(a: string, b: string)
    requires '\t' !in a
    ensures Replace(a + "\t" + b, '\t', "    ") == a + "    " + Replace(b, '\t', "    ")
  {
    NoTabsNoChange(a);
    ReplaceAppend(a + "\t", b, '\t', "    ");
    ReplaceAppend(a, "\t", '\t', "    ");
    ReplaceOne('\t', '\t', "    ");
  }

  predicate LineFeeds(s: string) { forall i :: 0 <= i < |s| ==> s[i] == '\n' }

  lemma {:induction false} StrippedExactly(s: string)
    ensures RStripNewlines(s) <= s && LineFeeds(s[|RStripNewlines(s)|..])
    ensures RStripNewlines(s) == "" || RStripNewlines(s)[|RStripNewlines(s)| - 1] != '\n'
    decreases |s|
  {
    if s != "" && s[|s| - 1] == '\n' {
      StrippedExactly(s[..|s| - 1]);
    }
  }

  // ---- The breaks -----------------------------------------------------------------------------------

  /** An output line of n characters that starts at s, where more than `width` are left, and the next
   *  one at `next`: cut before the last space that leaves a line, or else at the full width; only
   *  white space lies between the two. */
  predicate BreaksAt(line: string, width: nat, s: nat, n: nat, next: nat) {
    s + width < |line| && 0 < n <= width && s + n <= next <= |line| &&
    (n < width ==> line[s + n] == ' ' && forall p :: s + n < p < s + width ==> line[p] != ' ') &&
    (n == width ==> forall p :: s < p < s + width ==> line[p] != ' ') &&
    (forall p :: s + n <= p < next ==> IsSpace(line[p])) && (next < |line| ==> !IsSpace(line[next]))
  }

  predicate StandsAt(line: string, s: nat, piece: string) { s + |piece| <= |line| && piece == line[s..s + |piece|] }

  /** The output lines are pieces of the line, in order, broken this way; the last one is the rest. */
  ghost predicate Broken(line: string, width: nat, out: seq<string>, starts: seq<nat>) {
    |starts| == |out| > 0 && starts[0] == 0 &&
    (forall k :: 0 <= k < |out| ==> StandsAt(line, starts[k], out[k])) &&
    (forall k :: 0 <= k < |out| - 1 ==> BreaksAt(line, width, starts[k], |out[k]|, starts[k + 1])) &&
    starts[|out| - 1] + |out[|out| - 1]| == |line| && |out[|out| - 1]| <= width
  }

  lemma {:induction false} LStripSkips(s: string) returns (n: nat)
    ensures n <= |s| && LStrip(s) == s[n..]
    ensures (forall p :: 0 <= p < n ==> IsSpace(s[p])) && (n < |s| ==> !IsSpace(s[n]))
    decreases |s|
  {
    n := 0;
    if s != "" && IsSpace(s[0]) {
      n := LStripSkips(s[1..]);
      assert forall p :: 1 <= p < |s| ==> s[p] == s[1..][p - 1];
      n := n + 1;
    }
  }

  lemma FirstBreak(line: string, width: nat) returns (next: nat)
    requires 0 < width < |line|
    ensures BreaksAt(line, width, 0, Cut(line, width), next) && LStrip(line[Cut(line, width)..]) == line[next..]
  {
    next := GapAfter(line, Cut(line, width));
    CutIsGreedy(line, width);
  }

  lemma GapAfter(line: string, n: nat) returns (next: nat)
    requires n <= |line|
    ensures n <= next <= |line| && LStrip(line[n..]) == line[next..]
    ensures (forall p :: n <= p < next ==> IsSpace(line[p])) && (next < |line| ==> !IsSpace(line[next]))
  {
    var skipped := LStripSkips(line[n..]);
    next := n + skipped;
    assert forall p :: n <= p < |line| ==> line[p] == line[n..][p - n];
  }

  lemma CutIsGreedy(line: string, width: nat)
    requires 0 < width < |line|
    ensures var n := Cut(line, width);
            (n < width ==> line[n] == ' ') && forall p :: (if n < width then n else 0) < p < width ==> line[p] != ' '
  {
    assert forall p :: 0 <= p < width ==> line[p] == line[..width][p];
  }

  lemma BreakLater(line: string, width: nat, s: nat, n: nat, next: nat, off: nat)
    requires off <= |line| && BreaksAt(line[off..], width, s, n, next)
    ensures BreaksAt(line, width, off + s, n, off + next)
  {
    var rest := line[off..];
    assert forall p :: 0 <= p < |rest| ==> rest[p] == line[off + p];
    forall p | off + s <= p < |line|
      ensures line[p] == rest[p - off]
    {
    }
  }

  function Shifted(starts: seq<nat>, off: nat): (r: seq<nat>)
    ensures |r| == |starts| + 1 && r[0] == 0 && forall k :: 0 <= k < |starts| ==> r[k + 1] == off + starts[k]
  {
    [0] + seq(|starts|, k requires 0 <= k < |starts| => off + starts[k])
  }

  lemma BrokenLater(line: string, width: nat, first: string, rest: seq<string>, next: nat, starts: seq<nat>)
    requires next <= |line| && Broken(line[next..], width, rest, starts)
    requires StandsAt(line, 0, first) && BreaksAt(line, width, 0, |first|, next)
    ensures Broken(line, width, [first] + rest, Shifted(starts, next))
  {
    var out, all := [first] + rest, Shifted(starts, next);
    forall k | 0 <= k < |out| - 1
      ensures BreaksAt(line, width, all[k], |out[k]|, all[k + 1])
    {
      LongerBreaks(line, width, first, rest, next, starts, out, all, k);
    }
    forall k | 0 <= k < |out|
      ensures StandsAt(line, all[k], out[k])
    {
      LongerStands(line, width, first, rest, next, starts, out, all, k);
    }
    assert out[|out| - 1] == rest[|rest| - 1] && all[|out| - 1] == next + starts[|rest| - 1];
  }

  lemma LongerBreaks(line: string, width: nat, first: string, rest: seq<string>, next: nat, starts: seq<nat>,
                     out: seq<string>, all: seq<nat>, k: nat)
    requires next <= |line| && Broken(line[next..], width, rest, starts) && BreaksAt(line, width, 0, |first|, next)
    requires out == [first] + rest && all == Shifted(starts, next) && k < |out| - 1
    ensures BreaksAt(line, width, all[k], |out[k]|, all[k + 1])
  {
    if k > 0 {
      BreakLater(line, width, starts[k - 1], |rest[k - 1]|, starts[k], next);
    }
  }

  lemma LongerStands(line: string, width: nat, first: string, rest: seq<string>, next: nat, starts: seq<nat>,
                     out: seq<string>, all: seq<nat>, k: nat)
    requires next <= |line| && Broken(line[next..], width, rest, starts) && StandsAt(line, 0, first)
    requires out == [first] + rest && all == Shifted(starts, next) && k < |out|
    ensures StandsAt(line, all[k], out[k])
  {
    if k > 0 {
      PieceLater(line, next, starts[k - 1], rest[k - 1]);
    }
  }

  lemma PieceLater(line: string, next: nat, s: nat, piece: string)
    requires next <= |line| && StandsAt(line[next..], s, piece)
    ensures StandsAt(line, next + s, piece)
  {
  }

  /** Wrapping breaks lines this way. */
  lemma {:induction false} WrappedIsBroken(line: string, width: nat) returns (starts: seq<nat>)
    requires width > 0
    ensures Broken(line, width, Wrapped(line, width), starts)
    decreases |line|
  {
    if |line| <= width {
      starts := [0];
    } else {
      var n := Cut(line, width);
      var next := FirstBreak(line, width);
      starts := WrappedIsBroken(line[next..], width);
      BrokenLater(line, width, line[..n], Wrapped(line[next..], width), next, starts);
      starts := Shifted(starts, next);
    }
  }

  /** The breaks determine the lines: whatever is broken this way is what wrapping gives. */
  lemma {:induction false} BrokenOneWay(line: string, width: nat, out: seq<string>, starts: seq<nat>, more: seq<string>, others: seq<nat>, k: nat)
    requires Broken(line, width, out, starts) && Broken(line, width, more, others) && k < |out|
    ensures k < |more| && others[k] == starts[k] && more[k] == out[k]
    decreases k
  {
    if k > 0 {
      BrokenOneWay(line, width, out, starts, more, others, k - 1);
      assert BreaksAt(line, width, starts[k - 1], |out[k - 1]|, starts[k]);
      if k - 1 < |more| - 1 {
        assert BreaksAt(line, width, others[k - 1], |more[k - 1]|, others[k]);
      }
    }
    if k < |out| - 1 {
      assert BreaksAt(line, width, starts[k], |out[k]|, starts[k + 1]);
    }
    if k < |more| - 1 {
      assert BreaksAt(line, width, others[k], |more[k]|, others[k + 1]);
    }
  }

  /** Two ways of breaking a line by these rules are the same. */
  lemma BreaksDetermine(line: string, width: nat, out: seq<string>, starts: seq<nat>, more: seq<string>, others: seq<nat>)
    requires Broken(line, width, out, starts) && Broken(line, width, more, others)
    ensures out == more && starts == others
  {
    BrokenOneWay(line, width, out, starts, more, others, |out| - 1);
    BrokenOneWay(line, width, more, others, out, starts, |more| - 1);
    forall k | 0 <= k < |out|
      ensures more[k] == out[k] && others[k] == starts[k]
    {
      BrokenOneWay(line, width, out, starts, more, others, k);
    }
  }

  // ---- Words ------------------------------------------------------------------------------------------

  /** A longest run of characters that are no white space. */
  predicate Word(line: string, i: nat, j: nat) {
    i < j <= |line| && (forall p :: i <= p < j ==> !IsSpace(line[p])) &&
    (i > 0 ==> IsSpace(line[i - 1])) && (j < |line| ==> IsSpace(line[j]))
  }

  predicate OnlySpaces(line: string) { forall p :: 0 <= p < |line| && IsSpace(line[p]) ==> line[p] == ' ' }

  lemma {:induction false} LineOf(line: string, width: nat, out: seq<string>, starts: seq<nat>, i: nat, from: nat) returns (k: nat)
    requires Broken(line, width, out, starts) && i < |line| && !IsSpace(line[i]) && from < |out| && starts[from] <= i
    ensures k < |out| && starts[k] <= i < starts[k] + |out[k]|
    decreases |out| - from
  {
    k := from;
    if starts[k] + |out[k]| <= i {
      assert BreaksAt(line, width, starts[k], |out[k]|, starts[k + 1]);
      k := LineOf(line, width, out, starts, i, k + 1);
    }
  }

  /** The word lies whole inside one output line. */
  ghost predicate Whole(line: string, width: nat, out: seq<string>, i: nat, j: nat) {
    exists starts, k :: Broken(line, width, out, starts) && 0 <= k < |out| && starts[k] <= i && j <= starts[k] + |out[k]|
  }

  /** Words of fewer characters than a line holds are never torn, if spaces are the only white space. */
  lemma WordsStayWhole(raw: string, width: nat, i: nat, j: nat)
    requires width > 0 && Word(Prepared(raw), i, j) && j - i < width && OnlySpaces(Prepared(raw))
    ensures Whole(Prepared(raw), width, WrapSpec(raw, width), i, j)
  {
    var line, out := Prepared(raw), WrapSpec(raw, width);
    var starts := WrappedIsBroken(line, width);
    var k := LineOf(line, width, out, starts, i, 0);
    if k < |out| - 1 {
      NotTorn(line, width, starts[k], |out[k]|, starts[k + 1], i, j);
    }
  }

  lemma NotTorn(line: string, width: nat, s: nat, n: nat, next: nat, i: nat, j: nat)
    requires BreaksAt(line, width, s, n, next) && Word(line, i, j) && j - i < width && OnlySpaces(line)
    requires s <= i < s + n
    ensures j <= s + n
  {
    assert IsSpace(' ');
    if i > s + 1 {
      assert IsSpace(line[i - 1]);
    }
  }

  lemma PlainIsPrepared(line: string)
    requires '\t' !in line && line != "" && line[|line| - 1] != '\n'
    ensures Prepared(line) == line
  {
    NoTabsNoChange(line);
    StrippedExactly(line);
  }

  /** One character more and it may be torn: after a leading space there is no room for the word. */
  lemma FullWordIsTorn(line: string, width: nat)
    requires width > 1 && |line| == width + 1 && line[0] == ' ' && forall p :: 1 <= p < |line| ==> line[p] == 'x'
    ensures Prepared(line) == line && Word(line, 1, width + 1) && OnlySpaces(line)
    ensures !Whole(line, width, WrapSpec(line, width), 1, width + 1)
  {
    PlainIsPrepared(line);
    assert IsSpace(' ') && !IsSpace('x');
    forall starts, k: nat | Broken(line, width, WrapSpec(line, width), starts) && k < |WrapSpec(line, width)|
      ensures !(starts[k] <= 1 && width + 1 <= starts[k] + |WrapSpec(line, width)[k]|)
    {
      BreaksWithin(line, width, WrapSpec(line, width), starts, k);
    }
  }

  lemma BreaksWithin(line: string, width: nat, out: seq<string>, starts: seq<nat>, k: nat)
    requires Broken(line, width, out, starts) && k < |out| && |line| == width + 1 && width > 1
    requires line[0] == ' ' && forall p :: 1 <= p < |line| ==> line[p] == 'x'
    ensures !(starts[k] <= 1 && width + 1 <= starts[k] + |out[k]|)
  {
    assert !IsSpace('x');
    if |out| > 1 {
      assert BreaksAt(line, width, starts[0], |out[0]|, starts[1]);
      assert starts[1] >= width;
    }
    if k > 0 {
      StartsGrow(line, width, out, starts, k);
    }
  }

  lemma {:induction false} StartsGrow(line: string, width: nat, out: seq<string>, starts: seq<nat>, k: nat)
    requires Broken(line, width, out, starts) && 1 <= k < |out|
    ensures starts[k] >= starts[1]
    decreases k
  {
    if k > 1 {
      assert BreaksAt(line, width, starts[k - 1], |out[k - 1]|, starts[k]);
      StartsGrow(line, width, out, starts, k - 1);
    }
  }

  // ---- Lines and pages ------------------------------------------------------------------------------

  function JoinLines(lines: seq<string>): string {
    if lines == [] then "" else if |lines| == 1 then lines[0] else lines[0] + "\n" + JoinLines(lines[1..])
  }

  /** Splitting at line feeds loses nothing else and leaves none. */
  lemma {:induction false} SplitExactly(text: string)
    ensures JoinLines(SplitLines(text)) == text
    ensures forall k :: 0 <= k < |SplitLines(text)| ==> '\n' !in SplitLines(text)[k]
    decreases |text|
  {
    if text != "" {
      var rest := SplitLines(text[1..]);
      SplitExactly(text[1..]);
      if text[0] == '\n' {
        assert ([""] + rest)[1..] == rest;
      } else {
        var lines := [[text[0]] + rest[0]] + rest[1..];
        assert lines[1..] == rest[1..];
      }
    }
  }

  function Flat(pages: seq<seq<string>>): seq<string> { if pages == [] then [] else pages[0] + Flat(pages[1..]) }

  /** The pages hold all lines in order, and every page but the last is full. */
  lemma {:induction false} ChunksExactly(lines: seq<string>, size: nat)
    requires size > 0
    ensures Flat(Chunks(lines, size)) == lines
    ensures forall p :: 0 <= p < |Chunks(lines, size)| - 1 ==> |Chunks(lines, size)[p]| == size
    ensures forall p :: 0 <= p < |Chunks(lines, size)| ==> 0 < |Chunks(lines, size)[p]| <= size
    decreases |lines|
  {
    if |lines| > size {
      ChunksExactly(lines[size..], size);
      assert lines == lines[..size] + lines[size..];
    } else if lines != [] {
      assert Flat([lines]) == lines + Flat([]);
    }
  }

  /** All lines of a text, wrapped, are its pages laid end to end; a page holds 57. */
  lemma PagesExactly(text: string)
    ensures Flat(Pages(text)) == WrapAll(SplitLines(text))
    ensures forall p :: 0 <= p < |Pages(text)| - 1 ==> |Pages(text)[p]| == 57
  {
    ChunksExactly(WrapAll(SplitLines(text)), LINES_PER_PAGE);
  }
}
