/** The report as a PDF: one content stream and one page object per page, and a reader that
 *  finds the shown lines again through the catalog, the page tree and the stream lengths.
 */
module PdfReport {
  import opened Prelude
  import opened Decimal
  import opened PdfText
  import opened PdfContainer

  type Page = seq<string>

  const CATALOG_HEAD := "<< /Type /Catalog /Pages "
  const REF_END := " 0 R >>"
  const CATALOG := CATALOG_HEAD + Dec(2) + REF_END
  const FONT := "<< /Type /Font /Subtype /Type1 /BaseFont /Helvetica >>"
  const PAGES_HEAD := "<< /Type /Pages /Count "
  const KIDS := " /Kids ["
  const KIDS_END := "] >>"
  const PAGE_HEAD :=
    "<< /Type /Page /Parent 2 0 R /MediaBox [0 0 " + Dec(PAGE_W) + " " + Dec(PAGE_H) +
    "] /Resources << /Font << /F1 3 0 R >> >> /Contents "
  const LENGTH := "<< /Length "
  const STREAM := " >>\nstream\n"
  const END_STREAM := "\nendstream"
  const REF := " 0 R"
  const SHOW := ") Tj"
  const NEXT_LINE := "T* ("
  const BEGIN_TEXT: seq<string> :=
    ["BT", "/F1 " + Dec(FONT_SIZE) + " Tf", Dec(LEADING) + " TL",
     Dec(MARGIN) + " " + Dec(PAGE_H - MARGIN) + " Td"]

  function Join(sep: string, parts: seq<string>): string {
    if parts == [] then []
    else if |parts| == 1 then parts[0]
    else parts[0] + (sep + Join(sep, parts[1..]))
  }

  function ContentId(p: nat): nat { 4 + 2 * p }

  function PageId(p: nat): nat { 5 + 2 * p }

  // ---- The object bodies as a function of the pages -----------------------------------------

  function Show(line: string, first: bool): string {
    (if first then "(" else NEXT_LINE) + (Escape(line) + SHOW)
  }

  function Shows(lines: Page): seq<string> {
    seq(|lines|, k requires 0 <= k < |lines| => Show(lines[k], k == 0))
  }

  function Stream(lines: Page): string {
    Latin1(Join("\n", BEGIN_TEXT + (Shows(lines) + ["ET"])))
  }

  function Refs(ids: seq<nat>): seq<string> {
    seq(|ids|, i requires 0 <= i < |ids| => Dec(ids[i]) + REF)
  }

  function PageIds(count: nat): seq<nat> {
    seq(count, p requires 0 <= p < count => PageId(p))
  }

  function PagesBody(ids: seq<nat>): string {
    PAGES_HEAD + Dec(|ids|) + KIDS + Join(" ", Refs(ids)) + KIDS_END
  }

  function StreamBody(stream: string): string {
    LENGTH + Dec(|stream|) + STREAM + stream + END_STREAM
  }

  function PageBody(contentId: nat): string { PAGE_HEAD + Dec(contentId) + REF_END }

  function PagePairs(pages: seq<Page>, upto: nat): (bodies: seq<string>)
    requires upto <= |pages|
    ensures |bodies| == 2 * upto
  {
    if upto == 0 then []
    else PagePairs(pages, upto - 1) + [StreamBody(Stream(pages[upto - 1])), PageBody(ContentId(upto - 1))]
  }

  /** The bodies of objects 1, 2, 3, ...: catalog, page tree, font, then two per page. */
  function Bodies(pages: seq<Page>): (bodies: seq<string>)
    ensures |bodies| == 3 + 2 * |pages|
  {
    [CATALOG, PagesBody(PageIds(|pages|)), FONT] + PagePairs(pages, |pages|)
  }

  lemma {:induction false} PairAt(pages: seq<Page>, upto: nat, p: nat)
    requires p < upto <= |pages|
    ensures PagePairs(pages, upto)[2 * p] == StreamBody(Stream(pages[p]))
    ensures PagePairs(pages, upto)[2 * p + 1] == PageBody(ContentId(p))
    decreases upto
  {
    if p < upto - 1 {
      PairAt(pages, upto - 1, p);
    }
  }

  /** The words of the objects, as ISO 32000-1 writes them (sections 7.7.2, 7.7.3, 7.3.8, 9.4 and 9.6). */
  lemma WordsOfTheObjects()
    ensures CATALOG_HEAD == "<< /Type /Catalog /Pages " && REF_END == " 0 R >>" && REF == " 0 R"
    ensures FONT == "<< /Type /Font /Subtype /Type1 /BaseFont /Helvetica >>"
    ensures PAGES_HEAD == "<< /Type /Pages /Count " && KIDS == " /Kids [" && KIDS_END == "] >>"
    ensures LENGTH == "<< /Length " && STREAM == " >>\nstream\n" && END_STREAM == "\nendstream"
    ensures SHOW == ") Tj" && NEXT_LINE == "T* (" && BEGIN_TEXT[0] == "BT" && |BEGIN_TEXT| == 4
  {
  }

  lemma LastDigit(n: nat, d: nat)
    requires d <= 9
    ensures Dec(d) == [DigitChar(d)] && (n >= 1 ==> Dec(10 * n + d) == Dec(n) + [DigitChar(d)])
  {
  }

  lemma TwoDigits(tens: nat, ones: nat)
    requires 1 <= tens <= 9 && ones <= 9
    ensures Dec(10 * tens + ones) == [DigitChar(tens), DigitChar(ones)]
  {
    LastDigit(0, tens);
    LastDigit(tens, ones);
  }

  lemma ThreeDigits(hundreds: nat, tens: nat, ones: nat)
    requires 1 <= hundreds <= 9 && tens <= 9 && ones <= 9
    ensures Dec(100 * hundreds + 10 * tens + ones) == [DigitChar(hundreds), DigitChar(tens), DigitChar(ones)]
  {
    TwoDigits(hundreds, tens);
    LastDigit(10 * hundreds + tens, ones);
  }

  /** Text starts in Helvetica of 9 points, 54 points inside the left and upper edge of a page of 612 by
   *  792, and moves down 12 points a line. */
  lemma WordsOfThePage()
    ensures BEGIN_TEXT[1] == "/F1 9 Tf" && BEGIN_TEXT[2] == "12 TL" && BEGIN_TEXT[3] == "54 738 Td"
  {
    LastDigit(0, 9);
    TwoDigits(1, 2);
    TwoDigits(5, 4);
    ThreeDigits(7, 3, 8);
  }

  /** The page names object 2 as its parent and object 3 as F1. */
  lemma WordsOfThePageObject()
    ensures PAGE_HEAD == "<< /Type /Page /Parent 2 0 R /MediaBox [0 0 " + "612" + " " + "792" +
                         "] /Resources << /Font << /F1 3 0 R >> >> /Contents "
  {
    ThreeDigits(6, 1, 2);
    ThreeDigits(7, 9, 2);
  }

  /** A full page of lines stays inside the margins. */
  lemma PageHoldsItsLines()
    ensures MARGIN <= PAGE_H - MARGIN - LEADING * (LINES_PER_PAGE - 1) < MARGIN + 2 * LEADING
    ensures LINES_PER_PAGE == 57 && MAX_CHARS == 95
  {
  }

  /** What the references name: object 1 is the catalog, 2 the page tree, 3 the font; then every page
   *  has its content and the page object that names it. */
  lemma ObjectsInPlace(pages: seq<Page>, p: nat)
    ensures Bodies(pages)[0] == "<< /Type /Catalog /Pages 2 0 R >>" && Bodies(pages)[1] == PagesBody(PageIds(|pages|))
    ensures Bodies(pages)[2] == "<< /Type /Font /Subtype /Type1 /BaseFont /Helvetica >>"
    ensures p < |pages| ==> Bodies(pages)[3 + 2 * p] == StreamBody(Stream(pages[p])) &&
                            Bodies(pages)[4 + 2 * p] == PageBody(4 + 2 * p) && PageIds(|pages|)[p] == 5 + 2 * p
  {
    LastDigit(0, 2);
    if p < |pages| {
      PairAt(pages, |pages|, p);
    }
  }

  // ---- The serializer ----------------------------------------------------------------------

  method PageStream(lines: Page) returns (stream: string)
    ensures stream == Stream(lines)
  {
    var parts := BEGIN_TEXT;
    var first := true;
    for k := 0 to |lines|
      invariant parts == BEGIN_TEXT + Shows(lines)[..k]
      invariant first <==> k == 0
    {
      if first {
        parts := parts + ["(" + (Escape(lines[k]) + SHOW)];
        first := false;
      } else {
        parts := parts + [NEXT_LINE + (Escape(lines[k]) + SHOW)];
      }
      assert Shows(lines)[..k + 1] == Shows(lines)[..k] + [Shows(lines)[k]];
    }
    assert Shows(lines)[..|lines|] == Shows(lines);
    parts := parts + ["ET"];
    assert parts == BEGIN_TEXT + (Shows(lines) + ["ET"]);
    stream := Latin1(Join("\n", parts));
  }

  lemma HoldOneMore(objBytes: map<nat, string>, bodies: seq<string>, upto: nat)
    requires upto < |bodies| && Holds(objBytes, bodies, upto)
    ensures Holds(objBytes[upto + 1 := bodies[upto]], bodies, upto + 1)
  {
  }

  /** Numbers the objects and builds their bodies. */
  method BuildObjects(pages: seq<Page>) returns (objBytes: map<nat, string>, n: nat)
    ensures n == |Bodies(pages)| + 1 && Holds(objBytes, Bodies(pages), |Bodies(pages)|)
  {
    var fontObj := 3;
    var pageObjIds: seq<nat> := [];
    var contentStreams: seq<(nat, string)> := [];
    var nextId := 4;
    for p := 0 to |pages|
      invariant nextId == ContentId(p)
      invariant pageObjIds == PageIds(p)
      invariant |contentStreams| == p
      invariant forall q :: 0 <= q < p ==> contentStreams[q] == (ContentId(q), Stream(pages[q]))
    {
      var contentId, pageId := nextId, nextId + 1;
      nextId := nextId + 2;
      pageObjIds := pageObjIds + [pageId];
      var stream := PageStream(pages[p]);
      contentStreams := contentStreams + [(contentId, stream)];
    }
    ghost var bodies := Bodies(pages);
    objBytes := map[];
    HoldOneMore(objBytes, bodies, 0);
    objBytes := objBytes[1 := CATALOG];
    HoldOneMore(objBytes, bodies, 1);
    objBytes := objBytes[2 := PagesBody(pageObjIds)];
    HoldOneMore(objBytes, bodies, 2);
    objBytes := objBytes[fontObj := FONT];
    for p := 0 to |pages|
      invariant Holds(objBytes, bodies, 3 + 2 * p)
    {
      var contentId, stream := contentStreams[p].0, contentStreams[p].1;
      PairAt(pages, |pages|, p);
      HoldOneMore(objBytes, bodies, 3 + 2 * p);
      objBytes := objBytes[contentId := StreamBody(stream)];
      HoldOneMore(objBytes, bodies, 4 + 2 * p);
      objBytes := objBytes[pageObjIds[p] := PageBody(contentId)];
    }
    n := nextId;
  }

  method TextToPdf(text: string) returns (out: string)
    ensures out == File(Bodies(Pages(text)))
  {
    var pages := Paginate(text);
    var objBytes, n := BuildObjects(pages);
    out := Serialize(objBytes, n, Bodies(pages));
  }

  // ---- The reader --------------------------------------------------------------------------

  /** A number between two fixed pieces of text, and what follows. */
  function ReadField(s: string, before: string, after: string): Number {
    match Expect(s, before)
    case None => NoNumber
    case Some(t) =>
      match ReadNumber(t)
      case NoNumber => NoNumber
      case Number(n, rest) =>
        match Expect(rest, after)
        case None => NoNumber
        case Some(end) => Number(n, end)
  }

  datatype IdList = NoIds | IdList(ids: seq<nat>, rest: string)

  /** Indirect references separated by single spaces. */
  function ReadRefs(s: string): IdList
    decreases |s|
  {
    match ReadField(s, "", REF)
    case NoNumber => NoIds
    case Number(id, rest) =>
      if rest == [] || rest[0] != ' ' || |rest| > |s| then IdList([id], rest)
      else
        match ReadRefs(rest[1..])
        case NoIds => NoIds
        case IdList(ids, end) => IdList([id] + ids, end)
  }

  /** The page objects of a page tree whose count agrees with its kids. */
  function ReadKids(s: string): Option<seq<nat>> {
    match ReadField(s, PAGES_HEAD, KIDS)
    case NoNumber => None
    case Number(count, rest) =>
      match ReadRefs(rest)
      case NoIds => None
      case IdList(ids, end) => if count == |ids| && Expect(end, KIDS_END).Some? then Some(ids) else None
  }

  /** Exactly as many bytes as /Length says, which must be followed by endstream. */
  function ReadStream(s: string): Option<string> {
    match ReadField(s, LENGTH, STREAM)
    case NoNumber => None
    case Number(n, rest) =>
      if n <= |rest| && Expect(rest[n..], END_STREAM).Some? then Some(rest[..n]) else None
  }

  /** The lines shown by a content stream, after its set-up operators. */
  function ReadShows(s: string): Option<seq<string>>
    decreases |s|
  {
    if s == "ET" then Some([])
    else
      var head := if Expect(s, NEXT_LINE).Some? then Expect(s, NEXT_LINE) else Expect(s, "(");
      match head
      case None => None
      case Some(t) =>
        match ReadLiteral(t, 0)
        case Unterminated => None
        case Literal(line, rest) =>
          match Expect(rest, " Tj\n")
          case None => None
          case Some(end) =>
            match ReadShows(end)
            case None => None
            case Some(lines) => Some([line] + lines)
  }

  /** How a reader gets at what follows the opening of an object. */
  type Lookup = nat -> Option<string>

  function ReadPage(get: Lookup, pageId: nat): Option<seq<string>> {
    match get(pageId)
    case None => None
    case Some(s) =>
      match ReadField(s, PAGE_HEAD, REF_END)
      case NoNumber => None
      case Number(contentId, _) =>
        match get(contentId)
        case None => None
        case Some(t) =>
          match ReadStream(t)
          case None => None
          case Some(stream) =>
            match Expect(stream, Join("\n", BEGIN_TEXT) + "\n")
            case None => None
            case Some(shows) => ReadShows(shows)
  }

  function PageReader(get: Lookup): nat -> Option<seq<string>> {
    (id: nat) => ReadPage(get, id)
  }

  function ReadPages(page: nat -> Option<seq<string>>, ids: seq<nat>): Option<seq<seq<string>>> {
    if ids == [] then Some([])
    else
      match page(ids[0])
      case None => None
      case Some(lines) =>
        match ReadPages(page, ids[1..])
        case None => None
        case Some(pages) => Some([lines] + pages)
  }

  /** From the catalog to the page tree and the page objects. */
  function ReadTree(get: Lookup, root: nat): Option<seq<nat>> {
    match get(root)
    case None => None
    case Some(s) =>
      match ReadField(s, CATALOG_HEAD, REF_END)
      case NoNumber => None
      case Number(treeId, _) =>
        match get(treeId)
        case None => None
        case Some(t) => ReadKids(t)
  }

  function ReadDocument(get: Lookup, root: nat): Option<seq<seq<string>>> {
    match ReadTree(get, root)
    case None => None
    case Some(ids) => ReadPages(PageReader(get), ids)
  }

  function ObjectReader(pdf: string): Lookup {
    (i: nat) => ReadObject(pdf, i)
  }

  /** From the end of the file to the lines of every page. */
  function ExtractText(pdf: string): Option<seq<seq<string>>> {
    match ReadRoot(pdf)
    case None => None
    case Some(root) => ReadDocument(ObjectReader(pdf), root)
  }

  // ---- Reading the pieces back --------------------------------------------------------------

  lemma FieldReads(before: string, n: nat, after: string, rest: string)
    requires after != [] && !IsDigit(after[0])
    ensures ReadField(before + (Dec(n) + (after + rest)), before, after) == Number(n, rest)
  {
    ExpectPrefix(before, Dec(n) + (after + rest));
    assert (after + rest)[0] == after[0];
    ReadDec(n, after + rest);
    ExpectPrefix(after, rest);
  }

  lemma JoinOneMore(sep: string, part: string, parts: seq<string>)
    requires parts != []
    ensures Join(sep, [part] + parts) == part + (sep + Join(sep, parts))
  {
    assert ([part] + parts)[1..] == parts;
  }

  lemma {:induction false} JoinAppend(sep: string, a: seq<string>, b: seq<string>)
    requires a != [] && b != []
    ensures Join(sep, a + b) == Join(sep, a) + (sep + Join(sep, b))
    decreases |a|
  {
    if |a| == 1 {
      JoinOneMore(sep, a[0], b);
      assert a + b == [a[0]] + b;
    } else {
      var rest := a[1..];
      JoinAppend(sep, rest, b);
      JoinOneMore(sep, a[0], rest);
      JoinOneMore(sep, a[0], rest + b);
      assert a == [a[0]] + rest && a + b == [a[0]] + (rest + b);
      Regroup(a[0], sep, Join(sep, rest), sep + Join(sep, b));
    }
  }

  lemma Regroup(a: string, b: string, c: string, d: string)
    ensures a + (b + (c + d)) == (a + (b + c)) + d
  {
  }

  lemma MoreRefs(s: string, id: nat, more: string, ids: seq<nat>, end: string)
    requires ReadField(s, "", REF) == Number(id, " " + more) && |more| < |s|
    requires ReadRefs(more) == IdList(ids, end)
    ensures ReadRefs(s) == IdList([id] + ids, end)
  {
    assert (" " + more)[0] == ' ' && (" " + more)[1..] == more;
  }

  lemma LastRef(s: string, id: nat, rest: string)
    requires ReadField(s, "", REF) == Number(id, rest)
    requires rest != [] && rest[0] != ' '
    ensures ReadRefs(s) == IdList([id], rest)
  {
  }

  lemma JoinRefs(ids: seq<nat>)
    requires |ids| > 1
    ensures Join(" ", Refs(ids)) == (Dec(ids[0]) + REF) + (" " + Join(" ", Refs(ids[1..])))
  {
    assert Refs(ids) == [Dec(ids[0]) + REF] + Refs(ids[1..]);
    JoinOneMore(" ", Dec(ids[0]) + REF, Refs(ids[1..]));
  }

  lemma RefsReadStep(id: nat, more: string, ids: seq<nat>, rest: string)
    requires ReadRefs(more) == IdList(ids, rest)
    ensures ReadRefs((Dec(id) + REF) + (" " + more)) == IdList([id] + ids, rest)
  {
    RefStep(id, " " + more);
    MoreRefs((Dec(id) + REF) + (" " + more), id, more, ids, rest);
  }

  lemma RefsReadLast(ids: seq<nat>, rest: string)
    requires |ids| == 1 && rest != [] && rest[0] != ' '
    ensures ReadRefs(Join(" ", Refs(ids)) + rest) == IdList(ids, rest)
  {
    assert ids == [ids[0]] && Refs(ids) == [Dec(ids[0]) + REF];
    RefStep(ids[0], rest);
    LastRef((Dec(ids[0]) + REF) + rest, ids[0], rest);
  }

  lemma RefsReadMore(ids: seq<nat>, others: string, rest: string)
    requires |ids| > 1 && others == Join(" ", Refs(ids[1..]))
    requires ReadRefs(others + rest) == IdList(ids[1..], rest)
    ensures ReadRefs(Join(" ", Refs(ids)) + rest) == IdList(ids, rest)
  {
    JoinRefs(ids);
    RefsReadStep(ids[0], others + rest, ids[1..], rest);
    RefsShape(Dec(ids[0]) + REF, others, rest);
    assert ids == [ids[0]] + ids[1..];
  }

  lemma RefsShape(one: string, others: string, rest: string)
    ensures (one + (" " + others)) + rest == one + (" " + (others + rest))
  {
  }

  lemma {:induction false} RefsRead(ids: seq<nat>, rest: string)
    requires ids != [] && rest != [] && rest[0] != ' '
    ensures ReadRefs(Join(" ", Refs(ids)) + rest) == IdList(ids, rest)
    decreases |ids|
  {
    if |ids| == 1 {
      RefsReadLast(ids, rest);
    } else {
      RefsRead(ids[1..], rest);
      RefsReadMore(ids, Join(" ", Refs(ids[1..])), rest);
    }
  }

  lemma SplitPrefix(a: string, s: string)
    requires a <= s
    ensures s == a + s[|a|..]
  {
  }

  lemma RefStep(id: nat, rest: string)
    ensures ReadField((Dec(id) + REF) + rest, "", REF) == Number(id, rest)
  {
    assert (Dec(id) + REF) + rest == "" + (Dec(id) + (REF + rest));
    FieldReads("", id, REF, rest);
  }

  lemma Associate5(a: string, b: string, c: string, d: string, e: string, r: string)
    ensures a + b + c + d + e + r == a + (b + (c + (d + (e + r))))
  {
    Associate(a + b + c, d, e, r);
    Associate(a, b, c, d + (e + r));
  }

  lemma Associate3(a: string, b: string, c: string, r: string)
    ensures a + b + c + r == a + (b + (c + r))
  {
    Associate(a, b, c, r);
  }

  lemma KidsRead(ids: seq<nat>, rest: string)
    requires ids != []
    ensures ReadKids(PagesBody(ids) + rest) == Some(ids)
  {
    var kids := Join(" ", Refs(ids));
    Associate5(PAGES_HEAD, Dec(|ids|), KIDS, kids, KIDS_END, rest);
    FieldReads(PAGES_HEAD, |ids|, KIDS, kids + (KIDS_END + rest));
    assert (KIDS_END + rest)[0] == ']';
    RefsRead(ids, KIDS_END + rest);
    ExpectPrefix(KIDS_END, rest);
  }

  /** Every /Length equals its stream's byte count: the reader gets the whole stream. */
  lemma StreamReads(stream: string, rest: string)
    ensures ReadStream(StreamBody(stream) + rest) == Some(stream)
  {
    Associate5(LENGTH, Dec(|stream|), STREAM, stream, END_STREAM, rest);
    FieldReads(LENGTH, |stream|, STREAM, stream + (END_STREAM + rest));
    DropPrefix(stream, END_STREAM + rest);
    ExpectPrefix(END_STREAM, rest);
    assert (stream + (END_STREAM + rest))[..|stream|] == stream;
  }

  lemma PageReads(contentId: nat, rest: string)
    ensures ReadField(PageBody(contentId) + rest, PAGE_HEAD, REF_END) == Number(contentId, rest)
  {
    Associate3(PAGE_HEAD, Dec(contentId), REF_END, rest);
    FieldReads(PAGE_HEAD, contentId, REF_END, rest);
  }

  lemma CatalogReads(rest: string)
    ensures ReadField(CATALOG + rest, CATALOG_HEAD, REF_END) == Number(2, rest)
  {
    Associate3(CATALOG_HEAD, Dec(2), REF_END, rest);
    FieldReads(CATALOG_HEAD, 2, REF_END, rest);
  }

  // ---- Reading a content stream back --------------------------------------------------------

  function ShowText(lines: Page, first: bool): string {
    if lines == [] then "ET" else Show(lines[0], first) + ("\n" + ShowText(lines[1..], false))
  }

  function ShowsFrom(lines: Page, first: bool): seq<string> {
    seq(|lines|, k requires 0 <= k < |lines| => Show(lines[k], first && k == 0))
  }

  lemma {:induction false} JoinShows(lines: Page, first: bool)
    ensures Join("\n", ShowsFrom(lines, first) + ["ET"]) == ShowText(lines, first)
    decreases |lines|
  {
    if lines == [] {
      assert ShowsFrom(lines, first) + ["ET"] == ["ET"];
    } else {
      var rest := ShowsFrom(lines[1..], false) + ["ET"];
      assert ShowsFrom(lines, first) + ["ET"] == [Show(lines[0], first)] + rest;
      JoinOneMore("\n", Show(lines[0], first), rest);
      JoinShows(lines[1..], false);
    }
  }

  function Latin1Lines(lines: Page): Page {
    seq(|lines|, k requires 0 <= k < |lines| => Latin1(lines[k]))
  }

  lemma Latin1OfShow(line: string, first: bool)
    ensures Latin1(Show(line, first)) == Show(Latin1(line), first)
  {
    EscapeIsACharacterMap(line);
    EscapeIsACharacterMap(Latin1(line));
    Latin1OfEscape(line);
    var head := if first then "(" else NEXT_LINE;
    Latin1Append(head, Escape(line) + SHOW);
    Latin1Append(Escape(line), SHOW);
    Latin1Fixed(head);
    Latin1Fixed(SHOW);
  }

  lemma {:induction false} Latin1OfShowText(lines: Page, first: bool)
    ensures Latin1(ShowText(lines, first)) == ShowText(Latin1Lines(lines), first)
    decreases |lines|
  {
    if lines == [] {
      Latin1Fixed("ET");
    } else {
      var rest := ShowText(lines[1..], false);
      Latin1Append(Show(lines[0], first), "\n" + rest);
      Latin1Append("\n", rest);
      Latin1Fixed("\n");
      Latin1OfShow(lines[0], first);
      Latin1OfShowText(lines[1..], false);
      assert Latin1Lines(lines)[1..] == Latin1Lines(lines[1..]);
    }
  }

  lemma StreamText(lines: Page)
    ensures Stream(lines) == Latin1(Join("\n", BEGIN_TEXT) + "\n") + ShowText(Latin1Lines(lines), true)
  {
    var shows := Shows(lines) + ["ET"];
    assert Shows(lines) == ShowsFrom(lines, true);
    JoinShows(lines, true);
    JoinAppend("\n", BEGIN_TEXT, shows);
    var head := Join("\n", BEGIN_TEXT);
    assert head + ("\n" + ShowText(lines, true)) == (head + "\n") + ShowText(lines, true);
    Latin1Append(head + "\n", ShowText(lines, true));
    Latin1OfShowText(lines, true);
  }

  function UnixPage(lines: Page): (r: Page)
    ensures |r| == |lines|
  {
    seq(|lines|, k requires 0 <= k < |lines| => UnixLines(lines[k]))
  }

  lemma ShowReads(line: string, first: bool, rest: string)
    ensures var s := Show(line, first) + ("\n" + rest);
            s != "ET" &&
            var head := if Expect(s, NEXT_LINE).Some? then Expect(s, NEXT_LINE) else Expect(s, "(");
            head.Some? && ReadLiteral(head.value, 0) == Literal(UnixLines(line), " Tj\n" + rest)
  {
    var open := if first then "(" else NEXT_LINE;
    var inner := Escape(line) + ")" + (" Tj\n" + rest);
    var s := Show(line, first) + ("\n" + rest);
    ShowShape(open, Escape(line), rest);
    assert s == open + inner;
    ExpectPrefix(open, inner);
    assert s[0] == open[0];
    EscapeIsACharacterMap(line);
    EscapedReadsBack(line, " Tj\n" + rest);
  }

  lemma ShowShape(open: string, text: string, rest: string)
    ensures open + (text + SHOW) + ("\n" + rest) == open + (text + ")" + (" Tj\n" + rest))
  {
    assert SHOW + ("\n" + rest) == ")" + (" Tj\n" + rest);
    Associate(open, text, SHOW, "\n" + rest);
    Associate(open, text, ")", " Tj\n" + rest);
    assert open + (text + SHOW) + ("\n" + rest) == open + (text + (SHOW + ("\n" + rest)));
    assert text + ")" + (" Tj\n" + rest) == text + (")" + (" Tj\n" + rest));
  }

  lemma {:induction false} ShowTextReads(lines: Page, first: bool)
    ensures ReadShows(ShowText(lines, first)) == Some(UnixPage(lines))
    decreases |lines|
  {
    if lines != [] {
      var rest := ShowText(lines[1..], false);
      ShowReads(lines[0], first, rest);
      ExpectPrefix(" Tj\n", rest);
      ShowTextReads(lines[1..], false);
      assert UnixPage(lines) == [UnixLines(lines[0])] + UnixPage(lines[1..]);
    }
  }

  // ---- Reading the whole report back --------------------------------------------------------

  /** What a reader sees of a line: Latin-1, with every end-of-line marker a line feed. */
  function SeenPage(lines: Page): Page { UnixPage(Latin1Lines(lines)) }

  function SeenPages(pages: seq<Page>): seq<Page> {
    seq(|pages|, p requires 0 <= p < |pages| => SeenPage(pages[p]))
  }

  /** The file is small enough for ten-digit offsets. */
  predicate Addressable(pages: seq<Page>) {
    Offset(Bodies(pages), |Bodies(pages)|) < Power10(10)
  }

  predicate IsBytes(s: string) { forall i :: 0 <= i < |s| ==> (s[i] as int) < 256 }

  lemma {:induction false} JoinIsBytes(sep: string, parts: seq<string>)
    requires IsBytes(sep) && forall k :: 0 <= k < |parts| ==> IsBytes(parts[k])
    ensures IsBytes(Join(sep, parts))
    decreases |parts|
  {
    if |parts| > 1 {
      JoinIsBytes(sep, parts[1..]);
    }
  }

  lemma BeginTextIsLatin1()
    ensures Latin1(Join("\n", BEGIN_TEXT) + "\n") == Join("\n", BEGIN_TEXT) + "\n"
  {
    JoinIsBytes("\n", BEGIN_TEXT);
    Latin1Fixed(Join("\n", BEGIN_TEXT) + "\n");
  }

  lemma BodyAt(pages: seq<Page>, p: nat)
    requires p < |pages|
    ensures Bodies(pages)[ContentId(p) - 1] == StreamBody(Stream(pages[p]))
    ensures Bodies(pages)[PageId(p) - 1] == PageBody(ContentId(p))
  {
    PairAt(pages, |pages|, p);
  }

  ghost predicate Served(got: Option<string>, body: string) { got.Some? && body <= got.value }

  /** The lookup finds every object, and what it returns starts with the object's body. */
  ghost predicate Serves(get: Lookup, bodies: seq<string>) {
    forall i: nat :: 1 <= i <= |bodies| ==> Served(get(i), bodies[i - 1])
  }

  lemma FileServes(bodies: seq<string>)
    requires bodies != [] && Offset(bodies, |bodies|) < Power10(10)
    ensures Serves(ObjectReader(File(bodies)), bodies)
  {
    var pdf := File(bodies);
    forall i: nat | 1 <= i <= |bodies|
      ensures Served(ReadObject(pdf, i), bodies[i - 1])
    {
      OneObjectServed(bodies, i);
    }
    ReaderServes(pdf, bodies);
  }

  lemma ReaderServes(pdf: string, bodies: seq<string>)
    requires forall i: nat :: 1 <= i <= |bodies| ==> Served(ReadObject(pdf, i), bodies[i - 1])
    ensures Serves(ObjectReader(pdf), bodies)
  {
  }

  lemma OneObjectServed(bodies: seq<string>, i: nat)
    requires 1 <= i <= |bodies| && Offset(bodies, |bodies|) < Power10(10)
    ensures Served(ReadObject(File(bodies), i), bodies[i - 1])
  {
    OffsetsGrow(bodies, i, |bodies|);
    var after := ObjectReads(bodies, i);
  }

  lemma OnePageReads(get: Lookup, pages: seq<Page>, p: nat)
    requires Serves(get, Bodies(pages)) && p < |pages|
    ensures ReadPage(get, PageId(p)) == Some(SeenPage(pages[p]))
  {
    BodyAt(pages, p);
    var s, t, lines := get(PageId(p)).value, get(ContentId(p)).value, pages[p];
    SplitPrefix(PageBody(ContentId(p)), s);
    SplitPrefix(StreamBody(Stream(lines)), t);
    PageReads(ContentId(p), s[|PageBody(ContentId(p))|..]);
    StreamReads(Stream(lines), t[|StreamBody(Stream(lines))|..]);
    StreamText(lines);
    BeginTextIsLatin1();
    ExpectPrefix(Join("\n", BEGIN_TEXT) + "\n", ShowText(Latin1Lines(lines), true));
    ShowTextReads(Latin1Lines(lines), true);
  }

  lemma {:induction false} PagesRead(page: nat -> Option<seq<string>>, ids: seq<nat>, pages: seq<Page>)
    requires |ids| == |pages|
    requires forall p :: 0 <= p < |ids| ==> page(ids[p]) == Some(pages[p])
    ensures ReadPages(page, ids) == Some(pages)
    decreases |ids|
  {
    if ids != [] {
      PagesRead(page, ids[1..], pages[1..]);
      assert pages == [pages[0]] + pages[1..];
    }
  }

  lemma TreeReads(get: Lookup, pages: seq<Page>)
    requires Serves(get, Bodies(pages)) && pages != []
    ensures ReadTree(get, 1) == Some(PageIds(|pages|))
  {
    var s, t := get(1).value, get(2).value;
    assert Bodies(pages)[0] == CATALOG && Bodies(pages)[1] == PagesBody(PageIds(|pages|));
    SplitPrefix(CATALOG, s);
    SplitPrefix(PagesBody(PageIds(|pages|)), t);
    CatalogReads(s[|CATALOG|..]);
    KidsRead(PageIds(|pages|), t[|PagesBody(PageIds(|pages|))|..]);
  }

  lemma DocumentReads(get: Lookup, pages: seq<Page>)
    requires Serves(get, Bodies(pages)) && pages != []
    ensures ReadDocument(get, 1) == Some(SeenPages(pages))
  {
    TreeReads(get, pages);
    forall p | 0 <= p < |pages|
      ensures PageReader(get)(PageIds(|pages|)[p]) == Some(SeenPages(pages)[p])
    {
      OnePageReads(get, pages, p);
    }
    PagesRead(PageReader(get), PageIds(|pages|), SeenPages(pages));
  }

  /** Round trip: a reader that starts at the end of the file gets every line of every page. */
  lemma ReportReadsBack(pages: seq<Page>)
    requires pages != [] && Addressable(pages)
    ensures ExtractText(File(Bodies(pages))) == Some(SeenPages(pages))
  {
    var bodies := Bodies(pages);
    RootReads(bodies);
    FileServes(bodies);
    DocumentReads(ObjectReader(File(bodies)), pages);
  }

  predicate NoCarriageReturn(pages: seq<Page>) {
    forall p, k :: 0 <= p < |pages| && 0 <= k < |pages[p]| ==> '\r' !in pages[p][k]
  }

  function Latin1Pages(pages: seq<Page>): seq<Page> {
    seq(|pages|, p requires 0 <= p < |pages| => Latin1Lines(pages[p]))
  }

  lemma SeenLine(line: string)
    ensures UnixLines(Latin1(line)) == Latin1(line) <==> '\r' !in line
  {
    UnixLinesHasNoCR(Latin1(line));
    if '\r' in Latin1(line) {
      var i :| 0 <= i < |line| && Latin1(line)[i] == '\r';
      assert line[i] == '\r';
    }
    if '\r' in line {
      var i :| 0 <= i < |line| && line[i] == '\r';
      assert Latin1(line)[i] == '\r';
    }
  }

  lemma SeenExactly(pages: seq<Page>)
    ensures SeenPages(pages) == Latin1Pages(pages) <==> NoCarriageReturn(pages)
  {
    forall p, k | 0 <= p < |pages| && 0 <= k < |pages[p]|
      ensures SeenPage(pages[p])[k] == Latin1Lines(pages[p])[k] <==> '\r' !in pages[p][k]
    {
      SeenLine(pages[p][k]);
    }
    if NoCarriageReturn(pages) {
      forall p | 0 <= p < |pages|
        ensures SeenPages(pages)[p] == Latin1Pages(pages)[p]
      {
        assert SeenPage(pages[p]) == Latin1Lines(pages[p]);
      }
    } else {
      var p, k :| 0 <= p < |pages| && 0 <= k < |pages[p]| && '\r' in pages[p][k];
      assert SeenPages(pages)[p][k] != Latin1Pages(pages)[p][k];
    }
  }

  /** The lines read are exactly the Latin-1 lines written, if and only if no line kept a
   *  carriage return. */
  lemma ReportReadsBackExactly(pages: seq<Page>)
    requires pages != [] && Addressable(pages)
    ensures ExtractText(File(Bodies(pages))) == Some(Latin1Pages(pages)) <==> NoCarriageReturn(pages)
  {
    ReportReadsBack(pages);
    SeenExactly(pages);
  }

  /** A Latin-1 text without carriage returns is shown page by page as it was laid out, and
   *  what the reader sees is the text up to white space. */
  lemma TextSurvives(text: string)
    requires Addressable(Pages(text))
    requires '\r' !in text && forall c :: c in text ==> (c as int) < 256
    ensures ExtractText(File(Bodies(Pages(text)))) == Some(Pages(text))
    ensures InkOfPages(Pages(text)) == Ink(text)
  {
    DrawnByPages(text);
    forall p, k | 0 <= p < |Pages(text)| && 0 <= k < |Pages(text)[p]|
      ensures '\r' !in Pages(text)[p][k] && IsBytes(Pages(text)[p][k])
    {
      assert Drawn(Pages(text)[p], text);
      DrawnLineIsPlain(Pages(text)[p], k, text);
    }
    Latin1PagesFixed(Pages(text));
    ReportReadsBackExactly(Pages(text));
    LayoutPreservesInk(text);
  }

  lemma DrawnLineIsPlain(lines: Page, k: nat, text: string)
    requires k < |lines| && Drawn(lines, text)
    requires '\r' !in text && forall c :: c in text ==> (c as int) < 256
    ensures '\r' !in lines[k] && IsBytes(lines[k])
  {
    forall i | 0 <= i < |lines[k]|
      ensures lines[k][i] != '\r' && (lines[k][i] as int) < 256
    {
      var c := lines[k][i];
      assert c in lines[k];
      if c == ' ' {
        assert (' ' as int) == 32;
      } else {
        assert c in text;
      }
    }
  }

  lemma Latin1PagesFixed(pages: seq<Page>)
    requires forall p, k :: 0 <= p < |pages| && 0 <= k < |pages[p]| ==> IsBytes(pages[p][k])
    ensures Latin1Pages(pages) == pages
  {
    forall p | 0 <= p < |pages|
      ensures Latin1Pages(pages)[p] == pages[p]
    {
      forall k | 0 <= k < |pages[p]|
        ensures Latin1Lines(pages[p])[k] == pages[p][k]
      {
        Latin1Fixed(pages[p][k]);
      }
    }
  }
}
