/** The PDF file structure around numbered objects: byte offsets, the cross-reference table
 *  and the trailer (ISO 32000-1 sections 7.5.4 and 7.5.5), and a reader that knows only the
 *  format.
 */
module PdfContainer {
  import opened Prelude
  import opened Decimal

  const HEADER := "%PDF-1.4\n%\U{E2}\U{E3}\U{CF}\U{D3}\n"
  const FREE_ENTRY := "0000000000 65535 f \n"
  const END_OBJECT := "\nendobj\n"
  const OBJ := " 0 obj\n"
  const XREF := "xref\n0 "
  const TRAILER_SIZE := "trailer\n<< /Size "
  const ROOT := " /Root "
  const ROOT_END := " 0 R >>\n"
  const TRAILER_ROOT := ROOT + Dec(1) + ROOT_END
  const START_XREF := "startxref\n"
  const END_FILE := "\n%%EOF\n"
  const IN_USE := " 00000 n \n"

  // ---- The file as a function of its object bodies: object i has body bodies[i - 1] ---------

  function Object(id: nat, body: string): string {
    Dec(id) + OBJ + body + END_OBJECT
  }

  /** The header and the objects 1 .. upto. */
  function Objects(bodies: seq<string>, upto: nat): string
    requires upto <= |bodies|
  {
    if upto == 0 then HEADER else Objects(bodies, upto - 1) + Object(upto, bodies[upto - 1])
  }

  function Offset(bodies: seq<string>, id: nat): nat
    requires 1 <= id <= |bodies|
  {
    |Objects(bodies, id - 1)|
  }

  function Entry(offset: nat): string { Pad(offset, 10) + IN_USE }

  /** The cross-reference entries of the objects 1 .. upto. */
  function Entries(bodies: seq<string>, upto: nat): string
    requires upto <= |bodies|
  {
    if upto == 0 then "" else Entries(bodies, upto - 1) + Entry(Offset(bodies, upto))
  }

  function XrefPosition(bodies: seq<string>): nat { |Objects(bodies, |bodies|)| }

  function XrefHead(size: nat): string { XREF + Dec(size) + "\n" }

  function Trailer(size: nat, xrefPosition: nat): string {
    TRAILER_SIZE + Dec(size) + TRAILER_ROOT + START_XREF + Dec(xrefPosition) + END_FILE
  }

  function File(bodies: seq<string>): string {
    Objects(bodies, |bodies|) +
    (XrefHead(|bodies| + 1) + FREE_ENTRY + Entries(bodies, |bodies|) +
     Trailer(|bodies| + 1, XrefPosition(bodies)))
  }

  /** The words of the file structure, as sections 7.5.2 to 7.5.5 of ISO 32000-1 write them. */
  lemma WordsOfTheFormat()
    ensures HEADER == "%PDF-1.4\n%\U{E2}\U{E3}\U{CF}\U{D3}\n"
    ensures OBJ == " 0 obj\n" && END_OBJECT == "\nendobj\n"
    ensures XREF == "xref\n0 " && FREE_ENTRY == "0000000000 65535 f \n" && IN_USE == " 00000 n \n"
    ensures TRAILER_SIZE == "trailer\n<< /Size " && ROOT == " /Root " && ROOT_END == " 0 R >>\n"
    ensures START_XREF == "startxref\n" && END_FILE == "\n%%EOF\n"
  {
  }

  // ---- The serializer ----------------------------------------------------------------------

  /** The objects 1 .. upto and nothing else. */
  ghost predicate Holds(objBytes: map<nat, string>, bodies: seq<string>, upto: nat)
    requires upto <= |bodies|
  {
    forall id: nat :: (id in objBytes <==> 1 <= id <= upto) &&
                      (1 <= id <= upto ==> objBytes[id] == bodies[id - 1])
  }

  /** Writes the objects in the order of their numbers and notes where each one starts. */
  method WriteObjects(objBytes: map<nat, string>, n: nat, ghost bodies: seq<string>)
    returns (out: string, offsets: map<nat, nat>)
    requires n == |bodies| + 1 && Holds(objBytes, bodies, |bodies|)
    ensures out == Objects(bodies, |bodies|)
    ensures forall id: nat :: id in offsets <==> 1 <= id < n
    ensures forall id: nat :: 1 <= id < n ==> offsets[id] == Offset(bodies, id)
  {
    out := HEADER;
    offsets := map[];
    for oid := 1 to n
      invariant out == Objects(bodies, oid - 1)
      invariant forall id: nat :: id in offsets <==> 1 <= id < oid
      invariant forall id: nat :: 1 <= id < oid ==> offsets[id] == Offset(bodies, id)
    {
      offsets := offsets[oid := |out|];
      out := out + Object(oid, objBytes[oid]);
    }
  }

  /** One line for every object number. Object numbers 1 .. n - 1 are all in use, so no entry
   *  but the first is free. */
  method WriteEntries(offsets: map<nat, nat>, n: nat, ghost bodies: seq<string>) returns (out: string)
    requires n == |bodies| + 1
    requires forall id: nat :: 1 <= id < n ==> id in offsets && offsets[id] == Offset(bodies, id)
    ensures out == Entries(bodies, |bodies|)
  {
    out := "";
    for oid := 1 to n
      invariant out == Entries(bodies, oid - 1)
    {
      if oid in offsets {
        out := out + Entry(offsets[oid]);
      } else {
        assert false;
        out := out + FREE_ENTRY;
      }
    }
  }

  method Serialize(objBytes: map<nat, string>, n: nat, ghost bodies: seq<string>) returns (out: string)
    requires n == |bodies| + 1 && Holds(objBytes, bodies, |bodies|)
    ensures out == File(bodies)
  {
    var offsets;
    out, offsets := WriteObjects(objBytes, n, bodies);
    var xrefPos := |out|;
    var entries := WriteEntries(offsets, n, bodies);
    out := out + (XrefHead(n) + FREE_ENTRY + entries + Trailer(n, xrefPos));
  }

  // ---- The reader --------------------------------------------------------------------------

  /** What follows `lit`, if s starts with it. */
  function Expect(s: string, lit: string): Option<string> {
    if |lit| <= |s| && s[..|lit|] == lit then Some(s[|lit|..]) else None
  }

  /** The number on the line before the end-of-file marker, under the keyword startxref. */
  function ReadStartXref(pdf: string): Option<nat> {
    if |pdf| < |END_FILE| || pdf[|pdf| - |END_FILE|..] != END_FILE then None
    else
      var body := pdf[..|pdf| - |END_FILE|];
      var k := DigitTail(body);
      var front := body[..|body| - k];
      if k == 0 || |front| < |START_XREF| || front[|front| - |START_XREF|..] != START_XREF then None
      else Some(Value(body[|body| - k..]))
  }

  /** A cross-reference section with one subsection: its size and the position of entry 0. */
  datatype Xref = NoXref | Xref(size: nat, first: nat)

  function ReadXref(pdf: string): Xref {
    match ReadStartXref(pdf)
    case None => NoXref
    case Some(at) =>
      if at > |pdf| then NoXref
      else
        match Expect(pdf[at..], XREF)
        case None => NoXref
        case Some(s) =>
          match ReadNumber(s)
          case NoNumber => NoXref
          case Number(size, rest) =>
            if rest == [] || rest[0] != '\n' then NoXref else Xref(size, |pdf| - |rest| + 1)
  }

  /** Entry i: 20 bytes, ten of them the offset of an object in use. */
  function ReadEntry(pdf: string, first: nat, i: nat): Option<nat> {
    var at := first + 20 * i;
    if at + 20 > |pdf| then None
    else
      var entry := pdf[at..at + 20];
      if AllDigits(entry[..10]) && entry[10] == ' ' && AllDigits(entry[11..16]) && entry[16..] == " n \n"
      then Some(Value(entry[..10])) else None
  }

  /** What follows the opening of object i, found through the cross-reference table. */
  function ReadObject(pdf: string, i: nat): Option<string> {
    match ReadXref(pdf)
    case NoXref => None
    case Xref(size, first) =>
      if i >= size then None
      else
        match ReadEntry(pdf, first, i)
        case None => None
        case Some(at) =>
          if at > |pdf| then None
          else
            match ReadNumber(pdf[at..])
            case NoNumber => None
            case Number(id, rest) => if id == i then Expect(rest, OBJ) else None
  }

  /** The object number the trailer names as the document catalog. */
  function ReadRoot(pdf: string): Option<nat> {
    match ReadXref(pdf)
    case NoXref => None
    case Xref(size, first) =>
      var at := first + 20 * size;
      if at > |pdf| then None
      else
        match Expect(pdf[at..], TRAILER_SIZE)
        case None => None
        case Some(s) =>
          match ReadNumber(s)
          case NoNumber => None
          case Number(n, rest) =>
            match Expect(rest, ROOT)
            case None => None
            case Some(t) =>
              match ReadNumber(t)
              case NoNumber => None
              case Number(id, end) => if n == size && Expect(end, ROOT_END).Some? then Some(id) else None
  }

  // ---- Layout ------------------------------------------------------------------------------

  lemma ExpectPrefix(lit: string, rest: string)
    ensures Expect(lit + rest, lit) == Some(rest)
  {
    assert (lit + rest)[..|lit|] == lit && (lit + rest)[|lit|..] == rest;
  }

  lemma ExtendBy(before: string, front: string, last: string, full: string)
    requires full == before + front + last
    ensures full == before + (front + last)
  {
  }

  lemma {:induction false} ObjectsExtend(bodies: seq<string>, i: nat, upto: nat) returns (tail: string)
    requires i <= upto <= |bodies|
    ensures Objects(bodies, upto) == Objects(bodies, i) + tail
    decreases upto - i
  {
    if i == upto {
      tail := "";
    } else {
      var front := ObjectsExtend(bodies, i, upto - 1);
      var last := Object(upto, bodies[upto - 1]);
      ExtendBy(Objects(bodies, i), front, last, Objects(bodies, upto));
      tail := front + last;
    }
  }

  lemma {:induction false} EntriesExtend(bodies: seq<string>, i: nat, upto: nat) returns (tail: string)
    requires i <= upto <= |bodies|
    ensures Entries(bodies, upto) == Entries(bodies, i) + tail
    decreases upto - i
  {
    if i == upto {
      tail := "";
    } else {
      var front := EntriesExtend(bodies, i, upto - 1);
      var last := Entry(Offset(bodies, upto));
      ExtendBy(Entries(bodies, i), front, last, Entries(bodies, upto));
      tail := front + last;
    }
  }

  /** Offsets grow with the object number. */
  lemma OffsetsGrow(bodies: seq<string>, i: nat, j: nat)
    requires 1 <= i <= j <= |bodies|
    ensures Offset(bodies, i) <= Offset(bodies, j)
  {
    var tail := ObjectsExtend(bodies, i - 1, j - 1);
  }

  /** Entry i starts 20 * i bytes after entry 0 as long as every earlier offset fits. */
  lemma {:induction false} EntriesAreAligned(bodies: seq<string>, i: nat)
    requires i <= |bodies|
    requires i > 0 ==> Offset(bodies, i) < Power10(10)
    ensures |Entries(bodies, i)| == 20 * i
    decreases i
  {
    if i > 0 {
      if i > 1 {
        OffsetsGrow(bodies, i - 1, i);
      }
      EntriesAreAligned(bodies, i - 1);
      ValueOfPad(Offset(bodies, i), 10);
    }
  }

  lemma StartXrefReads(front: string, n: nat)
    ensures ReadStartXref(front + START_XREF + Dec(n) + END_FILE) == Some(n)
  {
    var pdf := front + START_XREF + Dec(n) + END_FILE;
    var body := front + START_XREF + Dec(n);
    assert pdf[|pdf| - |END_FILE|..] == END_FILE && pdf[..|pdf| - |END_FILE|] == body;
    var head := front + START_XREF;
    assert head[|head| - 1] == '\n';
    DigitTailOfSuffix(head, Dec(n));
    assert body[..|body| - |Dec(n)|] == head && body[|body| - |Dec(n)|..] == Dec(n);
    assert head[|head| - |START_XREF|..] == START_XREF;
    ValueOfDec(n);
  }

  function First(bodies: seq<string>): nat {
    XrefPosition(bodies) + |XrefHead(|bodies| + 1)|
  }

  lemma EndShape(o: string, h: string, t: string, ts: string, d: string, tr: string, sx: string, dx: string, ef: string)
    ensures o + (h + t + (ts + d + tr + sx + dx + ef)) == (o + h + t + ts + d + tr) + sx + dx + ef
  {
    Associate(ts + d + tr, sx, dx, ef);
    Associate(o + h + t, ts + d + tr, sx + dx + ef, "");
    assert (ts + d + tr) + (sx + dx + ef) == ts + d + tr + sx + dx + ef;
    assert o + h + t + ts + d + tr == (o + h + t) + (ts + d + tr);
    assert o + (h + t + (ts + d + tr + sx + dx + ef)) == (o + h + t) + (ts + d + tr + sx + dx + ef);
  }

  lemma Associate(a: string, b: string, c: string, d: string)
    ensures a + (b + c + d) == a + b + c + d
    ensures a + (b + (c + d)) == a + b + c + d
  {
  }

  lemma DropPrefix(a: string, b: string)
    ensures (a + b)[|a|..] == b
  {
  }

  lemma HeadShape(o: string, x: string, d: string, nl: string, t: string, r: string)
    ensures (o + ((x + d + nl) + t + r))[|o|..] == x + (d + (nl + (t + r)))
  {
    DropPrefix(o, (x + d + nl) + t + r);
    Associate(x + d + nl, t, r, "");
    Associate(x, d, nl, t + r);
    assert (x + d + nl) + t + r == (x + d + nl) + (t + r);
  }

  lemma StartsWithNewline(rest: string)
    ensures ("\n" + rest)[0] == '\n' && !IsDigit('\n')
  {
  }

  lemma XrefReads(bodies: seq<string>)
    ensures ReadXref(File(bodies)) == Xref(|bodies| + 1, First(bodies))
  {
    var objects, entries := Objects(bodies, |bodies|), Entries(bodies, |bodies|);
    XrefReadsFrom(objects, FREE_ENTRY + entries, |bodies| + 1);
    assert XrefHead(|bodies| + 1) + FREE_ENTRY + entries == XrefHead(|bodies| + 1) + (FREE_ENTRY + entries);
  }

  /** What a reader finds at the position that startxref names. */
  lemma XrefSectionReads(pdf: string, at: nat, size: nat, after: string)
    requires ReadStartXref(pdf) == Some(at) && at <= |pdf|
    requires pdf[at..] == XREF + (Dec(size) + ("\n" + after))
    ensures ReadXref(pdf) == Xref(size, |pdf| - |after|)
  {
    ExpectPrefix(XREF, Dec(size) + ("\n" + after));
    StartsWithNewline(after);
    ReadDec(size, "\n" + after);
  }

  lemma XrefReadsFrom(objects: string, table: string, size: nat)
    ensures ReadXref(objects + (XrefHead(size) + table + Trailer(size, |objects|))) ==
            Xref(size, |objects| + |XrefHead(size)|)
  {
    var at := |objects|;
    var pdf := objects + (XrefHead(size) + table + Trailer(size, at));
    EndShape(objects, XrefHead(size), table, TRAILER_SIZE, Dec(size), TRAILER_ROOT, START_XREF, Dec(at), END_FILE);
    StartXrefReads(objects + XrefHead(size) + table + TRAILER_SIZE + Dec(size) + TRAILER_ROOT, at);
    HeadShape(objects, XREF, Dec(size), "\n", table, Trailer(size, at));
    XrefSectionReads(pdf, at, size, table + Trailer(size, at));
  }

  lemma EntryFormat(offset: nat)
    requires offset < Power10(10)
    ensures |Entry(offset)| == 20
    ensures AllDigits(Entry(offset)[..10]) && Value(Entry(offset)[..10]) == offset
    ensures Entry(offset)[10] == ' ' && AllDigits(Entry(offset)[11..16]) && Entry(offset)[16..] == " n \n"
  {
    ValueOfPad(offset, 10);
    assert Entry(offset)[..10] == Pad(offset, 10);
    assert Entry(offset)[10..] == IN_USE;
    assert Entry(offset)[11..16] == IN_USE[1..6] == "00000";
    assert Entry(offset)[16..] == IN_USE[6..] == " n \n";
  }

  lemma EntryShape(o: string, h: string, f: string, e: string, x: string, t: string, r: string)
    ensures o + (h + f + (e + x + t) + r) == (o + h + f + e) + (x + (t + r))
  {
    Associate(o, h + f, e + x + t, r);
    Associate(o + h + f, e, x, t);
    Associate(o + h + f + e, x, t, r);
    assert o + (h + f) == o + h + f;
  }

  lemma EntryAt(bodies: seq<string>, i: nat) returns (after: string)
    requires 1 <= i <= |bodies|
    requires i > 1 ==> Offset(bodies, i - 1) < Power10(10)
    ensures First(bodies) + 20 * i <= |File(bodies)|
    ensures File(bodies)[First(bodies) + 20 * i..] == Entry(Offset(bodies, i)) + after
    ensures |after| >= 10
  {
    var tail := EntriesExtend(bodies, i, |bodies|);
    var size, at := |bodies| + 1, XrefPosition(bodies);
    var objects, earlier := Objects(bodies, |bodies|), Entries(bodies, i - 1);
    after := tail + Trailer(size, at);
    EntryShape(objects, XrefHead(size), FREE_ENTRY, earlier, Entry(Offset(bodies, i)), tail, Trailer(size, at));
    EntriesAreAligned(bodies, i - 1);
    var before := objects + XrefHead(size) + FREE_ENTRY + earlier;
    assert |before| == First(bodies) + 20 * i;
    DropPrefix(before, Entry(Offset(bodies, i)) + after);
  }

  lemma EntryTextReads(pdf: string, first: nat, i: nat, offset: nat, after: string)
    requires first + 20 * i <= |pdf| && pdf[first + 20 * i..] == Entry(offset) + after && offset < Power10(10)
    ensures ReadEntry(pdf, first, i) == Some(offset)
  {
    EntryFormat(offset);
    var at := first + 20 * i;
    assert pdf[at..at + 20] == pdf[at..][..20] == Entry(offset);
  }

  lemma EntryReads(bodies: seq<string>, i: nat)
    requires 1 <= i <= |bodies| && Offset(bodies, i) < Power10(10)
    ensures ReadEntry(File(bodies), First(bodies), i) == Some(Offset(bodies, i))
  {
    if i > 1 {
      OffsetsGrow(bodies, i - 1, i);
    }
    var after := EntryAt(bodies, i);
    EntryTextReads(File(bodies), First(bodies), i, Offset(bodies, i), after);
  }

  /** The first offset with eleven digits breaks its entry: where the space should be, the
   *  reader finds a digit. */
  lemma WideEntryFails(bodies: seq<string>, i: nat)
    requires 1 <= i <= |bodies| && Offset(bodies, i) >= Power10(10)
    requires i > 1 ==> Offset(bodies, i - 1) < Power10(10)
    ensures ReadEntry(File(bodies), First(bodies), i) == None
  {
    var after := EntryAt(bodies, i);
    var at, entry := First(bodies) + 20 * i, Entry(Offset(bodies, i));
    ValueOfPad(Offset(bodies, i), 10);
    assert |Pad(Offset(bodies, i), 10)| > 10;
    assert IsDigit(Pad(Offset(bodies, i), 10)[10]);
    assert File(bodies)[at..at + 20][10] == File(bodies)[at..][10] == entry[10];
  }

  /** The table is readable as a whole exactly when the last object starts below 10^10. */
  lemma TableReadsExactly(bodies: seq<string>)
    requires bodies != []
    ensures (forall i :: 1 <= i <= |bodies| ==>
              ReadEntry(File(bodies), First(bodies), i) == Some(Offset(bodies, i)))
            <==> Offset(bodies, |bodies|) < Power10(10)
  {
    if Offset(bodies, |bodies|) < Power10(10) {
      forall i | 1 <= i <= |bodies|
        ensures ReadEntry(File(bodies), First(bodies), i) == Some(Offset(bodies, i))
      {
        OffsetsGrow(bodies, i, |bodies|);
        EntryReads(bodies, i);
      }
    } else {
      var i := FirstWide(bodies, |bodies|);
      WideEntryFails(bodies, i);
    }
  }

  lemma {:induction false} FirstWide(bodies: seq<string>, upto: nat) returns (i: nat)
    requires 1 <= upto <= |bodies| && Offset(bodies, upto) >= Power10(10)
    ensures 1 <= i <= upto && Offset(bodies, i) >= Power10(10)
    ensures i > 1 ==> Offset(bodies, i - 1) < Power10(10)
    decreases upto
  {
    if upto == 1 || Offset(bodies, upto - 1) < Power10(10) {
      i := upto;
    } else {
      i := FirstWide(bodies, upto - 1);
    }
  }

  lemma ObjectAt(bodies: seq<string>, i: nat) returns (after: string)
    requires 1 <= i <= |bodies|
    ensures Offset(bodies, i) <= |File(bodies)|
    ensures File(bodies)[Offset(bodies, i)..] == Object(i, bodies[i - 1]) + after
  {
    var tail := ObjectsExtend(bodies, i, |bodies|);
    var before, numbered := Objects(bodies, i - 1), Object(i, bodies[i - 1]);
    var end := XrefHead(|bodies| + 1) + FREE_ENTRY + Entries(bodies, |bodies|) +
               Trailer(|bodies| + 1, XrefPosition(bodies));
    after := tail + end;
    Associate(before, numbered, tail, end);
    Associate(before, numbered, tail + end, "");
    assert before + numbered + tail + end == before + (numbered + (tail + end));
    DropPrefix(before, numbered + after);
  }

  lemma ObjectShape(d: string, o: string, b: string, e: string, t: string)
    ensures d + o + b + e + t == d + (o + (b + (e + t)))
  {
    Associate(d, o, b, e);
    Associate(d + o, b, e, t);
    Associate(d, o, b + (e + t), "");
  }

  /** Reader round trip: following startxref and entry i lands on object i and its body. */
  lemma ObjectReads(bodies: seq<string>, i: nat) returns (after: string)
    requires 1 <= i <= |bodies| && Offset(bodies, i) < Power10(10)
    ensures ReadObject(File(bodies), i) == Some(bodies[i - 1] + (END_OBJECT + after))
  {
    XrefReads(bodies);
    EntryReads(bodies, i);
    after := ObjectAt(bodies, i);
    var content := bodies[i - 1] + (END_OBJECT + after);
    ObjectShape(Dec(i), OBJ, bodies[i - 1], END_OBJECT, after);
    assert (OBJ + content)[0] == OBJ[0] == ' ';
    ReadDec(i, OBJ + content);
    ExpectPrefix(OBJ, content);
  }

  lemma TrailerShape(ts: string, d: string, r: string, one: string, re: string, t: string)
    ensures ts + d + (r + one + re) + t == ts + (d + (r + (one + (re + t))))
  {
    Associate(ts, d, r + one + re, t);
    Associate(r, one, re, t);
    Associate(ts, d, r + one + re + t, "");
    assert r + one + re + t == (r + one + re) + t;
  }

  lemma FileShape(o: string, h: string, f: string, e: string, t: string)
    ensures o + (h + f + e + t) == (o + (h + f + e)) + t
  {
    Associate(o, h + f + e, t, "");
  }

  lemma RootReads(bodies: seq<string>)
    requires bodies != [] && Offset(bodies, |bodies|) < Power10(10)
    ensures ReadRoot(File(bodies)) == Some(1)
  {
    var size, at := |bodies| + 1, XrefPosition(bodies);
    var objects, entries := Objects(bodies, |bodies|), Entries(bodies, |bodies|);
    XrefReads(bodies);
    EntriesAreAligned(bodies, |bodies|);
    FileShape(objects, XrefHead(size), FREE_ENTRY, entries, Trailer(size, at));
    RootReadsFrom(objects + (XrefHead(size) + FREE_ENTRY + entries), size, First(bodies), at);
  }

  lemma RootReadsFrom(before: string, size: nat, first: nat, at: nat)
    requires ReadXref(before + Trailer(size, at)) == Xref(size, first)
    requires |before| == first + 20 * size
    ensures ReadRoot(before + Trailer(size, at)) == Some(1)
  {
    DropPrefix(before, Trailer(size, at));
    TrailerReads(size, at);
  }

  lemma TrailerReads(size: nat, at: nat)
    ensures var s := Expect(Trailer(size, at), TRAILER_SIZE);
            s.Some? && var n := ReadNumber(s.value);
            n.Number? && n.value == size && var t := Expect(n.rest, ROOT);
            t.Some? && var id := ReadNumber(t.value);
            id.Number? && id.value == 1 && Expect(id.rest, ROOT_END).Some?
  {
    var end := START_XREF + Dec(at) + END_FILE;
    Associate(TRAILER_SIZE + Dec(size) + TRAILER_ROOT, START_XREF, Dec(at), END_FILE);
    TrailerShape(TRAILER_SIZE, Dec(size), ROOT, Dec(1), ROOT_END, end);
    var t1 := Dec(1) + (ROOT_END + end);
    ExpectPrefix(TRAILER_SIZE, Dec(size) + (ROOT + t1));
    assert (ROOT + t1)[0] == ROOT[0] == ' ';
    ReadDec(size, ROOT + t1);
    ExpectPrefix(ROOT, t1);
    assert (ROOT_END + end)[0] == ROOT_END[0] == ' ';
    ReadDec(1, ROOT_END + end);
    ExpectPrefix(ROOT_END, end);
  }
}
