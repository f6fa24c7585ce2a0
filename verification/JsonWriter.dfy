/** The JSON text itself: the sizes that compaction reckons with are its lengths. */
module JsonWriter {
  import opened JsonText

  // ---- Strings ----------------------------------------------------------------------------------

  function HexDigit(d: nat): char
    requires d < 16
  {
    if d < 10 then ('0' as int + d) as char else ('a' as int + (d - 10)) as char
  }

  /** Four hexadecimal digits after \u. */
  function Unicode(n: nat): string
    requires n < 0x10000
  {
    ['\\', 'u', HexDigit(n / 0x1000), HexDigit(n / 0x100 % 0x10), HexDigit(n / 0x10 % 0x10), HexDigit(n % 0x10)]
  }

  /** One character of a string: short escapes, ASCII as it is, and the rest by code units. */
  function WriteChar(c: char): string {
    var n := c as int;
    if c == '"' then "\\\""
    else if c == '\\' then "\\\\"
    else if c == '\n' then "\\n"
    else if c == '\r' then "\\r"
    else if c == '\t' then "\\t"
    else if n == 8 then "\\b"
    else if n == 12 then "\\f"
    else if 32 <= n <= 126 then [c]
    else if n < 0x10000 then Unicode(n)
    else Unicode(0xD800 + (n - 0x10000) / 0x400) + Unicode(0xDC00 + (n - 0x10000) % 0x400)
  }

  function WriteChars(s: string): string { if s == "" then "" else WriteChar(s[0]) + WriteChars(s[1..]) }

  function WriteString(s: string): string { "\"" + WriteChars(s) + "\"" }

  // ---- Values -------------------------------------------------------------------------------------

  function Write(j: Json): string
    decreases j
  {
    match j
    case Atom(text) => text
    case Str(s) => WriteString(s)
    case List(items) => "[" + WriteItems(items) + "]"
    case Obj(fields) => "{" + WriteFields(fields) + "}"
  }

  function WriteItems(items: seq<Json>): string
    decreases items
  {
    if items == [] then ""
    else if |items| == 1 then Write(items[0])
    else Write(items[0]) + ", " + WriteItems(items[1..])
  }

  function WriteFields(fields: seq<Field>): string
    decreases fields
  {
    if fields == [] then ""
    else if |fields| == 1 then WriteField(fields[0])
    else WriteField(fields[0]) + ", " + WriteFields(fields[1..])
  }

  function WriteField(f: Field): string
    decreases f
  {
    WriteString(f.key) + ": " + Write(f.value)
  }

  lemma CharSizeIsLength(c: char)
    ensures CharSize(c) == |WriteChar(c)|
  {
  }

  lemma {:induction false} CharsSizeIsLength(s: string)
    ensures CharsSize(s) == |WriteChars(s)|
    ensures Quoted(s) == |WriteString(s)|
    decreases |s|
  {
    if s != "" {
      CharSizeIsLength(s[0]);
      CharsSizeIsLength(s[1..]);
    }
  }

  /** The size of a value is the length of its text. */
  lemma {:induction false} SizeIsLength(j: Json)
    ensures Size(j) == |Write(j)|
    decreases j
  {
    match j
    case Atom(_) =>
    case Str(s) => CharsSizeIsLength(s);
    case List(items) => ItemsSizeIsLength(items);
    case Obj(fields) => FieldsSizeIsLength(fields);
  }

  lemma {:induction false} ItemsSizeIsLength(items: seq<Json>)
    ensures ItemsSize(items) == |WriteItems(items)|
    decreases items
  {
    if items != [] {
      SizeIsLength(items[0]);
      ItemsSizeIsLength(items[1..]);
    }
  }

  lemma {:induction false} FieldsSizeIsLength(fields: seq<Field>)
    ensures FieldsSize(fields) == |WriteFields(fields)|
    decreases fields
  {
    if fields != [] {
      FieldSizeIsLength(fields[0]);
      FieldsSizeIsLength(fields[1..]);
    }
  }

  lemma {:induction false} FieldSizeIsLength(f: Field)
    ensures FieldSize(f) == |WriteField(f)|
    decreases f
  {
    CharsSizeIsLength(f.key);
    SizeIsLength(f.value);
  }

  // ---- Shortened values ---------------------------------------------------------------------------

  /** A kept string is the original, or its first `most` characters and one ellipsis. */
  predicate ShortString(s: string, t: string, most: nat) {
    if |s| <= most then t == s
    else |t| == most + 1 && t[..most] == s[..most] && t[most] == '\U{2026}'
  }

  /** The same value but for long strings, at any depth. */
  predicate ShortOf(j: Json, k: Json, most: nat)
    decreases j
  {
    match j
    case Atom(_) => k == j
    case Str(s) => k.Str? && ShortString(s, k.s, most)
    case List(items) => k.List? && ShortItems(items, k.items, most)
    case Obj(fields) => k.Obj? && ShortFields(fields, k.fields, most)
  }

  predicate ShortItems(items: seq<Json>, others: seq<Json>, most: nat)
    decreases items
  {
    |items| == |others| && forall i :: 0 <= i < |items| ==> ShortOf(items[i], others[i], most)
  }

  predicate ShortFields(fields: seq<Field>, others: seq<Field>, most: nat)
    decreases fields
  {
    |fields| == |others| &&
    forall i :: 0 <= i < |fields| ==> others[i].key == fields[i].key && ShortField(fields[i], others[i], most)
  }

  predicate ShortField(f: Field, g: Field, most: nat)
    decreases f
  {
    ShortOf(f.value, g.value, most)
  }

  /** All strings of a value but the keys, in order. */
  function StringsOf(j: Json): seq<string>
    decreases j
  {
    match j
    case Atom(_) => []
    case Str(s) => [s]
    case List(items) => StringsOfItems(items)
    case Obj(fields) => StringsOfFields(fields)
  }

  function StringsOfItems(items: seq<Json>): seq<string>
    decreases items
  {
    if items == [] then [] else StringsOf(items[0]) + StringsOfItems(items[1..])
  }

  function StringsOfFields(fields: seq<Field>): seq<string>
    decreases fields
  {
    if fields == [] then [] else StringsOf(fields[0].value) + StringsOfFields(fields[1..])
  }

  function CountLong(strings: seq<string>, most: nat): nat {
    if strings == [] then 0 else (if |strings[0]| > most then 1 else 0) + CountLong(strings[1..], most)
  }

  lemma {:induction false} CountLongAppend(a: seq<string>, b: seq<string>, most: nat)
    ensures CountLong(a + b, most) == CountLong(a, most) + CountLong(b, most)
    decreases |a|
  {
    if a == [] {
      assert a + b == b;
    } else {
      assert (a + b)[1..] == a[1..] + b;
      CountLongAppend(a[1..], b, most);
    }
  }

  /** Shortening keeps everything but the tails of long strings, and the marker counts those. */
  lemma {:induction false} ShortenExactly(j: Json, most: nat)
    ensures ShortOf(j, Shorten(j, most), most)
    ensures LongStrings(j, most) == CountLong(StringsOf(j), most)
    decreases j
  {
    match j
    case Atom(_) =>
    case Str(s) => assert [s][1..] == [];
    case List(items) => ShortenItemsExactly(items, most);
    case Obj(fields) => ShortenFieldsExactly(fields, most);
  }

  lemma {:induction false} ShortenItemsExactly(items: seq<Json>, most: nat)
    ensures ShortItems(items, ShortenItems(items, most), most)
    ensures LongItems(items, most) == CountLong(StringsOfItems(items), most)
    decreases items
  {
    if items != [] {
      ShortenExactly(items[0], most);
      ShortenItemsExactly(items[1..], most);
      CountLongAppend(StringsOf(items[0]), StringsOfItems(items[1..]), most);
      assert ShortenItems(items, most)[1..] == ShortenItems(items[1..], most);
    }
  }

  lemma {:induction false} ShortenFieldsExactly(fields: seq<Field>, most: nat)
    ensures ShortFields(fields, ShortenFields(fields, most), most)
    ensures LongFields(fields, most) == CountLong(StringsOfFields(fields), most)
    decreases fields
  {
    if fields != [] {
      ShortenExactly(fields[0].value, most);
      ShortenFieldsExactly(fields[1..], most);
      CountLongAppend(StringsOf(fields[0].value), StringsOfFields(fields[1..]), most);
      assert ShortenFields(fields, most)[1..] == ShortenFields(fields[1..], most);
    }
  }
}
