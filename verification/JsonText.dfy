/** JSON values, the length of their text, and the shortening of long strings. */
module JsonText {

  type Word = s: string | s != "" witness "0"

  /** A JSON value; numbers, booleans and null are their text. */
  datatype Json = Atom(text: Word) | Str(s: string) | List(items: seq<Json>) | Obj(fields: seq<Field>)

  datatype Field = Field(key: string, value: Json)

  // ---- The length of the JSON text ------------------------------------------------------------

  /** Characters that the serializer writes for one character of a string. */
  function CharSize(c: char): nat {
    if c == '"' || c == '\\' || c == '\n' || c == '\r' || c == '\t' || c as int == 8 || c as int == 12 then 2
    else if ' ' <= c <= '~' then 1
    else if c as int > 0xFFFF then 12
    else 6
  }

  function CharsSize(s: string): nat {
    if s == "" then 0 else CharSize(s[0]) + CharsSize(s[1..])
  }

  function Quoted(s: string): nat { CharsSize(s) + 2 }

  /** Items are separated by two characters, and so are a key and its value. */
  function Size(j: Json): (n: nat)
    ensures n >= 1
    decreases j
  {
    match j
    case Atom(text) => |text|
    case Str(s) => Quoted(s)
    case List(items) => 2 + ItemsSize(items)
    case Obj(fields) => 2 + FieldsSize(fields)
  }

  function ItemsSize(items: seq<Json>): nat
    decreases items
  {
    if items == [] then 0
    else Size(items[0]) + (if |items| > 1 then 2 else 0) + ItemsSize(items[1..])
  }

  function FieldSize(f: Field): nat
    decreases f
  {
    Quoted(f.key) + 2 + Size(f.value)
  }

  function FieldsSize(fields: seq<Field>): nat
    decreases fields
  {
    if fields == [] then 0
    else FieldSize(fields[0]) + (if |fields| > 1 then 2 else 0) + FieldsSize(fields[1..])
  }

  lemma {:induction false} FieldsSizeAppend(fields: seq<Field>, f: Field)
    ensures FieldsSize(fields + [f]) == FieldsSize(fields) + (if fields == [] then 0 else 2) + FieldSize(f)
    decreases |fields|
  {
    if fields == [] {
      assert fields + [f] == [f] && [f][1..] == [];
    } else {
      assert (fields + [f])[1..] == fields[1..] + [f];
      FieldsSizeAppend(fields[1..], f);
    }
  }

  // ---- Shortening strings ------------------------------------------------------------------------

  const ELLIPSIS: char := '\U{2026}'

  function Shorten(j: Json, maxStr: nat): Json
    decreases j
  {
    match j
    case Str(s) => if |s| > maxStr then Str(s[..maxStr] + [ELLIPSIS]) else j
    case List(items) => List(ShortenItems(items, maxStr))
    case Obj(fields) => Obj(ShortenFields(fields, maxStr))
    case Atom(_) => j
  }

  function ShortenItems(items: seq<Json>, maxStr: nat): (r: seq<Json>)
    ensures |r| == |items|
    decreases items
  {
    if items == [] then [] else [Shorten(items[0], maxStr)] + ShortenItems(items[1..], maxStr)
  }

  function ShortenFields(fields: seq<Field>, maxStr: nat): (r: seq<Field>)
    ensures |r| == |fields| && forall i :: 0 <= i < |fields| ==> r[i].key == fields[i].key
    decreases fields
  {
    if fields == [] then []
    else [Field(fields[0].key, Shorten(fields[0].value, maxStr))] + ShortenFields(fields[1..], maxStr)
  }

  /** How many strings shortening cuts. */
  function LongStrings(j: Json, maxStr: nat): nat
    decreases j
  {
    match j
    case Str(s) => if |s| > maxStr then 1 else 0
    case List(items) => LongItems(items, maxStr)
    case Obj(fields) => LongFields(fields, maxStr)
    case Atom(_) => 0
  }

  function LongItems(items: seq<Json>, maxStr: nat): nat
    decreases items
  {
    if items == [] then 0 else LongStrings(items[0], maxStr) + LongItems(items[1..], maxStr)
  }

  function LongFields(fields: seq<Field>, maxStr: nat): nat
    decreases fields
  {
    if fields == [] then 0 else LongStrings(fields[0].value, maxStr) + LongFields(fields[1..], maxStr)
  }

  lemma {:induction false} PlainSize(s: string)
    requires forall c :: c in s ==> CharSize(c) == 1
    ensures CharsSize(s) == |s|
    decreases |s|
  {
    if s != "" {
      PlainSize(s[1..]);
    }
  }

  lemma AppendedSize(out: seq<Field>, key: string, value: Json)
    ensures Size(Obj(out + [Field(key, value)])) == Size(Obj(out)) + Size(value) + Quoted(key) + if out == [] then 2 else 4
  {
    FieldsSizeAppend(out, Field(key, value));
  }

  lemma LongText(n: nat) returns (s: string)
    ensures |s| == n && CharsSize(s) == n && forall k :: 0 <= k <= n ==> CharsSize(s[..k]) == k
  {
    s := seq(n, _ => 'x');
    PlainSize(s);
    forall k | 0 <= k <= n
      ensures CharsSize(s[..k]) == k
    {
      PlainSize(s[..k]);
    }
  }

  lemma {:induction false} TextSizeBound(s: string)
    ensures CharsSize(s) <= 12 * |s|
    decreases |s|
  {
    if s != "" {
      TextSizeBound(s[1..]);
    }
  }

  lemma ThreeFieldsSize(a: string, b: string, c: string, x: Json, y: Json, z: Json)
    ensures Size(Obj([Field(a, x), Field(b, y), Field(c, z)])) ==
            Quoted(a) + Quoted(b) + Quoted(c) + Size(x) + Size(y) + Size(z) + 12
  {
    var f, g, h := Field(a, x), Field(b, y), Field(c, z);
    assert [] + [f] == [f] && [f] + [g] == [f, g] && [f, g] + [h] == [f, g, h];
    FieldsSizeAppend([], f);
    FieldsSizeAppend([f], g);
    FieldsSizeAppend([f, g], h);
  }

  lemma {:induction false} TextAppend(s: string, t: string)
    ensures CharsSize(s + t) == CharsSize(s) + CharsSize(t)
    decreases |s|
  {
    if s == "" {
      assert s + t == t;
    } else {
      assert (s + t)[1..] == s[1..] + t;
      TextAppend(s[1..], t);
    }
  }

  lemma {:induction false} ShortenedAt(fields: seq<Field>, maxStr: nat, i: nat)
    requires i < |fields|
    ensures ShortenFields(fields, maxStr)[i] == Field(fields[i].key, Shorten(fields[i].value, maxStr))
    decreases |fields|
  {
    if i > 0 {
      ShortenedAt(fields[1..], maxStr, i - 1);
    }
  }
}
