/** Compaction of an agent's context so that its JSON text fits a character budget. */
module Compaction {
  import opened Prelude
  import opened Decimal
  import opened JsonText

  // ---- The marker ------------------------------------------------------------------------------------

  /** How many items a list has lost. */
  datatype Tally = Tally(key: string, count: nat)

  datatype Note = Note(shortened: nat, trimmed: seq<Tally>, dropped: seq<string>)

  const MARKER := "_compacted"

  function NoteObject(note: Note, shortened: string, trimmed: string, dropped: string): Json {
    Obj([Field(shortened, Atom(Dec(note.shortened))),
         Field(trimmed, Obj(TallyFields(note.trimmed))),
         Field(dropped, List(Strings(note.dropped)))])
  }

  function NoteJson(note: Note): Json { NoteObject(note, "strings_shortened", "lists_trimmed", "keys_dropped") }

  function TallyFields(tallies: seq<Tally>): seq<Field> {
    seq(|tallies|, i requires 0 <= i < |tallies| => Field(tallies[i].key, Atom(Dec(tallies[i].count))))
  }

  function Strings(keys: seq<string>): seq<Json> { seq(|keys|, i requires 0 <= i < |keys| => Str(keys[i])) }

  function Increment(tallies: seq<Tally>, key: string): seq<Tally> {
    if tallies == [] then [Tally(key, 1)]
    else if tallies[0].key == key then [Tally(key, tallies[0].count + 1)] + tallies[1..]
    else [tallies[0]] + Increment(tallies[1..], key)
  }

  /** The tallies after trimming these lists one item each, in this order. */
  function TallyOf(trims: seq<string>): seq<Tally> {
    if trims == [] then [] else Increment(TallyOf(trims[..|trims| - 1]), trims[|trims| - 1])
  }

  function Lookup(tallies: seq<Tally>, key: string): nat {
    if tallies == [] then 0 else if tallies[0].key == key then tallies[0].count else Lookup(tallies[1..], key)
  }

  // ---- What is left ------------------------------------------------------------------------------------

  predicate DistinctKeys(fields: seq<Field>) {
    forall i, j :: 0 <= i < j < |fields| ==> fields[i].key != fields[j].key
  }

  predicate HasKey(fields: seq<Field>, key: string) { exists i :: 0 <= i < |fields| && fields[i].key == key }

  function Count(trims: seq<string>, key: string): nat { multiset(trims)[key] }

  /** The list without its last n items. */
  function Head(items: seq<Json>, n: nat): seq<Json> {
    if n <= |items| then items[..|items| - n] else []
  }

  function CutField(f: Field, trims: seq<string>): Field {
    if f.value.List? then Field(f.key, List(Head(f.value.items, Count(trims, f.key)))) else f
  }

  /** Every list without as many of its last items as it was trimmed. */
  function Cut(fields: seq<Field>, trims: seq<string>): seq<Field> {
    seq(|fields|, i requires 0 <= i < |fields| => CutField(fields[i], trims))
  }

  /** The fields whose keys are not dropped, in order. */
  function Keep(fields: seq<Field>, dropped: seq<string>): (r: seq<Field>)
    ensures forall f :: f in r <==> f in fields && f.key !in dropped
  {
    if fields == [] then []
    else if fields[0].key in dropped then Keep(fields[1..], dropped)
    else [fields[0]] + Keep(fields[1..], dropped)
  }

  function Left(fields: seq<Field>, trims: seq<string>, dropped: seq<string>): seq<Field> {
    Keep(Cut(fields, trims), dropped)
  }

  function Weight(fields: seq<Field>, shortened: nat, trims: seq<string>, dropped: seq<string>): nat {
    Size(Obj(Left(fields, trims, dropped))) + Size(NoteJson(Note(shortened, TallyOf(trims), dropped)))
  }

  /** How large a context and its marker are after the given trims and drops. */
  type Weigh = (seq<string>, seq<string>) -> nat

  function Weighing(fields: seq<Field>, shortened: nat): Weigh {
    (trims: seq<string>, dropped: seq<string>) => Weight(fields, shortened, trims, dropped)
  }

  predicate Trimmable(f: Field) { f.value.List? && |f.value.items| > 1 }

  /** Field p is the first of the longest lists with more than one item. */
  predicate IsLongest(fields: seq<Field>, p: nat) {
    p < |fields| && Trimmable(fields[p]) &&
    forall i :: 0 <= i < |fields| && Trimmable(fields[i]) ==>
      if i < p then Size(fields[i].value) < Size(fields[p].value) else Size(fields[i].value) <= Size(fields[p].value)
  }

  /** Field p is the first of the largest. */
  predicate IsLargest(fields: seq<Field>, p: nat) {
    p < |fields| &&
    forall i :: 0 <= i < |fields| ==>
      if i < p then Size(fields[i].value) < Size(fields[p].value) else Size(fields[i].value) <= Size(fields[p].value)
  }

  // ---- The greedy run: every removal was needed, and took the largest there was ------------------------

  /** Every element passes the test after the elements before it. */
  ghost predicate Steps(s: seq<string>, test: (seq<string>, string) -> bool) {
    s == [] || (Steps(s[..|s| - 1], test) && test(s[..|s| - 1], s[|s| - 1]))
  }

  lemma OneMoreStep(s: seq<string>, x: string, test: (seq<string>, string) -> bool)
    requires Steps(s, test) && test(s, x)
    ensures Steps(s + [x], test)
  {
    assert (s + [x])[..|s|] == s;
  }

  lemma {:induction false} FirstStep(s: seq<string>, test: (seq<string>, string) -> bool)
    requires Steps(s, test) && s != []
    ensures test([], s[0])
    decreases |s|
  {
    if |s| == 1 {
      assert s[..0] == [];
    } else {
      FirstStep(s[..|s| - 1], test);
    }
  }

  lemma {:induction false} StepOf(s: seq<string>, x: string, test: (seq<string>, string) -> bool) returns (before: seq<string>)
    requires Steps(s, test) && x in s
    ensures test(before, x)
    decreases |s|
  {
    before := s[..|s| - 1];
    if x != s[|s| - 1] {
      before := StepOf(before, x, test);
    }
  }

  lemma {:induction false} StepsAreDistinct(s: seq<string>, test: (seq<string>, string) -> bool)
    requires Steps(s, test) && forall before, x :: test(before, x) ==> x !in before
    ensures Distinct(s)
    decreases |s|
  {
    if s != [] {
      StepsAreDistinct(s[..|s| - 1], test);
      assert s[|s| - 1] !in s[..|s| - 1];
    }
  }

  ghost predicate TrimsAreGreedy(fields: seq<Field>, limit: int, weigh: Weigh, trims: seq<string>) {
    Steps(trims, (before: seq<string>, key: string) => TrimIsGreedy(fields, limit, weigh, before, key))
  }

  ghost predicate TrimIsGreedy(fields: seq<Field>, limit: int, weigh: Weigh, before: seq<string>, key: string) {
    weigh(before, []) > limit &&
    exists p: nat :: IsLongest(Cut(fields, before), p) && fields[p].key == key
  }

  ghost predicate DropsAreGreedy(fields: seq<Field>, limit: int, weigh: Weigh, trims: seq<string>, dropped: seq<string>) {
    Steps(dropped, (before: seq<string>, key: string) => DropIsGreedy(fields, limit, weigh, trims, before, key))
  }

  ghost predicate DropIsGreedy(fields: seq<Field>, limit: int, weigh: Weigh, trims: seq<string>,
                               before: seq<string>, key: string)
  {
    weigh(trims, before) > limit &&
    (forall f :: f in Cut(fields, trims) ==> !Trimmable(f)) &&
    exists p: nat :: IsLargest(Left(fields, trims, before), p) && Left(fields, trims, before)[p].key == key
  }

  /** The removals were greedy and stopped when everything fitted or nothing was left. */
  ghost predicate GreedyRun(fields: seq<Field>, limit: int, weigh: Weigh, trims: seq<string>, dropped: seq<string>) {
    TrimsAreGreedy(fields, limit, weigh, trims) &&
    DropsAreGreedy(fields, limit, weigh, trims, dropped) &&
    (weigh(trims, dropped) <= limit || Left(fields, trims, dropped) == [])
  }

  // ---- Facts about the pieces --------------------------------------------------------------------------

  lemma CountAppend(trims: seq<string>, key: string, other: string)
    ensures Count(trims + [key], other) == Count(trims, other) + if other == key then 1 else 0
  {
  }

  /** Trimming a list once more takes off its last item and touches nothing else. */
  lemma CutStep(fields: seq<Field>, trims: seq<string>, p: nat)
    requires DistinctKeys(fields) && p < |fields| && Trimmable(Cut(fields, trims)[p])
    ensures var f := Cut(fields, trims)[p];
            f.key == fields[p].key &&
            Cut(fields, trims + [f.key]) ==
            Cut(fields, trims)[p := Field(f.key, List(f.value.items[..|f.value.items| - 1]))]
  {
    var key := fields[p].key;
    CountAppend(trims, key, key);
    var items, n := fields[p].value.items, Count(trims, key);
    assert Head(items, n + 1) == Head(items, n)[..|Head(items, n)| - 1];
    forall i | 0 <= i < |fields| && i != p
      ensures CutField(fields[i], trims + [key]) == CutField(fields[i], trims)
    {
      CountAppend(trims, key, fields[i].key);
    }
  }

  lemma CutKeepsKeys(fields: seq<Field>, trims: seq<string>)
    requires DistinctKeys(fields)
    ensures DistinctKeys(Cut(fields, trims))
  {
  }

  lemma {:induction false} KeepAll(fields: seq<Field>)
    ensures Keep(fields, []) == fields
    decreases |fields|
  {
    if fields != [] {
      KeepAll(fields[1..]);
    }
  }

  lemma {:induction false} KeepIsDistinct(fields: seq<Field>, dropped: seq<string>)
    requires DistinctKeys(fields)
    ensures DistinctKeys(Keep(fields, dropped))
    decreases |fields|
  {
    if fields != [] {
      KeepIsDistinct(fields[1..], dropped);
      var rest := Keep(fields[1..], dropped);
      forall f | f in rest
        ensures f.key != fields[0].key
      {
        assert f in fields[1..];
      }
    }
  }

  /** Dropping one more key removes exactly the field that has it. */
  lemma KeepStep(fields: seq<Field>, dropped: seq<string>, p: nat)
    requires DistinctKeys(fields) && p < |Keep(fields, dropped)|
    ensures var left := Keep(fields, dropped);
            Keep(fields, dropped + [left[p].key]) == left[..p] + left[p + 1..]
  {
    var left := Keep(fields, dropped);
    KeepTwice(fields, dropped, left[p].key);
    KeepIsDistinct(fields, dropped);
    KeepBut(left, p);
  }

  lemma KeepFirst(f: Field, rest: seq<Field>, key: string)
    ensures Keep([f] + rest, [key]) == if f.key == key then Keep(rest, [key]) else [f] + Keep(rest, [key])
  {
    assert ([f] + rest)[1..] == rest;
  }

  lemma {:induction false} KeepTwice(fields: seq<Field>, dropped: seq<string>, key: string)
    ensures Keep(fields, dropped + [key]) == Keep(Keep(fields, dropped), [key])
    decreases |fields|
  {
    if fields != [] {
      KeepTwice(fields[1..], dropped, key);
      if fields[0].key !in dropped {
        KeepFirst(fields[0], Keep(fields[1..], dropped), key);
      }
    }
  }

  lemma SkipAfterFirst(f: Field, rest: seq<Field>, p: nat)
    requires 1 <= p <= |rest|
    ensures [f] + (rest[..p - 1] + rest[p..]) == ([f] + rest)[..p] + ([f] + rest)[p + 1..]
  {
  }

  lemma {:induction false} KeepBut(fields: seq<Field>, p: nat)
    requires DistinctKeys(fields) && p < |fields|
    ensures Keep(fields, [fields[p].key]) == fields[..p] + fields[p + 1..]
    decreases |fields|
  {
    var f, rest := fields[0], fields[1..];
    assert fields == [f] + rest;
    if p == 0 {
      KeepOthers(rest, [], f.key);
      KeepAll(rest);
      assert [] + [f.key] == [f.key];
    } else {
      var key := rest[p - 1].key;
      KeepBut(rest, p - 1);
      KeepFirst(f, rest, key);
      assert f.key != key;
      SkipAfterFirst(f, rest, p);
    }
  }

  lemma {:induction false} KeepOthers(fields: seq<Field>, dropped: seq<string>, key: string)
    requires forall f :: f in fields ==> f.key != key
    ensures Keep(fields, dropped + [key]) == Keep(fields, dropped)
    decreases |fields|
  {
    if fields != [] {
      KeepOthers(fields[1..], dropped, key);
    }
  }

  lemma {:induction false} IncrementCounts(tallies: seq<Tally>, key: string, other: string)
    ensures Lookup(Increment(tallies, key), other) == Lookup(tallies, other) + if other == key then 1 else 0
    decreases |tallies|
  {
    if tallies != [] && tallies[0].key != key {
      IncrementCounts(tallies[1..], key, other);
    }
  }

  /** The marker's tallies are the numbers of trims. */
  lemma {:induction false} TallyCounts(trims: seq<string>, key: string)
    ensures Lookup(TallyOf(trims), key) == Count(trims, key)
    decreases |trims|
  {
    if trims != [] {
      var before, last := trims[..|trims| - 1], trims[|trims| - 1];
      TallyCounts(before, key);
      IncrementCounts(TallyOf(before), last, key);
      assert trims == before + [last];
      CountAppend(before, last, key);
    }
  }

  // ---- The algorithm --------------------------------------------------------------------------------------

  method LongestList(fields: seq<Field>) returns (best: Option<nat>)
    ensures best.None? <==> forall f :: f in fields ==> !Trimmable(f)
    ensures best.Some? ==> IsLongest(fields, best.value)
  {
    best := None;
    for i := 0 to |fields|
      invariant best.None? <==> forall f :: f in fields[..i] ==> !Trimmable(f)
      invariant best.Some? ==> best.value < i && IsLongest(fields[..i], best.value)
    {
      assert fields[..i + 1] == fields[..i] + [fields[i]];
      if Trimmable(fields[i]) && (best.None? || Size(fields[i].value) > Size(fields[best.value].value)) {
        best := Some(i);
        assert forall j :: 0 <= j < i && Trimmable(fields[j]) ==> fields[j] in fields[..i];
      }
    }
    assert fields[..|fields|] == fields;
  }

  method LargestField(fields: seq<Field>) returns (p: nat)
    requires fields != []
    ensures IsLargest(fields, p)
  {
    p := 0;
    for i := 1 to |fields|
      invariant p < i && IsLargest(fields[..i], p)
    {
      assert fields[..i + 1] == fields[..i] + [fields[i]];
      if Size(fields[i].value) > Size(fields[p].value) {
        p := i;
      }
    }
    assert fields[..|fields|] == fields;
  }

  function TotalItems(fields: seq<Field>): nat {
    if fields == [] then 0
    else (if fields[0].value.List? then |fields[0].value.items| else 0) + TotalItems(fields[1..])
  }

  lemma {:induction false} TotalItemsAfter(fields: seq<Field>, p: nat, f: Field)
    requires p < |fields| && fields[p].value.List? && f.value.List? && |f.value.items| < |fields[p].value.items|
    ensures TotalItems(fields[p := f]) < TotalItems(fields)
    decreases |fields|
  {
    if p == 0 {
      assert fields[p := f][1..] == fields[1..];
    } else {
      assert fields[p := f][1..] == fields[1..][p - 1 := f];
      TotalItemsAfter(fields[1..], p - 1, f);
    }
  }

  /** Trims the longest list, one item at a time from its end, until the context fits or no
   *  list has more than one item. */
  method TrimLists(fields: seq<Field>, limit: int, shortened: nat, ghost weigh: Weigh)
    returns (out: seq<Field>, tallies: seq<Tally>, ghost trims: seq<string>)
    requires weigh == Weighing(fields, shortened)
    requires DistinctKeys(fields)
    ensures out == Cut(fields, trims) && tallies == TallyOf(trims)
    ensures TrimsAreGreedy(fields, limit, weigh, trims)
    ensures weigh(trims, []) <= limit || forall f :: f in out ==> !Trimmable(f)
  {
    out, tallies, trims := fields, [], [];
    NoTrimsNoCut(fields);
    KeepAll(out);
    while Size(Obj(out)) + Size(NoteJson(Note(shortened, tallies, []))) > limit
      invariant out == Cut(fields, trims) && Keep(out, []) == out && tallies == TallyOf(trims)
      invariant TrimsAreGreedy(fields, limit, weigh, trims)
      decreases TotalItems(out)
    {
      var best := LongestList(out);
      if best.None? {
        break;
      }
      var p, f := best.value, out[best.value];
      var shorter := Field(f.key, List(f.value.items[..|f.value.items| - 1]));
      CutStep(fields, trims, p);
      TotalItemsAfter(out, p, shorter);
      assert TrimIsGreedy(fields, limit, weigh, trims, f.key);
      OneMoreStep(trims, f.key, (before: seq<string>, key: string) => TrimIsGreedy(fields, limit, weigh, before, key));
      out, tallies, trims := out[p := shorter], Increment(tallies, f.key), trims + [f.key];
      KeepAll(out);
    }
  }

  /** Drops the largest field until the context fits or nothing is left. */
  method DropFields(fields: seq<Field>, limit: int, shortened: nat, cut: seq<Field>, tallies: seq<Tally>,
                    ghost trims: seq<string>, ghost weigh: Weigh)
    returns (out: seq<Field>, dropped: seq<string>)
    requires weigh == Weighing(fields, shortened)
    requires DistinctKeys(fields) && cut == Cut(fields, trims) && tallies == TallyOf(trims)
    requires TrimsAreGreedy(fields, limit, weigh, trims)
    requires weigh(trims, []) <= limit || forall f :: f in cut ==> !Trimmable(f)
    ensures out == Left(fields, trims, dropped)
    ensures GreedyRun(fields, limit, weigh, trims, dropped)
  {
    out, dropped := cut, [];
    KeepAll(cut);
    CutKeepsKeys(fields, trims);
    while Size(Obj(out)) + Size(NoteJson(Note(shortened, tallies, dropped))) > limit && out != []
      invariant out == Left(fields, trims, dropped)
      invariant DropsAreGreedy(fields, limit, weigh, trims, dropped)
      invariant weigh(trims, dropped) <= limit || forall f :: f in cut ==> !Trimmable(f)
      decreases |out|
    {
      var p := LargestField(out);
      var key := out[p].key;
      KeepStep(cut, dropped, p);
      assert DropIsGreedy(fields, limit, weigh, trims, dropped, key);
      OneMoreStep(dropped, key, (before: seq<string>, k: string) => DropIsGreedy(fields, limit, weigh, trims, before, k));
      out, dropped := out[..p] + out[p + 1..], dropped + [key];
    }
  }

  /** Stores a field under its key: in the place of the one it replaces, or at the end. */
  function PutField(fields: seq<Field>, f: Field): seq<Field> {
    if fields == [] then [f]
    else if fields[0].key == f.key then [f] + fields[1..]
    else [fields[0]] + PutField(fields[1..], f)
  }

  /** The result and its marker record a greedy run over the shortened context. */
  ghost predicate Compacted(ctx: seq<Field>, limit: int, maxStr: nat, result: seq<Field>, note: Note, trims: seq<string>) {
    var short := ShortenFields(ctx, maxStr);
    note == Note(LongFields(ctx, maxStr), TallyOf(trims), note.dropped) &&
    GreedyRun(short, limit, Weighing(short, note.shortened), trims, note.dropped) &&
    result == PutField(Left(short, trims, note.dropped), Field(MARKER, NoteJson(note)))
  }

  method Compact(ctx: seq<Field>, limit: int, maxStr: nat) returns (result: seq<Field>, note: Note, ghost trims: seq<string>)
    requires DistinctKeys(ctx)
    ensures Size(Obj(ctx)) <= limit ==> result == ctx
    ensures Size(Obj(ctx)) > limit ==> Compacted(ctx, limit, maxStr, result, note, trims)
  {
    trims := [];
    if Size(Obj(ctx)) <= limit {
      return ctx, Note(0, [], []), [];
    }
    var short, shortened := ShortenFields(ctx, maxStr), LongFields(ctx, maxStr);
    var cut, tallies;
    cut, tallies, trims := TrimLists(short, limit, shortened, Weighing(short, shortened));
    var out, dropped := DropFields(short, limit, shortened, cut, tallies, trims, Weighing(short, shortened));
    note := Note(shortened, tallies, dropped);
    result := PutField(out, Field(MARKER, NoteJson(note)));
  }

  // ---- Main results -------------------------------------------------------------------------------------------

  lemma {:induction false} PutNew(fields: seq<Field>, f: Field)
    requires !HasKey(fields, f.key)
    ensures PutField(fields, f) == fields + [f]
    decreases |fields|
  {
    if fields != [] {
      assert fields[0].key != f.key;
      assert forall i :: 0 <= i < |fields[1..]| ==> fields[1..][i] == fields[i + 1];
      PutNew(fields[1..], f);
    }
  }

  lemma LeftComesFrom(fields: seq<Field>, trims: seq<string>, dropped: seq<string>, f: Field)
    requires f in Left(fields, trims, dropped)
    ensures exists i :: 0 <= i < |fields| && f == CutField(fields[i], trims) && fields[i].key == f.key && f.key !in dropped
  {
    var i :| 0 <= i < |Cut(fields, trims)| && Cut(fields, trims)[i] == f;
  }

  lemma MarkerIsNew(ctx: seq<Field>, maxStr: nat, trims: seq<string>, dropped: seq<string>, note: Note)
    requires !HasKey(ctx, MARKER)
    ensures var out := Left(ShortenFields(ctx, maxStr), trims, dropped);
            PutField(out, Field(MARKER, NoteJson(note))) == out + [Field(MARKER, NoteJson(note))]
  {
    var short := ShortenFields(ctx, maxStr);
    var out := Left(short, trims, dropped);
    forall k | 0 <= k < |out|
      ensures out[k].key != MARKER
    {
      LeftComesFrom(short, trims, dropped, out[k]);
      var i :| 0 <= i < |short| && short[i].key == out[k].key;
      assert ctx[i].key == short[i].key;
    }
    PutNew(out, Field(MARKER, NoteJson(note)));
  }

  lemma MarkerSize()
    ensures Quoted(MARKER) == 12
  {
    assert |MARKER| == 10;
    PlainSize(MARKER);
  }

  /** The marker is added after the size was checked, so the result may be over the limit, by at
   *  most 16 characters, unless nothing but the marker is left. */
  lemma BudgetWithMarker(ctx: seq<Field>, limit: int, maxStr: nat, result: seq<Field>, note: Note, trims: seq<string>)
    requires !HasKey(ctx, MARKER) && Compacted(ctx, limit, maxStr, result, note, trims)
    ensures Size(Obj(result)) <= limit + 16 || result == [Field(MARKER, NoteJson(note))]
    ensures Size(Obj(result)) ==
            Weight(ShortenFields(ctx, maxStr), note.shortened, trims, note.dropped) + if |result| == 1 then 14 else 16
  {
    MarkerIsNew(ctx, maxStr, trims, note.dropped, note);
    AppendedSize(Left(ShortenFields(ctx, maxStr), trims, note.dropped), MARKER, NoteJson(note));
    MarkerSize();
  }

  lemma NoTrimsNoCut(fields: seq<Field>)
    ensures Cut(fields, []) == fields
  {
    forall i | 0 <= i < |fields| && fields[i].value.List?
      ensures Head(fields[i].value.items, 0) == fields[i].value.items
    {
    }
  }

  lemma DroppedKeyWasThere(fields: seq<Field>, limit: int, weigh: Weigh, trims: seq<string>, before: seq<string>, key: string)
    requires DropIsGreedy(fields, limit, weigh, trims, before, key)
    ensures HasKey(fields, key) && key !in before
  {
    var left := Left(fields, trims, before);
    var p: nat :| IsLargest(left, p) && left[p].key == key;
    LeftComesFrom(fields, trims, before, left[p]);
  }

  /** Keys are dropped once, and were there. */
  lemma DroppedOnce(fields: seq<Field>, limit: int, weigh: Weigh, trims: seq<string>, dropped: seq<string>, key: string)
    requires DropsAreGreedy(fields, limit, weigh, trims, dropped)
    ensures Distinct(dropped) && (key in dropped ==> HasKey(fields, key))
  {
    var test := (before: seq<string>, k: string) => DropIsGreedy(fields, limit, weigh, trims, before, k);
    forall before, x | test(before, x)
      ensures x !in before
    {
      DroppedKeyWasThere(fields, limit, weigh, trims, before, x);
    }
    StepsAreDistinct(dropped, test);
    if key in dropped {
      var before := StepOf(dropped, key, test);
      DroppedKeyWasThere(fields, limit, weigh, trims, before, key);
    }
  }

  lemma LeftHasKeys(fields: seq<Field>, trims: seq<string>, dropped: seq<string>, key: string)
    ensures HasKey(Left(fields, trims, dropped), key) <==> HasKey(fields, key) && key !in dropped
  {
    var out := Left(fields, trims, dropped);
    if HasKey(fields, key) && key !in dropped {
      var i :| 0 <= i < |fields| && fields[i].key == key;
      assert Cut(fields, trims)[i] in out;
    }
    if HasKey(out, key) {
      var k :| 0 <= k < |out| && out[k].key == key;
      LeftComesFrom(fields, trims, dropped, out[k]);
    }
  }

  lemma ShortenedKeys(fields: seq<Field>, maxStr: nat, key: string)
    ensures HasKey(ShortenFields(fields, maxStr), key) <==> HasKey(fields, key)
  {
    var short := ShortenFields(fields, maxStr);
    if HasKey(fields, key) {
      var i :| 0 <= i < |fields| && fields[i].key == key;
      assert short[i].key == key;
    }
  }

  lemma AppendedKeys(fields: seq<Field>, f: Field, key: string)
    ensures HasKey(fields + [f], key) <==> HasKey(fields, key) || f.key == key
  {
    assert (fields + [f])[|fields|] == f;
    assert forall i :: 0 <= i < |fields| ==> (fields + [f])[i] == fields[i];
  }

  /** Every original key is either kept or listed exactly once as dropped. */
  lemma KeysAreAccountedFor(ctx: seq<Field>, limit: int, maxStr: nat, result: seq<Field>, note: Note, trims: seq<string>, key: string)
    requires !HasKey(ctx, MARKER) && Compacted(ctx, limit, maxStr, result, note, trims)
    ensures HasKey(result, key) <==> key == MARKER || (HasKey(ctx, key) && key !in note.dropped)
    ensures key in note.dropped ==> HasKey(ctx, key)
    ensures Distinct(note.dropped)
  {
    var short := ShortenFields(ctx, maxStr);
    MarkerIsNew(ctx, maxStr, trims, note.dropped, note);
    AppendedKeys(Left(short, trims, note.dropped), Field(MARKER, NoteJson(note)), key);
    LeftHasKeys(short, trims, note.dropped, key);
    ShortenedKeys(ctx, maxStr, key);
    DroppedOnce(short, limit, Weighing(short, note.shortened), trims, note.dropped, key);
  }

  /** A list that is trimmed has more than one item left before. */
  lemma TrimmedHasTwo(fields: seq<Field>, limit: int, weigh: Weigh, before: seq<string>, i: nat)
    requires DistinctKeys(fields) && i < |fields| && TrimIsGreedy(fields, limit, weigh, before, fields[i].key)
    ensures fields[i].value.List? && Count(before, fields[i].key) + 1 < |fields[i].value.items|
  {
    var p: nat :| IsLongest(Cut(fields, before), p) && fields[p].key == fields[i].key;
    assert p == i;
  }

  /** No list is trimmed to nothing. */
  lemma {:induction false} TrimsLeaveOne(fields: seq<Field>, limit: int, weigh: Weigh, trims: seq<string>, i: nat)
    requires DistinctKeys(fields) && TrimsAreGreedy(fields, limit, weigh, trims)
    requires i < |fields| && fields[i].value.List?
    ensures Count(trims, fields[i].key) == 0 || Count(trims, fields[i].key) < |fields[i].value.items|
    decreases |trims|
  {
    if trims != [] {
      var before, last := trims[..|trims| - 1], trims[|trims| - 1];
      assert trims == before + [last];
      CountAppend(before, last, fields[i].key);
      if last == fields[i].key {
        TrimmedHasTwo(fields, limit, weigh, before, i);
      } else {
        TrimsLeaveOne(fields, limit, weigh, before, i);
      }
    }
  }

  /** The list kept under this key is a head of the given items, and it has lost as many of them
   *  as were trimmed, but not all. */
  ghost predicate KeepsHead(result: seq<Field>, key: string, items: seq<Json>, trimmed: nat) {
    exists head :: Field(key, List(head)) in result && head <= items && |head| + trimmed == |items| && (items != [] ==> head != [])
  }

  lemma HeadIsKept(left: seq<Field>, key: string, items: seq<Json>, n: nat)
    requires Field(key, List(Head(items, n))) in left && (n == 0 || n < |items|)
    ensures KeepsHead(left, key, items, n)
  {
  }

  lemma CutIsLeft(fields: seq<Field>, trims: seq<string>, dropped: seq<string>, i: nat)
    requires i < |fields| && fields[i].key !in dropped
    ensures CutField(fields[i], trims) in Left(fields, trims, dropped)
  {
    assert Cut(fields, trims)[i] in Cut(fields, trims);
  }

  lemma KeptField(fields: seq<Field>, limit: int, weigh: Weigh, trims: seq<string>, dropped: seq<string>, i: nat)
    requires DistinctKeys(fields) && TrimsAreGreedy(fields, limit, weigh, trims)
    requires i < |fields| && fields[i].key !in dropped
    ensures var left := Left(fields, trims, dropped);
            if fields[i].value.List?
            then KeepsHead(left, fields[i].key, fields[i].value.items, Lookup(TallyOf(trims), fields[i].key))
            else fields[i] in left
  {
    var left := Left(fields, trims, dropped);
    CutIsLeft(fields, trims, dropped, i);
    if fields[i].value.List? {
      TallyCounts(trims, fields[i].key);
      TrimsLeaveOne(fields, limit, weigh, trims, i);
      HeadIsKept(left, fields[i].key, fields[i].value.items, Count(trims, fields[i].key));
    }
  }

  lemma ShortenKeepsKeysDistinct(fields: seq<Field>, maxStr: nat)
    requires DistinctKeys(fields)
    ensures DistinctKeys(ShortenFields(fields, maxStr))
  {
  }

  /** A kept list is a head of the shortened original, and what is left of it plus what the
   *  marker says was trimmed is its original length; any other kept value is the shortened
   *  original. */
  lemma KeptValues(ctx: seq<Field>, limit: int, maxStr: nat, result: seq<Field>, note: Note, trims: seq<string>, i: nat)
    requires DistinctKeys(ctx) && !HasKey(ctx, MARKER) && Compacted(ctx, limit, maxStr, result, note, trims)
    requires i < |ctx| && ctx[i].key !in note.dropped
    ensures if ctx[i].value.List?
            then KeepsHead(result, ctx[i].key, ShortenItems(ctx[i].value.items, maxStr), Lookup(note.trimmed, ctx[i].key))
            else Field(ctx[i].key, Shorten(ctx[i].value, maxStr)) in result
  {
    var short := ShortenFields(ctx, maxStr);
    ShortenedAt(ctx, maxStr, i);
    ShortenKeepsKeysDistinct(ctx, maxStr);
    KeptField(short, limit, Weighing(short, note.shortened), trims, note.dropped, i);
    MarkerIsNew(ctx, maxStr, trims, note.dropped, note);
    if ctx[i].value.List? {
      AppendKeepsHead(Left(short, trims, note.dropped), Field(MARKER, NoteJson(note)), ctx[i].key,
                      ShortenItems(ctx[i].value.items, maxStr), Lookup(note.trimmed, ctx[i].key));
    }
  }

  lemma AppendKeepsHead(left: seq<Field>, marker: Field, key: string, items: seq<Json>, trimmed: nat)
    requires KeepsHead(left, key, items, trimmed)
    ensures KeepsHead(left + [marker], key, items, trimmed)
  {
  }
}
