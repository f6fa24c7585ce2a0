/** When a compacted context meets its budget, told from the context. */
module CompactionBudget {
  import opened Prelude
  import opened Decimal
  import opened JsonText
  import opened Compaction

  // ---- Sizes in closed form ------------------------------------------------------------------

  /** The separators between n items. */
  function Separators(n: nat): nat { if n == 0 then 0 else 2 * (n - 1) }

  function KeySum(keys: seq<string>): nat {
    if keys == [] then 0 else KeySum(keys[..|keys| - 1]) + Quoted(keys[|keys| - 1])
  }

  function KeysOf(fields: seq<Field>): (keys: seq<string>)
    ensures |keys| == |fields| && forall i :: 0 <= i < |keys| ==> keys[i] == fields[i].key
  {
    seq(|fields|, i requires 0 <= i < |fields| => fields[i].key)
  }

  function FieldKeySum(fields: seq<Field>): nat {
    if fields == [] then 0 else Quoted(fields[0].key) + FieldKeySum(fields[1..])
  }

  function ValueSum(fields: seq<Field>): nat {
    if fields == [] then 0 else 2 + Size(fields[0].value) + ValueSum(fields[1..])
  }

  lemma {:induction false} ObjectSize(fields: seq<Field>)
    ensures FieldsSize(fields) == FieldKeySum(fields) + ValueSum(fields) + Separators(|fields|)
    ensures ValueSum(fields) >= 3 * |fields|
    decreases |fields|
  {
    if fields != [] {
      ObjectSize(fields[1..]);
    }
  }

  lemma {:induction false} ItemsAppend(items: seq<Json>, j: Json)
    ensures ItemsSize(items + [j]) == ItemsSize(items) + Size(j) + if items == [] then 0 else 2
    decreases |items|
  {
    if items == [] {
      assert items + [j] == [j] && [j][1..] == [];
    } else {
      assert (items + [j])[1..] == items[1..] + [j];
      ItemsAppend(items[1..], j);
    }
  }

  lemma {:induction false} StringsSize(keys: seq<string>)
    ensures ItemsSize(Strings(keys)) == KeySum(keys) + Separators(|keys|)
    decreases |keys|
  {
    if keys != [] {
      var front, last := keys[..|keys| - 1], keys[|keys| - 1];
      StringsSize(front);
      assert Strings(keys) == Strings(front) + [Str(last)];
      ItemsAppend(Strings(front), Str(last));
    }
  }

  lemma NoteObjectSize(note: Note, a: string, b: string, c: string)
    ensures Size(NoteObject(note, a, b, c)) ==
            Quoted(a) + Quoted(b) + Quoted(c) + |Dec(note.shortened)| + 16 +
            FieldsSize(TallyFields(note.trimmed)) + KeySum(note.dropped) + Separators(|note.dropped|)
  {
    ThreeFieldsSize(a, b, c, Atom(Dec(note.shortened)), Obj(TallyFields(note.trimmed)), List(Strings(note.dropped)));
    StringsSize(note.dropped);
  }

  /** The marker without tallies and dropped keys. */
  function Overhead(shortened: nat): nat { Size(NoteJson(Note(shortened, [], []))) }

  lemma NoteGrows(note: Note, a: string, b: string, c: string)
    ensures Size(NoteObject(note, a, b, c)) ==
            Size(NoteObject(Note(note.shortened, [], []), a, b, c)) +
            FieldsSize(TallyFields(note.trimmed)) + KeySum(note.dropped) + Separators(|note.dropped|)
  {
    NoteObjectSize(note, a, b, c);
    NoteObjectSize(Note(note.shortened, [], []), a, b, c);
    assert TallyFields([]) == [];
  }

  lemma NoteSize(shortened: nat, tallies: seq<Tally>, dropped: seq<string>)
    ensures Size(NoteJson(Note(shortened, tallies, dropped))) ==
            Overhead(shortened) + FieldsSize(TallyFields(tallies)) + KeySum(dropped) + Separators(|dropped|)
  {
    NoteGrows(Note(shortened, tallies, dropped), "strings_shortened", "lists_trimmed", "keys_dropped");
  }

  // ---- Dropping moves keys from the context to the marker ------------------------------------------

  lemma {:induction false} WithoutOne(fields: seq<Field>, p: nat)
    requires p < |fields|
    ensures var rest := fields[..p] + fields[p + 1..];
            FieldKeySum(fields) == FieldKeySum(rest) + Quoted(fields[p].key) &&
            ValueSum(fields) == ValueSum(rest) + 2 + Size(fields[p].value)
    decreases |fields|
  {
    var rest := fields[..p] + fields[p + 1..];
    if p == 0 {
      assert rest == fields[1..];
    } else {
      WithoutOne(fields[1..], p - 1);
      assert rest[1..] == fields[1..][..p - 1] + fields[1..][p..];
    }
  }

  /** What is left and what is dropped are together all fields. */
  ghost predicate Moved(fields: seq<Field>, trims: seq<string>, dropped: seq<string>) {
    var left := Left(fields, trims, dropped);
    |left| + |dropped| == |fields| && FieldKeySum(left) + KeySum(dropped) == FieldKeySum(fields)
  }

  lemma {:induction false} SameKeySum(a: seq<Field>, b: seq<Field>)
    requires |a| == |b| && forall i :: 0 <= i < |a| ==> a[i].key == b[i].key
    ensures FieldKeySum(a) == FieldKeySum(b)
    decreases |a|
  {
    if a != [] {
      SameKeySum(a[1..], b[1..]);
    }
  }

  lemma NothingMoved(fields: seq<Field>, trims: seq<string>)
    ensures Moved(fields, trims, [])
  {
    KeepAll(Cut(fields, trims));
    SameKeySum(Cut(fields, trims), fields);
  }

  lemma MoveOne(fields: seq<Field>, trims: seq<string>, before: seq<string>, p: nat)
    requires DistinctKeys(fields) && Moved(fields, trims, before) && p < |Left(fields, trims, before)|
    ensures var left := Left(fields, trims, before);
            Left(fields, trims, before + [left[p].key]) == left[..p] + left[p + 1..] &&
            Moved(fields, trims, before + [left[p].key])
  {
    var left := Left(fields, trims, before);
    CutKeepsKeys(fields, trims);
    KeepStep(Cut(fields, trims), before, p);
    WithoutOne(left, p);
    assert (before + [left[p].key])[..|before|] == before;
  }

  lemma {:induction false} GreedyDropsMove(fields: seq<Field>, limit: int, weigh: Weigh, trims: seq<string>, dropped: seq<string>)
    requires DistinctKeys(fields) && DropsAreGreedy(fields, limit, weigh, trims, dropped)
    ensures Moved(fields, trims, dropped)
    decreases |dropped|
  {
    if dropped == [] {
      NothingMoved(fields, trims);
    } else {
      var before, last := dropped[..|dropped| - 1], dropped[|dropped| - 1];
      var p := LastDrop(fields, limit, weigh, trims, dropped);
      GreedyDropsMove(fields, limit, weigh, trims, before);
      MoveOne(fields, trims, before, p);
      assert dropped == before + [last];
    }
  }

  lemma LastDrop(fields: seq<Field>, limit: int, weigh: Weigh, trims: seq<string>, dropped: seq<string>) returns (p: nat)
    requires DropsAreGreedy(fields, limit, weigh, trims, dropped) && dropped != []
    ensures DropsAreGreedy(fields, limit, weigh, trims, dropped[..|dropped| - 1])
    ensures var left := Left(fields, trims, dropped[..|dropped| - 1]);
            p < |left| && left[p].key == dropped[|dropped| - 1]
  {
    var before := dropped[..|dropped| - 1];
    assert DropIsGreedy(fields, limit, weigh, trims, before, dropped[|dropped| - 1]);
    p :| IsLargest(Left(fields, trims, before), p) && Left(fields, trims, before)[p].key == dropped[|dropped| - 1];
  }

  /** The empty object and the marker that lists every key as dropped. */
  function Floor(fields: seq<Field>, shortened: nat, trims: seq<string>): nat {
    2 + Size(NoteJson(Note(shortened, TallyOf(trims), KeysOf(fields))))
  }

  lemma {:induction false} KeySumOfFields(fields: seq<Field>)
    ensures KeySum(KeysOf(fields)) == FieldKeySum(fields)
    decreases |fields|
  {
    if fields != [] {
      var front := fields[..|fields| - 1];
      KeySumOfFields(front);
      assert KeysOf(fields)[..|fields| - 1] == KeysOf(front);
      WithoutOne(fields, |fields| - 1);
      assert front + fields[|fields|..] == front;
    }
  }

  /** The weight of a context of which some keys are dropped, over that of dropping all of them. */
  lemma WeightOverFloor(fields: seq<Field>, shortened: nat, trims: seq<string>, dropped: seq<string>)
    requires Moved(fields, trims, dropped)
    ensures var left := Left(fields, trims, dropped);
            Weight(fields, shortened, trims, dropped) ==
            Floor(fields, shortened, trims) + ValueSum(left) +
            Separators(|left|) + Separators(|dropped|) - Separators(|fields|) &&
            ValueSum(left) >= 3 * |left|
  {
    ObjectSize(Left(fields, trims, dropped));
    NoteSize(shortened, TallyOf(trims), dropped);
    NoteSize(shortened, TallyOf(trims), KeysOf(fields));
    KeySumOfFields(fields);
  }

  /** Dropping everything gives the least weight, and nothing else does. */
  lemma FloorIsLeast(fields: seq<Field>, shortened: nat, trims: seq<string>, dropped: seq<string>)
    requires Moved(fields, trims, dropped)
    ensures Weight(fields, shortened, trims, dropped) >= Floor(fields, shortened, trims)
    ensures Weight(fields, shortened, trims, dropped) == Floor(fields, shortened, trims) <==> Left(fields, trims, dropped) == []
  {
    WeightOverFloor(fields, shortened, trims, dropped);
  }

  /** Each drop strictly lowers the weight. */
  lemma DropsLower(fields: seq<Field>, shortened: nat, trims: seq<string>, before: seq<string>, p: nat)
    requires DistinctKeys(fields) && Moved(fields, trims, before) && p < |Left(fields, trims, before)|
    ensures Weight(fields, shortened, trims, before + [Left(fields, trims, before)[p].key]) <
            Weight(fields, shortened, trims, before)
  {
    var left := Left(fields, trims, before);
    MoveOne(fields, trims, before, p);
    WithoutOne(left, p);
    WeightOverFloor(fields, shortened, trims, before);
    WeightOverFloor(fields, shortened, trims, before + [left[p].key]);
  }

  // ---- When the result fits ---------------------------------------------------------------------------

  /** Compaction meets its limit, up to the 16 characters of the marker's own key, if and only if
   *  the marker that lists every key does, up to 2. */
  lemma FitsExactly(ctx: seq<Field>, limit: int, maxStr: nat, result: seq<Field>, note: Note, trims: seq<string>)
    requires DistinctKeys(ctx) && !HasKey(ctx, MARKER) && Compacted(ctx, limit, maxStr, result, note, trims)
    ensures Size(Obj(result)) <= limit + 16 <==> Floor(ctx, LongFields(ctx, maxStr), trims) <= limit + 2
    ensures Size(Obj(result)) >= Floor(ctx, LongFields(ctx, maxStr), trims)
  {
    var short := ShortenFields(ctx, maxStr);
    ShortenKeepsKeysDistinct(ctx, maxStr);
    GreedyDropsMove(short, limit, Weighing(short, note.shortened), trims, note.dropped);
    FloorIsLeast(short, note.shortened, trims, note.dropped);
    assert KeysOf(short) == KeysOf(ctx);
    BudgetWithMarker(ctx, limit, maxStr, result, note, trims);
    MarkerIsNew(ctx, maxStr, trims, note.dropped, note);
  }

  // ---- Without lists to trim --------------------------------------------------------------------------

  lemma {:induction false} ShortListsStay(fields: seq<Field>, maxStr: nat, i: nat)
    requires i < |fields|
    ensures Trimmable(ShortenFields(fields, maxStr)[i]) <==> Trimmable(fields[i])
    decreases |fields|
  {
    if i > 0 {
      ShortListsStay(fields[1..], maxStr, i - 1);
    }
  }

  lemma NothingToTrim(fields: seq<Field>, limit: int, weigh: Weigh, trims: seq<string>)
    requires (forall f :: f in fields ==> !Trimmable(f)) && TrimsAreGreedy(fields, limit, weigh, trims)
    ensures trims == []
  {
    if trims != [] {
      FirstStep(trims, (before: seq<string>, key: string) => TrimIsGreedy(fields, limit, weigh, before, key));
      NoFirstTrim(fields, limit, weigh, trims[0]);
    }
  }

  lemma NoFirstTrim(fields: seq<Field>, limit: int, weigh: Weigh, key: string)
    requires forall f :: f in fields ==> !Trimmable(f)
    ensures !TrimIsGreedy(fields, limit, weigh, [], key)
  {
    NoTrimsNoCut(fields);
  }

  /** Without lists of more than one item it shows before the call whether the result will fit. */
  lemma FitsExactlyWithoutLists(ctx: seq<Field>, limit: int, maxStr: nat, result: seq<Field>, note: Note, trims: seq<string>)
    requires DistinctKeys(ctx) && !HasKey(ctx, MARKER) && Compacted(ctx, limit, maxStr, result, note, trims)
    requires forall f :: f in ctx ==> !Trimmable(f)
    ensures Size(Obj(result)) <= limit + 16 <==> Floor(ctx, LongFields(ctx, maxStr), []) <= limit + 2
  {
    var short := ShortenFields(ctx, maxStr);
    forall f | f in short
      ensures !Trimmable(f)
    {
      var i :| 0 <= i < |short| && short[i] == f;
      ShortListsStay(ctx, maxStr, i);
      assert ctx[i] in ctx;
    }
    NothingToTrim(short, limit, Weighing(short, note.shortened), trims);
    FitsExactly(ctx, limit, maxStr, result, note, trims);
  }

  // ---- With lists: what their tallies cost -----------------------------------------------------------------

  /** Every list cut to its first item. */
  function FullTallies(fields: seq<Field>): seq<Tally> {
    if fields == [] then []
    else (if Trimmable(fields[0]) then [Tally(fields[0].key, |fields[0].value.items| - 1)] else []) + FullTallies(fields[1..])
  }

  ghost predicate DistinctTallies(tallies: seq<Tally>) {
    forall i, j :: 0 <= i < j < |tallies| ==> tallies[i].key != tallies[j].key
  }

  lemma {:induction false} IncrementKeys(tallies: seq<Tally>, key: string)
    requires DistinctTallies(tallies)
    ensures DistinctTallies(Increment(tallies, key))
    ensures forall t :: t in Increment(tallies, key) ==> t.key == key || exists u :: u in tallies && u.key == t.key
    decreases |tallies|
  {
    if tallies != [] && tallies[0].key != key {
      var first, rest := tallies[0], Increment(tallies[1..], key);
      IncrementKeys(tallies[1..], key);
      forall i | 0 <= i < |rest|
        ensures rest[i].key != first.key
      {
        assert rest[i] in rest;
        if rest[i].key != key {
          var u :| u in tallies[1..] && u.key == rest[i].key;
          var j :| 0 <= j < |tallies[1..]| && tallies[1..][j] == u;
          assert tallies[0].key != tallies[j + 1].key;
        }
      }
    }
  }

  lemma {:induction false} TalliesAreDistinct(trims: seq<string>)
    ensures DistinctTallies(TallyOf(trims))
    decreases |trims|
  {
    if trims != [] {
      TalliesAreDistinct(trims[..|trims| - 1]);
      IncrementKeys(TallyOf(trims[..|trims| - 1]), trims[|trims| - 1]);
    }
  }

  lemma {:induction false} LookupAt(tallies: seq<Tally>, i: nat)
    requires DistinctTallies(tallies) && i < |tallies|
    ensures Lookup(tallies, tallies[i].key) == tallies[i].count
    decreases |tallies|
  {
    if i > 0 {
      assert tallies[0].key != tallies[i].key;
      assert DistinctTallies(tallies[1..]);
      LookupAt(tallies[1..], i - 1);
    }
  }

  /** The tally says that one of these lists was cut to its first item. */
  ghost predicate FullTally(t: Tally, fields: seq<Field>) {
    exists i :: 0 <= i < |fields| && Trimmable(fields[i]) && t == Tally(fields[i].key, |fields[i].value.items| - 1)
  }

  /** Once no list can be trimmed any more, each was cut to its first item. */
  lemma ExhaustedCount(fields: seq<Field>, limit: int, weigh: Weigh, trims: seq<string>, i: nat)
    requires DistinctKeys(fields) && TrimsAreGreedy(fields, limit, weigh, trims)
    requires (forall f :: f in Cut(fields, trims) ==> !Trimmable(f)) && i < |fields| && Trimmable(fields[i])
    ensures Count(trims, fields[i].key) == |fields[i].value.items| - 1
  {
    TrimsLeaveOne(fields, limit, weigh, trims, i);
    assert Cut(fields, trims)[i] in Cut(fields, trims);
    assert Cut(fields, trims)[i] == CutField(fields[i], trims);
  }

  lemma ExhaustedTally(fields: seq<Field>, limit: int, weigh: Weigh, trims: seq<string>, t: Tally)
    requires DistinctKeys(fields) && TrimsAreGreedy(fields, limit, weigh, trims) && t in TallyOf(trims)
    requires forall f :: f in Cut(fields, trims) ==> !Trimmable(f)
    ensures FullTally(t, fields)
  {
    TalliesAreDistinct(trims);
    var j :| 0 <= j < |TallyOf(trims)| && TallyOf(trims)[j] == t;
    LookupAt(TallyOf(trims), j);
    TallyCounts(trims, t.key);
    TalliedWasTrimmed(trims, t);
    var before := StepOf(trims, t.key, (before: seq<string>, key: string) => TrimIsGreedy(fields, limit, weigh, before, key));
    var i: nat :| IsLongest(Cut(fields, before), i) && fields[i].key == t.key;
    ExhaustedCount(fields, limit, weigh, trims, i);
  }

  lemma {:induction false} LookedUp(tallies: seq<Tally>, key: string)
    requires Lookup(tallies, key) > 0
    ensures Tally(key, Lookup(tallies, key)) in tallies
    decreases |tallies|
  {
    if tallies[0].key != key {
      LookedUp(tallies[1..], key);
    }
  }

  lemma {:induction false} TalliedWasTrimmed(trims: seq<string>, t: Tally)
    requires t in TallyOf(trims)
    ensures t.key in trims
    decreases |trims|
  {
    var before, last := trims[..|trims| - 1], trims[|trims| - 1];
    TalliesAreDistinct(before);
    IncrementKeys(TallyOf(before), last);
    if t.key != last {
      var u :| u in TallyOf(before) && u.key == t.key;
      TalliedWasTrimmed(before, u);
    }
  }

  function TallySum(tallies: seq<Tally>): nat {
    if tallies == [] then 0 else Quoted(tallies[0].key) + 4 + |Dec(tallies[0].count)| + TallySum(tallies[1..])
  }

  lemma {:induction false} TallySizes(tallies: seq<Tally>)
    ensures FieldsSize(TallyFields(tallies)) == TallySum(tallies) - if tallies == [] then 0 else 2
    decreases |tallies|
  {
    if tallies != [] {
      TallySizes(tallies[1..]);
      assert TallyFields(tallies)[1..] == TallyFields(tallies[1..]);
      assert TallyFields(tallies)[0] == Field(tallies[0].key, Atom(Dec(tallies[0].count)));
      AtomFieldSize(tallies[0].key, Dec(tallies[0].count));
    }
  }

  lemma AtomFieldSize(key: string, text: Word)
    ensures FieldSize(Field(key, Atom(text))) == Quoted(key) + 2 + |text|
  {
  }

  lemma {:induction false} TallyWithoutOne(tallies: seq<Tally>, p: nat)
    requires p < |tallies|
    ensures TallySum(tallies) == TallySum(tallies[..p] + tallies[p + 1..]) + Quoted(tallies[p].key) + 4 + |Dec(tallies[p].count)|
    decreases |tallies|
  {
    var rest := tallies[..p] + tallies[p + 1..];
    if p == 0 {
      assert rest == tallies[1..];
    } else {
      TallyWithoutOne(tallies[1..], p - 1);
      assert rest[1..] == tallies[1..][..p - 1] + tallies[1..][p..];
    }
  }

  lemma FullTallyOfRest(t: Tally, fields: seq<Field>)
    requires fields != [] && FullTally(t, fields)
    requires t.key != fields[0].key || !Trimmable(fields[0])
    ensures FullTally(t, fields[1..])
  {
    var i :| 0 <= i < |fields| && Trimmable(fields[i]) && t == Tally(fields[i].key, |fields[i].value.items| - 1);
    assert i > 0 && fields[1..][i - 1] == fields[i];
  }

  lemma RestIsTallied(fields: seq<Field>, tallies: seq<Tally>, p: nat)
    requires p < |tallies| && DistinctTallies(tallies) && fields != [] && tallies[p].key == fields[0].key
    requires forall t :: t in tallies ==> FullTally(t, fields)
    ensures var rest := tallies[..p] + tallies[p + 1..];
            DistinctTallies(rest) && forall t :: t in rest ==> FullTally(t, fields[1..])
  {
    var rest := tallies[..p] + tallies[p + 1..];
    forall t | t in rest
      ensures FullTally(t, fields[1..])
    {
      var i :| 0 <= i < |rest| && rest[i] == t;
      assert t == tallies[if i < p then i else i + 1];
      FullTallyOfRest(t, fields);
    }
  }

  /** Every list is tallied. */
  ghost predicate AllTallied(fields: seq<Field>, tallies: seq<Tally>) {
    forall i :: 0 <= i < |fields| && Trimmable(fields[i]) ==> Tally(fields[i].key, |fields[i].value.items| - 1) in tallies
  }

  lemma RestAllTallied(fields: seq<Field>, tallies: seq<Tally>, p: nat)
    requires DistinctKeys(fields) && AllTallied(fields, tallies) && fields != []
    requires p < |tallies| && tallies[p].key == fields[0].key
    ensures AllTallied(fields[1..], tallies[..p] + tallies[p + 1..])
  {
    var rest := tallies[..p] + tallies[p + 1..];
    forall i | 0 <= i < |fields[1..]| && Trimmable(fields[1..][i])
      ensures Tally(fields[1..][i].key, |fields[1..][i].value.items| - 1) in rest
    {
      assert fields[1..][i] == fields[i + 1] && fields[0].key != fields[i + 1].key;
      var j :| 0 <= j < |tallies| && tallies[j] == Tally(fields[i + 1].key, |fields[i + 1].value.items| - 1);
      assert rest[if j < p then j else j - 1] == tallies[j];
    }
  }

  lemma StillAllTallied(fields: seq<Field>, tallies: seq<Tally>)
    requires AllTallied(fields, tallies) && fields != []
    ensures AllTallied(fields[1..], tallies)
  {
    forall i | 0 <= i < |fields[1..]| && Trimmable(fields[1..][i])
      ensures Tally(fields[1..][i].key, |fields[1..][i].value.items| - 1) in tallies
    {
      assert fields[1..][i] == fields[i + 1];
    }
  }

  lemma FullTalliesStep(fields: seq<Field>)
    requires fields != []
    ensures var rest := FullTallies(fields[1..]);
            if Trimmable(fields[0]) then
              TallySum(FullTallies(fields)) ==
                Quoted(fields[0].key) + 4 + |Dec(|fields[0].value.items| - 1)| + TallySum(rest) &&
              |FullTallies(fields)| == 1 + |rest|
            else FullTallies(fields) == rest
  {
    if Trimmable(fields[0]) {
      assert FullTallies(fields)[1..] == FullTallies(fields[1..]);
    }
  }

  lemma TallyNeedsList(tallies: seq<Tally>, fields: seq<Field>)
    requires forall t :: t in tallies ==> FullTally(t, fields)
    ensures tallies != [] ==> fields != []
  {
    if tallies != [] {
      assert FullTally(tallies[0], fields);
    }
  }

  /** In whatever order the lists were first trimmed, their full tallies take the same space. */
  lemma {:induction false} FullTalliesCost(fields: seq<Field>, tallies: seq<Tally>)
    requires DistinctKeys(fields) && DistinctTallies(tallies) && AllTallied(fields, tallies)
    requires forall t :: t in tallies ==> FullTally(t, fields)
    ensures TallySum(tallies) == TallySum(FullTallies(fields)) && |tallies| == |FullTallies(fields)|
    decreases |fields|
  {
    TallyNeedsList(tallies, fields);
    if fields == [] {
      return;
    }
    if Trimmable(fields[0]) {
      var first := Tally(fields[0].key, |fields[0].value.items| - 1);
      var p: nat :| p < |tallies| && tallies[p] == first;
      TallyWithoutOne(tallies, p);
      RestIsTallied(fields, tallies, p);
      RestAllTallied(fields, tallies, p);
      FullTalliesCost(fields[1..], tallies[..p] + tallies[p + 1..]);
      FullTalliesStep(fields);
    } else {
      forall t | t in tallies
        ensures FullTally(t, fields[1..])
      {
        FullTallyOfRest(t, fields);
      }
      StillAllTallied(fields, tallies);
      FullTalliesCost(fields[1..], tallies);
      FullTalliesStep(fields);
    }
  }

  lemma ExhaustedTallies(fields: seq<Field>, limit: int, weigh: Weigh, trims: seq<string>)
    requires DistinctKeys(fields) && TrimsAreGreedy(fields, limit, weigh, trims)
    requires forall f :: f in Cut(fields, trims) ==> !Trimmable(f)
    ensures FieldsSize(TallyFields(TallyOf(trims))) == FieldsSize(TallyFields(FullTallies(fields)))
  {
    TalliesAreDistinct(trims);
    forall t | t in TallyOf(trims)
      ensures FullTally(t, fields)
    {
      ExhaustedTally(fields, limit, weigh, trims, t);
    }
    forall i | 0 <= i < |fields| && Trimmable(fields[i])
      ensures Tally(fields[i].key, |fields[i].value.items| - 1) in TallyOf(trims)
    {
      ExhaustedCount(fields, limit, weigh, trims, i);
      TallyCounts(trims, fields[i].key);
      LookedUp(TallyOf(trims), fields[i].key);
    }
    FullTalliesCost(fields, TallyOf(trims));
    TallySizes(TallyOf(trims));
    TallySizes(FullTallies(fields));
  }

  lemma {:induction false} ShortenedTallies(fields: seq<Field>, maxStr: nat)
    ensures FullTallies(ShortenFields(fields, maxStr)) == FullTallies(fields)
    decreases |fields|
  {
    if fields != [] {
      ShortenedTallies(fields[1..], maxStr);
    }
  }

  /** The empty object and the marker that lists every key as dropped and every list as cut to its
   *  first item: told from the context alone. */
  function MarkerCost(ctx: seq<Field>, maxStr: nat): nat {
    2 + Size(NoteJson(Note(LongFields(ctx, maxStr), FullTallies(ctx), KeysOf(ctx))))
  }

  lemma ExhaustedFloor(ctx: seq<Field>, limit: int, maxStr: nat, weigh: Weigh, trims: seq<string>)
    requires DistinctKeys(ctx) && TrimsAreGreedy(ShortenFields(ctx, maxStr), limit, weigh, trims)
    requires forall f :: f in Cut(ShortenFields(ctx, maxStr), trims) ==> !Trimmable(f)
    ensures Floor(ctx, LongFields(ctx, maxStr), trims) == MarkerCost(ctx, maxStr)
  {
    ShortenKeepsKeysDistinct(ctx, maxStr);
    ExhaustedTallies(ShortenFields(ctx, maxStr), limit, weigh, trims);
    ShortenedTallies(ctx, maxStr);
    NoteSize(LongFields(ctx, maxStr), TallyOf(trims), KeysOf(ctx));
    NoteSize(LongFields(ctx, maxStr), FullTallies(ctx), KeysOf(ctx));
  }

  lemma DropsComeLast(fields: seq<Field>, limit: int, weigh: Weigh, trims: seq<string>, dropped: seq<string>)
    requires DropsAreGreedy(fields, limit, weigh, trims, dropped) && dropped != []
    ensures forall f :: f in Cut(fields, trims) ==> !Trimmable(f)
  {
    assert DropIsGreedy(fields, limit, weigh, trims, dropped[..|dropped| - 1], dropped[|dropped| - 1]);
  }

  /** If trimming alone was enough the result fits. Otherwise whether it fits shows before the call:
   *  it does if and only if the full marker leaves room. */
  lemma FitsExactlyWhenDropping(ctx: seq<Field>, limit: int, maxStr: nat, result: seq<Field>, note: Note, trims: seq<string>)
    requires DistinctKeys(ctx) && !HasKey(ctx, MARKER) && ctx != [] && Compacted(ctx, limit, maxStr, result, note, trims)
    ensures Size(Obj(result)) <= limit + 16 <==> note.dropped == [] || MarkerCost(ctx, maxStr) <= limit + 2
  {
    var short := ShortenFields(ctx, maxStr);
    if note.dropped == [] {
      KeepAll(Cut(short, trims));
      BudgetWithMarker(ctx, limit, maxStr, result, note, trims);
    } else {
      DropsComeLast(short, limit, Weighing(short, note.shortened), trims, note.dropped);
      ExhaustedFloor(ctx, limit, maxStr, Weighing(short, note.shortened), trims);
      FitsExactly(ctx, limit, maxStr, result, note, trims);
    }
  }

  /** When the limit leaves room for the full marker, the result is within the limit and the 16
   *  characters of the marker's key. */
  lemma RoomForTheMarker(ctx: seq<Field>, limit: int, maxStr: nat, result: seq<Field>, note: Note, trims: seq<string>)
    requires DistinctKeys(ctx) && !HasKey(ctx, MARKER) && Compacted(ctx, limit, maxStr, result, note, trims)
    requires MarkerCost(ctx, maxStr) <= limit + 2
    ensures Size(Obj(result)) <= limit + 16
  {
    if ctx == [] {
      FitsExactlyWithoutLists(ctx, limit, maxStr, result, note, trims);
    } else {
      FitsExactlyWhenDropping(ctx, limit, maxStr, result, note, trims);
    }
  }

  /** Compacting to 16 characters less than the budget meets the budget, if that leaves room for
   *  the marker. */
  lemma FitsWithReserve(ctx: seq<Field>, budget: int, maxStr: nat, result: seq<Field>, note: Note, trims: seq<string>)
    requires DistinctKeys(ctx) && !HasKey(ctx, MARKER) && Compacted(ctx, budget - 16, maxStr, result, note, trims)
    requires MarkerCost(ctx, maxStr) <= budget - 14
    ensures Size(Obj(result)) <= budget
  {
    RoomForTheMarker(ctx, budget - 16, maxStr, result, note, trims);
  }

  // ---- Contexts that do not fit --------------------------------------------------------------------------

  const LIMIT := 4000
  const MAX_STR := 200

  lemma {:induction false} KeySumIsAtLeast(fields: seq<Field>, i: nat)
    requires i < |fields|
    ensures FieldKeySum(fields) >= Quoted(fields[i].key)
    decreases |fields|
  {
    if i > 0 {
      KeySumIsAtLeast(fields[1..], i - 1);
    }
  }

  /** The overshoot has no bound: a long key is listed in the marker once it is dropped. With the
   *  limit that all callers use, a context with a key of n characters stays that long. */
  lemma LongKeyNeverFits(n: nat) returns (ctx: seq<Field>)
    requires n >= 5000
    ensures |ctx| == 1 && !HasKey(ctx, MARKER) && Size(Obj(ctx)) > LIMIT
    ensures forall result, note, trims :: Compacted(ctx, LIMIT, MAX_STR, result, note, trims) ==> Size(Obj(result)) >= n
  {
    var key := LongText(n);
    ctx := [Field(key, Atom("0"))];
    assert |MARKER| == 10 && ctx[0].key == key && ctx[1..] == [];
    AppendedSize([], key, Atom("0"));
    assert [] + ctx == ctx;
    forall result, note, trims | Compacted(ctx, LIMIT, MAX_STR, result, note, trims)
      ensures Size(Obj(result)) >= n
    {
      FitsExactly(ctx, LIMIT, MAX_STR, result, note, trims);
      FloorHoldsKeys(ctx, LongFields(ctx, MAX_STR), trims);
    }
  }

  lemma FloorHoldsKeys(fields: seq<Field>, shortened: nat, trims: seq<string>)
    ensures Floor(fields, shortened, trims) >= FieldKeySum(fields)
    ensures fields != [] ==> Floor(fields, shortened, trims) >= Quoted(fields[0].key)
  {
    NoteSize(shortened, TallyOf(trims), KeysOf(fields));
    KeySumOfFields(fields);
    if fields != [] {
      KeySumIsAtLeast(fields, 0);
    }
  }

  // ---- Exactly 16 over ------------------------------------------------------------------------------------

  /** A context of one text, cut to the 200 characters that are kept. */
  lemma OneText(key: string, text: string) returns (ctx: seq<Field>, short: seq<Field>)
    requires |text| == 4000 && CharsSize(text) == 4000 && CharsSize(text[..200]) == 200
    ensures ctx == [Field(key, Str(text))] && short == ShortenFields(ctx, MAX_STR)
    ensures |short| == 1 && short[0].value.Str? && LongFields(ctx, MAX_STR) == 1
    ensures Size(Obj(ctx)) > 4000 && Size(Obj(short)) == Quoted(key) + 212
  {
    ctx := [Field(key, Str(text))];
    short := [Field(key, Str(text[..200] + [ELLIPSIS]))];
    assert ctx[1..] == [];
    TextAppend(text[..200], [ELLIPSIS]);
    assert [ELLIPSIS][1..] == [];
    AppendedSize([], key, Str(text));
    AppendedSize([], key, short[0].value);
    assert [] + ctx == ctx && [] + short == short;
  }

  lemma NoteBound() returns (n: nat)
    ensures n == Overhead(1) && n <= 1000
  {
    var a, b, c := "strings_shortened", "lists_trimmed", "keys_dropped";
    assert |a| <= 20 && |b| <= 20 && |c| <= 20;
    TextSizeBound(a);
    TextSizeBound(b);
    TextSizeBound(c);
    NoteObjectSize(Note(1, [], []), a, b, c);
    assert |Dec(1)| == 1 && TallyFields([]) == [];
    n := Overhead(1);
  }

  lemma UntouchedWeight(short: seq<Field>, n: nat)
    requires n == Overhead(1)
    ensures Weight(short, 1, [], []) == Size(Obj(short)) + n
  {
    KeepAll(short);
    NoTrimsNoCut(short);
  }

  lemma NothingRemoved(fields: seq<Field>, limit: int, weigh: Weigh, trims: seq<string>, dropped: seq<string>)
    requires |fields| == 1 && !fields[0].value.List? && limit == weigh([], [])
    requires GreedyRun(fields, limit, weigh, trims, dropped)
    ensures trims == [] && dropped == [] && Left(fields, trims, dropped) == fields
  {
    NothingToTrim(fields, limit, weigh, trims);
    if dropped != [] {
      FirstStep(dropped, (before: seq<string>, key: string) => DropIsGreedy(fields, limit, weigh, trims, before, key));
    }
    NoTrimsNoCut(fields);
    KeepAll(fields);
  }

  /** A context whose shortened form and marker take exactly the limit. */
  lemma ExactContext() returns (ctx: seq<Field>, short: seq<Field>)
    ensures |ctx| == 1 && Size(Obj(ctx)) > 4000 && |ctx[0].key| > 1000 && LongFields(ctx, MAX_STR) == 1
    ensures short == ShortenFields(ctx, MAX_STR) && |short| == 1 && !short[0].value.List?
    ensures Weight(short, 1, [], []) == 4000
  {
    var n := NoteBound();
    var key := LongText(3786 - n);
    var text := LongText(4000);
    ctx, short := OneText(key, text);
    UntouchedWeight(short, n);
  }

  lemma LongKeyIsNoMarker(ctx: seq<Field>)
    requires |ctx| == 1 && |ctx[0].key| > 1000
    ensures !HasKey(ctx, MARKER)
  {
    assert |MARKER| == 10;
  }

  /** The 16 characters are reached: with the limit that all callers use, a context that needs
   *  nothing trimmed or dropped ends 16 characters over. */
  lemma OvershootReached() returns (ctx: seq<Field>)
    ensures |ctx| == 1 && !HasKey(ctx, MARKER) && Size(Obj(ctx)) > LIMIT
    ensures forall result, note, trims ::
      Compacted(ctx, LIMIT, MAX_STR, result, note, trims) ==> Size(Obj(result)) == LIMIT + 16
  {
    var short;
    ctx, short := ExactContext();
    LongKeyIsNoMarker(ctx);
    forall result, note, trims | Compacted(ctx, LIMIT, MAX_STR, result, note, trims)
      ensures Size(Obj(result)) == LIMIT + 16
    {
      OverBySixteen(ctx, short, result, note, trims);
    }
  }

  lemma OverBySixteen(ctx: seq<Field>, short: seq<Field>, result: seq<Field>, note: Note, trims: seq<string>)
    requires short == ShortenFields(ctx, MAX_STR) && |short| == 1 && !short[0].value.List?
    requires LIMIT == Weight(short, 1, [], []) && !HasKey(ctx, MARKER) && LongFields(ctx, MAX_STR) == 1
    requires Compacted(ctx, LIMIT, MAX_STR, result, note, trims)
    ensures Size(Obj(result)) == LIMIT + 16
  {
    NothingRemoved(short, LIMIT, Weighing(short, 1), trims, note.dropped);
    BudgetWithMarker(ctx, LIMIT, MAX_STR, result, note, trims);
    MarkerIsNew(ctx, MAX_STR, trims, note.dropped, note);
  }
}
