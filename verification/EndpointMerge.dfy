/** Deduplication of discovered endpoints by fingerprint. */
module EndpointMerge {
  import opened Prelude

  datatype Param = Param(name: string, location: Option<string>, detail: string) {
    /** A parameter without a location is a query parameter. */
    function Key(): (string, string) { (name, if location.Some? then location.value else "query") }
  }

  /** Where an endpoint was found. Merging never changes it. */
  datatype Source = Source(verb: string, url: string, pathTemplate: string, provenance: string, apiVersion: string)

  datatype Endpoint = Endpoint(
    source: Source, confidence: real,
    parameters: seq<Param>, authRequired: bool, roles: set<string>, body: string)

  // ---- Parameters, as an insertion-ordered dictionary ---------------------------------------

  function LastOf(ps: seq<Param>, key: (string, string)): (r: Option<Param>)
    ensures r.Some? ==> r.value in ps && r.value.Key() == key
    ensures r.None? ==> forall p :: p in ps ==> p.Key() != key
  {
    if ps == [] then None
    else if ps[|ps| - 1].Key() == key then Some(ps[|ps| - 1])
    else LastOf(ps[..|ps| - 1], key)
  }

  predicate Has(ps: seq<Param>, key: (string, string)) { LastOf(ps, key).Some? }

  /** Stores p under its key: in the place of the entry it replaces, or at the end. */
  function Put(ps: seq<Param>, p: Param): (r: seq<Param>)
    ensures forall q :: q in r ==> q == p || q in ps
  {
    if ps == [] then [p]
    else
      var front, last := ps[..|ps| - 1], ps[|ps| - 1];
      if last.Key() == p.Key() then front + [p] else Put(front, p) + [last]
  }

  function Indexed(ps: seq<Param>): (r: seq<Param>)
    ensures forall q :: q in r ==> q in ps
  {
    if ps == [] then [] else Put(Indexed(ps[..|ps| - 1]), ps[|ps| - 1])
  }

  function PutDefault(ps: seq<Param>, p: Param): seq<Param> {
    if Has(ps, p.Key()) then ps else ps + [p]
  }

  function WithDefaults(ps: seq<Param>, others: seq<Param>): (r: seq<Param>)
    ensures forall q :: q in r ==> q in ps || q in others
  {
    if others == [] then ps else PutDefault(WithDefaults(ps, others[..|others| - 1]), others[|others| - 1])
  }

  predicate DistinctKeys(ps: seq<Param>) {
    forall i, j :: 0 <= i < j < |ps| ==> ps[i].Key() != ps[j].Key()
  }

  lemma {:induction false} PutLooksUp(ps: seq<Param>, p: Param, key: (string, string))
    ensures LastOf(Put(ps, p), key) == if key == p.Key() then Some(p) else LastOf(ps, key)
    decreases |ps|
  {
    if ps != [] {
      var front, last := ps[..|ps| - 1], ps[|ps| - 1];
      if last.Key() == p.Key() {
        assert (front + [p])[..|front|] == front;
      } else {
        PutLooksUp(front, p, key);
        assert (Put(front, p) + [last])[..|Put(front, p)|] == Put(front, p);
      }
    } else {
      assert [p][..0] == [];
    }
  }

  lemma {:induction false} PutKeepsDistinct(ps: seq<Param>, p: Param)
    requires DistinctKeys(ps)
    ensures DistinctKeys(Put(ps, p))
    decreases |ps|
  {
    if ps != [] {
      var front, last := ps[..|ps| - 1], ps[|ps| - 1];
      if last.Key() != p.Key() {
        PutKeepsDistinct(front, p);
        forall q | q in Put(front, p)
          ensures q.Key() != last.Key()
        {
          if q != p {
            var i :| 0 <= i < |front| && front[i] == q;
            assert ps[i].Key() != ps[|ps| - 1].Key();
          }
        }
      }
    }
  }

  /** Indexing keeps the last parameter of every key, and one entry for each. */
  lemma {:induction false} IndexedLooksUp(ps: seq<Param>, key: (string, string))
    ensures LastOf(Indexed(ps), key) == LastOf(ps, key)
    ensures DistinctKeys(Indexed(ps))
    decreases |ps|
  {
    if ps != [] {
      var front, last := ps[..|ps| - 1], ps[|ps| - 1];
      IndexedLooksUp(front, key);
      PutLooksUp(Indexed(front), last, key);
      PutKeepsDistinct(Indexed(front), last);
    }
  }

  lemma AppendLooksUp(ps: seq<Param>, p: Param, key: (string, string))
    ensures LastOf(ps + [p], key) == if p.Key() == key then Some(p) else LastOf(ps, key)
  {
    assert (ps + [p])[..|ps|] == ps;
  }

  /** Defaults fill gaps and change nothing that is there. */
  lemma {:induction false} DefaultsLookUp(ps: seq<Param>, others: seq<Param>, key: (string, string))
    ensures Has(ps, key) ==> LastOf(WithDefaults(ps, others), key) == LastOf(ps, key)
    ensures Has(WithDefaults(ps, others), key) <==> Has(ps, key) || Has(others, key)
    decreases |others|
  {
    if others != [] {
      var front, p := others[..|others| - 1], others[|others| - 1];
      DefaultsLookUp(ps, front, key);
      AppendLooksUp(WithDefaults(ps, front), p, key);
    }
  }

  lemma AppendKeepsDistinct(ps: seq<Param>, p: Param)
    requires DistinctKeys(ps) && !Has(ps, p.Key())
    ensures DistinctKeys(ps + [p])
  {
    assert forall i :: 0 <= i < |ps| ==> ps[i] in ps;
  }

  lemma {:induction false} DefaultsKeepDistinct(ps: seq<Param>, others: seq<Param>)
    requires DistinctKeys(ps)
    ensures DistinctKeys(WithDefaults(ps, others))
    decreases |others|
  {
    if others != [] {
      var front, p := others[..|others| - 1], others[|others| - 1];
      DefaultsKeepDistinct(ps, front);
      if !Has(WithDefaults(ps, front), p.Key()) {
        AppendKeepsDistinct(WithDefaults(ps, front), p);
      }
    }
  }

  /** Defaults for keys that are all there add nothing. */
  lemma {:induction false} NoDefaultsNeeded(ps: seq<Param>, others: seq<Param>)
    requires forall p :: p in others ==> Has(ps, p.Key())
    ensures WithDefaults(ps, others) == ps
    decreases |others|
  {
    if others != [] {
      NoDefaultsNeeded(ps, others[..|others| - 1]);
    }
  }

  lemma MemberHasKey(ps: seq<Param>, p: Param)
    requires p in ps
    ensures Has(ps, p.Key())
  {
  }

  // ---- Merging two ----------------------------------------------------------------------------

  /** `base` takes in `other`. */
  function TakeIn(base: Endpoint, other: Endpoint): Endpoint {
    base.(parameters := WithDefaults(Indexed(base.parameters), other.parameters),
          authRequired := base.authRequired || other.authRequired,
          roles := base.roles + other.roles,
          body := if base.body == "" && other.body != "" then other.body else base.body)
  }

  /** The more confident of the two takes in the other one, the earlier on a tie. */
  function Combine(existing: Endpoint, ep: Endpoint): Endpoint {
    if existing.confidence >= ep.confidence then TakeIn(existing, ep) else TakeIn(ep, existing)
  }

  /** Nothing of e is left to take in. */
  ghost predicate Covers(acc: Endpoint, e: Endpoint) {
    acc.confidence >= e.confidence &&
    (forall k :: Has(e.parameters, k) ==> Has(acc.parameters, k)) &&
    (e.authRequired ==> acc.authRequired) && e.roles <= acc.roles && (e.body != "" ==> acc.body != "")
  }

  lemma CombineCovers(existing: Endpoint, ep: Endpoint)
    ensures Covers(Combine(existing, ep), existing) && Covers(Combine(existing, ep), ep)
  {
    var base := if existing.confidence >= ep.confidence then existing else ep;
    var other := if existing.confidence >= ep.confidence then ep else existing;
    forall k
      ensures Has(TakeIn(base, other).parameters, k) <==> Has(base.parameters, k) || Has(other.parameters, k)
    {
      TakenInLooksUp(base, other, k);
    }
  }

  /** Taking in anything already covered has the same effect. */
  lemma CoveredCombine(acc: Endpoint, e: Endpoint)
    requires Covers(acc, e)
    ensures Combine(acc, e) == acc.(parameters := Indexed(acc.parameters))
  {
    forall p | p in e.parameters
      ensures Has(Indexed(acc.parameters), p.Key())
    {
      MemberHasKey(e.parameters, p);
      IndexedLooksUp(acc.parameters, p.Key());
    }
    NoDefaultsNeeded(Indexed(acc.parameters), e.parameters);
    assert acc.roles + e.roles == acc.roles;
  }

  // ---- Merging a list: the specification ---------------------------------------------------------

  /** Adds ep to the merged endpoints: combined in place with the one of its fingerprint, or at
   *  the end. */
  function Add(fp: Source -> string, acc: seq<Endpoint>, ep: Endpoint): seq<Endpoint> {
    if acc == [] then [ep]
    else if fp(acc[0].source) == fp(ep.source) then [Combine(acc[0], ep)] + acc[1..]
    else [acc[0]] + Add(fp, acc[1..], ep)
  }

  function AddAll(fp: Source -> string, acc: seq<Endpoint>, eps: seq<Endpoint>): seq<Endpoint>
    decreases |eps|
  {
    if eps == [] then acc else AddAll(fp, Add(fp, acc, eps[0]), eps[1..])
  }

  function Merge(fp: Source -> string, eps: seq<Endpoint>): seq<Endpoint> {
    AddAll(fp, [], eps)
  }

  function Prints(fp: Source -> string, eps: seq<Endpoint>): seq<string> {
    seq(|eps|, i requires 0 <= i < |eps| => fp(eps[i].source))
  }

  /** The distinct strings in order of first occurrence. */
  function Firsts(s: seq<string>): seq<string> {
    if s == [] then []
    else
      var front, last := Firsts(s[..|s| - 1]), s[|s| - 1];
      if last in front then front else front + [last]
  }

  lemma {:induction false} AddPrints(fp: Source -> string, acc: seq<Endpoint>, ep: Endpoint)
    ensures Prints(fp, Add(fp, acc, ep)) ==
            Prints(fp, acc) + if fp(ep.source) in Prints(fp, acc) then [] else [fp(ep.source)]
    decreases |acc|
  {
    if acc != [] {
      assert Prints(fp, acc) == [fp(acc[0].source)] + Prints(fp, acc[1..]);
      if fp(acc[0].source) == fp(ep.source) {
        assert Prints(fp, Add(fp, acc, ep)) == [fp(acc[0].source)] + Prints(fp, acc[1..]);
      } else {
        AddPrints(fp, acc[1..], ep);
        assert Prints(fp, Add(fp, acc, ep)) == [fp(acc[0].source)] + Prints(fp, Add(fp, acc[1..], ep));
      }
    }
  }

  lemma {:induction false} AddAllAppend(fp: Source -> string, acc: seq<Endpoint>, xs: seq<Endpoint>, ys: seq<Endpoint>)
    ensures AddAll(fp, acc, xs + ys) == AddAll(fp, AddAll(fp, acc, xs), ys)
    decreases |xs|
  {
    if xs == [] {
      assert xs + ys == ys;
    } else {
      assert (xs + ys)[1..] == xs[1..] + ys;
      AddAllAppend(fp, Add(fp, acc, xs[0]), xs[1..], ys);
    }
  }

  lemma MergeLast(fp: Source -> string, xs: seq<Endpoint>, ep: Endpoint)
    ensures Merge(fp, xs + [ep]) == Add(fp, Merge(fp, xs), ep)
  {
    AddAllAppend(fp, [], xs, [ep]);
    assert [ep][1..] == [];
  }

  /** The merged fingerprints are the distinct fingerprints of the input, in order of first
   *  occurrence. */
  lemma {:induction false} MergeKeepsFirstOccurrences(fp: Source -> string, eps: seq<Endpoint>)
    ensures Prints(fp, Merge(fp, eps)) == Firsts(Prints(fp, eps))
    ensures Distinct(Prints(fp, Merge(fp, eps)))
    decreases |eps|
  {
    if eps != [] {
      var front, last := eps[..|eps| - 1], eps[|eps| - 1];
      MergeKeepsFirstOccurrences(fp, front);
      assert eps == front + [last];
      MergeLast(fp, front, last);
      AddPrints(fp, Merge(fp, front), last);
      assert Prints(fp, eps)[..|eps| - 1] == Prints(fp, front);
    }
  }

  // ---- Merging is an incremental fold ----------------------------------------------------------------

  lemma {:induction false} AddNew(fp: Source -> string, acc: seq<Endpoint>, ep: Endpoint)
    requires fp(ep.source) !in Prints(fp, acc)
    ensures Add(fp, acc, ep) == acc + [ep]
    decreases |acc|
  {
    if acc != [] {
      assert Prints(fp, acc) == [fp(acc[0].source)] + Prints(fp, acc[1..]);
      AddNew(fp, acc[1..], ep);
    }
  }

  lemma {:induction false} DistinctAreKept(fp: Source -> string, eps: seq<Endpoint>)
    requires Distinct(Prints(fp, eps))
    ensures Merge(fp, eps) == eps
    decreases |eps|
  {
    if eps != [] {
      var front, last := eps[..|eps| - 1], eps[|eps| - 1];
      assert Prints(fp, front) == Prints(fp, eps)[..|eps| - 1];
      DistinctAreKept(fp, front);
      assert eps == front + [last];
      MergeLast(fp, front, last);
      assert Prints(fp, eps)[|eps| - 1] == fp(last.source);
      AddNew(fp, front, last);
    }
  }

  /** Merging what is merged already with more input gives what merging everything gives. */
  lemma MergeIsIncremental(fp: Source -> string, xs: seq<Endpoint>, ys: seq<Endpoint>)
    ensures Merge(fp, Merge(fp, xs) + ys) == Merge(fp, xs + ys)
    ensures Merge(fp, Merge(fp, xs)) == Merge(fp, xs)
  {
    MergeKeepsFirstOccurrences(fp, xs);
    DistinctAreKept(fp, Merge(fp, xs));
    AddAllAppend(fp, [], Merge(fp, xs), ys);
    AddAllAppend(fp, [], xs, ys);
  }

  // ---- What a merged endpoint holds -------------------------------------------------------------------

  function Group(fp: Source -> string, eps: seq<Endpoint>, print_: string): seq<Endpoint> {
    if eps == [] then []
    else
      var front := Group(fp, eps[..|eps| - 1], print_);
      if fp(eps[|eps| - 1].source) == print_ then front + [eps[|eps| - 1]] else front
  }

  /** What merging promises of a group g: the keys of all parameters, authentication if any
   *  member needs it, all roles, the highest confidence, and the provenance and parameters of
   *  the first member that has it. */
  ghost predicate Summarises(e: Endpoint, g: seq<Endpoint>) {
    (exists w: nat :: FromWinner(e, g, w)) && KeysOf(e.parameters, g) && ParamsFrom(e.parameters, g) &&
    (|g| >= 2 ==> DistinctKeys(e.parameters)) && Unites(e, g)
  }

  /** The first member with the highest confidence. */
  predicate Wins(g: seq<Endpoint>, w: nat)
    requires w < |g|
  {
    (forall i :: 0 <= i < |g| ==> g[i].confidence <= g[w].confidence) &&
    (forall i :: 0 <= i < w ==> g[i].confidence < g[w].confidence)
  }

  lemma OneSummarises(e: Endpoint)
    ensures Summarises(e, [e])
  {
    assert Wins([e], 0) && [e][0] == e;
    assert FromWinner(e, [e], 0);
  }

  /** e comes from the winner of g: its source, its confidence and its parameters. */
  ghost predicate FromWinner(e: Endpoint, g: seq<Endpoint>, w: nat) {
    w < |g| && Wins(g, w) && e.source == g[w].source && e.confidence == g[w].confidence &&
    (g[w].body != "" ==> e.body == g[w].body) &&
    forall k :: Has(g[w].parameters, k) ==> LastOf(e.parameters, k) == LastOf(g[w].parameters, k)
  }

  ghost predicate KeysOf(ps: seq<Param>, g: seq<Endpoint>) {
    forall k :: Has(ps, k) <==> exists i :: 0 <= i < |g| && Has(g[i].parameters, k)
  }

  ghost predicate ParamsFrom(ps: seq<Param>, g: seq<Endpoint>) {
    forall p :: p in ps ==> exists i :: 0 <= i < |g| && p in g[i].parameters
  }

  lemma TakenInLooksUp(base: Endpoint, other: Endpoint, k: (string, string))
    ensures Has(base.parameters, k) ==> LastOf(TakeIn(base, other).parameters, k) == LastOf(base.parameters, k)
    ensures Has(TakeIn(base, other).parameters, k) <==> Has(base.parameters, k) || Has(other.parameters, k)
    ensures DistinctKeys(TakeIn(base, other).parameters)
  {
    IndexedLooksUp(base.parameters, k);
    DefaultsLookUp(Indexed(base.parameters), other.parameters, k);
    DefaultsKeepDistinct(Indexed(base.parameters), other.parameters);
  }

  lemma CombineWinner(e: Endpoint, g: seq<Endpoint>, ep: Endpoint, w: nat) returns (w': nat)
    requires FromWinner(e, g, w)
    ensures FromWinner(Combine(e, ep), g + [ep], w')
  {
    var g' := g + [ep];
    assert forall i :: 0 <= i < |g| ==> g'[i] == g[i];
    var base := if e.confidence >= ep.confidence then e else ep;
    var other := if e.confidence >= ep.confidence then ep else e;
    w' := if e.confidence >= ep.confidence then w else |g|;
    assert Wins(g', w');
    forall k | Has(g'[w'].parameters, k)
      ensures LastOf(Combine(e, ep).parameters, k) == LastOf(g'[w'].parameters, k)
    {
      TakenInLooksUp(base, other, k);
    }
  }

  lemma CombineKeys(e: Endpoint, g: seq<Endpoint>, ep: Endpoint)
    requires KeysOf(e.parameters, g)
    ensures KeysOf(Combine(e, ep).parameters, g + [ep]) && DistinctKeys(Combine(e, ep).parameters)
  {
    var g' := g + [ep];
    assert forall i :: 0 <= i < |g| ==> g'[i] == g[i];
    assert g'[|g|] == ep;
    var base := if e.confidence >= ep.confidence then e else ep;
    var other := if e.confidence >= ep.confidence then ep else e;
    TakenInLooksUp(base, other, ("", ""));
    forall k
      ensures Has(Combine(e, ep).parameters, k) <==> exists i :: 0 <= i < |g'| && Has(g'[i].parameters, k)
    {
      TakenInLooksUp(base, other, k);
      assert Has(Combine(e, ep).parameters, k) <==> Has(e.parameters, k) || Has(ep.parameters, k);
    }
  }

  lemma CombineParams(e: Endpoint, g: seq<Endpoint>, ep: Endpoint)
    requires ParamsFrom(e.parameters, g)
    ensures ParamsFrom(Combine(e, ep).parameters, g + [ep])
  {
    var g', ps := g + [ep], Combine(e, ep).parameters;
    assert forall i :: 0 <= i < |g| ==> g'[i] == g[i];
    assert g'[|g|] == ep;
    forall p | p in ps
      ensures exists i :: 0 <= i < |g'| && p in g'[i].parameters
    {
      assert p in e.parameters || p in ep.parameters;
    }
  }

  /** The facts about a group that one more member can only add to. */
  ghost predicate Unites(e: Endpoint, g: seq<Endpoint>) {
    (e.authRequired <==> exists i :: 0 <= i < |g| && g[i].authRequired) &&
    (forall r :: r in e.roles <==> exists i :: 0 <= i < |g| && r in g[i].roles) &&
    (e.body == "" <==> forall i :: 0 <= i < |g| ==> g[i].body == "") && (exists i :: 0 <= i < |g| && g[i].body == e.body)
  }

  lemma CombineUnites(e: Endpoint, g: seq<Endpoint>, ep: Endpoint)
    requires Unites(e, g)
    ensures Unites(Combine(e, ep), g + [ep])
  {
    var g' := g + [ep];
    assert forall i :: 0 <= i < |g| ==> g'[i] == g[i];
    assert g'[|g|] == ep;
  }

  lemma CombineSummarises(e: Endpoint, g: seq<Endpoint>, ep: Endpoint)
    requires Summarises(e, g)
    ensures Summarises(Combine(e, ep), g + [ep])
  {
    var w :| FromWinner(e, g, w);
    var w' := CombineWinner(e, g, ep, w);
    CombineKeys(e, g, ep);
    CombineParams(e, g, ep);
    CombineUnites(e, g, ep);
  }

  lemma {:induction false} AddAt(fp: Source -> string, acc: seq<Endpoint>, ep: Endpoint, j: nat)
    requires Distinct(Prints(fp, acc)) && j < |Add(fp, acc, ep)|
    ensures var e := Add(fp, acc, ep)[j];
            (fp(e.source) != fp(ep.source) ==> j < |acc| && e == acc[j]) &&
            (fp(e.source) == fp(ep.source) ==>
              if j < |acc| then fp(acc[j].source) == fp(ep.source) && e == Combine(acc[j], ep)
              else e == ep && fp(ep.source) !in Prints(fp, acc))
    decreases |acc|
  {
    if acc != [] {
      assert Prints(fp, acc) == [fp(acc[0].source)] + Prints(fp, acc[1..]);
      assert Prints(fp, acc)[1..] == Prints(fp, acc[1..]);
      if fp(acc[0].source) == fp(ep.source) {
        if j > 0 {
          assert Prints(fp, acc)[j] != Prints(fp, acc)[0];
        }
      } else if j > 0 {
        AddAt(fp, acc[1..], ep, j - 1);
      }
    }
  }

  lemma {:induction false} NoGroup(fp: Source -> string, eps: seq<Endpoint>, print_: string)
    requires print_ !in Firsts(Prints(fp, eps))
    ensures Group(fp, eps, print_) == []
    decreases |eps|
  {
    if eps != [] {
      assert Prints(fp, eps)[..|eps| - 1] == Prints(fp, eps[..|eps| - 1]);
      assert Prints(fp, eps)[|eps| - 1] == fp(eps[|eps| - 1].source);
      NoGroup(fp, eps[..|eps| - 1], print_);
    }
  }

  /** Every merged endpoint summarises the input endpoints of its fingerprint. */
  lemma {:induction false} MergedSummarises(fp: Source -> string, eps: seq<Endpoint>, j: nat)
    requires j < |Merge(fp, eps)|
    ensures Summarises(Merge(fp, eps)[j], Group(fp, eps, fp(Merge(fp, eps)[j].source)))
    decreases |eps|
  {
    assert eps != [];
    var front, last := eps[..|eps| - 1], eps[|eps| - 1];
    assert eps == front + [last];
    MergeLast(fp, front, last);
    MergeKeepsFirstOccurrences(fp, front);
    var acc, e := Merge(fp, front), Merge(fp, eps)[j];
    AddAt(fp, acc, last, j);
    if fp(e.source) != fp(last.source) {
      MergedSummarises(fp, front, j);
    } else if j < |acc| {
      MergedSummarises(fp, front, j);
      CombineSummarises(acc[j], Group(fp, front, fp(last.source)), last);
    } else {
      NoGroup(fp, front, fp(last.source));
      OneSummarises(last);
      assert [] + [last] == [last];
    }
  }

  // ---- The same, parameter by parameter ------------------------------------------------------------------

  /** The parameter has this name and stands in this place; without a location it is in the query. */
  predicate At(p: Param, name: string, place: string) {
    p.name == name && (p.location == Some(place) || (p.location == None && place == "query"))
  }

  predicate HasParam(e: Endpoint, name: string, place: string) {
    exists k :: 0 <= k < |e.parameters| && At(e.parameters[k], name, place)
  }

  /** Parameter k is the last of this name and place. */
  predicate LastAt(ps: seq<Param>, k: nat, name: string, place: string) {
    k < |ps| && At(ps[k], name, place) && forall j :: k < j < |ps| ==> !At(ps[j], name, place)
  }

  ghost predicate IsLast(ps: seq<Param>, p: Param, name: string, place: string) {
    exists k: nat :: LastAt(ps, k, name, place) && ps[k] == p
  }

  ghost predicate SomeHas(g: seq<Endpoint>, name: string, place: string) {
    exists i :: 0 <= i < |g| && HasParam(g[i], name, place)
  }

  ghost predicate KeepsWinners(e: Endpoint, g: seq<Endpoint>, w: nat) {
    w < |g| && Wins(g, w) &&
    forall name, place, p :: IsLast(g[w].parameters, p, name, place) ==> IsLast(e.parameters, p, name, place)
  }

  ghost predicate OnePerPlace(ps: seq<Param>) {
    forall i, j, name, place :: 0 <= i < j < |ps| ==> !(At(ps[i], name, place) && At(ps[j], name, place))
  }

  lemma KeyTellsPlace(p: Param, name: string, place: string)
    ensures p.Key() == (name, place) <==> At(p, name, place)
  {
  }

  lemma {:induction false} LastOfIsLast(ps: seq<Param>, name: string, place: string) returns (k: nat)
    ensures match LastOf(ps, (name, place))
            case Some(p) => LastAt(ps, k, name, place) && ps[k] == p
            case None => forall i :: 0 <= i < |ps| ==> !At(ps[i], name, place)
    decreases |ps|
  {
    k := 0;
    if ps != [] {
      var last := ps[|ps| - 1];
      KeyTellsPlace(last, name, place);
      k := |ps| - 1;
      if last.Key() != (name, place) {
        k := LastOfIsLast(ps[..|ps| - 1], name, place);
        assert forall i :: 0 <= i < |ps| - 1 ==> ps[i] == ps[..|ps| - 1][i];
      }
    }
  }

  /** A merged endpoint has a parameter of a name in a place exactly if some member of its group has
   *  one; a group of two or more has at most one of each; and those of the winner are kept, the last
   *  where it has several. */
  lemma MergedParameters(fp: Source -> string, eps: seq<Endpoint>, m: nat)
    requires m < |Merge(fp, eps)|
    ensures var e, g := Merge(fp, eps)[m], Group(fp, eps, fp(Merge(fp, eps)[m].source));
            (forall name, place :: HasParam(e, name, place) <==> SomeHas(g, name, place)) &&
            (|g| >= 2 ==> OnePerPlace(e.parameters)) && exists w: nat :: KeepsWinners(e, g, w)
  {
    var e, g := Merge(fp, eps)[m], Group(fp, eps, fp(Merge(fp, eps)[m].source));
    MergedSummarises(fp, eps, m);
    forall name, place
      ensures HasParam(e, name, place) <==> SomeHas(g, name, place)
    {
      SameKeysSamePlaces(e, g, name, place);
    }
    if |g| >= 2 {
      DistinctIsOnePerPlace(e.parameters);
    }
    var w: nat :| FromWinner(e, g, w);
    WinnersAreKept(e, g, w);
  }

  lemma SameKeysSamePlaces(e: Endpoint, g: seq<Endpoint>, name: string, place: string)
    requires KeysOf(e.parameters, g)
    ensures HasParam(e, name, place) <==> SomeHas(g, name, place)
  {
    HasIsHasParam(e, name, place);
    assert Has(e.parameters, (name, place)) <==> exists i :: 0 <= i < |g| && Has(g[i].parameters, (name, place));
    forall i | 0 <= i < |g|
      ensures Has(g[i].parameters, (name, place)) <==> HasParam(g[i], name, place)
    {
      HasIsHasParam(g[i], name, place);
    }
  }

  lemma WinnersAreKept(e: Endpoint, g: seq<Endpoint>, w: nat)
    requires FromWinner(e, g, w)
    ensures KeepsWinners(e, g, w)
  {
    forall name, place, p | IsLast(g[w].parameters, p, name, place)
      ensures IsLast(e.parameters, p, name, place)
    {
      var i := LastOfIsLast(g[w].parameters, name, place);
      var j := LastOfIsLast(e.parameters, name, place);
      var k: nat :| LastAt(g[w].parameters, k, name, place) && g[w].parameters[k] == p;
      assert Has(g[w].parameters, (name, place)) && i == k;
      assert LastOf(e.parameters, (name, place)) == LastOf(g[w].parameters, (name, place));
    }
  }

  lemma HasIsHasParam(e: Endpoint, name: string, place: string)
    ensures Has(e.parameters, (name, place)) <==> HasParam(e, name, place)
  {
    var k := LastOfIsLast(e.parameters, name, place);
  }

  lemma DistinctIsOnePerPlace(ps: seq<Param>)
    requires DistinctKeys(ps)
    ensures OnePerPlace(ps)
  {
    forall i, j, name, place | 0 <= i < j < |ps|
      ensures !(At(ps[i], name, place) && At(ps[j], name, place))
    {
      KeyTellsPlace(ps[i], name, place);
      KeyTellsPlace(ps[j], name, place);
    }
  }

  // ---- Merging in place -----------------------------------------------------------------------------------

  /** A discovered endpoint as the program holds it: merging updates it in place. */
  class Discovered {
    const source: Source
    const confidence: real
    var parameters: seq<Param>
    var authRequired: bool
    var roles: set<string>
    var body: string

    constructor (e: Endpoint)
      ensures Value() == e
    {
      source, confidence := e.source, e.confidence;
      parameters, authRequired, roles, body := e.parameters, e.authRequired, e.roles, e.body;
    }

    function Value(): Endpoint
      reads this
    {
      Endpoint(source, confidence, parameters, authRequired, roles, body)
    }

    /** Takes in another endpoint, possibly itself. */
    method Absorb(other: Discovered)
      modifies this
      ensures Value() == TakeIn(old(Value()), old(other.Value()))
    {
      var merged := IndexParams(parameters);
      merged := FillDefaults(merged, other.parameters);
      parameters := merged;
      authRequired := authRequired || other.authRequired;
      roles := roles + other.roles;
      if body == "" && other.body != "" {
        body := other.body;
      }
    }
  }

  method IndexParams(ps: seq<Param>) returns (indexed: seq<Param>)
    ensures indexed == Indexed(ps)
  {
    indexed := [];
    for i := 0 to |ps|
      invariant indexed == Indexed(ps[..i])
    {
      assert ps[..i + 1][..i] == ps[..i];
      indexed := Put(indexed, ps[i]);
    }
    assert ps[..|ps|] == ps;
  }

  method FillDefaults(ps: seq<Param>, others: seq<Param>) returns (filled: seq<Param>)
    ensures filled == WithDefaults(ps, others)
  {
    filled := ps;
    for i := 0 to |others|
      invariant filled == WithDefaults(ps, others[..i])
    {
      assert others[..i + 1][..i] == others[..i];
      filled := PutDefault(filled, others[i]);
    }
    assert others[..|others|] == others;
  }

  function Values(eps: seq<Discovered>): (vs: seq<Endpoint>)
    reads eps
    ensures |vs| == |eps| && forall i :: 0 <= i < |eps| ==> vs[i] == eps[i].Value()
  {
    if eps == [] then [] else [eps[0].Value()] + Values(eps[1..])
  }

  lemma {:induction false} AddFound(fp: Source -> string, acc: seq<Endpoint>, ep: Endpoint, p: nat)
    requires Distinct(Prints(fp, acc)) && p < |acc| && fp(acc[p].source) == fp(ep.source)
    ensures Add(fp, acc, ep) == acc[p := Combine(acc[p], ep)]
    decreases |acc|
  {
    assert Prints(fp, acc) == [fp(acc[0].source)] + Prints(fp, acc[1..]);
    if p > 0 {
      assert Prints(fp, acc)[0] != Prints(fp, acc)[p];
      assert Prints(fp, acc)[1..] == Prints(fp, acc[1..]);
      AddFound(fp, acc[1..], ep, p - 1);
    }
  }

  /** What the entries of a dictionary hold at present. */
  ghost function Contents(byFp: map<string, Discovered>): map<string, Endpoint>
    reads byFp.Values
  {
    map k | k in byFp :: byFp[k].Value()
  }

  /** The dictionary with these contents and keys in insertion order `order` holds acc. */
  ghost predicate Holds(fp: Source -> string, acc: seq<Endpoint>, order: seq<string>, entries: map<string, Endpoint>) {
    order == Prints(fp, acc) && Distinct(order) && (forall k :: k in entries <==> k in order) &&
    forall j :: 0 <= j < |order| ==> entries[order[j]] == acc[j]
  }

  lemma AddHolds(fp: Source -> string, acc: seq<Endpoint>, order: seq<string>, entries: map<string, Endpoint>, ep: Endpoint)
    requires Holds(fp, acc, order, entries)
    ensures var k := fp(ep.source);
            if k in entries then fp(entries[k].source) == k && Holds(fp, Add(fp, acc, ep), order, entries[k := Combine(entries[k], ep)])
            else Holds(fp, Add(fp, acc, ep), order + [k], entries[k := ep])
  {
    var k := fp(ep.source);
    if k in entries {
      var p: nat :| p < |order| && order[p] == k;
      AddFound(fp, acc, ep, p);
      assert Prints(fp, acc[p := Combine(acc[p], ep)]) == order;
    } else {
      AddNew(fp, acc, ep);
      assert Prints(fp, acc + [ep]) == order + [k];
    }
  }

  /** An object of fingerprint k not looked at yet holds its original value, unless the same
   *  object was met earlier in the list; then the entry of its fingerprint covers both. */
  ghost predicate Intact(entries: map<string, Endpoint>, k: string, now: Endpoint, original: Endpoint) {
    now == original || (k in entries && Covers(entries[k], now) && Covers(entries[k], original))
  }

  /** The state of the merging loop after i objects, as values: `was` is what the objects held
   *  at first, `now` what they hold at present. */
  ghost predicate Merging(fp: Source -> string, was: seq<Endpoint>, i: nat, order: seq<string>,
                          entries: map<string, Endpoint>, now: seq<Endpoint>)
  {
    i <= |was| == |now| && Holds(fp, Merge(fp, was[..i]), order, entries) &&
    forall j :: i <= j < |now| ==> now[j].source == was[j].source && Intact(entries, fp(was[j].source), now[j], was[j])
  }

  /** What one object brings about: its entry combines with it, and an object that changed is
   *  that entry, which was the object itself or the entry before. */
  ghost predicate TakesIn(fp: Source -> string, e: Endpoint, order: seq<string>, order': seq<string>,
                          entries: map<string, Endpoint>, entries': map<string, Endpoint>,
                          now: seq<Endpoint>, now': seq<Endpoint>)
  {
    var k := fp(e.source);
    order' == (if k in entries then order else order + [k]) &&
    entries' == entries[k := if k in entries then Combine(entries[k], e) else e] &&
    |now'| == |now| &&
    forall j :: 0 <= j < |now| ==>
      now'[j] == now[j] ||
      (now'[j] == entries'[k] && fp(now[j].source) == k && now'[j].source == now[j].source &&
       (now[j] == e || (k in entries && now[j] == entries[k])))
  }

  /** The dictionary after one object is that of one more original value. */
  lemma OneMoreEntry(fp: Source -> string, acc: seq<Endpoint>, original: Endpoint, e: Endpoint, order: seq<string>,
                     order': seq<string>, entries: map<string, Endpoint>, entries': map<string, Endpoint>)
    requires Holds(fp, acc, order, entries) && original.source == e.source && Intact(entries, fp(e.source), e, original)
    requires var k := fp(e.source);
             order' == (if k in entries then order else order + [k]) &&
             entries' == entries[k := if k in entries then Combine(entries[k], e) else e]
    ensures Holds(fp, Add(fp, acc, original), order', entries')
    ensures var k := fp(e.source);
            Covers(entries'[k], e) && (k in entries ==> Covers(entries'[k], entries[k]))
  {
    var k := fp(e.source);
    AddHolds(fp, acc, order, entries, original);
    if k in entries {
      SameCombine(entries[k], e, original);
      CombineCovers(entries[k], e);
    }
  }

  lemma OneMore(fp: Source -> string, was: seq<Endpoint>, i: nat, order: seq<string>, order': seq<string>,
                entries: map<string, Endpoint>, entries': map<string, Endpoint>,
                now: seq<Endpoint>, now': seq<Endpoint>)
    requires Merging(fp, was, i, order, entries, now) && i < |was|
    requires TakesIn(fp, now[i], order, order', entries, entries', now, now')
    ensures Merging(fp, was, i + 1, order', entries', now')
  {
    assert was[..i + 1] == was[..i] + [was[i]];
    MergeLast(fp, was[..i], was[i]);
    OneMoreEntry(fp, Merge(fp, was[..i]), was[i], now[i], order, order', entries, entries');
    forall j | i < j < |now|
      ensures now'[j].source == was[j].source && Intact(entries', fp(was[j].source), now'[j], was[j])
    {
      StillIntact(fp, now[i], order, order', entries, entries', now, now', was[j], j);
    }
  }

  lemma StillIntact(fp: Source -> string, e: Endpoint, order: seq<string>, order': seq<string>,
                    entries: map<string, Endpoint>, entries': map<string, Endpoint>,
                    now: seq<Endpoint>, now': seq<Endpoint>, original: Endpoint, j: nat)
    requires TakesIn(fp, e, order, order', entries, entries', now, now') && j < |now|
    requires now[j].source == original.source && Intact(entries, fp(original.source), now[j], original)
    requires var k := fp(e.source);
             Covers(entries'[k], e) && (k in entries ==> Covers(entries'[k], entries[k]))
    ensures now'[j].source == original.source && Intact(entries', fp(original.source), now'[j], original)
  {
  }

  /** Merges two objects into the more confident one. */
  method Unite(existing: Discovered, ep: Discovered) returns (base: Discovered)
    modifies existing, ep
    ensures base == (if existing.confidence >= ep.confidence then existing else ep)
    ensures base.Value() == Combine(old(existing.Value()), old(ep.Value()))
    ensures existing != base ==> existing.Value() == old(existing.Value())
    ensures ep != base ==> ep.Value() == old(ep.Value())
  {
    if existing.confidence >= ep.confidence {
      base := existing;
      existing.Absorb(ep);
    } else {
      base := ep;
      ep.Absorb(existing);
    }
  }

  /** The entry of ep's fingerprint becomes the union of the two. */
  method Replace(fp: Source -> string, eps: seq<Discovered>, ep: Discovered, byFp: map<string, Discovered>)
    returns (byFp': map<string, Discovered>)
    requires ep in eps && fp(ep.source) in byFp && forall k :: k in byFp ==> byFp[k] in eps && fp(byFp[k].source) == k
    modifies eps
    ensures forall k :: k in byFp' ==> byFp'[k] in eps && fp(byFp'[k].source) == k
    ensures var k := fp(ep.source);
            Contents(byFp') == old(Contents(byFp))[k := Combine(old(byFp[k].Value()), old(ep.Value()))] &&
            k in byFp' && byFp'[k] in {byFp[k], ep} &&
            forall d :: d in eps && d != byFp'[k] ==> d.Value() == old(d.Value())
  {
    var k := fp(ep.source);
    ghost var combined := Combine(byFp[k].Value(), ep.Value());
    var base := Unite(byFp[k], ep);
    byFp' := byFp[k := base];
    assert Contents(byFp') == old(Contents(byFp))[k := combined];
  }

  /** Takes object i into the dictionary. */
  method TakeOne(fp: Source -> string, eps: seq<Discovered>, i: nat, byFp: map<string, Discovered>, order: seq<string>)
    returns (byFp': map<string, Discovered>, order': seq<string>)
    requires i < |eps| && forall k :: k in byFp ==> byFp[k] in eps && fp(byFp[k].source) == k
    modifies eps
    ensures forall k :: k in byFp' ==> byFp'[k] in eps && fp(byFp'[k].source) == k
    ensures TakesIn(fp, old(eps[i].Value()), order, order', old(Contents(byFp)), Contents(byFp'), old(Values(eps)), Values(eps))
  {
    var ep := eps[i];
    var k := fp(ep.source);
    if k !in byFp {
      byFp', order' := byFp[k := ep], order + [k];
      assert Contents(byFp') == old(Contents(byFp))[k := old(ep.Value())];
    } else {
      byFp' := Replace(fp, eps, ep, byFp);
      order' := order;
    }
  }

  method MergeOne(fp: Source -> string, eps: seq<Discovered>, i: nat, byFp: map<string, Discovered>,
                  order: seq<string>, ghost was: seq<Endpoint>)
    returns (byFp': map<string, Discovered>, order': seq<string>)
    requires i < |eps| && forall k :: k in byFp ==> byFp[k] in eps && fp(byFp[k].source) == k
    requires Merging(fp, was, i, order, Contents(byFp), Values(eps))
    modifies eps
    ensures forall k :: k in byFp' ==> byFp'[k] in eps && fp(byFp'[k].source) == k
    ensures Merging(fp, was, i + 1, order', Contents(byFp'), Values(eps))
  {
    ghost var entries, now := Contents(byFp), Values(eps);
    byFp', order' := TakeOne(fp, eps, i, byFp, order);
    OneMore(fp, was, i, order, order', entries, Contents(byFp'), now, Values(eps));
  }

  method InOrder(order: seq<string>, byFp: map<string, Discovered>, ghost fp: Source -> string, ghost acc: seq<Endpoint>)
    returns (merged: seq<Discovered>)
    requires Holds(fp, acc, order, Contents(byFp))
    ensures Values(merged) == acc && forall d :: d in merged ==> d in byFp.Values
  {
    merged := [];
    assert Contents(byFp).Keys == byFp.Keys;
    assert forall k :: k in order ==> k in Contents(byFp);
    for i := 0 to |order|
      invariant forall j :: 0 <= j < i ==> order[j] in byFp
      invariant forall d :: d in merged ==> d in byFp.Values
      invariant |merged| == i && forall j :: 0 <= j < i ==> merged[j] == byFp[order[j]]
    {
      assert order[i] in order;
      merged := merged + [byFp[order[i]]];
    }
    ValuesInOrder(merged, order, byFp, fp, acc);
  }

  lemma ValuesInOrder(merged: seq<Discovered>, order: seq<string>, byFp: map<string, Discovered>, fp: Source -> string, acc: seq<Endpoint>)
    requires Holds(fp, acc, order, Contents(byFp)) && |merged| == |order|
    requires forall j :: 0 <= j < |order| ==> order[j] in byFp && merged[j] == byFp[order[j]]
    ensures Values(merged) == acc
  {
    forall j | 0 <= j < |acc|
      ensures Values(merged)[j] == acc[j]
    {
      assert Contents(byFp)[order[j]] == byFp[order[j]].Value();
    }
  }

  /** Merges a list of endpoint objects in place. The list may contain the same object more
   *  than once; the values that result are those of the specification. */
  method MergeEndpoints(fp: Source -> string, eps: seq<Discovered>) returns (merged: seq<Discovered>)
    modifies eps
    ensures Values(merged) == Merge(fp, old(Values(eps)))
    ensures forall d :: d in merged ==> d in eps
  {
    ghost var was := Values(eps);
    var byFp: map<string, Discovered> := map[];
    var order: seq<string> := [];
    for i := 0 to |eps|
      invariant Merging(fp, was, i, order, Contents(byFp), Values(eps))
      invariant forall k :: k in byFp ==> byFp[k] in eps && fp(byFp[k].source) == k
    {
      byFp, order := MergeOne(fp, eps, i, byFp, order, was);
    }
    assert was[..|eps|] == was;
    merged := InOrder(order, byFp, fp, Merge(fp, was));
  }

  /** An object and its original value have the same effect. */
  lemma SameCombine(existing: Endpoint, now: Endpoint, original: Endpoint)
    requires now == original || (Covers(existing, now) && Covers(existing, original))
    ensures Combine(existing, now) == Combine(existing, original)
  {
    if now != original {
      CoveredCombine(existing, now);
      CoveredCombine(existing, original);
    }
  }
}
