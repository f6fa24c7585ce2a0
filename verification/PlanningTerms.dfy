/** What the planner makes of an endpoint and a check, in the terms of both. */
module PlanningTerms {
  import opened Prelude
  import opened Scope
  import opened Checks
  import opened Sorting
  import opened Planning

  // ---- Which checks apply to which endpoints ----------------------------------------------------

  predicate Occurs(part: string, text: string) { exists i :: 0 <= i <= |text| && part <= text[i..] }

  lemma {:induction false} ContainsExactly(text: string, part: string)
    ensures Contains(text, part) <==> Occurs(part, text)
    decreases |text|
  {
    assert text[0..] == text;
    if StartsWith(text, part) {
      assert part <= text[0..];
    } else if text != "" {
      ContainsExactly(text[1..], part);
      if Contains(text[1..], part) {
        var i :| 0 <= i <= |text[1..]| && part <= text[1..][i..];
        assert text[i + 1..] == text[1..][i..];
      }
      if i :| 0 <= i <= |text| && part <= text[i..] {
        assert i > 0 && text[1..][i - 1..] == text[i..];
      }
    }
  }

  predicate HasId(v: View) { Occurs("{id}", v.template) }

  predicate SomeNameHas(v: View, part: string) { exists k :: 0 <= k < |v.params| && Occurs(part, v.params[k]) }

  lemma {:induction false} NamesExactly(v: View, parts: seq<string>)
    ensures SomeParamLike(v, parts) <==> exists part :: part in parts && SomeNameHas(v, part)
  {
    forall p, part
      ensures Contains(p, part) <==> Occurs(part, p)
    {
      ContainsExactly(p, part);
    }
    if part :| part in parts && SomeNameHas(v, part) {
      var k :| 0 <= k < |v.params| && Occurs(part, v.params[k]);
      assert v.params[k] in v.params;
    }
  }

  lemma AnyOfFour(v: View, a: string, b: string, c: string, d: string)
    ensures (exists part :: part in [a, b, c, d] && SomeNameHas(v, part)) <==>
            SomeNameHas(v, a) || SomeNameHas(v, b) || SomeNameHas(v, c) || SomeNameHas(v, d)
  {
    assert a in [a, b, c, d] && b in [a, b, c, d] && c in [a, b, c, d] && d in [a, b, c, d];
  }

  lemma AnyOfOne(v: View, a: string)
    ensures (exists part :: part in [a] && SomeNameHas(v, part)) <==> SomeNameHas(v, a)
  {
    assert a in [a];
  }

  /** Injection and scripting checks apply where something can be injected, redirect checks where a
   *  parameter is named for it, access control checks to objects read under two sessions, header and
   *  disclosure checks to what is read, and everything else everywhere. */
  lemma AppliesExactly(v: View, multi: bool, other: string)
    requires other !in {"sqli", "xss", "open_redirect", "bola", "security_headers", "info_disclosure"}
    ensures QuickApplies("sqli", v, multi) <==> |v.params| > 0 || HasId(v)
    ensures QuickApplies("xss", v, multi) <==> |v.params| > 0 || HasId(v)
    ensures QuickApplies("open_redirect", v, multi) <==>
            SomeNameHas(v, "redirect") || SomeNameHas(v, "url") || SomeNameHas(v, "return") || SomeNameHas(v, "next")
    ensures QuickApplies("bola", v, multi) <==> multi && v.verb == "GET" && (HasId(v) || SomeNameHas(v, "id"))
    ensures QuickApplies("security_headers", v, multi) <==> v.verb == "GET"
    ensures QuickApplies("info_disclosure", v, multi) <==> v.verb == "GET"
    ensures QuickApplies(other, v, multi)
  {
    ContainsExactly(v.template, "{id}");
    NamesExactly(v, ["redirect", "url", "return", "next"]);
    AnyOfFour(v, "redirect", "url", "return", "next");
    NamesExactly(v, ["id"]);
    AnyOfOne(v, "id");
    DifferentClasses();
  }

  lemma DifferentClasses()
    ensures "sqli"[0] == 's' && "xss"[0] == 'x' && "open_redirect"[0] == 'o' && "bola"[0] == 'b' && "info_disclosure"[0] == 'i'
    ensures |"sqli"| == 4 && |"security_headers"| == 16
  {
  }

  // ---- Priorities -------------------------------------------------------------------------------

  /** What makes an endpoint more interesting: parameters, up to four; authentication; a writing method;
   *  an identifier in the path. */
  lemma PriorityExactly(v: View)
    ensures EndpointPriority(v) - 5 ==
            (if |v.params| >= 4 then 4 else |v.params|) + (if v.auth then 2 else 0) + (if HasId(v) then 2 else 0) +
            (if v.verb == "POST" || v.verb == "PUT" || v.verb == "PATCH" || v.verb == "DELETE" then 1 else 0)
    ensures 5 <= EndpointPriority(v) <= 14
  {
    ContainsExactly(v.template, "{id}");
  }

  /** The bonus of each class, and its weight in the risk-first order, which is one more. */
  lemma WeightsExactly(c: string)
    ensures ClassBonus(c) == 4 <==> c in {"sqli", "bola"}
    ensures ClassBonus(c) == 3 <==> c == "xss"
    ensures ClassBonus(c) == 2 <==> c == "open_redirect"
    ensures ClassBonus(c) == 0 <==> c in {"security_headers", "info_disclosure"}
    ensures 0 <= ClassBonus(c) <= 4 && RiskWeight(c) == ClassBonus(c) + 1
  {
    DifferentClasses();
  }

  // ---- The plan ---------------------------------------------------------------------------------

  predicate Level(c: Check, words: string) {
    match c
    case BuiltIn(_, _, intensity, _) =>
      (intensity == SafeActive && words == "safe_active") || (intensity == Invasive && words == "invasive")
    case Declarative(spec) => spec.intensity == words
  }

  /** The check may become a step for the endpoint: its class is one of those the plan is for, its
   *  intensity is not above theirs, and it applies. */
  predicate Takes(sc: PlanScope, v: View, c: Check) {
    (sc.effective == {} || c.Class() in sc.effective) &&
    (Level(c, "safe_active") ==> sc.level != Passive) && (Level(c, "invasive") ==> sc.level == Invasive) &&
    QuickApplies(c.Class(), v, sc.multi)
  }

  lemma LevelsExactly(c: Check)
    ensures c.Level() == SafeActive <==> Level(c, "safe_active")
    ensures c.Level() == Invasive <==> Level(c, "invasive")
  {
    assert "safe_active"[0] != "invasive"[0];
  }

  lemma WantedExactly(sc: PlanScope, v: View, c: Check)
    ensures Wanted(sc, v, c) <==> Takes(sc, v, c)
  {
    LevelsExactly(c);
    DifferentClasses();
  }

  /** The step is for this endpoint and this check, with the priority of both. */
  predicate IsFor(s: Step, v: View, c: Check) {
    s.endpoint == v.id && s.url == v.url && s.checkName == c.Name() && s.checkClass == c.Class() &&
    s.intensity == c.Level() && s.priority == EndpointPriority(v) + ClassBonus(c.Class())
  }

  lemma OneStep(sc: PlanScope, v: View, c: Check, s: Step)
    ensures Wanted(sc, v, c) && s == MakeStep(v, c) <==> Takes(sc, v, c) && IsFor(s, v, c)
  {
    WantedExactly(sc, v, c);
  }

  ghost predicate ForSome(sc: PlanScope, views: seq<View>, checks: seq<Check>, s: Step) {
    exists v, c :: v in views && c in checks && Takes(sc, v, c) && IsFor(s, v, c)
  }

  lemma OnePlanned(sc: PlanScope, views: seq<View>, checks: seq<Check>, s: Step)
    ensures ForSome(sc, views, checks, s) <==> exists v, c :: v in views && c in checks && Wanted(sc, v, c) && s == MakeStep(v, c)
  {
    if ForSome(sc, views, checks, s) {
      var v, c :| v in views && c in checks && Takes(sc, v, c) && IsFor(s, v, c);
      OneStep(sc, v, c, s);
      assert Wanted(sc, v, c) && s == MakeStep(v, c);
    }
    if v, c :| v in views && c in checks && Wanted(sc, v, c) && s == MakeStep(v, c) {
      OneStep(sc, v, c, s);
      assert Takes(sc, v, c) && IsFor(s, v, c);
    }
  }

  /** Planned are exactly the steps for the pairs of an endpoint and a check that may become one. */
  lemma PlannedExactly(sc: PlanScope, views: seq<View>, checks: seq<Check>)
    ensures forall s :: s in Sort(Candidates(sc, views, checks), ByPriority()) <==> ForSome(sc, views, checks, s)
  {
    PlanIsExactlyWhatApplies(sc, views, checks);
    forall s
      ensures s in Sort(Candidates(sc, views, checks), ByPriority()) <==> ForSome(sc, views, checks, s)
    {
      OnePlanned(sc, views, checks, s);
    }
  }

  // ---- The strategies -----------------------------------------------------------------------------

  lemma {:induction false} LexTotal(a: string, b: string)
    ensures LexLeq(a, b) || LexLeq(b, a)
    ensures LexLeq(a, b) && LexLeq(b, a) ==> a == b
    decreases |a|
  {
    if a != "" && b != "" {
      LexTotal(a[1..], b[1..]);
      assert a == [a[0]] + a[1..] && b == [b[0]] + b[1..];
    }
  }

  lemma {:induction false} LexTransitive(a: string, b: string, c: string)
    requires LexLeq(a, b) && LexLeq(b, c)
    ensures LexLeq(a, c)
    decreases |a|
  {
    if a != "" && a[0] == b[0] == c[0] {
      LexTransitive(a[1..], b[1..], c[1..]);
    }
  }

  lemma {:induction false} LexReflexive(a: string)
    ensures LexLeq(a, a)
    decreases |a|
  {
    if a != "" {
      LexReflexive(a[1..]);
    }
  }

  lemma CoverageFirstIsAnOrder()
    ensures TotalPreorder(CoverageFirst)
  {
    forall a: Step, b: Step
      ensures CoverageFirst(a, b) || CoverageFirst(b, a)
    {
      LexTotal(a.endpoint, b.endpoint);
      LexReflexive(a.endpoint);
    }
    forall a: Step, b: Step, c: Step | CoverageFirst(a, b) && CoverageFirst(b, c)
      ensures CoverageFirst(a, c)
    {
      LexTransitive(a.endpoint, b.endpoint, c.endpoint);
      LexTotal(a.endpoint, b.endpoint);
      LexTotal(b.endpoint, c.endpoint);
    }
  }

  lemma RiskFirstIsAnOrder()
    ensures TotalPreorder(RiskFirst)
  {
  }

  /** Risk first: by falling weight of the class and then by falling priority. Coverage first: endpoint by
   *  endpoint, each by falling priority. Any other name keeps the order by priority alone. */
  lemma StrategiesExactly(plan: seq<Step>, other: string)
    requires other !in {"risk-first", "coverage-first"}
    ensures var r := ApplyStrategy(plan, "risk-first");
            forall i, j :: 0 <= i < j < |r| ==>
              RiskWeight(r[i].checkClass) > RiskWeight(r[j].checkClass) ||
              (RiskWeight(r[i].checkClass) == RiskWeight(r[j].checkClass) && r[i].priority >= r[j].priority)
    ensures var c := ApplyStrategy(plan, "coverage-first");
            forall i, j :: 0 <= i < j < |c| && c[i].endpoint == c[j].endpoint ==> c[i].priority >= c[j].priority
    ensures var c := ApplyStrategy(plan, "coverage-first");
            forall i, j, k :: 0 <= i < j < k < |c| && c[i].endpoint == c[k].endpoint ==> c[j].endpoint == c[i].endpoint
    ensures ApplyStrategy(plan, other) == Sort(plan, ByPriority())
  {
    assert "risk-first"[0] == 'r' && "coverage-first"[0] == 'c';
    RiskFirstIsAnOrder();
    CoverageFirstIsAnOrder();
    SortSorts(plan, RiskFirst);
    SortSorts(plan, CoverageFirst);
    var c := ApplyStrategy(plan, "coverage-first");
    forall i, j, k | 0 <= i < j < k < |c| && c[i].endpoint == c[k].endpoint
      ensures c[j].endpoint == c[i].endpoint
    {
      assert CoverageFirst(c[i], c[j]) && CoverageFirst(c[j], c[k]);
      LexTotal(c[i].endpoint, c[j].endpoint);
    }
  }
}
