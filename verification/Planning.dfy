/** From the endpoint inventory to the plan that reaches policy: the deterministic plan, the
 *  planner's strategy and the optional re-ranking.
 */
module Planning {
  import opened Prelude
  import opened Scope
  import opened Checks
  import opened Sorting
  import Approvals

  /** An endpoint as planning sees it; parameter names are lower-cased. */
  datatype View = View(id: string, url: string, verb: string, template: string, params: seq<string>, auth: bool)

  datatype Step = Step(
    endpoint: string, url: string, checkClass: string, checkName: string, intensity: Intensity, priority: int)

  // ---- Applicability and priority ---------------------------------------------------------------

  predicate Contains(text: string, part: string) {
    StartsWith(text, part) || (text != "" && Contains(text[1..], part))
  }

  function EndpointPriority(v: View): int {
    5 + MinInt(|v.params|, 4) + (if v.auth then 2 else 0) +
    (if v.verb in {"POST", "PUT", "PATCH", "DELETE"} then 1 else 0) + (if Contains(v.template, "{id}") then 2 else 0)
  }

  function ClassBonus(checkClass: string): int {
    if checkClass == "sqli" || checkClass == "bola" then 4
    else if checkClass == "xss" then 3
    else if checkClass == "open_redirect" then 2
    else if checkClass == "security_headers" || checkClass == "info_disclosure" then 0
    else 1
  }

  predicate SomeParamLike(v: View, parts: seq<string>) {
    exists p, part :: p in v.params && part in parts && Contains(p, part)
  }

  predicate QuickApplies(checkClass: string, v: View, multi: bool) {
    if checkClass in {"sqli", "xss"} then v.params != [] || Contains(v.template, "{id}")
    else if checkClass == "open_redirect" then SomeParamLike(v, ["redirect", "url", "return", "next"])
    else if checkClass == "bola" then
      multi && v.verb == "GET" && (Contains(v.template, "{id}") || SomeParamLike(v, ["id"]))
    else if checkClass in {"security_headers", "info_disclosure"} then v.verb == "GET"
    else true
  }

  /** What the plan is made for. */
  datatype PlanScope = PlanScope(effective: set<string>, level: Intensity, multi: bool)

  /** The check becomes a step for the endpoint. An empty class set filters nothing. */
  predicate Wanted(sc: PlanScope, v: View, c: Check) {
    (sc.effective == {} || c.Class() in sc.effective) && Rank(c.Level()) <= Rank(sc.level) &&
    (c.Class() == "bola" ==> sc.multi) && QuickApplies(c.Class(), v, sc.multi)
  }

  function MakeStep(v: View, c: Check): Step {
    Step(v.id, v.url, c.Class(), c.Name(), c.Level(), EndpointPriority(v) + ClassBonus(c.Class()))
  }

  // ---- The deterministic plan ------------------------------------------------------------------------

  function StepsFor(sc: PlanScope, v: View, checks: seq<Check>): (steps: seq<Step>)
    ensures forall s :: s in steps <==> exists c :: c in checks && Wanted(sc, v, c) && s == MakeStep(v, c)
  {
    if checks == [] then []
    else
      var front, c := StepsFor(sc, v, checks[..|checks| - 1]), checks[|checks| - 1];
      if Wanted(sc, v, c) then front + [MakeStep(v, c)] else front
  }

  /** Endpoint by endpoint, check by check. */
  function Candidates(sc: PlanScope, views: seq<View>, checks: seq<Check>): (steps: seq<Step>)
    ensures forall s :: s in steps <==>
      exists v, c :: v in views && c in checks && Wanted(sc, v, c) && s == MakeStep(v, c)
  {
    if views == [] then []
    else Candidates(sc, views[..|views| - 1], checks) + StepsFor(sc, views[|views| - 1], checks)
  }

  function ByPriority(): (Step, Step) -> bool { (a: Step, b: Step) => a.priority >= b.priority }

  /** The plan: the steps of every applicable check on every endpoint, most important first. */
  method BuildPlan(sc: PlanScope, views: seq<View>, checks: seq<Check>) returns (plan: seq<Step>)
    ensures plan == Sort(Candidates(sc, views, checks), ByPriority())
  {
    var steps: seq<Step> := [];
    for i := 0 to |views|
      invariant steps == Candidates(sc, views[..i], checks)
    {
      var v, before := views[i], steps;
      for j := 0 to |checks|
        invariant steps == before + StepsFor(sc, v, checks[..j])
      {
        assert checks[..j + 1][..j] == checks[..j];
        if Wanted(sc, v, checks[j]) {
          steps := steps + [MakeStep(v, checks[j])];
        }
      }
      assert checks[..|checks|] == checks;
      assert views[..i + 1][..i] == views[..i];
    }
    assert views[..|views|] == views;
    plan := Sort(steps, ByPriority());
  }

  lemma PermutationMembers<T>(a: seq<T>, b: seq<T>)
    requires multiset(a) == multiset(b)
    ensures forall x :: x in a <==> x in b
  {
    forall x
      ensures x in a <==> x in b
    {
      assert x in a <==> x in multiset(a);
      assert x in b <==> x in multiset(b);
    }
  }

  function OfPriority(steps: seq<Step>, n: int): seq<Step> { Filter(steps, (s: Step) => s.priority == n) }

  /** The plan holds a step for exactly the pairs that are wanted, by falling priority; steps of
   *  equal priority keep the order of endpoints and checks. */
  lemma PlanIsExactlyWhatApplies(sc: PlanScope, views: seq<View>, checks: seq<Check>)
    ensures var plan := Sort(Candidates(sc, views, checks), ByPriority());
            (forall s :: s in plan <==>
               exists v, c :: v in views && c in checks && Wanted(sc, v, c) && s == MakeStep(v, c)) &&
            (forall i, j :: 0 <= i < j < |plan| ==> plan[i].priority >= plan[j].priority) &&
            forall n :: OfPriority(plan, n) == OfPriority(Candidates(sc, views, checks), n)
  {
    var steps := Candidates(sc, views, checks);
    SortPermutes(steps, ByPriority());
    PermutationMembers(Sort(steps, ByPriority()), steps);
    SortSorts(steps, ByPriority());
    forall n
      ensures OfPriority(Sort(steps, ByPriority()), n) == OfPriority(steps, n)
    {
      SortIsStable(steps, ByPriority(), (s: Step) => s.priority == n);
    }
  }

  // ---- Strategies -----------------------------------------------------------------------------------------

  function RiskWeight(checkClass: string): int {
    if checkClass == "sqli" || checkClass == "bola" then 5
    else if checkClass == "xss" then 4
    else if checkClass == "open_redirect" then 3
    else if checkClass == "security_headers" || checkClass == "info_disclosure" then 1
    else 2
  }

  /** Order of strings by code points. */
  predicate LexLeq(a: string, b: string) {
    a == "" || (b != "" && (a[0] < b[0] || (a[0] == b[0] && LexLeq(a[1..], b[1..]))))
  }

  predicate RiskFirst(a: Step, b: Step) {
    var x, y := RiskWeight(a.checkClass), RiskWeight(b.checkClass);
    x > y || (x == y && a.priority >= b.priority)
  }

  predicate CoverageFirst(a: Step, b: Step) {
    LexLeq(a.endpoint, b.endpoint) && (a.endpoint == b.endpoint ==> a.priority >= b.priority)
  }

  function StrategyOrder(strategy: string): (Step, Step) -> bool {
    if strategy == "risk-first" then RiskFirst
    else if strategy == "coverage-first" then CoverageFirst
    else ByPriority()
  }

  function ApplyStrategy(plan: seq<Step>, strategy: string): seq<Step> { Sort(plan, StrategyOrder(strategy)) }

  // ---- Re-ranking ---------------------------------------------------------------------------------------------

  /** Where the name is mentioned first, |order| if it is not. */
  function FirstMention(order: seq<string>, name: string): (i: nat)
    ensures i <= |order| && name !in order[..i] && (i < |order| ==> order[i] == name)
  {
    if order == [] then 0
    else if order[0] == name then 0
    else 1 + FirstMention(order[1..], name)
  }

  function ByMention(order: seq<string>): (Step, Step) -> bool {
    (a: Step, b: Step) => FirstMention(order, a.checkName) <= FirstMention(order, b.checkName)
  }

  function Reorder(plan: seq<Step>, order: seq<string>): seq<Step> { Sort(plan, ByMention(order)) }

  /** The rank of every name: its first position in the order. */
  method RankNames(order: seq<string>) returns (rank: map<string, nat>)
    ensures forall name :: name in rank <==> name in order
    ensures forall name :: name in rank ==> rank[name] == FirstMention(order, name)
  {
    rank := map[];
    for i := 0 to |order|
      invariant forall name :: name in rank <==> name in order[..i]
      invariant forall name :: name in rank ==> rank[name] == FirstMention(order, name)
    {
      var name := order[i];
      if name !in rank {
        var first := FirstMention(order, name);
        assert first >= i;
        rank := rank[name := i];
      }
      assert order[..i + 1] == order[..i] + [name];
    }
    assert order[..|order|] == order;
  }

  function Enumerate(plan: seq<Step>, start: nat): seq<(nat, Step)> {
    if plan == [] then [] else [(start, plan[0])] + Enumerate(plan[1..], start + 1)
  }

  function Seconds(pairs: seq<(nat, Step)>): seq<Step> {
    if pairs == [] then [] else [pairs[0].1] + Seconds(pairs[1..])
  }

  /** By rank, then by original position; a name without a rank comes last. */
  predicate RankedLeq(rank: map<string, nat>, last: nat, a: (nat, Step), b: (nat, Step)) {
    var x := if a.1.checkName in rank then rank[a.1.checkName] else last;
    var y := if b.1.checkName in rank then rank[b.1.checkName] else last;
    x < y || (x == y && a.0 <= b.0)
  }

  lemma {:induction false} InsertPair(x: (nat, Step), pairs: seq<(nat, Step)>, pairLeq: ((nat, Step), (nat, Step)) -> bool,
                                      leq: (Step, Step) -> bool)
    requires forall y :: y in pairs ==> pairLeq(x, y) == leq(x.1, y.1)
    ensures Seconds(Insert(x, pairs, pairLeq)) == Insert(x.1, Seconds(pairs), leq)
    decreases |pairs|
  {
    if pairs != [] {
      assert pairs[0] in pairs;
      if pairLeq(x, pairs[0]) {
        assert ([x] + pairs)[1..] == pairs;
      } else {
        InsertPair(x, pairs[1..], pairLeq, leq);
        assert ([pairs[0]] + Insert(x, pairs[1..], pairLeq))[1..] == Insert(x, pairs[1..], pairLeq);
      }
    }
  }

  /** Sorting positions along with the steps is the same as sorting the steps stably. */
  lemma {:induction false} SortPairs(plan: seq<Step>, start: nat, order: seq<string>, rank: map<string, nat>)
    requires forall name :: name in rank <==> name in order
    requires forall name :: name in rank ==> rank[name] == FirstMention(order, name)
    ensures var pairLeq := (a: (nat, Step), b: (nat, Step)) => RankedLeq(rank, |order|, a, b);
            Seconds(Sort(Enumerate(plan, start), pairLeq)) == Sort(plan, ByMention(order))
    ensures forall y :: y in Enumerate(plan, start) ==> y.0 >= start
    decreases |plan|
  {
    if plan != [] {
      var pairLeq := (a: (nat, Step), b: (nat, Step)) => RankedLeq(rank, |order|, a, b);
      var pairs := Enumerate(plan, start);
      assert pairs[1..] == Enumerate(plan[1..], start + 1);
      SortPairs(plan[1..], start + 1, order, rank);
      var rest := Sort(pairs[1..], pairLeq);
      SortPermutes(pairs[1..], pairLeq);
      PermutationMembers(rest, pairs[1..]);
      forall y | y in rest
        ensures pairLeq(pairs[0], y) == ByMention(order)(pairs[0].1, y.1)
      {
      }
      InsertPair(pairs[0], rest, pairLeq, ByMention(order));
    }
  }

  method ApplyReorder(plan: seq<Step>, order: seq<string>) returns (reordered: seq<Step>)
    ensures reordered == Reorder(plan, order)
  {
    var rank := RankNames(order);
    var pairs := Sort(Enumerate(plan, 0), (a: (nat, Step), b: (nat, Step)) => RankedLeq(rank, |order|, a, b));
    SortPairs(plan, 0, order, rank);
    reordered := Seconds(pairs);
  }

  lemma NoOrderNoChange(plan: seq<Step>)
    ensures Reorder(plan, []) == plan
  {
    forall i, j | 0 <= i < j < |plan|
      ensures ByMention([])(plan[i], plan[j])
    {
      assert FirstMention([], plan[i].checkName) == FirstMention([], plan[j].checkName) == 0;
    }
    SortKeepsSorted(plan, ByMention([]));
  }

  /** The re-ranker proposes nothing when it is switched off, fails or gives no order. */
  method RerankPlan(plan: seq<Step>, enabled: bool, proposal: Option<seq<string>>) returns (result: seq<Step>)
    ensures result == if enabled && proposal.Some? then Reorder(plan, proposal.value) else plan
  {
    if !enabled || plan == [] || proposal.None? || proposal.value == [] {
      NoOrderNoChange(plan);
      return plan;
    }
    var reordered := ApplyReorder(plan, proposal.value);
    // Never taken: reordering keeps the length.
    if |reordered| != |plan| {
      return plan;
    }
    return reordered;
  }

  // ---- Main results ---------------------------------------------------------------------------------------------

  /** Whatever strategy the planner names and whatever order the re-ranker proposes, the plan
   *  that reaches policy is a permutation of the deterministic plan. */
  lemma ChoicesOnlyReorder(plan: seq<Step>, strategy: string, order: seq<string>)
    ensures multiset(Reorder(ApplyStrategy(plan, strategy), order)) == multiset(plan)
  {
    SortPermutes(plan, StrategyOrder(strategy));
    SortPermutes(ApplyStrategy(plan, strategy), ByMention(order));
  }

  function Named(steps: seq<Step>, name: string): seq<Step> { Filter(steps, (s: Step) => s.checkName == name) }

  /** Re-ranking puts steps in the order in which their names are first mentioned, unmentioned
   *  ones last, keeps steps of one name in place relative to each other, and done twice it is
   *  the same as done once. */
  lemma ReorderIsStableAndIdempotent(plan: seq<Step>, order: seq<string>)
    ensures var r := Reorder(plan, order);
            (forall i, j :: 0 <= i < j < |r| ==>
               FirstMention(order, r[i].checkName) <= FirstMention(order, r[j].checkName)) &&
            (forall name :: Named(r, name) == Named(plan, name)) &&
            Unmentioned(r, order) == Unmentioned(plan, order) &&
            Reorder(r, order) == r
  {
    var leq := ByMention(order);
    SortSorts(plan, leq);
    forall name
      ensures Named(Reorder(plan, order), name) == Named(plan, name)
    {
      SortIsStable(plan, leq, (s: Step) => s.checkName == name);
    }
    SortIsStable(plan, leq, (s: Step) => s.checkName !in order);
    SortKeepsSorted(Reorder(plan, order), leq);
  }

  function Unmentioned(steps: seq<Step>, order: seq<string>): seq<Step> {
    Filter(steps, (s: Step) => s.checkName !in order)
  }

  // ---- What policy makes of the plan -----------------------------------------------------------------------------

  function RowOf(s: Step): Approvals.Row { Approvals.Row(s.checkName, s.checkClass, Approvals.Planned) }

  /** The rows stored for a plan are drafts of built-in or frozen checks that the planner's filter
   *  lets through, as the step machine of approvals takes them. */
  lemma PlannedRowsAreDrafts(cfg: Approvals.Config, scope: PlanScope, views: seq<View>, checks: seq<Check>, s: Step)
    requires scope.effective == Approvals.Effective(cfg.requested, cfg.record.allowedChecks)
    requires scope.level == CoerceIntensity(cfg.record.intensity)
    requires s in Candidates(scope, views, checks)
    ensures exists k :: 0 <= k < |checks| && RowOf(s) == Approvals.Draft(checks[k]) && Approvals.Plannable(cfg, checks[k])
  {
    var v, c :| v in views && c in checks && Wanted(scope, v, c) && s == MakeStep(v, c);
    var k :| 0 <= k < |checks| && checks[k] == c;
    assert RowOf(s) == Approvals.Draft(checks[k]) && Approvals.Plannable(cfg, checks[k]);
  }

  function PolicyOn(cfg: Approvals.Config, declaratives: seq<Check>): Step -> Approvals.Status {
    (s: Step) => Approvals.StatusAfter(cfg, RowOf(s), declaratives)
  }

  /** Every step with what policy decides about it. */
  function Outcomes(plan: seq<Step>, policy: Step -> Approvals.Status): multiset<(Step, Approvals.Status)> {
    if plan == [] then multiset{} else multiset{(plan[0], policy(plan[0]))} + Outcomes(plan[1..], policy)
  }

  lemma {:induction false} OutcomesCount(plan: seq<Step>, policy: Step -> Approvals.Status, s: Step, status: Approvals.Status)
    ensures Outcomes(plan, policy)[(s, status)] == if status == policy(s) then multiset(plan)[s] else 0
    decreases |plan|
  {
    if plan != [] {
      OutcomesCount(plan[1..], policy, s, status);
      assert plan == [plan[0]] + plan[1..];
    }
  }

  lemma OutcomesOfPermutation(a: seq<Step>, b: seq<Step>, policy: Step -> Approvals.Status)
    requires multiset(a) == multiset(b)
    ensures Outcomes(a, policy) == Outcomes(b, policy)
  {
    forall o: (Step, Approvals.Status)
      ensures Outcomes(a, policy)[o] == Outcomes(b, policy)[o]
    {
      OutcomesCount(a, policy, o.0, o.1);
      OutcomesCount(b, policy, o.0, o.1);
    }
  }

  /** Which steps are approved, held, denied or skipped does not depend on any choice of the
   *  planner or the re-ranker. */
  lemma OutcomesAreOrderFree(cfg: Approvals.Config, plan: seq<Step>, strategy: string, order: seq<string>, declaratives: seq<Check>)
    ensures Outcomes(Reorder(ApplyStrategy(plan, strategy), order), PolicyOn(cfg, declaratives)) ==
            Outcomes(plan, PolicyOn(cfg, declaratives))
  {
    ChoicesOnlyReorder(plan, strategy, order);
    OutcomesOfPermutation(Reorder(ApplyStrategy(plan, strategy), order), plan, PolicyOn(cfg, declaratives));
  }

  // ---- The class filter --------------------------------------------------------------------------------------------

  /** Every step of every plan has one of the requested classes, unless policy refuses it. */
  ghost predicate PlansKeepToRequest(cfg: Approvals.Config, requested: set<string>) {
    forall views, declaratives, multi, s ::
      s in Candidates(PlanScope(Approvals.Effective(requested, cfg.record.allowedChecks), CoerceIntensity(cfg.record.intensity), multi),
                      views, BUILTINS + declaratives) &&
      PolicyOn(cfg, declaratives)(s) in {Approvals.Approved, Approvals.Awaiting} ==>
        s.checkClass in requested
  }

  /** What is planned keeps to the requested classes exactly when at least one of them is
   *  authorized: an empty intersection switches the planner's filter off, and policy knows nothing
   *  of what was requested. For what runs see RequestedClasses: replanning does not plan. */
  lemma PlansKeepToRequestExactly(cfg: Approvals.Config, requested: set<string>)
    requires requested != {}
    ensures PlansKeepToRequest(cfg, requested) <==> requested * cfg.record.allowedChecks != {}
  {
    var effective := Approvals.Effective(requested, cfg.record.allowedChecks);
    if effective == {} {
      var c := Approvals.SomeOtherClass(requested, cfg.record.allowedChecks);
      StepOutsideRequest(cfg, requested, c);
    }
  }

  lemma LikesItself(v: View, name: string, parts: seq<string>)
    requires v.params == [name] && parts != [] && parts[0] == name
    ensures SomeParamLike(v, parts)
  {
    assert StartsWith(name, name) && Contains(name, name);
    assert name in v.params && name in parts;
  }

  /** A passive skill of an authorized class passes policy. */
  lemma PassiveSkillPasses(cfg: Approvals.Config, spec: Spec, s: Step)
    requires spec.intensity == "passive" && !spec.stateChanging && spec.environments == []
    requires cfg.record.allowedChecks == {} || spec.checkClass in cfg.record.allowedChecks
    requires s.checkName == spec.name == "x" && s.checkClass == spec.checkClass
    ensures PolicyOn(cfg, [Declarative(spec)])(s) == Approvals.Approved
  {
    var skill := Declarative(spec);
    assert [skill][0].Name() == "x";
    ShortNameIsNoBuiltIn("x");
    assert Resolve("x", s.checkClass, [skill]) == Some(skill);
    assert Approvals.Gate(cfg.record, spec.checkClass, skill) == Ok;
  }

  /** An endpoint to which checks of every class apply. */
  lemma OpenEndpoint(c: string) returns (v: View)
    ensures QuickApplies(c, v, true)
  {
    v := View("e", "/", "GET", "{id}", ["redirect"], false);
    LikesItself(v, "redirect", ["redirect", "url", "return", "next"]);
    assert StartsWith(v.template, "{id}");
  }

  lemma StepOutsideRequest(cfg: Approvals.Config, requested: set<string>, c: string)
    requires Approvals.Effective(requested, cfg.record.allowedChecks) == {}
    requires c !in requested && (cfg.record.allowedChecks == {} || c in cfg.record.allowedChecks)
    ensures !PlansKeepToRequest(cfg, requested)
  {
    var skill := Declarative(Spec("x", c, "passive", false, [], true));
    var scope := PlanScope({}, CoerceIntensity(cfg.record.intensity), true);
    var v := OpenEndpoint(c);
    PassiveSkillPasses(cfg, skill.spec, MakeStep(v, skill));
    Refutes(cfg, requested, [v], [skill], true, MakeStep(v, skill));
  }

  lemma Refutes(cfg: Approvals.Config, requested: set<string>, views: seq<View>, declaratives: seq<Check>, multi: bool, s: Step)
    requires s in Candidates(PlanScope(Approvals.Effective(requested, cfg.record.allowedChecks), CoerceIntensity(cfg.record.intensity), multi),
                             views, BUILTINS + declaratives)
    requires PolicyOn(cfg, declaratives)(s) == Approvals.Approved && s.checkClass !in requested
    ensures !PlansKeepToRequest(cfg, requested)
  {
  }
}
