/** Coverage rows, and the grade of an assessment given its coverage. */
module Coverage {
  import opened Prelude
  import Scoring

  /** A plan step as scoring sees it. */
  datatype Step = Step(endpoint: string, checkClass: string, status: string)

  datatype Row = Row(endpoint: string, checkClass: string, tested: bool, reason: string)

  const PLANNED_ONLY := "planned but not completed"
  const UNKNOWN_RISK := "not planned (heuristics/scope) \U{2014} UNKNOWN risk, not confirmed-safe"

  predicate Done(steps: seq<Step>, endpoint: string, checkClass: string) {
    Step(endpoint, checkClass, "done") in steps
  }

  predicate Planned(steps: seq<Step>, endpoint: string, checkClass: string) {
    Done(steps, endpoint, checkClass) || Step(endpoint, checkClass, "approved") in steps ||
    Step(endpoint, checkClass, "errored") in steps
  }

  function Reason(steps: seq<Step>, endpoint: string, checkClass: string): string {
    if Done(steps, endpoint, checkClass) then ""
    else if Planned(steps, endpoint, checkClass) then PLANNED_ONLY
    else UNKNOWN_RISK
  }

  ghost predicate AllHonest(rows: seq<Row>, endpoints: seq<string>, classes: set<string>, steps: seq<Step>) {
    forall i :: 0 <= i < |rows| ==>
      rows[i].endpoint in endpoints && rows[i].checkClass in classes && Honest(rows[i], steps)
  }

  ghost predicate NoPairTwice(rows: seq<Row>) {
    forall i, j :: 0 <= i < j < |rows| ==> rows[i].endpoint != rows[j].endpoint || rows[i].checkClass != rows[j].checkClass
  }

  ghost predicate EveryPair(rows: seq<Row>, endpoints: seq<string>, classes: set<string>) {
    forall e, c :: e in endpoints && c in classes ==> HasRow(rows, e, c)
  }

  /** Every pair of an endpoint and a class has exactly one row, there is no other row, and a row
   *  is tested exactly when a step of its pair is done. */
  ghost predicate Accounts(rows: seq<Row>, endpoints: seq<string>, classes: set<string>, steps: seq<Step>) {
    |rows| == |endpoints| * |classes| && AllHonest(rows, endpoints, classes, steps) && NoPairTwice(rows) &&
    EveryPair(rows, endpoints, classes)
  }

  ghost predicate HasRow(rows: seq<Row>, e: string, c: string) {
    exists i :: 0 <= i < |rows| && rows[i].endpoint == e && rows[i].checkClass == c
  }

  predicate Honest(row: Row, steps: seq<Step>) {
    row.tested == Done(steps, row.endpoint, row.checkClass) && row.reason == Reason(steps, row.endpoint, row.checkClass)
  }

  /** The rows of one endpoint. */
  method RowsFor(endpoint: string, classes: set<string>, steps: seq<Step>) returns (rows: seq<Row>)
    ensures Accounts(rows, [endpoint], classes, steps)
  {
    rows := [];
    var left := classes;
    while left != {}
      invariant left <= classes && |rows| == |classes| - |left|
      invariant forall i :: 0 <= i < |rows| ==>
        rows[i].endpoint == endpoint && rows[i].checkClass in classes && rows[i].checkClass !in left && Honest(rows[i], steps)
      invariant forall i, j :: 0 <= i < j < |rows| ==> rows[i].checkClass != rows[j].checkClass
      invariant forall c :: c in classes && c !in left ==> HasRow(rows, endpoint, c)
      decreases left
    {
      var c :| c in left;
      ghost var before := rows;
      rows := rows + [Row(endpoint, c, Done(steps, endpoint, c), Reason(steps, endpoint, c))];
      left := left - {c};
      RowsStay(before, rows);
      assert rows[|before|].checkClass == c;
    }
  }

  lemma RowsStay(before: seq<Row>, after: seq<Row>)
    requires before <= after
    ensures forall e, c :: HasRow(before, e, c) ==> HasRow(after, e, c)
  {
    forall e, c | HasRow(before, e, c)
      ensures HasRow(after, e, c)
    {
      var i :| 0 <= i < |before| && before[i].endpoint == e && before[i].checkClass == c;
      assert after[i] == before[i];
    }
  }

  /** The coverage part of the scoring phase. Only the first pass that finds no rows writes any.
   *  `builtIn` are the classes of the built-in checks, which count when none is authorized. */
  method WriteCoverage(existing: seq<Row>, endpoints: seq<string>, allowed: set<string>, builtIn: set<string>, steps: seq<Step>)
    returns (rows: seq<Row>)
    requires Distinct(endpoints)
    ensures existing != [] ==> rows == existing
    ensures existing == [] ==> Accounts(rows, endpoints, Denominator(allowed, builtIn), steps)
  {
    rows := existing;
    var classes := Denominator(allowed, builtIn);
    if existing == [] {
      for i := 0 to |endpoints|
        invariant Accounts(rows, endpoints[..i], classes, steps)
      {
        var more := RowsFor(endpoints[i], classes, steps);
        assert endpoints[..i + 1] == endpoints[..i] + [endpoints[i]];
        JoinAccounts(rows, more, endpoints[..i], endpoints[i], classes, steps);
        rows := rows + more;
      }
      assert endpoints[..|endpoints|] == endpoints;
    }
  }

  function Denominator(allowed: set<string>, builtIn: set<string>): set<string> {
    if allowed != {} then allowed else builtIn
  }

  /** Rows are written for the authorized classes, or for all built-in ones if the record names none; and
   *  the words of their reasons. */
  lemma ClassesAndReasons(allowed: set<string>, builtIn: set<string>)
    ensures allowed != {} ==> Denominator(allowed, builtIn) == allowed
    ensures allowed == {} ==> Denominator(allowed, builtIn) == builtIn
    ensures PLANNED_ONLY == "planned but not completed"
    ensures UNKNOWN_RISK == "not planned (heuristics/scope) \U{2014} UNKNOWN risk, not confirmed-safe"
  {
  }

  lemma JoinEveryPair(rows: seq<Row>, more: seq<Row>, endpoints: seq<string>, e: string, classes: set<string>)
    requires EveryPair(rows, endpoints, classes) && EveryPair(more, [e], classes)
    ensures EveryPair(rows + more, endpoints + [e], classes)
  {
    var all := rows + more;
    RowsStay(rows, all);
    forall x, c | x in endpoints + [e] && c in classes
      ensures HasRow(all, x, c)
    {
      if x !in endpoints {
        assert e in [e] && HasRow(more, e, c);
        var i :| 0 <= i < |more| && more[i].endpoint == e && more[i].checkClass == c;
        assert all[|rows| + i] == more[i];
      }
    }
  }

  lemma JoinDistinct(rows: seq<Row>, more: seq<Row>, endpoints: seq<string>, e: string, classes: set<string>, steps: seq<Step>)
    requires NoPairTwice(rows) && NoPairTwice(more) && e !in endpoints
    requires AllHonest(rows, endpoints, classes, steps) && AllHonest(more, [e], classes, steps)
    ensures NoPairTwice(rows + more)
  {
    var all := rows + more;
    forall i, j | 0 <= i < j < |all|
      ensures all[i].endpoint != all[j].endpoint || all[i].checkClass != all[j].checkClass
    {
      if i < |rows| <= j {
        assert all[i].endpoint in endpoints && more[j - |rows|].endpoint in [e];
      }
    }
  }

  lemma JoinAccounts(rows: seq<Row>, more: seq<Row>, endpoints: seq<string>, e: string, classes: set<string>, steps: seq<Step>)
    requires Accounts(rows, endpoints, classes, steps) && Accounts(more, [e], classes, steps) && e !in endpoints
    ensures Accounts(rows + more, endpoints + [e], classes, steps)
  {
    JoinEveryPair(rows, more, endpoints, e, classes);
    JoinDistinct(rows, more, endpoints, e, classes, steps);
    JoinHonest(rows, more, endpoints, e, classes, steps);
    OneMoreTimes(|endpoints|, |classes|);
  }

  lemma OneMoreTimes(n: nat, m: nat)
    ensures (n + 1) * m == n * m + m && 1 * m == m
  {
  }

  lemma JoinHonest(rows: seq<Row>, more: seq<Row>, endpoints: seq<string>, e: string, classes: set<string>, steps: seq<Step>)
    requires AllHonest(rows, endpoints, classes, steps) && AllHonest(more, [e], classes, steps)
    ensures AllHonest(rows + more, endpoints + [e], classes, steps)
  {
  }

  // ---- Later passes -------------------------------------------------------------------------------

  /** Rows of the first pass are right about later steps, and about the endpoints there are by
   *  then, exactly when no endpoint was added and no reason changed. */
  lemma RowsGoStale(rows: seq<Row>, endpoints: seq<string>, classes: set<string>, steps: seq<Step>,
                    added: seq<string>, later: seq<Step>)
    requires Accounts(rows, endpoints, classes, steps) && classes != {}
    ensures Accounts(rows, endpoints + added, classes, later) <==>
            added == [] && forall e, c :: e in endpoints && c in classes ==> Reason(later, e, c) == Reason(steps, e, c)
  {
    if added != [] {
      MoreIsMore(|endpoints|, |added|, |classes|);
    } else {
      assert endpoints + added == endpoints;
      if Accounts(rows, endpoints, classes, later) {
        RightRowsTell(rows, endpoints, classes, steps, later);
      } else if forall e, c :: e in endpoints && c in classes ==> Reason(later, e, c) == Reason(steps, e, c) {
        SameReasonsKeep(rows, endpoints, classes, steps, later);
      }
    }
  }

  lemma RightRowsTell(rows: seq<Row>, endpoints: seq<string>, classes: set<string>, steps: seq<Step>, later: seq<Step>)
    requires AllHonest(rows, endpoints, classes, steps) && AllHonest(rows, endpoints, classes, later)
    requires EveryPair(rows, endpoints, classes)
    ensures forall e, c :: e in endpoints && c in classes ==> Reason(later, e, c) == Reason(steps, e, c)
  {
    forall e, c | e in endpoints && c in classes
      ensures Reason(later, e, c) == Reason(steps, e, c)
    {
      assert HasRow(rows, e, c);
      var i :| 0 <= i < |rows| && rows[i].endpoint == e && rows[i].checkClass == c;
      assert Honest(rows[i], steps) && Honest(rows[i], later);
    }
  }

  lemma SameReasonsKeep(rows: seq<Row>, endpoints: seq<string>, classes: set<string>, steps: seq<Step>, later: seq<Step>)
    requires AllHonest(rows, endpoints, classes, steps)
    requires forall e, c :: e in endpoints && c in classes ==> Reason(later, e, c) == Reason(steps, e, c)
    ensures AllHonest(rows, endpoints, classes, later)
  {
    ReasonsTell(steps, later);
    forall i | 0 <= i < |rows|
      ensures Honest(rows[i], later)
    {
      assert Honest(rows[i], steps) && rows[i].endpoint in endpoints && rows[i].checkClass in classes;
    }
  }

  lemma MoreIsMore(n: nat, more: nat, m: nat)
    requires more > 0 && m > 0
    ensures (n + more) * m > n * m
  {
    assert (n + more) * m == n * m + more * m;
  }

  lemma ReasonsTell(steps: seq<Step>, later: seq<Step>)
    ensures forall e, c :: Reason(later, e, c) == Reason(steps, e, c) ==> Done(later, e, c) == Done(steps, e, c)
  {
  }

  /** Step k has a new status: a late execution completed, failed or skipped it, or an operator
   *  decided it. */
  function AfterChange(steps: seq<Step>, k: nat, status: string): seq<Step>
    requires k < |steps|
  {
    steps[k := steps[k].(status := status)]
  }

  function OtherSteps(steps: seq<Step>, k: nat): seq<Step>
    requires k < |steps|
  {
    steps[..k] + steps[k + 1..]
  }

  /** How far a step of this status brings its pair: completed, planned, or nowhere. */
  function Standing(status: string): nat {
    if status == "done" then 2 else if status == "approved" || status == "errored" then 1 else 0
  }

  function Reach(steps: seq<Step>, e: string, c: string): nat {
    if Done(steps, e, c) then 2 else if Planned(steps, e, c) then 1 else 0
  }

  lemma ReasonTellsReach(steps: seq<Step>, later: seq<Step>, e: string, c: string)
    ensures Reason(later, e, c) == Reason(steps, e, c) <==> Reach(later, e, c) == Reach(steps, e, c)
  {
    assert |""| == 0 && |PLANNED_ONLY| == 25 && |UNKNOWN_RISK| > 25;
  }

  lemma StepOrOther(steps: seq<Step>, k: nat, s: Step)
    requires k < |steps|
    ensures s in steps <==> s == steps[k] || s in OtherSteps(steps, k)
  {
    assert steps == steps[..k] + [steps[k]] + steps[k + 1..];
  }

  lemma ReachApart(steps: seq<Step>, k: nat, e: string, c: string)
    requires k < |steps|
    ensures Reach(steps, e, c) ==
            if e == steps[k].endpoint && c == steps[k].checkClass
            then MaxInt(Standing(steps[k].status), Reach(OtherSteps(steps, k), e, c)) else Reach(OtherSteps(steps, k), e, c)
  {
    assert "approved"[0] == 'a' && "errored"[0] == 'e' && "done"[0] == 'd';
    StepOrOther(steps, k, Step(e, c, "done"));
    StepOrOther(steps, k, Step(e, c, "approved"));
    StepOrOther(steps, k, Step(e, c, "errored"));
  }

  /** The change makes no difference: it stands for the same, or another step has brought the pair
   *  at least as far. */
  predicate NoMatter(steps: seq<Step>, k: nat, status: string)
    requires k < |steps|
  {
    var was, now := Standing(steps[k].status), Standing(status);
    was == now || MaxInt(was, now) <= Reach(OtherSteps(steps, k), steps[k].endpoint, steps[k].checkClass)
  }

  lemma ChangedReasons(steps: seq<Step>, k: nat, status: string, e: string, c: string)
    requires k < |steps|
    ensures Reason(AfterChange(steps, k, status), e, c) == Reason(steps, e, c) <==>
            e != steps[k].endpoint || c != steps[k].checkClass || NoMatter(steps, k, status)
  {
    var later := AfterChange(steps, k, status);
    assert OtherSteps(later, k) == OtherSteps(steps, k);
    ReachApart(steps, k, e, c);
    ReachApart(later, k, e, c);
    ReasonTellsReach(steps, later, e, c);
  }

  /** Between two passes the status of one step changes, and traffic may add endpoints. The rows of
   *  the first pass stay right exactly when no endpoint was added and the change made no
   *  difference. */
  lemma LateExecutionMakesStale(rows: seq<Row>, endpoints: seq<string>, classes: set<string>, steps: seq<Step>,
                                k: nat, status: string, added: seq<string>)
    requires Accounts(rows, endpoints, classes, steps) && k < |steps|
    requires steps[k].endpoint in endpoints && steps[k].checkClass in classes
    ensures Accounts(rows, endpoints + added, classes, AfterChange(steps, k, status)) <==>
            added == [] && NoMatter(steps, k, status)
  {
    var later := AfterChange(steps, k, status);
    RowsGoStale(rows, endpoints, classes, steps, added, later);
    forall e, c
      ensures Reason(later, e, c) == Reason(steps, e, c) <==>
              e != steps[k].endpoint || c != steps[k].checkClass || NoMatter(steps, k, status)
    {
      ChangedReasons(steps, k, status, e, c);
    }
  }

  /** A row the first pass wrote for an approved step says that it was not completed, after a late
   *  execution completed it. */
  lemma StaleByExecution(e: string, c: string)
    ensures var rows, steps := [Row(e, c, false, PLANNED_ONLY)], [Step(e, c, "approved")];
            Accounts(rows, [e], {c}, steps) && !Accounts(rows, [e], {c}, AfterChange(steps, 0, "done"))
  {
    var rows, steps := [Row(e, c, false, PLANNED_ONLY)], [Step(e, c, "approved")];
    assert steps[0] == Step(e, c, "approved") && rows[0].endpoint == e;
    assert HasRow(rows, e, c);
    LateExecutionMakesStale(rows, [e], {c}, steps, 0, "done", []);
    assert [e] + [] == [e];
  }

  /** It says that a step was planned, after a late execution skipped it. */
  lemma StaleBySkipping(e: string, c: string)
    ensures var rows, steps := [Row(e, c, false, PLANNED_ONLY)], [Step(e, c, "approved")];
            Accounts(rows, [e], {c}, steps) && !Accounts(rows, [e], {c}, AfterChange(steps, 0, "skipped"))
  {
    var rows, steps := [Row(e, c, false, PLANNED_ONLY)], [Step(e, c, "approved")];
    assert steps[0] == Step(e, c, "approved") && rows[0].endpoint == e;
    assert HasRow(rows, e, c);
    LateExecutionMakesStale(rows, [e], {c}, steps, 0, "skipped", []);
    assert [e] + [] == [e];
  }

  /** An endpoint added after the first pass has no row. */
  lemma StaleByTraffic(e: string, late: string, c: string)
    requires e != late
    ensures var rows, steps := [Row(e, c, true, "")], [Step(e, c, "done")];
            Accounts(rows, [e], {c}, steps) && !Accounts(rows, [e, late], {c}, steps)
  {
    var rows, steps := [Row(e, c, true, "")], [Step(e, c, "done")];
    assert steps[0] == Step(e, c, "done") && rows[0].endpoint == e;
    assert HasRow(rows, e, c);
    RowsGoStale(rows, [e], {c}, steps, [late], steps);
    assert [e] + [late] == [e, late];
  }

  // ---- The grade ------------------------------------------------------------------------------------

  /** The endpoints with a completed step, counted anew on every pass. */
  function TestedEndpoints(steps: seq<Step>): set<string> {
    set s | s in steps && s.status == "done" :: s.endpoint
  }

  datatype Risk = Risk(overall: real, grade: string, coverage: real, uncertainty: real, confirmed: nat, suspected: nat)

  function CountStatus(statuses: seq<string>, status: string): nat { multiset(statuses)[status] }

  function Ratio(tested: nat, total: nat): real { if total == 0 then 0.0 else tested as real / total as real }

  function Grade(overall: real, coverage: real, total: nat, confirmed: nat, suspected: nat): string {
    if total == 0 then "unknown"
    else if coverage < 0.5 then "insufficient-coverage"
    else if overall >= 75.0 then "critical"
    else if overall >= 50.0 then "at-risk"
    else if overall >= 25.0 then "needs-attention"
    else if confirmed == 0 && suspected == 0 then "no-confirmed-issues"
    else "low-risk"
  }

  /** Each grade by its bounds. */
  lemma GradeBands(overall: real, coverage: real, total: nat, confirmed: nat, suspected: nat)
    ensures var g, judged := Grade(overall, coverage, total, confirmed, suspected), total > 0 && coverage >= 0.5;
            (g == "unknown" <==> total == 0) &&
            (g == "insufficient-coverage" <==> total > 0 && coverage < 0.5) &&
            (g == "critical" <==> judged && 75.0 <= overall) &&
            (g == "at-risk" <==> judged && 50.0 <= overall < 75.0) &&
            (g == "needs-attention" <==> judged && 25.0 <= overall < 50.0) &&
            (g == "low-risk" <==> judged && overall < 25.0 && confirmed + suspected > 0) &&
            (g == "no-confirmed-issues" <==> judged && overall < 25.0 && confirmed == 0 && suspected == 0)
  {
    assert |"unknown"| == 7 && |"insufficient-coverage"| == 21 && |"critical"| == 8 && |"at-risk"| == 7 &&
           |"needs-attention"| == 15 && |"no-confirmed-issues"| == 19 && |"low-risk"| == 8;
    assert "critical"[0] == 'c' && "low-risk"[0] == 'l' && "unknown"[0] == 'u' && "at-risk"[0] == 'a';
  }

  /** How alarming a grade is. */
  function Alarm(grade: string): nat {
    if grade == "critical" then 4 else if grade == "at-risk" then 3 else if grade == "needs-attention" then 2
    else if grade == "low-risk" then 1 else 0
  }

  /** At the same coverage and with the same findings a higher score is never graded milder. */
  lemma HigherIsNotMilder(low: real, high: real, coverage: real, total: nat, confirmed: nat, suspected: nat)
    requires low <= high
    ensures Alarm(Grade(low, coverage, total, confirmed, suspected)) <= Alarm(Grade(high, coverage, total, confirmed, suspected))
  {
    GradeBands(low, coverage, total, confirmed, suspected);
    GradeBands(high, coverage, total, confirmed, suspected);
    assert "critical"[0] == 'c' && "low-risk"[0] == 'l' && "unknown"[0] == 'u' && "at-risk"[0] == 'a';
  }

  /** `round2` and `round3` round to two and three places. */
  function ScoreAssessment(scores: seq<real>, statuses: seq<string>, tested: nat, total: nat,
                           round2: real -> real, round3: real -> real): Risk
  {
    var coverage := Ratio(tested, total);
    var overall := if scores == [] then 0.0 else round2(Scoring.Overall(scores));
    var confirmed, suspected := CountStatus(statuses, "confirmed"), CountStatus(statuses, "suspected");
    Risk(overall, Grade(overall, coverage, total, confirmed, suspected), round3(coverage), round3(1.0 - coverage),
         confirmed, suspected)
  }

  /** The counts are those of the findings with these statuses, and coverage and its complement are of the
   *  endpoints tested. */
  lemma ScoreExactly(scores: seq<real>, statuses: seq<string>, tested: nat, total: nat, round2: real -> real, round3: real -> real)
    ensures var r := ScoreAssessment(scores, statuses, tested, total, round2, round3);
            r.confirmed == |set i | 0 <= i < |statuses| && statuses[i] == "confirmed"| &&
            r.suspected == |set i | 0 <= i < |statuses| && statuses[i] == "suspected"| &&
            (scores == [] ==> r.overall == 0.0) && (scores != [] ==> r.overall == round2(Scoring.Overall(scores))) &&
            (total > 0 ==> exists c: real :: c * total as real == tested as real && r.coverage == round3(c) && r.uncertainty == round3(1.0 - c)) &&
            (total == 0 ==> r.coverage == round3(0.0) && r.uncertainty == round3(1.0))
  {
    CountPositions(statuses, "confirmed");
    CountPositions(statuses, "suspected");
    if total > 0 {
      var c := tested as real / total as real;
      assert c * total as real == tested as real;
    }
  }

  lemma {:induction false} CountPositions(statuses: seq<string>, status: string)
    ensures CountStatus(statuses, status) == |set i | 0 <= i < |statuses| && statuses[i] == status|
    decreases |statuses|
  {
    var at := set i | 0 <= i < |statuses| && statuses[i] == status;
    if statuses != [] {
      var front, n := statuses[..|statuses| - 1], |statuses| - 1;
      var before := set i | 0 <= i < |front| && front[i] == status;
      CountPositions(front, status);
      assert statuses == front + [statuses[n]];
      assert at == before + if statuses[n] == status then {n} else {};
      assert n !in before;
    }
  }

  ghost predicate Monotone(f: real -> real) { forall x, y :: x <= y ==> f(x) <= f(y) }

  lemma {:induction false} DistinctCount(s: seq<string>)
    requires Distinct(s)
    ensures |set x | x in s| == |s|
    decreases |s|
  {
    if s != [] {
      var front, last := s[..|s| - 1], s[|s| - 1];
      DistinctCount(front);
      assert (set x | x in s) == (set x | x in front) + {last};
      assert last !in front;
    }
  }

  lemma {:induction false} SubsetCount(a: set<string>, b: set<string>)
    requires a <= b
    ensures |a| <= |b|
    decreases a
  {
    if a != {} {
      var x :| x in a;
      SubsetCount(a - {x}, b - {x});
    }
  }

  /** Steps refer to endpoints of the assessment, so tested endpoints are among them and coverage
   *  and uncertainty lie between 0 and 1. */
  lemma CoverageIsARatio(endpoints: seq<string>, steps: seq<Step>, scores: seq<real>, statuses: seq<string>,
                         round2: real -> real, round3: real -> real)
    requires Distinct(endpoints) && forall s :: s in steps ==> s.endpoint in endpoints
    requires Monotone(round3) && round3(0.0) == 0.0 && round3(1.0) == 1.0
    ensures |TestedEndpoints(steps)| <= |endpoints|
    ensures var r := ScoreAssessment(scores, statuses, |TestedEndpoints(steps)|, |endpoints|, round2, round3);
            0.0 <= r.coverage <= 1.0 && 0.0 <= r.uncertainty <= 1.0
  {
    DistinctCount(endpoints);
    SubsetCount(TestedEndpoints(steps), set e | e in endpoints);
    RatioRange(|TestedEndpoints(steps)|, |endpoints|);
  }

  lemma RatioRange(tested: nat, total: nat)
    requires tested <= total
    ensures 0.0 <= Ratio(tested, total) <= 1.0
  {
    if total != 0 {
      QuotientAtMostOne(tested as real, total as real);
    }
  }

  lemma QuotientAtMostOne(a: real, b: real)
    requires 0.0 <= a <= b && b > 0.0
    ensures 0.0 <= a / b <= 1.0
  {
    var q := a / b;
    assert a == q * b;
  }

  lemma RatioHalf(tested: nat, total: nat)
    requires total > 0
    ensures Ratio(tested, total) < 0.5 <==> 2 * tested < total
  {
    QuotientBelowHalf(tested as real, total as real);
    assert (2 * tested) as real == 2.0 * tested as real;
  }

  lemma QuotientBelowHalf(a: real, b: real)
    requires b > 0.0
    ensures a / b < 0.5 <==> 2.0 * a < b
  {
    var q := a / b;
    assert a == q * b;
  }

  /** A grade that says something about risk is given exactly when there are endpoints and at
   *  least half of them have a completed step. */
  lemma GradesNeedCoverage(endpoints: seq<string>, steps: seq<Step>, scores: seq<real>, statuses: seq<string>,
                           round2: real -> real, round3: real -> real)
    ensures var tested := TestedEndpoints(steps);
            var r := ScoreAssessment(scores, statuses, |tested|, |endpoints|, round2, round3);
            r.grade !in {"unknown", "insufficient-coverage"} <==> endpoints != [] && 2 * |tested| >= |endpoints|
  {
    if endpoints != [] {
      RatioHalf(|TestedEndpoints(steps)|, |endpoints|);
    }
  }

  /** Right after the first pass the rows agree with the count: an endpoint has a tested row
   *  exactly when it is counted as tested, provided every completed step has a listed class. */
  lemma RowsAgreeWithCount(rows: seq<Row>, endpoints: seq<string>, classes: set<string>, steps: seq<Step>, e: string)
    requires Accounts(rows, endpoints, classes, steps) && e in endpoints
    requires forall s :: s in steps && s.status == "done" ==> s.checkClass in classes
    ensures (exists i :: 0 <= i < |rows| && rows[i].endpoint == e && rows[i].tested) <==> e in TestedEndpoints(steps)
  {
    if e in TestedEndpoints(steps) {
      var s :| s in steps && s.status == "done" && s.endpoint == e;
      assert HasRow(rows, e, s.checkClass);
    }
  }
}
