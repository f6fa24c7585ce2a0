/** The check / await / add pattern behind both budgets of a run: the request budget of the
 *  scope guard (check_budget, await the limiter, note_requests) and the token ledger of the
 *  brains (exceeded, await the provider, record).
 *
 *  Any number of callers share one counter. A caller is admitted by a check, may then be
 *  suspended for as long as it likes, and finally adds what it used.
 */
module Budgets {
  import opened Prelude

  /** `limit == 0` means no limit. `admitted` are the callers past the check. */
  datatype Meter = Meter(limit: int, used: int, admitted: set<nat>)

  datatype Action =
    | Check(caller: nat)               // the budget test, and suspension if it passes
    | Spend(caller: nat, amount: nat)  // resumed: the counter is increased
    | Abort(caller: nat)               // resumed by an exception: nothing is added

  predicate WithinBudget(m: Meter) {
    m.limit == 0 || m.used + 1 <= m.limit
  }

  /** One atomic step of k callers that each add at most `cost`; other actions do nothing. */
  function Act(m: Meter, a: Action, k: nat, cost: nat): Meter {
    match a
    case Check(i) =>
      if i < k && i !in m.admitted && WithinBudget(m) then m.(admitted := m.admitted + {i}) else m
    case Spend(i, amount) =>
      if i in m.admitted && amount <= cost
      then m.(used := m.used + amount, admitted := m.admitted - {i}) else m
    case Abort(i) => m.(admitted := m.admitted - {i})
  }

  function Run(m: Meter, actions: seq<Action>, k: nat, cost: nat): Meter
    decreases |actions|
  {
    if actions == [] then m else Run(Act(m, actions[0], k, cost), actions[1..], k, cost)
  }

  function Ceiling(m: Meter, k: nat, cost: nat): int {
    MaxInt(m.used, m.limit - 1 + k * cost)
  }

  /** Admitted callers are already paid for. */
  ghost predicate Funded(m: Meter, ceiling: int, k: nat, cost: nat) {
    (forall i :: i in m.admitted ==> i < k) &&
    m.used + |m.admitted| * cost <= ceiling
  }

  lemma AtMostK(s: set<nat>, k: nat)
    requires forall i :: i in s ==> i < k
    ensures |s| <= k
    decreases k
  {
    if k > 0 {
      AtMostK(s - {k - 1}, k - 1);
      if k - 1 in s {
        assert |s - {k - 1}| == |s| - 1;
      } else {
        assert s - {k - 1} == s;
      }
    } else {
      assert s == {};
    }
  }

  lemma TimesGrows(a: nat, b: nat, cost: nat)
    requires a <= b
    ensures a * cost <= b * cost
  {
  }

  lemma CheckStaysFunded(m: Meter, i: nat, ceiling: int, k: nat, cost: nat)
    requires m.limit != 0 && Funded(m, ceiling, k, cost) && WithinBudget(m) && i < k
    requires m.limit - 1 + k * cost <= ceiling
    ensures Funded(m.(admitted := m.admitted + {i}), ceiling, k, cost)
  {
    var admitted := m.admitted + {i};
    AtMostK(admitted, k);
    TimesGrows(|admitted|, k, cost);
  }

  /** Whoever leaves gives back the cost that was reserved, and adds no more than that. */
  lemma LeavingStaysFunded(m: Meter, i: nat, amount: nat, ceiling: int, k: nat, cost: nat)
    requires Funded(m, ceiling, k, cost) && i in m.admitted && amount <= cost
    ensures Funded(m.(used := m.used + amount, admitted := m.admitted - {i}), ceiling, k, cost)
  {
    assert |m.admitted - {i}| == |m.admitted| - 1;
  }

  lemma StepStaysFunded(m: Meter, a: Action, ceiling: int, k: nat, cost: nat)
    requires m.limit != 0 && Funded(m, ceiling, k, cost)
    requires m.limit - 1 + k * cost <= ceiling
    ensures Funded(Act(m, a, k, cost), ceiling, k, cost)
  {
    var m' := Act(m, a, k, cost);
    match a
    case Check(i) =>
      if m' != m {
        CheckStaysFunded(m, i, ceiling, k, cost);
      }
    case Spend(i, amount) =>
      if i in m.admitted && amount <= cost {
        LeavingStaysFunded(m, i, amount, ceiling, k, cost);
      }
    case Abort(i) =>
      if i in m.admitted {
        LeavingStaysFunded(m, i, 0, ceiling, k, cost);
      } else {
        assert m'.admitted == m.admitted;
      }
  }

  lemma {:induction false} RunStaysFunded(m: Meter, actions: seq<Action>, ceiling: int, k: nat, cost: nat)
    requires m.limit != 0 && Funded(m, ceiling, k, cost)
    requires m.limit - 1 + k * cost <= ceiling
    ensures Funded(Run(m, actions, k, cost), ceiling, k, cost)
    decreases |actions|
  {
    if actions != [] {
      StepStaysFunded(m, actions[0], ceiling, k, cost);
      RunStaysFunded(Act(m, actions[0], k, cost), actions[1..], ceiling, k, cost);
    }
  }

  /** Overshoot: in every interleaving of k callers the counter stays within the limit plus
   *  what the callers admitted on the last free unit may add. */
  lemma OvershootBound(m: Meter, actions: seq<Action>, k: nat, cost: nat)
    requires m.limit != 0 && m.admitted == {}
    ensures Run(m, actions, k, cost).used <= Ceiling(m, k, cost)
  {
    RunStaysFunded(m, actions, Ceiling(m, k, cost), k, cost);
    var m' := Run(m, actions, k, cost);
    assert |m'.admitted| * cost >= 0;
  }

  /** The request budget: one request costs one, redirect hops included. Alone a caller never
   *  passes the limit; k callers pass it by at most k - 1. */
  lemma RequestBudget(made: int, limit: int, actions: seq<Action>, k: nat)
    requires limit != 0 && k >= 1 && made <= limit
    ensures Run(Meter(limit, made, {}), actions, k, 1).used <= limit + k - 1
    ensures k == 1 ==> Run(Meter(limit, made, {}), actions, k, 1).used <= limit
  {
    OvershootBound(Meter(limit, made, {}), actions, k, 1);
  }

  // ---- The bound is reached, and without a limit there is none ----------------------------

  lemma {:induction false} RunAppend(m: Meter, a: seq<Action>, b: seq<Action>, k: nat, cost: nat)
    ensures Run(m, a + b, k, cost) == Run(Run(m, a, k, cost), b, k, cost)
    decreases |a|
  {
    if a == [] {
      assert a + b == b;
    } else {
      assert (a + b)[0] == a[0] && (a + b)[1..] == a[1..] + b;
      RunAppend(Act(m, a[0], k, cost), a[1..], b, k, cost);
    }
  }

  function CallersBelow(k: nat): (s: set<nat>)
    ensures forall i: nat :: i in s <==> i < k
  {
    if k == 0 then {} else CallersBelow(k - 1) + {k - 1}
  }

  function CheckAll(k: nat): seq<Action> {
    if k == 0 then [] else CheckAll(k - 1) + [Check(k - 1)]
  }

  function SpendAll(k: nat, cost: nat): seq<Action> {
    if k == 0 then [] else [Spend(k - 1, cost)] + SpendAll(k - 1, cost)
  }

  lemma {:induction false} AllAdmitted(m: Meter, n: nat, k: nat, cost: nat)
    requires WithinBudget(m) && m.admitted == {} && n <= k
    ensures Run(m, CheckAll(n), k, cost) == m.(admitted := CallersBelow(n))
  {
    if n == 0 {
      assert CallersBelow(0) == {};
    } else {
      AllAdmitted(m, n - 1, k, cost);
      RunAppend(m, CheckAll(n - 1), [Check(n - 1)], k, cost);
      var mid := m.(admitted := CallersBelow(n - 1));
      assert CallersBelow(n) == CallersBelow(n - 1) + {n - 1};
      assert Run(mid, [Check(n - 1)], k, cost) == Act(mid, Check(n - 1), k, cost);
    }
  }

  lemma {:induction false} AllSpent(m: Meter, n: nat, k: nat, cost: nat)
    requires m.admitted == CallersBelow(n)
    ensures Run(m, SpendAll(n, cost), k, cost) == m.(used := m.used + n * cost, admitted := {})
    decreases n
  {
    if n == 0 {
      assert m.admitted == {};
    } else {
      assert CallersBelow(n) - {n - 1} == CallersBelow(n - 1);
      var next := Act(m, Spend(n - 1, cost), k, cost);
      assert next == m.(used := m.used + cost, admitted := CallersBelow(n - 1));
      assert SpendAll(n, cost)[1..] == SpendAll(n - 1, cost);
      AllSpent(next, n - 1, k, cost);
      assert cost + (n - 1) * cost == n * cost;
    }
  }

  /** k callers that all check while one unit is left reach the bound exactly. */
  lemma OvershootReached(limit: int, k: nat, cost: nat)
    requires limit >= 1
    ensures var m := Meter(limit, limit - 1, {});
            Run(m, CheckAll(k) + SpendAll(k, cost), k, cost).used == limit - 1 + k * cost
  {
    var m := Meter(limit, limit - 1, {});
    AllAdmitted(m, k, k, cost);
    RunAppend(m, CheckAll(k), SpendAll(k, cost), k, cost);
    AllSpent(m.(admitted := CallersBelow(k)), k, k, cost);
  }

  /** A zero limit is no limit: a single caller exceeds any number. */
  lemma ZeroLimitIsUnbounded(used: int, n: nat)
    ensures exists actions :: Run(Meter(0, used, {}), actions, 1, 1).used >= used + n
  {
    var actions := OneByOne(0, used, n);
  }

  /** One caller sends n requests. */
  lemma {:induction false} OneByOne(limit: int, used: int, n: nat) returns (actions: seq<Action>)
    requires limit == 0 || used + n <= limit
    ensures Run(Meter(limit, used, {}), actions, 1, 1).used == used + n
    decreases n
  {
    if n == 0 {
      actions := [];
    } else {
      var rest := OneByOne(limit, used + 1, n - 1);
      actions := [Check(0), Spend(0, 1)] + rest;
      RunAppend(Meter(limit, used, {}), [Check(0), Spend(0, 1)], rest, 1, 1);
      var m1 := Act(Meter(limit, used, {}), Check(0), 1, 1);
      assert Act(m1, Spend(0, 1), 1, 1) == Meter(limit, used + 1, {});
      assert Run(m1, [Spend(0, 1)], 1, 1) == Act(m1, Spend(0, 1), 1, 1);
      assert [Check(0), Spend(0, 1)][1..] == [Spend(0, 1)];
    }
  }

  // ---- The guards of one assessment ---------------------------------------------------------------

  /** A guard takes over the count that is stored when it is made, and counts on by itself. */
  datatype Guard = Guard(start: nat, actions: seq<Action>, callers: nat) {
    function Final(limit: int): int { Run(Meter(limit, start, {}), actions, callers, 1).used }

    function Sent(limit: int): int { Final(limit) - start }

    function MostSent(limit: int): int { MaxInt(0, limit + callers - 1 - start) }
  }

  function SentByAll(limit: int, guards: seq<Guard>): int {
    if guards == [] then 0 else SentByAll(limit, guards[..|guards| - 1]) + guards[|guards| - 1].Sent(limit)
  }

  function MostSentByAll(limit: int, guards: seq<Guard>): int {
    if guards == [] then 0 else MostSentByAll(limit, guards[..|guards| - 1]) + guards[|guards| - 1].MostSent(limit)
  }

  /** The requests of an assessment, whatever counts its guards started from. */
  lemma {:induction false} AllGuardsBudget(limit: int, guards: seq<Guard>)
    requires limit != 0
    ensures SentByAll(limit, guards) <= MostSentByAll(limit, guards)
    decreases |guards|
  {
    if guards != [] {
      var last := guards[|guards| - 1];
      AllGuardsBudget(limit, guards[..|guards| - 1]);
      OvershootBound(Meter(limit, last.start, {}), last.actions, last.callers, 1);
    }
  }

  /** Every guard starts from what the one before it had counted, at least. */
  ghost predicate Handed(limit: int, guards: seq<Guard>) {
    forall i :: 0 < i < |guards| ==> guards[i - 1].Final(limit) <= guards[i].start
  }

  lemma {:induction false} SentIsCounted(limit: int, guards: seq<Guard>)
    requires guards != [] && Handed(limit, guards)
    ensures SentByAll(limit, guards) <= guards[|guards| - 1].Final(limit) - guards[0].start
    decreases |guards|
  {
    if |guards| == 1 {
      assert guards[..0] == [];
    } else {
      SentIsCounted(limit, guards[..|guards| - 1]);
    }
  }

  /** When every count is handed on, the guards of an assessment keep to one budget together. */
  lemma HandedCountsShareABudget(limit: int, guards: seq<Guard>)
    requires limit != 0 && guards != [] && Handed(limit, guards)
    ensures var last := guards[|guards| - 1];
            SentByAll(limit, guards) <= MaxInt(last.start, limit + last.callers - 1) - guards[0].start
  {
    var last := guards[|guards| - 1];
    SentIsCounted(limit, guards);
    OvershootBound(Meter(limit, last.start, {}), last.actions, last.callers, 1);
  }

  lemma OneMoreGuard(limit: int, guards: seq<Guard>, last: Guard)
    ensures SentByAll(limit, guards + [last]) == SentByAll(limit, guards) + last.Sent(limit)
    ensures MostSentByAll(limit, guards + [last]) == MostSentByAll(limit, guards) + last.MostSent(limit)
  {
    assert (guards + [last])[..|guards|] == guards;
  }

  /** When it is not, every guard may spend the budget anew: n guards that start from nothing send n
   *  times the limit. */
  lemma {:induction false} LostCountsSpendAgain(limit: nat, n: nat) returns (guards: seq<Guard>)
    requires limit > 0
    ensures |guards| == n && forall i :: 0 <= i < n ==> guards[i].start == 0 && guards[i].callers == 1
    ensures SentByAll(limit, guards) == n * limit == MostSentByAll(limit, guards)
    decreases n
  {
    guards := [];
    if n > 0 {
      var front := LostCountsSpendAgain(limit, n - 1);
      var actions := OneByOne(limit, 0, limit);
      guards := front + [Guard(0, actions, 1)];
      OneMoreGuard(limit, front, Guard(0, actions, 1));
      assert n * limit == (n - 1) * limit + limit;
    }
  }

  // ---- The ledger of one assessment's brains ----------------------------------------------

  /** A ceiling of zero is none. */
  datatype Ceilings = Ceilings(maxTokens: int, maxCost: real, perThousand: real)

  function CostOf(tokens: int, perThousand: real): real { tokens as real / 1000.0 * perThousand }

  /** Either ceiling is reached. */
  predicate Spent(c: Ceilings, tokens: int) {
    (c.maxTokens != 0 && tokens >= c.maxTokens) ||
    (c.maxCost != 0.0 && CostOf(tokens, c.perThousand) >= c.maxCost)
  }

  class LlmBudget {
    const ceilings: Ceilings
    var inputTokens: int
    var outputTokens: int
    var llmCalls: int

    constructor (ceilings: Ceilings)
      ensures this.ceilings == ceilings
      ensures inputTokens == outputTokens == llmCalls == 0
    {
      this.ceilings := ceilings;
      inputTokens, outputTokens, llmCalls := 0, 0, 0;
    }

    function TotalTokens(): int
      reads this
    {
      inputTokens + outputTokens
    }

    predicate Exceeded()
      reads this
    {
      Spent(ceilings, TotalTokens())
    }

    /** A provider that reports a negative count adds nothing. Once exceeded, the ledger stays
     *  exceeded, whatever is recorded. */
    method Record(input: int, output: int)
      modifies this
      ensures inputTokens == old(inputTokens) + MaxInt(0, input)
      ensures outputTokens == old(outputTokens) + MaxInt(0, output)
      ensures llmCalls == old(llmCalls) + 1
      ensures ceilings.perThousand >= 0.0 && old(Exceeded()) ==> Exceeded()
    {
      ghost var before := TotalTokens();
      inputTokens := inputTokens + MaxInt(0, input);
      outputTokens := outputTokens + MaxInt(0, output);
      llmCalls := llmCalls + 1;
      if ceilings.perThousand >= 0.0 {
        CostGrows(before, TotalTokens(), ceilings.perThousand);
      }
    }
  }

  lemma CostGrows(before: int, after: int, perThousand: real)
    requires before <= after && perThousand >= 0.0
    ensures CostOf(before, perThousand) <= CostOf(after, perThousand)
  {
    assert (after as real / 1000.0 - before as real / 1000.0) * perThousand >= 0.0;
  }

  // ---- Concurrent calls on one ledger ------------------------------------------------------

  /** Recorded tokens and the calls under way. */
  datatype Calls = Calls(tokens: int, inFlight: set<nat>)

  /** A call starts while no ceiling is reached, and records when its reply was read. A call that
   *  fails, or whose reply cannot be parsed, ends without recording. */
  function Serve(c: Ceilings, m: Calls, a: Action, k: nat, most: nat): Calls {
    match a
    case Check(i) =>
      if i < k && i !in m.inFlight && !Spent(c, m.tokens) then m.(inFlight := m.inFlight + {i}) else m
    case Spend(i, amount) =>
      if i in m.inFlight && amount <= most
      then m.(tokens := m.tokens + amount, inFlight := m.inFlight - {i}) else m
    case Abort(i) => m.(inFlight := m.inFlight - {i})
  }

  function ServeAll(c: Ceilings, m: Calls, actions: seq<Action>, k: nat, most: nat): Calls
    decreases |actions|
  {
    if actions == [] then m else ServeAll(c, Serve(c, m, actions[0], k, most), actions[1..], k, most)
  }

  /** The ledger as a meter of its token ceiling. */
  function AsMeter(c: Ceilings, m: Calls): Meter { Meter(c.maxTokens, m.tokens, m.inFlight) }

  /** A call that the ledger lets through the meter lets through, whatever the cost ceiling, and
   *  without one they agree. */
  lemma UnspentIsWithinBudget(c: Ceilings, m: Calls)
    ensures !Spent(c, m.tokens) ==> WithinBudget(AsMeter(c, m))
    ensures c.maxCost == 0.0 ==> (!Spent(c, m.tokens) <==> WithinBudget(AsMeter(c, m)))
  {
  }

  /** Every run of the ledger is a run of the meter in which some checks do not happen. */
  lemma {:induction false} LedgerIsAMeter(c: Ceilings, m: Calls, actions: seq<Action>, k: nat, most: nat)
    returns (metered: seq<Action>)
    requires forall i :: i in m.inFlight ==> i < k
    ensures Run(AsMeter(c, m), metered, k, most) == AsMeter(c, ServeAll(c, m, actions, k, most))
    decreases |actions|
  {
    metered := [];
    if actions != [] {
      var next := Serve(c, m, actions[0], k, most);
      UnspentIsWithinBudget(c, m);
      var rest := LedgerIsAMeter(c, next, actions[1..], k, most);
      if next == m {
        metered := rest;
      } else {
        metered := [actions[0]] + rest;
        assert metered[0] == actions[0] && metered[1..] == rest;
      }
    }
  }

  /** Without a cost ceiling the ledger is the meter of its token ceiling, step by step, so that the bound
   *  on tokens is reached like that of the meter. */
  lemma {:induction false} LedgerIsTheMeter(c: Ceilings, m: Calls, actions: seq<Action>, k: nat, most: nat)
    requires c.maxCost == 0.0
    ensures AsMeter(c, ServeAll(c, m, actions, k, most)) == Run(AsMeter(c, m), actions, k, most)
    decreases |actions|
  {
    if actions != [] {
      UnspentIsWithinBudget(c, m);
      LedgerIsTheMeter(c, Serve(c, m, actions[0], k, most), actions[1..], k, most);
    }
  }

  lemma TokenBudgetReached(maxTokens: int, perThousand: real, k: nat, most: nat)
    requires maxTokens >= 1
    ensures ServeAll(Ceilings(maxTokens, 0.0, perThousand), Calls(maxTokens - 1, {}), CheckAll(k) + SpendAll(k, most), k, most).tokens
            == maxTokens - 1 + k * most
  {
    LedgerIsTheMeter(Ceilings(maxTokens, 0.0, perThousand), Calls(maxTokens - 1, {}), CheckAll(k) + SpendAll(k, most), k, most);
    OvershootReached(maxTokens, k, most);
  }

  /** Recorded tokens, for at most k concurrent calls of at most `most` tokens each and any cost
   *  ceiling. */
  lemma TokenBudget(c: Ceilings, actions: seq<Action>, k: nat, most: nat)
    requires c.maxTokens > 0
    ensures ServeAll(c, Calls(0, {}), actions, k, most).tokens <= c.maxTokens - 1 + k * most
  {
    var metered := LedgerIsAMeter(c, Calls(0, {}), actions, k, most);
    OvershootBound(Meter(c.maxTokens, 0, {}), metered, k, most);
    assert k * most >= 0;
  }

  /** The cost of what is recorded, with the calls under way at their dearest. */
  ghost predicate Affordable(c: Ceilings, m: Calls, k: nat, each: real) {
    (forall i :: i in m.inFlight ==> i < k) &&
    CostOf(m.tokens, c.perThousand) + |m.inFlight| as real * each < c.maxCost + k as real * each
  }

  lemma CostAdds(a: int, b: int, perThousand: real)
    ensures CostOf(a + b, perThousand) == CostOf(a, perThousand) + CostOf(b, perThousand)
  {
    assert (a + b) as real / 1000.0 == a as real / 1000.0 + b as real / 1000.0;
  }

  /** A thousand tokens cost the given rate, none cost nothing, and costs add up. */
  lemma CostExactly(a: int, b: int, perThousand: real)
    ensures CostOf(1000, perThousand) == perThousand && CostOf(0, perThousand) == 0.0
    ensures CostOf(a + b, perThousand) == CostOf(a, perThousand) + CostOf(b, perThousand)
  {
    CostAdds(a, b, perThousand);
  }

  lemma RealTimesGrows(a: nat, b: nat, each: real)
    requires a <= b && each >= 0.0
    ensures a as real * each <= b as real * each
  {
  }

  lemma OneLess(a: nat, each: real)
    requires a >= 1
    ensures (a - 1) as real * each == a as real * each - each
  {
  }

  lemma StartFits(inFlight: set<nat>, k: nat, each: real, cost: real, ceiling: real)
    requires (forall i :: i in inFlight ==> i < k) && each >= 0.0 && cost < ceiling
    ensures cost + |inFlight| as real * each < ceiling + k as real * each
  {
    AtMostK(inFlight, k);
    RealTimesGrows(|inFlight|, k, each);
  }

  lemma StartStaysAffordable(c: Ceilings, m: Calls, i: nat, k: nat, each: real)
    requires c.maxCost != 0.0 && each >= 0.0 && Affordable(c, m, k, each)
    requires i < k && !Spent(c, m.tokens)
    ensures Affordable(c, m.(inFlight := m.inFlight + {i}), k, each)
  {
    StartFits(m.inFlight + {i}, k, each, CostOf(m.tokens, c.perThousand), c.maxCost);
  }

  lemma StaysBelow(spent: real, cost: real, reserved: real, rest: real, each: real, bound: real)
    requires spent + reserved < bound && cost <= each && rest == reserved - each
    ensures spent + cost + rest < bound
  {
  }

  /** Whoever leaves costs at most what was set aside for it. */
  lemma EndStaysAffordable(c: Ceilings, m: Calls, i: nat, amount: nat, k: nat, each: real)
    requires CostOf(amount, c.perThousand) <= each && Affordable(c, m, k, each) && i in m.inFlight
    ensures Affordable(c, m.(tokens := m.tokens + amount, inFlight := m.inFlight - {i}), k, each)
  {
    var inFlight := m.inFlight - {i};
    assert |inFlight| == |m.inFlight| - 1;
    OneLess(|m.inFlight|, each);
    CostAdds(m.tokens, amount, c.perThousand);
    StaysBelow(CostOf(m.tokens, c.perThousand), CostOf(amount, c.perThousand), |m.inFlight| as real * each,
              |inFlight| as real * each, each, c.maxCost + k as real * each);
  }

  lemma ServeStaysAffordable(c: Ceilings, m: Calls, a: Action, k: nat, most: nat)
    requires c.maxCost != 0.0 && c.perThousand >= 0.0 && Affordable(c, m, k, CostOf(most, c.perThousand))
    ensures Affordable(c, Serve(c, m, a, k, most), k, CostOf(most, c.perThousand))
  {
    var each := CostOf(most, c.perThousand);
    CostGrows(0, most, c.perThousand);
    match a
    case Check(i) =>
      if i < k && i !in m.inFlight && !Spent(c, m.tokens) {
        StartStaysAffordable(c, m, i, k, each);
      }
    case Spend(i, amount) =>
      if i in m.inFlight && amount <= most {
        CostGrows(amount, most, c.perThousand);
        EndStaysAffordable(c, m, i, amount, k, each);
      }
    case Abort(i) =>
      if i in m.inFlight {
        EndStaysAffordable(c, m, i, 0, k, each);
        assert m.tokens + 0 == m.tokens;
      } else {
        assert m.inFlight - {i} == m.inFlight;
      }
  }

  lemma {:induction false} CallsStayAffordable(c: Ceilings, m: Calls, actions: seq<Action>, k: nat, most: nat)
    requires c.maxCost != 0.0 && c.perThousand >= 0.0 && Affordable(c, m, k, CostOf(most, c.perThousand))
    ensures Affordable(c, ServeAll(c, m, actions, k, most), k, CostOf(most, c.perThousand))
    decreases |actions|
  {
    if actions != [] {
      ServeStaysAffordable(c, m, actions[0], k, most);
      CallsStayAffordable(c, Serve(c, m, actions[0], k, most), actions[1..], k, most);
    }
  }

  /** The cost recorded stays below the ceiling plus k of the dearest calls, whatever the token
   *  ceiling. */
  lemma CostBudget(c: Ceilings, actions: seq<Action>, k: nat, most: nat)
    requires c.maxCost > 0.0 && c.perThousand >= 0.0
    ensures CostOf(ServeAll(c, Calls(0, {}), actions, k, most).tokens, c.perThousand) <
            c.maxCost + k as real * CostOf(most, c.perThousand)
  {
    var each, end := CostOf(most, c.perThousand), ServeAll(c, Calls(0, {}), actions, k, most);
    CostGrows(0, most, c.perThousand);
    assert CostOf(0, c.perThousand) == 0.0;
    RealTimesGrows(0, k, each);
    CallsStayAffordable(c, Calls(0, {}), actions, k, most);
    RealTimesGrows(0, |end.inFlight|, each);
  }
}
