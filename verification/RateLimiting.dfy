/** The async token bucket of the guarded HTTP client.
 *
 *  Time is a parameter. One call of Acquire runs under the limiter's lock, so the calls of
 *  one limiter are totally ordered; each sees the clock twice: `now` once the lock is held,
 *  and `woken` when the sleep (if any) is over.
 */
module RateLimiting {
  import opened Prelude

  datatype Bucket = Bucket(rate: real, capacity: real, tokens: real, updated: real)

  /** The two clock readings of one Acquire call. */
  datatype Visit = Visit(now: real, woken: real)

  function Fresh(ratePerSec: real, burst: Option<real>, now: real): Bucket {
    var rate := MaxReal(ratePerSec, 0.1);
    var capacity := if burst.Some? then burst.value else MaxReal(rate, 1.0);
    Bucket(rate, capacity, capacity, now)
  }

  /** Tokens earned in the elapsed time. */
  function Earned(elapsed: real, rate: real): (r: real)
    ensures elapsed == 0.0 ==> r == 0.0
  {
    if elapsed == 0.0 then 0.0 else elapsed * rate
  }

  function Refill(b: Bucket, now: real): real {
    MinReal(b.capacity, b.tokens + Earned(now - b.updated, b.rate))
  }

  /** How long the call sleeps while holding the lock. */
  function Wait(b: Bucket, now: real): real
    requires b.rate > 0.0
  {
    if Refill(b, now) < 1.0 then (1.0 - Refill(b, now)) / b.rate else 0.0
  }

  /** The clock is monotonic and a sleep lasts at least as long as asked. */
  predicate Timely(b: Bucket, v: Visit)
    requires b.rate > 0.0
  {
    b.updated <= v.now && v.now + Wait(b, v.now) <= v.woken
  }

  /** One grant. The grant happens at the `updated` time of the result. */
  function Grant(b: Bucket, v: Visit): (b': Bucket)
    requires b.rate > 0.0
  {
    if Refill(b, v.now) < 1.0
    then b.(tokens := 0.0, updated := v.woken)
    else b.(tokens := Refill(b, v.now) - 1.0, updated := v.now)
  }

  predicate TimelyRun(b: Bucket, visits: seq<Visit>)
    requires b.rate > 0.0
    decreases |visits|
  {
    visits == [] || (Timely(b, visits[0]) && TimelyRun(Grant(b, visits[0]), visits[1..]))
  }

  /** The bucket after each grant of a run, in order. */
  function Grants(b: Bucket, visits: seq<Visit>): (s: seq<Bucket>)
    requires b.rate > 0.0
    ensures |s| == |visits|
    ensures forall k :: 0 <= k < |s| ==> s[k].rate == b.rate && s[k].capacity == b.capacity
    decreases |visits|
  {
    if visits == [] then [] else [Grant(b, visits[0])] + Grants(Grant(b, visits[0]), visits[1..])
  }

  lemma MulSplit(rate: real, t0: real, t1: real, t2: real)
    ensures rate * (t2 - t0) == rate * (t1 - t0) + rate * (t2 - t1)
  {
  }

  lemma MulMonotone(rate: real, x: real, y: real)
    requires rate >= 0.0 && x <= y
    ensures rate * x <= rate * y
  {
    assert rate * (y - x) >= 0.0;
  }

  lemma DivMonotone(rate: real, x: real, y: real)
    requires rate > 0.0 && x < y
    ensures x / rate < y / rate
  {
  }

  /** Going from b to b' the limiter granted n times; time or the balance paid for each. */
  ghost predicate Paid(rate: real, b: Bucket, b': Bucket, n: nat) {
    b.updated <= b'.updated &&
    b'.tokens <= b.tokens + rate * (b'.updated - b.updated) - n as real
  }

  /** Every grant costs a token that time or the previous balance paid for. */
  lemma GrantPays(b: Bucket, v: Visit)
    requires b.rate > 0.0 && Timely(b, v)
    ensures Paid(b.rate, b, Grant(b, v), 1)
    ensures 0.0 <= Grant(b, v).tokens <= MaxReal(b.capacity, 1.0) - 1.0
  {
    Commutes(b.rate, v.now - b.updated);
    if Refill(b, v.now) < 1.0 {
      SleepPays(b.rate, b.updated, v.now, v.woken, Refill(b, v.now));
    }
  }

  lemma Commutes(x: real, y: real)
    ensures x * y == y * x
  {
  }

  lemma MulDiv(x: real, rate: real)
    requires rate > 0.0
    ensures rate * (x / rate) == x
  {
  }

  /** Sleeping until one token is there pays for it. */
  lemma SleepPays(rate: real, updated: real, now: real, woken: real, have: real)
    requires rate > 0.0 && updated <= now && have < 1.0
    requires now + (1.0 - have) / rate <= woken
    ensures now <= woken && have + rate * (woken - now) >= 1.0
    ensures rate * (woken - updated) == rate * (now - updated) + rate * (woken - now)
  {
    var wait := (1.0 - have) / rate;
    DivMonotone(rate, 0.0, 1.0 - have);
    MulDiv(1.0 - have, rate);
    MulMonotone(rate, wait, woken - now);
    MulSplit(rate, updated, now, woken);
  }

  lemma PaidTransitive(rate: real, b: Bucket, b': Bucket, b'': Bucket, n: nat, m: nat)
    requires Paid(rate, b, b', n) && Paid(rate, b', b'', m)
    ensures Paid(rate, b, b'', n + m)
  {
    MulSplit(rate, b.updated, b'.updated, b''.updated);
  }

  lemma {:induction false} ChainPays(rate: real, s: seq<Bucket>, i: nat, j: nat)
    requires forall k :: 0 <= k < |s| - 1 ==> Paid(rate, s[k], s[k + 1], 1)
    requires i <= j < |s|
    ensures Paid(rate, s[i], s[j], j - i)
    decreases j - i
  {
    if i < j {
      ChainPays(rate, s, i, j - 1);
      assert Paid(rate, s[j - 1], s[j - 1 + 1], 1);
      PaidTransitive(rate, s[i], s[j - 1], s[j], j - 1 - i, 1);
    } else {
      assert rate * (s[i].updated - s[i].updated) == 0.0;
    }
  }

  /** Consecutive grants of a run are one timely step apart. */
  lemma {:induction false} GrantsAreSteps(b: Bucket, visits: seq<Visit>, k: nat)
    requires b.rate > 0.0 && TimelyRun(b, visits)
    requires k < |visits|
    ensures var before := if k == 0 then b else Grants(b, visits)[k - 1];
            before.rate == b.rate && before.capacity == b.capacity &&
            Timely(before, visits[k]) && Grants(b, visits)[k] == Grant(before, visits[k])
    decreases k
  {
    if k > 0 {
      GrantsAreSteps(Grant(b, visits[0]), visits[1..], k - 1);
      assert visits[1..][k - 1] == visits[k];
    }
  }

  /** Tokens spent between grants i and j are covered by the time between them. */
  lemma RunPays(b: Bucket, visits: seq<Visit>, i: nat, j: nat)
    requires b.rate > 0.0 && TimelyRun(b, visits)
    requires i <= j < |visits|
    ensures Paid(b.rate, Grants(b, visits)[i], Grants(b, visits)[j], j - i)
    ensures 0.0 <= Grants(b, visits)[j].tokens
    ensures Grants(b, visits)[i].tokens <= MaxReal(b.capacity, 1.0) - 1.0
  {
    var s := Grants(b, visits);
    forall k | 0 <= k < |s| - 1
      ensures Paid(b.rate, s[k], s[k + 1], 1)
    {
      GrantsAreSteps(b, visits, k + 1);
      GrantPays(s[k], visits[k + 1]);
    }
    ChainPays(b.rate, s, i, j);
    GrantsAreSteps(b, visits, i);
    GrantPays(if i == 0 then b else s[i - 1], visits[i]);
    GrantsAreSteps(b, visits, j);
    GrantPays(if j == 0 then b else s[j - 1], visits[j]);
  }

  /** n grants fit in the time from b to b': the burst plus that time at the given rate. */
  ghost predicate FitsWindow(rate: real, burst: real, b: Bucket, b': Bucket, n: nat) {
    n as real <= burst + rate * (b'.updated - b.updated)
  }

  lemma PaidFitsWindow(rate: real, b: Bucket, b': Bucket, n: nat, burst: real)
    requires Paid(rate, b, b', n) && 0.0 <= b'.tokens && b.tokens <= burst - 1.0
    ensures FitsWindow(rate, burst, b, b', n + 1)
  {
  }

  /** Window bound: the number of grants in any window is at most the burst plus the time
   *  in it at the configured rate, for every capacity (also one below a single token). */
  lemma WindowBound(b: Bucket, visits: seq<Visit>, i: nat, j: nat)
    requires b.rate > 0.0 && TimelyRun(b, visits)
    requires i <= j < |visits|
    ensures FitsWindow(b.rate, MaxReal(b.capacity, 1.0),
                       Grants(b, visits)[i], Grants(b, visits)[j], j - i + 1)
  {
    var s, burst := Grants(b, visits), MaxReal(b.capacity, 1.0);
    RunPays(b, visits, i, j);
    PaidFitsWindow(b.rate, s[i], s[j], j - i, burst);
  }

  lemma NothingToRefill(b: Bucket)
    requires b.tokens <= b.capacity
    ensures Refill(b, b.updated) == b.tokens
  {
  }

  /** The bound cannot be improved: a fresh bucket grants its whole burst in one instant. */
  lemma {:induction false} WholeBurstAtOnce(b: Bucket, n: nat)
    requires b.rate > 0.0 && n as real <= b.tokens <= b.capacity
    ensures var visits := seq(n, _ => Visit(b.updated, b.updated));
            TimelyRun(b, visits) &&
            forall k :: 0 <= k < n ==> Grants(b, visits)[k].updated == b.updated
    decreases n
  {
    var visits := seq(n, _ => Visit(b.updated, b.updated));
    if n > 0 {
      var b1 := Grant(b, visits[0]);
      NothingToRefill(b);
      WholeBurstAtOnce(b1, n - 1);
      assert visits[1..] == seq(n - 1, _ => Visit(b1.updated, b1.updated));
    }
  }

  /** Tokens stay in [0, capacity] and nobody sleeps longer than one token takes to refill. */
  lemma {:induction false} TokensInRange(b: Bucket, visits: seq<Visit>)
    requires b.rate > 0.0 && 0.0 <= b.tokens <= b.capacity && TimelyRun(b, visits)
    ensures forall k :: 0 <= k < |visits| ==> 0.0 <= Grants(b, visits)[k].tokens <= b.capacity
    ensures forall k :: 0 <= k < |visits| ==>
      Wait(if k == 0 then b else Grants(b, visits)[k - 1], visits[k].now) <= 1.0 / b.rate
    decreases |visits|
  {
    if visits != [] {
      var b1 := Grant(b, visits[0]);
      GrantPays(b, visits[0]);
      WaitBounded(b, visits[0].now);
      TokensInRange(b1, visits[1..]);
      var s := Grants(b, visits);
      forall k | 0 <= k < |visits|
        ensures Wait(if k == 0 then b else s[k - 1], visits[k].now) <= 1.0 / b.rate
      {
        if k > 0 {
          assert visits[1..][k - 1] == visits[k];
          assert k > 1 ==> Grants(b1, visits[1..])[k - 2] == s[k - 1];
        }
      }
    }
  }

  lemma WaitBounded(b: Bucket, now: real)
    requires b.rate > 0.0 && 0.0 <= b.tokens && 0.0 <= b.capacity
    requires b.updated <= now
    ensures Wait(b, now) <= 1.0 / b.rate
  {
    MulMonotone(b.rate, 0.0, now - b.updated);
    var have := Refill(b, now);
    assert have >= 0.0;
    if have < 1.0 {
      if have > 0.0 {
        DivMonotone(b.rate, 1.0 - have, 1.0);
      }
    } else {
      DivMonotone(b.rate, 0.0, 1.0);
    }
  }

  /** A negative burst is the only way to make the first caller sleep longer than that. */
  lemma FirstSleepBoundedIffBurstNonNegative(ratePerSec: real, burst: Option<real>, now: real)
    ensures var b := Fresh(ratePerSec, burst, now);
            Wait(b, now) <= 1.0 / b.rate <==> b.capacity >= 0.0
  {
    var b := Fresh(ratePerSec, burst, now);
    if b.capacity >= 0.0 {
      WaitBounded(b, now);
    } else {
      assert Refill(b, now) == b.capacity;
      DivMonotone(b.rate, 1.0, 1.0 - b.capacity);
    }
  }

  /** The limiter object. Its mutable fields are the bucket's balance and last update. */
  class RateLimiter {
    const rate: real
    const capacity: real
    var tokens: real
    var updated: real

    ghost function View(): Bucket
      reads this
    {
      Bucket(rate, capacity, tokens, updated)
    }

    constructor (ratePerSec: real, burst: Option<real>, now: real)
      ensures View() == Fresh(ratePerSec, burst, now)
    {
      rate := MaxReal(ratePerSec, 0.1);
      capacity := if burst.Some? then burst.value else MaxReal(MaxReal(ratePerSec, 0.1), 1.0);
      tokens := if burst.Some? then burst.value else MaxReal(MaxReal(ratePerSec, 0.1), 1.0);
      updated := now;
    }

    /** `woken` is the clock after sleeping; it is only looked at when the call slept. */
    method Acquire(now: real, woken: real) returns (slept: real)
      requires rate > 0.0
      modifies this
      ensures View() == old(Grant(View(), Visit(now, woken)))
      ensures slept == old(Wait(View(), now))
    {
      slept := 0.0;
      tokens := MinReal(capacity, tokens + (now - updated) * rate);
      updated := now;
      if tokens < 1.0 {
        slept := (1.0 - tokens) / rate;
        tokens := 0.0;
        updated := woken;
      } else {
        tokens := tokens - 1.0;
      }
    }
  }
}
