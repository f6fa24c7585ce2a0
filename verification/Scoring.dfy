/** The risk score of a whole assessment, over the reals. */
module Scoring {
  import opened Prelude
  import opened Sorting

  function Sum(s: seq<real>): real { if s == [] then 0.0 else s[0] + Sum(s[1..]) }

  function Mean(s: seq<real>): real { if s == [] then 0.0 else Sum(s) / (|s| as real) }

  predicate Geq(a: real, b: real) { a >= b }

  /** The sum of the first k elements. */
  function Lead(s: seq<real>, k: nat): real { if s == [] || k == 0 then 0.0 else s[0] + Lead(s[1..], k - 1) }

  function FirstFive(sorted: seq<real>): seq<real> { if |sorted| <= 5 then sorted else sorted[..5] }

  /** The mean of the five highest scores, before rounding. */
  function Overall(scores: seq<real>): real { Mean(FirstFive(Sort(scores, Geq))) }

  lemma {:induction false} LeadIsSum(s: seq<real>, k: nat)
    ensures Lead(s, k) == Sum(if |s| <= k then s else s[..k])
    decreases |s|
  {
    if s != [] && k > 0 {
      LeadIsSum(s[1..], k - 1);
      assert |s| > k ==> s[..k][1..] == s[1..][..k - 1];
    }
  }

  lemma {:induction false} SumAppend(s: seq<real>, t: seq<real>)
    ensures Sum(s + t) == Sum(s) + Sum(t)
    decreases |s|
  {
    if s == [] {
      assert s + t == t;
    } else {
      assert (s + t)[1..] == s[1..] + t;
      SumAppend(s[1..], t);
    }
  }

  lemma SameRest(s: seq<real>, t: seq<real>)
    requires s != [] && t != [] && s[0] == t[0] && multiset(s) == multiset(t)
    ensures multiset(s[1..]) == multiset(t[1..])
  {
    assert s == [s[0]] + s[1..] && t == [t[0]] + t[1..];
    assert multiset(s[1..]) == multiset(s) - multiset{s[0]};
    assert multiset(t[1..]) == multiset(t) - multiset{t[0]};
  }

  lemma FirstIsLargest(s: seq<real>, x: real)
    requires s != [] && Sorted(s, Geq) && x in multiset(s)
    ensures s[0] >= x
  {
    var i :| 0 <= i < |s| && s[i] == x;
  }

  /** Falling sequences of the same numbers are the same. */
  lemma {:induction false} SortedUnique(s: seq<real>, t: seq<real>)
    requires Sorted(s, Geq) && Sorted(t, Geq) && multiset(s) == multiset(t)
    ensures s == t
    decreases |s|
  {
    assert |s| == |multiset(s)| == |t|;
    if s != [] {
      assert s[0] in multiset(s) && t[0] in multiset(t);
      FirstIsLargest(s, t[0]);
      FirstIsLargest(t, s[0]);
      SameRest(s, t);
      SortedUnique(s[1..], t[1..]);
      assert s == [s[0]] + s[1..] && t == [t[0]] + t[1..];
    }
  }

  lemma SameNumbersSortTheSame(s: seq<real>, t: seq<real>)
    requires multiset(s) == multiset(t)
    ensures Sort(s, Geq) == Sort(t, Geq)
  {
    SortSorts(s, Geq);
    SortSorts(t, Geq);
    SortPermutes(s, Geq);
    SortPermutes(t, Geq);
    SortedUnique(Sort(s, Geq), Sort(t, Geq));
  }

  /** The order in which findings are stored does not matter. */
  lemma OverallIsOrderFree(s: seq<real>, t: seq<real>)
    requires multiset(s) == multiset(t)
    ensures Overall(s) == Overall(t)
  {
    SameNumbersSortTheSame(s, t);
  }

  /** Inserting x among falling numbers adds to the leading k what x exceeds the last of them. */
  lemma {:induction false} InsertLead(x: real, s: seq<real>, k: nat)
    requires Sorted(s, Geq) && 1 <= k <= |s|
    ensures Lead(Insert(x, s, Geq), k) == Lead(s, k) + MaxReal(0.0, x - s[k - 1])
    decreases |s|
  {
    if Geq(x, s[0]) {
      assert ([x] + s)[1..] == s;
      LeadLast(s, k);
    } else {
      var rest := Insert(x, s[1..], Geq);
      assert ([s[0]] + rest)[1..] == rest;
      if k >= 2 {
        assert s[1..][k - 2] == s[k - 1];
        InsertLead(x, s[1..], k - 1);
      }
    }
  }

  lemma {:induction false} LeadLast(s: seq<real>, k: nat)
    requires 1 <= k <= |s|
    ensures Lead(s, k) == Lead(s, k - 1) + s[k - 1]
    decreases |s|
  {
    if k > 1 {
      LeadLast(s[1..], k - 1);
    }
  }

  lemma {:induction false} InsertSum(x: real, s: seq<real>)
    ensures Sum(Insert(x, s, Geq)) == Sum(s) + x
    decreases |s|
  {
    if s != [] && !Geq(x, s[0]) {
      InsertSum(x, s[1..]);
      assert ([s[0]] + Insert(x, s[1..], Geq))[1..] == Insert(x, s[1..], Geq);
    } else {
      assert ([x] + s)[1..] == s;
    }
  }

  lemma {:induction false} SortSum(s: seq<real>)
    ensures Sum(Sort(s, Geq)) == Sum(s)
    decreases |s|
  {
    if s != [] {
      SortSum(s[1..]);
      InsertSum(s[0], Sort(s[1..], Geq));
    }
  }

  lemma SortedAfterAdding(scores: seq<real>, x: real)
    ensures Sort(scores + [x], Geq) == Insert(x, Sort(scores, Geq), Geq)
    ensures Sorted(Sort(scores, Geq), Geq)
  {
    SortSorts(scores, Geq);
    SameNumbersSortTheSame(scores + [x], [x] + scores);
    assert ([x] + scores)[1..] == scores;
  }

  /** Without scores the overall score is zero. */
  lemma NoScores()
    ensures Overall([]) == 0.0
  {
    assert Sort([], Geq) == [];
  }

  /** With fewer than five scores the overall score is their mean. */
  lemma FewScores(scores: seq<real>)
    requires |scores| <= 5
    ensures Overall(scores) == Mean(scores)
  {
    SortSum(scores);
  }

  lemma MeanOfFive(sorted: seq<real>)
    requires |sorted| >= 5
    ensures Mean(FirstFive(sorted)) == Lead(sorted, 5) / 5.0
  {
    LeadIsSum(sorted, 5);
    assert |FirstFive(sorted)| == 5;
  }

  lemma ManyScores(scores: seq<real>)
    requires |scores| >= 5
    ensures Overall(scores) == Lead(Sort(scores, Geq), 5) / 5.0
  {
    MeanOfFive(Sort(scores, Geq));
  }

  lemma {:induction false} SumAtLeast(s: seq<real>, c: real)
    requires forall i :: 0 <= i < |s| ==> s[i] >= c
    ensures Sum(s) >= c * (|s| as real)
    decreases |s|
  {
    if s != [] {
      SumAtLeast(s[1..], c);
      assert c * (|s| as real) == c + c * (|s[1..]| as real);
    }
  }

  lemma {:induction false} SumAtMost(s: seq<real>, c: real)
    requires forall i :: 0 <= i < |s| ==> s[i] <= c
    ensures Sum(s) <= c * (|s| as real)
    decreases |s|
  {
    if s != [] {
      SumAtMost(s[1..], c);
      assert c * (|s| as real) == c + c * (|s[1..]| as real);
    }
  }

  /** Adding a score lowers the overall score exactly when there are fewer than five and the new
   *  one is below their mean (0 when there are none). With five or more it never does. */
  lemma AddingAScore(scores: seq<real>, x: real)
    ensures Overall(scores + [x]) < Overall(scores) <==>
            |scores| < 5 && x < Mean(scores)
  {
    if |scores| >= 5 {
      SortedAfterAdding(scores, x);
      InsertLead(x, Sort(scores, Geq), 5);
      ManyScores(scores);
      ManyScores(scores + [x]);
    } else {
      FewScores(scores);
      FewScores(scores + [x]);
      SumAppend(scores, [x]);
      assert Sum([x]) == x;
      if scores != [] {
        MeanAfterAdding(Sum(scores), |scores| as real, x);
      } else {
        assert scores + [x] == [x];
      }
    }
  }

  lemma MeanAfterAdding(sum: real, n: real, x: real)
    requires n >= 1.0
    ensures (sum + x) / (n + 1.0) < sum / n <==> x < sum / n
  {
    var m := sum / n;
    assert sum == m * n;
    assert (sum + x) / (n + 1.0) < m <==> sum + x < m * (n + 1.0);
    assert m * (n + 1.0) == sum + m;
  }

  /** Raising one score never lowers the overall score. */
  lemma RaisingAScore(scores: seq<real>, i: nat, x: real)
    requires i < |scores| && x >= scores[i]
    ensures Overall(scores[i := x]) >= Overall(scores)
  {
    var rest := scores[..i] + scores[i + 1..];
    assert scores == scores[..i] + [scores[i]] + scores[i + 1..];
    assert scores[i := x] == scores[..i] + [x] + scores[i + 1..];
    assert multiset(scores) == multiset(rest + [scores[i]]);
    assert multiset(scores[i := x]) == multiset(rest + [x]);
    OverallIsOrderFree(scores, rest + [scores[i]]);
    OverallIsOrderFree(scores[i := x], rest + [x]);
    LastRaised(rest, scores[i], x);
  }

  lemma LastRaised(rest: seq<real>, a: real, b: real)
    requires a <= b
    ensures Overall(rest + [a]) <= Overall(rest + [b])
  {
    if |rest| >= 5 {
      SortedAfterAdding(rest, a);
      SortedAfterAdding(rest, b);
      InsertLead(a, Sort(rest, Geq), 5);
      InsertLead(b, Sort(rest, Geq), 5);
      ManyScores(rest + [a]);
      ManyScores(rest + [b]);
    } else {
      FewScores(rest + [a]);
      FewScores(rest + [b]);
      SumAppend(rest, [a]);
      SumAppend(rest, [b]);
      assert Sum([a]) == a && Sum([b]) == b;
      DivideOrder(Sum(rest) + a, Sum(rest) + b, |rest| as real + 1.0);
    }
  }

  lemma DivideOrder(a: real, b: real, n: real)
    requires a <= b && n > 0.0
    ensures a / n <= b / n
  {
  }

  lemma MaximumBounds(sorted: seq<real>, top: real)
    requires sorted != [] && forall i :: 0 <= i < |sorted| ==> sorted[i] <= top
    ensures Mean(FirstFive(sorted)) <= top
  {
    var first := FirstFive(sorted);
    SumAtMost(first, top);
    QuotientBounds(Sum(first), top, |first| as real);
  }

  lemma MeanBounds(sorted: seq<real>)
    requires Sorted(sorted, Geq)
    ensures Mean(sorted) <= Mean(FirstFive(sorted))
  {
    if |sorted| > 5 {
      var first, rest, c := sorted[..5], sorted[5..], sorted[4];
      assert sorted == first + rest;
      SumAppend(first, rest);
      SumAtLeast(first, c);
      SumAtMost(rest, c);
      MeansCompare(Sum(first), Sum(rest), c, |rest| as real);
    }
  }

  /** The overall score lies between the mean of all scores and the highest one. */
  lemma OverallIsBetweenMeanAndMaximum(scores: seq<real>, top: real)
    requires scores != [] && top in scores && forall x :: x in scores ==> x <= top
    ensures Mean(scores) <= Overall(scores) <= top
  {
    var sorted := Sort(scores, Geq);
    SortSorts(scores, Geq);
    SortPermutes(scores, Geq);
    SortSum(scores);
    forall i | 0 <= i < |sorted|
      ensures sorted[i] <= top
    {
      assert sorted[i] in multiset(sorted);
      assert sorted[i] in multiset(scores) && sorted[i] in scores;
    }
    MaximumBounds(sorted, top);
    MeanBounds(sorted);
  }

  lemma QuotientBounds(sum: real, c: real, n: real)
    requires n > 0.0 && sum <= c * n
    ensures sum / n <= c
  {
  }

  lemma MeansCompare(high: real, low: real, c: real, m: real)
    requires high >= c * 5.0 && low <= c * m && m > 0.0
    ensures (high + low) / (5.0 + m) <= high / 5.0
  {
    var h := high / 5.0;
    assert c * m <= h * m;
    QuotientBounds(high + low, h, 5.0 + m);
  }
}
