/** Benjamini-Hochberg over the tests of a search (packages/engine/quanta_engine/discover/stats.py). */
module FalseDiscovery {
  import opened Arithmetic
  import opened Collections
  import opened Combinatorics

  // --- ranks --------------------------------------------------------------

  /** The indices of p, smallest value first, earlier index first among equals. */
  predicate Ranking(p: seq<real>, order: seq<nat>) {
    && |order| == |p|
    && (forall k :: 0 <= k < |order| ==> order[k] < |p|)
    && forall j, k :: 0 <= j < k < |order| ==> Ahead(p, order[j], order[k])
  }

  predicate Ahead(p: seq<real>, i: nat, j: nat) {
    i < |p| && j < |p| && (p[i] < p[j] || (p[i] == p[j] && i < j))
  }

  /** Puts a new, highest index behind everything not larger. */
  function Insert(p: seq<real>, order: seq<nat>, i: nat): seq<nat>
    requires i < |p| && forall k :: 0 <= k < |order| ==> order[k] < |p|
  {
    if |order| == 0 then [i]
    else if p[order[0]] <= p[i] then [order[0]] + Insert(p, order[1..], i)
    else [i] + order
  }

  predicate RankedBelow(p: seq<real>, order: seq<nat>, n: nat) {
    && n <= |p|
    && (forall k :: 0 <= k < |order| ==> order[k] < n)
    && forall j, k :: 0 <= j < k < |order| ==> Ahead(p, order[j], order[k])
  }

  lemma {:induction false} InsertRanks(p: seq<real>, order: seq<nat>, i: nat)
    requires RankedBelow(p, order, i) && i < |p|
    ensures |Insert(p, order, i)| == |order| + 1 && RankedBelow(p, Insert(p, order, i), i + 1)
    ensures forall x :: x in Insert(p, order, i) ==> x == i || x in order
  {
    if |order| > 0 && p[order[0]] <= p[i] {
      InsertRanks(p, order[1..], i);
      var rest := Insert(p, order[1..], i);
      forall k | 0 <= k < |rest| ensures Ahead(p, order[0], rest[k]) {
        assert rest[k] in rest;
        if rest[k] != i { var j :| 0 <= j < |order[1..]| && order[1..][j] == rest[k]; assert order[j + 1] == rest[k]; }
      }
    }
  }

  /** sorted(range(m), key=...), which keeps the order of equals. */
  function Order(p: seq<real>, n: nat): (order: seq<nat>)
    requires n <= |p|
    ensures |order| == n && RankedBelow(p, order, n)
  {
    if n == 0 then []
    else
      var order := Order(p, n - 1);
      InsertRanks(p, order, n - 1);
      Insert(p, order, n - 1)
  }

  // --- the step-up rule, without sorting -----------------------------------

  function AtMost(p: seq<real>, t: real): set<nat> {
    set i: nat | i < |p| && p[i] <= t
  }

  /** How far the k-th smallest value may reach. */
  function Level(k: nat, m: nat, alpha: real): real
    requires m > 0
  {
    k as real / m as real * alpha
  }

  /** The tests share the rate: the k-th level is k parts of it out of m. */
  lemma LevelsMean(k: nat, m: nat, alpha: real)
    requires m > 0
    ensures m as real * Level(k, m, alpha) == k as real * alpha
  {
    var share := k as real / m as real;
    assert m as real * share == k as real;
    assert m as real * (share * alpha) == (m as real * share) * alpha;
  }

  /** At least k values lie within the k-th level. */
  predicate StepsUp(p: seq<real>, alpha: real, k: nat)
    requires |p| > 0
  {
    |AtMost(p, Level(k, |p|, alpha))| >= k
  }

  /** The largest number up to n that steps up. */
  function Cutoff(p: seq<real>, alpha: real, n: nat): (r: nat)
    requires |p| > 0
    ensures r <= n
    ensures r > 0 ==> StepsUp(p, alpha, r)
    ensures forall k :: r < k <= n ==> !StepsUp(p, alpha, k)
  {
    if n == 0 then 0 else if StepsUp(p, alpha, n) then n else Cutoff(p, alpha, n - 1)
  }

  // --- sorting and counting agree --------------------------------------------

  lemma {:induction false} DistinctCount(s: seq<nat>)
    requires forall j, k :: 0 <= j < k < |s| ==> s[j] != s[k]
    ensures |Elements(s)| == |s|
  {
    if |s| > 0 {
      var front := s[..|s| - 1];
      DistinctCount(front);
      assert Elements(s) == Elements(front) + {s[|s| - 1]};
    }
  }

  lemma FirstRanksCount(p: seq<real>, order: seq<nat>, k: nat)
    requires Ranking(p, order) && k <= |p|
    ensures |Elements(order[..k])| == k
  {
    forall i, j | 0 <= i < j < k ensures order[..k][i] != order[..k][j] { assert Ahead(p, order[i], order[j]); }
    DistinctCount(order[..k]);
  }

  /** Every index has a rank. */
  lemma RankOf(p: seq<real>, order: seq<nat>, i: nat) returns (k: nat)
    requires Ranking(p, order) && i < |p|
    ensures k < |p| && order[k] == i
  {
    IndexCount(|p|);
    FirstRanksCount(p, order, |p|);
    assert order[..|p|] == order;
    if i !in order {
      SubsetSize(Elements(order), Below(|p|) - {i});
      assert false;
    }
    k :| 0 <= k < |order| && order[k] == i;
  }

  function Below(m: nat): set<nat> {
    if m == 0 then {} else Below(m - 1) + {m - 1}
  }

  lemma {:induction false} IndexCount(m: nat)
    ensures |Below(m)| == m && forall i: nat :: i in Below(m) <==> i < m
  {
    if m > 0 { IndexCount(m - 1); }
  }

  lemma NotAhead(p: seq<real>, order: seq<nat>, j: nat, k: nat)
    requires Ranking(p, order) && j < |p| && k < |p| && p[order[j]] < p[order[k]]
    ensures j < k
  {
  }

  /** The k-th smallest value is within t exactly when at least k values are. */
  lemma KthSmallest(p: seq<real>, order: seq<nat>, k: nat, t: real)
    requires Ranking(p, order) && 1 <= k <= |p|
    ensures p[order[k - 1]] <= t <==> |AtMost(p, t)| >= k
  {
    if p[order[k - 1]] <= t {
      FirstRanksCount(p, order, k);
      forall x | x in Elements(order[..k]) ensures x in AtMost(p, t) {
        var j :| 0 <= j < k && order[..k][j] == x;
        if j < k - 1 { assert Ahead(p, order[j], order[k - 1]); }
      }
      SubsetSize(Elements(order[..k]), AtMost(p, t));
    } else {
      FirstRanksCount(p, order, k - 1);
      forall x | x in AtMost(p, t) ensures x in Elements(order[..k - 1]) {
        var j := RankOf(p, order, x);
        NotAhead(p, order, j, k - 1);
        assert order[..k - 1][j] == x;
      }
      SubsetSize(AtMost(p, t), Elements(order[..k - 1]));
    }
  }

  // --- the procedure ---------------------------------------------------------

  lemma LevelGrows(j: nat, k: nat, m: nat, alpha: real)
    requires j <= k && m > 0 && alpha >= 0.0
    ensures Level(j, m, alpha) <= Level(k, m, alpha)
  {
    var x, y := j as real / m as real, k as real / m as real;
    assert x * m as real == j as real && y * m as real == k as real;
    assert x <= y;
    assert (y - x) * alpha >= 0.0;
  }

  /** Within the threshold, or among the first ranks, is the same. */
  lemma FirstRanksAreWithin(p: seq<real>, order: seq<nat>, alpha: real, k: nat)
    requires |p| > 0 && Ranking(p, order) && alpha >= 0.0 && 1 <= k <= |p|
    ensures p[order[k - 1]] <= Level(Cutoff(p, alpha, |p|), |p|, alpha) <==> k <= Cutoff(p, alpha, |p|)
  {
    hide Level, Ranking, AtMost;
    var r := Cutoff(p, alpha, |p|);
    if k <= r {
      KthSmallest(p, order, r, Level(r, |p|, alpha));
      KthSmallest(p, order, k, Level(r, |p|, alpha));
    } else {
      assert !StepsUp(p, alpha, k);
      KthSmallest(p, order, k, Level(k, |p|, alpha));
      LevelGrows(r, k, |p|, alpha);
    }
  }

  /** Exactly the first r ranks pass. */
  predicate PassesFirst(p: seq<real>, passed: seq<bool>, r: nat) {
    && |passed| == |p|
    && forall k :: 0 <= k < |p| ==> (passed[Order(p, |p|)[k]] <==> k < r)
  }

  lemma DistinctRanks(p: seq<real>, order: seq<nat>, j: nat, k: nat)
    requires Ranking(p, order) && j < |p| && k < |p| && j != k
    ensures order[j] != order[k]
  {
    if j < k { assert Ahead(p, order[j], order[k]); } else { assert Ahead(p, order[k], order[j]); }
  }

  method BenjaminiHochberg(p: seq<real>, alpha: real) returns (passed: seq<bool>, threshold: real)
    ensures |p| == 0 ==> passed == [] && threshold == 0.0
    ensures |p| > 0 ==> PassesFirst(p, passed, Cutoff(p, alpha, |p|))
    ensures |p| > 0 ==> threshold == Level(Cutoff(p, alpha, |p|), |p|, alpha)
  {
    hide Level, StepsUp, AtMost, Ahead;
    var m := |p|;
    if m == 0 {
      return [], 0.0;
    }
    var order := Order(p, m);
    threshold := 0.0;
    var cutoff := 0;
    assert Level(0, m, alpha) == 0.0 by { LevelZero(m, alpha); }
    for rank := 1 to m + 1
      invariant cutoff == Cutoff(p, alpha, rank - 1)
      invariant threshold == Level(cutoff, m, alpha)
    {
      KthSmallest(p, order, rank, Level(rank, m, alpha));
      CutoffStep(p, alpha, rank);
      if p[order[rank - 1]] <= Level(rank, m, alpha) {
        cutoff := rank;
        threshold := Level(rank, m, alpha);
      }
    }
    var flags := new bool[m](_ => false);
    for rank := 1 to m + 1
      invariant forall k :: 0 <= k < m ==> (flags[order[k]] <==> k < rank - 1 && k < cutoff)
    {
      forall k: nat | k < m && k != rank - 1 ensures order[k] != order[rank - 1] { DistinctRanks(p, order, k, rank - 1); }
      if rank <= cutoff {
        flags[order[rank - 1]] := true;
      }
    }
    passed := flags[..];
  }

  lemma LevelZero(m: nat, alpha: real)
    requires m > 0
    ensures Level(0, m, alpha) == 0.0
  {
  }

  lemma CutoffStep(p: seq<real>, alpha: real, n: nat)
    requires |p| > 0 && n > 0
    ensures StepsUp(p, alpha, n) <==> |AtMost(p, Level(n, |p|, alpha))| >= n
    ensures Cutoff(p, alpha, n) == if StepsUp(p, alpha, n) then n else Cutoff(p, alpha, n - 1)
  {
  }

  // --- what it decides -----------------------------------------------------------

  function Passing(passed: seq<bool>): set<nat> {
    set i: nat | i < |passed| && passed[i]
  }

  /** Benjamini-Hochberg is exact, for any p-values and a rate that is not negative: what passes is exactly
      what lies within the threshold, so that ties are never split; as many pass as the largest number that
      steps up; and the threshold times the number of tests is the share of those the procedure allows to be
      chance.
    */
  lemma PassesExactly(p: seq<real>, alpha: real, passed: seq<bool>, threshold: real)
    requires |p| > 0 && alpha >= 0.0 && |passed| == |p|
    requires PassesFirst(p, passed, Cutoff(p, alpha, |p|)) && threshold == Level(Cutoff(p, alpha, |p|), |p|, alpha)
    ensures forall i :: 0 <= i < |p| ==> (passed[i] <==> p[i] <= threshold)
    ensures |Passing(passed)| == Cutoff(p, alpha, |p|)
    ensures threshold * |p| as real == ExpectedFalseHits(|p|, |Passing(passed)|, alpha)
  {
    hide *;
    var r := Cutoff(p, alpha, |p|);
    PassesWithin(p, alpha, passed);
    PassesCount(p, passed, r);
    LevelTimes(r, |p|, alpha);
    Allowed(|p|, r, alpha);
  }

  lemma PassesWithin(p: seq<real>, alpha: real, passed: seq<bool>)
    requires |p| > 0 && alpha >= 0.0 && |passed| == |p| && PassesFirst(p, passed, Cutoff(p, alpha, |p|))
    ensures forall i :: 0 <= i < |p| ==> (passed[i] <==> p[i] <= Level(Cutoff(p, alpha, |p|), |p|, alpha))
  {
    hide Level, Cutoff, PassesFirst, Order;
    var order := Order(p, |p|);
    forall i | 0 <= i < |p| ensures passed[i] <==> p[i] <= Level(Cutoff(p, alpha, |p|), |p|, alpha) {
      var k := RankOf(p, order, i);
      FirstRanksAreWithin(p, order, alpha, k + 1);
      PassesRank(p, passed, Cutoff(p, alpha, |p|), k);
    }
  }

  lemma PassesRank(p: seq<real>, passed: seq<bool>, r: nat, k: nat)
    requires PassesFirst(p, passed, r) && k < |p|
    ensures |passed| == |p| && (passed[Order(p, |p|)[k]] <==> k < r)
  {
  }

  lemma Allowed(tested: nat, hits: nat, alpha: real)
    requires tested > 0
    ensures ExpectedFalseHits(tested, hits, alpha) == alpha * hits as real
  {
  }

  lemma PassesCount(p: seq<real>, passed: seq<bool>, r: nat)
    requires |passed| == |p| && PassesFirst(p, passed, r) && r <= |p|
    ensures |Passing(passed)| == r
  {
    hide Ranking, Order, PassesFirst;
    var order := Order(p, |p|);
    FirstRanksCount(p, order, r);
    forall i | i in Passing(passed) ensures i in Elements(order[..r]) {
      var k := RankOf(p, order, i);
      PassesRank(p, passed, r, k);
      assert order[..r][k] == i;
    }
    forall i | i in Elements(order[..r]) ensures i in Passing(passed) {
      var k :| 0 <= k < r && order[..r][k] == i;
      PassesRank(p, passed, r, k);
    }
    assert Passing(passed) == Elements(order[..r]);
  }

  lemma LevelTimes(k: nat, m: nat, alpha: real)
    requires m > 0
    ensures Level(k, m, alpha) * m as real == alpha * k as real
  {
    var x := k as real / m as real;
    assert x * m as real == k as real;
  }

  /** expected_false_hits: the share of the hits allowed to be chance. */
  function ExpectedFalseHits(tested: int, hits: int, alpha: real): real {
    if hits <= 0 || tested <= 0 then 0.0 else alpha * hits as real
  }

  lemma CutoffOf(p: seq<real>, alpha: real, k: nat)
    requires 0 < |p| && k <= |p| && (k > 0 ==> StepsUp(p, alpha, k))
    ensures k <= Cutoff(p, alpha, |p|)
  {
  }

  /** Evidence that is nowhere weaker, at a rate that is no stricter, keeps every hit. */
  lemma PassingGrows(p: seq<real>, q: seq<real>, a: real, b: real, i: nat)
    requires |p| == |q| && i < |p| && 0.0 <= a <= b && forall j :: 0 <= j < |p| ==> q[j] <= p[j]
    ensures Level(Cutoff(p, a, |p|), |p|, a) <= Level(Cutoff(q, b, |q|), |q|, b)
    ensures p[i] <= Level(Cutoff(p, a, |p|), |p|, a) ==> q[i] <= Level(Cutoff(q, b, |q|), |q|, b)
  {
    var r := Cutoff(p, a, |p|);
    LevelLoosens(r, |p|, a, b);
    if r > 0 {
      SubsetSize(AtMost(p, Level(r, |p|, a)), AtMost(q, Level(r, |p|, b)));
    }
    CutoffOf(q, b, r);
    LevelGrows(r, Cutoff(q, b, |q|), |p|, b);
  }

  lemma LevelLoosens(k: nat, m: nat, a: real, b: real)
    requires m > 0 && a <= b
    ensures Level(k, m, a) <= Level(k, m, b)
  {
    var x := k as real / m as real;
    assert x >= 0.0;
    assert x * (b - a) >= 0.0;
  }

  /** The correction never adds a hit to those an uncorrected search at the same rate would report. */
  lemma CorrectionOnlyRemoves(p: seq<real>, alpha: real)
    requires |p| > 0 && alpha >= 0.0
    ensures Level(Cutoff(p, alpha, |p|), |p|, alpha) <= alpha
  {
    LevelGrows(Cutoff(p, alpha, |p|), |p|, |p|, alpha);
    LevelTimes(|p|, |p|, alpha);
    Cancel(Level(|p|, |p|, alpha), alpha, |p| as real);
    hide Level;
  }
}
