/** itertools.combinations and itertools.permutations, and how many there are. */
module Combinatorics {

  predicate Distinct<T(==)>(s: seq<T>) {
    forall i, j :: 0 <= i < j < |s| ==> s[i] != s[j]
  }

  function Elements<T>(s: seq<T>): set<T> {
    set x | x in s
  }

  /** Each with x in front. */
  function Prepend<T>(x: T, all: seq<seq<T>>): (r: seq<seq<T>>)
    ensures |r| == |all| && forall i :: 0 <= i < |r| ==> r[i] == [x] + all[i]
  {
    seq(|all|, i requires 0 <= i < |all| => [x] + all[i])
  }

  // --- combinations ----------------------------------------------------------

  /** The k-element selections of s in order, those with its first element first. */
  function Combinations<T>(s: seq<T>, k: nat): seq<seq<T>> {
    if k == 0 then [[]]
    else if |s| == 0 then []
    else Prepend(s[0], Combinations(s[1..], k - 1)) + Combinations(s[1..], k)
  }

  /** c can be read off s by skipping elements. */
  predicate Selects<T(==)>(c: seq<T>, s: seq<T>) {
    |c| == 0 || (|s| > 0 && ((c[0] == s[0] && Selects(c[1..], s[1..])) || Selects(c, s[1..])))
  }

  lemma PrependMember<T>(x: T, all: seq<seq<T>>, c: seq<T>)
    ensures c in Prepend(x, all) <==> |c| > 0 && c[0] == x && c[1..] in all
  {
    if |c| > 0 && c[0] == x && c[1..] in all {
      var i :| 0 <= i < |all| && all[i] == c[1..];
      assert Prepend(x, all)[i] == c;
    }
    if c in Prepend(x, all) {
      var i :| 0 <= i < |all| && Prepend(x, all)[i] == c;
      assert c[1..] == all[i];
    }
  }

  /** The combinations are exactly the selections of that size. */
  lemma {:induction false} CombinationsAreSelections<T>(s: seq<T>, k: nat, c: seq<T>)
    ensures c in Combinations(s, k) <==> |c| == k && Selects(c, s)
  {
    hide Prepend;
    if k > 0 && |s| > 0 {
      PrependMember(s[0], Combinations(s[1..], k - 1), c);
      CombinationsAreSelections(s[1..], k, c);
      if |c| > 0 { CombinationsAreSelections(s[1..], k - 1, c[1..]); }
    }
  }

  lemma SplitElements<T>(s: seq<T>)
    requires |s| > 0
    ensures Elements(s) == {s[0]} + Elements(s[1..])
  {
    assert s == [s[0]] + s[1..];
  }

  lemma {:induction false} SelectedAreElements<T>(c: seq<T>, s: seq<T>)
    requires Selects(c, s)
    ensures Elements(c) <= Elements(s) && |c| <= |s|
  {
    if |c| > 0 {
      SplitElements(c);
      SplitElements(s);
      if c[0] == s[0] && Selects(c[1..], s[1..]) {
        SelectedAreElements(c[1..], s[1..]);
      } else {
        SelectedAreElements(c, s[1..]);
      }
    } else {
      assert Elements(c) == {};
    }
  }

  /** Selections are told apart by what they select. */
  lemma {:induction false} SelectionIsItsSet<T>(c: seq<T>, d: seq<T>, s: seq<T>)
    requires Distinct(s) && Selects(c, s) && Selects(d, s) && Elements(c) == Elements(d)
    ensures c == d
  {
    hide Distinct;
    if |c| == 0 || |d| == 0 {
      if |c| > 0 { SplitElements(c); }
      if |d| > 0 { SplitElements(d); }
    } else {
      HeadOnce(c, s);
      HeadOnce(d, s);
      TailDistinct(s);
      if s[0] in Elements(c) {
        SelectionIsItsSet(c[1..], d[1..], s[1..]);
      } else {
        SelectionIsItsSet(c, d, s[1..]);
      }
    }
  }

  lemma TailDistinct<T>(s: seq<T>)
    requires Distinct(s) && |s| > 0
    ensures Distinct(s[1..]) && s[0] !in Elements(s[1..])
  {
    forall k | 0 <= k < |s[1..]| ensures s[1..][k] != s[0] { assert s[k + 1] != s[0]; }
  }

  lemma HeadOnce<T>(c: seq<T>, s: seq<T>)
    requires Distinct(s) && Selects(c, s) && |c| > 0
    ensures s[0] in Elements(c) ==> c[0] == s[0] && Selects(c[1..], s[1..]) && Elements(c[1..]) == Elements(c) - {s[0]}
    ensures s[0] !in Elements(c) ==> Selects(c, s[1..])
  {
    hide Distinct;
    TailDistinct(s);
    SplitElements(c);
    if c[0] == s[0] && Selects(c[1..], s[1..]) {
      SelectedAreElements(c[1..], s[1..]);
    } else {
      SelectedAreElements(c, s[1..]);
    }
  }

  lemma {:induction false} SelectsThrough<T>(a: seq<T>, b: seq<T>, c: seq<T>)
    requires Selects(a, b) && Selects(b, c)
    ensures Selects(a, c)
    decreases |c|
  {
    if |a| > 0 {
      if b[0] == c[0] && Selects(b[1..], c[1..]) {
        if a[0] == b[0] && Selects(a[1..], b[1..]) { SelectsThrough(a[1..], b[1..], c[1..]); }
        else { SelectsThrough(a, b[1..], c[1..]); }
      } else {
        SelectsThrough(a, b, c[1..]);
      }
    }
  }

  /** Every set of elements is selected. */
  function Selection<T(==)>(s: seq<T>, keep: set<T>): seq<T> {
    if |s| == 0 then [] else if s[0] in keep then [s[0]] + Selection(s[1..], keep) else Selection(s[1..], keep)
  }

  lemma {:induction false} SelectionSelects<T>(s: seq<T>, keep: set<T>)
    requires Distinct(s)
    ensures Selects(Selection(s, keep), s) && Elements(Selection(s, keep)) == Elements(s) * keep
    ensures |Selection(s, keep)| == |Elements(s) * keep|
  {
    hide Distinct;
    if |s| > 0 {
      TailDistinct(s);
      SplitElements(s);
      SelectionSelects(s[1..], keep);
      var rest := Selection(s[1..], keep);
      if s[0] in keep {
        SplitElements([s[0]] + rest);
        assert ([s[0]] + rest)[1..] == rest;
        assert Elements(s) * keep == {s[0]} + Elements(s[1..]) * keep;
      } else {
        assert Elements(s) * keep == Elements(s[1..]) * keep;
      }
    } else {
      assert Elements(s) == {};
    }
  }

  lemma {:induction false} CombinationsDistinct<T>(s: seq<T>, k: nat)
    requires Distinct(s)
    ensures Distinct(Combinations(s, k))
  {
    if k > 0 && |s| > 0 {
      var first, rest := Combinations(s[1..], k - 1), Combinations(s[1..], k);
      CombinationsDistinct(s[1..], k - 1);
      CombinationsDistinct(s[1..], k);
      PrependDistinct(s[0], first);
      TailDistinct(s);
      forall i, j | 0 <= i < |first| && 0 <= j < |rest| ensures Prepend(s[0], first)[i] != rest[j] {
        CombinationsAreSelections(s[1..], k, rest[j]);
        SelectedAreElements(rest[j], s[1..]);
        assert rest[j][0] in Elements(rest[j]);
      }
    }
  }

  lemma PrependDistinct<T>(x: T, all: seq<seq<T>>)
    requires Distinct(all)
    ensures Distinct(Prepend(x, all))
  {
    forall i, j | 0 <= i < j < |all| ensures [x] + all[i] != [x] + all[j] {
      assert ([x] + all[i])[1..] == all[i] && ([x] + all[j])[1..] == all[j];
    }
  }

  // --- how many ----------------------------------------------------------------

  function Choose(n: nat, k: nat): nat {
    if k == 0 then 1 else if n == 0 then 0 else Choose(n - 1, k - 1) + Choose(n - 1, k)
  }

  lemma {:induction false} CombinationsCount<T>(s: seq<T>, k: nat)
    ensures |Combinations(s, k)| == Choose(|s|, k)
  {
    hide Prepend;
    if k > 0 && |s| > 0 {
      CombinationsCount(s[1..], k - 1);
      CombinationsCount(s[1..], k);
      assert Combinations(s, k) == Prepend(s[0], Combinations(s[1..], k - 1)) + Combinations(s[1..], k);
    }
  }

  lemma PascalStep(n: int, k: int, a: int, b: int, c: int)
    requires b * k == a * (n - k) && c * (k + 1) == b * (n - 1 - k)
    ensures (b + c) * (k + 1) == (a + b) * (n - k)
  {
  }

  lemma {:induction false} ChooseStep(n: nat, k: nat)
    requires k <= n
    ensures Choose(n, k + 1) * (k + 1) == Choose(n, k) * (n - k)
  {
    if n > 0 {
      if k == n {
        ChooseBeyond(n, n + 1);
      } else {
        ChooseStep(n - 1, k);
        if k > 0 {
          ChooseStep(n - 1, k - 1);
          PascalStep(n, k, Choose(n - 1, k - 1), Choose(n - 1, k), Choose(n - 1, k + 1));
        }
      }
    }
  }

  lemma {:induction false} ChooseBeyond(n: nat, k: nat)
    requires k > n
    ensures Choose(n, k) == 0
  {
    if n > 0 {
      ChooseBeyond(n - 1, k - 1);
      ChooseBeyond(n - 1, k);
    }
  }

  // --- permutations ----------------------------------------------------------------

  function Without<T>(s: seq<T>, i: nat): seq<T>
    requires i < |s|
  {
    s[..i] + s[i + 1..]
  }

  /** Every ordering: each element in turn in front of the orderings of the others. */
  function Permutations<T>(s: seq<T>): seq<seq<T>>
    decreases |s|, |s| + 1
  {
    if |s| == 0 then [[]] else FromHead(s, 0)
  }

  function FromHead<T>(s: seq<T>, i: nat): seq<seq<T>>
    requires i <= |s| && |s| > 0
    decreases |s|, |s| - i
  {
    if i == |s| then [] else Prepend(s[i], Permutations(Without(s, i))) + FromHead(s, i + 1)
  }

  lemma WithoutMultiset<T>(s: seq<T>, i: nat)
    requires i < |s|
    ensures multiset(Without(s, i)) + multiset{s[i]} == multiset(s)
  {
    assert s == s[..i] + [s[i]] + s[i + 1..];
  }

  lemma {:induction false} PermutationIsRearrangement<T>(s: seq<T>, p: seq<T>)
    requires p in Permutations(s)
    ensures multiset(p) == multiset(s)
    decreases |s|, |s| + 1
  {
    if |s| > 0 { HeadIsRearrangement(s, 0, p); }
  }

  lemma {:induction false} HeadIsRearrangement<T>(s: seq<T>, i: nat, p: seq<T>)
    requires i <= |s| && |s| > 0 && p in FromHead(s, i)
    ensures multiset(p) == multiset(s)
    decreases |s|, |s| - i
  {
    if i < |s| {
      var rest := Permutations(Without(s, i));
      if p in Prepend(s[i], rest) {
        var k :| 0 <= k < |rest| && p == [s[i]] + rest[k];
        PermutationIsRearrangement(Without(s, i), rest[k]);
        WithoutMultiset(s, i);
      } else {
        HeadIsRearrangement(s, i + 1, p);
      }
    }
  }

  lemma {:induction false} RearrangementIsPermutation<T>(s: seq<T>, p: seq<T>)
    requires multiset(p) == multiset(s)
    ensures p in Permutations(s)
    decreases |s|
  {
    assert |multiset(p)| == |p| && |multiset(s)| == |s|;
    if |p| > 0 {
      assert p[0] in multiset(s);
      var i :| 0 <= i < |s| && s[i] == p[0];
      WithoutMultiset(s, i);
      assert p == [p[0]] + p[1..];
      assert multiset(p) == multiset{p[0]} + multiset(p[1..]);
      assert multiset(p[1..]) == multiset(p) - multiset{p[0]} == multiset(Without(s, i));
      RearrangementIsPermutation(Without(s, i), p[1..]);
      InFromHead(s, 0, i, p);
    }
  }

  lemma {:induction false} InFromHead<T>(s: seq<T>, from: nat, i: nat, p: seq<T>)
    requires from <= i < |s| && |p| > 0 && p[0] == s[i] && p[1..] in Permutations(Without(s, i))
    ensures p in FromHead(s, from)
    decreases i - from
  {
    if from == i {
      var rest := Permutations(Without(s, i));
      var k :| 0 <= k < |rest| && rest[k] == p[1..];
      assert Prepend(s[i], rest)[k] == p;
    } else {
      InFromHead(s, from + 1, i, p);
    }
  }

  lemma WithoutDistinct<T>(s: seq<T>, i: nat)
    requires Distinct(s) && i < |s|
    ensures Distinct(Without(s, i))
  {
    forall a, b | 0 <= a < b < |s| - 1 ensures Without(s, i)[a] != Without(s, i)[b] {
      assert Without(s, i)[a] == s[if a < i then a else a + 1] && Without(s, i)[b] == s[if b < i then b else b + 1];
    }
  }

  lemma {:induction false} PermutationsDistinct<T>(s: seq<T>)
    requires Distinct(s)
    ensures Distinct(Permutations(s))
    decreases |s|, |s| + 1
  {
    if |s| > 0 { FromHeadDistinct(s, 0); }
  }

  lemma {:induction false} FromHeadDistinct<T>(s: seq<T>, i: nat)
    requires Distinct(s) && i <= |s| && |s| > 0
    ensures Distinct(FromHead(s, i))
    ensures forall p :: p in FromHead(s, i) ==> |p| > 0 && p[0] in s[i..]
    decreases |s|, |s| - i
  {
    if i < |s| {
      WithoutDistinct(s, i);
      PermutationsDistinct(Without(s, i));
      PrependDistinct(s[i], Permutations(Without(s, i)));
      FromHeadDistinct(s, i + 1);
      assert s[i..] == [s[i]] + s[i + 1..];
      assert s[i] !in s[i + 1..];
    }
  }

  function Factorial(n: nat): nat {
    if n == 0 then 1 else n * Factorial(n - 1)
  }

  lemma {:induction false} PermutationsCount<T>(s: seq<T>)
    ensures |Permutations(s)| == Factorial(|s|)
    decreases |s|, |s| + 1
  {
    if |s| > 0 { FromHeadCount(s, 0); }
  }

  lemma OneMore(a: int, f: int)
    ensures (a + 1) * f == f + a * f
  {
  }

  lemma {:induction false} FromHeadCount<T>(s: seq<T>, i: nat)
    requires i <= |s| && |s| > 0
    ensures |FromHead(s, i)| == (|s| - i) * Factorial(|s| - 1)
    decreases |s|, |s| - i
  {
    if i < |s| {
      PermutationsCount(Without(s, i));
      FromHeadCount(s, i + 1);
      OneMore(|s| - i - 1, Factorial(|s| - 1));
    }
  }
}
