/** What the generator of primitives produces: exactly the supported statements, each once. */
module Generation {
  import opened Combinatorics
  import opened Primitives

  // --- the loops ------------------------------------------------------------------

  /** The order is fixed: per line, per pair, per group, then divergences. */
  method BuildPrimitives(series: seq<Line>) returns (out: seq<Primitive>)
    ensures out == Build(series)
  {
    hide *;
    out := PerLine(series);
    var groups := GroupByScale(series);
    var pairs := PerPair(groups);
    var stacks := PerGroup(groups);
    var divergences := PerPrice(series);
    out := out + pairs + stacks + divergences;
    BuildParts(series);
  }

  lemma BuildParts(series: seq<Line>)
    ensures Build(series) ==
      OfLines(series) + OfGroups(Groups(series)) + OfStacks(Groups(series)) + OfPrices(PricesOf(series), series)
  {
    hide OfLines, OfGroups, OfStacks, OfPrices;
  }

  method PerLine(series: seq<Line>) returns (out: seq<Primitive>)
    ensures out == OfLines(series)
  {
    hide OfLevels;
    out := [];
    for i := 0 to |series|
      invariant out == OfLines(series[..i])
    {
      assert series[..i + 1][..i] == series[..i];
      var line := series[i];
      var levels := PerLevel(line);
      out := out + ([Slope(line, true), Slope(line, false), Turn(line, true), Turn(line, false),
                     Extreme(line, true), Extreme(line, false)] + levels);
    }
    assert series[..|series|] == series;
  }

  method PerLevel(line: Line) returns (out: seq<Primitive>)
    ensures out == OfLevels(line, ScaleLevels(line.scale))
  {
    var levels := ScaleLevels(line.scale);
    out := [];
    for k := 0 to |levels|
      invariant out == OfLevels(line, levels[..k])
    {
      assert levels[..k + 1][..k] == levels[..k];
      out := out + OfLevelLine(line, levels[k]);
    }
    assert levels[..|levels|] == levels;
  }

  method PerPair(groups: seq<ScaleGroup>) returns (out: seq<Primitive>)
    ensures out == OfGroups(groups)
  {
    hide OfPair, PairsOf;
    out := [];
    for g := 0 to |groups|
      invariant out == OfGroups(groups[..g])
    {
      assert groups[..g + 1][..g] == groups[..g];
      var pairs := PairsOf(groups[g].members);
      var part: seq<Primitive> := [];
      for k := 0 to |pairs|
        invariant part == OfPairs(pairs[..k])
      {
        assert pairs[..k + 1][..k] == pairs[..k];
        part := part + OfPair(pairs[k]);
      }
      assert pairs[..|pairs|] == pairs;
      out := out + part;
    }
    assert groups[..|groups|] == groups;
  }

  method PerGroup(groups: seq<ScaleGroup>) returns (out: seq<Primitive>)
    ensures out == OfStacks(groups)
  {
    hide Permutations;
    out := [];
    for g := 0 to |groups|
      invariant out == OfStacks(groups[..g])
    {
      assert groups[..g + 1][..g] == groups[..g];
      var group := groups[g];
      var part: seq<Primitive> := [];
      if |group.members| >= 3 {
        var orders := Permutations(group.members);
        for k := 0 to |orders|
          invariant part == StacksOf(group)[..k]
        {
          part := part + [Stack(group.scale, orders[k])];
        }
      }
      out := out + part;
    }
    assert groups[..|groups|] == groups;
  }

  method PerPrice(series: seq<Line>) returns (out: seq<Primitive>)
    ensures out == OfPrices(PricesOf(series), series)
  {
    hide PricesOf;
    out := [];
    var prices := PriceLines(series);
    for i := 0 to |prices|
      invariant out == OfPrices(prices[..i], series)
    {
      assert prices[..i + 1][..i] == prices[..i];
      var part := PerOscillator(prices[i], series);
      out := out + part;
    }
    assert prices[..|prices|] == prices;
  }

  method PriceLines(series: seq<Line>) returns (prices: seq<Line>)
    ensures prices == PricesOf(series)
  {
    prices := [];
    for i := 0 to |series|
      invariant prices == PricesOf(series[..i])
    {
      assert series[..i + 1][..i] == series[..i];
      if series[i].isPrice { prices := prices + [series[i]]; }
    }
    assert series[..|series|] == series;
  }

  method PerOscillator(price: Line, series: seq<Line>) returns (out: seq<Primitive>)
    ensures out == OfDivergences(price, series)
  {
    out := [];
    for k := 0 to |series|
      invariant out == OfDivergences(price, series[..k])
    {
      assert series[..k + 1][..k] == series[..k];
      var line := series[k];
      if line.scale == price.scale || !Oscillates(line.scale) {
        continue;
      }
      out := out + [Divergence(price, line, false, true), Divergence(price, line, false, false),
                    Divergence(price, line, true, true), Divergence(price, line, true, false)];
    }
    assert series[..|series|] == series;
  }

  // --- what is generated --------------------------------------------------------------

  /** The statements the lines support. */
  predicate Supported(p: Primitive, series: seq<Line>) {
    match p
    case Slope(line, _) => line in series
    case Turn(line, _) => line in series
    case Extreme(line, _) => line in series
    case OnSide(line, level, _) => line in series && level in ScaleLevels(line.scale)
    case LevelCross(line, level, _) => line in series && level in ScaleLevels(line.scale)
    case Position(left, right, _) => Comparable(left, right, series)
    case PairCross(left, right, _) => Comparable(left, right, series)
    case Spread(left, right, _) => Comparable(left, right, series)
    case Stack(scale, order) => |order| >= 3 && multiset(order) == multiset(MembersOf(series, scale))
    case Divergence(price, other, _, _) =>
      price in series && price.isPrice && other in series && other.scale != price.scale && Oscillates(other.scale)
  }

  /** Two lines of one scale, the left one added first. */
  predicate Comparable(left: Line, right: Line, series: seq<Line>) {
    left.scale == right.scale && Selects([left, right], MembersOf(series, left.scale))
  }

  lemma SplitLast<T>(s: seq<T>, x: T)
    requires |s| > 0
    ensures x in s <==> x in s[..|s| - 1] || x == s[|s| - 1]
  {
    assert s == s[..|s| - 1] + [s[|s| - 1]];
  }

  lemma {:induction false} InLevels(line: Line, levels: seq<real>, p: Primitive)
    ensures p in OfLevels(line, levels) <==> (p.OnSide? || p.LevelCross?) && p.line == line && p.level in levels
  {
    if |levels| > 0 {
      InLevels(line, levels[..|levels| - 1], p);
      if p.OnSide? || p.LevelCross? { SplitLast(levels, p.level); }
    }
  }

  predicate OneLine(p: Primitive) {
    p.Slope? || p.Turn? || p.Extreme? || p.OnSide? || p.LevelCross?
  }

  lemma InLine(line: Line, p: Primitive)
    ensures p in OfLine(line) <==>
      OneLine(p) && p.line == line && (p.OnSide? || p.LevelCross? ==> p.level in ScaleLevels(line.scale))
  {
    InLevels(line, ScaleLevels(line.scale), p);
    hide ScaleLevels, OfLevels;
  }

  lemma {:induction false} InLines(series: seq<Line>, p: Primitive)
    ensures p in OfLines(series) <==> OneLine(p) && Supported(p, series)
  {
    hide OfLine, ScaleLevels;
    if |series| > 0 {
      InLines(series[..|series| - 1], p);
      InLine(series[|series| - 1], p);
      if OneLine(p) { SplitLast(series, p.line); }
    }
  }

  predicate TwoLines(p: Primitive) {
    p.Position? || p.PairCross? || p.Spread?
  }

  lemma {:induction false} InPairs(pairs: seq<seq<Line>>, p: Primitive)
    requires forall i :: 0 <= i < |pairs| ==> |pairs[i]| == 2
    ensures p in OfPairs(pairs) <==> TwoLines(p) && [p.left, p.right] in pairs
  {
    if |pairs| > 0 {
      InPairs(pairs[..|pairs| - 1], p);
      var last := pairs[|pairs| - 1];
      assert last == [last[0], last[1]];
      if TwoLines(p) { SplitLast(pairs, [p.left, p.right]); }
    }
  }

  lemma {:induction false} InGroups(groups: seq<ScaleGroup>, p: Primitive)
    ensures p in OfGroups(groups) <==> TwoLines(p) && exists i :: 0 <= i < |groups| && Selects([p.left, p.right], groups[i].members)
  {
    hide OfPairs, PairsOf, Selects;
    if |groups| > 0 {
      var front, last := groups[..|groups| - 1], groups[|groups| - 1];
      InGroups(front, p);
      InPairs(PairsOf(last.members), p);
      if TwoLines(p) {
        PairIsCombination(last.members, p.left, p.right);
        if p in OfGroups(front) {
          var i :| 0 <= i < |front| && Selects([p.left, p.right], front[i].members);
          assert groups[i] == front[i];
        }
        if i :| 0 <= i < |groups| && Selects([p.left, p.right], groups[i].members) {
          if i < |front| { assert front[i] == groups[i]; }
        }
      }
    }
  }

  lemma PairIsCombination(members: seq<Line>, left: Line, right: Line)
    ensures [left, right] in PairsOf(members) <==> Selects([left, right], members)
  {
    CombinationsAreSelections(members, 2, [left, right]);
  }

  predicate HasGroup(groups: seq<ScaleGroup>, scale: Scale, order: seq<Line>) {
    exists i :: 0 <= i < |groups| && groups[i].scale == scale && multiset(groups[i].members) == multiset(order)
  }

  lemma {:induction false} InStacks(groups: seq<ScaleGroup>, p: Primitive)
    ensures p in OfStacks(groups) <==> p.Stack? && |p.order| >= 3 && HasGroup(groups, p.scale, p.order)
  {
    hide StacksOf;
    if |groups| > 0 {
      var front, last := groups[..|groups| - 1], groups[|groups| - 1];
      InStacks(front, p);
      InStack(last, p);
      if p.Stack? {
        if p in OfStacks(front) {
          var i :| 0 <= i < |front| && front[i].scale == p.scale && multiset(front[i].members) == multiset(p.order);
          assert groups[i] == front[i];
        }
        if i :| 0 <= i < |groups| && groups[i].scale == p.scale && multiset(groups[i].members) == multiset(p.order) {
          if i < |front| { assert front[i] == groups[i]; }
        }
      }
    }
  }

  lemma InStack(group: ScaleGroup, p: Primitive)
    ensures p in StacksOf(group) <==>
      p.Stack? && |p.order| >= 3 && p.scale == group.scale && multiset(p.order) == multiset(group.members)
  {
    hide Permutations;
    var orders := Permutations(group.members);
    if p.Stack? && multiset(p.order) == multiset(group.members) {
      RearrangementIsPermutation(group.members, p.order);
      assert |multiset(p.order)| == |p.order| && |multiset(group.members)| == |group.members|;
      if |p.order| >= 3 && p.scale == group.scale {
        var i :| 0 <= i < |orders| && orders[i] == p.order;
        assert StacksOf(group)[i] == p;
      }
    }
    if p in StacksOf(group) {
      var i :| 0 <= i < |orders| && p == Stack(group.scale, orders[i]);
      PermutationIsRearrangement(group.members, orders[i]);
      assert |multiset(p.order)| == |p.order| && |multiset(group.members)| == |group.members|;
    }
  }

  lemma {:induction false} InDivergences(price: Line, series: seq<Line>, p: Primitive)
    ensures p in OfDivergences(price, series) <==>
      p.Divergence? && p.price == price && p.other in series && p.other.scale != price.scale && Oscillates(p.other.scale)
  {
    if |series| > 0 {
      InDivergences(price, series[..|series| - 1], p);
      if p.Divergence? { SplitLast(series, p.other); }
    }
  }

  lemma {:induction false} InPricesOf(series: seq<Line>, line: Line)
    ensures line in PricesOf(series) <==> line in series && line.isPrice
  {
    if |series| > 0 {
      InPricesOf(series[..|series| - 1], line);
      SplitLast(series, line);
    }
  }

  lemma {:induction false} InPrices(prices: seq<Line>, series: seq<Line>, p: Primitive)
    ensures p in OfPrices(prices, series) <==>
      p.Divergence? && p.price in prices && p.other in series && p.other.scale != p.price.scale && Oscillates(p.other.scale)
  {
    hide OfDivergences;
    if |prices| > 0 {
      InPrices(prices[..|prices| - 1], series, p);
      InDivergences(prices[|prices| - 1], series, p);
      if p.Divergence? { SplitLast(prices, p.price); }
    }
  }

  lemma {:induction false} InMembers(series: seq<Line>, scale: Scale, line: Line)
    ensures line in MembersOf(series, scale) <==> line in series && line.scale == scale
  {
    if |series| > 0 {
      InMembers(series[..|series| - 1], scale, line);
      SplitLast(series, line);
    }
  }

  lemma {:induction false} InScales(series: seq<Line>, scale: Scale)
    ensures scale in ScalesOf(series) <==> |MembersOf(series, scale)| > 0
  {
    if |series| > 0 { InScales(series[..|series| - 1], scale); }
  }

  /** The groups split the lines: one group a scale present, holding that scale's lines in order. */
  lemma GroupOf(series: seq<Line>, scale: Scale)
    ensures |MembersOf(series, scale)| > 0 <==> exists i :: 0 <= i < |Groups(series)| && Groups(series)[i].scale == scale
    ensures forall i :: 0 <= i < |Groups(series)| ==> Groups(series)[i].members == MembersOf(series, Groups(series)[i].scale)
  {
    hide ScalesOf, MembersOf;
    InScales(series, scale);
    var scales := ScalesOf(series);
    if scale in scales {
      var i :| 0 <= i < |scales| && scales[i] == scale;
      assert Groups(series)[i].scale == scale;
    }
  }

  lemma PairInGroup(series: seq<Line>, p: Primitive)
    requires TwoLines(p)
    ensures Supported(p, series) <==> p in OfGroups(Groups(series))
  {
    hide OfGroups, Groups, Selects, MembersOf;
    var groups := Groups(series);
    InGroups(groups, p);
    GroupOf(series, p.left.scale);
    if Comparable(p.left, p.right, series) {
      SelectedAreElements([p.left, p.right], MembersOf(series, p.left.scale));
      var i :| 0 <= i < |groups| && groups[i].scale == p.left.scale;
      assert Selects([p.left, p.right], groups[i].members);
    }
    if i :| 0 <= i < |groups| && Selects([p.left, p.right], groups[i].members) {
      SelectedAreElements([p.left, p.right], groups[i].members);
      assert p.left in Elements([p.left, p.right]) && p.right in Elements([p.left, p.right]);
      InMembers(series, groups[i].scale, p.left);
      InMembers(series, groups[i].scale, p.right);
    }
  }

  lemma StackInGroup(series: seq<Line>, p: Primitive)
    requires p.Stack?
    ensures Supported(p, series) <==> p in OfStacks(Groups(series))
  {
    hide OfStacks, Groups, MembersOf;
    var groups := Groups(series);
    InStacks(groups, p);
    GroupOf(series, p.scale);
    assert |multiset(p.order)| == |p.order| && |multiset(MembersOf(series, p.scale))| == |MembersOf(series, p.scale)|;
  }

  /** A primitive is generated exactly when the lines support it. */
  lemma BuiltIsSupported(series: seq<Line>, p: Primitive)
    ensures p in Build(series) <==> Supported(p, series)
  {
    hide OfLines, OfGroups, OfStacks, OfPrices, Groups, PricesOf, Comparable, MembersOf, ScaleLevels, Oscillates;
    InLines(series, p);
    InGroups(Groups(series), p);
    InStacks(Groups(series), p);
    InPrices(PricesOf(series), series, p);
    if TwoLines(p) { PairInGroup(series, p); }
    if p.Stack? { StackInGroup(series, p); }
    if p.Divergence? { InPricesOf(series, p.price); }
  }

  // --- each once -------------------------------------------------------------------------

  lemma AppendDistinct<T>(a: seq<T>, b: seq<T>)
    requires Distinct(a) && Distinct(b) && forall x :: x in b ==> x !in a
    ensures Distinct(a + b)
  {
    forall i, j | 0 <= i < j < |a + b| ensures (a + b)[i] != (a + b)[j] {
      if j < |a| { assert a[i] != a[j]; } else { assert (a + b)[j] in b; }
    }
  }

  lemma FrontDistinct<T>(s: seq<T>)
    requires Distinct(s) && |s| > 0
    ensures Distinct(s[..|s| - 1]) && s[|s| - 1] !in s[..|s| - 1]
  {
  }

  lemma {:induction false} LevelsOnce(line: Line, levels: seq<real>)
    requires Distinct(levels)
    ensures Distinct(OfLevels(line, levels))
  {
    if |levels| > 0 {
      FrontDistinct(levels);
      LevelsOnce(line, levels[..|levels| - 1]);
      var part := OfLevelLine(line, levels[|levels| - 1]);
      forall p | p in part ensures p !in OfLevels(line, levels[..|levels| - 1]) {
        InLevels(line, levels[..|levels| - 1], p);
      }
      AppendDistinct(OfLevels(line, levels[..|levels| - 1]), OfLevelLine(line, levels[|levels| - 1]));
    }
  }

  lemma LineOnce(line: Line)
    ensures Distinct(OfLine(line))
  {
    var plain := [Slope(line, true), Slope(line, false), Turn(line, true), Turn(line, false), Extreme(line, true), Extreme(line, false)];
    var levels := ScaleLevels(line.scale);
    LevelsOnce(line, levels);
    forall p | p in OfLevels(line, levels) ensures p !in plain { InLevels(line, levels, p); }
    AppendDistinct(plain, OfLevels(line, levels));
    hide ScaleLevels, OfLevels;
  }

  lemma {:induction false} LinesOnce(series: seq<Line>)
    requires Distinct(series)
    ensures Distinct(OfLines(series))
  {
    hide OfLine;
    if |series| > 0 {
      var front, last := series[..|series| - 1], series[|series| - 1];
      FrontDistinct(series);
      LinesOnce(front);
      LineOnce(last);
      forall p | p in OfLine(last) ensures p !in OfLines(front) {
        InLine(last, p);
        InLines(front, p);
      }
      AppendDistinct(OfLines(front), OfLine(last));
    }
  }

  lemma {:induction false} PairsOnce(pairs: seq<seq<Line>>)
    requires Distinct(pairs) && forall i :: 0 <= i < |pairs| ==> |pairs[i]| == 2
    ensures Distinct(OfPairs(pairs))
  {
    if |pairs| > 0 {
      var front, last := pairs[..|pairs| - 1], pairs[|pairs| - 1];
      FrontDistinct(pairs);
      PairsOnce(front);
      assert last == [last[0], last[1]];
      forall p | p in OfPair(last) ensures p !in OfPairs(front) { InPairs(front, p); }
      AppendDistinct(OfPairs(front), OfPair(last));
    }
  }

  /** Groups of distinct scales, each holding lines of its scale once. */
  predicate Separate(groups: seq<ScaleGroup>) {
    && (forall i :: 0 <= i < |groups| ==> Distinct(groups[i].members))
    && (forall i, l :: 0 <= i < |groups| && l in groups[i].members ==> l.scale == groups[i].scale)
    && (forall i, j :: 0 <= i < j < |groups| ==> groups[i].scale != groups[j].scale)
  }

  lemma FrontSeparate(groups: seq<ScaleGroup>)
    requires Separate(groups) && |groups| > 0
    ensures Separate(groups[..|groups| - 1])
    ensures forall i :: 0 <= i < |groups| - 1 ==> groups[i].scale != groups[|groups| - 1].scale
  {
    hide Distinct;
  }

  lemma SelectedScale(pair: seq<Line>, group: ScaleGroup)
    requires |pair| == 2 && Selects(pair, group.members) && forall l :: l in group.members ==> l.scale == group.scale
    ensures pair[0].scale == group.scale
  {
    SelectedAreElements(pair, group.members);
    assert pair[0] in Elements(pair);
  }

  lemma {:induction false} GroupsOnce(groups: seq<ScaleGroup>)
    requires Separate(groups)
    ensures Distinct(OfGroups(groups))
  {
    hide OfPairs, Separate, Selects;
    if |groups| > 0 {
      var front, last := groups[..|groups| - 1], groups[|groups| - 1];
      FrontSeparate(groups);
      GroupsOnce(front);
      SeparateAt(groups, |groups| - 1);
      CombinationsDistinct(last.members, 2);
      PairsOnce(PairsOf(last.members));
      forall p | p in OfPairs(PairsOf(last.members)) ensures p !in OfGroups(front) {
        InPairs(PairsOf(last.members), p);
        PairIsCombination(last.members, p.left, p.right);
        SelectedScale([p.left, p.right], last);
        InGroups(front, p);
        forall i | 0 <= i < |front| ensures !Selects([p.left, p.right], front[i].members) {
          SeparateAt(front, i);
          if Selects([p.left, p.right], front[i].members) { SelectedScale([p.left, p.right], front[i]); }
        }
      }
      AppendDistinct(OfGroups(front), OfPairs(PairsOf(last.members)));
    }
  }

  lemma SeparateAt(groups: seq<ScaleGroup>, i: nat)
    requires Separate(groups) && i < |groups|
    ensures Distinct(groups[i].members) && forall l :: l in groups[i].members ==> l.scale == groups[i].scale
  {
  }

  lemma StackOnce(group: ScaleGroup)
    requires Distinct(group.members)
    ensures Distinct(StacksOf(group))
  {
    PermutationsDistinct(group.members);
    hide Permutations;
  }

  lemma {:induction false} StacksOnce(groups: seq<ScaleGroup>)
    requires Separate(groups)
    ensures Distinct(OfStacks(groups))
  {
    hide StacksOf, Separate;
    if |groups| > 0 {
      var front, last := groups[..|groups| - 1], groups[|groups| - 1];
      FrontSeparate(groups);
      StacksOnce(front);
      SeparateAt(groups, |groups| - 1);
      StackOnce(last);
      forall p | p in StacksOf(last) ensures p !in OfStacks(front) {
        InStack(last, p);
        InStacks(front, p);
      }
      AppendDistinct(OfStacks(front), StacksOf(last));
    }
  }

  lemma {:induction false} DivergencesOnce(price: Line, series: seq<Line>)
    requires Distinct(series)
    ensures Distinct(OfDivergences(price, series))
  {
    if |series| > 0 {
      var front, last := series[..|series| - 1], series[|series| - 1];
      FrontDistinct(series);
      DivergencesOnce(price, front);
      var part := if last.scale == price.scale || !Oscillates(last.scale) then []
                  else [Divergence(price, last, false, true), Divergence(price, last, false, false),
                        Divergence(price, last, true, true), Divergence(price, last, true, false)];
      forall p | p in part ensures p !in OfDivergences(price, front) { InDivergences(price, front, p); }
      AppendDistinct(OfDivergences(price, front), part);
    }
  }

  lemma {:induction false} PricesOnce(prices: seq<Line>, series: seq<Line>)
    requires Distinct(prices) && Distinct(series)
    ensures Distinct(OfPrices(prices, series))
  {
    hide OfDivergences;
    if |prices| > 0 {
      var front, last := prices[..|prices| - 1], prices[|prices| - 1];
      FrontDistinct(prices);
      PricesOnce(front, series);
      DivergencesOnce(last, series);
      forall p | p in OfDivergences(last, series) ensures p !in OfPrices(front, series) {
        InDivergences(last, series, p);
        InPrices(front, series, p);
      }
      AppendDistinct(OfPrices(front, series), OfDivergences(last, series));
    }
  }

  lemma {:induction false} MembersDistinct(series: seq<Line>, scale: Scale)
    requires Distinct(series)
    ensures Distinct(MembersOf(series, scale))
  {
    if |series| > 0 {
      FrontDistinct(series);
      MembersDistinct(series[..|series| - 1], scale);
      InMembers(series[..|series| - 1], scale, series[|series| - 1]);
    }
  }

  lemma {:induction false} PricesDistinct(series: seq<Line>)
    requires Distinct(series)
    ensures Distinct(PricesOf(series))
  {
    if |series| > 0 {
      FrontDistinct(series);
      PricesDistinct(series[..|series| - 1]);
      InPricesOf(series[..|series| - 1], series[|series| - 1]);
    }
  }

  lemma {:induction false} ScalesDistinct(series: seq<Line>)
    ensures Distinct(ScalesOf(series))
  {
    if |series| > 0 { ScalesDistinct(series[..|series| - 1]); }
  }

  lemma GroupsSeparate(series: seq<Line>)
    requires Distinct(series)
    ensures Separate(Groups(series))
  {
    hide MembersOf, ScalesOf;
    ScalesDistinct(series);
    var groups := Groups(series);
    forall i | 0 <= i < |groups| ensures Distinct(groups[i].members) { MembersDistinct(series, groups[i].scale); }
    forall i, l | 0 <= i < |groups| && l in groups[i].members ensures l.scale == groups[i].scale {
      InMembers(series, groups[i].scale, l);
    }
  }

  /** From lines that are all different, every primitive is generated once. */
  lemma BuiltOnce(series: seq<Line>)
    requires Distinct(series)
    ensures Distinct(Build(series))
  {
    hide *;
    GroupsSeparate(series);
    PricesDistinct(series);
    LinesOnce(series);
    GroupsOnce(Groups(series));
    StacksOnce(Groups(series));
    PricesOnce(PricesOf(series), series);
    var lines, pairs, stacks := OfLines(series), OfGroups(Groups(series)), OfStacks(Groups(series));
    var divergences := OfPrices(PricesOf(series), series);
    BuildParts(series);
    forall p | p in pairs ensures p !in lines { KindOfPart(series, p); }
    AppendDistinct(lines, pairs);
    forall p | p in stacks ensures p !in lines + pairs { KindOfPart(series, p); }
    AppendDistinct(lines + pairs, stacks);
    forall p | p in divergences ensures p !in lines + pairs + stacks { KindOfPart(series, p); }
    AppendDistinct(lines + pairs + stacks, divergences);
  }

  /** The four parts hold statements of different kinds. */
  lemma KindOfPart(series: seq<Line>, p: Primitive)
    ensures p in OfGroups(Groups(series)) ==> p !in OfLines(series)
    ensures p in OfStacks(Groups(series)) ==> p !in OfLines(series) && p !in OfGroups(Groups(series))
    ensures p in OfPrices(PricesOf(series), series) ==>
      p !in OfLines(series) && p !in OfGroups(Groups(series)) && p !in OfStacks(Groups(series))
  {
    hide OfLines, OfGroups, OfStacks, OfPrices, Groups, PricesOf, Supported;
    InLines(series, p);
    InGroups(Groups(series), p);
    InStacks(Groups(series), p);
    InPrices(PricesOf(series), series, p);
  }

  // --- how many -----------------------------------------------------------------------

  function LevelCount(series: seq<Line>): nat {
    if |series| == 0 then 0 else LevelCount(series[..|series| - 1]) + |ScaleLevels(series[|series| - 1].scale)|
  }

  function PairCount(groups: seq<ScaleGroup>): nat {
    if |groups| == 0 then 0 else PairCount(groups[..|groups| - 1]) + Choose(|groups[|groups| - 1].members|, 2)
  }

  function StackCount(groups: seq<ScaleGroup>): nat {
    if |groups| == 0 then 0
    else
      var n := |groups[|groups| - 1].members|;
      StackCount(groups[..|groups| - 1]) + if n < 3 then 0 else Factorial(n)
  }

  /** The lines price can diverge from. */
  function Oscillators(price: Line, series: seq<Line>): nat {
    if |series| == 0 then 0
    else
      var line := series[|series| - 1];
      Oscillators(price, series[..|series| - 1]) + if line.scale == price.scale || !Oscillates(line.scale) then 0 else 1
  }

  function DivergenceCount(prices: seq<Line>, series: seq<Line>): nat {
    if |prices| == 0 then 0
    else DivergenceCount(prices[..|prices| - 1], series) + Oscillators(prices[|prices| - 1], series)
  }

  lemma {:induction false} LevelsSize(line: Line, levels: seq<real>)
    ensures |OfLevels(line, levels)| == 4 * |levels|
  {
    if |levels| > 0 { LevelsSize(line, levels[..|levels| - 1]); }
  }

  lemma {:induction false} LinesSize(series: seq<Line>)
    ensures |OfLines(series)| == 6 * |series| + 4 * LevelCount(series)
  {
    hide ScaleLevels, OfLevels;
    if |series| > 0 {
      LinesSize(series[..|series| - 1]);
      LevelsSize(series[|series| - 1], ScaleLevels(series[|series| - 1].scale));
    }
  }

  lemma {:induction false} PairsSize(pairs: seq<seq<Line>>)
    requires forall i :: 0 <= i < |pairs| ==> |pairs[i]| == 2
    ensures |OfPairs(pairs)| == 6 * |pairs|
  {
    if |pairs| > 0 { PairsSize(pairs[..|pairs| - 1]); }
  }

  lemma {:induction false} GroupsSize(groups: seq<ScaleGroup>)
    ensures |OfGroups(groups)| == 6 * PairCount(groups)
  {
    hide OfPairs, Choose;
    if |groups| > 0 {
      var members := groups[|groups| - 1].members;
      GroupsSize(groups[..|groups| - 1]);
      PairsSize(PairsOf(members));
      CombinationsCount(members, 2);
    }
  }

  lemma {:induction false} StacksSize(groups: seq<ScaleGroup>)
    ensures |OfStacks(groups)| == StackCount(groups)
  {
    hide Permutations, Factorial;
    if |groups| > 0 {
      StacksSize(groups[..|groups| - 1]);
      PermutationsCount(groups[|groups| - 1].members);
    }
  }

  lemma {:induction false} DivergencesSize(price: Line, series: seq<Line>)
    ensures |OfDivergences(price, series)| == 4 * Oscillators(price, series)
  {
    if |series| > 0 { DivergencesSize(price, series[..|series| - 1]); }
  }

  lemma {:induction false} PricesSize(prices: seq<Line>, series: seq<Line>)
    ensures |OfPrices(prices, series)| == 4 * DivergenceCount(prices, series)
  {
    hide OfDivergences, Oscillators;
    if |prices| > 0 {
      PricesSize(prices[..|prices| - 1], series);
      DivergencesSize(prices[|prices| - 1], series);
    }
  }

  /** The reference count: six a line and four a level, six a pair of one scale, every ordering of a scale
      with three lines or more, and four a price and oscillator.
    */
  lemma BuiltCount(series: seq<Line>)
    ensures |Build(series)| == 6 * |series| + 4 * LevelCount(series) + 6 * PairCount(Groups(series))
      + StackCount(Groups(series)) + 4 * DivergenceCount(PricesOf(series), series)
  {
    hide *;
    BuildParts(series);
    LinesSize(series);
    GroupsSize(Groups(series));
    StacksSize(Groups(series));
    PricesSize(PricesOf(series), series);
  }

  // --- the catalogue ----------------------------------------------------------------

  /** The kinds that can open a trade, and the levels and oscillators of each scale. */
  lemma KindsMean(p: Primitive)
    ensures p.IsTrigger() <==> p.Turn? || p.Extreme? || p.LevelCross? || p.PairCross? || p.Divergence?
    ensures !p.IsTrigger() <==> p.Slope? || p.OnSide? || p.Position? || p.Spread? || p.Stack?
  {
  }

  lemma ScalesMean(scale: Scale)
    ensures ScaleLevels(scale) ==
      if scale == Bounded100 then [30.0, 50.0, 70.0] else if scale == Centered0 then [0.0]
      else if scale == Centered1 then [1.0] else if scale == Centered100 then [-100.0, 0.0, 100.0] else []
    ensures Oscillates(scale) <==> scale !in {Price, Volatility, Volume}
  {
  }

  /** Two statements compete when they are about one slope, level, pair or group: a turn counts as its line's slope,
      a crossing as its level or pair, and every order of a scale as one.
    */
  predicate Compete(p: Primitive, q: Primitive) {
    if p.Slope? || p.Turn? then (q.Slope? || q.Turn?) && p.line.key == q.line.key
    else if p.Extreme? then q.Extreme? && p.line.key == q.line.key
    else if p.OnSide? || p.LevelCross? then (q.OnSide? || q.LevelCross?) && p.line.key == q.line.key && p.level == q.level
    else if p.Position? || p.PairCross? then
      (q.Position? || q.PairCross?) && p.left.key == q.left.key && p.right.key == q.right.key
    else if p.Spread? then q.Spread? && p.left.key == q.left.key && p.right.key == q.right.key
    else if p.Stack? then q.Stack? && p.scale == q.scale
    else q.Divergence? && p.price.key == q.price.key && p.other.key == q.other.key && p.hidden == q.hidden && p.bullish == q.bullish
  }

  lemma SubjectsMean(p: Primitive, q: Primitive)
    ensures p.Subject() == q.Subject() <==> Compete(p, q)
  {
  }

  /** The chips a statement draws on, and those among them that are indicators. */
  lemma SourcesMean(p: Primitive, source: string)
    ensures source in p.Sources() <==> exists line :: line in p.Lines() && line.source == source
    ensures source in p.IndicatorSources() <==> exists line :: line in p.Lines() && line.source == source && !line.isPrice
    ensures p.Lines() ==
      if p.Stack? then p.order
      else if p.Divergence? then [p.price, p.other]
      else if p.Position? || p.PairCross? || p.Spread? then [p.left, p.right]
      else [p.line]
  {
  }
}
