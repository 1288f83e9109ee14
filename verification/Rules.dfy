/** Rule enumeration (packages/engine/quanta_engine/discover/rules.py). */
module Rules {
  import opened Wrappers
  import opened Combinatorics
  import opened Primitives

  const MAX_FILTERS := 2

  datatype Rule = Rule(trigger: Primitive, filters: seq<Primitive>) {
    function Sources(): set<string> {
      trigger.Sources() + set f, s | f in filters && s in f.Sources() :: s
    }

    function IndicatorSources(): set<string> {
      trigger.IndicatorSources() + set f, s | f in filters && s in f.IndicatorSources() :: s
    }

    /** Filters are unordered, so a rule is its trigger and the set of its filters. */
    function Key(): (Primitive, set<Primitive>) {
      (trigger, Elements(filters))
    }
  }

  function SubjectsOf(items: seq<Primitive>): (r: seq<Subject>)
    ensures |r| == |items|
  {
    seq(|items|, i requires 0 <= i < |items| => items[i].Subject())
  }

  /** No subject is spoken of twice. */
  predicate Compatible(items: seq<Primitive>) {
    Distinct(SubjectsOf(items))
  }

  datatype Options = Options(maxFilters: int, mixIndicators: bool, require: set<string>)

  predicate Wanted(r: Rule, options: Options) {
    (options.mixIndicators ==> |r.IndicatorSources()| >= 2) && options.require <= r.Sources()
  }

  // --- the generator ---------------------------------------------------------------

  function TriggersOf(primitives: seq<Primitive>): seq<Primitive> {
    if |primitives| == 0 then []
    else if primitives[0].IsTrigger() then [primitives[0]] + TriggersOf(primitives[1..]) else TriggersOf(primitives[1..])
  }

  function FiltersOf(primitives: seq<Primitive>): seq<Primitive> {
    if |primitives| == 0 then []
    else if primitives[0].IsTrigger() then FiltersOf(primitives[1..]) else [primitives[0]] + FiltersOf(primitives[1..])
  }

  /** The filters that are not over the trigger's own subject. */
  function Usable(filters: seq<Primitive>, trigger: Primitive): seq<Primitive> {
    if |filters| == 0 then []
    else if filters[0].Subject() != trigger.Subject() then [filters[0]] + Usable(filters[1..], trigger)
    else Usable(filters[1..], trigger)
  }

  function Keep(trigger: Primitive, choices: seq<seq<Primitive>>, options: Options): seq<Rule> {
    if |choices| == 0 then []
    else
      var before, rule := Keep(trigger, choices[..|choices| - 1], options), Rule(trigger, choices[|choices| - 1]);
      if Compatible(rule.filters) && Wanted(rule, options) then before + [rule] else before
  }

  function OfTrigger(trigger: Primitive, usable: seq<Primitive>, sizes: nat, options: Options): seq<Rule> {
    if sizes == 0 then []
    else OfTrigger(trigger, usable, sizes - 1, options) + Keep(trigger, Combinations(usable, sizes - 1), options)
  }

  function SizesUpTo(maxFilters: int): nat {
    if maxFilters < 0 then 0 else maxFilters + 1
  }

  function OfTriggers(triggers: seq<Primitive>, filters: seq<Primitive>, options: Options): seq<Rule> {
    if |triggers| == 0 then []
    else
      var trigger := triggers[|triggers| - 1];
      OfTriggers(triggers[..|triggers| - 1], filters, options) +
      OfTrigger(trigger, Usable(filters, trigger), SizesUpTo(options.maxFilters), options)
  }

  function Enumerated(primitives: seq<Primitive>, options: Options): seq<Rule> {
    OfTriggers(TriggersOf(primitives), FiltersOf(primitives), options)
  }

  /** The generator, run to its end. */
  method EnumerateRules(primitives: seq<Primitive>, options: Options) returns (rules: seq<Rule>)
    ensures rules == Enumerated(primitives, options)
  {
    hide TriggersOf, FiltersOf, Usable, Wanted, Combinations, Keep;
    var triggers, filters := TriggersOf(primitives), FiltersOf(primitives);
    rules := [];
    for t := 0 to |triggers|
      invariant rules == OfTriggers(triggers[..t], filters, options)
    {
      assert triggers[..t + 1][..t] == triggers[..t];
      var usable := Usable(filters, triggers[t]);
      var part: seq<Rule> := [];
      for count := 0 to SizesUpTo(options.maxFilters)
        invariant part == OfTrigger(triggers[t], usable, count, options)
      {
        var chosen := Choices(triggers[t], Combinations(usable, count), options);
        part := part + chosen;
      }
      rules := rules + part;
    }
    assert triggers[..|triggers|] == triggers;
  }

  method Choices(trigger: Primitive, choices: seq<seq<Primitive>>, options: Options) returns (rules: seq<Rule>)
    ensures rules == Keep(trigger, choices, options)
  {
    rules := [];
    for k := 0 to |choices|
      invariant rules == Keep(trigger, choices[..k], options)
    {
      assert choices[..k + 1][..k] == choices[..k];
      var rule := Rule(trigger, choices[k]);
      if !Compatible(choices[k]) { continue; }
      if options.mixIndicators && |rule.IndicatorSources()| < 2 { continue; }
      if options.require != {} && !(options.require <= rule.Sources()) { continue; }
      rules := rules + [rule];
    }
    assert choices[..|choices|] == choices;
  }

  // --- counting -----------------------------------------------------------------------

  /** The subsets of one to k of n things. */
  function RawCount(n: nat, k: nat): nat {
    if k == 0 then 0 else RawCount(n, k - 1) + Choose(n, k)
  }

  /** The running product keeps every division exact, so the count is the number of subsets. */
  method CountRawCombinations(primitives: seq<Primitive>, maxSize: int) returns (total: nat)
    ensures total == RawCount(|primitives|, if maxSize < 0 then 0 else maxSize)
  {
    total := 0;
    var n := |primitives|;
    var size := 1;
    while size <= maxSize
      invariant if maxSize < 1 then size == 1 else 1 <= size <= maxSize + 1
      invariant total == RawCount(n, size - 1)
    {
      if size > n {
        RawCountStops(n, size - 1, maxSize);
        break;
      }
      var combinations := 1;
      for i := 0 to size
        invariant combinations == Choose(n, i)
      {
        ChooseStep(n, i);
        Exactly(combinations * (n - i), i + 1, Choose(n, i + 1));
        combinations := combinations * (n - i) / (i + 1);
      }
      total := total + combinations;
      size := size + 1;
    }
  }

  lemma Exactly(product: nat, divisor: nat, quotient: nat)
    requires divisor > 0 && product == quotient * divisor
    ensures product / divisor == quotient
  {
    SameQuotient(divisor, quotient, 0, product / divisor, product % divisor);
  }

  lemma SameQuotient(d: nat, q: int, r: int, q': int, r': int)
    requires d > 0 && q * d + r == q' * d + r' && 0 <= r < d && 0 <= r' < d
    ensures q == q'
  {
    var k := q - q';
    assert k * d == r' - r;
    if k >= 1 { AtLeast(k, d); } else if k <= -1 { AtLeast(-k, d); }
  }

  lemma AtLeast(k: int, d: nat)
    requires k >= 1
    ensures k * d >= d
  {
    assert (k - 1) * d >= 0;
  }

  lemma {:induction false} RawCountStops(n: nat, lo: nat, hi: nat)
    requires n <= lo <= hi
    ensures RawCount(n, hi) == RawCount(n, lo)
    decreases hi
  {
    if lo < hi {
      ChooseBeyond(n, hi);
      RawCountStops(n, lo, hi - 1);
    }
  }

  /** Counting stops one past the limit. */
  method CountRules(primitives: seq<Primitive>, options: Options, limit: Option<nat>) returns (count: nat)
    ensures var total := |Enumerated(primitives, options)|;
      count == if limit.Some? && limit.value < total then limit.value + 1 else total
  {
    var rules := EnumerateRules(primitives, options);
    count := 0;
    while count < |rules| && (limit.None? || count < limit.value + 1)
      invariant count <= |rules| && (limit.Some? ==> count <= limit.value + 1)
    {
      count := count + 1;
    }
  }

  // --- what is enumerated -------------------------------------------------------------

  lemma {:induction false} InTriggers(primitives: seq<Primitive>, p: Primitive)
    ensures p in TriggersOf(primitives) <==> p in primitives && p.IsTrigger()
    ensures p in FiltersOf(primitives) <==> p in primitives && !p.IsTrigger()
  {
    if |primitives| > 0 {
      InTriggers(primitives[1..], p);
      assert primitives == [primitives[0]] + primitives[1..];
    }
  }

  lemma {:induction false} TriggersDistinct(primitives: seq<Primitive>)
    requires Distinct(primitives)
    ensures Distinct(TriggersOf(primitives)) && Distinct(FiltersOf(primitives))
  {
    if |primitives| > 0 {
      TailDistinct(primitives);
      TriggersDistinct(primitives[1..]);
      InTriggers(primitives[1..], primitives[0]);
    }
  }

  lemma {:induction false} UsableIsFilter(filters: seq<Primitive>, trigger: Primitive, c: seq<Primitive>)
    ensures Selects(c, Usable(filters, trigger)) <==>
      Selects(c, filters) && forall k :: 0 <= k < |c| ==> c[k].Subject() != trigger.Subject()
  {
    if |filters| > 0 {
      UsableIsFilter(filters[1..], trigger, c);
      if |c| > 0 {
        UsableIsFilter(filters[1..], trigger, c[1..]);
        assert forall k :: 1 <= k < |c| ==> c[k] == c[1..][k - 1];
      }
    }
  }

  lemma {:induction false} InKeep(trigger: Primitive, choices: seq<seq<Primitive>>, options: Options, r: Rule)
    ensures r in Keep(trigger, choices, options) <==>
      r.trigger == trigger && r.filters in choices && Compatible(r.filters) && Wanted(r, options)
  {
    hide Compatible, Wanted;
    if |choices| > 0 {
      InKeep(trigger, choices[..|choices| - 1], options, r);
      assert choices == choices[..|choices| - 1] + [choices[|choices| - 1]];
    }
  }

  lemma {:induction false} InOfTrigger(trigger: Primitive, usable: seq<Primitive>, sizes: nat, options: Options, r: Rule)
    ensures r in OfTrigger(trigger, usable, sizes, options) <==>
      r.trigger == trigger && |r.filters| < sizes && Selects(r.filters, usable) && Compatible(r.filters) && Wanted(r, options)
  {
    hide Compatible, Wanted, Combinations, Selects, Keep;
    if sizes > 0 {
      InOfTrigger(trigger, usable, sizes - 1, options, r);
      InKeep(trigger, Combinations(usable, sizes - 1), options, r);
      CombinationsAreSelections(usable, sizes - 1, r.filters);
    }
  }

  lemma {:induction false} InOfTriggers(triggers: seq<Primitive>, filters: seq<Primitive>, options: Options, r: Rule)
    ensures r in OfTriggers(triggers, filters, options) <==>
      r.trigger in triggers && r in OfTrigger(r.trigger, Usable(filters, r.trigger), SizesUpTo(options.maxFilters), options)
  {
    hide OfTrigger, Usable;
    if |triggers| > 0 {
      var last := triggers[|triggers| - 1];
      InOfTriggers(triggers[..|triggers| - 1], filters, options, r);
      InOfTrigger(last, Usable(filters, last), SizesUpTo(options.maxFilters), options, r);
      assert triggers == triggers[..|triggers| - 1] + [last];
    }
  }

  /** The rules: a trigger with a selection of filters, all of them over different subjects. */
  predicate Valid(r: Rule, primitives: seq<Primitive>, options: Options) {
    && r.trigger in primitives && r.trigger.IsTrigger()
    && Selects(r.filters, FiltersOf(primitives)) && |r.filters| <= options.maxFilters
    && Compatible([r.trigger] + r.filters) && Wanted(r, options)
  }

  lemma CompatibleWithTrigger(r: Rule)
    ensures Compatible([r.trigger] + r.filters) <==>
      Compatible(r.filters) && forall k :: 0 <= k < |r.filters| ==> r.filters[k].Subject() != r.trigger.Subject()
  {
    var all, rest := SubjectsOf([r.trigger] + r.filters), SubjectsOf(r.filters);
    assert all == [r.trigger.Subject()] + rest;
    if Distinct(all) {
      forall i, j | 0 <= i < j < |rest| ensures rest[i] != rest[j] { assert all[i + 1] != all[j + 1]; }
      forall k | 0 <= k < |r.filters| ensures r.filters[k].Subject() != r.trigger.Subject() { assert all[0] != all[k + 1]; }
    }
  }

  /** Enumeration is exact: a rule is yielded exactly when it is valid. */
  lemma EnumeratedIsValid(primitives: seq<Primitive>, options: Options, r: Rule)
    ensures r in Enumerated(primitives, options) <==> Valid(r, primitives, options)
  {
    hide OfTriggers, OfTrigger, Compatible, Wanted, Usable, Selects, TriggersOf, FiltersOf;
    InOfTriggers(TriggersOf(primitives), FiltersOf(primitives), options, r);
    InOfTrigger(r.trigger, Usable(FiltersOf(primitives), r.trigger), SizesUpTo(options.maxFilters), options, r);
    UsableIsFilter(FiltersOf(primitives), r.trigger, r.filters);
    InTriggers(primitives, r.trigger);
    CompatibleWithTrigger(r);
  }

  // --- each once ----------------------------------------------------------------------

  predicate DistinctKeys(rules: seq<Rule>) {
    forall i, j :: 0 <= i < j < |rules| ==> rules[i].Key() != rules[j].Key()
  }

  lemma AppendKeys(a: seq<Rule>, b: seq<Rule>)
    requires DistinctKeys(a) && DistinctKeys(b) && forall x, y :: x in a && y in b ==> x.Key() != y.Key()
    ensures DistinctKeys(a + b)
  {
    forall i, j | 0 <= i < j < |a + b| ensures (a + b)[i].Key() != (a + b)[j].Key() {
      if j < |a| { assert a[i].Key() != a[j].Key(); }
      else if i < |a| { assert (a + b)[i] in a && (a + b)[j] in b; }
    }
  }

  lemma {:induction false} KeepOnce(trigger: Primitive, choices: seq<seq<Primitive>>, options: Options)
    requires forall i, j :: 0 <= i < j < |choices| ==> Elements(choices[i]) != Elements(choices[j])
    ensures DistinctKeys(Keep(trigger, choices, options))
  {
    hide Compatible, Wanted, Elements;
    if |choices| > 0 {
      var front, last := choices[..|choices| - 1], choices[|choices| - 1];
      KeepOnce(trigger, front, options);
      forall x | x in Keep(trigger, front, options) ensures x.Key() != Rule(trigger, last).Key() {
        InKeep(trigger, front, options, x);
        var i :| 0 <= i < |front| && front[i] == x.filters;
        assert choices[i] == x.filters;
      }
      AppendKeys(Keep(trigger, front, options), [Rule(trigger, last)]);
    }
  }

  lemma ChoicesDiffer(usable: seq<Primitive>, k: nat, i: nat, j: nat)
    requires Distinct(usable) && i < j < |Combinations(usable, k)|
    ensures Elements(Combinations(usable, k)[i]) != Elements(Combinations(usable, k)[j])
  {
    hide Combinations, Elements;
    var all := Combinations(usable, k);
    CombinationsAreSelections(usable, k, all[i]);
    CombinationsAreSelections(usable, k, all[j]);
    CombinationsDistinct(usable, k);
    if Elements(all[i]) == Elements(all[j]) { SelectionIsItsSet(all[i], all[j], usable); }
  }

  lemma {:induction false} OfTriggerOnce(trigger: Primitive, usable: seq<Primitive>, sizes: nat, options: Options)
    requires Distinct(usable)
    ensures DistinctKeys(OfTrigger(trigger, usable, sizes, options))
  {
    hide Combinations, Keep, Distinct, Elements, Selects, Compatible, Wanted, DistinctKeys;
    if sizes == 0 {
      NoKeys();
    } else {
      OfTriggerOnce(trigger, usable, sizes - 1, options);
      var choices := Combinations(usable, sizes - 1);
      forall i, j | 0 <= i < j < |choices| ensures Elements(choices[i]) != Elements(choices[j]) {
        ChoicesDiffer(usable, sizes - 1, i, j);
      }
      KeepOnce(trigger, choices, options);
      var before, now := OfTrigger(trigger, usable, sizes - 1, options), Keep(trigger, choices, options);
      forall x, y | x in before && y in now ensures x.Key() != y.Key() {
        InOfTrigger(trigger, usable, sizes - 1, options, x);
        InKeep(trigger, choices, options, y);
        CombinationsAreSelections(usable, sizes - 1, y.filters);
        if Elements(x.filters) == Elements(y.filters) { SelectionIsItsSet(x.filters, y.filters, usable); }
      }
      AppendKeys(before, now);
    }
  }

  lemma NoKeys()
    ensures DistinctKeys([])
  {
  }

  lemma {:induction false} UsableDistinct(filters: seq<Primitive>, trigger: Primitive)
    requires Distinct(filters)
    ensures Distinct(Usable(filters, trigger)) && forall f :: f in Usable(filters, trigger) ==> f in filters
  {
    if |filters| > 0 {
      TailDistinct(filters);
      UsableDistinct(filters[1..], trigger);
      assert filters == [filters[0]] + filters[1..];
    }
  }

  lemma {:induction false} OfTriggersOnce(triggers: seq<Primitive>, filters: seq<Primitive>, options: Options)
    requires Distinct(triggers) && Distinct(filters)
    ensures DistinctKeys(OfTriggers(triggers, filters, options))
  {
    hide OfTrigger, Usable, DistinctKeys;
    if |triggers| == 0 {
      NoKeys();
    } else {
      var front, last := triggers[..|triggers| - 1], triggers[|triggers| - 1];
      OfTriggersOnce(front, filters, options);
      UsableDistinct(filters, last);
      OfTriggerOnce(last, Usable(filters, last), SizesUpTo(options.maxFilters), options);
      var before, now := OfTriggers(front, filters, options), OfTrigger(last, Usable(filters, last), SizesUpTo(options.maxFilters), options);
      forall x, y | x in before && y in now ensures x.Key() != y.Key() {
        InOfTriggers(front, filters, options, x);
        InOfTrigger(last, Usable(filters, last), SizesUpTo(options.maxFilters), options, y);
      }
      AppendKeys(before, now);
    }
  }

  /** From distinct primitives, no rule is yielded twice, in any order of its filters. */
  lemma EnumeratedOnce(primitives: seq<Primitive>, options: Options)
    requires Distinct(primitives)
    ensures DistinctKeys(Enumerated(primitives, options))
  {
    TriggersDistinct(primitives);
    OfTriggersOnce(TriggersOf(primitives), FiltersOf(primitives), options);
    hide TriggersOf, FiltersOf, OfTriggers, DistinctKeys;
  }

  /** Every trigger and every set of filters the rules allow is there. */
  lemma EverySetIsEnumerated(primitives: seq<Primitive>, options: Options, trigger: Primitive, chosen: set<Primitive>)
    requires Distinct(primitives) && trigger in primitives && trigger.IsTrigger()
    requires forall f :: f in chosen ==> f in primitives && !f.IsTrigger() && f.Subject() != trigger.Subject()
    requires forall f, g :: f in chosen && g in chosen && f != g ==> f.Subject() != g.Subject()
    requires |chosen| <= options.maxFilters
    ensures var r := Rule(trigger, Selection(FiltersOf(primitives), chosen));
      r.Key() == (trigger, chosen) && (r in Enumerated(primitives, options) <==> Wanted(r, options))
  {
    hide Enumerated, Wanted, Selection, Selects;
    var filters := FiltersOf(primitives);
    var r := Rule(trigger, Selection(filters, chosen));
    TriggersDistinct(primitives);
    forall f | f in chosen ensures f in Elements(filters) { InTriggers(primitives, f); }
    SelectionSelects(filters, chosen);
    assert Elements(filters) * chosen == chosen;
    SelectionDistinct(filters, chosen);
    var subjects := SubjectsOf(r.filters);
    forall i, j | 0 <= i < j < |subjects| ensures subjects[i] != subjects[j] {
      assert r.filters[i] in Elements(r.filters) && r.filters[j] in Elements(r.filters);
    }
    forall k | 0 <= k < |r.filters| ensures r.filters[k].Subject() != trigger.Subject() {
      assert r.filters[k] in Elements(r.filters);
    }
    CompatibleWithTrigger(r);
    EnumeratedIsValid(primitives, options, r);
  }

  lemma {:induction false} SelectionDistinct(s: seq<Primitive>, keep: set<Primitive>)
    requires Distinct(s)
    ensures Distinct(Selection(s, keep))
  {
    if |s| > 0 {
      TailDistinct(s);
      SelectionDistinct(s[1..], keep);
      SelectionSelects(s[1..], keep);
      assert s[0] !in Elements(Selection(s[1..], keep));
    }
  }

  // --- what is wanted -------------------------------------------------------------------

  /** A line that one of the rule's statements is about. */
  predicate Touches(r: Rule, line: Line) {
    line in r.trigger.Lines() || exists f :: f in r.filters && line in f.Lines()
  }

  lemma SourcesOfRule(r: Rule, source: string)
    ensures source in r.Sources() <==> exists line :: Touches(r, line) && line.source == source
    ensures source in r.IndicatorSources() <==> exists line :: Touches(r, line) && line.source == source && !line.isPrice
  {
    if source in r.Sources() {
      var f: Primitive :| (f == r.trigger || f in r.filters) && source in f.Sources();
      var line :| line in f.Lines() && line.source == source;
      assert Touches(r, line);
    }
    if source in r.IndicatorSources() {
      var f: Primitive :| (f == r.trigger || f in r.filters) && source in f.IndicatorSources();
      var line :| line in f.Lines() && line.source == source && !line.isPrice;
      assert Touches(r, line);
    }
    if line :| Touches(r, line) && line.source == source {
      var f: Primitive :| (f == r.trigger || f in r.filters) && line in f.Lines();
      assert source in f.Sources();
    }
    if line :| Touches(r, line) && line.source == source && !line.isPrice {
      var f: Primitive :| (f == r.trigger || f in r.filters) && line in f.Lines();
      assert source in f.IndicatorSources();
    }
  }

  /** Asked to mix, a rule must touch lines of two different indicators; and it must touch every chip required. */
  lemma WantedMeans(r: Rule, options: Options)
    ensures Wanted(r, options) <==>
      && (options.mixIndicators ==>
            exists a, b :: Touches(r, a) && Touches(r, b) && !a.isPrice && !b.isPrice && a.source != b.source)
      && forall source :: source in options.require ==> exists line :: Touches(r, line) && line.source == source
  {
    forall source: string
      ensures source in r.Sources() <==> exists line :: Touches(r, line) && line.source == source
      ensures source in r.IndicatorSources() <==> exists line :: Touches(r, line) && line.source == source && !line.isPrice
    {
      SourcesOfRule(r, source);
    }
    hide Touches, Rule.Sources, Rule.IndicatorSources;
    var sources := r.IndicatorSources();
    if |sources| >= 2 {
      var x :| x in sources;
      assert |sources - {x}| >= 1;
      var y :| y in sources - {x};
      var a :| Touches(r, a) && a.source == x && !a.isPrice;
      var b :| Touches(r, b) && b.source == y && !b.isPrice;
      assert a.source != b.source;
    }
    if a, b :| Touches(r, a) && Touches(r, b) && !a.isPrice && !b.isPrice && a.source != b.source {
      TwoMembers(sources, a.source, b.source);
    }
  }

  lemma TwoMembers(s: set<string>, x: string, y: string)
    requires x in s && y in s && x != y
    ensures |s| >= 2
  {
    assert |s - {x}| >= 1 by { assert y in s - {x}; }
  }
}
