/** What pruning leaves out says nothing new: rules.py's pruner against the masks of signals.py. */
module Pruning {
  import opened Wrappers
  import opened Combinatorics
  import opened Primitives
  import opened Generation
  import opened Signals
  import opened Rules

  /** Data for every line, one cell a bar. */
  predicate CoversAll(data: Data, series: seq<Line>, n: nat) {
    forall line :: line in series ==> line.key in data && |data[line.key]| == n
  }

  lemma CoversSupported(data: Data, series: seq<Line>, n: nat, p: Primitive)
    requires CoversAll(data, series, n) && Supported(p, series)
    ensures Covers(data, p, n)
  {
    forall k | 0 <= k < |p.Lines()| ensures p.Lines()[k].key in data && |data[p.Lines()[k].key]| == n {
      SupportedLines(p, series, p.Lines()[k]);
    }
    hide Comparable, MembersOf, ScaleLevels;
  }

  /** Filters the lines support. */
  predicate SupportedFilters(filters: seq<Primitive>, series: seq<Line>) {
    forall k :: 0 <= k < |filters| ==> Supported(filters[k], series) && !filters[k].IsTrigger()
  }

  predicate AllHold(filters: seq<Primitive>, series: seq<Line>, data: Data, n: nat, i: nat)
    requires CoversAll(data, series, n) && SupportedFilters(filters, series) && i < n
  {
    |filters| == 0 ||
    (HoldsFor(filters[0], series, data, n, i) && AllHold(filters[1..], series, data, n, i))
  }

  predicate HoldsFor(p: Primitive, series: seq<Line>, data: Data, n: nat, i: nat)
    requires CoversAll(data, series, n) && Supported(p, series) && i < n
  {
    CoversSupported(data, series, n, p);
    Holds(p, data, n, i)
  }

  /** The mask of a rule at bar i: its trigger and all its filters. */
  predicate RuleHolds(r: Rule, series: seq<Line>, data: Data, n: nat, i: nat)
    requires CoversAll(data, series, n) && Supported(r.trigger, series) && SupportedFilters(r.filters, series) && i < n
  {
    HoldsFor(r.trigger, series, data, n, i) && AllHold(r.filters, series, data, n, i)
  }

  // --- the rule a discarded one comes down to -----------------------------------------

  predicate OnSubject(filters: seq<Primitive>, subject: Subject) {
    exists k :: 0 <= k < |filters| && filters[k].Subject() == subject
  }

  /** Drops what the trigger or another filter already says; None when they contradict. */
  function Reduce(trigger: Primitive, filters: seq<Primitive>): Option<seq<Primitive>> {
    if |filters| == 0 then Some([])
    else
      var f, rest := filters[0], Reduce(trigger, filters[1..]);
      if rest.None? then None
      else if f.Subject() == trigger.Subject() then (if Implies(trigger, f) then rest else None)
      else if f in rest.value then rest
      else if OnSubject(rest.value, f.Subject()) then None
      else Some([f] + rest.value)
  }

  lemma {:induction false} ReduceSelects(trigger: Primitive, filters: seq<Primitive>)
    requires Reduce(trigger, filters).Some?
    ensures var k := Reduce(trigger, filters).value;
      Selects(k, filters) && |k| <= |filters| && (k == filters <==> |k| == |filters|)
  {
    hide OnSubject, Implies;
    if |filters| > 0 {
      ReduceSelects(trigger, filters[1..]);
      var rest := Reduce(trigger, filters[1..]).value;
      assert filters == [filters[0]] + filters[1..];
      assert ([filters[0]] + rest)[1..] == rest;
      SelectsLater(rest, filters);
    }
  }

  lemma SelectsLater(c: seq<Primitive>, s: seq<Primitive>)
    requires |s| > 0 && Selects(c, s[1..])
    ensures Selects(c, s)
  {
  }

  lemma CompatibleCons(f: Primitive, rest: seq<Primitive>)
    ensures Compatible([f] + rest) <==> Compatible(rest) && !OnSubject(rest, f.Subject())
  {
    var all, others := SubjectsOf([f] + rest), SubjectsOf(rest);
    assert all == [f.Subject()] + others;
    if Distinct(all) {
      forall i, j | 0 <= i < j < |others| ensures others[i] != others[j] { assert all[i + 1] != all[j + 1]; }
      forall k | 0 <= k < |rest| ensures rest[k].Subject() != f.Subject() { assert all[0] != all[k + 1]; }
    }
  }

  /** Any reduction is compatible, and compatible filters are their own reduction. */
  lemma {:induction false} ReduceCompatible(trigger: Primitive, filters: seq<Primitive>)
    ensures Reduce(trigger, filters).Some? ==>
      Compatible(Reduce(trigger, filters).value) && !OnSubject(Reduce(trigger, filters).value, trigger.Subject())
    ensures Compatible(filters) && !OnSubject(filters, trigger.Subject()) ==> Reduce(trigger, filters) == Some(filters)
  {
    hide Implies, Compatible;
    if |filters| == 0 {
      NoneCompete();
    } else {
      var f, rest := filters[0], Reduce(trigger, filters[1..]);
      ReduceCompatible(trigger, filters[1..]);
      assert filters == [f] + filters[1..];
      CompatibleCons(f, filters[1..]);
      OnSubjectCons(f, filters[1..], trigger.Subject());
      InOnSubject(f, filters[1..]);
      if rest.Some? {
        CompatibleCons(f, rest.value);
        OnSubjectCons(f, rest.value, trigger.Subject());
      }
      hide OnSubject;
    }
  }

  lemma NoneCompete()
    ensures Compatible([])
  {
  }

  lemma InOnSubject(f: Primitive, filters: seq<Primitive>)
    ensures f in filters ==> OnSubject(filters, f.Subject())
  {
  }

  lemma OnSubjectCons(f: Primitive, rest: seq<Primitive>, subject: Subject)
    ensures OnSubject([f] + rest, subject) <==> f.Subject() == subject || OnSubject(rest, subject)
  {
    if f.Subject() == subject { assert ([f] + rest)[0].Subject() == subject; }
    if k :| 0 <= k < |rest| && rest[k].Subject() == subject { assert ([f] + rest)[k + 1].Subject() == subject; }
  }

  // --- on the data --------------------------------------------------------------------

  lemma TriggerSettles(t: Primitive, f: Primitive, series: seq<Line>, data: Data, n: nat, i: nat)
    requires CoversAll(data, series, n) && Supported(t, series) && Supported(f, series) && i < n
    requires t.IsTrigger() && !f.IsTrigger() && t.Subject() == f.Subject()
    ensures HoldsFor(t, series, data, n, i) && HoldsFor(f, series, data, n, i) ==> Implies(t, f)
    ensures Implies(t, f) && HoldsFor(t, series, data, n, i) ==> HoldsFor(f, series, data, n, i)
  {
    hide Implies, Supported, CoversAll, Holds, Covers;
    CoversSupported(data, series, n, t);
    CoversSupported(data, series, n, f);
    TriggerSettlesSubject(t, f, data, n, i);
  }

  lemma FiltersClash(f: Primitive, g: Primitive, series: seq<Line>, data: Data, n: nat, i: nat)
    requires KeysIdentify(series) && CoversAll(data, series, n) && Supported(f, series) && Supported(g, series) && i < n
    requires !f.IsTrigger() && !g.IsTrigger() && f != g && f.Subject() == g.Subject()
    ensures !(HoldsFor(f, series, data, n, i) && HoldsFor(g, series, data, n, i))
  {
    hide Supported, CoversAll, Holds, Covers, KeysIdentify;
    CoversSupported(data, series, n, f);
    CoversSupported(data, series, n, g);
    FiltersExclude(f, g, series, data, n, i);
  }

  lemma {:induction false} AllHoldAt(filters: seq<Primitive>, series: seq<Line>, data: Data, n: nat, i: nat, k: nat)
    requires CoversAll(data, series, n) && SupportedFilters(filters, series) && i < n && k < |filters|
    requires AllHold(filters, series, data, n, i)
    ensures HoldsFor(filters[k], series, data, n, i)
  {
    hide HoldsFor, Supported;
    if k > 0 { AllHoldAt(filters[1..], series, data, n, i, k - 1); }
  }

  /** The reduction holds exactly when the rule does, and a rule that reduces to nothing never does. */
  lemma {:induction false} ReduceMeans(t: Primitive, filters: seq<Primitive>, series: seq<Line>, data: Data, n: nat, i: nat)
    requires KeysIdentify(series) && CoversAll(data, series, n) && i < n
    requires Supported(t, series) && t.IsTrigger() && SupportedFilters(filters, series)
    ensures Reduce(t, filters).Some? ==> SupportedFilters(Reduce(t, filters).value, series)
    ensures if Reduce(t, filters).None? then !RuleHolds(Rule(t, filters), series, data, n, i)
            else RuleHolds(Rule(t, filters), series, data, n, i) == RuleHolds(Rule(t, Reduce(t, filters).value), series, data, n, i)
  {
    hide HoldsFor, Supported, Implies, KeysIdentify, CoversAll;
    if |filters| > 0 && HoldsFor(t, series, data, n, i) {
      var f := filters[0];
      ReduceMeans(t, filters[1..], series, data, n, i);
      ReduceStep(t, f, Reduce(t, filters[1..]), series, data, n, i);
      if Reduce(t, filters).Some? && Reduce(t, filters) != Reduce(t, filters[1..]) {
        assert Reduce(t, filters).value[1..] == Reduce(t, filters[1..]).value;
      }
    } else if |filters| > 0 {
      ReduceSupported(t, filters, series);
    }
  }

  lemma {:induction false} ReduceSupported(t: Primitive, filters: seq<Primitive>, series: seq<Line>)
    requires SupportedFilters(filters, series)
    ensures Reduce(t, filters).Some? ==> SupportedFilters(Reduce(t, filters).value, series)
  {
    hide Supported, Implies, OnSubject;
    if |filters| > 0 { ReduceSupported(t, filters[1..], series); }
  }

  /** One filter against what the others came down to. */
  lemma ReduceStep(t: Primitive, f: Primitive, rest: Option<seq<Primitive>>, series: seq<Line>, data: Data, n: nat, i: nat)
    requires KeysIdentify(series) && CoversAll(data, series, n) && i < n && Supported(t, series) && t.IsTrigger()
    requires Supported(f, series) && !f.IsTrigger() && (rest.Some? ==> SupportedFilters(rest.value, series))
    requires HoldsFor(t, series, data, n, i)
    ensures f.Subject() == t.Subject() ==> HoldsFor(f, series, data, n, i) == Implies(t, f)
    ensures rest.Some? && f in rest.value && AllHold(rest.value, series, data, n, i) ==> HoldsFor(f, series, data, n, i)
    ensures rest.Some? && f !in rest.value && OnSubject(rest.value, f.Subject()) && AllHold(rest.value, series, data, n, i)
        ==> !HoldsFor(f, series, data, n, i)
  {
    hide HoldsFor, Supported, Implies, KeysIdentify, CoversAll, AllHold;
    if f.Subject() == t.Subject() { TriggerSettles(t, f, series, data, n, i); }
    if rest.Some? && AllHold(rest.value, series, data, n, i) {
      if f in rest.value {
        var k :| 0 <= k < |rest.value| && rest.value[k] == f;
        AllHoldAt(rest.value, series, data, n, i, k);
      } else if OnSubject(rest.value, f.Subject()) {
        var k :| 0 <= k < |rest.value| && rest.value[k].Subject() == f.Subject();
        AllHoldAt(rest.value, series, data, n, i, k);
        FiltersClash(f, rest.value[k], series, data, n, i);
      }
    }
  }

  // --- pruning ------------------------------------------------------------------------

  lemma {:induction false} SelectedFilters(filters: seq<Primitive>, all: seq<Primitive>, k: nat)
    requires Selects(filters, all) && k < |filters|
    ensures filters[k] in all
  {
    SelectedAreElements(filters, all);
    assert filters[k] in Elements(filters);
  }

  lemma BuiltFilters(series: seq<Line>, filters: seq<Primitive>)
    requires Selects(filters, FiltersOf(Build(series)))
    ensures SupportedFilters(filters, series)
  {
    hide Supported, Build, FiltersOf, Selects;
    forall k | 0 <= k < |filters| ensures Supported(filters[k], series) && !filters[k].IsTrigger() {
      SelectedFilters(filters, FiltersOf(Build(series)), k);
      InTriggers(Build(series), filters[k]);
      BuiltIsSupported(series, filters[k]);
    }
  }

  lemma UnaskedIsWanted(r: Rule, maxFilters: int)
    ensures Wanted(r, Options(maxFilters, false, {}))
  {
  }

  /** Pruning loses nothing. Take any trigger with any filters within the bound: on any data, either the rule
      is enumerated, or it never holds, or it holds on exactly the bars of an enumerated rule with fewer
      filters.
    */
  lemma PruningKeepsMeaning(series: seq<Line>, trigger: Primitive, filters: seq<Primitive>, maxFilters: int, data: Data, n: nat)
    requires KeysIdentify(series) && CoversAll(data, series, n)
    requires trigger in Build(series) && trigger.IsTrigger()
    requires Selects(filters, FiltersOf(Build(series))) && |filters| <= maxFilters
    ensures Supported(trigger, series) && SupportedFilters(filters, series)
    ensures
      var rules, kept := Enumerated(Build(series), Options(maxFilters, false, {})), Reduce(trigger, filters);
      || Rule(trigger, filters) in rules
      || (kept.None? && forall i: nat :: i < n ==> !RuleHolds(Rule(trigger, filters), series, data, n, i))
      || (kept.Some? && |kept.value| < |filters| && Rule(trigger, kept.value) in rules && SupportedFilters(kept.value, series)
          && forall i: nat :: i < n ==>
               RuleHolds(Rule(trigger, filters), series, data, n, i) == RuleHolds(Rule(trigger, kept.value), series, data, n, i))
  {
    hide Supported, SupportedFilters, Build, FiltersOf, Selects, Enumerated, RuleHolds, Reduce, CoversAll, KeysIdentify, Compatible, Wanted;
    BuiltIsSupported(series, trigger);
    BuiltFilters(series, filters);
    var kept := Reduce(trigger, filters);
    forall i: nat | i < n
      ensures kept.None? ==> !RuleHolds(Rule(trigger, filters), series, data, n, i)
      ensures kept.Some? ==> SupportedFilters(kept.value, series)
      ensures kept.Some? ==>
        RuleHolds(Rule(trigger, filters), series, data, n, i) == RuleHolds(Rule(trigger, kept.value), series, data, n, i)
    {
      ReduceMeans(trigger, filters, series, data, n, i);
    }
    if kept.Some? {
      ReduceSupported(trigger, filters, series);
      ReduceSelects(trigger, filters);
      ReduceCompatible(trigger, filters);
      var r := Rule(trigger, kept.value);
      SelectsThrough(kept.value, filters, FiltersOf(Build(series)));
      CompatibleCons(trigger, kept.value);
      UnaskedIsWanted(r, maxFilters);
      EnumeratedIsValid(Build(series), Options(maxFilters, false, {}), r);
    }
  }
}
