/** What a bot's records and the venue disagree about (apps/api/quanta/services/execution.py). */
module Reconciliation {
  import opened Venues

  datatype Kind = Untracked | SizeDiffers | Missing

  datatype Difference = Difference(symbol: string, kind: Kind, expected: real, actual: real) {
    /** Whether a bot stops over it: presence counts, size does not. */
    predicate IsMaterial() {
      kind.Untracked? || kind.Missing?
    }
  }

  function Signed(h: Holding): real {
    if h.side.Buy? then h.qty else -h.qty
  }

  /** The signed quantity by symbol; a later position of a symbol replaces an earlier one. */
  function Actual(positions: seq<(string, Holding)>): map<string, real> {
    if |positions| == 0 then map[]
    else
      var last := positions[|positions| - 1];
      Actual(positions[..|positions| - 1])[last.0 := Signed(last.1)]
  }

  /** A symbol on which venue and records differ, and how. */
  predicate Differs(d: Difference, actual: map<string, real>, expected: map<string, real>) {
    match d.kind
    case Untracked => d.symbol in actual && d.symbol !in expected && d.expected == 0.0 && d.actual == actual[d.symbol]
    case SizeDiffers =>
      d.symbol in actual && d.symbol in expected && d.expected == expected[d.symbol] && d.actual == actual[d.symbol]
      && d.expected != d.actual
    case Missing =>
      d.symbol !in actual && d.symbol in expected && d.expected == expected[d.symbol] && d.expected != 0.0 && d.actual == 0.0
  }

  /** Compares the two, symbol by symbol. */
  method Reconcile(positions: seq<(string, Holding)>, expected: map<string, real>)
    returns (differences: set<Difference>, shouldHalt: bool)
    ensures forall d :: d in differences <==> Differs(d, Actual(positions), expected)
    ensures shouldHalt <==> exists d :: d in differences && d.IsMaterial()
  {
    var actual: map<string, real> := map[];
    for i := 0 to |positions|
      invariant actual == Actual(positions[..i])
    {
      assert positions[..i + 1][..i] == positions[..i];
      var (symbol, h) := positions[i];
      actual := actual[symbol := if h.side.Buy? then h.qty else -h.qty];
    }
    assert positions[..|positions|] == positions;
    differences := {};
    var left := actual.Keys;
    while left != {}
      invariant left <= actual.Keys
      invariant forall d :: d in differences <==> Differs(d, actual, expected) && !d.kind.Missing? && d.symbol !in left
      decreases |left|
    {
      var symbol :| symbol in left;
      left := left - {symbol};
      if symbol !in expected {
        differences := differences + {Difference(symbol, Untracked, 0.0, actual[symbol])};
      } else if expected[symbol] != actual[symbol] {
        differences := differences + {Difference(symbol, SizeDiffers, expected[symbol], actual[symbol])};
      }
    }
    left := expected.Keys;
    while left != {}
      invariant left <= expected.Keys
      invariant forall d :: d in differences <==> Differs(d, actual, expected) && (d.kind.Missing? ==> d.symbol !in left)
      decreases |left|
    {
      var symbol :| symbol in left;
      left := left - {symbol};
      if symbol !in actual && expected[symbol] != 0.0 {
        differences := differences + {Difference(symbol, Missing, expected[symbol], 0.0)};
      }
    }
    shouldHalt := exists d :: d in differences && d.IsMaterial();
  }

  /** Each symbol is read with one signed quantity, however often it is read. */
  predicate OneEach(positions: seq<(string, Holding)>) {
    forall j, k :: 0 <= j < k < |positions| && positions[j].0 == positions[k].0 ==>
      Signed(positions[j].1) == Signed(positions[k].1)
  }

  /** The position at an index is what the comparison sees of its symbol. */
  predicate Seen(positions: seq<(string, Holding)>, k: nat)
    requires k < |positions|
  {
    positions[k].0 in Actual(positions) && Actual(positions)[positions[k].0] == Signed(positions[k].1)
  }

  lemma {:induction false} ActualIsLast(positions: seq<(string, Holding)>, symbol: string)
    ensures symbol in Actual(positions) <==> exists k :: 0 <= k < |positions| && positions[k].0 == symbol
    ensures symbol in Actual(positions) ==>
      (exists k :: 0 <= k < |positions| && positions[k].0 == symbol && Actual(positions)[symbol] == Signed(positions[k].1))
  {
    if |positions| > 0 {
      var n, front := |positions| - 1, positions[..|positions| - 1];
      ActualIsLast(front, symbol);
      if positions[n].0 != symbol && symbol in Actual(front) {
        var k :| 0 <= k < |front| && front[k].0 == symbol && Actual(front)[symbol] == Signed(front[k].1);
        assert positions[k] == front[k];
      }
    }
  }

  /** The comparison sees every position read exactly when no symbol is read with two different quantities,
      as a hedge account holding both sides of one is.
    */
  lemma EverySideIsSeenExactlyWhen(positions: seq<(string, Holding)>)
    ensures (forall k :: 0 <= k < |positions| ==> Seen(positions, k)) <==> OneEach(positions)
  {
    hide Actual, Signed;
    if forall k :: 0 <= k < |positions| ==> Seen(positions, k) {
      forall j, k | 0 <= j < k < |positions| && positions[j].0 == positions[k].0
        ensures Signed(positions[j].1) == Signed(positions[k].1)
      {
        assert Seen(positions, j) && Seen(positions, k);
      }
    }
    if OneEach(positions) {
      forall k | 0 <= k < |positions| ensures Seen(positions, k) {
        ActualIsLast(positions, positions[k].0);
        var j :| 0 <= j < |positions| && positions[j].0 == positions[k].0
          && Actual(positions)[positions[k].0] == Signed(positions[j].1);
      }
    }
  }

  /** The records claim each position the venue reported, and nothing but zeros besides. */
  predicate Agrees(positions: seq<(string, Holding)>, expected: map<string, real>) {
    && (forall k :: 0 <= k < |positions| ==>
          positions[k].0 in expected && expected[positions[k].0] == Signed(positions[k].1))
    && (forall symbol :: symbol in expected && expected[symbol] != 0.0 ==>
          exists k :: 0 <= k < |positions| && positions[k].0 == symbol)
  }

  /** Records and positions agree exactly when nothing is reported and no side was left unseen: silence is
      agreement wherever each symbol is read with one quantity.
    */
  lemma NoDifferenceMeansAgreement(positions: seq<(string, Holding)>, expected: map<string, real>)
    ensures Agrees(positions, expected) <==>
      Silent(Actual(positions), expected) && OneEach(positions)
  {
    hide *;
    SilenceOverTheMap(Actual(positions), expected);
    if Agrees(positions, expected) { AgreementIsSeen(positions, expected); }
    if OneEach(positions) && Silent(Actual(positions), expected) {
      SilenceIsAgreement(positions, expected);
    }
  }

  lemma SilenceIsAgreement(positions: seq<(string, Holding)>, expected: map<string, real>)
    requires OneEach(positions)
    requires ClaimsJust(Actual(positions), expected)
    ensures Agrees(positions, expected)
  {
    hide Actual, Signed, OneEach;
    EverySideIsSeenExactlyWhen(positions);
    forall k | 0 <= k < |positions|
      ensures positions[k].0 in expected && expected[positions[k].0] == Signed(positions[k].1)
    {
      assert Seen(positions, k);
    }
    forall symbol | symbol in expected && expected[symbol] != 0.0
      ensures exists k :: 0 <= k < |positions| && positions[k].0 == symbol
    {
      ActualIsLast(positions, symbol);
    }
  }

  lemma AgreementIsSeen(positions: seq<(string, Holding)>, expected: map<string, real>)
    requires Agrees(positions, expected)
    ensures OneEach(positions)
    ensures ClaimsJust(Actual(positions), expected)
  {
    hide Actual, Signed;
    forall j, k | 0 <= j < k < |positions| && positions[j].0 == positions[k].0
      ensures Signed(positions[j].1) == Signed(positions[k].1)
    {
      assert expected[positions[j].0] == Signed(positions[j].1) && expected[positions[k].0] == Signed(positions[k].1);
    }
    forall symbol | symbol in Actual(positions) ensures symbol in expected && expected[symbol] == Actual(positions)[symbol] {
      ActualIsLast(positions, symbol);
    }
    forall symbol | symbol in expected && symbol !in Actual(positions) ensures expected[symbol] == 0.0 {
      ActualIsLast(positions, symbol);
    }
  }

  /** Nothing is reported. */
  ghost predicate Silent(actual: map<string, real>, expected: map<string, real>) {
    forall d :: !Differs(d, actual, expected)
  }

  /** The claims are the quantities held, and zeros besides. */
  predicate ClaimsJust(actual: map<string, real>, expected: map<string, real>) {
    && (forall symbol :: symbol in actual ==> symbol in expected && expected[symbol] == actual[symbol])
    && (forall symbol :: symbol in expected && symbol !in actual ==> expected[symbol] == 0.0)
  }

  lemma SilenceOverTheMap(actual: map<string, real>, expected: map<string, real>)
    ensures Silent(actual, expected) <==> ClaimsJust(actual, expected)
  {
    if Silent(actual, expected) {
      forall symbol | symbol in actual ensures symbol in expected && expected[symbol] == actual[symbol] {
        assert !Differs(Difference(symbol, Untracked, 0.0, actual[symbol]), actual, expected);
        if symbol in expected { assert !Differs(Difference(symbol, SizeDiffers, expected[symbol], actual[symbol]), actual, expected); }
      }
      forall symbol | symbol in expected && symbol !in actual ensures expected[symbol] == 0.0 {
        assert !Differs(Difference(symbol, Missing, expected[symbol], 0.0), actual, expected);
      }
    }
  }

  /** A drifted size alone never halts the bot, and a vanished or unknown position always does. */
  lemma HaltsExactlyOnPresence(actual: map<string, real>, expected: map<string, real>)
    ensures (exists d :: Differs(d, actual, expected) && d.IsMaterial()) <==>
      (exists symbol :: symbol in actual && symbol !in expected) ||
      (exists symbol :: symbol in expected && symbol !in actual && expected[symbol] != 0.0)
  {
    if symbol :| symbol in actual && symbol !in expected {
      assert Differs(Difference(symbol, Untracked, 0.0, actual[symbol]), actual, expected);
    }
    if symbol :| symbol in expected && symbol !in actual && expected[symbol] != 0.0 {
      assert Differs(Difference(symbol, Missing, expected[symbol], 0.0), actual, expected);
    }
  }

  /** In hedge mode a symbol can hold both sides, and only the one read last is compared: here a long of any
      size goes unseen beside a short the records know.
    */
  lemma HedgeHidesASide(symbol: string, long: real, short: real, d: Difference)
    ensures Actual([(symbol, Holding(Buy, long)), (symbol, Holding(Sell, short))]) == map[symbol := -short]
    ensures !Differs(d, Actual([(symbol, Holding(Buy, long)), (symbol, Holding(Sell, short))]), map[symbol := -short])
  {
    var positions := [(symbol, Holding(Buy, long)), (symbol, Holding(Sell, short))];
    assert positions[..1] == [(symbol, Holding(Buy, long))];
    assert Actual(positions[..1]) == map[symbol := long] by { assert positions[..1][..0] == []; }
  }
}
