# The Quanta strategy engine, modelled and proved

Quanta writes trading strategies in a small expression language, backtests them bar by bar, searches for rules,
walks them forward and trades them through a guarded execution service. This project models those parts in Dafny
and proves what their documentation and design promise, on every input, run or reachable state. Where the code
and its documentation disagree the model follows the code, and a lemma says exactly when the promise holds.

`dafny verify dfyconfig.toml` checks everything.

The modules, in the order they build on one another:

- **The expression language.** `Syntax`, `Lexer`, `Grammar`, `Decimals`: texts, tokens, trees and the canonical
  printer. `RecursiveDescent` is the parser object with its fields. `RoundTrip`, `ParsesBack`, `Canonical` and
  `Layout` prove printer and parser inverse within exact budgets; `Precedence` proves how operators bind; `Renderings`
  and `Overflow` prove which trees share a canonical text.
- **Series and evaluation.** `Num`, `Series`, `SeriesLoops`, `Evaluator`; `Indicators` and `Operators` say in real
  arithmetic what each of them computes, and `Causality` proves that no expression reads the future.
- **The backtest.** `Market`, `Liquidations`, `Engine` (the loop as a step function), `Strategies` (from source
  text), `Backtesting` (the objects and the loop as the source runs them, proved equal). `NoLookahead`, `Ledger`,
  `Curve`, `Accounts`, `Funding`, `Coarse`, `Stops`, `Levels`, `Money`, `FeesAndCapital` and `Statistics` hold the
  results about single steps and whole runs.
- **Discover.** `Combinatorics`, `Primitives`, `Generation`, `Signals`, `SignalsCausal`, `MaskMeaning`, `Rules`,
  `Pruning`, `FalseDiscovery`, `HeldOut`.
- **Walk-forward.** `WalkForward` (windows and slices) and `WalkForwardRun` (fitting, testing, chaining).
- **Trading.** `Throttle`, `Risk`, `Verdicts`, `Venues` (one account as the adapter promises it and the simulated
  exchange models it), `Fills`, `Execution`, `Exits`, `KillSwitch`, `KillOutcome`, `Reconciliation`, `Paging`, `Store`.
- `Wrappers`, `Arithmetic` and `Collections` are shared.

## What the code does that its documentation does not say

- A missing *constant* counts as true (`bool(nan)`), so `0/0` signals on every bar, although a missing value is
  documented as false (`Causality.ConstantGapSignalsEveryBar`).
- The running sum behind `sma` counts a missing cell as zero, so after a gap the average is a number over part of
  its window, although warm-up is documented as never partial (`SeriesLoops.SmaIsWindowMean`).
- The canonical text that the version hash is taken over cannot always be parsed again: numbers from 1e16 up and
  below 1e-4 print with an exponent, and printing adds a parenthesis, hence a node and a level, for each operator
  (`Canonical.CanonicalFormIsStable`, `Canonical.LongSumDoesNotReadBack`). Exponents included, it still identifies
  the tree (`Canonical.CanonicalFormIsIdentity`), but for one collision: a literal too large for a double is infinity
  and prints as the name `inf` (`Overflow.OverflowSharesTheText`).
- The coarse intrabar rule is documented as adverse; it can flatter when a trailed stop has passed the take profit
  (`Coarse.GuessIsPessimisticExactlyWhen`, `Coarse.TrailedStopCanPassTake`).
- Break-even sets the stop to the entry wherever it stood, so it can loosen a trailed stop
  (`Stops.LoosensExactlyWhen`).
- An infinite liquidation price is a short that is below its requirement at every price, not one that survives any
  rise (`Liquidations.LiquidationIsWhereMarginRunsOut`), and a position of no size has liquidation price 0, at which
  a short is closed at once (`FeesAndCapital.BrokeShortIsLiquidatedAtOnce`).
- A signal exit is booked into the equity of the bar that signalled, one bar before its fill
  (`Ledger.SignalExitIsBookedEarly`; `Curve.PathIsExact` says what each point of the curve is made of).
- The running-peak drawdown can understate the deepest fall when equity goes below zero; it turns on the bars below
  zero alone (`Statistics.MaxDrawdownIsDeepestExactlyWhen`, `Statistics.NegativeEquityUnderstates`).
- The in-sample score of a search can depend on held-out closes: it does exactly when a rule has the 20 usable returns
  it takes to be scored and holds on a bar whose later close lies past the cut
  (`HeldOut.ScoreKeepsToItselfExactlyWhen`, `HeldOut.InSampleReadsHeldOut`).
- Walk-forward never tests the last bar of its data (`WalkForward.LastBarIsNeverTested`).
- A clean kill report can leave a position: `kill` accepts one bot twice, and two closes of one bot and index sent in
  one second share a client id (`KillOutcome.KillClosesExactlyWhen`, `KillSwitch.TwoSymbolsInOneSecond`). Its only
  caller (apps/api/quanta/api/routes/bots.py, lines 527-543) passes one context a bot row, each with its own id, so the
  kill button does not meet this case. A bot that takes a hedge account for a one-way one reduces the wrong side
  (`KillSwitch.CloseWorksExactlyWhen`). The report counts every close that is answered, whether or not a position went
  (`KillOutcome.KillClosesExactlyWhen`).
- A resting reduce-only limit order whose position has gone opens a new one when the simulated exchange fills it
  (`Exits.ReducesExactlyWhen`, `Exits.OverstayedExitOpens`).
- An order whose reply is lost is not recorded with the risk guard (`Execution.ExecutionService.Place`), so the rate
  limit is over recorded orders.
- Reconciling a symbol held on both sides compares only one of them (`Reconciliation.EverySideIsSeenExactlyWhen`,
  `Reconciliation.HedgeHidesASide`).

## Conventions

A series cell is an exact number, an infinity or NaN; prices, equity and quantities are exact reals; times are
whole milliseconds (in `Risk` microseconds, in `Throttle` real seconds). Python's truncating, flooring and
banker's-rounding operations are written out where they occur. The hash behind client ids is a function assumed
without collisions (`Execution.Injective`). What a venue, a clock or a lost message does is a parameter or an event
of the run. Error texts and positions are not part of a result; which error it is, is.

## Model

| member | source | states |
|---|---|---|
| `Lexer.ScanAt` | packages/engine/quanta_engine/dsl/lexer.py:68-134 | one turn of the scanning loop takes exactly the lexeme the specification of one lexeme gives, or fails as it does, letters and digits being those of ASCII |
| `Lexer.TokenizeLoop` | packages/engine/quanta_engine/dsl/lexer.py:57-137 | the loop over the source yields exactly the specified tokens, or the specified refusal, for every text whose letters and digits are those of ASCII |
| `RecursiveDescent.Parser.OrExpr` | packages/engine/quanta_engine/dsl/parser.py:99-105 | the or-level, on the parser object, consumes and returns exactly what the grammar specifies at that position, node count and depth |
| `RecursiveDescent.Parser.NotExpression` | packages/engine/quanta_engine/dsl/parser.py:115-120 | the same for not, with its nesting |
| `RecursiveDescent.Parser.ComparisonExpr` | packages/engine/quanta_engine/dsl/parser.py:122-137 | the same for a comparison, of which there is at most one |
| `RecursiveDescent.Parser.Additive` | packages/engine/quanta_engine/dsl/parser.py:139-145 | the same for sums |
| `RecursiveDescent.Parser.PrimaryExpr` | packages/engine/quanta_engine/dsl/parser.py:162-169 | the same for a primary, with the depth raised inside it and the limit refused |
| `RecursiveDescent.Parser.PrimaryInner` | packages/engine/quanta_engine/dsl/parser.py:171-204 | the same for numbers, names, booleans, calls and parentheses |
| `RecursiveDescent.Parser.CallExpr` | packages/engine/quanta_engine/dsl/parser.py:206-222 | the same for a call and its arguments, with the argument limit |
| `RecursiveDescent.ParseSource` | packages/engine/quanta_engine/dsl/parser.py:225-227 | the whole recursive-descent parser, fields and all, computes the specified parse of every source text |
| `Precedence.SparseReads` | packages/engine/quanta_engine/dsl/parser.py:99-222 | read where a given strength is needed, the tokens of a tree printed with only the parentheses that the table of strengths asks for give that tree back, at its cost, whatever weaker token follows |
| `Precedence.SparsePrintReadsBack` | packages/engine/quanta_engine/dsl/parser.py:99-160 | or binds less than and, and than not, not than a comparison, a comparison than + and -, these than * / and %, these than a minus sign; chains are read from the left and comparisons not chained: every tree printed with only the parentheses this needs, within the limits, parses to itself |
| `Decimals.NormaliseKeepsValue` | packages/engine/quanta_engine/dsl/parser.py:175-180 | a number token is infinity exactly from 2^1024 - 2^970 on, where float() overflows; below that, stripping zeros keeps its exact value |
| `Decimals.NormalIsUnique` | packages/engine/quanta_engine/dsl/nodes.py:22-27 | two finite numbers in normal form have one value exactly when they are the same |
| `Renderings.ShownIsUnique` | packages/engine/quanta_engine/dsl/nodes.py:22-27 | two finite numbers print alike exactly when they are the same, whether with an exponent or without |
| `ParsesBack.NumberReadsBack` | packages/engine/quanta_engine/dsl/nodes.py:22-27 | a plainly printed number reads back as itself |
| `RoundTrip.ScientificIsRefused` | packages/engine/quanta_engine/dsl/nodes.py:22-27 | a number printed with an exponent is refused by the lexer, whatever follows it |
| `RoundTrip.ShowLexes` | packages/engine/quanta_engine/dsl/nodes.py:26-76 | the printed text of any tree, before anything that does not run into it, lexes to exactly its tokens when no number prints with an exponent, an overflowed number being the word inf, and is refused otherwise |
| `ParsesBack.PrimaryReads` | packages/engine/quanta_engine/dsl/parser.py:162-222 | the tokens of a tree whose numbers print as digits around a point parse as a primary to that tree, at exactly its cost in nodes, exactly when node, depth and argument budgets hold it |
| `ParsesBack.ExpressionReads` | packages/engine/quanta_engine/dsl/parser.py:87-160 | the same through every level of the grammar |
| `Canonical.PrintThenParse` | packages/engine/quanta_engine/dsl/nodes.py:26-76 | for every tree the printer can render, parsing its text gives the tree back, an overflowed number as the name inf, exactly when no number prints with an exponent and text, nodes, nesting and arguments are within the limits; every other text is refused |
| `Renderings.ShowDecodes` | packages/engine/quanta_engine/dsl/nodes.py:26-76 | a rendering followed by nothing, a blank, a comma or a closing parenthesis can be read off the front of a text in one way only, exponents included |
| `Canonical.ShowIsInjective` | packages/engine/quanta_engine/dsl/nodes.py:26-76 | two trees print alike exactly when they are the same once an overflowed number counts as the name inf, within the limits or not, with exponents or without |
| `Canonical.ParsedIsWellFormed` | packages/engine/quanta_engine/dsl/parser.py:87-227 | every accepted source parses to a tree the printer can render |
| `Canonical.CanonicalFormIsStable` | packages/engine/quanta_engine/strategy.py:151-172 | parsing the canonical text of an accepted source gives its tree, an overflowed number as the name inf, and so the same canonical text again, exactly when that tree reads back; it is refused otherwise |
| `Canonical.CanonicalFormIsIdentity` | packages/engine/quanta_engine/strategy.py:151-172 | two accepted sources share their canonical text exactly when they parse to the same tree once an overflowed number counts as the name inf |
| `Overflow.LongLiteralIsInfinite` | packages/engine/quanta_engine/dsl/parser.py:175-180 | a literal of a one and 309 zeros or more is infinity |
| `Overflow.OverflowSharesTheText` | packages/engine/quanta_engine/dsl/nodes.py:22-27 | so close > inf and close > 1000... are accepted with different trees and share one canonical text |
| `Canonical.LongSumParses` | packages/engine/quanta_engine/dsl/parser.py:139-145 | the source x+x+...+x of up to 1000 terms is accepted |
| `Canonical.LongSumDoesNotReadBack` | packages/engine/quanta_engine/dsl/parser.py:162-169 | and from 65 terms on its canonical text is refused, as printing nests it one parenthesis an operator |
| `Layout.LexedIsSpaced` | packages/engine/quanta_engine/dsl/lexer.py:57-137 | every accepted source is words, operators, blanks and comments each standing apart from the next |
| `Layout.SpacedLexes` | packages/engine/quanta_engine/dsl/lexer.py:57-137 | and every such text lexes to exactly its lexemes |
| `Layout.LayoutIsIrrelevant` | packages/engine/quanta_engine/dsl/lexer.py:68-79 | blanks and comments put between any two pieces of a source, within the length limit, leave its parse unchanged |
| `Syntax.Walk` | packages/engine/quanta_engine/dsl/nodes.py:82-106 | the walk with an explicit stack visits exactly the recursive preorder of every tree |
| `Syntax.PreorderIsSelfThenChildren` | packages/engine/quanta_engine/dsl/nodes.py:82-106 | the preorder is a node and then its children's preorders, whatever the kind of node |
| `SeriesLoops.SmoothLoop` | packages/engine/quanta_engine/series.py:46-87 | the seeded loop of ema and wilder fills the array with the recursive average, cell by cell, and refuses a length below 1 |
| `SeriesLoops.RollLoop` | packages/engine/quanta_engine/series.py:151-171 | the loop of highest, lowest and stdev puts each full window's value in its cell and NaN before |
| `SeriesLoops.MonotonicLoop` | packages/engine/quanta_engine/series.py:210-227 | the narrowing mask is true exactly where each of the last steps moved the same way |
| `SeriesLoops.SmaByRunningSum` | packages/engine/quanta_engine/series.py:28-43 | the difference of two running sums is the specified average of every bar |
| `SeriesLoops.SmaIsWindowMean` | packages/engine/quanta_engine/series.py:28-43 | the running-sum average equals its window's mean exactly when no cell of the window is missing; over a gap it is a number all the same |
| `Indicators.SmaMeans` | packages/engine/quanta_engine/series.py:28-43 | on numbers, length times the average is the sum of the last length cells, and it is missing before there are as many |
| `Indicators.EmaMeans` | packages/engine/quanta_engine/series.py:46-68 | on numbers, the first average is the mean of the first n cells, and then (n+1) times each is twice the new cell and n-1 times the average before |
| `Indicators.WilderMeans` | packages/engine/quanta_engine/series.py:71-87 | the same seed, and then n times each average is the new cell and n-1 times the average before |
| `Indicators.ExtremesMean` | packages/engine/quanta_engine/series.py:151-171 | the highest and lowest of the last cells are among them and no cell passes them; missing before there are as many and where one is |
| `Indicators.CrossingsMean` | packages/engine/quanta_engine/series.py:192-207 | a crosses over b on a bar exactly when it was at or below b one bar before and is above it now, and under it the other way round |
| `Indicators.RunsMean` | packages/engine/quanta_engine/series.py:210-241 | rising and falling hold exactly when every one of the last steps went up, or down, and there are as many |
| `Indicators.RsiMeans` | packages/engine/quanta_engine/series.py:90-113 | rsi is the share of the average move up in the average moves up and down, in percent, 100 where nothing moved down, and missing on the first bars |
| `Indicators.MovesMean` | packages/engine/quanta_engine/series.py:97-99 | the moves averaged are the rises and the falls from one cell to the next, zero for the other direction |
| `Indicators.TrueRangeMeans` | packages/engine/quanta_engine/series.py:116-127 | the true range reaches from the lower to the higher of the bar and the close before it |
| `Indicators.AtrMeans` | packages/engine/quanta_engine/series.py:130-132 | the average true range is Wilder's average of these |
| `Causality.SmaCausal` | packages/engine/quanta_engine/series.py:28-43 | the running-sum average of a prefix is the prefix of the average |
| `Causality.SmoothCausal` | packages/engine/quanta_engine/series.py:46-87 | the same for ema and wilder |
| `Causality.RollCausal` | packages/engine/quanta_engine/series.py:135-171 | the same for every rolling window |
| `Causality.MonotonicCausal` | packages/engine/quanta_engine/series.py:210-227 | the same for rising and falling |
| `Causality.CrossoverCausal` | packages/engine/quanta_engine/series.py:192-207 | the same for crossings |
| `Causality.RsiCausal` | packages/engine/quanta_engine/series.py:90-113 | the same for rsi, although its size test is on the whole series |
| `Causality.AtrCausal` | packages/engine/quanta_engine/series.py:116-132 | the same for the average true range |
| `Causality.EvalCausal` | packages/engine/quanta_engine/dsl/evaluator.py:254-341 | evaluating any tree on the first n bars gives the first n cells of evaluating it on all of them, with the same value kind or the same error |
| `Causality.SignalIsCausal` | packages/engine/quanta_engine/dsl/evaluator.py:364-376 | the truth of any expression on the first n bars is the first n bars of its truth, or the same refusal |
| `Causality.SignalsCannotDiffer` | packages/engine/quanta_engine/dsl/evaluator.py:364-376 | two markets alike on the first n bars get the same signals on them |
| `Causality.MissingIsFalseForSeries` | packages/engine/quanta_engine/dsl/evaluator.py:344-355 | a missing value reads as true exactly when it is a constant |
| `Causality.ConstantGapSignalsEveryBar` | packages/engine/quanta_engine/dsl/evaluator.py:344-355 | so the expression 0/0 signals on every bar |
| `Evaluator.ConnectivesHoldBarByBar` | packages/engine/quanta_engine/dsl/evaluator.py:272-287 | and, or and not hold on exactly the bars where their parts say so, whatever kind of value a part is, and fail with the first part that fails |
| `Operators.ArithmeticMeans` | packages/engine/quanta_engine/dsl/evaluator.py:278-306 | at every bar, for scalar and series parts alike, + - * are the real sum, difference and product, / times the divisor is the dividend, % leaves the remainder of the floor, zero divisors and infinities go their stated ways, and a missing part makes it missing |
| `Operators.ComparisonMeans` | packages/engine/quanta_engine/dsl/evaluator.py:307-317 | at every bar < <= > >= == != hold exactly as the reals do, and on a missing cell only != |
| `Operators.MinusMeans` | packages/engine/quanta_engine/dsl/evaluator.py:272-276 | a minus sign is the number taken from zero at every bar |
| `Operators.AbsMeans` | packages/engine/quanta_engine/dsl/evaluator.py:138-139 | abs is the size of the number at every bar |
| `Operators.PicksMean` | packages/engine/quanta_engine/dsl/evaluator.py:142-147 | min and max are one of their two numbers, no more or no less than either, and missing if one is |
| `Operators.NamesMean` | packages/engine/quanta_engine/dsl/evaluator.py:88-135 | each of sma ema rsi highest lowest stdev shift rising falling, called on a series and a length, gives exactly that indicator of its cells |
| `Operators.DefaultsMean` | packages/engine/quanta_engine/dsl/evaluator.py:96-135 | without a length rsi looks back 14 bars and shift, rising and falling one |
| `Operators.LengthsMean` | packages/engine/quanta_engine/dsl/evaluator.py:56-75 | a length is a single whole number from 1 to 2,000,000 and nothing else |
| `Operators.CrossingsAreCalled` | packages/engine/quanta_engine/dsl/evaluator.py:116-127 | crossover and crossunder of two series are the crossings of their cells, in that order |
| `Operators.ArgumentsAreCounted` | packages/engine/quanta_engine/dsl/evaluator.py:319-335 | which names are functions, and with how many arguments each is refused |
| `Operators.LeavesMean` | packages/engine/quanta_engine/dsl/evaluator.py:216-221 | a name is its series, else its parameter, else refused; a literal is its number, an overflowed one infinity |
| `Operators.TruthMeans` | packages/engine/quanta_engine/dsl/evaluator.py:344-376 | a condition holds on a bar exactly where its value is true or a number other than zero, a missing cell of a series not holding and a missing constant holding |
| `Strategies.AtrIsNumberOnceWarm` | packages/engine/quanta_engine/series.py:116-132 | the ATR of real bars is NaN before its length and a number from then on |
| `Accounts.ColumnsMean` | packages/engine/quanta_engine/backtest/engine.py:101-120 | the names an expression reads are the bar's own prices and volume and their means of two, three and four |
| `Accounts.FeedsMean` | packages/engine/quanta_engine/backtest/engine.py:101-120 | the long signals are where the long text holds, the short ones where the short text does, and the ATR is that of the bars exactly when a rule needs it |
| `Accounts.RefusalsMean` | packages/engine/quanta_engine/strategy.py:107-148 | why a strategy is refused, in order: a text that does not parse, no text, a name or function that nothing provides, fewer than two bars, a condition that cannot be evaluated |
| `Accounts.TradesFollowTheText` | packages/engine/quanta_engine/backtest/engine.py:193-297 | in every run a long is entered at the open after a bar on which the long text holds, a short after one on which the short text holds and the long one does not |
| `Backtesting.TierForNotional` | packages/engine/quanta_engine/backtest/liquidation.py:39-49 | the search returns the first tier holding the magnitude, the last beyond the ladder, the flat one without |
| `Backtesting.FundingRateAt` | packages/engine/quanta_engine/backtest/engine.py:76-81 | the search returns the first rate recorded at a time, 0 if there is none |
| `Backtesting.Backtester.OpenAt` | packages/engine/quanta_engine/backtest/engine.py:299-351 | the position object opened has exactly the specified trade, levels, funding time and peak |
| `Levels.OpensMean` | packages/engine/quanta_engine/backtest/engine.py:299-351 | a position pays the slippage, takes the configured share of the account times the leverage, and with an ATR a and a multiple m has its stop at a times m below a long's fill and above a short's, and its take profit R times as far on the other side |
| `Levels.StopLosesTheDistance` | packages/engine/quanta_engine/backtest/engine.py:341-455 | without costs, a trade that leaves at its first stop loses exactly its quantity times the distance, and one that leaves at its take profit makes R times that |
| `Backtesting.Backtester.UpdatePosition` | packages/engine/quanta_engine/backtest/engine.py:353-392 | the in-place update of peak, break-even and trail leaves exactly the specified stops |
| `Levels.StopsMean` | packages/engine/quanta_engine/backtest/engine.py:353-392 | for either side: the best price so far, the stop at the entry once that is far enough past it, and the trail a multiple of the ATR behind it, which only tightens |
| `Backtesting.Backtester.ResolveIntrabar` | packages/engine/quanta_engine/backtest/engine.py:140-189 | the walk over minute bars, or the bar's extremes without them, finds exactly the specified exit |
| `Accounts.ResolvesMean` | packages/engine/quanta_engine/backtest/engine.py:140-189 | the minutes inside a bar decide by themselves, the first that reaches a level closing at it, and without any the bar's own extremes do |
| `Levels.HitsMean` | packages/engine/quanta_engine/backtest/engine.py:158-174 | a long's liquidation and stop are reached from above and its take profit from below, a short's the other way round, and the liquidation goes before the stop before the take profit |
| `Backtesting.Backtester.AccrueFunding` | packages/engine/quanta_engine/backtest/engine.py:457-475 | the loop charges and advances the position exactly as specified, and ends |
| `Backtesting.Backtester.TrackExcursion` | packages/engine/quanta_engine/backtest/engine.py:477-488 | run-up and drawdown are updated exactly as specified |
| `Backtesting.Backtester.SignalReason` | packages/engine/quanta_engine/backtest/engine.py:394-413 | the reason to leave on a signal, time before opposite |
| `Backtesting.Backtester.ClosePosition` | packages/engine/quanta_engine/backtest/engine.py:415-455 | the trade object is finished exactly as specified and the new equity returned |
| `Levels.ClosesMean` | packages/engine/quanta_engine/backtest/engine.py:415-455 | a close makes the move of the price times the quantity, either way round, less both fees and the funding, and a liquidation loses no more than what backs it |
| `Accounts.EveryTradeIsAccounted` | packages/engine/quanta_engine/backtest/engine.py:193-297 | in every run each trade's margin is the configured share of the account before it and its quantity what the leverage makes of that, its result and the account after it follow from its prices, fees and funding, one out of time lasted exactly its bars, and one turned by a signal had it |
| `Backtesting.Backtester.Turn` | packages/engine/quanta_engine/backtest/engine.py:214-270 | one turn of the loop takes its variables, the position object among them, through fill, manage, signal and mark exactly as the step function says |
| `Backtesting.Backtester.Run` | packages/engine/quanta_engine/backtest/engine.py:193-297 | the whole run from source text, refusals included, ends with exactly the trades, equity and path the step functions give |
| `Liquidations.LiquidationIsWhereMarginRunsOut` | packages/engine/quanta_engine/backtest/liquidation.py:58-89 | a long is at or below its maintenance requirement exactly at prices at or below the liquidation price, a short at or above; an infinite price means a short below it at every price |
| `Levels.LiquidationMeans` | packages/engine/quanta_engine/backtest/liquidation.py:52-89 | at the liquidation price, margin and the move of the price come to the tier's rate of the position's worth at the entry less the tier's amount |
| `Levels.TiersMean` | packages/engine/quanta_engine/backtest/liquidation.py:39-49 | the tier is the first that holds the magnitude, the last if none does, half a percent flat without a ladder |
| `NoLookahead.SliceLocal` | packages/engine/quanta_engine/backtest/engine.py:122-138 | minute bars cut for a stretch can be cut from those before any later limit |
| `NoLookahead.StateIsCausal` | packages/engine/quanta_engine/backtest/engine.py:214-270 | the loop's variables after bar k are settled by bars 0..k, the time and open of bar k+1, and the minute bars before that time |
| `NoLookahead.NoStrategySeesTheFuture` | packages/engine/quanta_engine/backtest/engine.py:193-270 | the same from source text through parsing, signals and ATR: two markets alike that far give the same refusal or the same trades, equity, position and queue |
| `Ledger.EveryBarKeeps` | packages/engine/quanta_engine/backtest/engine.py:214-270 | after every bar: equity is the capital plus all net results, each trade recorded it so, trades follow one another, a queued signal was given by the last close on a flat account |
| `Ledger.EveryRunBalances` | packages/engine/quanta_engine/backtest/engine.py:272-297 | every run ends with equity equal to capital plus all net results and to the last point of its path, whose first is the capital; trades do not overlap, and each entry follows a signal of its side |
| `Ledger.SignalExitIsBookedEarly` | packages/engine/quanta_engine/backtest/engine.py:244-270 | in every run the equity of the bar that signalled an exit already holds the result of that exit, filled at the next bar's open |
| `Curve.PathIsExact` | packages/engine/quanta_engine/backtest/engine.py:210-285 | every point of every run's equity path is the capital, the net results of the trades that have ended or that a signal ends at the next open, and what the open trade would bring at that close |
| `Funding.NextFundingIsNext` | packages/engine/quanta_engine/backtest/engine.py:71-73 | the next settlement is the first multiple of eight hours strictly after a time |
| `Funding.SettlementsAreExact` | packages/engine/quanta_engine/backtest/engine.py:457-475 | the settlements due between two times are every multiple strictly between them, once each |
| `Funding.AccrueCharges` | packages/engine/quanta_engine/backtest/engine.py:457-475 | inside a bar each due settlement is charged once, and the guard against earlier ones never holds |
| `Levels.SettlementMeans` | packages/engine/quanta_engine/backtest/engine.py:457-475 | a settlement charges a long the rate on its worth and pays a short as much, and the next is due eight hours later |
| `Funding.FundingIsChargedExactlyOnce` | packages/engine/quanta_engine/backtest/engine.py:457-475 | over any run on increasing times, each trade's funding is one charge for every settlement it was held over and no other |
| `Coarse.ExitsAgree` | packages/engine/quanta_engine/backtest/engine.py:176-189 | the coarse rule exits in exactly the bars in which a walk over minutes with the same extremes would |
| `Coarse.GuessIsPessimisticExactlyWhen` | packages/engine/quanta_engine/backtest/engine.py:176-189 | its price is no better than any such walk's exactly when, if the bar reaches the liquidation price or else the stop, the take profit is on the far side of that level, or the whole bar is on the near side of that level or of the stop |
| `Coarse.OrderedLevelsAreSafe` | packages/engine/quanta_engine/backtest/engine.py:176-189 | with stop and liquidation on their own side of the take profit it always is |
| `Coarse.TrailedStopCanPassTake` | packages/engine/quanta_engine/backtest/engine.py:353-392 | a trailed stop can pass the take profit, and the guess then flatters |
| `Stops.LoosensExactlyWhen` | packages/engine/quanta_engine/backtest/engine.py:353-392 | a stop moves against the trade exactly on the bar that arms break-even, with the stop already beyond the entry and the trail fallen behind it |
| `Stops.RatchetsOnceArmed` | packages/engine/quanta_engine/backtest/engine.py:380-390 | with no break-even rule, or once it armed, a stop only tightens |
| `Stops.TrailedStopFallsBack` | packages/engine/quanta_engine/backtest/engine.py:368-378 | a valid rule set and a bar on which a trailed stop falls back from 107 to the entry at 100 |
| `Money.LiquidationScales` | packages/engine/quanta_engine/backtest/liquidation.py:58-89 | under a flat tier, a position of c times the size and margin has the same liquidation price |
| `Money.AccrueScales` | packages/engine/quanta_engine/backtest/engine.py:457-475 | and pays c times the funding |
| `FeesAndCapital.StepCompares` | packages/engine/quanta_engine/backtest/engine.py:214-270 | a bar keeps two runs that differ in capital and fees comparable: same trades, queue and levels, sizes in one ratio that higher fees only lower |
| `FeesAndCapital.CapitalScales` | packages/engine/quanta_engine/backtest/engine.py:193-297 | runs that differ in capital alone have the same trades in time, price and reason, and equity in proportion at every bar and after every trade |
| `FeesAndCapital.FeesOnlyCost` | packages/engine/quanta_engine/backtest/engine.py:415-455 | as long as the dearer account stays above zero, higher fee rates move no entry, exit, price or reason and never raise the final equity per unit of capital |
| `FeesAndCapital.BrokeShortIsLiquidatedAtOnce` | packages/engine/quanta_engine/backtest/engine.py:315-340 | an account at or below zero still opens a short, which its recorded liquidation price of 0 closes in the same bar |
| `Statistics.MaxDrawdownIsDeepestExactlyWhen` | packages/engine/quanta_engine/backtest/stats.py:25-36 | for an account that starts above zero the running-peak drawdown is a fall that happened, at the bars it names, and the deepest between any two bars exactly when for every bar below zero some bar lies as deep under its running peak as that bar does under the lowest positive equity before it |
| `Statistics.MaxDrawdownIsDeepestFall` | packages/engine/quanta_engine/backtest/stats.py:25-36 | so for an account that never goes below zero it always is |
| `Statistics.NegativeEquityUnderstates` | packages/engine/quanta_engine/backtest/stats.py:25-36 | an account that goes below zero on which the deepest fall is 120% and 110% is reported |
| `Statistics.LongestDrawdownBars` | packages/engine/quanta_engine/backtest/stats.py:39-56 | the count is the longest unbroken stretch of bars each below an earlier one |
| `Statistics.ProfitFactorMeans` | packages/engine/quanta_engine/backtest/stats.py:92-96 | the factor is missing exactly when no trade lost, and at least 1 exactly when the net results do not sum below zero |
| `Combinatorics.CombinationsAreSelections` | packages/engine/quanta_engine/discover/rules.py:127-131 | the combinations of a size are exactly the order-keeping selections of that size |
| `Combinatorics.PermutationIsRearrangement` | packages/engine/quanta_engine/discover/primitives.py:293-310 | every permutation is a rearrangement |
| `Combinatorics.RearrangementIsPermutation` | packages/engine/quanta_engine/discover/primitives.py:293-310 | and every rearrangement is among the permutations |
| `Primitives.GroupByScale` | packages/engine/quanta_engine/discover/primitives.py:137-146 | the groups are one a scale present, in order of first appearance, each with its lines in order |
| `Generation.BuildPrimitives` | packages/engine/quanta_engine/discover/primitives.py:157-343 | the nested loops append exactly the specified list, in its order |
| `Generation.BuiltIsSupported` | packages/engine/quanta_engine/discover/primitives.py:157-343 | a primitive is generated exactly when the lines support it: one line, a level of its scale, two lines of one scale in order, an ordering of a scale with three or more, or a price and an oscillator |
| `Generation.BuiltOnce` | packages/engine/quanta_engine/discover/primitives.py:157-343 | from lines that are all different each is generated once |
| `Generation.BuiltCount` | packages/engine/quanta_engine/discover/primitives.py:157-343 | how many: six a line, four a level, six a pair, a factorial a scale of three or more, four a price and oscillator |
| `Generation.SubjectsMean` | packages/engine/quanta_engine/discover/primitives.py:157-343 | two primitives share a subject exactly when they are about one slope, extreme, level, pair, spread, group or divergence |
| `Signals.TriggerSettlesSubject` | packages/engine/quanta_engine/discover/rules.py:119-122 | on any data, a filter on the trigger's own subject follows from the trigger or excludes it |
| `Signals.OneOrder` | packages/engine/quanta_engine/discover/signals.py:107-114 | no bar shows one group stacked in two orders |
| `Signals.FiltersExclude` | packages/engine/quanta_engine/discover/rules.py:94-97 | on any data, two different filters on one subject are never both true |
| `SignalsCausal.MaskIsCausal` | packages/engine/quanta_engine/discover/signals.py:47-156 | the mask of the first bars is the first bars of the mask, although its arrays wrap round |
| `SignalsCausal.HoldsOnNumbers` | packages/engine/quanta_engine/discover/signals.py:47-156 | a primitive holds only after its warm-up and only where each of its lines has a number |
| `MaskMeaning.MasksMean` | packages/engine/quanta_engine/discover/signals.py:47-156 | on data without infinities every kind of primitive holds exactly when enough bars came before, the cells it looks at are numbers, and they are as it says: rising over one bar, turning over two, the extreme of twenty bars, across a level or a line, nearer together than five bars before, stacked in order, or past the twenty bars before on one line and not on the other |
| `SignalsCausal.DivergenceMirrors` | packages/engine/quanta_engine/discover/signals.py:123-156 | bullish and bearish divergences are mirror images, and regular and hidden ones exchange the two lines |
| `Rules.EnumerateRules` | packages/engine/quanta_engine/discover/rules.py:100-137 | the generator, run to its end, yields exactly the specified list |
| `Rules.EnumeratedIsValid` | packages/engine/quanta_engine/discover/rules.py:100-137 | a rule is yielded exactly when its trigger and an order-keeping selection of filters, at most so many, have all different subjects and meet the options |
| `Rules.WantedMeans` | packages/engine/quanta_engine/discover/rules.py:113-137 | a rule is wanted exactly when it touches lines of two different indicators, if asked to mix, and every chip required |
| `Rules.EnumeratedOnce` | packages/engine/quanta_engine/discover/rules.py:40-44 | no two yielded rules have the same trigger and the same set of filters |
| `Rules.EverySetIsEnumerated` | packages/engine/quanta_engine/discover/rules.py:100-137 | every trigger with every admissible set of filters is yielded, as the selection of that set |
| `Rules.CountRawCombinations` | packages/engine/quanta_engine/discover/rules.py:76-91 | the running product divides exactly at every step and the total counts the subsets of every size up to the bound |
| `Rules.CountRules` | packages/engine/quanta_engine/discover/rules.py:140-158 | counting with a limit gives the total or one past the limit, whichever is less |
| `Pruning.ReduceMeans` | packages/engine/quanta_engine/discover/rules.py:94-137 | on any bar, a rule holds exactly when its reduction does, and never if it reduces to a contradiction |
| `Pruning.PruningKeepsMeaning` | packages/engine/quanta_engine/discover/rules.py:94-137 | every trigger with any filters within the bound is enumerated, or never holds on any data, or holds on exactly the bars of an enumerated rule with fewer filters |
| `FalseDiscovery.BenjaminiHochberg` | packages/engine/quanta_engine/discover/stats.py:154-177 | the sorted loops pass exactly the first ranks up to the largest number that steps up, and report its level |
| `FalseDiscovery.PassesExactly` | packages/engine/quanta_engine/discover/stats.py:154-189 | what passes is exactly what lies within the threshold, so ties are never split; as many pass as the largest number that steps up; the threshold times the tests is the share allowed to be chance |
| `FalseDiscovery.PassingGrows` | packages/engine/quanta_engine/discover/stats.py:154-177 | p-values nowhere larger at a rate no smaller keep every hit |
| `FalseDiscovery.CorrectionOnlyRemoves` | packages/engine/quanta_engine/discover/search.py:116-154 | the threshold never exceeds the uncorrected rate |
| `HeldOut.SplitLeavesBoth` | packages/engine/quanta_engine/discover/stats.py:192-194 | with two bars or more both stretches have one |
| `HeldOut.SplitMeans` | packages/engine/quanta_engine/discover/stats.py:192-194 | the cut is the rounded share of the bars, kept between the second bar and the last |
| `HeldOut.ReturnsMean` | packages/engine/quanta_engine/discover/stats.py:76-88 | a forward return times its close is a hundred times the change to the close the horizon later, and it is there exactly when that close is and the first is not zero |
| `HeldOut.ScoresMean` | packages/engine/quanta_engine/discover/stats.py:91-137 | below 20 returns a score says only their number; from there on the mean for the side, the mean less the cost, the share of winners, and a test that counts overlapping returns once a horizon |
| `HeldOut.InSampleStopsAt` | packages/engine/quanta_engine/discover/search.py:80-110 | the in-sample returns depend on no close at or after the cut plus the horizon |
| `HeldOut.SampleKeepsToItselfExactlyWhen` | packages/engine/quanta_engine/discover/stats.py:76-88 | the in-sample returns depend on no held-out close exactly when the rule holds on no in-sample bar whose close is not zero and whose later close exists and lies past the cut |
| `HeldOut.ScoreKeepsToItselfExactlyWhen` | packages/engine/quanta_engine/discover/stats.py:91-137 | the whole in-sample score depends on no held-out close exactly when there are fewer than 20 usable returns or no such bar |
| `HeldOut.InSampleReadsHeldOut` | packages/engine/quanta_engine/discover/stats.py:76-137 | with twenty in-sample bars or more whose future is in the data, the in-sample score of a rule that always holds changes with a held-out close |
| `HeldOut.HeldOutStartsAt` | packages/engine/quanta_engine/discover/search.py:119-141 | the held-out returns depend on no close before the cut |
| `WalkForward.BuildWindows` | packages/engine/quanta_engine/forward/walkforward.py:124-160 | the windows are the rolling ones from the start, and every one that fits up to the number allowed |
| `WalkForward.WindowsRoll` | packages/engine/quanta_engine/forward/walkforward.py:124-160 | a window is fitted over its days and tested over the days after them, and the next begins one test later |
| `WalkForward.WindowsAreCounted` | packages/engine/quanta_engine/forward/walkforward.py:144-160 | there are no more windows than allowed, all end in the range, and there are fewer only when the next would not |
| `WalkForward.SliceIs` | packages/engine/quanta_engine/forward/walkforward.py:163-173 | a slice is exactly the bars from its start up to its end |
| `WalkForward.TestedOnce` | packages/engine/quanta_engine/forward/walkforward.py:124-173 | the test slices put together are exactly the bars from the first test's start to the last one's end, in order |
| `WalkForward.NothingTestedIsFitted` | packages/engine/quanta_engine/forward/walkforward.py:124-173 | no bar a window is tested on is one it or an earlier window was fitted on, nor one an earlier window was tested on |
| `WalkForward.LastBarIsNeverTested` | packages/engine/quanta_engine/forward/walkforward.py:144-160 | the last bar of the data is in no test slice |
| `WalkForwardRun.GridIsExact` | packages/engine/quanta_engine/forward/walkforward.py:176-188 | the grid is refused exactly above the limit, and otherwise holds exactly the choices of one value for each name |
| `WalkForwardRun.Fit` | packages/engine/quanta_engine/forward/walkforward.py:259-277 | the loop over candidates computes the specified choice or the first failure |
| `WalkForwardRun.ChosenIsBest` | packages/engine/quanta_engine/forward/walkforward.py:259-277 | the chosen parameters are those of the first best candidate among the ones that traded enough, or the strategy's own |
| `WalkForwardRun.ScoresAreGains` | packages/engine/quanta_engine/forward/walkforward.py:259-277 | the score of a candidate is what its account gained in percent of the capital, which is all its trades together |
| `WalkForwardRun.CandidatesMean` | packages/engine/quanta_engine/forward/walkforward.py:191-198 | a candidate replaces the strategy's parameters of the same names and nothing else |
| `WalkForwardRun.WindowsMean` | packages/engine/quanta_engine/forward/walkforward.py:241-303 | a window is fitted on exactly the bars from its start up to the test and tested with the chosen parameters on exactly those from there up to its end; with fewer than two bars in either it is passed over |
| `WalkForwardRun.WindowsSeeNoFuture` | packages/engine/quanta_engine/forward/walkforward.py:241-303 | bars at or after a window's end change neither its result nor an earlier one |
| `WalkForwardRun.ChainCurve` | packages/engine/quanta_engine/forward/walkforward.py:306-313 | the loops append exactly the specified chained curve |
| `WalkForwardRun.ChainCompounds` | packages/engine/quanta_engine/forward/walkforward.py:306-313 | the curve starts at the capital, every tested window goes on where the last one ended, and it ends at the capital times all growths |
| `WalkForwardRun.ResultsStarted` | packages/engine/quanta_engine/forward/walkforward.py:306-313 | each tested path starts at the capital, so the chain never divides by zero |
| `WalkForwardRun.RunWalkForward` | packages/engine/quanta_engine/forward/walkforward.py:201-334 | the whole run: which refusal comes when (too few bars, too many combinations, bad lengths, no window, the first failing backtest) and otherwise the results of its windows, the chain over their paths and the total percentage as compounded growth |
| `WalkForwardRun.TotalsMean` | packages/engine/quanta_engine/forward/walkforward.py:318-328 | the total is what the chained curve gained, in percent of the capital, and there is none without a curve |
| `Throttle.RateLimiter.TryAcquire` | apps/api/quanta/exchanges/throttle.py:48-60 | a turn inside the lock refills, then spends the tokens or says exactly how long to sleep |
| `Throttle.RateLimiter.AcquireAlone` | apps/api/quanta/exchanges/throttle.py:48-63 | with nobody else, the loop ends: refused above capacity, admitted now, or after exactly the computed wait |
| `Throttle.AdmittedExactlyAfterWait` | apps/api/quanta/exchanges/throttle.py:57-63 | a refused caller left alone is admitted exactly once it has slept the wait it was given |
| `Throttle.AlwaysWithin` | apps/api/quanta/exchanges/throttle.py:38-46 | over any schedule of callers the tokens stay between 0 and the capacity |
| `Throttle.TurnsMean` | apps/api/quanta/exchanges/throttle.py:38-60 | a turn fills the bucket up to its capacity at the rate a period, serves a caller that finds enough, and tells another exactly how long until there is |
| `Throttle.NeverFasterThanPace` | apps/api/quanta/exchanges/throttle.py:38-60 | over any schedule, the tokens granted in a stretch are at most one bucket and what flows in over it |
| `Risk.RiskGuard.CheckEquity` | apps/api/quanta/services/risk.py:156-191 | the guard observes the equity, then refuses and halts exactly on the damage limits |
| `Risk.RiskGuard.CheckOrder` | apps/api/quanta/services/risk.py:195-259 | an exit passes untouched; an opening order meets damage, leverage, rate and size in that order |
| `Verdicts.VerdictsMean` | apps/api/quanta/services/risk.py:156-259 | the verdict in plain amounts: an exit passes, and an opening order meets the loss since the day's first equity, the fall from the peak, the leverage, the orders of the last minute and what would be held with it, in that order, the first three halting the bot |
| `Verdicts.AlwaysOnMidnight` | apps/api/quanta/services/risk.py:91-131 | over any run the guard's day starts at a midnight |
| `Verdicts.MinuteMeans` | apps/api/quanta/services/risk.py:141-144 | the orders remembered are exactly those less than a minute old |
| `Risk.RiskState.Trim` | apps/api/quanta/services/risk.py:141-144 | the loop drops exactly the orders a minute old or older |
| `Risk.ExitsAlwaysPass` | apps/api/quanta/services/risk.py:210-213 | after any run a reduce-only order is allowed and leaves the guard as it was, and any other order is judged as if no exit had ever been, but for the pace |
| `Risk.ExitsMoveNoLevel` | apps/api/quanta/services/risk.py:120-131 | over any run the levels that losses are measured from are those of the run without its exits |
| `Risk.FullBudgetIsHalt` | apps/api/quanta/services/risk.py:273-288 | a budget reads 100 exactly when the same equity halts the bot |
| `Risk.OfferedQtyFits` | apps/api/quanta/services/risk.py:261-271 | a quantity fits the position limit exactly when it is within what the guard offers |
| `Verdicts.BudgetsMean` | apps/api/quanta/services/risk.py:273-288 | a bar reads the used share of its limit in percent, never below 0 or above 100 |
| `Risk.QueueIsLastMinute` | apps/api/quanta/services/risk.py:133-144 | over any run the queue, asked at a time, holds exactly the recorded orders of the last minute |
| `Risk.NeverTooManyOrders` | apps/api/quanta/services/risk.py:228-244 | over any run no minute holds more recorded opening orders than the limit |
| `Risk.PeakIsHighestSeen` | apps/api/quanta/services/risk.py:120-131 | over any run the peak is the highest of the starting equity and every equity seen |
| `Risk.DayStartsAtFirstLook` | apps/api/quanta/services/risk.py:120-131 | the daily loss is measured from the first equity seen on the latest day any was |
| `Venues.PlacedFiles` | apps/api/quanta/exchanges/sim/trading.py:214-249 | placing keeps every order filed once under its own id, and creates one exactly when the id is new |
| `Fills.PlacedMeans` | apps/api/quanta/exchanges/sim/trading.py:214-358 | a known id changes nothing; a limit order that does not cross rests; a close with nothing to close and an opening order without margin are rejected; everything else fills |
| `Fills.FillsAddUp` | apps/api/quanta/exchanges/sim/trading.py:320-428 | an opening fill moves its book's signed position by its signed quantity, a reducing one moves it towards zero and no further, and no other position moves |
| `Fills.RequestsMean` | apps/api/quanta/services/execution.py:198-212 | an exit in hedge mode acts on the other side's book and every other order on its own |
| `Venues.ReduceOnlyShrinks` | apps/api/quanta/exchanges/sim/trading.py:320-428 | placing a reduce-only order makes no position larger, turns none round and opens none |
| `Exits.ReducesExactlyWhen` | apps/api/quanta/exchanges/sim/trading.py:320-461 | an event on a reduce-only order enlarges, turns round or opens a position exactly when it is the fill of a resting one whose position has gone |
| `Exits.RunReducesExactlyWhen` | apps/api/quanta/exchanges/sim/trading.py:320-461 | a run of such events only ever shrinks positions exactly when no resting order fills after its position has gone, and then ends within the positions it began with |
| `Exits.OverstayedExitOpens` | apps/api/quanta/exchanges/sim/trading.py:364-376 | buying, leaving a reduce-only limit sell resting, closing at market and letting the resting one fill ends with a short |
| `Execution.ExecutionService.Place` | apps/api/quanta/services/execution.py:186-268 | the outcome, the venue and the risk guard after placing, for every verdict and every way the call can be lost: an order is recorded with the guard exactly when the venue answered |
| `Execution.ExecutionService.Kill` | apps/api/quanta/services/execution.py:366-439 | the loops over contexts and positions, with the clock read for each position, leave exactly the specified account and report |
| `Fills.CancelMeans` | apps/api/quanta/services/execution.py:382-395 | a kill first cancels exactly the open orders of its symbol and reports how many it was told of |
| `Fills.ClosesMean` | apps/api/quanta/services/execution.py:400-425 | a close asks for the whole of the position it was read from, on its own book, only to reduce it |
| `Execution.AtMostOneOrder` | apps/api/quanta/services/execution.py:162-175 | over any run of sends, closes of a kill, losses, repeats, fills and cancellations, the venue creates at most one order for an intent, and none serves two intents |
| `Execution.RetryChangesNothing` | apps/api/quanta/exchanges/trading.py:302-308 | over any run, once a call for an intent has arrived every later one changes nothing at the venue and is answered with the first order |
| `Execution.OutcomesAreTrue` | apps/api/quanta/services/execution.py:186-268 | for the rest of any run a placed order stays at the venue and is never rejected, a rejected one stays rejected, a blocked or failed call put nothing there, and an uncertain one did nothing or left an order that stays |
| `Execution.ResolvedHasArrived` | apps/api/quanta/services/execution.py:270-291 | an intent that asking the venue resolves as placed had a call of its own that arrived |
| `KillSwitch.KillAllOnlyShrinks` | apps/api/quanta/services/execution.py:366-439 | a kill opens, enlarges or turns round no position and leaves no order of its own resting, whatever positions its reads return and whatever is lost |
| `KillSwitch.CloseWorksExactlyWhen` | apps/api/quanta/services/execution.py:400-431 | a close that arrives removes its position exactly when its client id is new at the venue and the bot has not taken a hedge account for a one-way one |
| `KillSwitch.CleanKillIsFlat` | apps/api/quanta/services/execution.py:366-439 | with contexts that know the mode, read positions as they are and send no two closes of one bot and index in one second, every position of a killed symbol is gone or the symbol is among the failures, so a clean report leaves none |
| `KillOutcome.KillClosesExactlyWhen` | apps/api/quanta/services/execution.py:366-439 | when every call goes through and each symbol is killed once, the report is clean and counts every position held as closed, and a position is closed exactly when no order at the venue had its client id and no earlier context of its bot sent the close of the same index in the same second, in whatever order positions are listed |
| `KillSwitch.TwoSymbolsInOneSecond` | apps/api/quanta/services/execution.py:403-408 | one bot given to the kill for two symbols in one second: the report is clean and the second position stands |
| `Reconciliation.Reconcile` | apps/api/quanta/services/execution.py:293-330 | the differences are exactly the symbols on which venue and records disagree, and the bot halts exactly on a material one |
| `Reconciliation.NoDifferenceMeansAgreement` | apps/api/quanta/services/execution.py:293-330 | the records claim every position read, and only zeros besides, exactly when nothing is reported and no symbol was read with two different quantities |
| `Reconciliation.HaltsExactlyOnPresence` | apps/api/quanta/services/execution.py:124-143 | a halt comes exactly from an untracked or a vanished position, never from a drifted size |
| `Reconciliation.EverySideIsSeenExactlyWhen` | apps/api/quanta/services/execution.py:309 | every position read is compared exactly when no symbol is read with two different quantities |
| `Reconciliation.HedgeHidesASide` | apps/api/quanta/services/execution.py:309 | a long of any size goes unseen beside a short that the records know |
| `Paging.IterKlines` | apps/api/quanta/exchanges/bitunix.py:313-334 | the loop ends whatever the venue answers and yields exactly the pages of the walk |
| `Paging.WindowFits` | apps/api/quanta/exchanges/bitunix.py:307-311 | a window of the span asked for never holds more bars than the limit, its end counted in or not |
| `Paging.PagesAreComplete` | apps/api/quanta/exchanges/bitunix.py:292-334 | against an honest venue the pages hold exactly the bars of the range, in order, each once, none of them empty or over the limit |
| `Paging.FindGaps` | apps/api/quanta/services/market_store.py:196-210 | the pairwise loop appends exactly the specified windows |
| `Paging.GapsAreWhatIsMissing` | apps/api/quanta/services/market_store.py:196-210 | the windows are exactly the times between the first and last bar at which no stored bar is under way |
| `Store.UpsertBars` | apps/api/quanta/services/market_store.py:42-96 | writing chunk by chunk leaves the table that writing bar by bar leaves |
| `Store.ChunksAreWhole` | apps/api/quanta/services/market_store.py:24-31 | chunks lose, repeat and reorder nothing, and none binds more parameters than allowed |
| `Store.ClosedStaysClosed` | apps/api/quanta/services/market_store.py:42-96 | no number of writes changes a closed bar |
| `Store.OpenTakesFirstClosed` | apps/api/quanta/services/market_store.py:42-96 | a bar not yet closed ends as the first closed version written |
| `Store.OpenTakesLastWritten` | apps/api/quanta/services/market_store.py:42-96 | and as the last version written when none is closed |
| `Store.RewriteChangesNothing` | apps/api/quanta/services/market_store.py:42-96 | writing a list of different times again changes nothing |

## Left out

- FeesAndCapital.FeesOnlyCost: needs the dearer account above zero after each of its trades, slippage of at most
  100%, positive prices and a trailing multiple that is not negative; an account at or below zero opens positions of no
  or negative size, for which `FeesAndCapital.BrokeShortIsLiquidatedAtOnce` shows that the trades differ.
- FeesAndCapital.CapitalScales: holds under one flat maintenance tier; a ladder of tiers makes the liquidation price
  depend on size.
- Paging.PagesAreComplete: where the venue counts the end of a window in, a bar opening exactly at the end of the range
  may follow the range's own bars.
- Statistics.MaxDrawdownIsDeepestExactlyWhen: needs an account that starts above zero, as every backtest does.
- KillSwitch.CleanKillIsFlat: its condition is sufficient; `KillOutcome.KillClosesExactlyWhen` is exact for kills in
  which no call is lost, no read is stale and no symbol comes twice.
- Lexer.ScanAt: letters and digits outside ASCII are unexpected characters here, where `isalpha` and `isdigit` accept
  some.
- Lexer.TokenizeLoop: as `Lexer.ScanAt`.
- Decimals.NormaliseKeepsValue: a finite literal keeps its exact digits; float() rounds it to a double, so that two
  literals closer than a double can tell, or too small to tell from zero, are different numbers here.
- IEEE rounding and signed zero; `Decimal` contexts.
- Error messages and positions.
- The wall-clock budget of an evaluation; the standard deviation is a function of its window given from outside.
- Texts of primitive and rule keys: a key is the structured statement, and lines are known by their keys.
- The JSON and SHA-256 of the version hash around the canonical text; the parameters and exits hashed with it.
- The standard deviation, t-statistic and p-value of a search's score, which are functions given from outside; labels
  and progress reports.
- Sharpe, Sortino, buy-and-hold and the other ratios of a backtest's statistics.
- Funding events are taken as already sorted by time; the sort is not modelled.
- Mark-price closes, which the engine carries but does not read: liquidation is on the bar's own high and low.
- Time in force, stop types, attached exits, margin and partial fills at the venue, beyond what decides whether an order
  rests, fills, is cancelled or is refused.
- The ValueErrors of an order request without a positive quantity, a client id or a limit price.
- Two rows for one bar in a single upsert statement, which the database refuses.
- Parsing of venue rows, HTTP, WebSockets, authentication, key storage, tunnels, notifications, the database and its
  migrations, the web application.
- Monte Carlo, risk of ruin, parameter robustness and paper trading.
- asyncio scheduling beyond the order in which callers take a lock.
