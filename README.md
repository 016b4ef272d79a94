# Volatility-arbitrage backtester: a Dafny model

This project models the backtesting core of the C++ library
`VolatilityArbitrage` (repository yuvrajdoshi/delta-neutral-options-pricing)
and proves properties of that model. The model covers:

- the calendar types `core::DateTime` and `core::TimeDelta`;
- the time-series container `core::TimeSeries`;
- the market observation `core::MarketData`;
- the instruments (`Equity`, and options as far as the strategy layer sees them);
- the GARCH parameter check of `ModelFactory`;
- the trading records `Position`, `Trade` and `Signal`;
- the `Portfolio`;
- the `VolatilitySpreadSignal` generator;
- the `DeltaHedgingStrategy`;
- the `VolatilityArbitrageStrategy`;
- `BacktestParameters`, `BacktestResult` and the `BacktestEngine`.

How the C++ constructs map to Dafny:

- **Value types become datatypes.** The C++ types that are copied by value are Dafny datatypes: `DateTime`, `TimeDelta`, `TimeSeries`, `MarketData`, `Position`, `Trade` and `Signal`. Their setters are functions (or methods) that return the updated value.
- **Objects become classes.** The objects whose identity matters are Dafny classes with mutable fields and `modifies` frames: `Portfolio`, the strategy, the hedger, the signal generator, the parameters, the result and the engine.
- **Polymorphism is concrete.** The abstract interfaces (`Strategy`, `SignalGenerator`, `HedgingStrategy`, `VolatilityModel`, `Instrument`) each have one concrete implementation in the model:
  - the engine runs a `VolatilityArbitrageStrategy`;
  - the strategy holds a `VolatilitySpreadSignal` and an optional `DeltaHedgingStrategy`;
  - a volatility model is known only through its `forecast` function;
  - an instrument is an `Equity` or an option contract.
- **Pricing is uninterpreted.** Option price, delta, gamma, vega and theta (Black–Scholes numerics) are function-valued fields of `Instruments.Market`. Every property proved about the strategy and the engine therefore holds for any pricing model. Equity pricing is concrete: close times shares, and a throw when the bar is for another symbol.
- **Exceptions become values.** Every thrown exception is a `Result`/`Outcome` value carrying the exception kind: `InvalidArgument`, `OutOfRange` or `RuntimeError`.
- **Doubles are reals.** `double` arithmetic is modelled by exact reals. Where a division by zero is reachable, `Results.Ext` adds +∞, −∞ and NaN and follows IEEE comparison rules. This happens in the drawdowns, the total return and the profit factor.
- **Loops are proved against specifications.** Each loop of the source is a Dafny `while` loop. It is proved against a recursive specification function, and the source's promises are proved as lemmas about that function.
- **Ordered containers are listed in ascending order.** A `std::set` or `std::map` iterates in ascending key order. The model keeps a Dafny set and lists it through an explicit strict total order: `Ordering.Ascend`, using `DateTime`'s and `std::string`'s `operator<`.

Where the code and the library's design notes disagree, the model follows the code:

- **Metric getters can throw.** The getters are documented never to raise, but `calculateMetrics` computes the Sharpe ratio first, and that can throw in two ways. `TimeSeries::pctChange` throws runtime_error on a zero value before the last point. For a curve of exactly three points, one return is left once the first is dropped, and `core::variance` throws invalid_argument for fewer than two values (`BacktestResult.cpp:152-167`, `Math.cpp:19-21`). `Results.MetricsThrow` states when either happens. `Results.BacktestResult.CachedMetric` and the other cache-filling members therefore have an error path.
- **Negative costs are checked only when costs are on.** Negative transaction-cost fields are refused only when transaction costs are switched on (`BacktestEngine.cpp:191-195`).
- **The profit factor can be +∞ with zero-value trades.** The profit factor is +∞ whenever no trade has a negative net value and at least one has a positive one. Trades of net value exactly 0 do not prevent it (`BacktestResult.cpp:289-300`).
- **The engine records placeholders.** The engine records a placeholder trade (BUY 100 at the close) whenever a bar changes the position count. It also records a placeholder equity curve, `initialCapital * (1 + 0.001 i)`. Both are modelled as written.

## Model

| member | source | states |
|---|---|---|
| DateTimes.IsLeapYear | src/core/DateTime.cpp:362-364 | the Gregorian rule: divisible by 4 and not by 100, or divisible by 400 (definition; used by DaysInMonth and LeapDaySetYear) |
| DateTimes.IsValidDate | src/core/DateTime.cpp:349-354 | a date is valid for years 1900–3000, months 1–12 and a day within the month (definition; its consequences are stated by Make and the setters) |
| DateTimes.DaysInMonth | src/core/DateTime.cpp:362-370 | a month has 28–31 days, and 29 exactly for February of a leap year |
| DateTimes.Make | src/core/DateTime.cpp:137-143 | the six-field constructor succeeds exactly for a valid date and time, yields a valid timestamp holding the given fields, and throws invalid_argument otherwise |
| DateTimes.MakeDate | src/core/DateTime.cpp:134-135 | the date constructor is midnight of a valid date and throws invalid_argument for an invalid one |
| DateTimes.SetYear | src/core/DateTime.cpp:178-183 | the year changes only if the date stays valid in the new year; nothing else changes; otherwise invalid_argument |
| DateTimes.SetMonth | src/core/DateTime.cpp:185-190 | the month changes only if the day exists in it; nothing else changes; otherwise invalid_argument |
| DateTimes.SetDay | src/core/DateTime.cpp:192-197 | the day changes only to a day of the current month; otherwise invalid_argument |
| DateTimes.SetHour | src/core/DateTime.cpp:199-204 | the hour changes only to 0..23; otherwise invalid_argument |
| DateTimes.SetMinute | src/core/DateTime.cpp:206-211 | the minute changes only to 0..59; otherwise invalid_argument |
| DateTimes.SetSecond | src/core/DateTime.cpp:213-218 | the second changes only to 0..59; otherwise invalid_argument |
| DateTimes.SettersKeepValid | src/core/DateTime.cpp:178-218 | a setter that succeeds on a valid timestamp yields a valid timestamp |
| DateTimes.LeapDaySetYear | src/core/DateTime.cpp:178-183 | a 29 February moves exactly to the leap years of 1900–3000; any other day of a valid date moves to every year of that range |
| DateTimes.Less | src/core/DateTime.cpp:267-274 | operator< compares year, month, day, hour, minute, second lexicographically (definition; LessIsStrictTotalOrder states its order properties) |
| DateTimes.LessIsStrictTotalOrder | src/core/DateTime.cpp:267-274 | `operator<` is irreflexive, asymmetric, transitive and total, with equality as the only incomparability |
| DateTimes.DerivedComparisons | src/core/DateTime.cpp:276-286 | `>` and `>=` are the converses of `<` and `<=`, and `<=` is antisymmetric |
| DateTimes.FieldFacts | src/core/DateTime.cpp:224-230 | a zero-filled field of width w for 0 <= n < 10^w is exactly w digits and reads back as n |
| DateTimes.ToString | src/core/DateTime.cpp:221-251 | the two recognised formats, and the full form for any other (definition; ToStringLayout, ToStringFormats and ToStringInjective state its properties) |
| DateTimes.ToStringLayout | src/core/DateTime.cpp:221-251 | a valid timestamp prints as 19 characters, with the separators and every zero-filled field at fixed offsets |
| DateTimes.ToStringFormats | src/core/DateTime.cpp:221-251 | the date-only format is the prefix of the full form, and every unrecognised format falls back to the full form |
| DateTimes.ToStringInjective | src/core/DateTime.cpp:221-251 | distinct valid timestamps print differently |
| DateTimes.NextDayFacts | src/strategy/VolatilityArbitrageStrategy.cpp:37-38 | one calendar day later is strictly later and valid, except at the last day of the year-3000 range |
| DateTimes.AddDays | src/strategy/VolatilityArbitrageStrategy.cpp:37-38 | n calendar days later at the same time of day (definition; AddDaysLater states that it moves strictly later) |
| DateTimes.AddDaysLater | src/strategy/VolatilityArbitrageStrategy.cpp:95-97 | adding a positive number of days moves strictly later and keeps the time of day |
| DateTimes.QuotRemNegate | src/core/DateTime.cpp:28-42 | C++ truncating division and remainder are odd in the dividend, unlike Euclidean ones |
| DateTimes.Decompose | src/core/DateTime.cpp:28-42 | days, hours, minutes and seconds recompose the total for every duration, each component stays in its range, and each has the sign of the total |
| DateTimes.PartsRoundTrip | src/core/DateTime.cpp:17-42 | components given in their natural ranges to the four-argument constructor are read back unchanged |
| DateTimes.DeltaArithmetic | src/core/DateTime.cpp:44-99 | `+`, `-` and unary `-` behave as integer addition: subtraction undoes addition, negation is an involution that reverses `<`, and addition commutes |
| DateTimes.TruncateReal | src/core/DateTime.cpp:52-54 | the cast to `long long` truncates towards zero, within one of the real value |
| DateTimes.DivideBy | src/core/DateTime.cpp:56-61 | division throws invalid_argument exactly for a zero divisor |
| DateTimes.ScaleDivideRoundTrip | src/core/DateTime.cpp:52-61 | scaling by a non-zero whole number is exact and dividing by it restores the duration |
| DateTimes.DeltaToString | src/core/DateTime.cpp:101-117 | an optional "-", "<d> days, " when there are whole days, then HH:MM:SS of the magnitude (definition; DeltaToStringUnderADay states its width and sign) |
| DateTimes.DeltaToStringUnderADay | src/core/DateTime.cpp:101-117 | a duration under a day prints as 8 characters, or 9 with a leading "-", and the "-" appears exactly when it is negative |
| TimeSeriesCore.Named | src/core/TimeSeries.cpp:12-14 | the default and name-only constructors make an empty, well-formed series with that name |
| TimeSeriesCore.New | src/core/TimeSeries.cpp:16-21 | the vector constructor succeeds exactly when the two vectors have the same length, and keeps them; otherwise invalid_argument |
| TimeSeriesCore.IndexOf | src/core/TimeSeries.cpp:26 | std::find returns the first index holding the timestamp |
| TimeSeriesCore.LowerBound | src/core/TimeSeries.cpp:32-34 | std::lower_bound returns the first index whose timestamp is not before the key, with everything before it earlier |
| TimeSeriesCore.SortedIsPartitioned | src/core/TimeSeries.cpp:32-34 | a strictly increasing series meets std::lower_bound's precondition for every key |
| TimeSeriesCore.AddDataPoint | src/core/TimeSeries.cpp:24-39 | addDataPoint overwrites the value at the first occurrence of the timestamp, or inserts the point at its lower bound |
| TimeSeriesCore.InsertKeepsSorted | src/core/TimeSeries.cpp:32-37 | inserting a new timestamp at its lower bound keeps a strictly increasing series strictly increasing |
| TimeSeriesCore.WithPointShape | src/core/TimeSeries.cpp:24-39 | the size stays the same for a present timestamp and grows by one otherwise; exactly that timestamp is added; sortedness is kept |
| TimeSeriesCore.WithPointLookup | src/core/TimeSeries.cpp:24-39 | after addDataPoint(t, v), getValue(t) is v and every other timestamp keeps its value |
| TimeSeriesCore.Clear | src/core/TimeSeries.cpp:41-44 | clear empties both vectors and keeps the name |
| TimeSeriesCore.ValueAtIndex | src/core/TimeSeries.cpp:55-60 | getValue(index) is the stored value for an index below the size and out_of_range otherwise |
| TimeSeriesCore.ValueAt | src/core/TimeSeries.cpp:62-69 | getValue(timestamp) succeeds exactly for a present timestamp, with the value at its first occurrence (std::find); otherwise invalid_argument |
| TimeSeriesCore.TimestampAt | src/core/TimeSeries.cpp:71-76 | getTimestamp(index) is the stored timestamp or out_of_range |
| TimeSeriesCore.DataPointAt | src/core/TimeSeries.cpp:78-83 | getDataPoint(index) is the stored pair or out_of_range |
| TimeSeriesCore.KeptFacts | src/core/TimeSeries.cpp:94-106 | the selected indices are exactly the in-window ones, increasing and each once |
| TimeSeriesCore.SubseriesByTime | src/core/TimeSeries.cpp:94-106 | getSubseries(start, end) keeps the points with start <= t <= end, in stored order, and names the result with "_subseries" |
| TimeSeriesCore.SubseriesByTimeMeaning | src/core/TimeSeries.cpp:94-106 | the time window of a sorted series holds exactly its in-window timestamps and stays sorted |
| TimeSeriesCore.SubseriesByIndex | src/core/TimeSeries.cpp:108-117 | getSubseries(i, j) is points i..j inclusive when i <= j < size, and out_of_range otherwise |
| TimeSeriesCore.SumConcat | src/core/TimeSeries.cpp:120-126 | std::accumulate distributes over concatenation |
| TimeSeriesCore.Mean | src/core/TimeSeries.cpp:120-126 | the mean exists exactly for a non-empty series, and times the size is the sum; otherwise runtime_error |
| TimeSeriesCore.Diff | src/core/TimeSeries.cpp:211-224 | diff needs two points (runtime_error otherwise) and gives each consecutive difference at the later timestamp, named "_diff" |
| TimeSeriesCore.DiffInverse | src/core/TimeSeries.cpp:211-224 | a running sum of the differences from the first value gives back every value |
| TimeSeriesCore.PctChange | src/core/TimeSeries.cpp:226-242 | pctChange needs two points and no zero base (runtime_error otherwise), and gives each relative change at the later timestamp |
| TimeSeriesCore.PctChangeInverse | src/core/TimeSeries.cpp:226-242 | compounding each percentage change onto its base value gives the next value |
| TimeSeriesCore.RollingMean | src/core/TimeSeries.cpp:262-279 | rollingMean needs 1 <= window <= size (invalid_argument otherwise); entry k is the mean of window k, stamped at its last point |
| TimeSeriesCore.WindowSum | src/core/TimeSeries.cpp:268-273 | the inner accumulation loop computes the sum of the window |
| TimeSeriesCore.MeansAppend | src/core/TimeSeries.cpp:262-279 | appending the next window's mean keeps every entry the mean of its window |
| TimeSeriesCore.RollingMeanSlides | src/core/TimeSeries.cpp:262-279 | consecutive rolling means differ by (entering value − leaving value) / window |
| MarketDataCore.New | src/core/MarketData.cpp:16-19 | the constructor stores the seven fields and no additional data |
| MarketDataCore.HasAdditionalData | src/core/MarketData.cpp:63-65 | a key is present exactly when the map holds it (definition; GetAdditionalData succeeds exactly then) |
| MarketDataCore.GetAdditionalData | src/core/MarketData.cpp:55-65 | getAdditionalData succeeds exactly for a stored key (hasAdditionalData), with the stored value, and throws invalid_argument otherwise |
| MarketDataCore.SetAdditionalData | src/core/MarketData.cpp:51-53 | setAdditionalData stores one key and leaves every other key and every field unchanged |
| MarketDataCore.ExtractTimeSeries | src/core/MarketData.cpp:122-145 | extractTimeSeries yields one point per bar at its timestamp with the named price field, and throws invalid_argument for an unknown field on non-empty data |
| Instruments.NewEquity | src/instruments/Equity.cpp:6-11 | an equity needs a positive share count; otherwise invalid_argument |
| Instruments.NewOption | src/instruments/Option.cpp:11-17 | an option needs a positive strike; otherwise invalid_argument |
| Instruments.Type | src/instruments/Equity.cpp:24-26 | the type tag is EQUITY exactly for equities, and an option kind exactly for options |
| Instruments.Symbol | src/instruments/Option.cpp:47-54 | an equity's own symbol, an option's "<underlying>_<C or P>_<strike>_<expiry>" (definition; OptionSymbolShape states its prefix and suffix) |
| Instruments.OptionSymbolShape | src/instruments/Option.cpp:47-54 | an option's symbol starts with its underlying and ends with its expiry in full format |
| Instruments.Price | src/instruments/Equity.cpp:13-18 | an equity is priced at close times shares, and only against its own symbol's bar (invalid_argument otherwise); an option at the model price |
| Instruments.EquityRiskMetrics | src/instruments/Equity.cpp:28-44 | an equity's risk metrics are its value, intraday P&L, delta (the shares) and gamma 0, for its own symbol's bar only |
| Instruments.SetShares | src/instruments/Equity.cpp:54-59 | setShares accepts only a positive count and changes only the shares |
| Instruments.Clone | src/instruments/Equity.cpp:46-48 | a clone has the same symbol and type and prices exactly like the original |
| Models.ValidationMeaning | src/models/ModelFactory.cpp:25-40 | the accepted GARCH parameters are exactly the all-zero triple and the stationary region (omega >= 0, alpha and beta in [0, 1), alpha + beta < 1) |
| Models.CreateGARCHModel | src/models/ModelFactory.cpp:8-19 | the factory throws invalid_argument exactly for rejected parameters, and picks the default model exactly for the all-zero triple |
| Positions.NewPosition | src/strategy/Position.cpp:6-8 | the constructor stores its arguments and starts with no metadata |
| Positions.Copy | src/strategy/Position.cpp:10-16 | a copy (or copy assignment) keeps quantity, entry, metadata and symbol, and values exactly like the original |
| Positions.Value | src/strategy/Position.cpp:68-70 | getValue is quantity times price, and fails exactly when the instrument cannot be priced |
| Positions.PnL | src/strategy/Position.cpp:72-75 | getPnL is quantity times the move from the entry price, failing as pricing does |
| Positions.ValueMinusPnL | src/strategy/Position.cpp:68-75 | value minus P&L is the cost basis, quantity times entry price |
| Positions.SetQuantity | src/strategy/Position.cpp:64-66 | setQuantity changes the quantity only |
| Positions.HasMetadata | src/strategy/Position.cpp:89-91 | a key is present exactly when the metadata map holds it (definition; SetMetadata states how it changes) |
| Positions.GetMetadata | src/strategy/Position.cpp:81-87 | the stored value, or 0 for a missing key (definition; SetMetadata states how it changes) |
| Positions.SetMetadata | src/strategy/Position.cpp:77-91 | setMetadata stores one key (getMetadata then returns it, hasMetadata holds) and nothing else changes |
| Trades.DefaultTrade | src/strategy/Trade.cpp:7-10 | the default trade is a BUY of no instrument, with value and net value 0 |
| Trades.Value | src/strategy/Trade.cpp:18-20 | the notional is non-negative for a non-negative quantity and price, and 0 when either is 0 |
| Trades.NetValueSign | src/strategy/Trade.cpp:18-29 | with non-negative quantity, price and cost, a purchase never brings cash in and costs only lower the flow |
| Trades.NetValueMirror | src/strategy/Trade.cpp:22-29 | selling instead of buying the same order raises the net flow by twice the notional; the two flows together lose twice the cost |
| Trades.ActionToString | src/strategy/Trade.cpp:53-59 | the printed name of an action parses back to that action |
| Trades.StringToAction | src/strategy/Trade.cpp:61-65 | stringToAction accepts exactly "BUY" and "SELL", and throws invalid_argument otherwise |
| Trades.ActionRoundTrip | src/strategy/Trade.cpp:53-65 | action names round-trip in both directions |
| Trades.Equivalent | src/strategy/Trade.cpp:41-47 | operator==: same instrument, action and time, quantity and price within 1e-10, cost ignored (definition; EquivalenceFacts and EquivalenceNotTransitive state its properties) |
| Trades.Before | src/strategy/Trade.cpp:49-51 | operator< orders trades by timestamp alone (definition) |
| Trades.EquivalenceFacts | src/strategy/Trade.cpp:41-51 | `==` is reflexive and symmetric, ignores the cost, and equal trades are unordered by `<` |
| Trades.EquivalenceNotTransitive | src/strategy/Trade.cpp:41-47 | the 1e-10 tolerance makes `==` non-transitive |
| Signals.DefaultSignal | src/strategy/Signal.cpp:6-8 | the default signal is a non-actionable HOLD of strength 0 |
| Signals.NewSignal | src/strategy/Signal.cpp:10-12 | the constructor stores its arguments with empty metadata |
| Signals.IsActionable | src/strategy/Signal.cpp:14-16 | a signal acts when it is not HOLD and its strength is positive (definition; ActionableCases states the cases) |
| Signals.ActionableCases | src/strategy/Signal.cpp:14-16 | HOLD never acts; BUY and SELL act exactly with positive strength |
| Signals.ToText | src/strategy/Signal.cpp:18-38 | "Signal[<type>, <strength>, <id>, <timestamp>]" (definition; ToTextShape states its frame) |
| Signals.ToTextShape | src/strategy/Signal.cpp:18-38 | toString starts with "Signal[" and the type name, and places the instrument id after the strength |
| Portfolios.ValueAndPnLFolds | src/strategy/Portfolio.cpp:58-76 | the valuations succeed exactly when every position can be priced, and total value minus total P&L is cash plus cost basis |
| Portfolios.DeltaConcat | src/strategy/Portfolio.cpp:78-95 | the portfolio delta is additive over concatenation |
| Portfolios.DeltaReplace | src/strategy/Portfolio.cpp:78-95 | replacing one position changes the delta by the difference of the two terms |
| Portfolios.DeltaRemove | src/strategy/Portfolio.cpp:78-95 | removing one position takes its term out of the delta |
| Portfolios.AppendNonOption | src/strategy/Portfolio.cpp:78-146 | appending a non-option adds its quantity to delta and leaves gamma, vega and theta unchanged |
| Portfolios.Portfolio.constructor | src/strategy/Portfolio.cpp:7-8 | a new portfolio holds only the initial cash |
| Portfolios.Portfolio.AddPosition | src/strategy/Portfolio.cpp:10-12 | addPosition appends and changes nothing else |
| Portfolios.Portfolio.RemovePosition | src/strategy/Portfolio.cpp:14-19 | removePosition deletes exactly one valid index, keeping the others' order, and throws out_of_range otherwise |
| Portfolios.Portfolio.UpdatePosition | src/strategy/Portfolio.cpp:21-26 | updatePosition sets one position's quantity, or throws out_of_range |
| Portfolios.Portfolio.GetPosition | src/strategy/Portfolio.cpp:28-40 | getPosition returns the indexed position, or throws out_of_range |
| Portfolios.Portfolio.PositionCount | src/strategy/Portfolio.cpp:42-44 | the number of positions held (definition) |
| Portfolios.Portfolio.AddCash | src/strategy/Portfolio.cpp:50-52 | addCash adds the amount and touches nothing else |
| Portfolios.Portfolio.RemoveCash | src/strategy/Portfolio.cpp:54-56 | removeCash subtracts the amount with no lower bound |
| Portfolios.Portfolio.TotalValue | src/strategy/Portfolio.cpp:58-66 | the loop computes the cash plus every position's value, and fails when a position cannot be priced |
| Portfolios.Portfolio.TotalPnL | src/strategy/Portfolio.cpp:68-76 | the loop computes the sum of the positions' P&L |
| Portfolios.Portfolio.CalculateDelta | src/strategy/Portfolio.cpp:78-95 | the loop computes options' quantity × delta plus other positions' quantity |
| Portfolios.Portfolio.CalculateGamma | src/strategy/Portfolio.cpp:97-112 | the loop computes the options' quantity × gamma |
| Portfolios.Portfolio.CalculateVega | src/strategy/Portfolio.cpp:114-129 | the loop computes the options' quantity × vega |
| Portfolios.Portfolio.CalculateTheta | src/strategy/Portfolio.cpp:131-146 | the loop computes the options' quantity × theta |
| SpreadSignal.Decide | src/strategy/VolatilitySpreadSignal.cpp:11-69 | generateSignal as a function of the two thresholds (definition; DecideEarlyHold and DecideRule state its cases) |
| SpreadSignal.DecideEarlyHold | src/strategy/VolatilitySpreadSignal.cpp:17-33 | a non-option, a missing implied volatility or a non-positive one gives a non-actionable HOLD without forecasting |
| SpreadSignal.DecideRule | src/strategy/VolatilitySpreadSignal.cpp:36-66 | a spread at least the entry threshold sells when positive and buys otherwise, at strength \|spread\|; a smaller one holds at 0; the exit threshold never matters; only the forecast can fail |
| SpreadSignal.VolatilitySpreadSignal.constructor | src/strategy/VolatilitySpreadSignal.cpp:7-9 | the generator stores both thresholds |
| SpreadSignal.VolatilitySpreadSignal.SetEntryThreshold | src/strategy/VolatilitySpreadSignal.cpp:79-81 | only the entry threshold changes |
| SpreadSignal.VolatilitySpreadSignal.SetExitThreshold | src/strategy/VolatilitySpreadSignal.cpp:87-89 | only the exit threshold changes |
| SpreadSignal.VolatilitySpreadSignal.Clone | src/strategy/VolatilitySpreadSignal.cpp:71-73 | a clone is a new generator with the same thresholds |
| SpreadSignal.VolatilitySpreadSignal.GenerateSignal | src/strategy/VolatilitySpreadSignal.cpp:11-69 | only an option whose forecast throws fails; a signal names the instrument and the bar's time; BUY or SELL carries a strength of at least the entry threshold, HOLD a strength of 0 |
| Hedging.HedgeIndex | src/strategy/DeltaHedgingStrategy.cpp:31-39 | the search finds the first equity position in the bar's symbol, or reports none |
| Hedging.HedgeIndexUnique | src/strategy/DeltaHedgingStrategy.cpp:31-39 | the search's exit condition determines the index |
| Hedging.NewHedgePosition | src/strategy/DeltaHedgingStrategy.cpp:52-70 | a new hedge is that quantity of one-share equity in the bar's symbol, at the close, tagged as a hedge |
| Hedging.Hedge | src/strategy/DeltaHedgingStrategy.cpp:11-72 | applyHedge on the positions and cash (definition; HedgeReachesTarget, HedgeOutsideTolerance, HedgeFrame and HedgeKeepsOptions state its properties) |
| Hedging.HedgeReachesTarget | src/strategy/DeltaHedgingStrategy.cpp:11-72 | a delta within tolerance leaves the portfolio alone; otherwise the hedge brings the delta within 1e-6 of the target, and exactly to it unless the portfolio is unchanged or the hedge position was removed |
| Hedging.HedgeOutsideTolerance | src/strategy/DeltaHedgingStrategy.cpp:41-70 | each of resize, remove and open lands within 1e-6 of the target; a resize or an open lands on it exactly |
| Hedging.HedgeFrame | src/strategy/DeltaHedgingStrategy.cpp:41-70 | a resize sets only the hedge position's quantity, to its old quantity minus the gap, and keeps every other position; a removal drops exactly the hedge position and keeps the order of the rest; an open appends one hedge of minus the gap and pays gap × close out of cash; cash moves in no other case |
| Hedging.HedgeKeepsOptions | src/strategy/DeltaHedgingStrategy.cpp:41-70 | hedging trades equities only: every option after a hedge was held before |
| Hedging.DeltaHedgingStrategy.constructor | src/strategy/DeltaHedgingStrategy.cpp:7-9 | the hedger stores target and tolerance |
| Hedging.DeltaHedgingStrategy.Default | include/strategy/DeltaHedgingStrategy.h:14 | the default arguments are target 0 and tolerance 0.01 |
| Hedging.DeltaHedgingStrategy.ApplyHedge | src/strategy/DeltaHedgingStrategy.cpp:11-72 | applyHedge leaves the portfolio's positions and cash as the hedge specification gives them |
| Hedging.DeltaHedgingStrategy.Clone | src/strategy/DeltaHedgingStrategy.cpp:74-76 | a clone is a new hedger with the same settings |
| Hedging.DeltaHedgingStrategy.SetTargetDelta | src/strategy/DeltaHedgingStrategy.cpp:82-84 | only the target changes |
| Hedging.DeltaHedgingStrategy.SetTolerance | src/strategy/DeltaHedgingStrategy.cpp:90-92 | only the tolerance changes |
| Parameters.BacktestParameters.constructor | src/strategy/BacktestParameters.cpp:5-9 | the defaults are the clock time for both dates, capital 100000, no symbols and no costs |
| Parameters.BacktestParameters.SetStartDate | src/strategy/BacktestParameters.cpp:15-17 | only the start date changes |
| Parameters.BacktestParameters.SetEndDate | src/strategy/BacktestParameters.cpp:23-25 | only the end date changes |
| Parameters.BacktestParameters.SetInitialCapital | src/strategy/BacktestParameters.cpp:31-33 | only the capital changes |
| Parameters.BacktestParameters.SetSymbols | src/strategy/BacktestParameters.cpp:39-41 | only the symbol list changes |
| Parameters.BacktestParameters.SetIncludeTransactionCosts | src/strategy/BacktestParameters.cpp:47-49 | only the cost switch changes |
| Parameters.BacktestParameters.SetTransactionCostPerTrade | src/strategy/BacktestParameters.cpp:55-57 | only the fixed cost changes |
| Parameters.BacktestParameters.SetTransactionCostPercentage | src/strategy/BacktestParameters.cpp:63-65 | only the percentage cost changes |
| ArbStrategy.IncrementDays | src/strategy/VolatilityArbitrageStrategy.cpp:141-144 | every tracked counter goes up by one, and no symbol is added or dropped |
| ArbStrategy.KeptMembers | src/strategy/VolatilityArbitrageStrategy.cpp:146-180 | the closing pass keeps exactly the positions that are not due |
| ArbStrategy.CloseDue | src/strategy/VolatilityArbitrageStrategy.cpp:160-180 | the due positions closed from last to first into the cash, failing when one cannot be priced (definition; CloseDueDefined, CloseDueKept, CloseDueCash and CloseDueDays state its effect) |
| ArbStrategy.UpdatePositionsSpec | src/strategy/VolatilityArbitrageStrategy.cpp:140-181 | updatePositions on the strategy's state (definition; UpdateLeavesNothingDue states that nothing due is left) |
| ArbStrategy.CloseDueDefined | src/strategy/VolatilityArbitrageStrategy.cpp:160-180 | the closing pass succeeds exactly when every due position can be priced |
| ArbStrategy.CloseDueKept | src/strategy/VolatilityArbitrageStrategy.cpp:160-180 | a successful closing pass keeps the positions that are not due, in order |
| ArbStrategy.CloseDueCash | src/strategy/VolatilityArbitrageStrategy.cpp:163-172 | a successful closing pass adds quantity × price of every due position to the cash |
| ArbStrategy.CloseDueDays | src/strategy/VolatilityArbitrageStrategy.cpp:177-179 | a successful closing pass erases exactly the due positions' own counters (corrected, see Findings) |
| ArbStrategy.CloseCashAdds | src/strategy/VolatilityArbitrageStrategy.cpp:168-172 | closing a long and covering a short both add quantity × price to the cash |
| ArbStrategy.UpdateLeavesNothingDue | src/strategy/VolatilityArbitrageStrategy.cpp:140-181 | after updatePositions no remaining position is due, every remaining counter went up by exactly one, and no counter is added |
| ArbStrategy.ErasedKeyAsWritten | src/strategy/VolatilityArbitrageStrategy.cpp:161-179 | as written, the erased key is the symbol of the position that moved into the closed slot, and is undefined for the last slot |
| ArbStrategy.DanglingEraseLosesOpenPosition | src/strategy/VolatilityArbitrageStrategy.cpp:161-179 | as written, closing one position can erase another open position's counter, so that position is never closed |
| ArbStrategy.OpenPosition | src/strategy/VolatilityArbitrageStrategy.cpp:76-138 | processSignal on the strategy's state (definition; OpenPositionFails and OpenPositionTrades state its cases) |
| ArbStrategy.OpenPositionFails | src/strategy/VolatilityArbitrageStrategy.cpp:93-109 | processSignal fails exactly for an inactive BUY or SELL on a non-positive close, where the call cannot be built |
| ArbStrategy.OpenPositionTrades | src/strategy/VolatilityArbitrageStrategy.cpp:76-138 | a trade happens exactly when ten contracts cost at most the cash; it appends ±10 at-the-money 30-day calls at the option price, moves the cash by −quantity × price, tags the signal strength and starts the counter at 0 |
| ArbStrategy.OpenKeepsNoOptionDue | src/strategy/VolatilityArbitrageStrategy.cpp:116-136 | opening a position keeps every tracked option below the holding period |
| ArbStrategy.HedgeKeepsNoOptionDue | src/strategy/VolatilityArbitrageStrategy.cpp:183-187 | hedging keeps every tracked option below the holding period, and leaves the counters alone |
| ArbStrategy.ProcessBarSpec | src/strategy/VolatilityArbitrageStrategy.cpp:28-53 | processBar on the strategy's state (definition; HoldingPeriodRespected states the invariant it keeps) |
| ArbStrategy.HoldingPeriodRespected | src/strategy/VolatilityArbitrageStrategy.cpp:28-53 | after any bar no tracked option position has reached the holding period, and the active-position map is never written |
| ArbStrategy.VolatilityArbitrageStrategy.constructor | src/strategy/VolatilityArbitrageStrategy.cpp:7-17 | a new strategy stores its collaborators and holding period, with an empty portfolio and nothing tracked |
| ArbStrategy.VolatilityArbitrageStrategy.Initialize | src/strategy/VolatilityArbitrageStrategy.cpp:19-26 | initialize installs a fresh portfolio of the initial capital and clears the tracking maps |
| ArbStrategy.VolatilityArbitrageStrategy.GetPortfolio | src/strategy/VolatilityArbitrageStrategy.cpp:55-57 | getPortfolio returns a copy with the same positions and cash |
| ArbStrategy.VolatilityArbitrageStrategy.Clone | src/strategy/VolatilityArbitrageStrategy.cpp:59-66 | clone copies the configuration into fresh objects with an empty state |
| ArbStrategy.VolatilityArbitrageStrategy.GetHoldingPeriod | src/strategy/VolatilityArbitrageStrategy.cpp:68-70 | the holding period (definition; SetHoldingPeriod states how it changes) |
| ArbStrategy.VolatilityArbitrageStrategy.SetHoldingPeriod | src/strategy/VolatilityArbitrageStrategy.cpp:72-74 | only the holding period changes |
| ArbStrategy.VolatilityArbitrageStrategy.DueIndices | src/strategy/VolatilityArbitrageStrategy.cpp:147-157 | the first pass selects exactly the due positions' indices, in increasing order |
| ArbStrategy.VolatilityArbitrageStrategy.CloseDuePositions | src/strategy/VolatilityArbitrageStrategy.cpp:147-180 | the closing loop, from the last due index down, leaves the state that the closing specification gives |
| ArbStrategy.VolatilityArbitrageStrategy.UpdatePositions | src/strategy/VolatilityArbitrageStrategy.cpp:140-181 | updatePositions leaves the outcome and state that the update specification gives |
| ArbStrategy.VolatilityArbitrageStrategy.ProcessSignal | src/strategy/VolatilityArbitrageStrategy.cpp:76-138 | processSignal leaves the outcome and state that the opening specification gives |
| ArbStrategy.VolatilityArbitrageStrategy.ApplyHedging | src/strategy/VolatilityArbitrageStrategy.cpp:183-187 | applyHedging hedges the portfolio when there is a hedger and does nothing otherwise |
| ArbStrategy.VolatilityArbitrageStrategy.ProcessBar | src/strategy/VolatilityArbitrageStrategy.cpp:28-53 | processBar updates, signals, trades on an actionable signal and hedges, as the bar specification gives, stopping at the first throw |
| Results.Quot | src/strategy/BacktestResult.cpp:222 | IEEE division: finite for a non-zero divisor, otherwise ±∞ or NaN by the sign of the dividend |
| Results.PeakIsMaximum | src/strategy/BacktestResult.cpp:214-220 | the running peak bounds the values seen so far and is one of them |
| Results.MaxDrawdownRange | src/strategy/BacktestResult.cpp:210-229 | the maximum drawdown is +∞ or a finite non-negative value |
| Results.PositiveDrawdowns | src/strategy/BacktestResult.cpp:214-222 | with a positive first value every peak is positive and every drawdown finite and non-negative |
| Results.MaxDrawdownIsMaximum | src/strategy/BacktestResult.cpp:210-229 | with a positive first value the maximum drawdown bounds every drawdown and is 0 or one of them |
| Results.NonDecreasingNoDrawdown | src/strategy/BacktestResult.cpp:210-229 | a curve that never falls has maximum drawdown 0 |
| Results.SeriesMatchesMaxDrawdown | src/strategy/BacktestResult.cpp:305-325 | the drawdown series is finite and never above 0, and its minimum is exactly minus the maximum drawdown |
| Results.CalculateMaxDrawdown | src/strategy/BacktestResult.cpp:210-229 | the one-pass loop computes the maximum drawdown |
| Results.CalculateDrawdownSeries | src/strategy/BacktestResult.cpp:305-325 | the drawdown series has the curve's timestamps and the negated running drawdowns, named "Drawdown" |
| Results.TotalReturnOf | src/strategy/BacktestResult.cpp:231-236 | the total return is finite exactly when the curve is empty or starts non-zero, and compounding it onto the first value gives the last |
| Results.WinsCount | src/strategy/BacktestResult.cpp:270-281 | there are no wins exactly when no trade wins, and all wins exactly when every trade wins |
| Results.WinRateBounds | src/strategy/BacktestResult.cpp:270-281 | the win rate is in [0, 1]: 0 exactly when no trade wins, 1 exactly when there are trades and all win |
| Results.CalculateWinRate | src/strategy/BacktestResult.cpp:270-281 | the counting loop computes the win rate |
| Results.GrossSplit | src/strategy/BacktestResult.cpp:283-296 | profit minus loss is the total net value; the loss is 0 exactly when nothing loses, and the profit is positive exactly when something wins |
| Results.ProfitFactorFinite | src/strategy/BacktestResult.cpp:298-302 | with a positive loss the profit factor is finite, non-negative, and times the loss gives the profit |
| Results.ProfitFactorMeaning | src/strategy/BacktestResult.cpp:283-303 | the profit factor is never negative or NaN, and is +∞ exactly when there are trades, none loses and one wins |
| Results.CalculateProfitFactor | src/strategy/BacktestResult.cpp:283-303 | the one-pass loop computes the profit factor |
| Results.PeriodsChronological | src/strategy/BacktestResult.cpp:352-382 | drawdown periods are chronological and non-overlapping, each opens below −1%, and every one but an unfinished last closes at or above 0 |
| Results.ScanPeriods | src/strategy/BacktestResult.cpp:363-379 | the scan loop produces the stamped drawdown periods |
| Results.DrawdownPeriods | src/strategy/BacktestResult.cpp:352-382 | getDrawdownPeriods gives the periods of the curve's drawdown series, none for an empty curve |
| Results.GroupSumSkipsFirst | src/strategy/BacktestResult.cpp:393-395 | the grouped returns never depend on the first value: the first change is left out |
| Results.ReturnsBy | src/strategy/BacktestResult.cpp:384-416 | the map holds one sum per period key: the percentage changes into the third point onwards, each under its timestamp's key, so the first change is skipped; it fails with runtime_error exactly where pctChange would |
| Results.BacktestResult.constructor | src/strategy/BacktestResult.cpp:12-14 | a default result has no curve, no trades and no metrics |
| Results.BacktestResult.WithData | src/strategy/BacktestResult.cpp:16-18 | a result built from a curve and trades has no metrics yet |
| Results.BacktestResult.TradeCount | src/strategy/BacktestResult.cpp:28-30 | the number of trades logged (definition) |
| Results.BacktestResult.HasMetric | src/strategy/BacktestResult.cpp:100-102 | a name is present exactly when the metric map holds it (definition; SetMetric states how it changes) |
| Results.BacktestResult.GetMetric | src/strategy/BacktestResult.cpp:92-98 | the stored value, or 0 for a name never stored (definition; SetMetric states how it changes) |
| Results.BacktestResult.SetMetric | src/strategy/BacktestResult.cpp:88-102 | setMetric stores one metric (hasMetric then holds) and leaves every other metric as it was |
| Results.MetricsThrowCases | src/strategy/BacktestResult.cpp:152-167 | a curve of two points, or of four or more, with no zero value before the last never makes calculateMetrics throw; a three-point curve always does, with invalid_argument unless pctChange's runtime_error comes first |
| Results.BacktestResult.CalculateMetrics | src/strategy/BacktestResult.cpp:133-167 | an empty curve only marks the cache filled. A non-empty curve fails, before anything is written, exactly when the Sharpe ratio throws: runtime_error for a zero value before the last point, else invalid_argument for a three-point curve. Otherwise the eight named metrics are stored |
| Results.BacktestResult.CachedMetric | src/strategy/BacktestResult.cpp:32-86 | a getter with an empty cache fills it with the computed eight metrics over the stored ones (nothing computed for an empty curve) and reads the metric; a filled cache is read as it stands; it fails exactly when calculateMetrics throws (MetricsThrow), with that exception, leaving the cache empty and unchanged |
| Results.BacktestResult.GetAllMetrics | src/strategy/BacktestResult.cpp:104-109 | getAllMetrics fills an empty cache exactly as the getters do and returns the whole map; a filled cache is returned as it stands; it fails exactly when calculateMetrics throws, with that exception, leaving the cache empty and unchanged |
| Results.BacktestResult.GetDrawdownSeries | src/strategy/BacktestResult.cpp:111-116 | getDrawdownSeries fills an empty cache exactly as the getters do, leaves a filled one alone, and returns the curve's drawdown series named "Drawdown" (unnamed for an empty curve); it fails exactly when calculateMetrics throws, with that exception, leaving the cache empty and unchanged |
| Results.BacktestResult.SetEquityCurve | src/strategy/BacktestResult.cpp:118-121 | setEquityCurve replaces the curve and marks the cache stale |
| Results.BacktestResult.SetTrades | src/strategy/BacktestResult.cpp:123-126 | setTrades replaces the log and marks the cache stale |
| Results.BacktestResult.AddTrade | src/strategy/BacktestResult.cpp:128-131 | addTrade appends one trade and marks the cache stale |
| Results.BacktestResult.GetDrawdownPeriods | src/strategy/BacktestResult.cpp:352-382 | the periods of the stored curve |
| Results.BacktestResult.GetReturnsByMonth | src/strategy/BacktestResult.cpp:384-399 | returns grouped by calendar month 1–12, with the years merged |
| Results.BacktestResult.GetReturnsByYear | src/strategy/BacktestResult.cpp:401-416 | returns grouped by year |
| Ordering.AscendingUnique | src/strategy/BacktestEngine.cpp:87-99 | two ascending lists of the same elements are equal, so set iteration order is determined |
| Ordering.AscendingOf | src/strategy/BacktestEngine.cpp:87-99 | a set's elements, listed once each in ascending order |
| Ordering.Ascend | src/strategy/BacktestEngine.cpp:99 | iterating a std::set yields its elements in ascending order |
| Ordering.StringOrder | src/strategy/BacktestEngine.cpp:50-56 | std::string's `<` is a strict total order |
| Ordering.TimeOrder | src/strategy/BacktestEngine.cpp:87-99 | DateTime's `<` is a strict total order |
| Engine.SortByTime | src/strategy/BacktestEngine.cpp:33-37 | the bars sorted by timestamp (definition; SortByTimeFacts states it is ordered and a permutation) |
| Engine.SortByTimeFacts | src/strategy/BacktestEngine.cpp:33-37 | the sorted history is ordered by time and a permutation of the input |
| Engine.InRangeMembers | src/strategy/BacktestEngine.cpp:206-225 | the range filter keeps exactly the records with start <= t <= end |
| Engine.InRangeConcat | src/strategy/BacktestEngine.cpp:218-222 | the filter keeps stored order: it distributes over concatenation |
| Engine.InRangeOrdered | src/strategy/BacktestEngine.cpp:206-225 | a time-ordered history stays time-ordered through the filter |
| Engine.ValidateParameters | src/strategy/BacktestEngine.cpp:178-196 | the parameters pass exactly for start < end, positive capital, at least one symbol and, with costs on, non-negative costs; otherwise invalid_argument |
| Engine.ValidateMarketData | src/strategy/BacktestEngine.cpp:198-204 | the market data fails exactly when a requested symbol has no stored history, with runtime_error |
| Engine.AllTimesMeaning | src/strategy/BacktestEngine.cpp:87-92 | a time is in the union exactly when some requested symbol has a record at it |
| Engine.BarsMeaning | src/strategy/BacktestEngine.cpp:87-99 | the bars are strictly increasing and are exactly the in-window record times of the requested symbols |
| Engine.TransactionCost | src/strategy/BacktestEngine.cpp:238-251 | the fixed fee plus the percentage of the notional (definition; TransactionCostBounds states its bounds) |
| Engine.TransactionCostBounds | src/strategy/BacktestEngine.cpp:238-251 | with validated costs a trade costs at least the fixed fee, which is non-negative |
| Engine.EngineTrade | src/strategy/BacktestEngine.cpp:129-136 | the logged trade is BUY 100 of the symbol at the bar's close and time, with cost only when costs are on |
| Engine.EngineTradeNeverWins | src/strategy/BacktestEngine.cpp:129-136 | with validated costs and a non-negative close a logged trade never has positive net value |
| Engine.FirstAt | src/strategy/BacktestEngine.cpp:115-118 | std::find_if returns the first record at the bar's time, or the end |
| Engine.ReplayTrades | src/strategy/BacktestEngine.cpp:108-139 | the log only grows, and each addition is an engine trade on a requested symbol's in-window record |
| Engine.Growth | src/strategy/BacktestEngine.cpp:144-151 | with positive capital the placeholder value rises at every bar |
| Engine.GrowthReturn | src/strategy/BacktestEngine.cpp:151 | after k bars the placeholder value has grown by 0.001·k of the capital |
| Engine.EquityValuesShape | src/strategy/BacktestEngine.cpp:144-158 | the placeholder curve starts at the capital and strictly increases, so it has no drawdown |
| Engine.BuildEquityCurve | src/strategy/BacktestEngine.cpp:227-236 | buildEquityCurve succeeds exactly for equal lengths, keeping both vectors; otherwise invalid_argument |
| Engine.TenthAsWritten | src/strategy/BacktestEngine.cpp:161 | as written, the progress stride is size / 10, which is 0 (a division by zero) below ten bars |
| Engine.Tenth | src/strategy/BacktestEngine.cpp:161 | corrected: the stride is at least one and agrees with size / 10 from ten bars on |
| Engine.ProgressReportsRise | src/strategy/BacktestEngine.cpp:160-163 | the counts printed rise strictly and each lies within 1..i |
| Engine.ProgressReportsFacts | src/strategy/BacktestEngine.cpp:160-163 | progress counts rise strictly within 1..i, the last bar is always reported, and every bar is reported under ten bars |
| Engine.ShortRunDividesByZero | src/strategy/BacktestEngine.cpp:161 | every run of one to nine bars reaches the zero divisor at its first bar |
| Engine.Preflight | src/strategy/BacktestEngine.cpp:62-96 | run's pre-checks fail in order: parameters (invalid_argument), missing symbol (runtime_error), no bar in the window (runtime_error) |
| Engine.RunSpecUnfold | src/strategy/BacktestEngine.cpp:62-176 | a run that passes the checks replays the bars from the initial capital with an empty log |
| Engine.RunCurveShape | src/strategy/BacktestEngine.cpp:144-167 | a successful run's curve has one point per bar at strictly rising in-window times, starts at the capital and rises |
| Engine.RunTradesLogged | src/strategy/BacktestEngine.cpp:108-139 | every trade of a successful run is BUY 100 of a requested symbol at an in-window record's close |
| Engine.RunNeverWins | src/strategy/BacktestEngine.cpp:129-136 | with non-negative closes a successful run's win rate is 0 |
| Engine.BacktestEngine.constructor | src/strategy/BacktestEngine.cpp:14-15 | a new engine stores no data |
| Engine.BacktestEngine.AddMarketData | src/strategy/BacktestEngine.cpp:27-40 | empty data is refused (invalid_argument) with nothing changed; otherwise the symbol's history becomes the data, time-sorted, and other symbols keep theirs |
| Engine.BacktestEngine.ClearMarketData | src/strategy/BacktestEngine.cpp:42-44 | clearMarketData removes every history |
| Engine.BacktestEngine.HasMarketData | src/strategy/BacktestEngine.cpp:46-48 | a symbol has data exactly when the store holds it (definition) |
| Engine.BacktestEngine.GetAvailableSymbols | src/strategy/BacktestEngine.cpp:46-56 | getAvailableSymbols lists exactly the stored symbols, in strictly ascending order |
| Engine.BacktestEngine.GetMarketDataInRange | src/strategy/BacktestEngine.cpp:206-225 | the filter loop yields the stored history's in-window records, or nothing for an unknown symbol |
| Engine.BacktestEngine.CollectSymbolData | src/strategy/BacktestEngine.cpp:77-84 | the in-range history of every requested symbol |
| Engine.BacktestEngine.CollectTimes | src/strategy/BacktestEngine.cpp:87-92 | the union loop yields all in-range timestamps |
| Engine.BacktestEngine.ReplayBars | src/strategy/BacktestEngine.cpp:108-164 | the bar loop drives the strategy as the replay specification gives, and builds the placeholder values and progress reports |
| Engine.BacktestEngine.StartClone | src/strategy/BacktestEngine.cpp:70-74 | a fresh strategy with the caller's configuration, initialized from the parameters |
| Engine.BacktestEngine.Simulate | src/strategy/BacktestEngine.cpp:70-176 | a fresh strategy replays the bars; the result succeeds exactly when the replay does, and then carries the equity curve, the trade log and an empty metric cache |
| Engine.BacktestEngine.Run | src/strategy/BacktestEngine.cpp:62-176 | run fails with the pre-check's error, succeeds exactly when the run specification does, and then returns a fresh result with its curve and trades and no metrics |
| Engine.BacktestEngine.RunMonteCarloSimulation | src/strategy/BacktestEngine.cpp:269-290 | numSimulations identical runs, none for a non-positive count, stopping at the first failure |
| Engine.BacktestEngine.RunParameterSweep | src/strategy/BacktestEngine.cpp:253-267 | the sweep is not implemented and returns no results |

## Left out

- `BacktestEngine::loadMarketData`, `MarketData::fromCSV`, `TimeSeries::saveToCSV`/`loadFromCSV`, `printProgress`, `getEngineInfo`, `BacktestResult::toString`/`printSummary` and all console output: file and stream I/O. Progress printing is kept only as the list of counts that would be printed.
- Sharpe and Sortino ratios, annualized return and annualized volatility (`BacktestResult.cpp:152-268`): square roots, powers and day counts on doubles. They enter the model through an uninterpreted `RatioModel`. Only the exceptions the Sharpe ratio can throw are modelled, because it runs first: pctChange's, and `core::variance`'s for a single return. Both are given by `Results.MetricsThrow`.
- Black–Scholes pricing and Greeks (`Option.cpp`, `BSMPricingModel`), GARCH estimation and forecasting: floating-point numerics. These are uninterpreted functions of `Instruments.Market` and `Models.VolatilityModel`.
- `TimeSeries` variance, standard deviation, skewness, kurtosis, autocorrelation, `logReturn` and `rollingStd`: floating-point numerics outside the backtest core.
- The clock-reading `DateTime()` constructor and `DateTime::now`: they read the wall clock, so the time is a parameter (`now`, `startNow`, `endNow`).
- `DateTime::fromString` and the `DateTime ± TimeDelta` and `DateTime − DateTime` operators: they go through `strptime`/`mktime`/`localtime`, which depend on the platform and time zone.
- DateTimes.AddDays: `VolatilityArbitrageStrategy.cpp:38` calls `DateTime::addDays`, which DateTime does not declare. It is modelled as stepping whole calendar days; a month outside 1..12 is left unchanged.
- Instruments.Clone: `InstrumentFactory::clone` is modelled as a deep copy.
- The interfaces `Strategy`, `SignalGenerator`, `HedgingStrategy`, `VolatilityModel` and `Instrument` are replaced by their one concrete implementation each, so no other subclass is modelled.
- Integer widths: `int`, `long long` and `size_t` are unbounded integers, so overflow of the day counters, durations and indices is not modelled.
- TimeSeriesCore.AddDataPoint requires, only for a timestamp not yet present, that the series be partitioned around it. This is std::lower_bound's precondition; without it the insertion point the C++ code picks is unspecified. Overwriting a present timestamp goes through std::find and needs nothing.
- Engine.SortByTime: std::sort is not stable, so the order of records with equal timestamps is unspecified. The model fixes one order, and `Engine.BacktestEngine.AddMarketData` promises only time order and the same records.
- Engine.BacktestEngine.Run: the error kind for a failing `processBar` (an uncalibrated forecast or an unpriceable position) is the one the model raised, but the contract states only that the run fails. The state of the discarded clone after a failure is not described.
- Engine.BacktestEngine.RunMonteCarloSimulation: the `% (numSimulations / 10)` progress line (`BacktestEngine.cpp:284`) is not modelled. It has the same zero-divisor defect as the bar loop, for fewer than ten simulations.
- Engine.BacktestEngine.RunOnce drops the progress counts of each inner run.
- The iterator test at `BacktestEngine.cpp:147-149` is not modelled. The model always uses the placeholder value `initialCapital * (1 + 0.001 i)`. The C++ code does the same whenever the first requested symbol has in-range data. When it has none, `size() - 1` wraps around and the advance is undefined behaviour.
- ArbStrategy.VolatilityArbitrageStrategy.Clone requires a hedger: `VolatilityArbitrageStrategy.cpp:63` dereferences it unconditionally, so a strategy without one cannot be cloned, and `Engine.BacktestEngine.Run` inherits the requirement.
- Portfolio state after a failed `processBar`: the model's methods report the error and leave the state unspecified. The C++ code may have changed part of it before throwing.
- Results.BacktestResult.CachedMetric models the eight named getters by one method parameterised by the metric's name.

## Findings

| source | as written | input that shows it | evidently intended | confidence | as-written member | corrected member |
|---|---|---|---|---|---|---|
| src/strategy/VolatilityArbitrageStrategy.cpp:160-180 | `position` refers to the closed slot; after `removePosition(*it)` it names the next position (or nothing for the last slot), and that symbol's counter is erased | option positions on "A" (due) and "B" (tracked, not due): closing A erases B's counter, so A stays tracked and B is never closed | erase the closed position's own symbol | high (not executed) | ArbStrategy.DanglingEraseLosesOpenPosition | ArbStrategy.CloseDueDays |
| src/strategy/BacktestEngine.cpp:161 | `(i + 1) % (timestamps.size() / 10)` | any run with 1 to 9 bars: the divisor is 0 at the first bar | a stride of at least one bar | high (not executed) | Engine.ShortRunDividesByZero | Engine.Tenth |
