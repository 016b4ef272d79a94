// BacktestEngine: stores each symbol's bars, and replays them through a
// strategy clone in time order, recording a trade whenever the clone's
// position count changes and a placeholder equity curve.
module Engine {
  import opened Wrappers
  import opened DateTimes
  import opened TimeSeriesCore
  import opened MarketDataCore
  import opened Instruments
  import opened Trades
  import opened Parameters
  import opened ArbStrategy
  import opened Results
  import opened Ordering

  // ---- Stored history ------------------------------------------------------

  /** No record is later in time than a record after it. */
  predicate TimeOrdered(data: seq<MarketData>)
  {
    forall i, j :: 0 <= i < j < |data| ==> !Less(data[j].timestamp, data[i].timestamp)
  }

  /** One insertion step: `d` goes before the first record strictly later than it. */
  function InsertByTime(d: MarketData, data: seq<MarketData>): seq<MarketData>
  {
    if data == [] then [d]
    else if Less(d.timestamp, data[0].timestamp) then [d] + data
    else [data[0]] + InsertByTime(d, data[1..])
  }

  /** A sort by timestamp (std::sort with the timestamp comparison; the order of equal times is unspecified there). */
  function SortByTime(data: seq<MarketData>): seq<MarketData>
  {
    if data == [] then [] else InsertByTime(data[0], SortByTime(data[1..]))
  }

  lemma {:induction false} InsertByTimeMembers(d: MarketData, data: seq<MarketData>)
    ensures multiset(InsertByTime(d, data)) == multiset(data) + multiset{d}
    decreases |data|
  {
    if data != [] && !Less(d.timestamp, data[0].timestamp) {
      InsertByTimeMembers(d, data[1..]);
      assert data == [data[0]] + data[1..];
    }
  }

  lemma {:induction false} InsertByTimeOrdered(d: MarketData, data: seq<MarketData>)
    requires TimeOrdered(data)
    ensures TimeOrdered(InsertByTime(d, data))
    decreases |data|
  {
    if data == [] {
    } else if Less(d.timestamp, data[0].timestamp) {
      var r := [d] + data;
      forall j | 0 < j < |r|
        ensures !Less(r[j].timestamp, d.timestamp)
      {
        LessIsStrictTotalOrder(d.timestamp, data[0].timestamp, data[j - 1].timestamp);
        LessIsStrictTotalOrder(data[j - 1].timestamp, d.timestamp, data[0].timestamp);
      }
    } else {
      var rest := InsertByTime(d, data[1..]);
      InsertByTimeOrdered(d, data[1..]);
      InsertByTimeMembers(d, data[1..]);
      forall k | 0 <= k < |rest|
        ensures !Less(rest[k].timestamp, data[0].timestamp)
      {
        assert rest[k] in multiset(rest);
        if rest[k] != d {
          assert rest[k] in multiset(data[1..]);
          var i :| 0 <= i < |data[1..]| && data[1..][i] == rest[k];
          assert data[i + 1] == rest[k];
        }
      }
      assert InsertByTime(d, data) == [data[0]] + rest;
    }
  }

  /** The sorted history is ordered by time and holds the same records, each as often. */
  lemma {:induction false} SortByTimeFacts(data: seq<MarketData>)
    ensures TimeOrdered(SortByTime(data))
    ensures multiset(SortByTime(data)) == multiset(data)
    decreases |data|
  {
    if data != [] {
      SortByTimeFacts(data[1..]);
      InsertByTimeOrdered(data[0], SortByTime(data[1..]));
      InsertByTimeMembers(data[0], SortByTime(data[1..]));
      assert data == [data[0]] + data[1..];
    }
  }

  /** operator[] on the engine's map: an absent symbol reads as an empty history. */
  function Lookup(data: map<string, seq<MarketData>>, symbol: string): seq<MarketData>
  {
    if symbol in data then data[symbol] else []
  }

  /** getMarketDataInRange: the records with start <= timestamp <= end, in stored order. */
  function InRange(records: seq<MarketData>, start: DateTime, end: DateTime): seq<MarketData>
  {
    if records == [] then []
    else
      var last := records[|records| - 1];
      InRange(records[..|records| - 1], start, end) + (if InWindow(last.timestamp, start, end) then [last] else [])
  }

  /** The filter keeps exactly the in-window records, and never more records than it is given. */
  lemma {:induction false} InRangeMembers(records: seq<MarketData>, start: DateTime, end: DateTime)
    ensures forall d :: d in InRange(records, start, end) <==> d in records && InWindow(d.timestamp, start, end)
    ensures |InRange(records, start, end)| <= |records|
    decreases |records|
  {
    if records != [] {
      var init := records[..|records| - 1];
      InRangeMembers(init, start, end);
      assert records == init + [records[|records| - 1]];
    }
  }

  /** The filter keeps the stored order: it distributes over concatenation. */
  lemma {:induction false} InRangeConcat(records: seq<MarketData>, more: seq<MarketData>, start: DateTime, end: DateTime)
    ensures InRange(records + more, start, end) == InRange(records, start, end) + InRange(more, start, end)
    decreases |more|
  {
    if more == [] {
      assert records + more == records;
    } else {
      var init := more[..|more| - 1];
      InRangeConcat(records, init, start, end);
      assert (records + more)[..|records + more| - 1] == records + init;
    }
  }

  /** A time-ordered history stays time-ordered through the filter. */
  lemma {:induction false} InRangeOrdered(records: seq<MarketData>, start: DateTime, end: DateTime)
    requires TimeOrdered(records)
    ensures TimeOrdered(InRange(records, start, end))
    decreases |records|
  {
    if records != [] {
      var init := records[..|records| - 1];
      var last := records[|records| - 1];
      assert TimeOrdered(init);
      InRangeOrdered(init, start, end);
      InRangeMembers(init, start, end);
      var kept := InRange(init, start, end);
      forall d | d in kept
        ensures !Less(last.timestamp, d.timestamp)
      {
        var k :| 0 <= k < |init| && init[k] == d;
        assert records[k] == d;
      }
    }
  }

  // ---- Validation ------------------------------------------------------------

  /** validateParameters: the first failing check throws invalid_argument. */
  function ValidateParameters(s: Settings): (o: Outcome)
    ensures o.Pass? <==> Less(s.startDate, s.endDate) && s.initialCapital > 0.0 && s.symbols != []
                         && (s.includeTransactionCosts ==> s.transactionCostPerTrade >= 0.0 && s.transactionCostPercentage >= 0.0)
    ensures o.Fail? ==> o.error == InvalidArgument
  {
    if GreaterEq(s.startDate, s.endDate) then Fail(InvalidArgument)
    else if s.initialCapital <= 0.0 then Fail(InvalidArgument)
    else if s.symbols == [] then Fail(InvalidArgument)
    else if s.includeTransactionCosts && (s.transactionCostPerTrade < 0.0 || s.transactionCostPercentage < 0.0) then
      Fail(InvalidArgument)
    else Pass
  }

  /** validateMarketData: a requested symbol with no stored history throws runtime_error. */
  function ValidateMarketData(symbols: seq<string>, data: map<string, seq<MarketData>>): (o: Outcome)
    ensures o.Fail? <==> exists symbol :: symbol in symbols && symbol !in data
    ensures o.Fail? ==> o.error == RuntimeError
  {
    if symbols == [] then Pass
    else if symbols[0] !in data then Fail(RuntimeError)
    else
      var rest := ValidateMarketData(symbols[1..], data);
      assert forall symbol :: symbol in symbols <==> symbol == symbols[0] || symbol in symbols[1..];
      rest
  }

  // ---- The bar sequence ------------------------------------------------------

  /** The in-range history of every requested symbol. */
  function SymbolData(s: Settings, data: map<string, seq<MarketData>>): map<string, seq<MarketData>>
  {
    map symbol | symbol in s.symbols :: InRange(Lookup(data, symbol), s.startDate, s.endDate)
  }

  function Times(records: seq<MarketData>): set<DateTime>
  {
    set d | d in records :: d.timestamp
  }

  /** The union of the timestamps of the given symbols' histories. */
  function AllTimes(symbols: seq<string>, symbolData: map<string, seq<MarketData>>): set<DateTime>
  {
    if symbols == [] then {}
    else AllTimes(symbols[..|symbols| - 1], symbolData) + Times(Lookup(symbolData, symbols[|symbols| - 1]))
  }

  lemma {:induction false} AllTimesMeaning(symbols: seq<string>, symbolData: map<string, seq<MarketData>>, t: DateTime)
    ensures t in AllTimes(symbols, symbolData) <==> exists symbol :: symbol in symbols && t in Times(Lookup(symbolData, symbol))
    decreases |symbols|
  {
    if symbols != [] {
      var init := symbols[..|symbols| - 1];
      AllTimesMeaning(init, symbolData, t);
      assert symbols == init + [symbols[|symbols| - 1]];
      assert forall symbol :: symbol in symbols <==> symbol in init || symbol == symbols[|symbols| - 1];
    }
  }

  /** The bars of a run: the union of the in-range timestamps, ascending, each once. */
  ghost function Bars(s: Settings, data: map<string, seq<MarketData>>): seq<DateTime>
  {
    TimeOrder();
    AscendingOf(AllTimes(s.symbols, SymbolData(s, data)), Less)
  }

  /**
   * The bars rise strictly, and a time is a bar exactly when some requested
   * symbol has a stored record at that time inside the window.
   */
  lemma BarsMeaning(s: Settings, data: map<string, seq<MarketData>>)
    ensures forall i, j :: 0 <= i < j < |Bars(s, data)| ==> Less(Bars(s, data)[i], Bars(s, data)[j])
    ensures forall t :: t in Bars(s, data) <==>
      InWindow(t, s.startDate, s.endDate)
      && exists symbol, d :: symbol in s.symbols && d in Lookup(data, symbol) && d.timestamp == t
  {
    TimeOrder();
    var bars := Bars(s, data);
    assert Ascending(bars, Less);
    var sd := SymbolData(s, data);
    forall t
      ensures t in bars <==>
        InWindow(t, s.startDate, s.endDate)
        && exists symbol, d :: symbol in s.symbols && d in Lookup(data, symbol) && d.timestamp == t
    {
      AllTimesMeaning(s.symbols, sd, t);
      if t in bars {
        var symbol :| symbol in s.symbols && t in Times(Lookup(sd, symbol));
        var d :| d in Lookup(sd, symbol) && d.timestamp == t;
        InRangeMembers(Lookup(data, symbol), s.startDate, s.endDate);
      }
      if InWindow(t, s.startDate, s.endDate) && exists symbol, d :: symbol in s.symbols && d in Lookup(data, symbol) && d.timestamp == t {
        var symbol, d :| symbol in s.symbols && d in Lookup(data, symbol) && d.timestamp == t;
        InRangeMembers(Lookup(data, symbol), s.startDate, s.endDate);
        assert d in Lookup(sd, symbol);
      }
    }
  }

  // ---- Trades and costs --------------------------------------------------------

  const EngineQuantity: real := 100.0

  /** calculateTransactionCost: the fixed fee plus the percentage of the notional. */
  function TransactionCost(t: Trade, s: Settings): real
  {
    s.transactionCostPerTrade + Value(t) * s.transactionCostPercentage
  }

  /** With validated costs, a trade of non-negative notional costs at least the fixed fee, and never less than 0. */
  lemma TransactionCostBounds(t: Trade, s: Settings)
    requires s.transactionCostPerTrade >= 0.0 && s.transactionCostPercentage >= 0.0 && Value(t) >= 0.0
    ensures TransactionCost(t, s) >= s.transactionCostPerTrade >= 0.0
  {
  }

  /** The trade the engine records for a bar on which the position count changed. */
  function EngineTrade(symbol: string, d: MarketData, bar: DateTime, s: Settings): (t: Trade)
    ensures t.instrumentId == symbol && t.action == BUY && t.quantity == EngineQuantity && t.price == d.close
    ensures t.timestamp == bar && Value(t) == EngineQuantity * d.close
    ensures t.transactionCost == if s.includeTransactionCosts then s.transactionCostPerTrade + EngineQuantity * d.close * s.transactionCostPercentage else 0.0
  {
    var t := Trade(symbol, BUY, EngineQuantity, d.close, bar, 0.0);
    if s.includeTransactionCosts then t.(transactionCost := TransactionCost(t, s)) else t
  }

  /** Every recorded trade is a purchase: with validated costs and a non-negative close it never shows a gain. */
  lemma EngineTradeNeverWins(symbol: string, d: MarketData, bar: DateTime, s: Settings)
    requires ValidateParameters(s).Pass? && d.close >= 0.0
    ensures NetValue(EngineTrade(symbol, d, bar, s)) <= 0.0
  {
    var t := EngineTrade(symbol, d, bar, s);
    assert Value(t) >= 0.0;
    if s.includeTransactionCosts {
      TransactionCostBounds(t.(transactionCost := 0.0), s);
    }
  }

  // ---- Replaying the bars ----------------------------------------------------------

  /** What the run carries from bar to bar: the clone's state and the trade log. */
  datatype Progress = Progress(state: StrategyState, trades: seq<Trade>)

  function InitialProgress(s: Settings): Progress
  {
    Progress(StrategyState([], s.initialCapital, map[], map[]), [])
  }

  /** std::find_if on the timestamp: the first record at time `t`, or the length when there is none. */
  function FirstAt(records: seq<MarketData>, t: DateTime): (k: nat)
    ensures k <= |records|
    ensures k < |records| ==> records[k].timestamp == t
    ensures forall i :: 0 <= i < k ==> records[i].timestamp != t
  {
    if records == [] then 0
    else if records[0].timestamp == t then 0
    else 1 + FirstAt(records[1..], t)
  }

  /**
   * One symbol on one bar: its first record at the bar, if any, goes through
   * processBar; a trade is logged when the position count changed.
   */
  function VisitSymbol(cfg: StrategyConfig, m: Market, s: Settings, records: seq<MarketData>, symbol: string,
                       bar: DateTime, p: Progress): Result<Progress>
  {
    var k := FirstAt(records, bar);
    if k == |records| then Ok(p)
    else
      var next :- ProcessBarSpec(cfg, m, p.state, records[k]);
      if |next.positions| != |p.state.positions| then Ok(Progress(next, p.trades + [EngineTrade(symbol, records[k], bar, s)]))
      else Ok(Progress(next, p.trades))
  }

  /** One bar: the requested symbols in parameter order. */
  function VisitSymbols(cfg: StrategyConfig, m: Market, s: Settings, symbolData: map<string, seq<MarketData>>,
                        bar: DateTime, symbols: seq<string>, p: Progress): Result<Progress>
  {
    if symbols == [] then Ok(p)
    else
      var q :- VisitSymbol(cfg, m, s, Lookup(symbolData, symbols[0]), symbols[0], bar, p);
      VisitSymbols(cfg, m, s, symbolData, bar, symbols[1..], q)
  }

  /** The first symbol of a bar decides whether the bar fails or carries on from its progress. */
  lemma VisitSymbolsCons(cfg: StrategyConfig, m: Market, s: Settings, symbolData: map<string, seq<MarketData>>,
                         bar: DateTime, symbols: seq<string>, p: Progress)
    requires symbols != []
    ensures var q := VisitSymbol(cfg, m, s, Lookup(symbolData, symbols[0]), symbols[0], bar, p);
      && (q.Err? ==> VisitSymbols(cfg, m, s, symbolData, bar, symbols, p).Err?)
      && (q.Ok? ==> VisitSymbols(cfg, m, s, symbolData, bar, symbols, p)
                    == VisitSymbols(cfg, m, s, symbolData, bar, symbols[1..], q.value))
  {
  }

  /** All the bars in order; a failing processBar ends the run. */
  function Replay(cfg: StrategyConfig, m: Market, s: Settings, symbolData: map<string, seq<MarketData>>,
                  bars: seq<DateTime>, p: Progress): Result<Progress>
  {
    if bars == [] then Ok(p)
    else
      var q :- VisitSymbols(cfg, m, s, symbolData, bars[0], s.symbols, p);
      Replay(cfg, m, s, symbolData, bars[1..], q)
  }

  /** The first bar decides whether the replay fails or carries on from its progress. */
  lemma ReplayCons(cfg: StrategyConfig, m: Market, s: Settings, symbolData: map<string, seq<MarketData>>,
                   bars: seq<DateTime>, p: Progress)
    requires bars != []
    ensures var q := VisitSymbols(cfg, m, s, symbolData, bars[0], s.symbols, p);
      && (q.Err? ==> Replay(cfg, m, s, symbolData, bars, p).Err?)
      && (q.Ok? ==> Replay(cfg, m, s, symbolData, bars, p) == Replay(cfg, m, s, symbolData, bars[1..], q.value))
  {
  }

  /** A trade the engine may log: BUY 100 of a requested symbol at the close of one of its records, at that record's time. */
  ghost predicate Logged(t: Trade, s: Settings, symbolData: map<string, seq<MarketData>>)
  {
    exists symbol, d :: symbol in s.symbols && d in Lookup(symbolData, symbol) && t == EngineTrade(symbol, d, d.timestamp, s)
  }

  /** `q`'s log is `p`'s log followed by engine trades only. */
  ghost predicate Extends(p: Progress, q: Progress, s: Settings, symbolData: map<string, seq<MarketData>>)
  {
    |p.trades| <= |q.trades| && q.trades[..|p.trades|] == p.trades
    && forall i :: |p.trades| <= i < |q.trades| ==> Logged(q.trades[i], s, symbolData)
  }

  lemma ExtendsTransitive(p: Progress, q: Progress, r: Progress, s: Settings, symbolData: map<string, seq<MarketData>>)
    requires Extends(p, q, s, symbolData) && Extends(q, r, s, symbolData)
    ensures Extends(p, r, s, symbolData)
  {
    assert r.trades[..|p.trades|] == r.trades[..|q.trades|][..|p.trades|];
    forall i | |p.trades| <= i < |r.trades|
      ensures Logged(r.trades[i], s, symbolData)
    {
      if i < |q.trades| {
        assert r.trades[i] == r.trades[..|q.trades|][i];
      }
    }
  }

  /**
   * One symbol on one bar adds a trade exactly when processBar changed the
   * number of positions, and what it adds is an engine trade.
   */
  lemma VisitSymbolTrades(cfg: StrategyConfig, m: Market, s: Settings, symbolData: map<string, seq<MarketData>>,
                          symbol: string, bar: DateTime, p: Progress)
    requires symbol in s.symbols
    requires VisitSymbol(cfg, m, s, Lookup(symbolData, symbol), symbol, bar, p).Ok?
    ensures var q := VisitSymbol(cfg, m, s, Lookup(symbolData, symbol), symbol, bar, p).value;
      && Extends(p, q, s, symbolData) && |q.trades| <= |p.trades| + 1
      && (|q.trades| == |p.trades| + 1 <==> |q.state.positions| != |p.state.positions|)
  {
    var records := Lookup(symbolData, symbol);
    var k := FirstAt(records, bar);
    if k < |records| {
      assert records[k] in records;
    }
  }

  lemma {:induction false} VisitSymbolsTrades(cfg: StrategyConfig, m: Market, s: Settings,
                                              symbolData: map<string, seq<MarketData>>, bar: DateTime,
                                              symbols: seq<string>, p: Progress)
    requires forall symbol :: symbol in symbols ==> symbol in s.symbols
    requires VisitSymbols(cfg, m, s, symbolData, bar, symbols, p).Ok?
    ensures Extends(p, VisitSymbols(cfg, m, s, symbolData, bar, symbols, p).value, s, symbolData)
    decreases |symbols|
  {
    if symbols != [] {
      VisitSymbolTrades(cfg, m, s, symbolData, symbols[0], bar, p);
      var q := VisitSymbol(cfg, m, s, Lookup(symbolData, symbols[0]), symbols[0], bar, p).value;
      assert VisitSymbols(cfg, m, s, symbolData, bar, symbols, p) == VisitSymbols(cfg, m, s, symbolData, bar, symbols[1..], q);
      VisitSymbolsTrades(cfg, m, s, symbolData, bar, symbols[1..], q);
      ExtendsTransitive(p, q, VisitSymbols(cfg, m, s, symbolData, bar, symbols[1..], q).value, s, symbolData);
    } else {
      assert p.trades[..|p.trades|] == p.trades;
    }
  }

  /** The log only grows, and everything added to it is an engine trade on a requested symbol's in-range record. */
  lemma {:induction false} ReplayTrades(cfg: StrategyConfig, m: Market, s: Settings,
                                        symbolData: map<string, seq<MarketData>>, bars: seq<DateTime>, p: Progress)
    requires Replay(cfg, m, s, symbolData, bars, p).Ok?
    ensures Extends(p, Replay(cfg, m, s, symbolData, bars, p).value, s, symbolData)
    decreases |bars|
  {
    if bars != [] {
      VisitSymbolsTrades(cfg, m, s, symbolData, bars[0], s.symbols, p);
      var q := VisitSymbols(cfg, m, s, symbolData, bars[0], s.symbols, p).value;
      assert Replay(cfg, m, s, symbolData, bars, p) == Replay(cfg, m, s, symbolData, bars[1..], q);
      ReplayTrades(cfg, m, s, symbolData, bars[1..], q);
      ExtendsTransitive(p, q, Replay(cfg, m, s, symbolData, bars[1..], q).value, s, symbolData);
    } else {
      assert p.trades[..|p.trades|] == p.trades;
    }
  }

  // ---- The equity curve ----------------------------------------------------------

  /** The placeholder portfolio value at bar i: initialCapital * (1 + 0.001 * i). */
  function EquityValue(capital: real, i: nat): real
  {
    capital * (1.0 + 0.001 * i as real)
  }

  function EquityValues(capital: real, n: nat): seq<real>
  {
    seq(n, i requires 0 <= i => EquityValue(capital, i))
  }

  lemma EquityValuesStep(capital: real, i: nat)
    ensures EquityValues(capital, i + 1) == EquityValues(capital, i) + [EquityValue(capital, i)]
  {
    var a := EquityValues(capital, i + 1);
    var b := EquityValues(capital, i) + [EquityValue(capital, i)];
    assert |a| == |b|;
    forall k | 0 <= k < |a|
      ensures a[k] == b[k]
    {
    }
  }

  /** With positive capital the placeholder value rises at every bar. */
  lemma Growth(capital: real, i: nat, j: nat)
    requires capital > 0.0 && i < j
    ensures EquityValue(capital, i) < EquityValue(capital, j)
  {
    assert EquityValue(capital, j) - EquityValue(capital, i) == capital * (0.001 * (j - i) as real);
  }

  /** After k bars the placeholder value has grown by 0.001 * k of the capital. */
  lemma GrowthReturn(capital: real, k: nat)
    requires capital > 0.0
    ensures Results.Quot(EquityValue(capital, k) - EquityValue(capital, 0), EquityValue(capital, 0)) == Fin(0.001 * k as real)
  {
    var q := Results.Quot(EquityValue(capital, k) - EquityValue(capital, 0), EquityValue(capital, 0));
    assert EquityValue(capital, 0) == capital;
    assert q.value * capital == (0.001 * k as real) * capital;
    assert (q.value - 0.001 * k as real) * capital == 0.0;
  }

  /**
   * With positive capital the placeholder curve starts at the capital and
   * rises at every bar, so it shows no drawdown and a total return of
   * 0.001 per bar after the first.
   */
  lemma EquityValuesShape(capital: real, n: nat)
    requires capital > 0.0
    ensures var vs := EquityValues(capital, n);
      && |vs| == n && (n > 0 ==> vs[0] == capital)
      && (forall i, j :: 0 <= i < j < n ==> vs[i] < vs[j])
      && MaxDrawdownOf(vs) == Fin(0.0)
      && (n > 0 ==> TotalReturnOf(vs) == Fin(0.001 * (n - 1) as real))
  {
    var vs := EquityValues(capital, n);
    forall i, j | 0 <= i < j < n
      ensures vs[i] < vs[j]
    {
      Growth(capital, i, j);
    }
    if n > 0 {
      NonDecreasingNoDrawdown(vs, n);
      GrowthReturn(capital, n - 1);
    }
  }

  /** buildEquityCurve: values and timestamps of different lengths throw invalid_argument. */
  function BuildEquityCurve(values: seq<real>, timestamps: seq<DateTime>): (r: Result<TimeSeries>)
    ensures r.Ok? <==> |values| == |timestamps|
    ensures r.Ok? ==> r.value.Wf() && r.value.timestamps == timestamps && r.value.values == values
                      && r.value.name == "Portfolio Value"
    ensures r.Err? ==> r.error == InvalidArgument
  {
    if |values| != |timestamps| then Err(InvalidArgument) else Ok(TimeSeries(timestamps, values, "Portfolio Value"))
  }

  // ---- Progress reporting ------------------------------------------------------------

  /** The progress stride as written: size / 10, which is 0 below ten items and then divides by zero. */
  function TenthAsWritten(n: nat): (r: Option<nat>)
    ensures r.None? <==> n < 10
    ensures r.Some? ==> r.value >= 1 && r.value * 10 <= n < (r.value + 1) * 10
  {
    if n / 10 == 0 then None else Some(n / 10)
  }

  /** The stride as intended: a tenth of the items, and at least one. */
  function Tenth(n: nat): (k: nat)
    ensures k >= 1
    ensures n >= 10 ==> TenthAsWritten(n) == Some(k)
    ensures n < 10 ==> k == 1
  {
    if n / 10 == 0 then 1 else n / 10
  }

  /** Whether the bar at index i of n prints a progress line. */
  predicate ProgressDue(i: nat, n: nat)
  {
    (i + 1) % Tenth(n) == 0 || i + 1 == n
  }

  /** The bar counts printed after the first i of n bars. */
  function ProgressReports(n: nat, i: nat): seq<nat>
  {
    if i == 0 then [] else ProgressReports(n, i - 1) + (if ProgressDue(i - 1, n) then [i] else [])
  }

  /** The counts printed rise strictly and stay within 1..i. */
  lemma {:induction false} ProgressReportsRise(n: nat, i: nat)
    ensures forall k, l :: 0 <= k < l < |ProgressReports(n, i)| ==> ProgressReports(n, i)[k] < ProgressReports(n, i)[l]
    ensures forall k :: 0 <= k < |ProgressReports(n, i)| ==> 1 <= ProgressReports(n, i)[k] <= i
  {
    if i > 0 {
      var prev := ProgressReports(n, i - 1);
      ProgressReportsRise(n, i - 1);
      var r := ProgressReports(n, i);
      assert r == prev + (if ProgressDue(i - 1, n) then [i] else []);
      forall k | 0 <= k < |r|
        ensures 1 <= r[k] <= i
      {
        if k < |prev| {
          assert r[k] == prev[k];
        } else {
          assert r[k] == i;
        }
      }
      forall k, l | 0 <= k < l < |r|
        ensures r[k] < r[l]
      {
        assert r[k] == prev[k];
        if l < |prev| {
          assert r[l] == prev[l];
        } else {
          assert r[l] == i;
        }
      }
    }
  }

  /** The counts printed rise strictly and stay within 1..i; the last bar is always reported; under ten bars, every bar is. */
  lemma {:induction false} ProgressReportsFacts(n: nat, i: nat)
    ensures var r := ProgressReports(n, i);
      && (forall k, l :: 0 <= k < l < |r| ==> r[k] < r[l])
      && (forall k :: 0 <= k < |r| ==> 1 <= r[k] <= i)
      && (0 < i == n ==> r != [] && r[|r| - 1] == n)
      && (n < 10 ==> r == seq(i, k => k + 1))
  {
    ProgressReportsRise(n, i);
    if i > 0 {
      ProgressReportsFacts(n, i - 1);
      var prev := ProgressReports(n, i - 1);
      assert ProgressReports(n, i) == prev + (if ProgressDue(i - 1, n) then [i] else []);
      if n < 10 {
        assert ProgressDue(i - 1, n);
        assert ProgressReports(n, i) == seq(i - 1, k => k + 1) + [i];
      }
    }
  }

  /** Every run of fewer than ten bars reaches the division by zero at its first bar. */
  lemma ShortRunDividesByZero(n: nat)
    requires 0 < n < 10
    ensures TenthAsWritten(n).None? && Tenth(n) == 1 && ProgressDue(0, n)
  {
  }

  // ---- The whole run ---------------------------------------------------------------

  /** The checks run performs before the first bar, in order. */
  function Preflight(s: Settings, data: map<string, seq<MarketData>>): (o: Outcome)
    ensures ValidateParameters(s).Fail? ==> o == ValidateParameters(s)
    ensures ValidateParameters(s).Pass? && ValidateMarketData(s.symbols, data).Fail? ==> o == Fail(RuntimeError)
    ensures o.Pass? <==> ValidateParameters(s).Pass? && ValidateMarketData(s.symbols, data).Pass?
                         && AllTimes(s.symbols, SymbolData(s, data)) != {}
    ensures o.Fail? && ValidateParameters(s).Pass? ==> o.error == RuntimeError
  {
    var v := ValidateParameters(s);
    if v.Fail? then v
    else
      var w := ValidateMarketData(s.symbols, data);
      if w.Fail? then w
      else if AllTimes(s.symbols, SymbolData(s, data)) == {} then Fail(RuntimeError)
      else Pass
  }

  /** run, as a function of the strategy's configuration, the market, the parameters and the stored data. */
  ghost function RunSpec(cfg: StrategyConfig, m: Market, s: Settings, data: map<string, seq<MarketData>>)
    : Result<(TimeSeries, seq<Trade>)>
  {
    var pre := Preflight(s, data);
    if pre.Fail? then Err(pre.error)
    else
      var bars := Bars(s, data);
      var p :- Replay(cfg, m, s, SymbolData(s, data), bars, InitialProgress(s));
      Ok((TimeSeries(bars, EquityValues(s.initialCapital, |bars|), "Portfolio Value"), p.trades))
  }

  /** A run that passes the checks replays the bars from the initial capital and an empty log. */
  lemma RunSpecUnfold(cfg: StrategyConfig, m: Market, s: Settings, data: map<string, seq<MarketData>>)
    requires Preflight(s, data).Pass?
    ensures var bars := Bars(s, data);
            var p := Replay(cfg, m, s, SymbolData(s, data), bars, InitialProgress(s));
            && (RunSpec(cfg, m, s, data).Ok? <==> p.Ok?)
            && (p.Ok? ==> RunSpec(cfg, m, s, data).value
                          == (TimeSeries(bars, EquityValues(s.initialCapital, |bars|), "Portfolio Value"), p.value.trades))
  {
  }

  /**
   * A successful run's curve has one point per bar, at strictly rising times
   * inside the window, starting at the initial capital and rising, so with
   * no drawdown.
   */
  lemma RunCurveShape(cfg: StrategyConfig, m: Market, s: Settings, data: map<string, seq<MarketData>>)
    requires RunSpec(cfg, m, s, data).Ok?
    ensures var curve := RunSpec(cfg, m, s, data).value.0;
      && curve.Wf() && curve.Size() > 0 && curve.values[0] == s.initialCapital
      && (forall i, j :: 0 <= i < j < curve.Size() ==> Less(curve.timestamps[i], curve.timestamps[j]))
      && (forall t :: t in curve.timestamps ==> InWindow(t, s.startDate, s.endDate))
      && MaxDrawdownOf(curve.values) == Fin(0.0)
  {
    assert Preflight(s, data).Pass?;
    RunSpecUnfold(cfg, m, s, data);
    BarsMeaning(s, data);
    var bars := Bars(s, data);
    var t :| t in AllTimes(s.symbols, SymbolData(s, data));
    TimeOrder();
    assert t in bars;
    EquityValuesShape(s.initialCapital, |bars|);
  }

  /** Every trade of a successful run is BUY 100 on a requested symbol at the close of one of its in-window records. */
  lemma RunTradesLogged(cfg: StrategyConfig, m: Market, s: Settings, data: map<string, seq<MarketData>>)
    requires RunSpec(cfg, m, s, data).Ok?
    ensures var trades := RunSpec(cfg, m, s, data).value.1;
            forall i :: 0 <= i < |trades| ==> Logged(trades[i], s, SymbolData(s, data))
  {
    assert Preflight(s, data).Pass?;
    RunSpecUnfold(cfg, m, s, data);
    ReplayTrades(cfg, m, s, SymbolData(s, data), Bars(s, data), InitialProgress(s));
  }

  /** With non-negative closes every trade the engine logs is a cash outflow, so a run's win rate is 0. */
  lemma RunNeverWins(cfg: StrategyConfig, m: Market, s: Settings, data: map<string, seq<MarketData>>)
    requires RunSpec(cfg, m, s, data).Ok?
    requires forall symbol, d :: symbol in data && d in data[symbol] ==> d.close >= 0.0
    ensures WinRateOf(RunSpec(cfg, m, s, data).value.1) == 0.0
  {
    var trades := RunSpec(cfg, m, s, data).value.1;
    var sd := SymbolData(s, data);
    assert ValidateParameters(s).Pass?;
    RunTradesLogged(cfg, m, s, data);
    forall i | 0 <= i < |trades|
      ensures NetValue(trades[i]) <= 0.0
    {
      assert Logged(trades[i], s, sd);
      var symbol, d :| symbol in s.symbols && d in Lookup(sd, symbol) && trades[i] == EngineTrade(symbol, d, d.timestamp, s);
      InRangeMembers(Lookup(data, symbol), s.startDate, s.endDate);
      EngineTradeNeverWins(symbol, d, d.timestamp, s);
    }
    WinsCount(trades);
    assert Wins(trades) == 0;
    if |trades| > 0 {
      FractionBounds(0.0, |trades| as real);
    }
  }

  // ---- The engine object -------------------------------------------------------------

  class BacktestEngine {
    var marketData: map<string, seq<MarketData>>

    constructor ()
      ensures marketData == map[]
    {
      marketData := map[];
    }

    /** addMarketData: an empty history is refused; otherwise it replaces the symbol's history, sorted by time. */
    method AddMarketData(symbol: string, data: seq<MarketData>) returns (o: Outcome)
      modifies this
      ensures o.Fail? <==> data == []
      ensures o.Fail? ==> o.error == InvalidArgument && marketData == old(marketData)
      ensures o.Pass? ==> marketData.Keys == old(marketData).Keys + {symbol}
                          && TimeOrdered(marketData[symbol]) && multiset(marketData[symbol]) == multiset(data)
                          && forall other :: other in old(marketData) && other != symbol ==> marketData[other] == old(marketData)[other]
    {
      if data == [] {
        return Fail(InvalidArgument);
      }
      var sortedData := SortByTime(data);
      SortByTimeFacts(data);
      marketData := marketData[symbol := sortedData];
      o := Pass;
    }

    method ClearMarketData()
      modifies this
      ensures marketData == map[]
    {
      marketData := map[];
    }

    predicate HasMarketData(symbol: string)
      reads this
    {
      symbol in marketData
    }

    /** getAvailableSymbols: the stored symbols in the map's ascending order. */
    method GetAvailableSymbols() returns (symbols: seq<string>)
      ensures forall i, j :: 0 <= i < j < |symbols| ==> StringLess(symbols[i], symbols[j])
      ensures forall symbol :: symbol in symbols <==> HasMarketData(symbol)
    {
      StringOrder();
      symbols := Ascend(marketData.Keys, StringLess);
    }

    /** getMarketDataInRange: scan the stored history and keep the in-window records. */
    method GetMarketDataInRange(symbol: string, start: DateTime, end: DateTime) returns (filtered: seq<MarketData>)
      ensures filtered == InRange(Lookup(marketData, symbol), start, end)
    {
      filtered := [];
      if symbol !in marketData {
        return;
      }
      var records := marketData[symbol];
      var i := 0;
      while i < |records|
        invariant 0 <= i <= |records|
        invariant filtered == InRange(records[..i], start, end)
      {
        assert records[..i + 1][..i] == records[..i];
        if GreaterEq(records[i].timestamp, start) && LessEq(records[i].timestamp, end) {
          filtered := filtered + [records[i]];
        }
        i := i + 1;
      }
      assert records[..i] == records;
    }

    /** The in-range history of each requested symbol. */
    method CollectSymbolData(s: Settings) returns (symbolData: map<string, seq<MarketData>>)
      ensures symbolData == SymbolData(s, marketData)
    {
      symbolData := map[];
      var j := 0;
      while j < |s.symbols|
        invariant 0 <= j <= |s.symbols|
        invariant forall x :: x in symbolData <==> x in s.symbols[..j]
        invariant forall x :: x in symbolData ==> symbolData[x] == InRange(Lookup(marketData, x), s.startDate, s.endDate)
      {
        var symbol := s.symbols[j];
        var records := GetMarketDataInRange(symbol, s.startDate, s.endDate);
        assert s.symbols[..j + 1] == s.symbols[..j] + [symbol];
        symbolData := symbolData[symbol := records];
        j := j + 1;
      }
      assert s.symbols[..j] == s.symbols;
      assert symbolData.Keys == SymbolData(s, marketData).Keys;
    }

    /** The set of all in-range timestamps. */
    static method CollectTimes(symbols: seq<string>, symbolData: map<string, seq<MarketData>>) returns (all: set<DateTime>)
      ensures all == AllTimes(symbols, symbolData)
    {
      all := {};
      var j := 0;
      while j < |symbols|
        invariant 0 <= j <= |symbols|
        invariant all == AllTimes(symbols[..j], symbolData)
      {
        var records := Lookup(symbolData, symbols[j]);
        var k := 0;
        ghost var before := all;
        while k < |records|
          invariant 0 <= k <= |records|
          invariant all == before + Times(records[..k])
        {
          assert Times(records[..k + 1]) == Times(records[..k]) + {records[k].timestamp} by {
            assert records[..k + 1] == records[..k] + [records[k]];
          }
          all := all + {records[k].timestamp};
          k := k + 1;
        }
        assert records[..k] == records;
        assert symbols[..j + 1][..j] == symbols[..j];
        j := j + 1;
      }
      assert symbols[..j] == symbols;
    }

    /** One symbol on one bar, on the clone `c`. */
    static method VisitRecord(c: VolatilityArbitrageStrategy, m: Market, s: Settings, records: seq<MarketData>,
                              symbol: string, bar: DateTime, trades: seq<Trade>)
      returns (r: Result<seq<Trade>>)
      modifies c, c.portfolio
      ensures c.portfolio == old(c.portfolio) && c.Config() == old(c.Config())
      ensures var spec := VisitSymbol(old(c.Config()), m, s, records, symbol, bar, Progress(old(c.State()), trades));
              (r.Ok? <==> spec.Ok?) && (r.Ok? ==> spec.value == Progress(c.State(), r.value))
    {
      var k := FirstAt(records, bar);
      if k == |records| {
        return Ok(trades);
      }
      var initialPortfolio := c.GetPortfolio();
      var o := c.ProcessBar(m, records[k]);
      if o.Fail? {
        return Err(o.error);
      }
      var finalPortfolio := c.GetPortfolio();
      if finalPortfolio.PositionCount() != initialPortfolio.PositionCount() {
        var trade := Trade(symbol, BUY, EngineQuantity, records[k].close, bar, 0.0);
        if s.includeTransactionCosts {
          trade := trade.(transactionCost := TransactionCost(trade, s));
        }
        r := Ok(trades + [trade]);
      } else {
        r := Ok(trades);
      }
    }

    /** One bar: every requested symbol in parameter order. */
    static method VisitBar(c: VolatilityArbitrageStrategy, m: Market, s: Settings,
                           symbolData: map<string, seq<MarketData>>, bar: DateTime, trades: seq<Trade>)
      returns (r: Result<seq<Trade>>)
      modifies c, c.portfolio
      ensures c.portfolio == old(c.portfolio) && c.Config() == old(c.Config())
      ensures var spec := VisitSymbols(old(c.Config()), m, s, symbolData, bar, s.symbols, Progress(old(c.State()), trades));
              (r.Ok? <==> spec.Ok?) && (r.Ok? ==> spec.value == Progress(c.State(), r.value))
    {
      ghost var cfg := c.Config();
      ghost var goal := VisitSymbols(cfg, m, s, symbolData, bar, s.symbols, Progress(c.State(), trades));
      var log := trades;
      var j := 0;
      while j < |s.symbols|
        invariant 0 <= j <= |s.symbols|
        invariant c.portfolio == old(c.portfolio) && c.Config() == cfg
        invariant goal == VisitSymbols(cfg, m, s, symbolData, bar, s.symbols[j..], Progress(c.State(), log))
      {
        ghost var before := Progress(c.State(), log);
        var step := VisitRecord(c, m, s, Lookup(symbolData, s.symbols[j]), s.symbols[j], bar, log);
        VisitSymbolsCons(cfg, m, s, symbolData, bar, s.symbols[j..], before);
        assert s.symbols[j..][1..] == s.symbols[j + 1..];
        if step.Err? {
          return Err(step.error);
        }
        log := step.value;
        j := j + 1;
      }
      r := Ok(log);
    }

    /** The end of one bar: push the placeholder portfolio value and print progress when due. */
    static method RecordBar(capital: real, i: nat, n: nat, values: seq<real>, reported: seq<nat>)
      returns (values': seq<real>, reported': seq<nat>)
      requires values == EquityValues(capital, i) && reported == ProgressReports(n, i)
      ensures values' == EquityValues(capital, i + 1) && reported' == ProgressReports(n, i + 1)
    {
      EquityValuesStep(capital, i);
      values' := values + [capital * (1.0 + 0.001 * i as real)];
      assert values'[i] == EquityValue(capital, i);
      reported' := reported;
      if ProgressDue(i, n) {
        reported' := reported' + [i + 1];
      }
    }

    /** The bar loop of run, on the initialized clone `c`. */
    static method ReplayBars(c: VolatilityArbitrageStrategy, m: Market, s: Settings,
                             symbolData: map<string, seq<MarketData>>, timestamps: seq<DateTime>)
      returns (r: Result<seq<Trade>>, values: seq<real>, reported: seq<nat>)
      modifies c, c.portfolio
      ensures c.portfolio == old(c.portfolio) && c.Config() == old(c.Config())
      ensures var spec := Replay(old(c.Config()), m, s, symbolData, timestamps, Progress(old(c.State()), []));
              && (r.Ok? <==> spec.Ok?)
              && (r.Ok? ==> r.value == spec.value.trades && values == EquityValues(s.initialCapital, |timestamps|)
                            && reported == ProgressReports(|timestamps|, |timestamps|))
    {
      ghost var cfg := c.Config();
      ghost var goal := Replay(cfg, m, s, symbolData, timestamps, Progress(c.State(), []));
      var trades: seq<Trade> := [];
      values := [];
      reported := [];
      var i := 0;
      while i < |timestamps|
        invariant 0 <= i <= |timestamps|
        invariant c.portfolio == old(c.portfolio) && c.Config() == cfg
        invariant goal == Replay(cfg, m, s, symbolData, timestamps[i..], Progress(c.State(), trades))
        invariant values == EquityValues(s.initialCapital, i)
        invariant reported == ProgressReports(|timestamps|, i)
      {
        ghost var before := Progress(c.State(), trades);
        var step := VisitBar(c, m, s, symbolData, timestamps[i], trades);
        ReplayCons(cfg, m, s, symbolData, timestamps[i..], before);
        assert timestamps[i..][1..] == timestamps[i + 1..];
        if step.Err? {
          return Err(step.error), values, reported;
        }
        trades := step.value;
        values, reported := RecordBar(s.initialCapital, i, |timestamps|, values, reported);
        i := i + 1;
      }
      r := Ok(trades);
    }

    /**
     * run: validate, clone and initialize the strategy, replay every bar, and
     * wrap the placeholder curve and the trade log in a fresh result.  The
     * caller's strategy is left untouched (the method may change nothing it
     * did not allocate).
     */
    method Run(strategy: VolatilityArbitrageStrategy, params: BacktestParameters, m: Market, ratios: RatioModel)
      returns (r: Result<BacktestResult>, reported: seq<nat>)
      requires strategy.hedgingStrategy != null
      ensures var s := params.Snapshot();
              var pre := Preflight(s, marketData);
              var spec := RunSpec(strategy.Config(), m, s, marketData);
              && (pre.Fail? ==> r == Err(pre.error))
              && (r.Ok? <==> spec.Ok?)
              && (r.Ok? ==> fresh(r.value) && r.value.Valid()
                            && r.value.equityCurve == spec.value.0 && r.value.trades == spec.value.1
                            && r.value.metrics == map[] && !r.value.metricsCalculated && r.value.ratios == ratios
                            && reported == ProgressReports(spec.value.0.Size(), spec.value.0.Size()))
    {
      reported := [];
      var s := params.Snapshot();
      var v := ValidateParameters(s);
      if v.Fail? {
        return Err(v.error), reported;
      }
      v := ValidateMarketData(s.symbols, marketData);
      if v.Fail? {
        return Err(v.error), reported;
      }
      var symbolData := CollectSymbolData(s);
      var all := CollectTimes(s.symbols, symbolData);
      if all == {} {
        return Err(RuntimeError), reported;
      }
      TimeOrder();
      var timestamps := Ascend(all, Less);
      RunSpecUnfold(strategy.Config(), m, s, marketData);
      r, reported := Simulate(strategy, params, m, ratios, symbolData, timestamps);
    }

    /** The replay part of run: a fresh strategy walks the bars, then the curve and the log are packed. */
    static method Simulate(strategy: VolatilityArbitrageStrategy, params: BacktestParameters, m: Market, ratios: RatioModel,
                           symbolData: map<string, seq<MarketData>>, timestamps: seq<DateTime>)
      returns (r: Result<BacktestResult>, reported: seq<nat>)
      requires strategy.hedgingStrategy != null
      ensures var s := params.Snapshot();
              var p := Replay(strategy.Config(), m, s, symbolData, timestamps, InitialProgress(s));
              && (r.Ok? <==> p.Ok?)
              && (r.Ok? ==> fresh(r.value) && r.value.Valid()
                            && r.value.equityCurve == TimeSeries(timestamps, EquityValues(s.initialCapital, |timestamps|), "Portfolio Value")
                            && r.value.trades == p.value.trades
                            && r.value.metrics == map[] && !r.value.metricsCalculated && r.value.ratios == ratios
                            && reported == ProgressReports(|timestamps|, |timestamps|))
    {
      var s := params.Snapshot();
      var c := StartClone(strategy, params);
      var trades, values;
      trades, values, reported := ReplayBars(c, m, s, symbolData, timestamps);
      if trades.Err? {
        return Err(trades.error), reported;
      }
      var curve := BuildEquityCurve(values, timestamps);
      var result := new BacktestResult.WithData(curve.value, trades.value, ratios);
      r := Ok(result);
    }

    /** The clone run drives: the caller's configuration, initialized from the parameters. */
    static method StartClone(strategy: VolatilityArbitrageStrategy, params: BacktestParameters)
      returns (c: VolatilityArbitrageStrategy)
      requires strategy.hedgingStrategy != null
      ensures fresh(c) && fresh(c.portfolio) && c.Config() == strategy.Config()
      ensures c.State() == InitialProgress(params.Snapshot()).state
    {
      c := strategy.Clone();
      c.Initialize(params);
    }

    /** A result object holding the equity curve and trade log of `run`. */
    ghost predicate Carries(b: BacktestResult, run: (TimeSeries, seq<Trade>))
      reads b
    {
      b.equityCurve == run.0 && b.trades == run.1
    }

    lemma CarriedAppend(rs: seq<BacktestResult>, b: BacktestResult, run: (TimeSeries, seq<Trade>))
      requires forall x :: x in rs ==> Carries(x, run)
      requires Carries(b, run)
      ensures forall x :: x in rs + [b] ==> Carries(x, run)
    {
    }

    /** One simulation of the Monte Carlo loop: a run whose progress output is dropped. */
    method RunOnce(strategy: VolatilityArbitrageStrategy, params: BacktestParameters, m: Market, ratios: RatioModel)
      returns (r: Result<BacktestResult>)
      requires strategy.hedgingStrategy != null
      ensures var spec := RunSpec(strategy.Config(), m, params.Snapshot(), marketData);
              && (r.Ok? <==> spec.Ok?)
              && (r.Ok? ==> fresh(r.value) && Carries(r.value, spec.value))
    {
      var reported;
      r, reported := Run(strategy, params, m, ratios);
    }

    /** runMonteCarloSimulation: the same run, numSimulations times; the first failure ends it. */
    method RunMonteCarloSimulation(strategy: VolatilityArbitrageStrategy, params: BacktestParameters, m: Market,
                                   ratios: RatioModel, numSimulations: int)
      returns (r: Result<seq<BacktestResult>>)
      requires strategy.hedgingStrategy != null
      ensures var spec := RunSpec(strategy.Config(), m, params.Snapshot(), marketData);
              && (numSimulations <= 0 ==> r == Ok([]))
              && (numSimulations > 0 ==> (r.Ok? <==> spec.Ok?))
              && (r.Ok? ==> |r.value| == if numSimulations <= 0 then 0 else numSimulations)
              && (r.Ok? ==> forall b :: b in r.value ==> fresh(b) && Carries(b, spec.value))
    {
      ghost var cfg, settings := strategy.Config(), params.Snapshot();
      ghost var spec := RunSpec(cfg, m, settings, marketData);
      ghost var n: nat := if numSimulations <= 0 then 0 else numSimulations;
      var results: seq<BacktestResult> := [];
      var i := 0;
      while i < numSimulations
        invariant 0 <= i <= n && |results| == i
        invariant strategy.Config() == cfg && params.Snapshot() == settings
        invariant i > 0 ==> spec.Ok?
        invariant forall b :: b in results ==> fresh(b) && Carries(b, spec.value)
      {
        var result := RunOnce(strategy, params, m, ratios);
        if result.Err? {
          return Err(result.error);
        }
        CarriedAppend(results, result.value, spec.value);
        results := results + [result.value];
        i := i + 1;
      }
      r := Ok(results);
    }

    /** runParameterSweep: not implemented; always no results. */
    method RunParameterSweep(strategy: VolatilityArbitrageStrategy, params: BacktestParameters,
                             sweep: map<string, seq<real>>) returns (results: seq<BacktestResult>)
      ensures results == []
    {
      results := [];
    }
  }
}
