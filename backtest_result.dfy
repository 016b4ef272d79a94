// BacktestResult: the equity curve and trade log of one backtest, and the
// performance analytics computed from them (drawdowns, returns, win rate,
// profit factor) behind a compute-once metric cache.
module Results {
  import opened Wrappers
  import opened DateTimes
  import opened TimeSeriesCore
  import opened Trades
  import opened Numerics

  // ---- Doubles that may be non-finite ------------------------------------

  /**
   * A double as the analytics produce it: a finite value, or one of the
   * non-finite results IEEE division gives for a zero divisor.
   */
  datatype Ext = Fin(value: real) | PosInf | NegInf | NaN

  /** a / b on doubles: finite for a non-zero divisor, otherwise ±infinity or NaN by the sign of a. */
  function Quot(a: real, b: real): (r: Ext)
    ensures r.Fin? <==> b != 0.0
    ensures r.Fin? ==> r.value * b == a
    ensures r == PosInf <==> b == 0.0 && a > 0.0
    ensures r == NegInf <==> b == 0.0 && a < 0.0
  {
    if b != 0.0 then Fin(a / b)
    else if a > 0.0 then PosInf
    else if a < 0.0 then NegInf
    else NaN
  }

  /** Unary minus. */
  function Negate(x: Ext): Ext
  {
    match x
    case Fin(v) => Fin(-v)
    case PosInf => NegInf
    case NegInf => PosInf
    case NaN => NaN
  }

  /** IEEE `a > b`: false whenever either side is NaN. */
  predicate Greater(a: Ext, b: Ext)
  {
    match a
    case NaN => false
    case NegInf => false
    case PosInf => b.Fin? || b == NegInf
    case Fin(x) => b == NegInf || (b.Fin? && x > b.value)
  }

  /** IEEE `x < c` against a finite constant. */
  predicate Below(x: Ext, c: real)
  {
    x == NegInf || (x.Fin? && x.value < c)
  }

  /** IEEE `x >= c` against a finite constant. */
  predicate AtLeast(x: Ext, c: real)
  {
    x == PosInf || (x.Fin? && x.value >= c)
  }

  // ---- Drawdowns ----------------------------------------------------------

  /** The running peak after the first n values: the largest of them. */
  function Peak(vs: seq<real>, n: nat): real
    requires 1 <= n <= |vs|
    decreases n
  {
    if n == 1 then vs[0]
    else
      var p := Peak(vs, n - 1);
      if vs[n - 1] > p then vs[n - 1] else p
  }

  /** The running peak is the largest of the first n values: it bounds them all and is one of them. */
  lemma {:induction false} PeakIsMaximum(vs: seq<real>, n: nat)
    requires 1 <= n <= |vs|
    ensures forall i :: 0 <= i < n ==> vs[i] <= Peak(vs, n)
    ensures exists i :: 0 <= i < n && vs[i] == Peak(vs, n)
    decreases n
  {
    if n == 1 {
      assert vs[0] == Peak(vs, 1);
    } else {
      PeakIsMaximum(vs, n - 1);
      if vs[n - 1] <= Peak(vs, n - 1) {
        var k :| 0 <= k < n - 1 && vs[k] == Peak(vs, n - 1);
        assert vs[k] == Peak(vs, n);
      }
    }
  }

  /** The drawdown at point i: how far the value sits below the running peak, as a fraction of the peak. */
  function Drawdown(vs: seq<real>, i: nat): Ext
    requires i < |vs|
  {
    var peak := Peak(vs, i + 1);
    Quot(peak - vs[i], peak)
  }

  /** The largest drawdown over points 1..n-1 by IEEE `>`, starting from 0. */
  function MaxDrawdownUpTo(vs: seq<real>, n: nat): Ext
    requires 1 <= n <= |vs|
    decreases n
  {
    if n == 1 then Fin(0.0)
    else
      var m := MaxDrawdownUpTo(vs, n - 1);
      var dd := Drawdown(vs, n - 1);
      if Greater(dd, m) then dd else m
  }

  /** calculateMaxDrawdown: 0 for an empty curve. */
  function MaxDrawdownOf(vs: seq<real>): Ext
  {
    if |vs| == 0 then Fin(0.0) else MaxDrawdownUpTo(vs, |vs|)
  }

  /** The maximum drawdown is never negative and never NaN: a finite value >= 0, or +infinity. */
  lemma {:induction false} MaxDrawdownRange(vs: seq<real>, n: nat)
    requires 1 <= n <= |vs|
    ensures var m := MaxDrawdownUpTo(vs, n); m == PosInf || (m.Fin? && m.value >= 0.0)
    decreases n
  {
    if n > 1 {
      MaxDrawdownRange(vs, n - 1);
    }
  }

  /** On a curve whose first value is positive every peak is positive and every drawdown finite and >= 0. */
  lemma PositiveDrawdowns(vs: seq<real>, i: nat)
    requires i < |vs| && vs[0] > 0.0
    ensures Peak(vs, i + 1) > 0.0
    ensures Drawdown(vs, i).Fin? && Drawdown(vs, i).value >= 0.0
  {
    var peak := Peak(vs, i + 1);
    PeakIsMaximum(vs, i + 1);
    assert vs[0] <= peak;
    assert vs[i] <= peak;
  }

  /**
   * With a positive first value the maximum drawdown is finite, bounds every
   * drawdown from above and is either 0 or one of them.
   */
  lemma {:induction false} MaxDrawdownIsMaximum(vs: seq<real>, n: nat)
    requires 1 <= n <= |vs| && vs[0] > 0.0
    ensures MaxDrawdownUpTo(vs, n).Fin?
    ensures forall i :: 1 <= i < n ==> Drawdown(vs, i).Fin? && Drawdown(vs, i).value <= MaxDrawdownUpTo(vs, n).value
    ensures MaxDrawdownUpTo(vs, n).value == 0.0
            || exists i :: 1 <= i < n && Drawdown(vs, i) == MaxDrawdownUpTo(vs, n)
    decreases n
  {
    if n > 1 {
      MaxDrawdownIsMaximum(vs, n - 1);
      PositiveDrawdowns(vs, n - 1);
      forall i | 1 <= i < n
        ensures Drawdown(vs, i).Fin?
      {
        PositiveDrawdowns(vs, i);
      }
    }
  }

  /** Where the curve never falls, the peak is the current value and the maximum drawdown is 0. */
  lemma {:induction false} NonDecreasingNoDrawdown(vs: seq<real>, n: nat)
    requires 1 <= n <= |vs|
    requires forall i, j :: 0 <= i <= j < |vs| ==> vs[i] <= vs[j]
    ensures forall i :: 1 <= i < n ==> Drawdown(vs, i) == Fin(0.0) || Drawdown(vs, i) == NaN
    ensures MaxDrawdownUpTo(vs, n) == Fin(0.0)
    decreases n
  {
    if n > 1 {
      NonDecreasingNoDrawdown(vs, n - 1);
      var i := n - 1;
      var peak := Peak(vs, i + 1);
      PeakIsMaximum(vs, i + 1);
      var k :| 0 <= k < i + 1 && vs[k] == peak;
      assert vs[k] <= vs[i];
      assert peak == vs[i];
    }
  }

  /** The drawdown series' value at point k: 0 at the first point, then minus the drawdown. */
  function DrawdownValue(vs: seq<real>, k: nat): Ext
    requires k < |vs|
  {
    if k == 0 then Fin(0.0) else Negate(Drawdown(vs, k))
  }

  /** The drawdown series' values, point by point. */
  function DrawdownValues(vs: seq<real>): (r: seq<Ext>)
    ensures |r| == |vs| && forall k :: 0 <= k < |vs| ==> r[k] == DrawdownValue(vs, k)
  {
    seq(|vs|, k requires 0 <= k < |vs| => DrawdownValue(vs, k))
  }

  /**
   * With a positive first value the drawdown series is finite and never above
   * 0, and its minimum is exactly minus the maximum drawdown.
   */
  lemma SeriesMatchesMaxDrawdown(vs: seq<real>)
    requires |vs| >= 1 && vs[0] > 0.0
    ensures MaxDrawdownOf(vs).Fin?
    ensures forall k :: 0 <= k < |vs| ==>
              DrawdownValue(vs, k).Fin? && -MaxDrawdownOf(vs).value <= DrawdownValue(vs, k).value <= 0.0
    ensures exists k :: 0 <= k < |vs| && DrawdownValue(vs, k).Fin? && DrawdownValue(vs, k).value == -MaxDrawdownOf(vs).value
  {
    MaxDrawdownIsMaximum(vs, |vs|);
    forall k | 1 <= k < |vs|
      ensures Drawdown(vs, k).Fin? && Drawdown(vs, k).value >= 0.0
    {
      PositiveDrawdowns(vs, k);
    }
    if MaxDrawdownOf(vs).value == 0.0 {
      assert DrawdownValue(vs, 0) == Fin(0.0);
    } else {
      var i :| 1 <= i < |vs| && Drawdown(vs, i) == MaxDrawdownOf(vs);
      assert DrawdownValue(vs, i).value == -MaxDrawdownOf(vs).value;
    }
  }

  /** calculateMaxDrawdown: one pass keeping the running peak. */
  method CalculateMaxDrawdown(vs: seq<real>) returns (r: Ext)
    ensures r == MaxDrawdownOf(vs)
  {
    if |vs| == 0 {
      return Fin(0.0);
    }
    var peak := vs[0];
    r := Fin(0.0);
    var i := 1;
    while i < |vs|
      invariant 1 <= i <= |vs|
      invariant peak == Peak(vs, i) && r == MaxDrawdownUpTo(vs, i)
    {
      if vs[i] > peak {
        peak := vs[i];
      }
      var drawdown := Quot(peak - vs[i], peak);
      if Greater(drawdown, r) {
        r := drawdown;
      }
      i := i + 1;
    }
  }

  /** calculateDrawdownSeries: the curve's timestamps with minus the running drawdown, named "Drawdown". */
  method CalculateDrawdownSeries(curve: TimeSeries) returns (timestamps: seq<DateTime>, values: seq<Ext>, name: string)
    requires curve.Wf()
    ensures timestamps == curve.timestamps && values == DrawdownValues(curve.values)
    ensures name == if curve.Size() == 0 then "" else "Drawdown"
  {
    var vs := curve.values;
    if |vs| == 0 {
      return [], [], "";
    }
    var peak := vs[0];
    values := [Fin(0.0)];
    var i := 1;
    while i < |vs|
      invariant 1 <= i <= |vs|
      invariant peak == Peak(vs, i)
      invariant |values| == i && forall k :: 0 <= k < i ==> values[k] == DrawdownValue(vs, k)
    {
      if vs[i] > peak {
        peak := vs[i];
      }
      var drawdown := Quot(peak - vs[i], peak);
      values := values + [Negate(drawdown)];
      i := i + 1;
    }
    timestamps, name := curve.timestamps, "Drawdown";
  }

  // ---- Returns ------------------------------------------------------------

  /** calculateTotalReturn: (last - first) / first, 0 for an empty curve; compounding it onto the first value gives the last. */
  function TotalReturnOf(vs: seq<real>): (r: Ext)
    ensures r.Fin? <==> |vs| == 0 || vs[0] != 0.0
    ensures |vs| == 0 ==> r == Fin(0.0)
    ensures |vs| > 0 && r.Fin? ==> vs[0] * (1.0 + r.value) == vs[|vs| - 1]
  {
    if |vs| == 0 then Fin(0.0) else Quot(vs[|vs| - 1] - vs[0], vs[0])
  }

  // ---- Trade statistics ---------------------------------------------------

  /** The number of trades with a positive net value. */
  function Wins(ts: seq<Trade>): (n: nat)
    ensures n <= |ts|
  {
    if ts == [] then 0
    else Wins(ts[..|ts| - 1]) + (if NetValue(ts[|ts| - 1]) > 0.0 then 1 else 0)
  }

  /** Counting wins: none exactly when no trade wins, all exactly when every trade wins. */
  lemma {:induction false} WinsCount(ts: seq<Trade>)
    ensures Wins(ts) == 0 <==> forall i :: 0 <= i < |ts| ==> NetValue(ts[i]) <= 0.0
    ensures Wins(ts) == |ts| <==> forall i :: 0 <= i < |ts| ==> NetValue(ts[i]) > 0.0
    decreases |ts|
  {
    if ts != [] {
      var init := ts[..|ts| - 1];
      WinsCount(init);
      assert forall i :: 0 <= i < |init| ==> init[i] == ts[i];
    }
  }

  /** calculateWinRate: winning trades over all trades, 0 with no trades. */
  function WinRateOf(ts: seq<Trade>): real
  {
    if |ts| == 0 then 0.0 else (Wins(ts) as real) / (|ts| as real)
  }

  /** A count over a positive total: in [0, 1], 0 only for no count and 1 only for the full count. */
  lemma FractionBounds(w: real, n: real)
    requires 0.0 <= w <= n && n > 0.0
    ensures 0.0 <= w / n <= 1.0
    ensures w / n == 0.0 <==> w == 0.0
    ensures w / n == 1.0 <==> w == n
  {
    var q := w / n;
    assert q * n == w;
  }

  /** The win rate lies in [0, 1]; it is 0 exactly when no trade wins and 1 exactly when there are trades and all win. */
  lemma WinRateBounds(ts: seq<Trade>)
    ensures 0.0 <= WinRateOf(ts) <= 1.0
    ensures WinRateOf(ts) == 0.0 <==> forall i :: 0 <= i < |ts| ==> NetValue(ts[i]) <= 0.0
    ensures WinRateOf(ts) == 1.0 <==> |ts| > 0 && forall i :: 0 <= i < |ts| ==> NetValue(ts[i]) > 0.0
  {
    WinsCount(ts);
    if |ts| > 0 {
      FractionBounds(Wins(ts) as real, |ts| as real);
    }
  }

  /** calculateWinRate: one counting pass. */
  method CalculateWinRate(ts: seq<Trade>) returns (r: real)
    ensures r == WinRateOf(ts)
  {
    if |ts| == 0 {
      return 0.0;
    }
    var winningTrades := 0;
    var i := 0;
    while i < |ts|
      invariant 0 <= i <= |ts| && winningTrades == Wins(ts[..i])
    {
      assert ts[..i + 1][..i] == ts[..i];
      if NetValue(ts[i]) > 0.0 {
        winningTrades := winningTrades + 1;
      }
      i := i + 1;
    }
    assert ts[..|ts|] == ts;
    r := (winningTrades as real) / (|ts| as real);
  }

  /** The sum of the positive net values. */
  function GrossProfit(ts: seq<Trade>): (r: real)
    ensures r >= 0.0
  {
    if ts == [] then 0.0
    else
      var net := NetValue(ts[|ts| - 1]);
      GrossProfit(ts[..|ts| - 1]) + (if net > 0.0 then net else 0.0)
  }

  /** The sum of the absolute values of the other net values. */
  function GrossLoss(ts: seq<Trade>): (r: real)
    ensures r >= 0.0
  {
    if ts == [] then 0.0
    else
      var net := NetValue(ts[|ts| - 1]);
      GrossLoss(ts[..|ts| - 1]) + (if net > 0.0 then 0.0 else Abs(net))
  }

  /** The sum of all net values. */
  function TotalNet(ts: seq<Trade>): real
  {
    if ts == [] then 0.0 else TotalNet(ts[..|ts| - 1]) + NetValue(ts[|ts| - 1])
  }

  /**
   * Gross profit less gross loss is the total net value; there is no gross
   * loss exactly when no trade loses, and a gross profit exactly when some
   * trade wins.
   */
  lemma {:induction false} GrossSplit(ts: seq<Trade>)
    ensures GrossProfit(ts) - GrossLoss(ts) == TotalNet(ts)
    ensures GrossLoss(ts) == 0.0 <==> forall i :: 0 <= i < |ts| ==> NetValue(ts[i]) >= 0.0
    ensures GrossProfit(ts) > 0.0 <==> exists i :: 0 <= i < |ts| && NetValue(ts[i]) > 0.0
    decreases |ts|
  {
    if ts != [] {
      var init := ts[..|ts| - 1];
      GrossSplit(init);
      assert forall i :: 0 <= i < |init| ==> init[i] == ts[i];
      if GrossProfit(ts) > 0.0 && NetValue(ts[|ts| - 1]) <= 0.0 {
        var i :| 0 <= i < |init| && NetValue(init[i]) > 0.0;
        assert NetValue(ts[i]) > 0.0;
      }
    }
  }

  /** calculateProfitFactor: gross profit over gross loss, with the cases the division cannot handle. */
  function ProfitFactorOf(ts: seq<Trade>): Ext
  {
    if |ts| == 0 then Fin(0.0)
    else
      var grossProfit := GrossProfit(ts);
      var grossLoss := GrossLoss(ts);
      if grossLoss == 0.0 then (if grossProfit > 0.0 then PosInf else Fin(0.0))
      else Fin(grossProfit / grossLoss)
  }

  /** A positive gross loss gives a finite, non-negative profit factor that times the loss is the profit. */
  lemma ProfitFactorFinite(ts: seq<Trade>)
    requires |ts| > 0 && GrossLoss(ts) > 0.0
    ensures ProfitFactorOf(ts).Fin? && ProfitFactorOf(ts).value >= 0.0
    ensures ProfitFactorOf(ts).value * GrossLoss(ts) == GrossProfit(ts)
  {
    var profit, loss := GrossProfit(ts), GrossLoss(ts);
    assert ProfitFactorOf(ts) == Fin(profit / loss);
    NonNegativeQuotient(profit, loss);
  }

  lemma NonNegativeQuotient(p: real, l: real)
    requires p >= 0.0 && l > 0.0
    ensures p / l >= 0.0 && (p / l) * l == p
  {
  }

  /**
   * The profit factor is never negative or NaN, and it is +infinity exactly
   * when there are trades, none loses and one wins.
   */
  lemma ProfitFactorMeaning(ts: seq<Trade>)
    ensures ProfitFactorOf(ts) == PosInf || (ProfitFactorOf(ts).Fin? && ProfitFactorOf(ts).value >= 0.0)
    ensures ProfitFactorOf(ts) == PosInf <==>
              && |ts| > 0
              && (forall i :: 0 <= i < |ts| ==> NetValue(ts[i]) >= 0.0)
              && (exists i :: 0 <= i < |ts| && NetValue(ts[i]) > 0.0)
  {
    GrossSplit(ts);
    if |ts| > 0 && GrossLoss(ts) > 0.0 {
      ProfitFactorFinite(ts);
    }
  }

  /** calculateProfitFactor: one pass summing wins and losses. */
  method CalculateProfitFactor(ts: seq<Trade>) returns (r: Ext)
    ensures r == ProfitFactorOf(ts)
  {
    if |ts| == 0 {
      return Fin(0.0);
    }
    var grossProfit := 0.0;
    var grossLoss := 0.0;
    var i := 0;
    while i < |ts|
      invariant 0 <= i <= |ts|
      invariant grossProfit == GrossProfit(ts[..i]) && grossLoss == GrossLoss(ts[..i])
    {
      assert ts[..i + 1][..i] == ts[..i];
      var netValue := NetValue(ts[i]);
      if netValue > 0.0 {
        grossProfit := grossProfit + netValue;
      } else {
        grossLoss := grossLoss + Abs(netValue);
      }
      i := i + 1;
    }
    assert ts[..|ts|] == ts;
    if grossLoss == 0.0 {
      r := if grossProfit > 0.0 then PosInf else Fin(0.0);
    } else {
      r := Fin(grossProfit / grossLoss);
    }
  }

  // ---- Drawdown periods ---------------------------------------------------

  /** The scan over the drawdown series: the closed periods (as index pairs) and the start of an open one. */
  datatype Scan = Scan(closed: seq<(nat, nat)>, open: Option<nat>)

  /** The state after the first n points: a period opens below -1% and closes at the next point at or above 0. */
  function ScanUpTo(dds: seq<Ext>, n: nat): Scan
    requires n <= |dds|
    decreases n
  {
    if n == 0 then Scan([], None)
    else
      var prev := ScanUpTo(dds, n - 1);
      var x := dds[n - 1];
      if Below(x, -0.01) && prev.open.None? then prev.(open := Some(n - 1))
      else if AtLeast(x, 0.0) && prev.open.Some? then Scan(prev.closed + [(prev.open.value, n - 1)], None)
      else prev
  }

  /** getDrawdownPeriods as index pairs: a period still open at the end closes at the last point. */
  function PeriodIndices(dds: seq<Ext>): (r: seq<(nat, nat)>)
    ensures forall j :: 0 <= j < |r| ==> r[j].0 <= r[j].1 < |dds|
  {
    ScanFacts(dds, |dds|);
    var s := ScanUpTo(dds, |dds|);
    if s.open.Some? && |dds| > 0 then s.closed + [(s.open.value, |dds| - 1)] else s.closed
  }

  /** Periods in chronological order, not overlapping, each opened below -1% and each but an unfinished last one closed at or above 0. */
  predicate Chronological(ps: seq<(nat, nat)>, dds: seq<Ext>)
  {
    && (forall j :: 0 <= j < |ps| ==> ps[j].0 <= ps[j].1 < |dds| && Below(dds[ps[j].0], -0.01))
    && (forall j, k :: 0 <= j < k < |ps| ==> ps[j].1 < ps[k].0)
  }

  /** What a scan over the first n points has built: chronological periods, each closed at or above 0, before the open one. */
  predicate ScanShape(dds: seq<Ext>, s: Scan, n: nat)
  {
    && Chronological(s.closed, dds)
    && (forall j :: 0 <= j < |s.closed| ==> s.closed[j].1 < n && AtLeast(dds[s.closed[j].1], 0.0))
    && (s.open.Some? ==> s.open.value < n && s.open.value < |dds| && Below(dds[s.open.value], -0.01)
                         && forall j :: 0 <= j < |s.closed| ==> s.closed[j].1 < s.open.value)
  }

  lemma ScanOpens(dds: seq<Ext>, s: Scan, n: nat)
    requires n < |dds| && ScanShape(dds, s, n) && s.open.None? && Below(dds[n], -0.01)
    ensures ScanShape(dds, s.(open := Some(n)), n + 1)
  {
  }

  lemma ScanCloses(dds: seq<Ext>, s: Scan, n: nat)
    requires n < |dds| && ScanShape(dds, s, n) && s.open.Some? && AtLeast(dds[n], 0.0)
    ensures ScanShape(dds, Scan(s.closed + [(s.open.value, n)], None), n + 1)
  {
    var closed := s.closed + [(s.open.value, n)];
    assert forall j :: 0 <= j < |s.closed| ==> closed[j] == s.closed[j];
  }

  lemma ScanWaits(dds: seq<Ext>, s: Scan, n: nat)
    requires n < |dds| && ScanShape(dds, s, n)
    ensures ScanShape(dds, s, n + 1)
  {
  }

  /** One more point keeps the shape of the scan. */
  lemma ScanStep(dds: seq<Ext>, n: nat)
    requires n < |dds| && ScanShape(dds, ScanUpTo(dds, n), n)
    ensures ScanShape(dds, ScanUpTo(dds, n + 1), n + 1)
  {
    var prev := ScanUpTo(dds, n);
    var x := dds[n];
    if Below(x, -0.01) && prev.open.None? {
      assert ScanUpTo(dds, n + 1) == prev.(open := Some(n));
      ScanOpens(dds, prev, n);
    } else if AtLeast(x, 0.0) && prev.open.Some? {
      assert ScanUpTo(dds, n + 1) == Scan(prev.closed + [(prev.open.value, n)], None);
      ScanCloses(dds, prev, n);
    } else {
      assert ScanUpTo(dds, n + 1) == prev;
      ScanWaits(dds, prev, n);
    }
  }

  lemma {:induction false} ScanFacts(dds: seq<Ext>, n: nat)
    requires n <= |dds|
    ensures ScanShape(dds, ScanUpTo(dds, n), n)
    decreases n
  {
    if n > 0 {
      ScanFacts(dds, n - 1);
      ScanStep(dds, n - 1);
    }
  }

  /** The periods are chronological and non-overlapping; every one but the last ends at a point at or above 0. */
  lemma PeriodsChronological(dds: seq<Ext>)
    ensures Chronological(PeriodIndices(dds), dds)
    ensures var ps := PeriodIndices(dds);
            forall j :: 0 <= j < |ps| - 1 ==> AtLeast(dds[ps[j].1], 0.0)
  {
    ScanFacts(dds, |dds|);
  }

  /** The index pairs as pairs of timestamps. */
  function Stamped(ps: seq<(nat, nat)>, ts: seq<DateTime>): (r: seq<(DateTime, DateTime)>)
    requires forall j :: 0 <= j < |ps| ==> ps[j].0 < |ts| && ps[j].1 < |ts|
    ensures |r| == |ps| && forall j :: 0 <= j < |ps| ==> r[j] == (ts[ps[j].0], ts[ps[j].1])
  {
    seq(|ps|, j requires 0 <= j < |ps| => (ts[ps[j].0], ts[ps[j].1]))
  }

  lemma StampedAppend(ps: seq<(nat, nat)>, p: (nat, nat), ts: seq<DateTime>)
    requires forall j :: 0 <= j < |ps| ==> ps[j].0 < |ts| && ps[j].1 < |ts|
    requires p.0 < |ts| && p.1 < |ts|
    ensures Stamped(ps + [p], ts) == Stamped(ps, ts) + [(ts[p.0], ts[p.1])]
  {
    var l := Stamped(ps + [p], ts);
    var r := Stamped(ps, ts) + [(ts[p.0], ts[p.1])];
    assert |l| == |r|;
    forall j | 0 <= j < |l|
      ensures l[j] == r[j]
    {
      if j < |ps| {
        assert (ps + [p])[j] == ps[j];
      }
    }
  }

  /** The loop state of getDrawdownPeriods after i points agrees with the scan. */
  predicate Tracks(drawdowns: seq<Ext>, timestamps: seq<DateTime>, i: nat, inDrawdown: bool, drawdownStart: DateTime,
                   periods: seq<(DateTime, DateTime)>)
    requires i <= |drawdowns| == |timestamps|
  {
    && ScanShape(drawdowns, ScanUpTo(drawdowns, i), i)
    && (inDrawdown <==> ScanUpTo(drawdowns, i).open.Some?)
    && (inDrawdown ==> drawdownStart == timestamps[ScanUpTo(drawdowns, i).open.value])
    && periods == Stamped(ScanUpTo(drawdowns, i).closed, timestamps)
  }

  /** One point of getDrawdownPeriods' loop. */
  method ScanPoint(drawdowns: seq<Ext>, timestamps: seq<DateTime>, i: nat, inDrawdown: bool, drawdownStart: DateTime,
                   periods: seq<(DateTime, DateTime)>)
    returns (inDrawdown': bool, drawdownStart': DateTime, periods': seq<(DateTime, DateTime)>)
    requires i < |drawdowns| == |timestamps|
    requires Tracks(drawdowns, timestamps, i, inDrawdown, drawdownStart, periods)
    ensures Tracks(drawdowns, timestamps, i + 1, inDrawdown', drawdownStart', periods')
  {
    var prev := ScanUpTo(drawdowns, i);
    ScanFacts(drawdowns, i + 1);
    inDrawdown', drawdownStart', periods' := inDrawdown, drawdownStart, periods;
    if Below(drawdowns[i], -0.01) && !inDrawdown {
      inDrawdown' := true;
      drawdownStart' := timestamps[i];
      assert ScanUpTo(drawdowns, i + 1) == prev.(open := Some(i));
    } else if AtLeast(drawdowns[i], 0.0) && inDrawdown {
      inDrawdown' := false;
      periods' := periods + [(drawdownStart, timestamps[i])];
      assert ScanUpTo(drawdowns, i + 1) == Scan(prev.closed + [(prev.open.value, i)], None);
      StampedAppend(prev.closed, (prev.open.value, i), timestamps);
    } else {
      assert ScanUpTo(drawdowns, i + 1) == prev;
    }
  }

  /** The scan of getDrawdownPeriods over a series of drawdowns and its timestamps. */
  method ScanPeriods(drawdowns: seq<Ext>, timestamps: seq<DateTime>) returns (periods: seq<(DateTime, DateTime)>)
    requires |drawdowns| == |timestamps| > 0
    ensures periods == Stamped(PeriodIndices(drawdowns), timestamps)
  {
    periods := [];
    var inDrawdown := false;
    var drawdownStart := timestamps[0];
    var i := 0;
    ScanFacts(drawdowns, 0);
    while i < |drawdowns|
      invariant 0 <= i <= |drawdowns|
      invariant Tracks(drawdowns, timestamps, i, inDrawdown, drawdownStart, periods)
    {
      inDrawdown, drawdownStart, periods := ScanPoint(drawdowns, timestamps, i, inDrawdown, drawdownStart, periods);
      i := i + 1;
    }
    if inDrawdown {
      var s := ScanUpTo(drawdowns, i);
      StampedAppend(s.closed, (s.open.value, i - 1), timestamps);
      periods := periods + [(drawdownStart, timestamps[|timestamps| - 1])];
    }
  }

  /** getDrawdownPeriods: the periods of the curve's drawdown series, none for an empty curve. */
  method DrawdownPeriods(curve: TimeSeries) returns (periods: seq<(DateTime, DateTime)>)
    requires curve.Wf()
    ensures periods == Stamped(PeriodIndices(DrawdownValues(curve.values)), curve.timestamps)
  {
    if curve.Size() == 0 {
      return [];
    }
    var timestamps, drawdowns, _ := CalculateDrawdownSeries(curve);
    periods := ScanPeriods(drawdowns, timestamps);
  }

  // ---- Returns by calendar period -----------------------------------------

  datatype Period = Month | Year

  function KeyOf(t: DateTime, period: Period): int
  {
    match period
    case Month => t.month
    case Year => t.year
  }

  /** pctChange succeeds: fewer than two points, or no zero value before the last. */
  predicate ReturnsDefined(vs: seq<real>)
  {
    |vs| < 2 || forall i :: 0 <= i < |vs| - 1 ==> vs[i] != 0.0
  }

  /**
   * calculateMetrics throws for a non-empty curve exactly when
   * calculateSharpeRatio, which runs first, does: its pctChange throws
   * runtime_error on a zero value before the last point, and for exactly
   * three points the single return left once the first is dropped reaches
   * core::variance, which throws invalid_argument for fewer than two values.
   */
  predicate MetricsThrow(vs: seq<real>)
  {
    |vs| > 0 && (!ReturnsDefined(vs) || |vs| == 3)
  }

  /** The exception calculateMetrics throws: pctChange's comes first. */
  function MetricsError(vs: seq<real>): Error
  {
    if ReturnsDefined(vs) then InvalidArgument else RuntimeError
  }

  /**
   * The two failures of calculateMetrics are pctChange's and the variance's:
   * a curve of two points or of four and more with no zero value before the
   * last never throws, and a three-point curve always does.
   */
  lemma MetricsThrowCases(vs: seq<real>)
    ensures |vs| != 3 && ReturnsDefined(vs) ==> !MetricsThrow(vs)
    ensures |vs| == 3 ==> MetricsThrow(vs)
    ensures MetricsThrow(vs) && !ReturnsDefined(vs) ==> MetricsError(vs) == RuntimeError && |vs| >= 2
    ensures MetricsThrow(vs) && ReturnsDefined(vs) ==> MetricsError(vs) == InvalidArgument && |vs| == 3
  {
  }

  /** The percentage change into point c. */
  function Change(vs: seq<real>, c: nat): real
    requires 1 <= c < |vs| && vs[c - 1] != 0.0
  {
    (vs[c] - vs[c - 1]) / vs[c - 1]
  }

  /** The changes into points 2..n-1 whose timestamp falls in period `key`, summed. */
  function GroupSum(vs: seq<real>, ts: seq<DateTime>, period: Period, key: int, n: nat): real
    requires n <= |vs| == |ts| && ReturnsDefined(vs)
    decreases n
  {
    if n <= 2 then 0.0
    else GroupSum(vs, ts, period, key, n - 1) + (if KeyOf(ts[n - 1], period) == key then Change(vs, n - 1) else 0.0)
  }

  /** The periods of points 2..n-1. */
  function KeysUpTo(ts: seq<DateTime>, period: Period, n: nat): set<int>
    requires n <= |ts|
  {
    set c | 2 <= c < n :: KeyOf(ts[c], period)
  }

  lemma KeysStep(ts: seq<DateTime>, period: Period, n: nat)
    requires 2 <= n < |ts|
    ensures KeysUpTo(ts, period, n + 1) == KeysUpTo(ts, period, n) + {KeyOf(ts[n], period)}
  {
    assert KeyOf(ts[n], period) in KeysUpTo(ts, period, n + 1);
  }

  /** `sums` holds, for every period, the grouped sum of the changes into points 2..n-1. */
  ghost predicate Grouped(sums: map<int, real>, vs: seq<real>, ts: seq<DateTime>, period: Period, n: nat)
    requires n <= |vs| == |ts| && ReturnsDefined(vs)
  {
    forall key :: GroupSum(vs, ts, period, key, n) == (if key in sums then sums[key] else 0.0)
  }

  /** Adding the change into point n to its period's entry extends the grouping by one point. */
  lemma GroupedStep(sums: map<int, real>, vs: seq<real>, ts: seq<DateTime>, period: Period, n: nat)
    requires 2 <= n < |vs| == |ts| && ReturnsDefined(vs)
    requires Grouped(sums, vs, ts, period, n)
    ensures var key := KeyOf(ts[n], period);
            Grouped(sums[key := (if key in sums then sums[key] else 0.0) + Change(vs, n)], vs, ts, period, n + 1)
  {
    var key := KeyOf(ts[n], period);
    var next := sums[key := (if key in sums then sums[key] else 0.0) + Change(vs, n)];
    forall k
      ensures GroupSum(vs, ts, period, k, n + 1) == (if k in next then next[k] else 0.0)
    {
      assert GroupSum(vs, ts, period, k, n) == (if k in sums then sums[k] else 0.0);
    }
  }

  /** The grouped sums never look at the first value: the first change is left out. */
  lemma {:induction false} GroupSumSkipsFirst(vs: seq<real>, ws: seq<real>, ts: seq<DateTime>, period: Period, key: int, n: nat)
    requires n <= |vs| == |ws| == |ts| && ReturnsDefined(vs) && ReturnsDefined(ws)
    requires forall i :: 1 <= i < |vs| ==> vs[i] == ws[i]
    ensures GroupSum(vs, ts, period, key, n) == GroupSum(ws, ts, period, key, n)
    decreases n
  {
    if n > 2 {
      GroupSumSkipsFirst(vs, ws, ts, period, key, n - 1);
      assert Change(vs, n - 1) == Change(ws, n - 1);
    }
  }

  /**
   * getReturnsByMonth / getReturnsByYear: the percentage changes summed by
   * the period of their timestamp, starting from the second change; empty
   * for fewer than two points, and pctChange's error on a zero value.
   */
  method ReturnsBy(curve: TimeSeries, period: Period) returns (r: Result<map<int, real>>)
    requires curve.Wf()
    ensures r.Ok? <==> ReturnsDefined(curve.values)
    ensures r.Err? ==> r.error == RuntimeError
    ensures r.Ok? ==> r.value.Keys == KeysUpTo(curve.timestamps, period, curve.Size())
    ensures r.Ok? ==> forall key :: GroupSum(curve.values, curve.timestamps, period, key, curve.Size())
                                    == (if key in r.value then r.value[key] else 0.0)
  {
    if curve.Size() < 2 {
      return Ok(map[]);
    }
    var changes := PctChange(curve);
    if changes.Err? {
      return Err(changes.error);
    }
    ghost var vs := curve.values;
    ghost var ts := curve.timestamps;
    var returnValues := changes.value.values;
    var timestamps := changes.value.timestamps;
    var sums: map<int, real> := map[];
    var i := 1;
    while i < |returnValues|
      invariant 1 <= i <= |returnValues| == |vs| - 1
      invariant sums.Keys == KeysUpTo(ts, period, i + 1)
      invariant Grouped(sums, vs, ts, period, i + 1)
    {
      var key := KeyOf(timestamps[i], period);
      assert timestamps[i] == ts[i + 1] && returnValues[i] == Change(vs, i + 1);
      GroupedStep(sums, vs, ts, period, i + 1);
      sums := sums[key := (if key in sums then sums[key] else 0.0) + returnValues[i]];
      KeysStep(ts, period, i + 1);
      i := i + 1;
    }
    r := Ok(sums);
    assert Grouped(sums, vs, ts, period, curve.Size());
  }

  // ---- The result object and its metric cache -----------------------------

  /** The square-root and power based ratios, outside this model, as functions of the curve. */
  datatype RatioModel = RatioModel(
    sharpe: TimeSeries -> real,
    sortino: TimeSeries -> real,
    annualizedReturn: TimeSeries -> real,
    annualizedVolatility: TimeSeries -> real)

  /** The eight metrics calculateMetrics writes for a non-empty curve. */
  function ComputedMetrics(curve: TimeSeries, trades: seq<Trade>, ratios: RatioModel): map<string, Ext>
  {
    map[
      "sharpe_ratio" := Fin(ratios.sharpe(curve)),
      "sortino_ratio" := Fin(ratios.sortino(curve)),
      "max_drawdown" := MaxDrawdownOf(curve.values),
      "total_return" := TotalReturnOf(curve.values),
      "annualized_return" := Fin(ratios.annualizedReturn(curve)),
      "annualized_volatility" := Fin(ratios.annualizedVolatility(curve)),
      "win_rate" := Fin(WinRateOf(trades)),
      "profit_factor" := ProfitFactorOf(trades)]
  }

  class BacktestResult {
    var equityCurve: TimeSeries
    var trades: seq<Trade>
    var metrics: map<string, Ext>
    var metricsCalculated: bool
    const ratios: RatioModel

    predicate Valid()
      reads this
    {
      equityCurve.Wf()
    }

    /** The default constructor: no curve, no trades, no metrics. */
    constructor (ratios: RatioModel)
      ensures Valid() && equityCurve == Named("") && trades == [] && metrics == map[] && !metricsCalculated
      ensures this.ratios == ratios
    {
      equityCurve := Named("");
      trades := [];
      metrics := map[];
      metricsCalculated := false;
      this.ratios := ratios;
    }

    constructor WithData(curve: TimeSeries, trades: seq<Trade>, ratios: RatioModel)
      requires curve.Wf()
      ensures Valid() && equityCurve == curve && this.trades == trades && metrics == map[] && !metricsCalculated
      ensures this.ratios == ratios
    {
      equityCurve := curve;
      this.trades := trades;
      metrics := map[];
      metricsCalculated := false;
      this.ratios := ratios;
    }

    function TradeCount(): nat
      reads this
    {
      |trades|
    }

    predicate HasMetric(name: string)
      reads this
    {
      name in metrics
    }

    /** getMetric: the stored value, 0 for a name never stored. */
    function GetMetric(name: string): Ext
      reads this
    {
      if name in metrics then metrics[name] else Fin(0.0)
    }

    /** The metrics once calculateMetrics has filled the cache: the computed eight over the stored ones. */
    function FilledMetrics(): map<string, Ext>
      reads this
    {
      if equityCurve.Size() == 0 then metrics else metrics + ComputedMetrics(equityCurve, trades, ratios)
    }

    /** setMetric: store one value under one name; every other name keeps its value. */
    method SetMetric(name: string, value: Ext)
      modifies this
      ensures GetMetric(name) == value && HasMetric(name)
      ensures forall other :: other != name ==> GetMetric(other) == old(GetMetric(other)) && (HasMetric(other) <==> old(HasMetric(other)))
      ensures equityCurve == old(equityCurve) && trades == old(trades) && metricsCalculated == old(metricsCalculated)
    {
      metrics := metrics[name := value];
    }

    /**
     * calculateMetrics: an empty curve only marks the cache filled; otherwise
     * the Sharpe ratio is computed first, and it throws (MetricsThrow) before
     * anything is written; if not, all eight metrics are stored.
     */
    method CalculateMetrics() returns (o: Outcome)
      requires Valid()
      modifies this
      ensures Valid() && equityCurve == old(equityCurve) && trades == old(trades)
      ensures o.Fail? <==> MetricsThrow(equityCurve.values)
      ensures o.Fail? ==> o.error == MetricsError(equityCurve.values) && metrics == old(metrics) && metricsCalculated == old(metricsCalculated)
      ensures o.Pass? ==> metricsCalculated
      ensures o.Pass? ==> metrics == if equityCurve.Size() == 0 then old(metrics)
                                     else old(metrics) + ComputedMetrics(equityCurve, trades, ratios)
    {
      if equityCurve.Size() == 0 {
        metricsCalculated := true;
        return Pass;
      }
      if equityCurve.Size() >= 2 {
        var changes := PctChange(equityCurve);
        if changes.Err? {
          return Fail(changes.error);
        }
        // calculateSharpeRatio drops the first change; a single change left
        // is too few for core::variance
        var returnValues := changes.value.values[1..];
        if |returnValues| == 1 {
          return Fail(InvalidArgument);
        }
      }
      var maxDrawdown := CalculateMaxDrawdown(equityCurve.values);
      var winRate := CalculateWinRate(trades);
      var profitFactor := CalculateProfitFactor(trades);
      var computed := map[
        "sharpe_ratio" := Fin(ratios.sharpe(equityCurve)),
        "sortino_ratio" := Fin(ratios.sortino(equityCurve)),
        "max_drawdown" := maxDrawdown,
        "total_return" := TotalReturnOf(equityCurve.values),
        "annualized_return" := Fin(ratios.annualizedReturn(equityCurve)),
        "annualized_volatility" := Fin(ratios.annualizedVolatility(equityCurve)),
        "win_rate" := Fin(winRate),
        "profit_factor" := profitFactor];
      metrics := metrics + computed;
      metricsCalculated := true;
      o := Pass;
    }

    /**
     * The eight metric getters: fill the cache if it is not filled, then read
     * the metric.  A filled cache is read as it stands, so repeated getters
     * agree and a value stored by setMetric is seen.
     */
    method CachedMetric(name: string) returns (r: Result<Ext>)
      requires Valid()
      modifies this
      ensures Valid() && equityCurve == old(equityCurve) && trades == old(trades)
      ensures r.Err? <==> !old(metricsCalculated) && MetricsThrow(equityCurve.values)
      ensures r.Ok? ==> metricsCalculated && r.value == GetMetric(name)
      ensures old(metricsCalculated) ==> metrics == old(metrics) && r == Ok(old(GetMetric(name)))
      ensures !old(metricsCalculated) && r.Ok? ==> metrics == old(FilledMetrics())
      ensures r.Err? ==> r.error == MetricsError(equityCurve.values) && metrics == old(metrics) && !metricsCalculated
      ensures !old(metricsCalculated) && r.Ok? && equityCurve.Size() > 0 && name in ComputedMetrics(equityCurve, trades, ratios) ==>
                r.value == ComputedMetrics(equityCurve, trades, ratios)[name]
    {
      if !metricsCalculated {
        var o := CalculateMetrics();
        if o.Fail? {
          return Err(o.error);
        }
      }
      r := Ok(GetMetric(name));
    }

    /** getAllMetrics: the whole map once the cache is filled. */
    method GetAllMetrics() returns (r: Result<map<string, Ext>>)
      requires Valid()
      modifies this
      ensures Valid() && equityCurve == old(equityCurve) && trades == old(trades)
      ensures r.Err? <==> !old(metricsCalculated) && MetricsThrow(equityCurve.values)
      ensures r.Ok? ==> metricsCalculated && r.value == metrics
      ensures old(metricsCalculated) ==> metrics == old(metrics)
      ensures !old(metricsCalculated) && r.Ok? ==> metrics == old(FilledMetrics())
      ensures r.Err? ==> r.error == MetricsError(equityCurve.values) && metrics == old(metrics) && !metricsCalculated
    {
      if !metricsCalculated {
        var o := CalculateMetrics();
        if o.Fail? {
          return Err(o.error);
        }
      }
      r := Ok(metrics);
    }

    /** getDrawdownSeries: fills the cache, then builds the drawdown series from the curve. */
    method GetDrawdownSeries() returns (r: Result<(seq<DateTime>, seq<Ext>, string)>)
      requires Valid()
      modifies this
      ensures Valid() && equityCurve == old(equityCurve) && trades == old(trades)
      ensures r.Err? <==> !old(metricsCalculated) && MetricsThrow(equityCurve.values)
      ensures r.Ok? ==> r.value.0 == equityCurve.timestamps && r.value.1 == DrawdownValues(equityCurve.values)
      ensures r.Ok? ==> r.value.2 == (if equityCurve.Size() == 0 then "" else "Drawdown") && metricsCalculated
      ensures old(metricsCalculated) ==> metrics == old(metrics)
      ensures !old(metricsCalculated) && r.Ok? ==> metrics == old(FilledMetrics())
      ensures r.Err? ==> r.error == MetricsError(equityCurve.values) && metrics == old(metrics) && !metricsCalculated
    {
      if !metricsCalculated {
        var o := CalculateMetrics();
        if o.Fail? {
          return Err(o.error);
        }
      }
      var timestamps, values, name := CalculateDrawdownSeries(equityCurve);
      r := Ok((timestamps, values, name));
    }

    /** setEquityCurve: replace the curve and mark the cache stale; stored metrics stay readable. */
    method SetEquityCurve(curve: TimeSeries)
      requires curve.Wf()
      modifies this
      ensures Valid() && equityCurve == curve && !metricsCalculated
      ensures trades == old(trades) && metrics == old(metrics)
    {
      equityCurve := curve;
      metricsCalculated := false;
    }

    /** setTrades: replace the trade log and mark the cache stale. */
    method SetTrades(newTrades: seq<Trade>)
      modifies this
      ensures trades == newTrades && !metricsCalculated
      ensures equityCurve == old(equityCurve) && metrics == old(metrics)
    {
      trades := newTrades;
      metricsCalculated := false;
    }

    /** addTrade: append one trade and mark the cache stale. */
    method AddTrade(trade: Trade)
      modifies this
      ensures trades == old(trades) + [trade] && TradeCount() == old(TradeCount()) + 1 && !metricsCalculated
      ensures equityCurve == old(equityCurve) && metrics == old(metrics)
    {
      trades := trades + [trade];
      metricsCalculated := false;
    }

    method GetDrawdownPeriods() returns (periods: seq<(DateTime, DateTime)>)
      requires Valid()
      ensures periods == Stamped(PeriodIndices(DrawdownValues(equityCurve.values)), equityCurve.timestamps)
    {
      periods := DrawdownPeriods(equityCurve);
    }

    method GetReturnsByMonth() returns (r: Result<map<int, real>>)
      requires Valid()
      ensures r.Ok? <==> ReturnsDefined(equityCurve.values)
      ensures r.Ok? ==> r.value.Keys == KeysUpTo(equityCurve.timestamps, Month, equityCurve.Size())
      ensures r.Ok? ==> forall key :: GroupSum(equityCurve.values, equityCurve.timestamps, Month, key, equityCurve.Size())
                                      == (if key in r.value then r.value[key] else 0.0)
    {
      r := ReturnsBy(equityCurve, Month);
    }

    method GetReturnsByYear() returns (r: Result<map<int, real>>)
      requires Valid()
      ensures r.Ok? <==> ReturnsDefined(equityCurve.values)
      ensures r.Ok? ==> r.value.Keys == KeysUpTo(equityCurve.timestamps, Year, equityCurve.Size())
      ensures r.Ok? ==> forall key :: GroupSum(equityCurve.values, equityCurve.timestamps, Year, key, equityCurve.Size())
                                      == (if key in r.value then r.value[key] else 0.0)
    {
      r := ReturnsBy(equityCurve, Year);
    }
  }
}
