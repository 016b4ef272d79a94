// VolatilityArbitrageStrategy: on every bar, closes option positions held for
// the holding period, trades a 30-day at-the-money call when the spread
// signal fires, and re-hedges the portfolio's delta.
module ArbStrategy {
  import opened Wrappers
  import opened Numerics
  import opened DateTimes
  import opened MarketDataCore
  import opened Instruments
  import opened Models
  import opened Signals
  import opened SpreadSignal
  import opened Positions
  import opened Portfolios
  import opened Hedging
  import opened Parameters

  /** Contracts per trade, days to the traded option's expiry, and the header's default holding period. */
  const ContractsPerTrade: real := 10.0
  const ExpiryDays: nat := 30
  const DefaultHoldingPeriod: int := 30

  /**
   * Everything processBar reads or writes apart from configuration: the
   * portfolio's positions and cash, the bars-held counter per instrument
   * symbol, and the (never filled) map of active positions.
   */
  datatype StrategyState = StrategyState(
    positions: seq<Position>,
    cash: real,
    days: map<string, int>,
    active: map<string, Position>)

  datatype HedgeSettings = HedgeSettings(target: real, tolerance: real)

  datatype StrategyConfig = StrategyConfig(
    model: VolatilityModel,
    entryThreshold: real,
    exitThreshold: real,
    hedge: Option<HedgeSettings>,
    holdingPeriod: int)

  /** The result of the closing pass: the positions kept, the cash and the counters. */
  datatype Closing = Closing(kept: seq<Position>, cash: real, days: map<string, int>)

  /** The first loop of updatePositions: every counter goes up by one. */
  function IncrementDays(days: map<string, int>): (r: map<string, int>)
    ensures r.Keys == days.Keys && forall k :: k in days ==> r[k] == days[k] + 1
  {
    map k | k in days :: days[k] + 1
  }

  /** A position is closed when its symbol is tracked and has been held for the holding period. */
  predicate Due(p: Position, tracked: map<string, int>, holdingPeriod: int)
  {
    var id := Symbol(p.instrument);
    id in tracked && tracked[id] >= holdingPeriod
  }

  /** The positions the closing pass keeps, in order. */
  function Kept(ps: seq<Position>, tracked: map<string, int>, holdingPeriod: int): seq<Position>
  {
    if ps == [] then [] else (if Due(ps[0], tracked, holdingPeriod) then [] else [ps[0]]) + Kept(ps[1..], tracked, holdingPeriod)
  }

  /** The kept positions are exactly the positions that are not due. */
  lemma {:induction false} KeptMembers(ps: seq<Position>, tracked: map<string, int>, holdingPeriod: int)
    ensures forall p :: p in Kept(ps, tracked, holdingPeriod) <==> p in ps && !Due(p, tracked, holdingPeriod)
    ensures |Kept(ps, tracked, holdingPeriod)| <= |ps|
  {
    if ps != [] {
      KeptMembers(ps[1..], tracked, holdingPeriod);
      assert ps == [ps[0]] + ps[1..];
    }
  }

  lemma {:induction false} KeptAppend(ps: seq<Position>, p: Position, tracked: map<string, int>, holdingPeriod: int)
    ensures Kept(ps + [p], tracked, holdingPeriod)
         == Kept(ps, tracked, holdingPeriod) + (if Due(p, tracked, holdingPeriod) then [] else [p])
  {
    if ps != [] {
      assert (ps + [p])[1..] == ps[1..] + [p];
      KeptAppend(ps[1..], p, tracked, holdingPeriod);
    }
  }

  /** The closing price proceeds of a due position: quantity times price (0 when it cannot be priced). */
  function Proceeds(m: Market, p: Position, d: MarketData): real
  {
    var price := Price(m, p.instrument, d);
    if price.Ok? then p.quantity * price.value else 0.0
  }

  /** The cash the closing pass collects. */
  function TotalProceeds(m: Market, d: MarketData, ps: seq<Position>, tracked: map<string, int>, holdingPeriod: int): real
  {
    if ps == [] then 0.0
    else TotalProceeds(m, d, ps[..|ps| - 1], tracked, holdingPeriod)
         + (if Due(ps[|ps| - 1], tracked, holdingPeriod) then Proceeds(m, ps[|ps| - 1], d) else 0.0)
  }

  /** The symbols of the due positions. */
  function DueSymbols(ps: seq<Position>, tracked: map<string, int>, holdingPeriod: int): set<string>
  {
    set i | 0 <= i < |ps| && Due(ps[i], tracked, holdingPeriod) :: Symbol(ps[i].instrument)
  }

  /** Closing a long position adds its proceeds; covering a short one pays minus its (negative) proceeds. */
  function CloseCash(cash: real, p: Position, price: real): real
  {
    var proceeds := p.quantity * price;
    if p.quantity > 0.0 then cash + proceeds else cash - -proceeds
  }

  /** One step of the closing pass, unfolded. */
  lemma CloseDueLast(m: Market, d: MarketData, tracked: map<string, int>, holdingPeriod: int,
                     ps: seq<Position>, cash: real, days: map<string, int>)
    requires ps != []
    ensures var p := ps[|ps| - 1];
            var r := CloseDue(m, d, tracked, holdingPeriod, ps, cash, days);
            var rest := CloseDue(m, d, tracked, holdingPeriod, ps[..|ps| - 1], cash, days);
            && (Due(p, tracked, holdingPeriod) && Price(m, p.instrument, d).Ok? ==>
                  r == CloseDue(m, d, tracked, holdingPeriod, ps[..|ps| - 1],
                                CloseCash(cash, p, Price(m, p.instrument, d).value), days - {Symbol(p.instrument)}))
            && (Due(p, tracked, holdingPeriod) && Price(m, p.instrument, d).Err? ==> r.Err?)
            && (!Due(p, tracked, holdingPeriod) ==> (r.Ok? <==> rest.Ok?))
            && (!Due(p, tracked, holdingPeriod) && rest.Ok? ==> r.value == rest.value.(kept := rest.value.kept + [p]))
  {
  }

  /**
   * The second loop of updatePositions: the due positions are closed from
   * the last to the first; each adds its proceeds to the cash (a short
   * position's proceeds are negative and are paid out), is removed, and has
   * its counter erased.  Pricing a position that cannot be priced throws.
   */
  function CloseDue(m: Market, d: MarketData, tracked: map<string, int>, holdingPeriod: int,
                    ps: seq<Position>, cash: real, days: map<string, int>): Result<Closing>
    decreases |ps|
  {
    if ps == [] then Ok(Closing([], cash, days))
    else
      var p := ps[|ps| - 1];
      if Due(p, tracked, holdingPeriod) then
        match Price(m, p.instrument, d)
        case Err(e) => Err(e)
        case Ok(price) =>
          CloseDue(m, d, tracked, holdingPeriod, ps[..|ps| - 1], CloseCash(cash, p, price), days - {Symbol(p.instrument)})
      else
        match CloseDue(m, d, tracked, holdingPeriod, ps[..|ps| - 1], cash, days)
        case Err(e) => Err(e)
        case Ok(c) => Ok(c.(kept := c.kept + [p]))
  }

  /** Every due position can be priced. */
  predicate DuePriced(m: Market, d: MarketData, ps: seq<Position>, tracked: map<string, int>, holdingPeriod: int)
  {
    forall i :: 0 <= i < |ps| && Due(ps[i], tracked, holdingPeriod) ==> Price(m, ps[i].instrument, d).Ok?
  }

  lemma DueAppend(m: Market, d: MarketData, ps: seq<Position>, p: Position, tracked: map<string, int>, holdingPeriod: int)
    ensures DueSymbols(ps + [p], tracked, holdingPeriod)
         == DueSymbols(ps, tracked, holdingPeriod) + (if Due(p, tracked, holdingPeriod) then {Symbol(p.instrument)} else {})
    ensures DuePriced(m, d, ps + [p], tracked, holdingPeriod)
        <==> DuePriced(m, d, ps, tracked, holdingPeriod) && (Due(p, tracked, holdingPeriod) ==> Price(m, p.instrument, d).Ok?)
  {
    var qs := ps + [p];
    forall s | s in DueSymbols(qs, tracked, holdingPeriod)
      ensures s in DueSymbols(ps, tracked, holdingPeriod) || (Due(p, tracked, holdingPeriod) && s == Symbol(p.instrument))
    {
      var i :| 0 <= i < |qs| && Due(qs[i], tracked, holdingPeriod) && s == Symbol(qs[i].instrument);
      if i < |ps| {
        assert ps[i] == qs[i];
      }
    }
    forall s | s in DueSymbols(ps, tracked, holdingPeriod)
      ensures s in DueSymbols(qs, tracked, holdingPeriod)
    {
      var i :| 0 <= i < |ps| && Due(ps[i], tracked, holdingPeriod) && s == Symbol(ps[i].instrument);
      assert qs[i] == ps[i];
    }
    if Due(p, tracked, holdingPeriod) {
      assert qs[|ps|] == p;
    }
    if DuePriced(m, d, ps, tracked, holdingPeriod) && (Due(p, tracked, holdingPeriod) ==> Price(m, p.instrument, d).Ok?) {
      forall i | 0 <= i < |qs| && Due(qs[i], tracked, holdingPeriod)
        ensures Price(m, qs[i].instrument, d).Ok?
      {
        if i < |ps| {
          assert ps[i] == qs[i];
        }
      }
    }
    if DuePriced(m, d, qs, tracked, holdingPeriod) {
      forall i | 0 <= i < |ps| && Due(ps[i], tracked, holdingPeriod)
        ensures Price(m, ps[i].instrument, d).Ok?
      {
        assert qs[i] == ps[i];
      }
    }
  }

  /** The closing pass succeeds exactly when every due position can be priced. */
  lemma {:induction false} CloseDueDefined(m: Market, d: MarketData, tracked: map<string, int>, holdingPeriod: int,
                                           ps: seq<Position>, cash: real, days: map<string, int>)
    ensures CloseDue(m, d, tracked, holdingPeriod, ps, cash, days).Ok? <==> DuePriced(m, d, ps, tracked, holdingPeriod)
    decreases |ps|
  {
    if ps != [] {
      var init := ps[..|ps| - 1];
      var p := ps[|ps| - 1];
      assert ps == init + [p];
      DueAppend(m, d, init, p, tracked, holdingPeriod);
      CloseDueLast(m, d, tracked, holdingPeriod, ps, cash, days);
      if Due(p, tracked, holdingPeriod) {
        if Price(m, p.instrument, d).Ok? {
          CloseDueDefined(m, d, tracked, holdingPeriod, init,
                          CloseCash(cash, p, Price(m, p.instrument, d).value), days - {Symbol(p.instrument)});
        }
      } else {
        CloseDueDefined(m, d, tracked, holdingPeriod, init, cash, days);
      }
    }
  }

  /** A successful closing pass keeps exactly the positions that are not due, in order. */
  lemma {:induction false} CloseDueKept(m: Market, d: MarketData, tracked: map<string, int>, holdingPeriod: int,
                                           ps: seq<Position>, cash: real, days: map<string, int>)
    ensures var r := CloseDue(m, d, tracked, holdingPeriod, ps, cash, days);
            r.Ok? ==> r.value.kept == Kept(ps, tracked, holdingPeriod)
    decreases |ps|
  {
    if ps == [] {
      
    } else {
      var init := ps[..|ps| - 1];
      var p := ps[|ps| - 1];
      var r := CloseDue(m, d, tracked, holdingPeriod, ps, cash, days);
      CloseDueLast(m, d, tracked, holdingPeriod, ps, cash, days);
      if r.Ok? {
        assert ps == init + [p];
        if Due(p, tracked, holdingPeriod) {
          var sym := Symbol(p.instrument);
          var newCash := CloseCash(cash, p, Price(m, p.instrument, d).value);
          CloseDueKept(m, d, tracked, holdingPeriod, init, newCash, days - {sym});
          KeptAppend(init, p, tracked, holdingPeriod);
        } else {
          CloseDueKept(m, d, tracked, holdingPeriod, init, cash, days);
          KeptAppend(init, p, tracked, holdingPeriod);
        }
      }
    }
  }

  /** A successful closing pass adds the due positions' proceeds to the cash. */
  lemma {:induction false} CloseDueCash(m: Market, d: MarketData, tracked: map<string, int>, holdingPeriod: int,
                                           ps: seq<Position>, cash: real, days: map<string, int>)
    ensures var r := CloseDue(m, d, tracked, holdingPeriod, ps, cash, days);
            r.Ok? ==> r.value.cash == cash + TotalProceeds(m, d, ps, tracked, holdingPeriod)
    decreases |ps|
  {
    if ps == [] {
      
    } else {
      var init := ps[..|ps| - 1];
      var p := ps[|ps| - 1];
      var r := CloseDue(m, d, tracked, holdingPeriod, ps, cash, days);
      CloseDueLast(m, d, tracked, holdingPeriod, ps, cash, days);
      if r.Ok? {
        assert ps == init + [p];
        if Due(p, tracked, holdingPeriod) {
          var sym := Symbol(p.instrument);
          var newCash := CloseCash(cash, p, Price(m, p.instrument, d).value);
          CloseDueCash(m, d, tracked, holdingPeriod, init, newCash, days - {sym});
          TotalProceedsLast(m, d, ps, tracked, holdingPeriod);
          CloseCashAdds(m, d, cash, p);
        } else {
          CloseDueCash(m, d, tracked, holdingPeriod, init, cash, days);
          TotalProceedsLast(m, d, ps, tracked, holdingPeriod);
        }
      }
    }
  }

  /** A successful closing pass erases exactly the due positions' counters. */
  lemma {:induction false} CloseDueDays(m: Market, d: MarketData, tracked: map<string, int>, holdingPeriod: int,
                                           ps: seq<Position>, cash: real, days: map<string, int>)
    ensures var r := CloseDue(m, d, tracked, holdingPeriod, ps, cash, days);
            r.Ok? ==> r.value.days == days - DueSymbols(ps, tracked, holdingPeriod)
    decreases |ps|
  {
    if ps == [] {
      assert DueSymbols(ps, tracked, holdingPeriod) == {};
    } else {
      var init := ps[..|ps| - 1];
      var p := ps[|ps| - 1];
      var r := CloseDue(m, d, tracked, holdingPeriod, ps, cash, days);
      CloseDueLast(m, d, tracked, holdingPeriod, ps, cash, days);
      if r.Ok? {
        assert ps == init + [p];
        if Due(p, tracked, holdingPeriod) {
          var sym := Symbol(p.instrument);
          var newCash := CloseCash(cash, p, Price(m, p.instrument, d).value);
          CloseDueDays(m, d, tracked, holdingPeriod, init, newCash, days - {sym});
          DueAppend(m, d, init, p, tracked, holdingPeriod);
          assert (days - {sym}) - DueSymbols(init, tracked, holdingPeriod) == days - DueSymbols(ps, tracked, holdingPeriod);
        } else {
          CloseDueDays(m, d, tracked, holdingPeriod, init, cash, days);
          DueAppend(m, d, init, p, tracked, holdingPeriod);
        }
      }
    }
  }

  lemma TotalProceedsLast(m: Market, d: MarketData, ps: seq<Position>, tracked: map<string, int>, holdingPeriod: int)
    requires ps != []
    ensures TotalProceeds(m, d, ps, tracked, holdingPeriod)
            == TotalProceeds(m, d, ps[..|ps| - 1], tracked, holdingPeriod)
               + (if Due(ps[|ps| - 1], tracked, holdingPeriod) then Proceeds(m, ps[|ps| - 1], d) else 0.0)
  {
  }

  /** Either way round, closing adds quantity times price to the cash. */
  lemma CloseCashAdds(m: Market, d: MarketData, cash: real, p: Position)
    requires Price(m, p.instrument, d).Ok?
    ensures CloseCash(cash, p, Price(m, p.instrument, d).value) == cash + Proceeds(m, p, d)
  {
    var proceeds := p.quantity * Price(m, p.instrument, d).value;
    assert Proceeds(m, p, d) == proceeds;
    assert CloseCash(cash, p, Price(m, p.instrument, d).value) == cash + proceeds;
  }

  /** updatePositions on the strategy's state. */
  function UpdatePositionsSpec(m: Market, d: MarketData, holdingPeriod: int, st: StrategyState): Result<StrategyState>
  {
    var tracked := IncrementDays(st.days);
    var c :- CloseDue(m, d, tracked, holdingPeriod, st.positions, st.cash, tracked);
    Ok(st.(positions := c.kept, cash := c.cash, days := c.days))
  }

  /**
   * After updatePositions no position is due any more: every position left
   * whose symbol is still tracked has been held for less than the holding
   * period, and its counter went up by exactly one.
   */
  lemma UpdateLeavesNothingDue(m: Market, d: MarketData, holdingPeriod: int, st: StrategyState)
    ensures var r := UpdatePositionsSpec(m, d, holdingPeriod, st);
            r.Ok? ==> forall p :: p in r.value.positions ==>
                        p in st.positions && !Due(p, r.value.days, holdingPeriod)
                        && (Symbol(p.instrument) in r.value.days ==>
                              Symbol(p.instrument) in st.days && r.value.days[Symbol(p.instrument)] == st.days[Symbol(p.instrument)] + 1)
    ensures var r := UpdatePositionsSpec(m, d, holdingPeriod, st);
            r.Ok? ==> r.value.days.Keys <= st.days.Keys && r.value.active == st.active
  {
    var tracked := IncrementDays(st.days);
    CloseDueKept(m, d, tracked, holdingPeriod, st.positions, st.cash, tracked);
    KeptMembers(st.positions, tracked, holdingPeriod);
    CloseDueDays(m, d, tracked, holdingPeriod, st.positions, st.cash, tracked);
    CloseDueDefined(m, d, tracked, holdingPeriod, st.positions, st.cash, tracked);
  }

  /**
   * The counter the source's closing loop erases after removing the
   * position at `index` from `current`: it reads the symbol through a
   * reference to slot `index` taken before the removal, so it sees the
   * position that moved into that slot, and nothing valid when the closed
   * position was the last one (None).
   */
  function ErasedKeyAsWritten(current: seq<Position>, index: nat): (r: Option<string>)
    requires index < |current|
    ensures r.Some? <==> index + 1 < |current|
    ensures r.Some? ==> r.value == Symbol(current[index + 1].instrument)
  {
    var after := current[..index] + current[index + 1..];
    if index < |after| then Some(Symbol(after[index].instrument)) else None
  }

  /**
   * Two option positions on underlyings "A" and "B", the first due and the
   * second tracked but not due: as written, closing the first erases the
   * second's counter, so the closed symbol stays tracked and the open
   * position on "B" is never due again, however long it is held.  CloseDue
   * erases the closed position's own symbol instead (CloseDueDays).
   */
  lemma DanglingEraseLosesOpenPosition(pA: Position, pB: Position, tracked: map<string, int>, holdingPeriod: int)
    requires IsOption(pA.instrument) && IsOption(pB.instrument)
    requires pA.instrument.underlying == "A" && pB.instrument.underlying == "B"
    requires Due(pA, tracked, holdingPeriod) && Symbol(pB.instrument) in tracked && !Due(pB, tracked, holdingPeriod)
    ensures ErasedKeyAsWritten([pA, pB], 0) == Some(Symbol(pB.instrument))
    ensures Symbol(pA.instrument) != Symbol(pB.instrument)
    ensures var asWritten := tracked - {Symbol(pB.instrument)};
            && Symbol(pA.instrument) in asWritten
            && forall later: map<string, int>, period: int :: later.Keys <= asWritten.Keys ==> !Due(pB, later, period)
  {
    OptionSymbolShape(pA.instrument);
    OptionSymbolShape(pB.instrument);
    assert Symbol(pA.instrument)[0] == 'A';
    assert Symbol(pB.instrument)[0] == 'B';
  }

  /** static_cast<double> of the signal type: its position in the enumeration. */
  function SignalTypeCode(t: SignalType): real
  {
    match t
    case BUY => 0.0
    case SELL => 1.0
    case HOLD => 2.0
  }

  /** The call processBar and processSignal build: at the money, 30 days to expiry. */
  function TradedCall(d: MarketData): Result<Instrument>
  {
    NewOption(d.symbol, AddDays(d.timestamp, ExpiryDays), d.close, Call, European)
  }

  /**
   * processSignal: unless the instrument is already active, a BUY buys and a
   * SELL writes ten calls, provided ten times the option price does not
   * exceed the cash; the premium leaves or enters the cash and the symbol's
   * counter starts at 0.
   */
  function OpenPosition(m: Market, st: StrategyState, s: Signal, d: MarketData): Result<StrategyState>
  {
    if s.instrumentId in st.active then Ok(st)
    else if s.signalType == BUY || s.signalType == SELL then
      var instrument :- TradedCall(d);
      var quantity := if s.signalType == BUY then ContractsPerTrade else -ContractsPerTrade;
      var price :- Price(m, instrument, d);
      var totalCost := Abs(quantity) * price;
      if totalCost <= st.cash then
        var p := SetMetadata(SetMetadata(NewPosition(instrument, quantity, price, d.timestamp),
                                         "signal_strength", s.strength),
                             "entry_signal_type", SignalTypeCode(s.signalType));
        Ok(st.(positions := st.positions + [p],
               cash := if quantity > 0.0 then st.cash - totalCost else st.cash + totalCost,
               days := st.days[s.instrumentId := 0]))
      else Ok(st)
    else Ok(st)
  }

  /** processSignal fails only when the call cannot be built: an inactive BUY or SELL on a non-positive close. */
  lemma OpenPositionFails(m: Market, st: StrategyState, s: Signal, d: MarketData)
    ensures OpenPosition(m, st, s, d).Err? <==> s.instrumentId !in st.active && s.signalType != HOLD && d.close <= 0.0
  {
  }

  /** The premium of the ten contracts opened on a bar. */
  function TradeCost(m: Market, d: MarketData): real
    requires d.close > 0.0
  {
    ContractsPerTrade * m.optionPrice(TradedCall(d).value, d)
  }

  /**
   * The trade rule: a trade happens exactly for an inactive BUY or SELL on a
   * positive close whose ten contracts cost at most the cash; it appends one
   * position of +10 (BUY) or -10 (SELL) 30-day at-the-money calls entered at
   * the option price, moves the cash by minus quantity times that price, and
   * starts the counter at 0; otherwise nothing changes.
   */
  lemma OpenPositionTrades(m: Market, st: StrategyState, s: Signal, d: MarketData)
    requires s.instrumentId !in st.active && s.signalType != HOLD && d.close > 0.0
    ensures var r := OpenPosition(m, st, s, d);
            r.Ok? && (r.value != st <==> TradeCost(m, d) <= st.cash)
    ensures var r := OpenPosition(m, st, s, d);
            TradeCost(m, d) <= st.cash ==>
              && |r.value.positions| == |st.positions| + 1
              && r.value.positions[..|st.positions|] == st.positions
              && r.value.days == st.days[s.instrumentId := 0]
              && r.value.active == st.active
    ensures var r := OpenPosition(m, st, s, d);
            TradeCost(m, d) <= st.cash ==>
              var p := r.value.positions[|st.positions|];
              && p.instrument == OptionContract(d.symbol, AddDays(d.timestamp, ExpiryDays), d.close, Call, European)
              && p.quantity == (if s.signalType == BUY then ContractsPerTrade else -ContractsPerTrade)
              && p.entryPrice == m.optionPrice(p.instrument, d)
              && r.value.cash == st.cash - p.quantity * p.entryPrice
              && GetMetadata(p, "signal_strength") == s.strength
  {
    var instrument := TradedCall(d).value;
    var price := m.optionPrice(instrument, d);
    var quantity := if s.signalType == BUY then ContractsPerTrade else -ContractsPerTrade;
    assert Price(m, instrument, d) == Ok(price);
    var r := OpenPosition(m, st, s, d);
    if TradeCost(m, d) <= st.cash {
      var p := SetMetadata(SetMetadata(NewPosition(instrument, quantity, price, d.timestamp),
                                       "signal_strength", s.strength),
                           "entry_signal_type", SignalTypeCode(s.signalType));
      assert r.value.positions == st.positions + [p];
      assert r.value.positions[..|st.positions|] == st.positions;
      assert Abs(quantity) * price == TradeCost(m, d);
      if quantity > 0.0 {
        assert r.value.cash == st.cash - quantity * price;
      } else {
        assert r.value.cash == st.cash - quantity * price;
      }
    } else {
      assert Abs(quantity) * price == TradeCost(m, d);
      assert r == Ok(st);
    }
  }

  /** Applying the hedger, if there is one, to the portfolio's positions and cash. */
  function HedgeState(hedge: Option<HedgeSettings>, m: Market, st: StrategyState, d: MarketData): StrategyState
  {
    match hedge
    case None => st
    case Some(h) =>
      var b := Hedge(h.target, h.tolerance, m, Book(st.positions, st.cash), d);
      st.(positions := b.positions, cash := b.cash)
  }

  /**
   * processBar: update the positions, build the 30-day call on the bar,
   * ask the signal generator, act on an actionable signal, then hedge.  Any
   * step that throws ends the bar with that error.
   */
  function ProcessBarSpec(cfg: StrategyConfig, m: Market, st: StrategyState, d: MarketData): Result<StrategyState>
  {
    var updated :- UpdatePositionsSpec(m, d, cfg.holdingPeriod, st);
    var option :- TradedCall(d);
    var signal :- Decide(cfg.entryThreshold, cfg.exitThreshold, option, cfg.model, d);
    var traded :- if IsActionable(signal) then OpenPosition(m, updated, signal, d) else Ok(updated);
    Ok(HedgeState(cfg.hedge, m, traded, d))
  }

  /** No option position whose symbol is tracked has reached the holding period. */
  predicate NoOptionDue(st: StrategyState, holdingPeriod: int)
  {
    forall i :: 0 <= i < |st.positions| && IsOption(st.positions[i].instrument) ==>
      !Due(st.positions[i], st.days, holdingPeriod)
  }

  lemma OpenKeepsNoOptionDue(m: Market, st: StrategyState, s: Signal, d: MarketData, holdingPeriod: int)
    requires holdingPeriod >= 1 && NoOptionDue(st, holdingPeriod)
    requires TradedCall(d).Ok? ==> s.instrumentId == Symbol(TradedCall(d).value)
    ensures var r := OpenPosition(m, st, s, d);
            r.Ok? ==> NoOptionDue(r.value, holdingPeriod) && r.value.active == st.active
  {
    var r := OpenPosition(m, st, s, d);
    if r.Ok? && r.value != st {
      OpenPositionTrades(m, st, s, d);
      var after := r.value;
      forall i | 0 <= i < |after.positions| && IsOption(after.positions[i].instrument)
        ensures !Due(after.positions[i], after.days, holdingPeriod)
      {
        if i < |st.positions| {
          assert after.positions[i] == st.positions[i];
        }
      }
    }
  }

  lemma HedgeKeepsNoOptionDue(hedge: Option<HedgeSettings>, m: Market, st: StrategyState, d: MarketData, holdingPeriod: int)
    requires NoOptionDue(st, holdingPeriod)
    ensures NoOptionDue(HedgeState(hedge, m, st, d), holdingPeriod)
    ensures HedgeState(hedge, m, st, d).days == st.days && HedgeState(hedge, m, st, d).active == st.active
  {
    match hedge {
      case None =>
      case Some(h) =>
        HedgeKeepsOptions(h.target, h.tolerance, m, Book(st.positions, st.cash), d);
        var after := HedgeState(hedge, m, st, d);
        forall i | 0 <= i < |after.positions| && IsOption(after.positions[i].instrument)
          ensures !Due(after.positions[i], after.days, holdingPeriod)
        {
          var j :| 0 <= j < |st.positions| && st.positions[j] == after.positions[i];
        }
    }
  }

  /**
   * The strategy's holding-period guarantee: with a holding period of at
   * least one bar, after any bar no option position whose symbol is tracked
   * has reached the holding period; and the active-position map is never
   * written, so the duplicate check in processSignal never fires after
   * initialize.
   */
  lemma HoldingPeriodRespected(cfg: StrategyConfig, m: Market, st: StrategyState, d: MarketData)
    requires cfg.holdingPeriod >= 1
    ensures var r := ProcessBarSpec(cfg, m, st, d);
            r.Ok? ==> NoOptionDue(r.value, cfg.holdingPeriod) && r.value.active == st.active
  {
    var r := ProcessBarSpec(cfg, m, st, d);
    if r.Ok? {
      var hp := cfg.holdingPeriod;
      var updated := UpdatePositionsSpec(m, d, hp, st).value;
      UpdateLeavesNothingDue(m, d, hp, st);
      assert NoOptionDue(updated, hp);
      var option := TradedCall(d).value;
      var signal := Decide(cfg.entryThreshold, cfg.exitThreshold, option, cfg.model, d).value;
      DecideRule(cfg.entryThreshold, cfg.exitThreshold, cfg.exitThreshold, option, cfg.model, d);
      var traded := if IsActionable(signal) then OpenPosition(m, updated, signal, d).value else updated;
      OpenKeepsNoOptionDue(m, updated, signal, d, hp);
      HedgeKeepsNoOptionDue(cfg.hedge, m, traded, d, hp);
    }
  }

  /**
   * A prefix of the positions not yet swept, followed by the kept part of
   * the rest; the pass's outcome from here is the outcome of the whole pass.
   */
  function Resume(m: Market, d: MarketData, tracked: map<string, int>, holdingPeriod: int,
                  ps: seq<Position>, n: nat, cash: real, days: map<string, int>): Result<Closing>
    requires n <= |ps|
  {
    var r := CloseDue(m, d, tracked, holdingPeriod, ps[..n], cash, days);
    if r.Err? then r else Ok(r.value.(kept := r.value.kept + Kept(ps[n..], tracked, holdingPeriod)))
  }

  /** Sweeping past a position that is not due changes nothing. */
  lemma ResumeSkip(m: Market, d: MarketData, tracked: map<string, int>, holdingPeriod: int,
                   ps: seq<Position>, n: nat, cash: real, days: map<string, int>)
    requires 0 < n <= |ps| && !Due(ps[n - 1], tracked, holdingPeriod)
    ensures Resume(m, d, tracked, holdingPeriod, ps, n, cash, days) == Resume(m, d, tracked, holdingPeriod, ps, n - 1, cash, days)
    ensures ps[..n] + Kept(ps[n..], tracked, holdingPeriod) == ps[..n - 1] + Kept(ps[n - 1..], tracked, holdingPeriod)
  {
    var p := ps[n - 1];
    var tail := Kept(ps[n..], tracked, holdingPeriod);
    assert Kept(ps[n - 1..], tracked, holdingPeriod) == [p] + tail by {
      assert ps[n - 1..] == [p] + ps[n..];
    }
    assert ps[..n] == ps[..n - 1] + [p];
    var qs := ps[..n];
    assert qs[..|qs| - 1] == ps[..n - 1];
    SkipStep(m, d, tracked, holdingPeriod, qs, cash, days, tail);
    var r := CloseDue(m, d, tracked, holdingPeriod, qs, cash, days);
    var rest := CloseDue(m, d, tracked, holdingPeriod, ps[..n - 1], cash, days);
    if r.Ok? {
      assert Resume(m, d, tracked, holdingPeriod, ps, n, cash, days) == Ok(r.value.(kept := r.value.kept + tail));
      assert Resume(m, d, tracked, holdingPeriod, ps, n - 1, cash, days)
          == Ok(rest.value.(kept := rest.value.kept + ([p] + tail)));
    } else {
      assert Resume(m, d, tracked, holdingPeriod, ps, n, cash, days) == r;
      assert Resume(m, d, tracked, holdingPeriod, ps, n - 1, cash, days) == rest;
    }
  }

  lemma SkipStep(m: Market, d: MarketData, tracked: map<string, int>, holdingPeriod: int,
                 qs: seq<Position>, cash: real, days: map<string, int>, tail: seq<Position>)
    requires qs != [] && !Due(qs[|qs| - 1], tracked, holdingPeriod)
    ensures var r := CloseDue(m, d, tracked, holdingPeriod, qs, cash, days);
            var rest := CloseDue(m, d, tracked, holdingPeriod, qs[..|qs| - 1], cash, days);
            && (r.Ok? <==> rest.Ok?)
            && (r.Err? ==> r == rest)
            && (r.Ok? ==> r.value.kept + tail == rest.value.kept + ([qs[|qs| - 1]] + tail))
            && (r.Ok? ==> r.value.(kept := r.value.kept + tail) == rest.value.(kept := rest.value.kept + ([qs[|qs| - 1]] + tail)))
  {
    CloseDueLast(m, d, tracked, holdingPeriod, qs, cash, days);
  }

  /** Closing a due position that can be priced moves the sweep one position down. */
  lemma ResumeClose(m: Market, d: MarketData, tracked: map<string, int>, holdingPeriod: int,
                    ps: seq<Position>, n: nat, cash: real, days: map<string, int>)
    requires 0 < n <= |ps| && Due(ps[n - 1], tracked, holdingPeriod)
    ensures var p := ps[n - 1];
            var price := Price(m, p.instrument, d);
            && (price.Err? ==> Resume(m, d, tracked, holdingPeriod, ps, n, cash, days).Err?)
            && (price.Ok? ==> Resume(m, d, tracked, holdingPeriod, ps, n, cash, days)
                              == Resume(m, d, tracked, holdingPeriod, ps, n - 1, CloseCash(cash, p, price.value), days - {Symbol(p.instrument)}))
    ensures var after := ps[..n] + Kept(ps[n..], tracked, holdingPeriod);
            after[..n - 1] + after[n..] == ps[..n - 1] + Kept(ps[n - 1..], tracked, holdingPeriod)
  {
    assert ps[..n][..n - 1] == ps[..n - 1];
    assert ps[n - 1..] == [ps[n - 1]] + ps[n..];
    assert Kept(ps[n - 1..], tracked, holdingPeriod) == Kept(ps[n..], tracked, holdingPeriod);
    CloseDueLast(m, d, tracked, holdingPeriod, ps[..n], cash, days);
    var after := ps[..n] + Kept(ps[n..], tracked, holdingPeriod);
    assert after[..n - 1] == ps[..n - 1];
    assert after[n..] == Kept(ps[n..], tracked, holdingPeriod);
  }

  /** Sweeping past a run of positions that are not due changes nothing. */
  lemma {:induction false} ResumeSkipRun(m: Market, d: MarketData, tracked: map<string, int>, holdingPeriod: int,
                                         ps: seq<Position>, lo: nat, hi: nat, cash: real, days: map<string, int>)
    requires lo <= hi <= |ps|
    requires forall k :: lo <= k < hi ==> !Due(ps[k], tracked, holdingPeriod)
    ensures Resume(m, d, tracked, holdingPeriod, ps, hi, cash, days) == Resume(m, d, tracked, holdingPeriod, ps, lo, cash, days)
    ensures ps[..hi] + Kept(ps[hi..], tracked, holdingPeriod) == ps[..lo] + Kept(ps[lo..], tracked, holdingPeriod)
    decreases hi - lo
  {
    if lo < hi {
      ResumeSkip(m, d, tracked, holdingPeriod, ps, hi, cash, days);
      ResumeSkipRun(m, d, tracked, holdingPeriod, ps, lo, hi - 1, cash, days);
    }
  }

  /** Between two consecutive due indices, and below the first, no position is due. */
  /** The first j selected indices lie below n, the rest at or above it. */
  predicate Split(toClose: seq<nat>, j: nat, n: nat)
  {
    forall k :: 0 <= k < |toClose| ==> (k < j <==> toClose[k] < n)
  }

  lemma GapNotDue(ps: seq<Position>, tracked: map<string, int>, holdingPeriod: int, toClose: seq<nat>, j: nat, n: nat)
    requires Selection(toClose, ps, tracked, holdingPeriod)
    requires j <= |toClose| && n <= |ps|
    requires Split(toClose, j, n)
    ensures j > 0 ==> toClose[j - 1] < n && Due(ps[toClose[j - 1]], tracked, holdingPeriod)
    ensures forall k :: (if j > 0 then toClose[j - 1] + 1 else 0) <= k < n ==> !Due(ps[k], tracked, holdingPeriod)
  {
    forall k | (if j > 0 then toClose[j - 1] + 1 else 0) <= k < n
      ensures !Due(ps[k], tracked, holdingPeriod)
    {
      forall l | 0 <= l < |toClose|
        ensures toClose[l] != k
      {
        if l < j - 1 {
          assert toClose[l] < toClose[j - 1];
        }
      }
    }
  }

  /** Once everything is swept, the pass's outcome is the kept list with the current cash and counters. */
  lemma ResumeDone(m: Market, d: MarketData, tracked: map<string, int>, holdingPeriod: int,
                   ps: seq<Position>, cash: real, days: map<string, int>)
    ensures Resume(m, d, tracked, holdingPeriod, ps, 0, cash, days) == Ok(Closing(Kept(ps, tracked, holdingPeriod), cash, days))
    ensures ps[..0] + Kept(ps[0..], tracked, holdingPeriod) == Kept(ps, tracked, holdingPeriod)
  {
    assert ps[..0] == [] && ps[0..] == ps;
    assert CloseDue(m, d, tracked, holdingPeriod, ps[..0], cash, days) == Ok(Closing([], cash, days));
    assert [] + Kept(ps[0..], tracked, holdingPeriod) == Kept(ps, tracked, holdingPeriod);
  }

  /** Before anything is swept, the pass's outcome is the whole pass. */
  lemma ResumeStart(m: Market, d: MarketData, tracked: map<string, int>, holdingPeriod: int,
                    ps: seq<Position>, cash: real, days: map<string, int>)
    ensures Resume(m, d, tracked, holdingPeriod, ps, |ps|, cash, days) == CloseDue(m, d, tracked, holdingPeriod, ps, cash, days)
    ensures Swept(ps, |ps|, tracked, holdingPeriod) == ps
  {
    assert ps[..|ps|] == ps;
    assert Kept(ps[|ps|..], tracked, holdingPeriod) == [];
    var r := CloseDue(m, d, tracked, holdingPeriod, ps, cash, days);
    if r.Ok? {
      assert r.value.kept + [] == r.value.kept;
    }
  }

  /** The portfolio's positions part-way through the closing pass: the unswept prefix, then what was kept. */
  function Swept(ps: seq<Position>, n: nat, tracked: map<string, int>, holdingPeriod: int): seq<Position>
    requires n <= |ps|
  {
    ps[..n] + Kept(ps[n..], tracked, holdingPeriod)
  }

  predicate Increasing(toClose: seq<nat>)
  {
    forall k, l :: 0 <= k < l < |toClose| ==> toClose[k] < toClose[l]
  }

  /** Closing the j-th selected index moves the split one place down. */
  lemma SplitStep(toClose: seq<nat>, j: nat)
    requires Increasing(toClose) && 0 < j <= |toClose|
  {
    forall k | 0 <= k < |toClose|
      ensures k < j - 1 <==> toClose[k] < toClose[j - 1]
    {
      if k < j - 1 {
        assert toClose[k] < toClose[j - 1];
      } else if k > j - 1 {
        assert toClose[j - 1] < toClose[k];
      }
    }
  }

  /** The due indices in increasing order. */
  predicate Selection(toClose: seq<nat>, ps: seq<Position>, tracked: map<string, int>, holdingPeriod: int)
  {
    && Increasing(toClose)
    && (forall k :: 0 <= k < |ps| ==> (k in toClose <==> Due(ps[k], tracked, holdingPeriod)))
    && (forall k :: 0 <= k < |toClose| ==> toClose[k] < |ps|)
  }

  /** Before the j-th close, the sweep can skip down to just above the index being closed. */
  lemma SweepTo(m: Market, d: MarketData, tracked: map<string, int>, holdingPeriod: int, toClose: seq<nat>,
                ps: seq<Position>, j: nat, n: nat, cash: real, days: map<string, int>)
    requires Selection(toClose, ps, tracked, holdingPeriod)
    requires 0 < j <= |toClose| && n <= |ps|
    requires Split(toClose, j, n)
    ensures toClose[j - 1] < n && Due(ps[toClose[j - 1]], tracked, holdingPeriod)
    ensures Resume(m, d, tracked, holdingPeriod, ps, n, cash, days)
         == Resume(m, d, tracked, holdingPeriod, ps, toClose[j - 1] + 1, cash, days)
    ensures Swept(ps, n, tracked, holdingPeriod) == Swept(ps, toClose[j - 1] + 1, tracked, holdingPeriod)
  {
    GapNotDue(ps, tracked, holdingPeriod, toClose, j, n);
    ResumeSkipRun(m, d, tracked, holdingPeriod, ps, toClose[j - 1] + 1, n, cash, days);
  }

  /** After the last close, the rest of the sweep keeps everything. */
  lemma SweepDone(m: Market, d: MarketData, tracked: map<string, int>, holdingPeriod: int, toClose: seq<nat>,
                  ps: seq<Position>, n: nat, cash: real, days: map<string, int>)
    requires Selection(toClose, ps, tracked, holdingPeriod)
    requires n <= |ps|
    requires Split(toClose, 0, n)
    ensures Resume(m, d, tracked, holdingPeriod, ps, n, cash, days) == Ok(Closing(Kept(ps, tracked, holdingPeriod), cash, days))
    ensures Swept(ps, n, tracked, holdingPeriod) == Kept(ps, tracked, holdingPeriod)
  {
    GapNotDue(ps, tracked, holdingPeriod, toClose, 0, n);
    ResumeSkipRun(m, d, tracked, holdingPeriod, ps, 0, n, cash, days);
    ResumeDone(m, d, tracked, holdingPeriod, ps, cash, days);
  }

  class VolatilityArbitrageStrategy {
    const volatilityModel: VolatilityModel
    const signalGenerator: VolatilitySpreadSignal
    const hedgingStrategy: DeltaHedgingStrategy?
    var portfolio: Portfolio
    var activePositions: map<string, Position>
    var holdingPeriod: int
    var daysInPosition: map<string, int>

    function State(): StrategyState
      reads this, portfolio
    {
      StrategyState(portfolio.positions, portfolio.cash, daysInPosition, activePositions)
    }

    function Config(): StrategyConfig
      reads this, signalGenerator, hedgingStrategy
    {
      StrategyConfig(volatilityModel, signalGenerator.entryThreshold, signalGenerator.exitThreshold,
                     if hedgingStrategy == null then None
                     else Some(HedgeSettings(hedgingStrategy.targetDelta, hedgingStrategy.tolerance)),
                     holdingPeriod)
    }

    /** The constructor: an empty portfolio with no cash and nothing tracked. */
    constructor (volatilityModel: VolatilityModel, signalGenerator: VolatilitySpreadSignal,
                 hedgingStrategy: DeltaHedgingStrategy?, holdingPeriod: int)
      ensures this.volatilityModel == volatilityModel && this.signalGenerator == signalGenerator
      ensures this.hedgingStrategy == hedgingStrategy && this.holdingPeriod == holdingPeriod
      ensures fresh(portfolio) && State() == StrategyState([], 0.0, map[], map[])
    {
      this.volatilityModel := volatilityModel;
      this.signalGenerator := signalGenerator;
      this.hedgingStrategy := hedgingStrategy;
      this.holdingPeriod := holdingPeriod;
      portfolio := new Portfolio(0.0);
      activePositions := map[];
      daysInPosition := map[];
    }

    /** initialize: a fresh portfolio holding the initial capital, nothing tracked. */
    method Initialize(params: BacktestParameters)
      modifies this
      ensures fresh(portfolio) && State() == StrategyState([], params.initialCapital, map[], map[])
      ensures holdingPeriod == old(holdingPeriod)
    {
      portfolio := new Portfolio(params.initialCapital);
      activePositions := map[];
      daysInPosition := map[];
    }

    /** getPortfolio: a copy of the portfolio. */
    method GetPortfolio() returns (p: Portfolio)
      ensures fresh(p) && p.positions == portfolio.positions && p.cash == portfolio.cash
    {
      p := new Portfolio(portfolio.cash);
      p.positions := portfolio.positions;
    }

    /** clone: fresh copies of the model, the signal generator and the hedger (which must exist), with a new empty state. */
    method Clone() returns (c: VolatilityArbitrageStrategy)
      requires hedgingStrategy != null
      ensures fresh(c) && fresh(c.signalGenerator) && fresh(c.hedgingStrategy) && fresh(c.portfolio)
      ensures c.Config() == Config() && c.State() == StrategyState([], 0.0, map[], map[])
    {
      var signals := signalGenerator.Clone();
      var hedger := hedgingStrategy.Clone();
      c := new VolatilityArbitrageStrategy(volatilityModel, signals, hedger, holdingPeriod);
    }

    function GetHoldingPeriod(): int
      reads this
    {
      holdingPeriod
    }

    method SetHoldingPeriod(days: int)
      modifies this
      ensures holdingPeriod == days && State() == old(State())
    {
      holdingPeriod := days;
    }

    /** updatePositions' first pass after counting the bar: the indices of the due positions, in increasing order. */
    method DueIndices() returns (toClose: seq<nat>)
      ensures Selection(toClose, portfolio.positions, daysInPosition, holdingPeriod)
    {
      toClose := [];
      var i := 0;
      while i < |portfolio.positions|
        invariant 0 <= i <= |portfolio.positions|
        invariant forall k :: 0 <= k < |toClose| ==> toClose[k] < i
        invariant forall k, l :: 0 <= k < l < |toClose| ==> toClose[k] < toClose[l]
        invariant forall k :: 0 <= k < i ==> (k in toClose <==> Due(portfolio.positions[k], daysInPosition, holdingPeriod))
      {
        var id := Symbol(portfolio.positions[i].instrument);
        if id in daysInPosition && daysInPosition[id] >= holdingPeriod {
          toClose := toClose + [i];
        }
        i := i + 1;
      }
    }

    /** The body of updatePositions' closing loop: close the position at `index`, the last one not yet swept. */
    method CloseAt(index: nat, ghost ps: seq<Position>, ghost tracked: map<string, int>, m: Market, d: MarketData)
      returns (o: Outcome)
      requires index < |ps| && Due(ps[index], tracked, holdingPeriod)
      requires portfolio.positions == Swept(ps, index + 1, tracked, holdingPeriod)
      modifies this, portfolio
      ensures portfolio == old(portfolio) && holdingPeriod == old(holdingPeriod) && activePositions == old(activePositions)
      ensures var before := Resume(m, d, tracked, holdingPeriod, ps, index + 1, old(portfolio.cash), old(daysInPosition));
              && (o.Fail? <==> Price(m, ps[index].instrument, d).Err?)
              && (o.Fail? ==> before.Err?)
              && (o.Pass? ==> before == Resume(m, d, tracked, holdingPeriod, ps, index, portfolio.cash, daysInPosition))
              && (o.Pass? ==> portfolio.positions == Swept(ps, index, tracked, holdingPeriod))
    {
      var position := portfolio.positions[index];
      assert position == ps[index];
      ResumeClose(m, d, tracked, holdingPeriod, ps, index + 1, portfolio.cash, daysInPosition);
      var price := Price(m, position.instrument, d);
      if price.Err? {
        return Fail(price.error);
      }
      ghost var cashBefore := portfolio.cash;
      ghost var daysBefore := daysInPosition;
      var proceeds := position.quantity * price.value;
      if position.quantity > 0.0 {
        portfolio.AddCash(proceeds);
      } else {
        portfolio.RemoveCash(-proceeds);
      }
      var _ := portfolio.RemovePosition(index);
      daysInPosition := daysInPosition - {Symbol(position.instrument)};
      assert portfolio.cash == CloseCash(cashBefore, ps[index], price.value);
      assert daysInPosition == daysBefore - {Symbol(ps[index].instrument)};
      o := Pass;
    }

    /** One turn of the closing loop: skip to the j-th selected index and close it. */
    method CloseStep(toClose: seq<nat>, j: nat, ghost ps: seq<Position>, ghost tracked: map<string, int>, ghost n: nat,
                     m: Market, d: MarketData)
      returns (o: Outcome, ghost next: nat)
      requires Selection(toClose, ps, tracked, holdingPeriod)
      requires 0 < j <= |toClose| && n <= |ps| && Split(toClose, j, n)
      requires portfolio.positions == Swept(ps, n, tracked, holdingPeriod)
      modifies this, portfolio
      ensures portfolio == old(portfolio) && holdingPeriod == old(holdingPeriod) && activePositions == old(activePositions)
      ensures var before := Resume(m, d, tracked, holdingPeriod, ps, n, old(portfolio.cash), old(daysInPosition));
              && (o.Fail? ==> before.Err?)
              && (o.Pass? ==> next <= |ps| && Split(toClose, j - 1, next)
                              && portfolio.positions == Swept(ps, next, tracked, holdingPeriod)
                              && before == Resume(m, d, tracked, holdingPeriod, ps, next, portfolio.cash, daysInPosition))
    {
      var index := toClose[j - 1];
      SweepTo(m, d, tracked, holdingPeriod, toClose, ps, j, n, portfolio.cash, daysInPosition);
      SplitStep(toClose, j);
      o := CloseAt(index, ps, tracked, m, d);
      next := index;
    }

    /** updatePositions' closing pass, with the counters already advanced. */
    method CloseDuePositions(m: Market, d: MarketData) returns (o: Outcome)
      modifies this, portfolio
      ensures portfolio == old(portfolio) && holdingPeriod == old(holdingPeriod) && activePositions == old(activePositions)
      ensures var c := CloseDue(m, d, old(daysInPosition), holdingPeriod, old(portfolio.positions), old(portfolio.cash),
                                old(daysInPosition));
              && (o.Pass? <==> c.Ok?)
              && (o.Pass? ==> portfolio.positions == c.value.kept && portfolio.cash == c.value.cash
                              && daysInPosition == c.value.days)
    {
      ghost var tracked := daysInPosition;
      ghost var ps := portfolio.positions;
      ghost var goal := CloseDue(m, d, tracked, holdingPeriod, ps, portfolio.cash, tracked);
      var toClose := DueIndices();
      var j := |toClose|;
      ghost var n: nat := |ps|;
      ResumeStart(m, d, tracked, holdingPeriod, ps, portfolio.cash, daysInPosition);
      while j > 0
        invariant 0 <= j <= |toClose| && n <= |ps| && Split(toClose, j, n)
        invariant portfolio == old(portfolio) && holdingPeriod == old(holdingPeriod) && activePositions == old(activePositions)
        invariant portfolio.positions == Swept(ps, n, tracked, holdingPeriod)
        invariant goal == Resume(m, d, tracked, holdingPeriod, ps, n, portfolio.cash, daysInPosition)
      {
        o, n := CloseStep(toClose, j, ps, tracked, n, m, d);
        if o.Fail? {
          return;
        }
        j := j - 1;
      }
      SweepDone(m, d, tracked, holdingPeriod, toClose, ps, n, portfolio.cash, daysInPosition);
      o := Pass;
    }

    /** updatePositions: count the bar, then close the due positions from the last one down. */
    method UpdatePositions(m: Market, d: MarketData) returns (o: Outcome)
      modifies this, portfolio
      ensures portfolio == old(portfolio) && holdingPeriod == old(holdingPeriod)
      ensures var spec := UpdatePositionsSpec(m, d, holdingPeriod, old(State()));
              (o.Pass? <==> spec.Ok?) && (o.Pass? ==> State() == spec.value)
    {
      daysInPosition := IncrementDays(daysInPosition);
      o := CloseDuePositions(m, d);
    }

    /** processSignal. */
    method ProcessSignal(m: Market, signal: Signal, d: MarketData) returns (o: Outcome)
      modifies this, portfolio
      ensures portfolio == old(portfolio) && holdingPeriod == old(holdingPeriod)
      ensures var spec := OpenPosition(m, old(State()), signal, d);
              (o.Pass? <==> spec.Ok?) && (o.Pass? ==> State() == spec.value)
    {
      if signal.instrumentId in activePositions {
        return Pass;
      }
      var availableCash := portfolio.cash;
      var quantity := ContractsPerTrade;
      if signal.signalType == BUY || signal.signalType == SELL {
        var instrument := TradedCall(d);
        if instrument.Err? {
          return Fail(instrument.error);
        }
        if signal.signalType == SELL {
          quantity := -quantity;
        }
        var price := Price(m, instrument.value, d);
        var totalCost := Abs(quantity) * price.value;
        if totalCost <= availableCash {
          var position := NewPosition(instrument.value, quantity, price.value, d.timestamp);
          position := SetMetadata(position, "signal_strength", signal.strength);
          position := SetMetadata(position, "entry_signal_type", SignalTypeCode(signal.signalType));
          portfolio.AddPosition(position);
          if quantity > 0.0 {
            portfolio.RemoveCash(totalCost);
          } else {
            portfolio.AddCash(totalCost);
          }
          daysInPosition := daysInPosition[signal.instrumentId := 0];
        }
      }
      o := Pass;
    }

    /** applyHedging: hand the portfolio to the hedger, if there is one. */
    method ApplyHedging(m: Market, d: MarketData)
      modifies portfolio
      ensures State() == HedgeState(Config().hedge, m, old(State()), d)
    {
      if hedgingStrategy != null {
        hedgingStrategy.ApplyHedge(portfolio, m, d);
      }
    }

    /** processBar: the bar's outcome and new state are those of the specification. */
    method ProcessBar(m: Market, d: MarketData) returns (o: Outcome)
      modifies this, portfolio
      ensures portfolio == old(portfolio) && Config() == old(Config())
      ensures var spec := ProcessBarSpec(old(Config()), m, old(State()), d);
              (o.Pass? <==> spec.Ok?) && (o.Pass? ==> State() == spec.value)
    {
      o := UpdatePositions(m, d);
      if o.Fail? {
        return;
      }
      var option := TradedCall(d);
      if option.Err? {
        return Fail(option.error);
      }
      var signal := signalGenerator.GenerateSignal(option.value, volatilityModel, d);
      if signal.Err? {
        return Fail(signal.error);
      }
      if IsActionable(signal.value) {
        o := ProcessSignal(m, signal.value, d);
        if o.Fail? {
          return;
        }
      }
      ApplyHedging(m, d);
    }
  }
}
