// VolatilitySpreadSignal: compares the implied volatility quoted with a bar
// to a model's one-day forecast and trades the spread.
module SpreadSignal {
  import opened Wrappers
  import opened DateTimes
  import opened MarketDataCore
  import opened Instruments
  import opened Models
  import opened Signals
  import opened Numerics

  const ImpliedVolatilityKey: string := "implied_volatility"


  /** The HOLD signal with strength 0 returned by the early exits. */
  function Hold(instrument: Instrument, d: MarketData): Signal
  {
    NewSignal(HOLD, 0.0, Symbol(instrument), d.timestamp)
  }

  /** generateSignal as a function of the two thresholds; only the forecast can throw. */
  function Decide(entryThreshold: real, exitThreshold: real, instrument: Instrument, model: VolatilityModel, d: MarketData)
    : Result<Signal>
  {
    if !IsOption(instrument) then Ok(Hold(instrument, d))
    else if !HasAdditionalData(d, ImpliedVolatilityKey) then Ok(Hold(instrument, d))
    else
      var impliedVol := d.additional[ImpliedVolatilityKey];
      if impliedVol <= 0.0 then Ok(Hold(instrument, d))
      else
        match model.forecast(1)
        case Err(e) => Err(e)
        case Ok(forecastVol) =>
          var spread := impliedVol - forecastVol;
          var magnitude := Abs(spread);
          var signalType :=
            if magnitude >= entryThreshold then (if spread > 0.0 then SELL else BUY)
            else if magnitude <= exitThreshold then HOLD
            else HOLD;
          var strength :=
            if magnitude >= entryThreshold then magnitude
            else if magnitude <= exitThreshold then 0.0
            else 0.0;
          Ok(Signal(signalType, strength, Symbol(instrument), d.timestamp,
                    map["implied_vol" := impliedVol, "forecasted_vol" := forecastVol,
                        "vol_spread" := spread, "spread_magnitude" := magnitude]))
  }

  /** A non-option, a missing implied volatility or a non-positive one gives HOLD at strength 0, without forecasting. */
  lemma DecideEarlyHold(entryThreshold: real, exitThreshold: real, instrument: Instrument, model: VolatilityModel, d: MarketData)
    requires !IsOption(instrument) || !HasAdditionalData(d, ImpliedVolatilityKey) || d.additional[ImpliedVolatilityKey] <= 0.0
    ensures Decide(entryThreshold, exitThreshold, instrument, model, d) == Ok(Hold(instrument, d))
    ensures !IsActionable(Hold(instrument, d))
  {
  }

  /**
   * The decision rule: with spread = implied - forecast, a spread of at least
   * the entry threshold in size sells when positive and buys otherwise, at
   * strength |spread|; anything smaller holds at strength 0.  The exit
   * threshold never changes the result, strength is never negative, and the
   * id and timestamp are the instrument's symbol and the bar's time.
   */
  lemma DecideRule(entryThreshold: real, exitThreshold: real, otherExit: real, instrument: Instrument,
                   model: VolatilityModel, d: MarketData)
    ensures var r := Decide(entryThreshold, exitThreshold, instrument, model, d);
      && r == Decide(entryThreshold, otherExit, instrument, model, d)
      && (r.Ok? ==> r.value.strength >= 0.0 && r.value.instrumentId == Symbol(instrument)
                    && r.value.timestamp == d.timestamp)
    ensures IsOption(instrument) && HasAdditionalData(d, ImpliedVolatilityKey)
            && d.additional[ImpliedVolatilityKey] > 0.0 ==>
      var r := Decide(entryThreshold, exitThreshold, instrument, model, d);
      var impliedVol := d.additional[ImpliedVolatilityKey];
      && (r.Err? <==> model.forecast(1).Err?)
      && (r.Ok? ==>
            var spread := impliedVol - model.forecast(1).value;
            && (Abs(spread) >= entryThreshold ==>
                  r.value.strength == Abs(spread) && (r.value.signalType == SELL <==> spread > 0.0)
                  && r.value.signalType != HOLD)
            && (Abs(spread) < entryThreshold ==> r.value.signalType == HOLD && r.value.strength == 0.0)
            && r.value.metadata.Keys == {"implied_vol", "forecasted_vol", "vol_spread", "spread_magnitude"}
            && r.value.metadata["vol_spread"] == spread)
  {
  }

  /** The signal generator object: two thresholds, 0.1 and 0.05 by default in the header. */
  class VolatilitySpreadSignal {
    var entryThreshold: real
    var exitThreshold: real

    constructor (entryThreshold: real, exitThreshold: real)
      ensures this.entryThreshold == entryThreshold && this.exitThreshold == exitThreshold
    {
      this.entryThreshold := entryThreshold;
      this.exitThreshold := exitThreshold;
    }

    /**
     * generateSignal: a signal for the instrument at the bar's time; a BUY or
     * SELL only at strength of at least the entry threshold, a HOLD only at 0;
     * only a failing forecast makes it fail.
     */
    function GenerateSignal(instrument: Instrument, model: VolatilityModel, d: MarketData): (r: Result<Signal>)
      reads this
      ensures r.Err? ==> model.forecast(1).Err? && IsOption(instrument)
      ensures r.Ok? ==> r.value.instrumentId == Symbol(instrument) && r.value.timestamp == d.timestamp
      ensures r.Ok? && r.value.signalType != HOLD ==> r.value.strength >= entryThreshold && r.value.strength >= 0.0
      ensures r.Ok? && r.value.signalType == HOLD ==> r.value.strength == 0.0
    {
      DecideRule(entryThreshold, exitThreshold, exitThreshold, instrument, model, d);
      Decide(entryThreshold, exitThreshold, instrument, model, d)
    }

    method SetEntryThreshold(threshold: real)
      modifies this
      ensures entryThreshold == threshold && exitThreshold == old(exitThreshold)
    {
      entryThreshold := threshold;
    }

    method SetExitThreshold(threshold: real)
      modifies this
      ensures exitThreshold == threshold && entryThreshold == old(entryThreshold)
    {
      exitThreshold := threshold;
    }

    /** clone: an independent generator with the same thresholds. */
    method Clone() returns (c: VolatilitySpreadSignal)
      ensures fresh(c) && c.entryThreshold == entryThreshold && c.exitThreshold == exitThreshold
    {
      c := new VolatilitySpreadSignal(entryThreshold, exitThreshold);
    }
  }
}
