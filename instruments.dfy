// The tradable instruments the strategy layer handles: equities, priced
// concretely, and options, whose pricing and sensitivities are Black-Scholes
// numerics outside this model and appear here as uninterpreted functions.
module Instruments {
  import opened Wrappers
  import opened DateTimes
  import opened MarketDataCore

  datatype InstrumentType = EQUITY | EUROPEAN_OPTION | AMERICAN_OPTION | FUTURE | BOND

  datatype OptionType = Call | Put

  datatype ExerciseStyle = European | American

  datatype Instrument =
    | Equity(symbol: string, shares: real)
    | OptionContract(underlying: string, expiry: DateTime, strike: real, optionType: OptionType, style: ExerciseStyle)

  /** The option model's outputs, as functions of (option, observation). */
  datatype Market = Market(
    optionPrice: (Instrument, MarketData) -> real,
    delta: (Instrument, MarketData) -> real,
    gamma: (Instrument, MarketData) -> real,
    vega: (Instrument, MarketData) -> real,
    theta: (Instrument, MarketData) -> real)

  /** Equity(symbol, shares): a non-positive share count is rejected. */
  function NewEquity(symbol: string, shares: real): (r: Result<Instrument>)
    ensures r.Ok? <==> shares > 0.0
    ensures r.Ok? ==> r.value == Equity(symbol, shares) && Type(r.value) == EQUITY && Symbol(r.value) == symbol
    ensures r.Err? ==> r.error == InvalidArgument
  {
    if shares <= 0.0 then Err(InvalidArgument) else Ok(Equity(symbol, shares))
  }

  /** The option constructor: a non-positive strike is rejected. */
  function NewOption(underlying: string, expiry: DateTime, strike: real, optionType: OptionType, style: ExerciseStyle)
    : (r: Result<Instrument>)
    ensures r.Ok? <==> strike > 0.0
    ensures r.Ok? ==> r.value == OptionContract(underlying, expiry, strike, optionType, style) && IsOption(r.value)
    ensures r.Err? ==> r.error == InvalidArgument
  {
    if strike <= 0.0 then Err(InvalidArgument) else Ok(OptionContract(underlying, expiry, strike, optionType, style))
  }

  predicate IsOption(i: Instrument)
  {
    i.OptionContract?
  }

  function Type(i: Instrument): (t: InstrumentType)
    ensures t == EQUITY <==> i.Equity?
    ensures IsOption(i) <==> t in {EUROPEAN_OPTION, AMERICAN_OPTION}
  {
    match i
    case Equity(_, _) => EQUITY
    case OptionContract(_, _, _, _, style) => if style == European then EUROPEAN_OPTION else AMERICAN_OPTION
  }

  /**
   * getSymbol: an equity's own symbol; for an option
   * "<underlying>_<C|P>_<integer part of strike>_<expiry>", where the expiry
   * is printed with a format DateTime::toString does not recognise and so
   * comes out in the full "YYYY-MM-DD HH:MM:SS" form.
   */
  function Symbol(i: Instrument): string
  {
    match i
    case Equity(symbol, _) => symbol
    case OptionContract(underlying, expiry, strike, optionType, _) =>
      underlying + "_" + (if optionType == Call then "C" else "P") + "_" + IntText(TruncateReal(strike))
      + "_" + ToString(expiry, "%Y%m%d")
  }

  /** An option's symbol starts with its underlying and carries its expiry in full. */
  lemma OptionSymbolShape(i: Instrument)
    requires IsOption(i)
    ensures |i.underlying| < |Symbol(i)| && Symbol(i)[..|i.underlying|] == i.underlying
    ensures Symbol(i)[|Symbol(i)| - |ToString(i.expiry, FullFormat)|..] == ToString(i.expiry, FullFormat)
  {
    ToStringFormats(i.expiry, "%Y%m%d");
    var u := i.underlying;
    var tail := ToString(i.expiry, FullFormat);
    var h1 := u + "_";
    var h2 := h1 + (if i.optionType == Call then "C" else "P");
    var h3 := h2 + "_";
    var h4 := h3 + IntText(TruncateReal(i.strike));
    var head := h4 + "_";
    assert Symbol(i) == head + tail;
    PrefixKept(u, "_", |u|);
    PrefixKept(h1, if i.optionType == Call then "C" else "P", |u|);
    PrefixKept(h2, "_", |u|);
    PrefixKept(h3, IntText(TruncateReal(i.strike)), |u|);
    PrefixKept(h4, "_", |u|);
    PrefixKept(head, tail, |u|);
  }

  /** Appending keeps every prefix. */
  lemma PrefixKept(a: string, b: string, n: nat)
    requires n <= |a|
    ensures (a + b)[..n] == a[..n] && (a + b)[|a + b| - |b|..] == b
  {
  }

  /** Instrument::price: close times shares for an equity of the observed symbol. */
  function Price(m: Market, i: Instrument, d: MarketData): (r: Result<real>)
    ensures i.Equity? ==> (r.Ok? <==> d.symbol == i.symbol)
    ensures i.Equity? && r.Ok? ==> r.value == d.close * i.shares
    ensures IsOption(i) ==> r == Ok(m.optionPrice(i, d))
    ensures r.Err? ==> r.error == InvalidArgument
  {
    match i
    case Equity(symbol, shares) => if d.symbol != symbol then Err(InvalidArgument) else Ok(d.close * shares)
    case OptionContract(_, _, _, _, _) => Ok(m.optionPrice(i, d))
  }

  /** Equity::calculateRiskMetrics: value, intraday P&L, delta (shares) and gamma (0). */
  function EquityRiskMetrics(i: Instrument, d: MarketData): (r: Result<seq<real>>)
    requires i.Equity?
    ensures r.Ok? <==> d.symbol == i.symbol
    ensures r.Ok? ==> |r.value| == 4 && r.value[0] == d.close * i.shares
                      && r.value[1] == (d.close - d.open) * i.shares && r.value[2] == i.shares && r.value[3] == 0.0
    ensures r.Err? ==> r.error == InvalidArgument
  {
    if d.symbol != i.symbol then Err(InvalidArgument)
    else
      var value := d.close * i.shares;
      Ok([value, value - i.shares * d.open, i.shares, 0.0])
  }

  /** Equity::setShares: a non-positive count is rejected and the equity left unchanged. */
  function SetShares(i: Instrument, shares: real): (r: Result<Instrument>)
    requires i.Equity?
    ensures r.Ok? <==> shares > 0.0
    ensures r.Ok? ==> r.value.Equity? && r.value.symbol == i.symbol && r.value.shares == shares
    ensures r.Err? ==> r.error == InvalidArgument
  {
    if shares <= 0.0 then Err(InvalidArgument) else Ok(i.(shares := shares))
  }

  /** A copy prices exactly like the original (clone, and InstrumentFactory::clone as a deep copy). */
  function Clone(i: Instrument): (c: Instrument)
    ensures Symbol(c) == Symbol(i) && Type(c) == Type(i)
    ensures forall m: Market, d: MarketData :: Price(m, c, d) == Price(m, i, d)
  {
    i
  }
}
