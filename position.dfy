// Position: a quantity of one instrument held since an entry date, with a
// string-keyed metadata map.  Positions are held by value in the portfolio's
// vector, so the setters are modelled as functions returning the new value.
module Positions {
  import opened Wrappers
  import opened DateTimes
  import opened MarketDataCore
  import opened Instruments

  datatype Position = Position(
    instrument: Instrument,
    quantity: real,
    entryPrice: real,
    entryDate: DateTime,
    metadata: map<string, real>)

  /** The constructor stores its arguments verbatim and starts with no metadata. */
  function NewPosition(instrument: Instrument, quantity: real, entryPrice: real, entryDate: DateTime): (p: Position)
    ensures p.instrument == instrument && p.quantity == quantity && p.entryPrice == entryPrice
    ensures p.entryDate == entryDate
    ensures forall key :: !HasMetadata(p, key) && GetMetadata(p, key) == 0.0
  {
    Position(instrument, quantity, entryPrice, entryDate, map[])
  }

  /**
   * Copy construction and copy assignment: every field including the metadata,
   * with the instrument deep-copied, so the copy values exactly like the original.
   */
  function Copy(p: Position): (c: Position)
    ensures c.quantity == p.quantity && c.entryPrice == p.entryPrice && c.entryDate == p.entryDate
    ensures c.metadata == p.metadata && Symbol(c.instrument) == Symbol(p.instrument)
    ensures forall m: Market, d: MarketData :: Value(m, c, d) == Value(m, p, d)
  {
    p.(instrument := Clone(p.instrument))
  }

  /** getValue: quantity times the instrument's current price (which may throw). */
  function Value(m: Market, p: Position, d: MarketData): (r: Result<real>)
    ensures r.Ok? <==> Price(m, p.instrument, d).Ok?
    ensures r.Ok? ==> r.value == p.quantity * Price(m, p.instrument, d).value
    ensures r.Err? ==> r.error == InvalidArgument
  {
    match Price(m, p.instrument, d)
    case Err(e) => Err(e)
    case Ok(price) => Ok(p.quantity * price)
  }

  /** getPnL: quantity times the move from the entry price. */
  function PnL(m: Market, p: Position, d: MarketData): (r: Result<real>)
    ensures r.Ok? <==> Price(m, p.instrument, d).Ok?
    ensures r.Ok? ==> r.value == p.quantity * (Price(m, p.instrument, d).value - p.entryPrice)
    ensures r.Err? ==> r.error == InvalidArgument
  {
    match Price(m, p.instrument, d)
    case Err(e) => Err(e)
    case Ok(price) => Ok(p.quantity * (price - p.entryPrice))
  }

  /** Value and P&L differ by the cost basis. */
  lemma ValueMinusPnL(m: Market, p: Position, d: MarketData)
    ensures Value(m, p, d).Ok? <==> PnL(m, p, d).Ok?
    ensures Value(m, p, d).Ok? ==> Value(m, p, d).value - PnL(m, p, d).value == p.quantity * p.entryPrice
  {
  }

  /** setQuantity: only the quantity changes. */
  function SetQuantity(p: Position, quantity: real): (r: Position)
    ensures r.quantity == quantity && r.(quantity := p.quantity) == p
  {
    p.(quantity := quantity)
  }

  predicate HasMetadata(p: Position, key: string)
  {
    key in p.metadata
  }

  /** getMetadata: the stored value, or 0 for a missing key. */
  function GetMetadata(p: Position, key: string): real
  {
    if key in p.metadata then p.metadata[key] else 0.0
  }

  /** setMetadata: inserts or overwrites one key and nothing else. */
  function SetMetadata(p: Position, key: string, value: real): (r: Position)
    ensures HasMetadata(r, key) && GetMetadata(r, key) == value
    ensures forall k :: k != key ==> HasMetadata(r, k) == HasMetadata(p, k) && GetMetadata(r, k) == GetMetadata(p, k)
    ensures r.(metadata := p.metadata) == p
  {
    p.(metadata := p.metadata[key := value])
  }
}
