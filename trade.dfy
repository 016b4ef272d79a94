// Trade: one executed order as recorded in a backtest's trade log.
module Trades {
  import opened Wrappers
  import opened DateTimes

  datatype Action = BUY | SELL

  datatype Trade = Trade(
    instrumentId: string,
    action: Action,
    quantity: real,
    price: real,
    timestamp: DateTime,
    transactionCost: real)

  /** The default constructor: a zero BUY of no instrument, stamped with the clock time `now`. */
  function DefaultTrade(now: DateTime): (t: Trade)
    ensures t.instrumentId == "" && t.action == BUY && Value(t) == 0.0 && NetValue(t) == 0.0
  {
    Trade("", BUY, 0.0, 0.0, now, 0.0)
  }

  /** getValue: the notional of the trade. */
  function Value(t: Trade): (v: real)
    ensures t.quantity >= 0.0 && t.price >= 0.0 ==> v >= 0.0
    ensures t.quantity == 0.0 || t.price == 0.0 ==> v == 0.0
  {
    t.quantity * t.price
  }

  /** getNetValue: the signed cash flow, an outflow for a purchase and an inflow for a sale, net of cost. */
  function NetValue(t: Trade): real
  {
    var value := Value(t);
    if t.action == BUY then -(value + t.transactionCost) else value - t.transactionCost
  }

  /** With non-negative quantity, price and cost a purchase never brings cash in, and costs always reduce the flow. */
  lemma NetValueSign(t: Trade)
    requires t.quantity >= 0.0 && t.price >= 0.0 && t.transactionCost >= 0.0
    ensures t.action == BUY ==> NetValue(t) <= 0.0
    ensures t.action == SELL ==> NetValue(t) <= Value(t)
    ensures NetValue(t) <= NetValue(t.(transactionCost := 0.0))
  {
  }

  /**
   * Buying and selling the same order are mirror cash flows: they differ by
   * twice the notional, and together they lose twice the cost.
   */
  lemma NetValueMirror(t: Trade)
    ensures NetValue(t.(action := SELL)) - NetValue(t.(action := BUY)) == 2.0 * Value(t)
    ensures NetValue(t.(action := SELL)) + NetValue(t.(action := BUY)) == -2.0 * t.transactionCost
  {
  }

  /** actionToString: the name that stringToAction reads back. */
  function ActionToString(a: Action): (s: string)
    ensures StringToAction(s) == Ok(a)
  {
    match a
    case BUY => "BUY"
    case SELL => "SELL"
  }

  function StringToAction(s: string): (r: Result<Action>)
    ensures r.Ok? <==> s == "BUY" || s == "SELL"
    ensures r.Err? ==> r.error == InvalidArgument
  {
    if s == "BUY" then Ok(BUY) else if s == "SELL" then Ok(SELL) else Err(InvalidArgument)
  }

  /** The action names round-trip both ways. */
  lemma ActionRoundTrip(a: Action, s: string)
    ensures StringToAction(ActionToString(a)) == Ok(a)
    ensures StringToAction(s).Ok? ==> ActionToString(StringToAction(s).value) == s
  {
  }

  /** operator==: identity, action and time exactly, quantity and price within 1e-10; cost is ignored. */
  predicate Equivalent(a: Trade, b: Trade)
  {
    a.instrumentId == b.instrumentId && a.action == b.action
    && -0.0000000001 < a.quantity - b.quantity < 0.0000000001
    && -0.0000000001 < a.price - b.price < 0.0000000001
    && a.timestamp == b.timestamp
  }

  /** operator<: chronological order only. */
  predicate Before(a: Trade, b: Trade)
  {
    Less(a.timestamp, b.timestamp)
  }

  /**
   * Equality is reflexive and symmetric and ignores the cost; the ordering
   * never puts two equal trades apart.
   */
  lemma EquivalenceFacts(a: Trade, b: Trade, cost: real)
    ensures Equivalent(a, a)
    ensures Equivalent(a, b) ==> Equivalent(b, a)
    ensures Equivalent(a, a.(transactionCost := cost))
    ensures Equivalent(a, b) ==> !Before(a, b) && !Before(b, a)
  {
    LessIsStrictTotalOrder(a.timestamp, b.timestamp, a.timestamp);
  }

  /** The tolerance makes equality non-transitive: three prices 0.6e-10 apart. */
  lemma EquivalenceNotTransitive(now: DateTime)
    ensures var a := Trade("X", BUY, 1.0, 1.0, now, 0.0);
            var b := a.(price := 1.00000000006);
            var c := a.(price := 1.00000000012);
            Equivalent(a, b) && Equivalent(b, c) && !Equivalent(a, c)
  {
  }
}
