// Portfolio: an ordered list of positions plus a cash balance, updated in
// place, with valuation and greek aggregates computed by folds.
module Portfolios {
  import opened Wrappers
  import opened MarketDataCore
  import opened Instruments
  import opened Positions

  /** getTotalValue's fold: the cash, then each position's value in order. */
  function TotalValueOf(m: Market, ps: seq<Position>, cash: real, d: MarketData): Result<real>
  {
    if ps == [] then Ok(cash)
    else
      match TotalValueOf(m, ps[..|ps| - 1], cash, d)
      case Err(e) => Err(e)
      case Ok(total) =>
        match Value(m, ps[|ps| - 1], d)
        case Err(e) => Err(e)
        case Ok(v) => Ok(total + v)
  }

  /** getTotalPnL's fold. */
  function TotalPnLOf(m: Market, ps: seq<Position>, d: MarketData): Result<real>
  {
    if ps == [] then Ok(0.0)
    else
      match TotalPnLOf(m, ps[..|ps| - 1], d)
      case Err(e) => Err(e)
      case Ok(total) =>
        match PnL(m, ps[|ps| - 1], d)
        case Err(e) => Err(e)
        case Ok(v) => Ok(total + v)
  }

  /** The amount paid for the positions at their entry prices. */
  function CostBasis(ps: seq<Position>): real
  {
    if ps == [] then 0.0 else CostBasis(ps[..|ps| - 1]) + ps[|ps| - 1].quantity * ps[|ps| - 1].entryPrice
  }

  /** Every position can be priced against the observation. */
  predicate AllPriced(m: Market, ps: seq<Position>, d: MarketData)
  {
    forall i :: 0 <= i < |ps| ==> Price(m, ps[i].instrument, d).Ok?
  }

  /**
   * The valuation folds succeed exactly when every position can be priced,
   * fail with invalid_argument otherwise, and total value minus total P&L is
   * the cash plus the cost basis.
   */
  lemma {:induction false} ValueAndPnLFolds(m: Market, ps: seq<Position>, cash: real, d: MarketData)
    ensures TotalValueOf(m, ps, cash, d).Ok? <==> AllPriced(m, ps, d)
    ensures TotalPnLOf(m, ps, d).Ok? <==> AllPriced(m, ps, d)
    ensures TotalValueOf(m, ps, cash, d).Err? ==> TotalValueOf(m, ps, cash, d).error == InvalidArgument
    ensures TotalPnLOf(m, ps, d).Err? ==> TotalPnLOf(m, ps, d).error == InvalidArgument
    ensures AllPriced(m, ps, d) ==>
      TotalValueOf(m, ps, cash, d).value - TotalPnLOf(m, ps, d).value == cash + CostBasis(ps)
  {
    if ps != [] {
      var init := ps[..|ps| - 1];
      ValueAndPnLFolds(m, init, cash, d);
      ValueMinusPnL(m, ps[|ps| - 1], d);
      assert AllPriced(m, ps, d) ==> AllPriced(m, init, d);
      if AllPriced(m, init, d) && !AllPriced(m, ps, d) {
        assert Price(m, ps[|ps| - 1].instrument, d).Err? by {
          var i :| 0 <= i < |ps| && Price(m, ps[i].instrument, d).Err?;
          assert i == |ps| - 1 || Price(m, init[i].instrument, d).Err?;
        }
      }
    }
  }

  /** calculateDelta's per-position term: quantity times the option delta, or the quantity itself. */
  function DeltaTerm(m: Market, p: Position, d: MarketData): real
  {
    if IsOption(p.instrument) then p.quantity * m.delta(p.instrument, d) else p.quantity
  }

  function DeltaOf(m: Market, ps: seq<Position>, d: MarketData): real
  {
    if ps == [] then 0.0 else DeltaOf(m, ps[..|ps| - 1], d) + DeltaTerm(m, ps[|ps| - 1], d)
  }

  /** Gamma, vega and theta: options contribute quantity times the sensitivity, other instruments nothing. */
  function GammaOf(m: Market, ps: seq<Position>, d: MarketData): real
  {
    if ps == [] then 0.0
    else GammaOf(m, ps[..|ps| - 1], d)
         + (var p := ps[|ps| - 1]; if IsOption(p.instrument) then p.quantity * m.gamma(p.instrument, d) else 0.0)
  }

  function VegaOf(m: Market, ps: seq<Position>, d: MarketData): real
  {
    if ps == [] then 0.0
    else VegaOf(m, ps[..|ps| - 1], d)
         + (var p := ps[|ps| - 1]; if IsOption(p.instrument) then p.quantity * m.vega(p.instrument, d) else 0.0)
  }

  function ThetaOf(m: Market, ps: seq<Position>, d: MarketData): real
  {
    if ps == [] then 0.0
    else ThetaOf(m, ps[..|ps| - 1], d)
         + (var p := ps[|ps| - 1]; if IsOption(p.instrument) then p.quantity * m.theta(p.instrument, d) else 0.0)
  }

  /** The delta of a concatenation is the sum of the deltas. */
  lemma {:induction false} DeltaConcat(m: Market, a: seq<Position>, b: seq<Position>, d: MarketData)
    ensures DeltaOf(m, a + b, d) == DeltaOf(m, a, d) + DeltaOf(m, b, d)
    decreases |b|
  {
    if b == [] {
      assert a + b == a;
    } else {
      var c := a + b;
      assert c[..|c| - 1] == a + b[..|b| - 1];
      DeltaConcat(m, a, b[..|b| - 1], d);
    }
  }

  /** Replacing one position changes the delta by the difference of the two terms. */
  lemma DeltaReplace(m: Market, ps: seq<Position>, k: nat, p: Position, d: MarketData)
    requires k < |ps|
    ensures DeltaOf(m, ps[k := p], d) == DeltaOf(m, ps, d) - DeltaTerm(m, ps[k], d) + DeltaTerm(m, p, d)
  {
    assert ps == ps[..k] + [ps[k]] + ps[k + 1..];
    assert ps[k := p] == ps[..k] + [p] + ps[k + 1..];
    DeltaConcat(m, ps[..k] + [ps[k]], ps[k + 1..], d);
    DeltaConcat(m, ps[..k], [ps[k]], d);
    DeltaConcat(m, ps[..k] + [p], ps[k + 1..], d);
    DeltaConcat(m, ps[..k], [p], d);
    assert DeltaOf(m, [p], d) == DeltaTerm(m, p, d) by { assert [p][..0] == []; }
    assert DeltaOf(m, [ps[k]], d) == DeltaTerm(m, ps[k], d) by { assert [ps[k]][..0] == []; }
  }

  /** Removing one position takes its term out of the delta. */
  lemma DeltaRemove(m: Market, ps: seq<Position>, k: nat, d: MarketData)
    requires k < |ps|
    ensures DeltaOf(m, ps[..k] + ps[k + 1..], d) == DeltaOf(m, ps, d) - DeltaTerm(m, ps[k], d)
  {
    assert ps == ps[..k] + [ps[k]] + ps[k + 1..];
    DeltaConcat(m, ps[..k] + [ps[k]], ps[k + 1..], d);
    DeltaConcat(m, ps[..k], [ps[k]], d);
    DeltaConcat(m, ps[..k], ps[k + 1..], d);
    assert DeltaOf(m, [ps[k]], d) == DeltaTerm(m, ps[k], d) by { assert [ps[k]][..0] == []; }
  }

  /**
   * Appending a non-option position adds its quantity to the delta and
   * leaves gamma, vega and theta unchanged.
   */
  lemma AppendNonOption(m: Market, ps: seq<Position>, p: Position, d: MarketData)
    requires !IsOption(p.instrument)
    ensures DeltaOf(m, ps + [p], d) == DeltaOf(m, ps, d) + p.quantity
    ensures GammaOf(m, ps + [p], d) == GammaOf(m, ps, d)
    ensures VegaOf(m, ps + [p], d) == VegaOf(m, ps, d)
    ensures ThetaOf(m, ps + [p], d) == ThetaOf(m, ps, d)
  {
    assert (ps + [p])[..|ps + [p]| - 1] == ps;
  }

  class Portfolio {
    var positions: seq<Position>
    var cash: real

    constructor (initialCash: real)
      ensures positions == [] && cash == initialCash
    {
      positions := [];
      cash := initialCash;
    }

    /** addPosition: appended at the end; nothing else changes. */
    method AddPosition(p: Position)
      modifies this
      ensures positions == old(positions) + [p] && cash == old(cash)
    {
      positions := positions + [p];
    }

    /** removePosition: deletes exactly one index, keeping the order of the rest. */
    method RemovePosition(index: nat) returns (o: Outcome)
      modifies this
      ensures o.Fail? <==> index >= |old(positions)|
      ensures o.Fail? ==> o.error == OutOfRange && positions == old(positions)
      ensures o.Pass? ==> positions == old(positions)[..index] + old(positions)[index + 1..]
      ensures cash == old(cash)
    {
      if index >= |positions| {
        return Fail(OutOfRange);
      }
      positions := positions[..index] + positions[index + 1..];
      o := Pass;
    }

    /** updatePosition: sets one position's quantity. */
    method UpdatePosition(index: nat, quantity: real) returns (o: Outcome)
      modifies this
      ensures o.Fail? <==> index >= |old(positions)|
      ensures o.Fail? ==> o.error == OutOfRange && positions == old(positions)
      ensures o.Pass? ==> positions == old(positions)[index := SetQuantity(old(positions)[index], quantity)]
      ensures cash == old(cash)
    {
      if index >= |positions| {
        return Fail(OutOfRange);
      }
      positions := positions[index := SetQuantity(positions[index], quantity)];
      o := Pass;
    }

    /** getPosition. */
    function GetPosition(index: nat): (r: Result<Position>)
      reads this
      ensures r.Ok? <==> index < |positions|
      ensures r.Ok? ==> r.value == positions[index]
      ensures r.Err? ==> r.error == OutOfRange
    {
      if index >= |positions| then Err(OutOfRange) else Ok(positions[index])
    }

    function PositionCount(): nat
      reads this
    {
      |positions|
    }

    /** addCash: no upper or lower bound. */
    method AddCash(amount: real)
      modifies this
      ensures cash == old(cash) + amount && positions == old(positions)
    {
      cash := cash + amount;
    }

    /** removeCash: no lower bound; cash may become negative. */
    method RemoveCash(amount: real)
      modifies this
      ensures cash == old(cash) - amount && positions == old(positions)
    {
      cash := cash - amount;
    }

    method TotalValue(m: Market, d: MarketData) returns (r: Result<real>)
      ensures r == TotalValueOf(m, positions, cash, d)
    {
      var total := cash;
      var i := 0;
      while i < |positions|
        invariant 0 <= i <= |positions|
        invariant TotalValueOf(m, positions[..i], cash, d) == Ok(total)
      {
        assert positions[..i + 1][..i] == positions[..i];
        var v := Value(m, positions[i], d);
        if v.Err? {
          ValueAndPnLFolds(m, positions, cash, d);
          assert !AllPriced(m, positions, d);
          return Err(InvalidArgument);
        }
        total := total + v.value;
        i := i + 1;
      }
      assert positions[..i] == positions;
      r := Ok(total);
    }

    method TotalPnL(m: Market, d: MarketData) returns (r: Result<real>)
      ensures r == TotalPnLOf(m, positions, d)
    {
      var total := 0.0;
      var i := 0;
      while i < |positions|
        invariant 0 <= i <= |positions|
        invariant TotalPnLOf(m, positions[..i], d) == Ok(total)
      {
        assert positions[..i + 1][..i] == positions[..i];
        var v := PnL(m, positions[i], d);
        if v.Err? {
          ValueAndPnLFolds(m, positions, cash, d);
          assert !AllPriced(m, positions, d);
          return Err(InvalidArgument);
        }
        total := total + v.value;
        i := i + 1;
      }
      assert positions[..i] == positions;
      r := Ok(total);
    }

    method CalculateDelta(m: Market, d: MarketData) returns (r: real)
      ensures r == DeltaOf(m, positions, d)
    {
      r := 0.0;
      var i := 0;
      while i < |positions|
        invariant 0 <= i <= |positions|
        invariant r == DeltaOf(m, positions[..i], d)
      {
        assert positions[..i + 1][..i] == positions[..i];
        var p := positions[i];
        if IsOption(p.instrument) {
          r := r + p.quantity * m.delta(p.instrument, d);
        } else {
          r := r + p.quantity;
        }
        i := i + 1;
      }
      assert positions[..i] == positions;
    }

    method CalculateGamma(m: Market, d: MarketData) returns (r: real)
      ensures r == GammaOf(m, positions, d)
    {
      r := 0.0;
      var i := 0;
      while i < |positions|
        invariant 0 <= i <= |positions|
        invariant r == GammaOf(m, positions[..i], d)
      {
        assert positions[..i + 1][..i] == positions[..i];
        var p := positions[i];
        if IsOption(p.instrument) {
          r := r + p.quantity * m.gamma(p.instrument, d);
        }
        i := i + 1;
      }
      assert positions[..i] == positions;
    }

    method CalculateVega(m: Market, d: MarketData) returns (r: real)
      ensures r == VegaOf(m, positions, d)
    {
      r := 0.0;
      var i := 0;
      while i < |positions|
        invariant 0 <= i <= |positions|
        invariant r == VegaOf(m, positions[..i], d)
      {
        assert positions[..i + 1][..i] == positions[..i];
        var p := positions[i];
        if IsOption(p.instrument) {
          r := r + p.quantity * m.vega(p.instrument, d);
        }
        i := i + 1;
      }
      assert positions[..i] == positions;
    }

    method CalculateTheta(m: Market, d: MarketData) returns (r: real)
      ensures r == ThetaOf(m, positions, d)
    {
      r := 0.0;
      var i := 0;
      while i < |positions|
        invariant 0 <= i <= |positions|
        invariant r == ThetaOf(m, positions[..i], d)
      {
        assert positions[..i + 1][..i] == positions[..i];
        var p := positions[i];
        if IsOption(p.instrument) {
          r := r + p.quantity * m.theta(p.instrument, d);
        }
        i := i + 1;
      }
      assert positions[..i] == positions;
    }
  }
}
