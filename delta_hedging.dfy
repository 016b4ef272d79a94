// DeltaHedgingStrategy: after each bar, trades the bar's underlying equity so
// that the portfolio's delta returns to a target.
module Hedging {
  import opened Wrappers
  import opened MarketDataCore
  import opened Instruments
  import opened Positions
  import opened Portfolios
  import opened Numerics

  /** The portfolio's contents, as the hedge specification sees them. */
  datatype Book = Book(positions: seq<Position>, cash: real)

  /** Quantities smaller than this in size are treated as zero (1e-6). */
  const MinQuantity: real := 0.000001


  /** A position the hedger may adjust: an equity in the bar's symbol. */
  predicate IsHedgeFor(p: Position, symbol: string)
  {
    Type(p.instrument) == EQUITY && Symbol(p.instrument) == symbol
  }

  /** The first hedge position's index, or the number of positions when there is none. */
  function HedgeIndex(ps: seq<Position>, symbol: string): (k: nat)
    ensures k <= |ps|
    ensures forall j :: 0 <= j < k ==> !IsHedgeFor(ps[j], symbol)
    ensures k < |ps| ==> IsHedgeFor(ps[k], symbol)
  {
    if ps == [] then 0
    else if IsHedgeFor(ps[0], symbol) then 0
    else 1 + HedgeIndex(ps[1..], symbol)
  }

  /** The search's exit condition determines the index. */
  lemma HedgeIndexUnique(ps: seq<Position>, symbol: string, k: nat)
    requires k <= |ps|
    requires forall j :: 0 <= j < k ==> !IsHedgeFor(ps[j], symbol)
    requires k < |ps| ==> IsHedgeFor(ps[k], symbol)
    ensures k == HedgeIndex(ps, symbol)
  {
  }

  /** A new hedge: one-share equity units of the bar's symbol, entered at the close, tagged as a hedge. */
  function NewHedgePosition(quantity: real, target: real, d: MarketData): (p: Position)
    ensures p.instrument == Equity(d.symbol, 1.0) && !IsOption(p.instrument) && IsHedgeFor(p, d.symbol)
    ensures p.quantity == quantity && p.entryPrice == d.close && p.entryDate == d.timestamp
    ensures p.metadata == map["is_hedge" := 1.0, "target_delta" := target]
  {
    var entry := NewPosition(Equity(d.symbol, 1.0), quantity, d.close, d.timestamp);
    SetMetadata(SetMetadata(entry, "is_hedge", 1.0), "target_delta", target)
  }

  /** applyHedge on the portfolio's contents. */
  function Hedge(target: real, tolerance: real, m: Market, b: Book, d: MarketData): Book
  {
    var gap := DeltaOf(m, b.positions, d) - target;
    if Abs(gap) <= tolerance then b
    else
      var hedgeQuantity := -gap;
      var k := HedgeIndex(b.positions, d.symbol);
      if k < |b.positions| then
        var newQuantity := b.positions[k].quantity + hedgeQuantity;
        if Abs(newQuantity) < MinQuantity then b.(positions := b.positions[..k] + b.positions[k + 1..])
        else b.(positions := b.positions[k := SetQuantity(b.positions[k], newQuantity)])
      else if Abs(hedgeQuantity) >= MinQuantity then
        Book(b.positions + [NewHedgePosition(hedgeQuantity, target, d)], b.cash - hedgeQuantity * d.close)
      else b
  }

  /**
   * A delta within the tolerance of the target leaves the portfolio alone;
   * otherwise the hedge brings the delta to within 1e-6 of the target
   * (exactly to it when a hedge position is resized or opened).
   */
  lemma HedgeReachesTarget(target: real, tolerance: real, m: Market, b: Book, d: MarketData)
    ensures var gap := DeltaOf(m, b.positions, d) - target;
            Abs(gap) <= tolerance ==> Hedge(target, tolerance, m, b, d) == b
    ensures var gap := DeltaOf(m, b.positions, d) - target;
            Abs(gap) > tolerance ==> Abs(DeltaOf(m, Hedge(target, tolerance, m, b, d).positions, d) - target) < MinQuantity
    ensures var after := Hedge(target, tolerance, m, b, d);
            |after.positions| != |b.positions| ==> Abs(DeltaOf(m, after.positions, d) - target) < MinQuantity
    ensures var after := Hedge(target, tolerance, m, b, d);
            after == b || |after.positions| < |b.positions| || DeltaOf(m, after.positions, d) == target
  {
    if Abs(DeltaOf(m, b.positions, d) - target) > tolerance {
      HedgeOutsideTolerance(target, tolerance, m, b, d);
    }
  }

  /**
   * The hedge's three outcomes each land within 1e-6 of the target: a resize
   * or an open reaches it exactly, since an equity counts one unit of delta
   * per share; a removal leaves the sub-1e-6 quantity it dropped.
   */
  lemma HedgeOutsideTolerance(target: real, tolerance: real, m: Market, b: Book, d: MarketData)
    requires Abs(DeltaOf(m, b.positions, d) - target) > tolerance
    ensures Abs(DeltaOf(m, Hedge(target, tolerance, m, b, d).positions, d) - target) < MinQuantity
    ensures Hedge(target, tolerance, m, b, d) == b
            || |Hedge(target, tolerance, m, b, d).positions| < |b.positions|
            || DeltaOf(m, Hedge(target, tolerance, m, b, d).positions, d) == target
  {
    var ps := b.positions;
    var gap := DeltaOf(m, ps, d) - target;
    var k := HedgeIndex(ps, d.symbol);
    var after := Hedge(target, tolerance, m, b, d);
    if k < |ps| {
      var newQuantity := ps[k].quantity - gap;
      assert DeltaTerm(m, ps[k], d) == ps[k].quantity;
      if Abs(newQuantity) < MinQuantity {
        assert after.positions == ps[..k] + ps[k + 1..];
        DeltaRemove(m, ps, k, d);
      } else {
        assert after.positions == ps[k := SetQuantity(ps[k], newQuantity)];
        assert DeltaTerm(m, SetQuantity(ps[k], newQuantity), d) == newQuantity;
        DeltaReplace(m, ps, k, SetQuantity(ps[k], newQuantity), d);
      }
    } else if Abs(-gap) >= MinQuantity {
      assert after.positions == ps + [NewHedgePosition(-gap, target, d)];
      AppendNonOption(m, ps, NewHedgePosition(-gap, target, d), d);
    } else {
      assert after == b;
    }
  }

  /**
   * What a hedge may change: at most one position is added or removed, every
   * other position keeps its place, and cash moves only when a new hedge is
   * bought or sold at the close.  In detail, outside the tolerance: a
   * resize changes only the hedge position's quantity, to its old quantity
   * minus the gap; a removal drops exactly that position and keeps the
   * order of the rest; an open appends one new hedge of minus the gap.
   */
  lemma HedgeFrame(target: real, tolerance: real, m: Market, b: Book, d: MarketData)
    ensures var gap := DeltaOf(m, b.positions, d) - target;
            var k := HedgeIndex(b.positions, d.symbol);
            var after := Hedge(target, tolerance, m, b, d);
            Abs(gap) > tolerance && k < |b.positions| && Abs(b.positions[k].quantity - gap) >= MinQuantity ==>
              && after.cash == b.cash && |after.positions| == |b.positions|
              && after.positions[k] == SetQuantity(b.positions[k], b.positions[k].quantity - gap)
              && forall j :: 0 <= j < |b.positions| && j != k ==> after.positions[j] == b.positions[j]
    ensures var gap := DeltaOf(m, b.positions, d) - target;
            var k := HedgeIndex(b.positions, d.symbol);
            var after := Hedge(target, tolerance, m, b, d);
            Abs(gap) > tolerance && k < |b.positions| && Abs(b.positions[k].quantity - gap) < MinQuantity ==>
              after.cash == b.cash && after.positions == b.positions[..k] + b.positions[k + 1..]
    ensures var gap := DeltaOf(m, b.positions, d) - target;
            var after := Hedge(target, tolerance, m, b, d);
            Abs(gap) > tolerance && HedgeIndex(b.positions, d.symbol) == |b.positions| ==>
              && (Abs(gap) >= MinQuantity ==>
                    after.positions == b.positions + [NewHedgePosition(-gap, target, d)] && after.cash == b.cash + gap * d.close)
              && (Abs(gap) < MinQuantity ==> after == b)
    ensures var after := Hedge(target, tolerance, m, b, d);
            |b.positions| - 1 <= |after.positions| <= |b.positions| + 1
    ensures var after := Hedge(target, tolerance, m, b, d);
            var k := HedgeIndex(b.positions, d.symbol);
            forall j :: 0 <= j < k && j < |after.positions| ==> after.positions[j] == b.positions[j]
    ensures var after := Hedge(target, tolerance, m, b, d);
            after.cash != b.cash ==>
              HedgeIndex(b.positions, d.symbol) == |b.positions| && |after.positions| == |b.positions| + 1 &&
              after.cash == b.cash - after.positions[|b.positions|].quantity * d.close
  {
  }

  /** Hedging trades equities only: every option position after a hedge was already held. */
  lemma HedgeKeepsOptions(target: real, tolerance: real, m: Market, b: Book, d: MarketData)
    ensures var after := Hedge(target, tolerance, m, b, d);
            forall i :: 0 <= i < |after.positions| && IsOption(after.positions[i].instrument) ==>
              after.positions[i] in b.positions
  {
    var after := Hedge(target, tolerance, m, b, d);
    var ps := b.positions;
    var k := HedgeIndex(ps, d.symbol);
    forall i | 0 <= i < |after.positions| && IsOption(after.positions[i].instrument)
      ensures after.positions[i] in ps
    {
      if after.positions != ps && k < |ps| && |after.positions| < |ps| {
        assert after.positions == ps[..k] + ps[k + 1..];
        if i < k {
          assert after.positions[i] == ps[i];
        } else {
          assert after.positions[i] == ps[i + 1];
        }
      }
    }
  }

  class DeltaHedgingStrategy {
    var targetDelta: real
    var tolerance: real

    constructor (targetDelta: real, tolerance: real)
      ensures this.targetDelta == targetDelta && this.tolerance == tolerance
    {
      this.targetDelta := targetDelta;
      this.tolerance := tolerance;
    }

    /** The header's default arguments: target 0, tolerance 0.01. */
    constructor Default()
      ensures targetDelta == 0.0 && tolerance == 0.01
    {
      targetDelta := 0.0;
      tolerance := 0.01;
    }

    method ApplyHedge(p: Portfolio, m: Market, d: MarketData)
      modifies p
      ensures Book(p.positions, p.cash) == Hedge(targetDelta, tolerance, m, old(Book(p.positions, p.cash)), d)
    {
      var currentDelta := p.CalculateDelta(m, d);
      var gap := currentDelta - targetDelta;
      if Abs(gap) <= tolerance {
        return;
      }
      var hedgeQuantity := -gap;
      var hedgeInstrument := Equity(d.symbol, 1.0);
      var i := 0;
      while i < |p.positions| && !IsHedgeFor(p.positions[i], d.symbol)
        invariant 0 <= i <= |p.positions|
        invariant forall j :: 0 <= j < i ==> !IsHedgeFor(p.positions[j], d.symbol)
      {
        i := i + 1;
      }
      HedgeIndexUnique(p.positions, d.symbol, i);
      if i < |p.positions| {
        var newQuantity := p.positions[i].quantity + hedgeQuantity;
        if Abs(newQuantity) < MinQuantity {
          var _ := p.RemovePosition(i);
        } else {
          var _ := p.UpdatePosition(i, newQuantity);
        }
      } else if Abs(hedgeQuantity) >= MinQuantity {
        var hedge := NewPosition(hedgeInstrument, hedgeQuantity, d.close, d.timestamp);
        hedge := SetMetadata(hedge, "is_hedge", 1.0);
        hedge := SetMetadata(hedge, "target_delta", targetDelta);
        p.AddPosition(hedge);
        p.RemoveCash(hedgeQuantity * d.close);
      }
    }

    /** clone: an independent hedger with the same settings. */
    method Clone() returns (c: DeltaHedgingStrategy)
      ensures fresh(c) && c.targetDelta == targetDelta && c.tolerance == tolerance
    {
      c := new DeltaHedgingStrategy(targetDelta, tolerance);
    }

    method SetTargetDelta(targetDelta: real)
      modifies this
      ensures this.targetDelta == targetDelta && tolerance == old(tolerance)
    {
      this.targetDelta := targetDelta;
    }

    method SetTolerance(tolerance: real)
      modifies this
      ensures this.tolerance == tolerance && targetDelta == old(targetDelta)
    {
      this.tolerance := tolerance;
    }
  }
}
