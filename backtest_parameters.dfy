// BacktestParameters: the run configuration, a record of settable fields.
module Parameters {
  import opened DateTimes

  /** The value of a parameters object. */
  datatype Settings = Settings(
    startDate: DateTime,
    endDate: DateTime,
    initialCapital: real,
    symbols: seq<string>,
    includeTransactionCosts: bool,
    transactionCostPerTrade: real,
    transactionCostPercentage: real)

  /**
   * The parameters object.  Fields are read directly (the getters return
   * them); setters store their argument without validation, which happens
   * only when the engine runs.
   */
  class BacktestParameters {
    var startDate: DateTime
    var endDate: DateTime
    var initialCapital: real
    var symbols: seq<string>
    var includeTransactionCosts: bool
    var transactionCostPerTrade: real
    var transactionCostPercentage: real

    function Snapshot(): Settings
      reads this
    {
      Settings(startDate, endDate, initialCapital, symbols, includeTransactionCosts,
               transactionCostPerTrade, transactionCostPercentage)
    }

    /** Defaults: both dates the clock time (read twice), capital 100000, no symbols, no costs. */
    constructor (startNow: DateTime, endNow: DateTime)
      ensures Snapshot() == Settings(startNow, endNow, 100000.0, [], false, 0.0, 0.0)
    {
      startDate := startNow;
      endDate := endNow;
      initialCapital := 100000.0;
      symbols := [];
      includeTransactionCosts := false;
      transactionCostPerTrade := 0.0;
      transactionCostPercentage := 0.0;
    }

    method SetStartDate(d: DateTime)
      modifies this
      ensures Snapshot() == old(Snapshot()).(startDate := d)
    {
      startDate := d;
    }

    method SetEndDate(d: DateTime)
      modifies this
      ensures Snapshot() == old(Snapshot()).(endDate := d)
    {
      endDate := d;
    }

    method SetInitialCapital(capital: real)
      modifies this
      ensures Snapshot() == old(Snapshot()).(initialCapital := capital)
    {
      initialCapital := capital;
    }

    method SetSymbols(symbols: seq<string>)
      modifies this
      ensures Snapshot() == old(Snapshot()).(symbols := symbols)
    {
      this.symbols := symbols;
    }

    method SetIncludeTransactionCosts(enabled: bool)
      modifies this
      ensures Snapshot() == old(Snapshot()).(includeTransactionCosts := enabled)
    {
      includeTransactionCosts := enabled;
    }

    method SetTransactionCostPerTrade(cost: real)
      modifies this
      ensures Snapshot() == old(Snapshot()).(transactionCostPerTrade := cost)
    {
      transactionCostPerTrade := cost;
    }

    method SetTransactionCostPercentage(percentage: real)
      modifies this
      ensures Snapshot() == old(Snapshot()).(transactionCostPercentage := percentage)
    {
      transactionCostPercentage := percentage;
    }
  }
}
