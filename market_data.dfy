// core::MarketData: one OHLCV bar of one symbol plus a string-keyed map of
// auxiliary values (implied volatility, risk-free rate, ...).
module MarketDataCore {
  import opened Wrappers
  import opened DateTimes
  import opened TimeSeriesCore

  datatype MarketData = MarketData(
    symbol: string,
    timestamp: DateTime,
    open: real,
    high: real,
    low: real,
    close: real,
    volume: real,
    additional: map<string, real>)

  /** The seven-argument constructor: the fields as given and no auxiliary data. */
  function New(symbol: string, timestamp: DateTime, open: real, high: real, low: real, close: real, volume: real)
    : (d: MarketData)
    ensures d.symbol == symbol && d.timestamp == timestamp && d.close == close && d.volume == volume
    ensures d.open == open && d.high == high && d.low == low
    ensures forall key :: !HasAdditionalData(d, key)
  {
    MarketData(symbol, timestamp, open, high, low, close, volume, map[])
  }

  predicate HasAdditionalData(d: MarketData, key: string)
  {
    key in d.additional
  }

  function GetAdditionalData(d: MarketData, key: string): (r: Result<real>)
    ensures r.Ok? <==> HasAdditionalData(d, key)
    ensures r.Ok? ==> r.value == d.additional[key]
    ensures r.Err? ==> r.error == InvalidArgument
  {
    if key in d.additional then Ok(d.additional[key]) else Err(InvalidArgument)
  }

  /** setAdditionalData: inserts or overwrites one key and nothing else. */
  function SetAdditionalData(d: MarketData, key: string, value: real): (r: MarketData)
    ensures GetAdditionalData(r, key) == Ok(value)
    ensures forall k :: k != key ==> GetAdditionalData(r, k) == GetAdditionalData(d, k)
    ensures forall k :: HasAdditionalData(r, k) <==> k == key || HasAdditionalData(d, k)
    ensures r.(additional := d.additional) == d
  {
    d.(additional := d.additional[key := value])
  }

  predicate IsPriceField(field: string)
  {
    field == "open" || field == "high" || field == "low" || field == "close" || field == "volume"
  }

  function PriceField(d: MarketData, field: string): real
    requires IsPriceField(field)
  {
    if field == "open" then d.open
    else if field == "high" then d.high
    else if field == "low" then d.low
    else if field == "close" then d.close
    else d.volume
  }

  /**
   * extractTimeSeries: one point per record, in input order.  The field name
   * is checked inside the loop, so an unknown field is only reported when
   * there is at least one record.
   */
  method ExtractTimeSeries(data: seq<MarketData>, field: string) returns (r: Result<TimeSeries>)
    ensures r.Ok? <==> |data| == 0 || IsPriceField(field)
    ensures r.Err? ==> r.error == InvalidArgument
    ensures r.Ok? ==> r.value.Wf() && r.value.Size() == |data| && r.value.name == field
    ensures r.Ok? ==> forall i :: 0 <= i < |data| ==>
                        r.value.timestamps[i] == data[i].timestamp && r.value.values[i] == PriceField(data[i], field)
  {
    var timestamps: seq<DateTime> := [];
    var values: seq<real> := [];
    var i := 0;
    while i < |data|
      invariant 0 <= i <= |data|
      invariant i > 0 ==> IsPriceField(field)
      invariant |timestamps| == i && |values| == i
      invariant forall k :: 0 <= k < i ==> timestamps[k] == data[k].timestamp && values[k] == PriceField(data[k], field)
    {
      timestamps := timestamps + [data[i].timestamp];
      if field == "open" {
        values := values + [data[i].open];
      } else if field == "high" {
        values := values + [data[i].high];
      } else if field == "low" {
        values := values + [data[i].low];
      } else if field == "close" {
        values := values + [data[i].close];
      } else if field == "volume" {
        values := values + [data[i].volume];
      } else {
        return Err(InvalidArgument);
      }
      i := i + 1;
    }
    r := Ok(TimeSeries(timestamps, values, field));
  }
}
