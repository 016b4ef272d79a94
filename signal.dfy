// Signal: a trading decision for one instrument at one time.
module Signals {
  import opened DateTimes

  datatype SignalType = BUY | SELL | HOLD

  datatype Signal = Signal(
    signalType: SignalType,
    strength: real,
    instrumentId: string,
    timestamp: DateTime,
    metadata: map<string, real>)

  /** The default constructor: HOLD, strength 0, no instrument, stamped with the clock time `now`. */
  function DefaultSignal(now: DateTime): (s: Signal)
    ensures s.signalType == HOLD && s.strength == 0.0 && s.instrumentId == "" && s.metadata == map[]
    ensures !IsActionable(s)
  {
    Signal(HOLD, 0.0, "", now, map[])
  }

  /** The four-argument constructor; metadata starts empty. */
  function NewSignal(signalType: SignalType, strength: real, instrumentId: string, timestamp: DateTime): (s: Signal)
    ensures s.signalType == signalType && s.strength == strength && s.instrumentId == instrumentId
    ensures s.timestamp == timestamp && s.metadata == map[]
  {
    Signal(signalType, strength, instrumentId, timestamp, map[])
  }

  predicate IsActionable(s: Signal)
  {
    s.signalType != HOLD && s.strength > 0.0
  }

  /** HOLD never acts whatever its strength; BUY and SELL act exactly when their strength is positive. */
  lemma ActionableCases(s: Signal)
    ensures s.signalType == HOLD ==> !IsActionable(s)
    ensures s.signalType != HOLD ==> (IsActionable(s) <==> s.strength > 0.0)
  {
  }

  function TypeName(t: SignalType): string
  {
    match t
    case BUY => "BUY"
    case SELL => "SELL"
    case HOLD => "HOLD"
  }

  /**
   * toString: "Signal[<type>, <strength>, <id>, <timestamp>]".  How a double
   * is printed is not modelled; `strengthText` is the stream's rendering of
   * the strength.
   */
  function ToText(s: Signal, strengthText: string): string
  {
    "Signal[" + TypeName(s.signalType) + ", " + strengthText + ", " + s.instrumentId + ", "
    + ToString(s.timestamp, FullFormat) + "]"
  }

  /** The text starts with "Signal[" and the type name, and the instrument id follows the strength. */
  lemma ToTextShape(s: Signal, strengthText: string)
    ensures var text := ToText(s, strengthText);
      var n := |TypeName(s.signalType)|;
      var at := 7 + n + 2 + |strengthText| + 2;
      && text[..7] == "Signal["
      && text[7..7 + n] == TypeName(s.signalType)
      && text[at..at + |s.instrumentId|] == s.instrumentId
      && text[|text| - 1] == ']'
  {
    TextLayout(TypeName(s.signalType), strengthText, s.instrumentId, ToString(s.timestamp, FullFormat));
  }

  lemma TextLayout(name: string, strength: string, id: string, stamp: string)
    ensures var text := "Signal[" + name + ", " + strength + ", " + id + ", " + stamp + "]";
      var at := 7 + |name| + 2 + |strength| + 2;
      && text[..7] == "Signal["
      && text[7..7 + |name|] == name
      && text[at..at + |id|] == id
      && text[|text| - 1] == ']'
  {
    var text := "Signal[" + name + ", " + strength + ", " + id + ", " + stamp + "]";
    var head := "Signal[" + name + ", " + strength + ", ";
    var tail := ", " + stamp + "]";
    assert text == head + id + tail;
    assert text[..7] == "Signal[" by { assert text == "Signal[" + (name + ", " + strength + ", " + id + tail); }
    assert text[7..7 + |name|] == name by {
      assert text == "Signal[" + name + (", " + strength + ", " + id + tail);
    }
    assert text[|head|..|head| + |id|] == id;
  }
}
