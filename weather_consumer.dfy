/**
 * The consumer-side weather model: its defaults and the overwrite performed
 * for every weather message. Temperatures arrive as exact reals; the stored
 * temperature is the message's temperature rounded to the nearest integer,
 * ties to even (Python's `round`).
 */
module WeatherConsumer {

  /** The value of one weather message. */
  datatype WeatherValue = WeatherValue(temperature: real, status: string)

  /** Round to nearest, ties to even. */
  function RoundHalfEven(x: real): (n: int)
    ensures -0.5 <= n as real - x <= 0.5
    ensures (n as real - x == 0.5 || x - n as real == 0.5) ==> n % 2 == 0
  {
    var f := x.Floor;
    var d := x - f as real;
    if d < 0.5 then f
    else if d > 0.5 then f + 1
    else if f % 2 == 0 then f
    else f + 1
  }

  /** The two properties of `RoundHalfEven` single out one integer. */
  lemma RoundHalfEvenUnique(x: real, n: int)
    requires -0.5 <= n as real - x <= 0.5
    requires (n as real - x == 0.5 || x - n as real == 0.5) ==> n % 2 == 0
    ensures n == RoundHalfEven(x)
  {
  }

  /** The model's state. */
  datatype WeatherState = WeatherState(temperature: int, status: string)

  /** The state after processing one message, from any earlier state. */
  function Processed(s: WeatherState, m: WeatherValue): WeatherState {
    WeatherState(RoundHalfEven(m.temperature), m.status)
  }

  /** The state after a sequence of messages. */
  function ProcessedAll(s: WeatherState, ms: seq<WeatherValue>): WeatherState
    decreases |ms|
  {
    if ms == [] then s else ProcessedAll(Processed(s, ms[0]), ms[1..])
  }

  /** Processing the same message twice is processing it once. */
  lemma ProcessIdempotent(s: WeatherState, m: WeatherValue)
    ensures Processed(Processed(s, m), m) == Processed(s, m)
  {
  }

  /** After a non-empty sequence of messages, only the last one matters. */
  lemma {:induction false} LastMessageDecides(s: WeatherState, ms: seq<WeatherValue>)
    requires ms != []
    ensures ProcessedAll(s, ms) == WeatherState(RoundHalfEven(ms[|ms| - 1].temperature), ms[|ms| - 1].status)
    decreases |ms|
  {
    if |ms| > 1 {
      LastMessageDecides(Processed(s, ms[0]), ms[1..]);
    } else {
      assert ms[1..] == [];
    }
  }

  class Weather {
    var temperature: int
    var status: string

    function State(): WeatherState
      reads this
    {
      WeatherState(temperature, status)
    }

    /** A fresh model reads 70 degrees and "sunny". */
    constructor ()
      ensures temperature == 70 && status == "sunny"
    {
      temperature := 70;
      status := "sunny";
    }

    /** Overwrites both fields from the message. */
    method ProcessMessage(value: WeatherValue)
      modifies this
      ensures State() == Processed(old(State()), value)
      ensures -0.5 <= temperature as real - value.temperature <= 0.5
      ensures status == value.status
    {
      temperature := RoundHalfEven(value.temperature);
      status := value.status;
    }
  }
}
