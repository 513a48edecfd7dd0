/**
 * The simulated weather producer: season classification of the month, the
 * initial temperature and status, and one weather step with its clamped
 * temperature increment. The random draws are arbitrary functions passed in.
 */
module WeatherProducer {
  import opened ProducerBase

  const WeatherTopic: string := "weather_report"

  /** The five weather statuses, numbered from 0. */
  datatype Status = Sunny | PartlyCloudy | Cloudy | Windy | Precipitation

  function StatusValue(s: Status): (v: int)
    ensures 0 <= v <= 4
  {
    match s
    case Sunny => 0
    case PartlyCloudy => 1
    case Cloudy => 2
    case Windy => 3
    case Precipitation => 4
  }

  /** `list(Weather.status)`: the members in value order. */
  const AllStatuses: seq<Status> := [Sunny, PartlyCloudy, Cloudy, Windy, Precipitation]

  /** The numbering is a bijection between the enum and 0..4, listed in order. */
  lemma StatusNumbering()
    ensures |AllStatuses| == 5
    ensures forall i :: 0 <= i < 5 ==> StatusValue(AllStatuses[i]) == i
    ensures forall s: Status :: AllStatuses[StatusValue(s)] == s
    ensures StatusValue(Sunny) == 0
  {
    forall s: Status ensures AllStatuses[StatusValue(s)] == s {
      match s
      case Sunny =>
      case PartlyCloudy =>
      case Cloudy =>
      case Windy =>
      case Precipitation =>
    }
  }

  const WinterMonths: set<int> := {0, 1, 2, 3, 10, 11}
  const SummerMonths: set<int> := {6, 7, 8}

  lemma SeasonsDisjoint()
    ensures WinterMonths !! SummerMonths
    ensures forall m :: m in WinterMonths + SummerMonths ==> 0 <= m <= 11
  {
  }

  /** The initial temperature chosen from the month. */
  function InitialTemp(month: int): real {
    if month in WinterMonths then 40.0
    else if month in SummerMonths then 85.0
    else 70.0
  }

  /** The mode of the triangular draw chosen from the month. */
  function Mode(month: int): real {
    if month in WinterMonths then -1.0
    else if month in SummerMonths then 1.0
    else 0.0
  }

  /** Mode and initial temperature classify the month the same way. */
  lemma ModeAgreesWithInitialTemp(month: int)
    ensures Mode(month) == -1.0 <==> InitialTemp(month) == 40.0
    ensures Mode(month) == 1.0 <==> InitialTemp(month) == 85.0
    ensures Mode(month) == 0.0 <==> InitialTemp(month) == 70.0
    ensures InitialTemp(month) == 40.0 <==> month in WinterMonths
    ensures InitialTemp(month) == 85.0 <==> month in SummerMonths
    ensures month !in WinterMonths && month !in SummerMonths ==> InitialTemp(month) == 70.0 && Mode(month) == 0.0
  {
  }

  /** `min(max(-20, draw), 100)`: the draw clamped into [-20, 100]. */
  function Clamp(draw: real): (r: real)
    ensures -20.0 <= r <= 100.0
    ensures -20.0 <= draw <= 100.0 ==> r == draw
    ensures draw < -20.0 ==> r == -20.0
    ensures draw > 100.0 ==> r == 100.0
  {
    var lowered := if -20.0 >= draw then -20.0 else draw;
    if lowered <= 100.0 then lowered else 100.0
  }

  /** The clamped increment is the point of [-20, 100] nearest the draw. */
  lemma ClampIsNearest(draw: real, y: real)
    requires -20.0 <= y <= 100.0
    ensures (if Clamp(draw) >= draw then Clamp(draw) - draw else draw - Clamp(draw))
         <= (if y >= draw then y - draw else draw - y)
  {
  }

  class Weather {
    const producer: Producer<Status>
    var status: Status
    var temp: real

    /**
     * Provisions the weather topic with 6 partitions and 2 replicas, starts
     * sunny, and picks the initial temperature from the month.
     */
    constructor (registry: TopicRegistry, month: int, adminResponse: seq<(string, AdminOutcome)>)
      requires registry.Valid()
      modifies registry
      ensures registry.Valid()
      ensures fresh(producer)
      ensures producer.topicName == WeatherTopic
      ensures producer.numPartitions == 6 && producer.numReplicas == 2
      ensures registry.State() == Provision(old(registry.State()), NewTopic(WeatherTopic, 6, 2))
      ensures status == Sunny
      ensures temp == InitialTemp(month)
    {
      producer := new Producer(registry, WeatherTopic, adminResponse, 6, 2);
      status := Sunny;
      temp := 70.0;
      new;
      if month in WinterMonths {
        temp := 40.0;
      } else if month in SummerMonths {
        temp := 85.0;
      }
    }

    /**
     * One weather step: the temperature moves by the clamped triangular draw
     * around the month's mode, and the status is the one chosen from all
     * statuses.
     */
    method SetWeather(month: int, triangular: (real, real, real) -> real, choice: seq<Status> -> Status)
      modifies this
      ensures temp == old(temp) + Clamp(triangular(-10.0, 10.0, Mode(month)))
      ensures old(temp) - 20.0 <= temp <= old(temp) + 100.0
      ensures status == choice(AllStatuses)
    {
      var mode := 0.0;
      if month in WinterMonths {
        mode := -1.0;
      } else if month in SummerMonths {
        mode := 1.0;
      }
      var draw := triangular(-10.0, 10.0, mode);
      temp := temp + Clamp(draw);
      status := choice(AllStatuses);
    }
  }
}
