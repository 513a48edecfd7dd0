# Public-transport streaming pipeline: verified model of its client-side rules

This project models, in Dafny, the small precise rules inside a pipeline that
produces turnstile and weather events to Kafka and consumes station and
weather updates back:

- **Base consumer** (`consumer.dfy`, module `Consumer`). It chooses
  `auto.offset.reset` from `offset_earliest`. When `offset_earliest` is set,
  its assignment callback rewrites partition offsets to the beginning sentinel
  in place; otherwise the offsets are left as the broker gave them. Either way
  it then assigns the partitions. One poll step returns 1 when `if message:`
  holds (a message with a non-empty value) and 0 otherwise, and as written
  raises when `poll` raises. `consume` drains until a poll step returns 0, then
  sleeps once; an exception from the poll step ends it before the sleep.
  `close` unsubscribes before closing the client. The broker is a queue of poll
  outcomes. Every call on a collaborator is appended to
  a trace: subscribe, assign, poll, handler, sleep, unsubscribe, close.
- **Producer base class** (`producer.dfy`, module `ProducerBase`). The
  class-level `existing_topics` set is an explicit `TopicRegistry` object passed
  to every constructor. That object also records each create-topics request. The
  model states that there is at most one request per distinct name, across any
  sequence of constructions. It also models how admin outcomes are classified.
- **Turnstile producer** (`turnstile.dfy`, module `Turnstile`). It covers
  station-name normalisation, the fixed topic parameters, and `run`, which
  produces exactly `num_entries` records.
- **Stations stream agent** (`faust_stream.dfy`, module `FaustStream`). It covers
  line-colour priority, the per-record transformation, and the table writes of
  the agent loop.
- **Weather, consumer side** (`weather_consumer.dfy`, module `WeatherConsumer`).
  It covers the defaults, and the overwrite with round-half-to-even of the
  temperature.
- **Weather, producer side** (`weather_producer.dfy`, module `WeatherProducer`).
  It covers the season sets, the initial temperature, the status enum, and the
  weather step's mode and clamped increment. The random draws are arbitrary
  functions passed in as parameters.

Three behaviours of the code that are easy to miss:

- A failed topic creation does not fail the producer's construction, and the
  name is recorded anyway (producers/models/producer.py:45-47, 56-64).
- The registry is an unsynchronised set, modelled sequentially.
- A deserialisation, broker or closed-consumer error during a poll does not
  make `_consume` return 0. As written, the poll step raises and `consume` ends (see
  Findings). The consumer class models this code as written; the corrected
  step (`Consumer.PollCount`) and the corrected cycle
  (`Consumer.CorrectedCycleTrace`) are given beside it with their properties.

## Model

| member | source | states |
|---|---|---|
| `ProducerBase.Classify` | producers/models/producer.py:56-64 | Every future outcome is classified, never raised. It is "created" exactly when the future succeeded. It is "already exists" exactly for TOPIC_ALREADY_EXISTS. It is "failed", with the code kept, exactly for any other error. |
| `ProducerBase.ProvisionStep` | producers/models/producer.py:45-47 | One construction keeps the registry invariant: every requested name is recorded and no name is requested twice. It adds exactly its own name to the set. It issues one request if the name was new and none otherwise. |
| `ProducerBase.ProvisionAllOncePerName` | producers/models/producer.py:19-47 | Any sequence of constructions keeps the invariant (at most one create request per name). Earlier requests stay a prefix. The set only grows, by exactly the names asked for. The requested names gain exactly the new names that were not already known. |
| `ProducerBase.TwoProducersOneRequest` | producers/models/producer.py:44-47 | Two constructions for the same name in a fresh process issue one request, carrying the first one's parameters. |
| `ProducerBase.TopicRegistry.constructor` | producers/models/producer.py:19 | The process starts with an empty set of known topics and no requests. |
| `ProducerBase.Producer.constructor` | producers/models/producer.py:21-47 | The fields are copied, with partition and replica counts defaulting to 1. The registry's new state is the provisioning step for (name, partitions, replicas). The name is in the set afterwards, whatever the admin outcome. The outcomes are classified only when the name was new. |
| `ProducerBase.Producer.CreateTopic` | producers/models/producer.py:51-66 | Exactly one request, carrying this producer's name, partition count and replica count, is sent. Every future of the response is classified, in order, and none is raised. |
| `Consumer.OffsetReset` | consumers/consumer.py:35 | The value is "earliest" exactly when `offset_earliest` is set, and "latest" exactly when it is not. |
| `Consumer.BrokerProperties` | consumers/consumer.py:32-40 | The configuration holds the fixed bootstrap servers and group id, plus the offset-reset choice in both directions. The schema-registry URL is present exactly for the Avro client. |
| `Consumer.ApplyOffsetPolicyAt` | consumers/consumer.py:53-55 | The callback's offsets keep their length. Each position becomes the beginning sentinel under "earliest" and keeps the broker's offset otherwise. |
| `Consumer.LatestKeepsOffsets` | consumers/consumer.py:53-55 | Without `offset_earliest`, the whole assignment's offsets are unchanged. |
| `Consumer.EarliestRewindsAll` | consumers/consumer.py:53-55 | With `offset_earliest`, every partition's offset is the beginning sentinel. |
| `Consumer.KafkaConsumer.constructor` | consumers/consumer.py:17-45 | The configuration is `BrokerProperties`, so the offset reset is "earliest" iff `offset_earliest`. The parameters and their defaults are kept. The only call made is the subscription to the pattern. |
| `Consumer.KafkaConsumer.OnAssign` | consumers/consumer.py:48-58 | Every partition object's offset becomes the sentinel under `offset_earliest` and is untouched otherwise. This equals `ApplyOffsetPolicy` on the offsets before. Then `assign` receives the same partitions, in the same order and count. |
| `Consumer.AsWrittenBreaksContractOnError` | consumers/consumer.py:69-89 | As written, every raised poll error makes the step raise instead of returning 0, which breaks the documented contract: a closed consumer (RuntimeError) is logged and then the unbound `message` raises UnboundLocalError; any other error reaches `except KafkaError`, which is not an exception class, and raises TypeError. |
| `Consumer.AsWrittenCrashesExactlyOnErrors` | consumers/consumer.py:77-89 | The step as written raises exactly when `poll` raised; otherwise it keeps the documented contract. |
| `Consumer.PollCount` | consumers/consumer.py:69 | The corrected step result meets the documented contract: 1 for a message with a non-empty value (the one the handler gets) and 0 otherwise. It agrees with the code as written wherever that returns. |
| `Consumer.DrainContinuesIffPollCountIsOne` | consumers/consumer.py:64-65 | The inner loop continues past a pending outcome exactly when the corrected step returns 1 for it. So the drain the model uses is the `while num_results > 0` loop driven by the corrected step. |
| `Consumer.KafkaConsumer.ConsumeOne` | consumers/consumer.py:68-89 | `_consume` as written: one poll is consumed from the broker. The result is 1, and the handler is called once with the message, exactly when `if message:` holds: a message came back and its value is non-empty. It is 0 with no handler call when nothing came back or the message's value is empty, and an escaping UnboundLocalError or TypeError when `poll` raised. |
| `Consumer.DrainCrashAtFirstNonMessage` | consumers/consumer.py:64-89 | The drain ends with an exception exactly when the first outcome after the leading messages is a raised poll, and the exception is UnboundLocalError exactly when that poll raised the closed-consumer RuntimeError. |
| `Consumer.DrainHandlesLeadingMessages` | consumers/consumer.py:62-65 | The inner loop passes the handler exactly the K leading messages of the queue (those before the first outcome that is not a message with a non-empty value), in queue order. It polls K + 1 times, never sleeps, and its last call is a poll. |
| `Consumer.CycleSleepsUnlessPollRaises` | consumers/consumer.py:62-66 | One cycle as written calls the handler with the K leading messages in order, and `_consume` runs K + 1 times. It sleeps exactly once, as its last call, when the drain ended normally. When the drain ended with an exception it never sleeps and its last call is the poll that raised. |
| `Consumer.CorrectedCycleSleepsOnce` | consumers/consumer.py:62-69 | With the step as documented, a cycle always sleeps exactly once, last, after the same drain. It equals the cycle as written when that ends normally, and is the cycle as written plus the missing sleep otherwise. |
| `Consumer.ConsumeStopsAtFirstCrash` | consumers/consumer.py:60-66 | Over n cycles as written, `consume` sleeps n times when no poll raises. When one raises, it has slept fewer than n times and its last call is the poll that raised. |
| `Consumer.RaisedPollSkipsSleep` | consumers/consumer.py:62-89 | A message with a value followed by a closed-consumer error gives poll, handler, poll and no sleep, ending in UnboundLocalError. With an empty value, the drain instead ends at once with a sleep and no handler call, leaving the error pending. A broker or deserialisation error ends the drain with TypeError. |
| `Consumer.DrainEmptiesQueueOfMessages` | consumers/consumer.py:62-65 | With only K messages with non-empty values queued, the drain delivers all K in order, ends without an exception and leaves nothing pending. |
| `Consumer.FiveMessagesThenIdle` | consumers/consumer.py:60-66 | Five queued messages with non-empty values over two cycles give five handler calls in order, seven polls and two sleeps, with no exception and nothing left pending. The run ends with an idle poll followed by a sleep. |
| `Consumer.KafkaConsumer.ConsumeCycle` | consumers/consumer.py:62-66 | The calls made are the drain of the pending outcomes, followed by one sleep of `sleep_secs` unless a poll raised. The exception returned is the drain's, if any. The broker is left with what follows the first non-message. |
| `Consumer.KafkaConsumer.Consume` | consumers/consumer.py:60-66 | Up to `cycles` iterations of the outer loop make exactly the calls of that many successive cycles, stopping after the first cycle whose poll raised. The exception returned and the broker's pending outcomes afterwards are those of that run. |
| `Consumer.KafkaConsumer.Close` | consumers/consumer.py:92-96 | The consumer unsubscribes, then closes the client, and makes no other call. |
| `Turnstile.LowerChar` | producers/models/turnstile.py:23 | Lower-casing leaves no ASCII upper-case letter. It maps 'A'..'Z' to their lower-case letters and keeps every other character. |
| `Turnstile.NormalizeByCharacter` | producers/models/turnstile.py:22-28 | The chain of `lower` and four `replace` calls equals a per-character rewrite. Each '/' becomes "_and_", each ' ' and '-' becomes '_', each quote is deleted, and every other character is lower-cased. |
| `Turnstile.NormalizedIsClean` | producers/models/turnstile.py:22-28 | The normalised name contains no '/', ' ', '-' or quote, and no upper-case ASCII letter. |
| `Turnstile.NormalizedLength` | producers/models/turnstile.py:24-27 | The output length is len + 4·count('/') − count(quote). |
| `Turnstile.NormalizeIdempotent` | producers/models/turnstile.py:22-28 | Normalising an already normalised name changes nothing. |
| `Turnstile.Turnstile.constructor` | producers/models/turnstile.py:20-38 | The turnstile targets "com.udacity.turnstile" with 12 partitions and 1 replica, through the registry's provisioning step. It keeps the station. |
| `Turnstile.Turnstile.Run` | producers/models/turnstile.py:40-52 | Exactly `num_entries` records are appended, and earlier ones are kept. Each goes to the producer's topic and carries the station's id, name and line colour name. |
| `FaustStream.LineByPriority` | consumers/faust_stream.py:51-58 | "red" whenever red is set. "blue" iff red is unset and blue set. "green" iff red and blue are unset and green set. "" iff no flag is set. The result equals the first set flag of the priority list red, blue, green. |
| `FaustStream.Transform` | consumers/faust_stream.py:47-58 | The station id, name and order are copied unchanged, and the line is one of "red", "blue", "green" or "". |
| `FaustStream.TableKeys` | consumers/faust_stream.py:46-59 | After a stream, the table's keys are the old keys plus exactly the stream's station ids. |
| `FaustStream.LastRecordWins` | consumers/faust_stream.py:46-59 | After a stream, each station id maps to the transform of the last record with that id. |
| `FaustStream.OtherKeysUnchanged` | consumers/faust_stream.py:59 | Keys that no record mentions keep their entry, or stay absent. |
| `FaustStream.StationTable.Process` | consumers/faust_stream.py:47-59 | One record overwrites only the entry under its station id, with its transform. Every other entry is unchanged. |
| `FaustStream.StationTable.StationAgent` | consumers/faust_stream.py:44-59 | The agent loop leaves the table equal to the fold of the per-record writes over the stream. |
| `WeatherConsumer.RoundHalfEven` | consumers/models/weather.py:26 | The stored temperature is within 0.5 of the message's temperature, and an exact tie goes to the even integer. |
| `WeatherConsumer.RoundHalfEvenUnique` | consumers/models/weather.py:26 | Those two properties determine the rounded value uniquely. |
| `WeatherConsumer.ProcessIdempotent` | consumers/models/weather.py:24-27 | Processing the same message twice gives the same state as processing it once. |
| `WeatherConsumer.LastMessageDecides` | consumers/models/weather.py:24-27 | After a non-empty sequence of messages, the state is determined by the last message alone. |
| `WeatherConsumer.Weather.constructor` | consumers/models/weather.py:12-15 | A fresh model has temperature 70 and status "sunny". |
| `WeatherConsumer.Weather.ProcessMessage` | consumers/models/weather.py:17-27 | The status becomes the message's status. The temperature becomes the message temperature rounded half to even, so it is within 0.5 of it. Nothing of the old state survives. |
| `WeatherProducer.StatusValue` | producers/models/weather.py:21-23 | Every status has a value in 0..4. |
| `WeatherProducer.StatusNumbering` | producers/models/weather.py:21-23 | The five statuses are numbered 0..4 in declaration order, one-to-one, and `sunny` is 0. |
| `WeatherProducer.SeasonsDisjoint` | producers/models/weather.py:30-31 | The winter and summer month sets are disjoint subsets of 0..11. |
| `WeatherProducer.ModeAgreesWithInitialTemp` | producers/models/weather.py:43-47 | The initial temperature is 40 exactly for winter months and 85 exactly for summer months. The draw's mode, -1, 1 or 0, classifies every month the same way as the initial temperature. |
| `WeatherProducer.Clamp` | producers/models/weather.py:64 | Whatever the draw, the increment lies in [-20, 100]. It equals the draw inside that range and the nearer bound outside it. |
| `WeatherProducer.ClampIsNearest` | producers/models/weather.py:64 | The clamped increment is the point of [-20, 100] nearest to the draw. |
| `WeatherProducer.Weather.constructor` | producers/models/weather.py:33-47 | The weather producer targets "weather_report" with 6 partitions and 2 replicas, through the registry's provisioning step. It starts `sunny` at 40, 85 or 70 degrees by season. |
| `WeatherProducer.Weather.SetWeather` | producers/models/weather.py:57-65 | The temperature moves by the clamped triangular draw on (-10, 10) around the month's mode, so it changes by between -20 and +100. The status is the one chosen from the list of all statuses. |

## Left out

- The client libraries: the Kafka consumer and producer, the Avro consumer and producer, the admin client and Avro (de)serialisation are foreign code. Poll results, admin futures and produce calls are inputs and logs. The Avro/non-Avro choice is modelled only through the configuration it builds.
- A message's value is a string, and the empty string stands for both an empty and an absent (None) value; either makes `if message:` false, because a message's length is its value's length in the client library.
- The message handler is foreign code. A handler call is a trace event. Exceptions the handler raises are not modelled.
- `poll` is modelled as raising one of three errors: a closed consumer (RuntimeError), a `KafkaException` or a `SerializerError`. Other exceptions from `poll` behave like the last two (TypeError at `except KafkaError`) and are not listed separately. Exceptions other than the admin error raised by a creation future are not modelled.
- `Consumer.KafkaConsumer.Consume`: the source's outer loop runs forever unless an exception ends it. The model runs it for at most a given number of cycles, because a verified method must terminate. An escaping exception is returned as a value rather than raised. The asynchronous sleep is a trace event.
- `Consumer.KafkaConsumer.OnAssign`: the `consumer` argument is the consumer's own client. The two log lines are not modelled.
- Concurrency: the registry set is unsynchronised in the source and is modelled sequentially. Concurrent constructions are not covered.
- `Producer.close` and the producer's `flush` are not modelled. They are only a call into the foreign producer.
- `time_millis` depends on the wall clock, and it is defined twice in the source. The timestamp key of turnstile records is therefore not modelled.
- The turnstile hardware's entry count is an input to `Turnstile.Turnstile.Run`. The station class is reduced to its id, name and colour name.
- `Turnstile.LowerChar`: only ASCII letters are lower-cased. Python's full Unicode lower-casing, where some characters change length, is not modelled.
- The normalised station name is computed and then discarded by the source. The model computes it and discards it too.
- Schema file loading, including the lazy class attributes of the weather producer, and all logging are not modelled.
- The weather producer's `run` is not modelled. It is an HTTP call to a REST proxy.
- `random.triangular` and `random.choice` are arbitrary functions passed in as parameters.
- `WeatherConsumer.RoundHalfEven`: temperatures are exact reals. Binary floating-point representation is not modelled.
- The consumer-side temperature starts as the float 70.0 and is an integer after the first message. The model uses the integer 70.
- consumers/ksql.py is not part of this model. It is one HTTP POST of a fixed statement.
- The stream agent's application, topics and table changelog are not modelled. The stream is a finite sequence and the table a map.

## Findings

| source | as written | input that shows it | evidently intended | confidence | as-written member | corrected member |
|---|---|---|---|---|---|---|
| consumers/consumer.py:77-89 | Only RuntimeError is caught: it is logged, `message` stays unbound, and `if message:` raises UnboundLocalError. Any other exception from `poll` (a `KafkaException`, a `SerializerError`) reaches `except KafkaError`; `KafkaError` is the error object a `KafkaException` carries, not an exception class (compare producers/models/producer.py:60-61), so that clause raises TypeError and `SerializerError` is never reached. Either way the exception leaves `_consume` and ends `consume` before its sleep. | Any poll that raises, e.g. a closed consumer | Catch the poll's errors, log them and return 0, as the docstring at line 69 says, so the drain loop goes on to sleep | high; not executed | `Consumer.AsWrittenBreaksContractOnError` | `Consumer.PollCount` |
