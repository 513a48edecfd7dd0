/**
 * The base consumer: the offset-reset choice made at construction, the
 * partition-assignment callback, the single poll step, the drain-then-sleep
 * cycle and the close ordering.
 *
 * The broker client is abstract: `pending` holds what its next polls answer,
 * and every call the consumer makes on its collaborators (subscribe, assign,
 * poll, the message handler, the scheduler's sleep, unsubscribe, close) is
 * appended to `trace`.
 */
module Consumer {

  /** The client library's "beginning of the partition" offset sentinel. */
  const OFFSET_BEGINNING: int := -2

  /** A consumed record; an empty `value` stands for an empty or absent (None) value. */
  datatype Message = Message(topic: string, partition: int, offset: int, value: string)

  /**
   * The exceptions `poll` may raise. Only `RuntimeError` is caught by
   * `_consume`: its next clause names `KafkaError`, the error object a
   * `KafkaException` carries, which is not an exception class, so every
   * other exception reaching that clause turns into a `TypeError` there.
   */
  datatype PollError =
    | ConsumerClosed                        // RuntimeError
    | BrokerFailure(reason: string)         // KafkaException
    | DeserializationError(reason: string)  // SerializerError

  /** What one `poll` does: return a message, return nothing, or raise. */
  datatype PollOutcome = Delivered(msg: Message) | NoMessage | Raised(error: PollError)

  /**
   * `if message:` on what `poll` returned: nothing is false, and so is a
   * message whose value is empty, since a message's length is its value's.
   */
  predicate IsMessage(p: PollOutcome) {
    p.Delivered? && p.msg.value != ""
  }

  /** One call the consumer makes on a collaborator. */
  datatype Event =
    | Subscribed(pattern: string)
    | Assigned(partitions: seq<TopicPartition>)
    | Polled(timeout: real)
    | Handled(msg: Message)
    | Slept(secs: real)
    | Unsubscribed
    | ClientClosed

  /** A partition handed to the assignment callback; its offset is rewritten in place. */
  class TopicPartition {
    const topic: string
    const partition: int
    var offset: int

    constructor (topic: string, partition: int, offset: int)
      ensures this.topic == topic && this.partition == partition && this.offset == offset
    {
      this.topic := topic;
      this.partition := partition;
      this.offset := offset;
    }
  }

  /** The `auto.offset.reset` value chosen from `offset_earliest`. */
  function OffsetReset(offsetEarliest: bool): (s: string)
    ensures s == "earliest" <==> offsetEarliest
    ensures s == "latest" <==> !offsetEarliest
  {
    if offsetEarliest then "earliest" else "latest"
  }

  /** The client configuration built by the constructor. */
  function BrokerProperties(offsetEarliest: bool, isAvro: bool): (props: map<string, string>)
    ensures "bootstrap.servers" in props && props["bootstrap.servers"] == "PLAINTEXT://localhost:9092"
    ensures "group.id" in props && props["group.id"] == "cta"
    ensures "auto.offset.reset" in props
    ensures props["auto.offset.reset"] == "earliest" <==> offsetEarliest
    ensures props["auto.offset.reset"] == "latest" <==> !offsetEarliest
    ensures "schema.registry.url" in props <==> isAvro
    ensures |props.Keys| == if isAvro then 4 else 3
  {
    var base := map["bootstrap.servers" := "PLAINTEXT://localhost:9092",
                     "group.id" := "cta",
                     "auto.offset.reset" := OffsetReset(offsetEarliest)];
    if isAvro then base["schema.registry.url" := "http://localhost:8081"] else base
  }

  /** The offsets of an assignment after the callback, as a function of the offsets before. */
  function ApplyOffsetPolicy(offsets: seq<int>, offsetEarliest: bool): seq<int>
  {
    if offsets == [] then []
    else [if offsetEarliest then OFFSET_BEGINNING else offsets[0]]
         + ApplyOffsetPolicy(offsets[1..], offsetEarliest)
  }

  /** Position by position: the sentinel under "earliest", the broker's offset otherwise. */
  lemma {:induction false} ApplyOffsetPolicyAt(offsets: seq<int>, offsetEarliest: bool, k: nat)
    requires k < |offsets|
    ensures |ApplyOffsetPolicy(offsets, offsetEarliest)| == |offsets|
    ensures ApplyOffsetPolicy(offsets, offsetEarliest)[k] == if offsetEarliest then OFFSET_BEGINNING else offsets[k]
  {
    if k > 0 {
      ApplyOffsetPolicyAt(offsets[1..], offsetEarliest, k - 1);
    } else if |offsets| > 1 {
      ApplyOffsetPolicyAt(offsets[1..], offsetEarliest, 0);
    }
  }

  /** Under "latest" the callback leaves the whole assignment as the broker gave it. */
  lemma {:induction false} LatestKeepsOffsets(offsets: seq<int>)
    ensures ApplyOffsetPolicy(offsets, false) == offsets
  {
    if offsets != [] {
      LatestKeepsOffsets(offsets[1..]);
    }
  }

  /** Under "earliest" every partition starts from the beginning. */
  lemma {:induction false} EarliestRewindsAll(offsets: seq<int>)
    ensures |ApplyOffsetPolicy(offsets, true)| == |offsets|
    ensures forall k :: 0 <= k < |offsets| ==> ApplyOffsetPolicy(offsets, true)[k] == OFFSET_BEGINNING
  {
    if offsets != [] {
      EarliestRewindsAll(offsets[1..]);
    }
  }

  ghost function Offsets(ps: seq<TopicPartition>): seq<int>
    reads ps
  {
    seq(|ps|, i requires 0 <= i < |ps| reads ps => ps[i].offset)
  }


  /** The exception that escapes `_consume` as written when `poll` raises. */
  datatype Crash =
    | UnboundLocalError  // a RuntimeError was logged, then `if message:` reads the unbound local
    | TypeError          // any other exception reaches `except KafkaError`, which is not an exception class

  /** The result of one `_consume` as written: a count, or an exception escaping it. */
  datatype StepResult = Returned(n: int) | Crashed(crash: Crash)

  datatype Option<T> = None | Some(value: T)

  /** `_consume` as written. */
  function ConsumeAsWritten(p: PollOutcome): StepResult {
    match p
    case Delivered(m) => if m.value != "" then Returned(1) else Returned(0)
    case NoMessage => Returned(0)
    case Raised(e) => if e.ConsumerClosed? then Crashed(UnboundLocalError) else Crashed(TypeError)
  }

  /** The documented promise of `_consume`: 1 if a message was received and handled, 0 otherwise. */
  predicate MeetsPollContract(p: PollOutcome, r: StepResult) {
    r == Returned(if IsMessage(p) then 1 else 0)
  }

  /** The code as written breaks the documented promise on every poll error. */
  lemma AsWrittenBreaksContractOnError(e: PollError)
    ensures ConsumeAsWritten(Raised(e)) == if e.ConsumerClosed? then Crashed(UnboundLocalError) else Crashed(TypeError)
    ensures !MeetsPollContract(Raised(e), ConsumeAsWritten(Raised(e)))
  {
  }

  /** The code as written raises exactly when `poll` raised, and keeps the promise otherwise. */
  lemma AsWrittenCrashesExactlyOnErrors(p: PollOutcome)
    ensures ConsumeAsWritten(p).Crashed? <==> p.Raised?
    ensures !p.Raised? ==> MeetsPollContract(p, ConsumeAsWritten(p))
  {
  }

  /** The corrected `_consume` result: errors are logged and count as "no message". */
  function PollCount(p: PollOutcome): (n: int)
    ensures MeetsPollContract(p, Returned(n))
    ensures ConsumeAsWritten(p).Returned? ==> ConsumeAsWritten(p) == Returned(n)
  {
    if IsMessage(p) then 1 else 0
  }

  /** What one `poll` answers given the broker's pending outcomes; nothing pending means no message. */
  function NextOutcome(q: seq<PollOutcome>): PollOutcome {
    if q == [] then NoMessage else q[0]
  }

  /** The inner loop goes on exactly when the corrected step returns 1. */
  lemma DrainContinuesIffPollCountIsOne(q: seq<PollOutcome>)
    ensures (q != [] && IsMessage(q[0])) <==> PollCount(NextOutcome(q)) == 1
  {
  }

  /** The broker's pending outcomes after one `poll`. */
  function AfterPoll(q: seq<PollOutcome>): seq<PollOutcome> {
    if q == [] then [] else q[1..]
  }

  /** The calls one `_consume` makes: the poll, then the handler if a message came back. */
  function StepTrace(p: PollOutcome, timeout: real): seq<Event> {
    if IsMessage(p) then [Polled(timeout), Handled(p.msg)] else [Polled(timeout)]
  }

  /** The calls made by the inner loop of `consume`: poll until a poll yields no message. */
  function DrainTrace(q: seq<PollOutcome>, timeout: real): seq<Event>
    decreases |q|
  {
    if q != [] && IsMessage(q[0]) then StepTrace(q[0], timeout) + DrainTrace(q[1..], timeout)
    else [Polled(timeout)]
  }

  /** The broker's pending outcomes after the inner loop. */
  function AfterDrain(q: seq<PollOutcome>): seq<PollOutcome>
    decreases |q|
  {
    if q != [] && IsMessage(q[0]) then AfterDrain(q[1..]) else AfterPoll(q)
  }

  /** The exception the inner loop ends with as written, if its last poll raised. */
  function DrainCrash(q: seq<PollOutcome>): Option<Crash>
    decreases |q|
  {
    if q != [] && IsMessage(q[0]) then DrainCrash(q[1..])
    else match ConsumeAsWritten(NextOutcome(q))
      case Crashed(c) => Some(c)
      case Returned(_) => None
  }

  /**
   * One iteration of the outer loop of `consume` as written: drain, then
   * sleep once, unless the drain ended with an exception.
   */
  function CycleTrace(q: seq<PollOutcome>, timeout: real, secs: real): seq<Event> {
    DrainTrace(q, timeout) + (if DrainCrash(q).Some? then [] else [Slept(secs)])
  }

  /** `n` iterations of the outer loop; an exception ends `consume` at once. */
  function CyclesTrace(q: seq<PollOutcome>, n: nat, timeout: real, secs: real): seq<Event>
    decreases n
  {
    if n == 0 then []
    else if DrainCrash(q).Some? then CycleTrace(q, timeout, secs)
    else CycleTrace(q, timeout, secs) + CyclesTrace(AfterDrain(q), n - 1, timeout, secs)
  }

  /** The exception that ends `n` iterations of the outer loop, if any. */
  function CyclesCrash(q: seq<PollOutcome>, n: nat): Option<Crash>
    decreases n
  {
    if n == 0 then None
    else if DrainCrash(q).Some? then DrainCrash(q)
    else CyclesCrash(AfterDrain(q), n - 1)
  }

  /** The broker's pending outcomes after `n` iterations of the outer loop. */
  function AfterCycles(q: seq<PollOutcome>, n: nat): seq<PollOutcome>
    decreases n
  {
    if n == 0 then q
    else if DrainCrash(q).Some? then AfterDrain(q)
    else AfterCycles(AfterDrain(q), n - 1)
  }

  /** One corrected cycle: with `PollCount` no poll raises, so the drain is always followed by the sleep. */
  function CorrectedCycleTrace(q: seq<PollOutcome>, timeout: real, secs: real): seq<Event> {
    DrainTrace(q, timeout) + [Slept(secs)]
  }

  /** The messages at the head of the pending outcomes, up to the first non-message. */
  function LeadingMessages(q: seq<PollOutcome>): seq<Message>
    decreases |q|
  {
    if q != [] && IsMessage(q[0]) then [q[0].msg] + LeadingMessages(q[1..]) else []
  }

  /** The messages handed to the handler in a trace, in order. */
  function HandledIn(t: seq<Event>): seq<Message>
    decreases |t|
  {
    if t == [] then [] else (if t[0].Handled? then [t[0].msg] else []) + HandledIn(t[1..])
  }

  /** The number of polls in a trace. */
  function PollsIn(t: seq<Event>): nat
    decreases |t|
  {
    if t == [] then 0 else (if t[0].Polled? then 1 else 0) + PollsIn(t[1..])
  }

  /** The number of sleeps in a trace. */
  function SleepsIn(t: seq<Event>): nat
    decreases |t|
  {
    if t == [] then 0 else (if t[0].Slept? then 1 else 0) + SleepsIn(t[1..])
  }

  lemma {:induction false} CountsDistribute(a: seq<Event>, b: seq<Event>)
    ensures HandledIn(a + b) == HandledIn(a) + HandledIn(b)
    ensures PollsIn(a + b) == PollsIn(a) + PollsIn(b)
    ensures SleepsIn(a + b) == SleepsIn(a) + SleepsIn(b)
    decreases |a|
  {
    if a != [] {
      CountsDistribute(a[1..], b);
      assert (a + b)[1..] == a[1..] + b;
    } else {
      assert a + b == b;
    }
  }

  /**
   * The drain ends with an exception exactly when the first outcome after the
   * leading messages is a raised poll: UnboundLocalError for a closed
   * consumer, TypeError for any other error.
   */
  lemma {:induction false} DrainCrashAtFirstNonMessage(q: seq<PollOutcome>)
    ensures |LeadingMessages(q)| <= |q|
    ensures DrainCrash(q).Some? <==> |LeadingMessages(q)| < |q| && q[|LeadingMessages(q)|].Raised?
    ensures DrainCrash(q) == Some(UnboundLocalError) <==>
              |LeadingMessages(q)| < |q| && q[|LeadingMessages(q)|] == Raised(ConsumerClosed)
    decreases |q|
  {
    if q != [] && IsMessage(q[0]) {
      DrainCrashAtFirstNonMessage(q[1..]);
      assert |LeadingMessages(q)| == |LeadingMessages(q[1..])| + 1;
      if |LeadingMessages(q)| < |q| {
        assert q[1..][|LeadingMessages(q[1..])|] == q[|LeadingMessages(q)|];
      }
    }
  }

  /**
   * One drain with K leading messages hands exactly those K messages to the
   * handler, in queue order, polls K + 1 times, never sleeps, and ends with a poll.
   */
  lemma {:induction false} DrainHandlesLeadingMessages(q: seq<PollOutcome>, timeout: real)
    ensures HandledIn(DrainTrace(q, timeout)) == LeadingMessages(q)
    ensures PollsIn(DrainTrace(q, timeout)) == |LeadingMessages(q)| + 1
    ensures SleepsIn(DrainTrace(q, timeout)) == 0
    ensures |DrainTrace(q, timeout)| > 0 && DrainTrace(q, timeout)[|DrainTrace(q, timeout)| - 1] == Polled(timeout)
    decreases |q|
  {
    var t := DrainTrace(q, timeout);
    if q != [] && IsMessage(q[0]) {
      DrainHandlesLeadingMessages(q[1..], timeout);
      var head := [Polled(timeout), Handled(q[0].msg)];
      CountsDistribute(head, DrainTrace(q[1..], timeout));
      assert HandledIn(head) == [q[0].msg] by {
        assert head[1..] == [Handled(q[0].msg)];
        assert head[1..][1..] == [];
      }
      assert PollsIn(head) == 1 && SleepsIn(head) == 0 by {
        assert head[1..] == [Handled(q[0].msg)];
        assert head[1..][1..] == [];
      }
    } else {
      assert t == [Polled(timeout)];
      assert t[1..] == [];
    }
  }

  /**
   * One cycle of `consume` as written: the handler sees the K leading messages
   * in order and `_consume` runs K + 1 times. The cycle sleeps once, last,
   * when the drain ended normally; when it ended with an exception it never
   * sleeps and its last call is the poll that raised.
   */
  lemma CycleSleepsUnlessPollRaises(q: seq<PollOutcome>, timeout: real, secs: real)
    ensures HandledIn(CycleTrace(q, timeout, secs)) == LeadingMessages(q)
    ensures PollsIn(CycleTrace(q, timeout, secs)) == |LeadingMessages(q)| + 1
    ensures SleepsIn(CycleTrace(q, timeout, secs)) == if DrainCrash(q).None? then 1 else 0
    ensures |CycleTrace(q, timeout, secs)| > 0
    ensures CycleTrace(q, timeout, secs)[|CycleTrace(q, timeout, secs)| - 1]
         == if DrainCrash(q).None? then Slept(secs) else Polled(timeout)
  {
    DrainHandlesLeadingMessages(q, timeout);
    if DrainCrash(q).None? {
      CountsDistribute(DrainTrace(q, timeout), [Slept(secs)]);
      assert [Slept(secs)][1..] == [];
    } else {
      assert CycleTrace(q, timeout, secs) == DrainTrace(q, timeout);
    }
  }

  /**
   * The corrected cycle sleeps exactly once, last, after the same drain. It
   * is the cycle as written whenever that ends normally, and the cycle as
   * written plus the missing sleep otherwise.
   */
  lemma CorrectedCycleSleepsOnce(q: seq<PollOutcome>, timeout: real, secs: real)
    ensures HandledIn(CorrectedCycleTrace(q, timeout, secs)) == LeadingMessages(q)
    ensures PollsIn(CorrectedCycleTrace(q, timeout, secs)) == |LeadingMessages(q)| + 1
    ensures SleepsIn(CorrectedCycleTrace(q, timeout, secs)) == 1
    ensures CorrectedCycleTrace(q, timeout, secs)[|CorrectedCycleTrace(q, timeout, secs)| - 1] == Slept(secs)
    ensures DrainCrash(q).None? ==> CorrectedCycleTrace(q, timeout, secs) == CycleTrace(q, timeout, secs)
    ensures DrainCrash(q).Some? ==> CorrectedCycleTrace(q, timeout, secs) == CycleTrace(q, timeout, secs) + [Slept(secs)]
  {
    DrainHandlesLeadingMessages(q, timeout);
    CountsDistribute(DrainTrace(q, timeout), [Slept(secs)]);
    assert [Slept(secs)][1..] == [];
  }

  /**
   * Over `n` iterations of the outer loop as written: without an exception
   * `consume` sleeps once per cycle; with one it has slept fewer than `n`
   * times and its last call is the poll that raised.
   */
  lemma {:induction false} ConsumeStopsAtFirstCrash(q: seq<PollOutcome>, n: nat, timeout: real, secs: real)
    ensures CyclesCrash(q, n).None? ==> SleepsIn(CyclesTrace(q, n, timeout, secs)) == n
    ensures CyclesCrash(q, n).Some? ==>
              && SleepsIn(CyclesTrace(q, n, timeout, secs)) < n
              && |CyclesTrace(q, n, timeout, secs)| > 0
              && CyclesTrace(q, n, timeout, secs)[|CyclesTrace(q, n, timeout, secs)| - 1] == Polled(timeout)
    decreases n
  {
    if n > 0 {
      CycleSleepsUnlessPollRaises(q, timeout, secs);
      if DrainCrash(q).None? {
        ConsumeStopsAtFirstCrash(AfterDrain(q), n - 1, timeout, secs);
        CountsDistribute(CycleTrace(q, timeout, secs), CyclesTrace(AfterDrain(q), n - 1, timeout, secs));
      }
    }
  }

  /**
   * A message followed by a closed-consumer error. With a value, the handler
   * runs, the next poll raises UnboundLocalError and no sleep follows. With an
   * empty value, `if message:` is false: the drain ends at once and sleeps,
   * and the error is still pending. Other errors end the drain with TypeError.
   */
  lemma RaisedPollSkipsSleep(m: Message, reason: string, timeout: real, secs: real)
    ensures m.value != "" ==>
              && CycleTrace([Delivered(m), Raised(ConsumerClosed)], timeout, secs) == [Polled(timeout), Handled(m), Polled(timeout)]
              && DrainCrash([Delivered(m), Raised(ConsumerClosed)]) == Some(UnboundLocalError)
    ensures m.value == "" ==>
              && CycleTrace([Delivered(m), Raised(ConsumerClosed)], timeout, secs) == [Polled(timeout), Slept(secs)]
              && DrainCrash([Delivered(m), Raised(ConsumerClosed)]) == None
              && AfterDrain([Delivered(m), Raised(ConsumerClosed)]) == [Raised(ConsumerClosed)]
    ensures DrainCrash([Raised(BrokerFailure(reason))]) == Some(TypeError)
    ensures DrainCrash([Raised(DeserializationError(reason))]) == Some(TypeError)
  {
    var q := [Delivered(m), Raised(ConsumerClosed)];
    assert q[1..] == [Raised(ConsumerClosed)];
    assert DrainCrash(q[1..]) == Some(UnboundLocalError);
    assert DrainTrace(q[1..], timeout) == [Polled(timeout)];
  }

  /** With K messages queued and nothing else, one drain hands all K over, ends normally and empties the queue. */
  lemma {:induction false} DrainEmptiesQueueOfMessages(q: seq<PollOutcome>)
    requires forall i :: 0 <= i < |q| ==> q[i].Delivered? && q[i].msg.value != ""
    ensures |LeadingMessages(q)| == |q|
    ensures forall i :: 0 <= i < |q| ==> LeadingMessages(q)[i] == q[i].msg
    ensures AfterDrain(q) == []
    ensures DrainCrash(q) == None
    decreases |q|
  {
    if q != [] {
      DrainEmptiesQueueOfMessages(q[1..]);
    }
  }

  /**
   * Five messages queued, two cycles: five handler calls in queue order, a
   * sleep, then one idle poll and a second sleep, and nothing left pending.
   */
  lemma FiveMessagesThenIdle(ms: seq<Message>, timeout: real, secs: real)
    requires |ms| == 5
    requires forall i :: 0 <= i < 5 ==> ms[i].value != ""
    ensures var q := seq(5, i requires 0 <= i < 5 => Delivered(ms[i]));
            var t := CyclesTrace(q, 2, timeout, secs);
            && HandledIn(t) == ms
            && PollsIn(t) == 7
            && SleepsIn(t) == 2
            && t[|t| - 2..] == [Polled(timeout), Slept(secs)]
            && CyclesCrash(q, 2) == None
            && AfterCycles(q, 2) == []
  {
    var q := seq(5, i requires 0 <= i < 5 => Delivered(ms[i]));
    DrainEmptiesQueueOfMessages(q);
    assert LeadingMessages(q) == ms;
    CycleSleepsUnlessPollRaises(q, timeout, secs);
    CycleSleepsUnlessPollRaises([], timeout, secs);
    assert DrainCrash([]) == None;
    assert CycleTrace([], timeout, secs) == [Polled(timeout), Slept(secs)];
    assert CyclesTrace([], 0, timeout, secs) == [];
    var c1 := CycleTrace(q, timeout, secs);
    var c2 := CycleTrace([], timeout, secs);
    assert CyclesTrace(q, 2, timeout, secs) == c1 + c2;
    CountsDistribute(c1, c2);
  }

  /** The base consumer. */
  class KafkaConsumer {
    const topicNamePattern: string
    const offsetEarliest: bool
    const isAvro: bool
    const sleepSecs: real
    const consumeTimeout: real
    const brokerProperties: map<string, string>
    var pending: seq<PollOutcome>
    var trace: seq<Event>

    /** Builds the client configuration and subscribes to the topic pattern. */
    constructor (topicNamePattern: string, broker: seq<PollOutcome>, isAvro: bool := true,
                 offsetEarliest: bool := false, sleepSecs: real := 1.0, consumeTimeout: real := 0.1)
      ensures this.topicNamePattern == topicNamePattern && this.offsetEarliest == offsetEarliest
      ensures this.isAvro == isAvro && this.sleepSecs == sleepSecs && this.consumeTimeout == consumeTimeout
      ensures brokerProperties == BrokerProperties(offsetEarliest, isAvro)
      ensures brokerProperties["auto.offset.reset"] == if offsetEarliest then "earliest" else "latest"
      ensures pending == broker
      ensures trace == [Subscribed(topicNamePattern)]
    {
      this.topicNamePattern := topicNamePattern;
      this.offsetEarliest := offsetEarliest;
      this.isAvro := isAvro;
      this.sleepSecs := sleepSecs;
      this.consumeTimeout := consumeTimeout;
      brokerProperties := BrokerProperties(offsetEarliest, isAvro);
      pending := broker;
      trace := [Subscribed(topicNamePattern)];
    }

    /**
     * The assignment callback: under `offset_earliest` every partition's
     * offset becomes the beginning sentinel; then the same partitions, in the
     * same order, are handed to `assign`.
     */
    method OnAssign(partitions: seq<TopicPartition>)
      modifies partitions, this`trace
      ensures forall k :: 0 <= k < |partitions| ==>
                partitions[k].offset == if offsetEarliest then OFFSET_BEGINNING else old(partitions[k].offset)
      ensures Offsets(partitions) == ApplyOffsetPolicy(old(Offsets(partitions)), offsetEarliest)
      ensures trace == old(trace) + [Assigned(partitions)]
    {
      for i := 0 to |partitions|
        invariant offsetEarliest ==> forall k :: 0 <= k < i ==> partitions[k].offset == OFFSET_BEGINNING
        invariant !offsetEarliest ==> forall k :: 0 <= k < |partitions| ==> partitions[k].offset == old(partitions[k].offset)
        invariant trace == old(trace)
      {
        if offsetEarliest {
          partitions[i].offset := OFFSET_BEGINNING;
        }
      }
      trace := trace + [Assigned(partitions)];
      ghost var before := old(Offsets(partitions));
      if |partitions| == 0 {
        assert before == [];
      } else {
        ApplyOffsetPolicyAt(before, offsetEarliest, 0);
        forall k | 0 <= k < |partitions|
          ensures Offsets(partitions)[k] == ApplyOffsetPolicy(before, offsetEarliest)[k]
        {
          ApplyOffsetPolicyAt(before, offsetEarliest, k);
        }
      }
    }

    /**
     * `_consume` as written: one poll; the handler is called with the message
     * if one came back. The result is 1 for a message and 0 for none; a raised
     * poll makes the step raise.
     */
    method ConsumeOne() returns (r: StepResult)
      modifies this`pending, this`trace
      ensures r == ConsumeAsWritten(NextOutcome(old(pending)))
      ensures pending == AfterPoll(old(pending))
      ensures trace == old(trace) + StepTrace(NextOutcome(old(pending)), consumeTimeout)
    {
      var outcome := NextOutcome(pending);
      pending := AfterPoll(pending);
      trace := trace + [Polled(consumeTimeout)];
      match outcome
      case Delivered(message) =>
        if message.value != "" {
          trace := trace + [Handled(message)];
          r := Returned(1);
        } else {
          r := Returned(0);
        }
      case NoMessage =>
        r := Returned(0);
      case Raised(e) =>
        if e.ConsumerClosed? {
          r := Crashed(UnboundLocalError);
        } else {
          r := Crashed(TypeError);
        }
    }

    /**
     * One iteration of the outer loop of `consume`: drain while messages come
     * back, then sleep. An exception from `_consume` ends the iteration
     * before the sleep and is returned.
     */
    method ConsumeCycle() returns (crash: Option<Crash>)
      modifies this`pending, this`trace
      ensures crash == DrainCrash(old(pending))
      ensures trace == old(trace) + CycleTrace(old(pending), consumeTimeout, sleepSecs)
      ensures pending == AfterDrain(old(pending))
    {
      var numResults := 1;
      while numResults > 0
        invariant numResults == 0 || numResults == 1
        invariant numResults == 1 ==> old(trace) + DrainTrace(old(pending), consumeTimeout) == trace + DrainTrace(pending, consumeTimeout)
        invariant numResults == 1 ==> AfterDrain(pending) == AfterDrain(old(pending))
        invariant numResults == 1 ==> DrainCrash(pending) == DrainCrash(old(pending))
        invariant numResults == 0 ==> trace == old(trace) + DrainTrace(old(pending), consumeTimeout)
        invariant numResults == 0 ==> pending == AfterDrain(old(pending))
        invariant numResults == 0 ==> DrainCrash(old(pending)) == None
        decreases |pending| + numResults
      {
        var step := ConsumeOne();
        if step.Crashed? {
          return Some(step.crash);
        }
        numResults := step.n;
      }
      trace := trace + [Slept(sleepSecs)];
      return None;
    }

    /** `consume` run for at most `cycles` iterations of its outer loop; an exception ends it. */
    method Consume(cycles: nat) returns (crash: Option<Crash>)
      modifies this`pending, this`trace
      ensures crash == CyclesCrash(old(pending), cycles)
      ensures trace == old(trace) + CyclesTrace(old(pending), cycles, consumeTimeout, sleepSecs)
      ensures pending == AfterCycles(old(pending), cycles)
    {
      var done := 0;
      while done < cycles
        invariant 0 <= done <= cycles
        invariant old(trace) + CyclesTrace(old(pending), cycles, consumeTimeout, sleepSecs)
               == trace + CyclesTrace(pending, cycles - done, consumeTimeout, sleepSecs)
        invariant AfterCycles(pending, cycles - done) == AfterCycles(old(pending), cycles)
        invariant CyclesCrash(pending, cycles - done) == CyclesCrash(old(pending), cycles)
      {
        crash := ConsumeCycle();
        if crash.Some? {
          return;
        }
        done := done + 1;
      }
      crash := None;
    }

    /** Unsubscribes first, then closes the client. */
    method Close()
      modifies this`trace
      ensures trace == old(trace) + [Unsubscribed, ClientClosed]
    {
      trace := trace + [Unsubscribed];
      trace := trace + [ClientClosed];
    }
  }
}
