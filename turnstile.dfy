/**
 * The turnstile producer: station-name normalisation, the fixed topic
 * parameters, and `run`, which produces one record per rider entry.
 *
 * Lower-casing is modelled for ASCII letters only.
 */
module Turnstile {
  import opened ProducerBase

  const TurnstileTopic: string := "com.udacity.turnstile"

  predicate IsAsciiUpper(c: char) {
    'A' <= c <= 'Z'
  }

  /** `str.lower` on one character, ASCII letters only. */
  function LowerChar(c: char): (r: char)
    ensures !IsAsciiUpper(r)
    ensures IsAsciiUpper(c) ==> r as int == c as int + 32
    ensures !IsAsciiUpper(c) ==> r == c
  {
    if IsAsciiUpper(c) then (c as int + 32) as char else c
  }

  /** `str.lower`. */
  function Lower(s: string): string {
    if s == [] then [] else [LowerChar(s[0])] + Lower(s[1..])
  }

  /** `str.replace(c, t)` for a one-character pattern `c`. */
  function Replace(s: string, c: char, t: string): string {
    if s == [] then [] else (if s[0] == c then t else [s[0]]) + Replace(s[1..], c, t)
  }

  /** The chain of `lower` and `replace` calls applied to a station's name. */
  function NormalizeStationName(name: string): string {
    Replace(Replace(Replace(Replace(Lower(name), '/', "_and_"), ' ', "_"), '-', "_"), '\'', "")
  }

  /** Reference definition: what the chain does to each character on its own. */
  function NormalizeChar(c: char): string {
    if c == '/' then "_and_"
    else if c == ' ' || c == '-' then "_"
    else if c == '\'' then ""
    else [LowerChar(c)]
  }

  function NormalizeEach(s: string): string {
    if s == [] then [] else NormalizeChar(s[0]) + NormalizeEach(s[1..])
  }

  /** A character the normalisation leaves as it is. */
  predicate IsClean(c: char) {
    c != '/' && c != ' ' && c != '-' && c != '\'' && !IsAsciiUpper(c)
  }

  /** The number of occurrences of `c` in `s`. */
  function Count(s: string, c: char): nat {
    if s == [] then 0 else (if s[0] == c then 1 else 0) + Count(s[1..], c)
  }

  lemma {:induction false} ReplaceAppend(a: string, b: string, c: char, t: string)
    ensures Replace(a + b, c, t) == Replace(a, c, t) + Replace(b, c, t)
    decreases |a|
  {
    if a == [] {
      assert a + b == b;
    } else {
      ReplaceAppend(a[1..], b, c, t);
      var h := if a[0] == c then t else [a[0]];
      assert (a + b)[0] == a[0];
      assert (a + b)[1..] == a[1..] + b;
      assert Replace(a + b, c, t) == h + Replace(a[1..] + b, c, t);
      assert Replace(a, c, t) == h + Replace(a[1..], c, t);
      assert h + (Replace(a[1..], c, t) + Replace(b, c, t)) == (h + Replace(a[1..], c, t)) + Replace(b, c, t);
    }
  }

  lemma {:induction false} ReplaceAbsent(s: string, c: char, t: string)
    requires forall i :: 0 <= i < |s| ==> s[i] != c
    ensures Replace(s, c, t) == s
    decreases |s|
  {
    if s != [] {
      ReplaceAbsent(s[1..], c, t);
    }
  }

  lemma LowerSingle(c: char)
    ensures Lower([c]) == [LowerChar(c)]
  {
    assert [c][1..] == [];
  }

  lemma ReplaceSingle(x: char, c: char, t: string)
    ensures Replace([x], c, t) == if x == c then t else [x]
  {
    assert [x][1..] == [];
  }

  /** The chain on a '/' (after lower-casing). */
  lemma NormalizeSlash()
    ensures Replace(Replace(Replace(Replace("/", '/', "_and_"), ' ', "_"), '-', "_"), '\'', "") == "_and_"
  {
    var a := "_and_";
    ReplaceSingle('/', '/', a);
    assert forall i :: 0 <= i < |a| ==> a[i] in {'_', 'a', 'n', 'd'} by {
      assert a == ['_', 'a', 'n', 'd', '_'];
    }
    ReplaceAbsent(a, ' ', "_");
    ReplaceAbsent(a, '-', "_");
    ReplaceAbsent(a, '\'', "");
  }

  /** The chain on a ' ' or '-' (after lower-casing). */
  lemma NormalizeSeparator(l: char)
    requires l == ' ' || l == '-'
    ensures Replace(Replace(Replace(Replace([l], '/', "_and_"), ' ', "_"), '-', "_"), '\'', "") == "_"
  {
    ReplaceSingle(l, '/', "_and_");
    ReplaceSingle(l, ' ', "_");
    if l == ' ' {
      ReplaceSingle('_', '-', "_");
    } else {
      ReplaceSingle(l, '-', "_");
    }
    ReplaceSingle('_', '\'', "");
  }

  /** The chain on any other character (after lower-casing): a quote goes, the rest stays. */
  lemma NormalizeOther(l: char)
    requires l != '/' && l != ' ' && l != '-'
    ensures Replace(Replace(Replace(Replace([l], '/', "_and_"), ' ', "_"), '-', "_"), '\'', "")
         == if l == '\'' then "" else [l]
  {
    ReplaceSingle(l, '/', "_and_");
    ReplaceSingle(l, ' ', "_");
    ReplaceSingle(l, '-', "_");
    ReplaceSingle(l, '\'', "");
  }

  /** The chain on a single character. */
  lemma NormalizeOneChar(c: char)
    ensures NormalizeStationName([c]) == NormalizeChar(c)
  {
    var l := LowerChar(c);
    LowerSingle(c);
    if l == '/' {
      NormalizeSlash();
    } else if l == ' ' || l == '-' {
      NormalizeSeparator(l);
    } else {
      NormalizeOther(l);
    }
  }

  /**
   * The chain of replacements equals the per-character rewrite: each '/'
   * becomes "_and_", each ' ' and '-' becomes '_', each quote is deleted and
   * every other character is lower-cased.
   */
  lemma {:induction false} NormalizeByCharacter(s: string)
    ensures NormalizeStationName(s) == NormalizeEach(s)
    decreases |s|
  {
    if s != [] {
      NormalizeByCharacter(s[1..]);
      var head, tail := [s[0]], s[1..];
      assert s == head + tail;
      assert Lower(s) == Lower(head) + Lower(tail) by { assert head[1..] == []; }
      var l0, l1 := Lower(head), Lower(tail);
      ReplaceAppend(l0, l1, '/', "_and_");
      var a0, a1 := Replace(l0, '/', "_and_"), Replace(l1, '/', "_and_");
      ReplaceAppend(a0, a1, ' ', "_");
      var b0, b1 := Replace(a0, ' ', "_"), Replace(a1, ' ', "_");
      ReplaceAppend(b0, b1, '-', "_");
      var c0, c1 := Replace(b0, '-', "_"), Replace(b1, '-', "_");
      ReplaceAppend(c0, c1, '\'', "");
      NormalizeOneChar(s[0]);
    }
  }

  /** The normalised name holds no '/', ' ', '-' or quote, and no upper-case letter. */
  lemma {:induction false} NormalizedIsClean(s: string)
    ensures forall i :: 0 <= i < |NormalizeStationName(s)| ==> IsClean(NormalizeStationName(s)[i])
  {
    NormalizeByCharacter(s);
    EachIsClean(s);
  }

  lemma {:induction false} EachIsClean(s: string)
    ensures forall i :: 0 <= i < |NormalizeEach(s)| ==> IsClean(NormalizeEach(s)[i])
    decreases |s|
  {
    if s != [] {
      EachIsClean(s[1..]);
      var h := NormalizeChar(s[0]);
      assert forall i :: 0 <= i < |h| ==> IsClean(h[i]);
      var r := NormalizeEach(s);
      assert r == h + NormalizeEach(s[1..]);
      forall i | 0 <= i < |r| ensures IsClean(r[i]) {
        if i >= |h| { assert r[i] == NormalizeEach(s[1..])[i - |h|]; }
      }
    }
  }

  /** The output grows by four per '/' and shrinks by one per quote. */
  lemma {:induction false} NormalizedLength(s: string)
    ensures |NormalizeStationName(s)| == |s| + 4 * Count(s, '/') - Count(s, '\'')
  {
    NormalizeByCharacter(s);
    EachLength(s);
  }

  lemma {:induction false} EachLength(s: string)
    ensures |NormalizeEach(s)| == |s| + 4 * Count(s, '/') - Count(s, '\'')
    decreases |s|
  {
    if s != [] {
      EachLength(s[1..]);
    }
  }

  lemma {:induction false} EachKeepsClean(s: string)
    requires forall i :: 0 <= i < |s| ==> IsClean(s[i])
    ensures NormalizeEach(s) == s
    decreases |s|
  {
    if s != [] {
      EachKeepsClean(s[1..]);
      assert IsClean(s[0]);
      assert LowerChar(s[0]) == s[0];
      assert s == [s[0]] + s[1..];
      assert NormalizeChar(s[0]) == [s[0]];
    }
  }

  /** Normalising an already normalised name changes nothing. */
  lemma NormalizeIdempotent(s: string)
    ensures NormalizeStationName(NormalizeStationName(s)) == NormalizeStationName(s)
  {
    var n := NormalizeStationName(s);
    NormalizedIsClean(s);
    NormalizeByCharacter(n);
    EachKeepsClean(n);
  }

  /** The station a turnstile belongs to, as far as the producer reads it. */
  datatype Station = Station(stationId: int, name: string, colorName: string)

  /** The value of one turnstile record. */
  datatype TurnstileValue = TurnstileValue(stationId: int, stationName: string, line: string)

  class Turnstile {
    const producer: Producer<TurnstileValue>
    const station: Station

    /**
     * Normalises the station's name (the result is not kept) and provisions
     * the turnstile topic with 12 partitions and 1 replica.
     */
    constructor (registry: TopicRegistry, station: Station, adminResponse: seq<(string, AdminOutcome)>)
      requires registry.Valid()
      modifies registry
      ensures registry.Valid()
      ensures this.station == station
      ensures fresh(producer)
      ensures producer.topicName == TurnstileTopic
      ensures producer.numPartitions == 12 && producer.numReplicas == 1
      ensures producer.sent == []
      ensures registry.State() == Provision(old(registry.State()), NewTopic(TurnstileTopic, 12, 1))
    {
      var stationName := NormalizeStationName(station.name);
      producer := new Producer(registry, TurnstileTopic, adminResponse, 12, 1);
      this.station := station;
    }

    /** Produces one record per entry counted by the turnstile hardware. */
    method Run(numEntries: nat)
      modifies producer`sent
      ensures |producer.sent| == |old(producer.sent)| + numEntries
      ensures producer.sent[..|old(producer.sent)|] == old(producer.sent)
      ensures forall k :: |old(producer.sent)| <= k < |producer.sent| ==>
                producer.sent[k] == ProduceCall(producer.topicName, TurnstileValue(station.stationId, station.name, station.colorName))
    {
      for i := 0 to numEntries
        invariant |producer.sent| == |old(producer.sent)| + i
        invariant producer.sent[..|old(producer.sent)|] == old(producer.sent)
        invariant forall k :: |old(producer.sent)| <= k < |producer.sent| ==>
                    producer.sent[k] == ProduceCall(producer.topicName, TurnstileValue(station.stationId, station.name, station.colorName))
      {
        producer.Produce(producer.topicName,
                         TurnstileValue(station.stationId, station.name, station.colorName));
      }
    }
  }
}
