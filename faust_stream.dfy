/**
 * The stations stream agent: each incoming station record is reduced to a
 * transformed record carrying a single line colour, and written into the
 * stations table under its station id.
 */
module FaustStream {

  /** An incoming station record. */
  datatype Station = Station(
    stopId: int,
    directionId: string,
    stopName: string,
    stationName: string,
    stationDescriptiveName: string,
    stationId: int,
    order: int,
    red: bool,
    blue: bool,
    green: bool)

  /** The record written to the table. */
  datatype TransformedStation = TransformedStation(stationId: int, stationName: string, order: int, line: string)

  /** The line colour: red first, then blue, then green, and "" when no flag is set. */
  function Line(v: Station): string {
    if v.red then "red"
    else if v.blue then "blue"
    else if v.green then "green"
    else ""
  }

  /** Reference definition: the first colour in priority order whose flag is set. */
  function FirstSet(flags: seq<(string, bool)>): (line: string)
    decreases |flags|
  {
    if flags == [] then "" else if flags[0].1 then flags[0].0 else FirstSet(flags[1..])
  }

  function Priority(v: Station): seq<(string, bool)> {
    [("red", v.red), ("blue", v.blue), ("green", v.green)]
  }

  /**
   * The colour chosen: "red" whenever red is set; "blue" exactly when red is
   * unset and blue set; "green" exactly when red and blue are unset and green
   * set; "" exactly when no flag is set. It is the first set flag of the
   * priority list.
   */
  lemma LineByPriority(v: Station)
    ensures Line(v) == "red" <==> v.red
    ensures Line(v) == "blue" <==> !v.red && v.blue
    ensures Line(v) == "green" <==> !v.red && !v.blue && v.green
    ensures Line(v) == "" <==> !v.red && !v.blue && !v.green
    ensures Line(v) == FirstSet(Priority(v))
  {
    var p := Priority(v);
    assert p[1..] == [("blue", v.blue), ("green", v.green)];
    assert p[1..][1..] == [("green", v.green)];
    assert p[1..][1..][1..] == [];
    assert FirstSet(p[1..][1..]) == if v.green then "green" else FirstSet([]);
    assert FirstSet(p[1..]) == if v.blue then "blue" else FirstSet(p[1..][1..]);
  }

  /** The per-record transformation. */
  function Transform(v: Station): (ts: TransformedStation)
    ensures ts.stationId == v.stationId
    ensures ts.stationName == v.stationName
    ensures ts.order == v.order
    ensures ts.line in {"red", "blue", "green", ""}
  {
    TransformedStation(v.stationId, v.stationName, v.order, Line(v))
  }

  /** The table after the records of `stream` were written, in order, into `t`. */
  function TableAfter(t: map<int, TransformedStation>, stream: seq<Station>): map<int, TransformedStation>
    decreases |stream|
  {
    if stream == [] then t
    else
      var last := stream[|stream| - 1];
      TableAfter(t, stream[..|stream| - 1])[last.stationId := Transform(last)]
  }

  /** The ids of the records of a stream. */
  function Ids(stream: seq<Station>): set<int> {
    set i | 0 <= i < |stream| :: stream[i].stationId
  }

  /** The table's keys grow by exactly the ids of the stream. */
  lemma {:induction false} TableKeys(t: map<int, TransformedStation>, stream: seq<Station>)
    ensures TableAfter(t, stream).Keys == t.Keys + Ids(stream)
    decreases |stream|
  {
    if stream != [] {
      var n := |stream| - 1;
      TableKeys(t, stream[..n]);
      assert Ids(stream) == Ids(stream[..n]) + {stream[n].stationId} by {
        forall id | id in Ids(stream) ensures id in Ids(stream[..n]) + {stream[n].stationId} {
          var i :| 0 <= i < |stream| && stream[i].stationId == id;
          if i < n { assert stream[..n][i].stationId == id; }
        }
      }
    }
  }

  /** Each id maps to the transform of the last record with that id. */
  lemma {:induction false} LastRecordWins(t: map<int, TransformedStation>, stream: seq<Station>, i: nat)
    requires i < |stream|
    requires forall j :: i < j < |stream| ==> stream[j].stationId != stream[i].stationId
    ensures stream[i].stationId in TableAfter(t, stream)
    ensures TableAfter(t, stream)[stream[i].stationId] == Transform(stream[i])
    decreases |stream|
  {
    var n := |stream| - 1;
    if i < n {
      LastRecordWins(t, stream[..n], i);
    }
  }

  /** Keys no record of the stream mentions keep their entry, or stay absent. */
  lemma {:induction false} OtherKeysUnchanged(t: map<int, TransformedStation>, stream: seq<Station>, id: int)
    requires forall j :: 0 <= j < |stream| ==> stream[j].stationId != id
    ensures id in TableAfter(t, stream) <==> id in t
    ensures id in t ==> TableAfter(t, stream)[id] == t[id]
    decreases |stream|
  {
    if stream != [] {
      OtherKeysUnchanged(t, stream[..|stream| - 1], id);
    }
  }

  /** The stations table the agent writes into. */
  class StationTable {
    var table: map<int, TransformedStation>

    constructor ()
      ensures table == map[]
    {
      table := map[];
    }

    /** Writes one record: only the entry under its station id changes. */
    method Process(value: Station)
      modifies this
      ensures table == old(table)[value.stationId := Transform(value)]
      ensures forall id :: id in old(table) && id != value.stationId ==> id in table && table[id] == old(table)[id]
    {
      var ts := TransformedStation(value.stationId, value.stationName, value.order, "");
      if value.red {
        ts := ts.(line := "red");
      } else if value.blue {
        ts := ts.(line := "blue");
      } else if value.green {
        ts := ts.(line := "green");
      }
      table := table[value.stationId := ts];
    }

    /** The agent's loop over the stream. */
    method StationAgent(stream: seq<Station>)
      modifies this
      ensures table == TableAfter(old(table), stream)
    {
      for i := 0 to |stream|
        invariant table == TableAfter(old(table), stream[..i])
      {
        Process(stream[i]);
        assert stream[..i + 1][..i] == stream[..i];
      }
      assert stream[..|stream|] == stream;
    }
  }
}
