/** The time-series store boundary shared by the collector, the alert
    dispatcher and the read API: the points handed to the write API, the
    rows a query hands back, and an append-only store.  The query engine
    itself (ranges, filters, aggregation) is not modelled: a query's answer
    reaches the model as an input. */
module TimeSeries {

  datatype Option<+T> = None | Some(value: T)

  /** The failures that reach a caller of the core. */
  datatype Error =
    | QueryFailed        // the store did not answer a query
    | NoRecord           // a result table was read at a record it does not have
    | SourceUnavailable  // a host or container probe failed

  datatype Result<+T> = Ok(value: T) | Err(error: Error)

  /** A field or column value as the store keeps it. */
  datatype Value = Int(i: int) | Float(f: real) | Str(s: string)

  /** A point as handed to the write API.  None of the core's writers sets a
      time, so the store stamps each point with its write time. */
  datatype Point = Point(measurement: string, tags: map<string, string>, fields: map<string, Value>)

  /** One row of a pivoted query result: its time and its columns. */
  datatype Record = Record(time: int, values: map<string, Value>)

  /** One table of a query result. */
  datatype Table = Table(records: seq<Record>)

  /** `dict.get`: the value under `key`, or None when the key is missing. */
  function Get(values: map<string, Value>, key: string): (r: Option<Value>)
    ensures r.Some? <==> key in values
    ensures r.Some? ==> r.value == values[key]
  {
    if key in values then Some(values[key]) else None
  }

  /** The records of a query result in iteration order: table by table,
      and record by record within a table. */
  function Flatten(tables: seq<Table>): seq<Record>
  {
    if tables == [] then [] else Flatten(tables[..|tables| - 1]) + tables[|tables| - 1].records
  }

  /** The number of records across all tables, counted from the front. */
  function TotalRecords(tables: seq<Table>): nat
  {
    if tables == [] then 0 else |tables[0].records| + TotalRecords(tables[1..])
  }

  lemma {:induction false} FlattenAppend(a: seq<Table>, b: seq<Table>)
    ensures Flatten(a + b) == Flatten(a) + Flatten(b)
  {
    if b == [] {
      assert a + b == a;
    } else {
      var b', last := b[..|b| - 1], b[|b| - 1];
      var ab := a + b;
      assert ab[..|ab| - 1] == a + b' && ab[|ab| - 1] == last;
      assert Flatten(ab) == Flatten(a + b') + last.records;
      FlattenAppend(a, b');
      assert Flatten(b) == Flatten(b') + last.records;
    }
  }

  lemma FlattenSingle(t: Table)
    ensures Flatten([t]) == t.records
  {
  }

  /** The records of table t sit between those of the tables before it and
      those of the tables after it. */
  lemma FlattenSplit(tables: seq<Table>, t: nat)
    requires t < |tables|
    ensures Flatten(tables) == Flatten(tables[..t]) + tables[t].records + Flatten(tables[t + 1..])
  {
    var upto, rest := tables[..t + 1], tables[t + 1..];
    assert upto[..t] == tables[..t] && upto[t] == tables[t];
    assert Flatten(upto) == Flatten(tables[..t]) + tables[t].records;
    assert tables == upto + rest;
    FlattenAppend(upto, rest);
  }

  /** Flattening keeps every record: as many rows as the tables hold. */
  lemma {:induction false} FlattenLength(tables: seq<Table>)
    ensures |Flatten(tables)| == TotalRecords(tables)
  {
    if tables != [] {
      assert tables == [tables[0]] + tables[1..];
      FlattenAppend([tables[0]], tables[1..]);
      FlattenSingle(tables[0]);
      FlattenLength(tables[1..]);
    }
  }

  /** Flattening keeps order: record k of table t sits right after the
      records of the tables before t. */
  lemma FlattenAt(tables: seq<Table>, t: nat, k: nat)
    requires t < |tables| && k < |tables[t].records|
    ensures TotalRecords(tables[..t]) + k < |Flatten(tables)|
    ensures Flatten(tables)[TotalRecords(tables[..t]) + k] == tables[t].records[k]
  {
    FlattenSplit(tables, t);
    FlattenLength(tables[..t]);
    var front := Flatten(tables[..t]) + tables[t].records;
    assert front[|Flatten(tables[..t])| + k] == tables[t].records[k];
  }

  /** The tag columns of a pivoted row. */
  function TagColumns(tags: map<string, string>): (m: map<string, Value>)
    ensures m.Keys == tags.Keys
  {
    map k | k in tags :: Str(tags[k])
  }

  /** The row a pivoting query returns for a point the store stamped with
      `time`: the point's tags and fields side by side, one column each. */
  function Pivot(p: Point, time: int): (r: Record)
    ensures r.time == time
    ensures r.values.Keys == p.tags.Keys + p.fields.Keys
    ensures forall k :: k in p.fields ==> r.values[k] == p.fields[k]
    ensures forall k :: k in p.tags && k !in p.fields ==> r.values[k] == Str(p.tags[k])
  {
    Record(time, TagColumns(p.tags) + p.fields)
  }

  /** The store as the core sees it: the points written so far, in write
      order.  Writes only ever append. */
  class Store {
    var points: seq<Point>

    constructor ()
      ensures points == []
    {
      points := [];
    }

    method Write(p: Point)
      modifies this
      ensures points == old(points) + [p]
    {
      points := points + [p];
    }
  }
}
