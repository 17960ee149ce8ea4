/** The two read endpoints of the backend API: query results are reshaped
    into the response lists, and nothing is written. */
module QueryApi {
  import opened TimeSeries

  /** One `{timestamp, value}` entry of a metric series; a record without the
      field gives `None` (JSON null). */
  datatype MetricEntry = MetricEntry(timestamp: int, value: Option<Value>)

  /** The `/metrics` response: three parallel series. */
  datatype Metrics = Metrics(cpu: seq<MetricEntry>, memory: seq<MetricEntry>, containers: seq<MetricEntry>)

  /** One entry of the `/alerts` response. */
  datatype AlertEntry = AlertEntry(severity: Option<Value>, message: Option<Value>, timestamp: int, status: Option<Value>)

  /** The entry one record contributes to one series. */
  function EntryOf(r: Record, field: string): MetricEntry
  {
    MetricEntry(r.time, Get(r.values, field))
  }

  function AlertEntryOf(r: Record): AlertEntry
  {
    AlertEntry(Get(r.values, "severity"), Get(r.values, "message"), r.time, Get(r.values, "status"))
  }

  /** `GET /metrics` over the answer to its query: one entry per record in
      each series, in store order, all three taken from the same record. A
      failed query is the server error the endpoint raises. */
  method GetMetrics(result: Result<seq<Table>>) returns (r: Result<Metrics>)
    ensures r.Err? <==> result.Err?
    ensures r.Err? ==> r.error == result.error
    ensures r.Ok? ==>
      var rows := Flatten(result.value);
      && |r.value.cpu| == |rows| == TotalRecords(result.value)
      && |r.value.memory| == |rows|
      && |r.value.containers| == |rows|
      && forall i :: 0 <= i < |rows| ==>
           && r.value.cpu[i] == EntryOf(rows[i], "cpu_usage")
           && r.value.memory[i] == EntryOf(rows[i], "memory_usage")
           && r.value.containers[i] == EntryOf(rows[i], "container_count")
    ensures r.Ok? ==> forall i :: 0 <= i < |r.value.cpu| ==>
      r.value.cpu[i].timestamp == r.value.memory[i].timestamp == r.value.containers[i].timestamp
  {
    if result.Err? {
      return Err(result.error);
    }
    var tables := result.value;
    var cpu: seq<MetricEntry> := [];
    var memory: seq<MetricEntry> := [];
    var containers: seq<MetricEntry> := [];
    ghost var rows: seq<Record> := [];
    var t := 0;
    while t < |tables|
      invariant 0 <= t <= |tables|
      invariant rows == Flatten(tables[..t])
      invariant |cpu| == |rows| && |memory| == |rows| && |containers| == |rows|
      invariant forall i :: 0 <= i < |rows| ==>
        cpu[i] == EntryOf(rows[i], "cpu_usage") && memory[i] == EntryOf(rows[i], "memory_usage") &&
        containers[i] == EntryOf(rows[i], "container_count")
    {
      var records := tables[t].records;
      var k := 0;
      while k < |records|
        invariant 0 <= k <= |records|
        invariant rows == Flatten(tables[..t]) + records[..k]
        invariant |cpu| == |rows| && |memory| == |rows| && |containers| == |rows|
        invariant forall i :: 0 <= i < |rows| ==>
          cpu[i] == EntryOf(rows[i], "cpu_usage") && memory[i] == EntryOf(rows[i], "memory_usage") &&
          containers[i] == EntryOf(rows[i], "container_count")
      {
        var record := records[k];
        cpu := cpu + [EntryOf(record, "cpu_usage")];
        memory := memory + [EntryOf(record, "memory_usage")];
        containers := containers + [EntryOf(record, "container_count")];
        rows := rows + [record];
        assert records[..k + 1] == records[..k] + [record];
        k := k + 1;
      }
      assert records[..k] == records;
      assert tables[..t + 1][..t] == tables[..t];
      t := t + 1;
    }
    assert tables[..t] == tables;
    FlattenLength(tables);
    return Ok(Metrics(cpu, memory, containers));
  }

  /** `GET /alerts` over the answer to its query: one entry per record, in
      store order. */
  method GetAlerts(result: Result<seq<Table>>) returns (r: Result<seq<AlertEntry>>)
    ensures r.Err? <==> result.Err?
    ensures r.Err? ==> r.error == result.error
    ensures r.Ok? ==>
      var rows := Flatten(result.value);
      && |r.value| == |rows| == TotalRecords(result.value)
      && forall i :: 0 <= i < |rows| ==> r.value[i] == AlertEntryOf(rows[i])
  {
    if result.Err? {
      return Err(result.error);
    }
    var tables := result.value;
    var alerts: seq<AlertEntry> := [];
    ghost var rows: seq<Record> := [];
    var t := 0;
    while t < |tables|
      invariant 0 <= t <= |tables|
      invariant rows == Flatten(tables[..t])
      invariant |alerts| == |rows|
      invariant forall i :: 0 <= i < |rows| ==> alerts[i] == AlertEntryOf(rows[i])
    {
      var records := tables[t].records;
      var k := 0;
      while k < |records|
        invariant 0 <= k <= |records|
        invariant rows == Flatten(tables[..t]) + records[..k]
        invariant |alerts| == |rows|
        invariant forall i :: 0 <= i < |rows| ==> alerts[i] == AlertEntryOf(rows[i])
      {
        var record := records[k];
        alerts := alerts + [AlertEntryOf(record)];
        rows := rows + [record];
        assert records[..k + 1] == records[..k] + [record];
        k := k + 1;
      }
      assert records[..k] == records;
      assert tables[..t + 1][..t] == tables[..t];
      t := t + 1;
    }
    assert tables[..t] == tables;
    FlattenLength(tables);
    return Ok(alerts);
  }
}
