/** Writers and readers meet in the store: a point written by the alert
    dispatcher or the collection agent, read back through a pivoting query,
    yields the entry the read API is meant to show for it. */
module RoundTrip {
  import opened TimeSeries
  import Alerting
  import MonitoringAgent
  import QueryApi

  /** An `alerts` point read back as a row of `GET /alerts` shows the
      alert's severity name, message and status, and the write time. */
  lemma AlertReadBack(a: Alerting.Alert, time: int)
    ensures QueryApi.AlertEntryOf(Pivot(Alerting.AlertPoint(a), time)) ==
      QueryApi.AlertEntry(Some(Str(a.severity.Name())), Some(Str(a.message)), time, Some(Str(a.status)))
  {
  }

  /** A `system_metrics` point read back as a row of `GET /metrics` puts the
      host's CPU and memory percentages and the container count at the same
      timestamp in the three series. */
  lemma SystemReadBack(s: MonitoringAgent.SystemMetrics, containerCount: int, time: int)
    ensures var row := Pivot(MonitoringAgent.SystemPoint(s, containerCount), time);
      && QueryApi.EntryOf(row, "cpu_usage") == QueryApi.MetricEntry(time, Some(Float(s.cpuUsage)))
      && QueryApi.EntryOf(row, "memory_usage") == QueryApi.MetricEntry(time, Some(Float(s.memoryUsage)))
      && QueryApi.EntryOf(row, "container_count") == QueryApi.MetricEntry(time, Some(Int(containerCount)))
  {
    MonitoringAgent.SystemPointShape(s, containerCount);
  }
}
