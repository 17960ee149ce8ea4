# noc monitoring core in Dafny

This project models the decision and shaping logic of the noc monitoring
stack. It has three parts, which meet in the time-series store.

- **The collection agent** (`monitoring_agent.py`). Each cycle samples the
  host (CPU and memory) and then the container runtime (the listing, then
  each container's stats). It writes one `system_metrics` point, then one
  `container_metrics` point per container in listing order. It then waits
  10 seconds, or 30 after a cycle that raised.
- **The alert manager** (`backend/alert_manager.py`). Two windowed means
  are compared strictly against 90 (CPU, critical) and 85 (memory,
  warning). Each resulting alert is mailed on a best-effort basis and then
  recorded as an `alerts` point. The subject line is
  `[SEVERITY] Monitoring Alert`.
- **The read API** (`backend/main.py`). `GET /metrics` flattens the query's
  tables into three parallel series. `GET /alerts` turns each record into
  a four-field entry.

How the boundaries are modelled:

- The store is a `TimeSeries.Store` class holding the points written so
  far. Writes only append.
- A query's answer reaches the model as an input. For the two read
  endpoints it has type `TimeSeries.Result<seq<Table>>`, whose records
  carry a time and a column map. For the two `mean()` queries of the alert
  rules it has type `Alerting.MeanResult = Result<seq<MeanTable>>`, whose
  records are reduced to their mean as a `real`. A failed query is `Err`.
- The probes (`cpu_percent`, `virtual_memory`, `containers.list`,
  `container.stats`) are inputs that either hold a value or a failure.
- The mail relay is an oracle `Email -> bool` that says whether a session
  succeeds. `Alerting.Mailer` records what the relay accepted.
- The wall clock is a `now` parameter.
- The rendering of a number inside a message is a parameter
  `fmt: real -> string`.
- The agent's endless loop is `MonitoringAgent.RunAgent` run over any
  finite number of cycles.

Files:

- `timeseries.dfy`: points, rows, flattening, pivoting, and the store.
- `alert_manager.dfy`: rule evaluation, subject line, mailer, and the
  alert manager class.
- `query_api.dfy`: the two read endpoints.
- `monitoring_agent.dfy`: sampling, point shaping, one cycle, and the loop.
- `round_trip.dfy`: what the read API shows for a point a writer stored.

## Model

| member | source | states |
|---|---|---|
| TimeSeries.Get | backend/main.py:56 | `dict.get`: Some exactly when the key is present, holding that key's value |
| TimeSeries.FlattenAppend | backend/main.py:52-53 | iterating over two groups of tables yields the first group's records followed by the second's |
| TimeSeries.FlattenLength | backend/main.py:52-53 | the nested iteration visits exactly as many records as the tables hold in total |
| TimeSeries.FlattenSplit | backend/main.py:52-53 | table t's records come after those of every earlier table and before those of every later one |
| TimeSeries.FlattenAt | backend/main.py:52-53 | record k of table t is visited at position (records of earlier tables) + k: table order first, then record order |
| TimeSeries.TagColumns | backend/main.py:42 | pivoting gives each tag one column, and no other columns come from tags |
| TimeSeries.Pivot | backend/main.py:42 | a pivoted row has the write time and one column per tag and per field; field values are unchanged and tag values become strings |
| TimeSeries.Store.Write | monitoring_agent.py:66-69 | a synchronous write appends exactly that point and changes nothing else |
| Alerting.RuleAlertMeaning | backend/alert_manager.py:46-53 | one rule raises exactly when its query fails or a non-empty answer has no record to read, with that error; it alerts exactly when the first record's mean is strictly above the limit, and the alert has the rule's severity, the message for that mean, the time and status active |
| Alerting.EvaluateRaises | backend/alert_manager.py:36-72 | the evaluation succeeds exactly when both rules can be evaluated; otherwise it raises the CPU rule's error first, and the memory rule's error only when the CPU rule evaluated |
| Alerting.EvaluateOrder | backend/alert_manager.py:36-72 | at most two alerts, and when there are two the critical alert comes before the warning |
| Alerting.CpuAlertIff | backend/alert_manager.py:47-53 | a critical alert is present exactly when the CPU answer has a mean strictly above 90, and then it is that rule's alert for that mean |
| Alerting.MemoryAlertIff | backend/alert_manager.py:64-70 | a warning alert is present exactly when the memory answer has a mean strictly above 85, and then it is that rule's alert for that mean |
| Alerting.EmptyResultNoAlert | backend/alert_manager.py:47-64 | an empty answer for one rule neither raises nor alerts; whether the evaluation succeeds, and which alert it gives, is decided by the other rule alone |
| Alerting.AlertsAreActive | backend/alert_manager.py:48-70 | every alert is stamped with the evaluation time and has status active |
| Alerting.AtLimitNoAlert | backend/alert_manager.py:18-20 | means of exactly 90 and 85 give no alert: the comparison is strict |
| Alerting.HighCpuOneAlert | backend/alert_manager.py:47-53 | a CPU mean of 95 with an empty memory answer gives exactly one alert: critical, with message "High CPU usage detected: " + the rendered 95 + "%" |
| Alerting.MessageCarriesValue | backend/alert_manager.py:50 | the message starts with the rule's prefix, and the rendering of the observed value follows it, followed by more text |
| Alerting.Upper | backend/alert_manager.py:83 | upper-casing keeps the length and maps each character on its own |
| Alerting.SubjectLines | backend/alert_manager.py:83 | the subject lines are exactly "[CRITICAL] Monitoring Alert" and "[WARNING] Monitoring Alert" |
| Alerting.EmailSubject | backend/alert_manager.py:83-85 | the mail for an alert goes from the configured sender to the configured recipient, carries the alert's message and time, and has subject "[CRITICAL] Monitoring Alert" for a critical alert and "[WARNING] Monitoring Alert" for a warning |
| Alerting.Mailer.Send | backend/alert_manager.py:87-93 | one relay session: success is what the relay answers, and only an accepted message is delivered |
| Alerting.AlertManager.constructor | backend/alert_manager.py:9-32 | the manager keeps the store, the relay and the mail settings it is given |
| Alerting.AlertManager.CheckThresholds | backend/alert_manager.py:34-72 | the imperative rule check computes exactly the evaluation whose properties the lemmas above state |
| Alerting.AlertManager.SendEmailAlert | backend/alert_manager.py:74-93 | mailing an alert never raises; the relay gains that alert's mail exactly when it accepts it |
| Alerting.AlertManager.Dispatch | backend/alert_manager.py:98-109 | for every alert in order: its mail if accepted, and its point whatever became of the mail |
| Alerting.AlertManager.ProcessAlerts | backend/alert_manager.py:95-109 | an evaluation that raises leaves store and relay unchanged; otherwise the store gains exactly one point per alert, in order, whatever the relay does, and the relay gains the accepted mails in order |
| Alerting.AlertPointsMeaning | backend/alert_manager.py:101-104 | one `alerts` point per alert, in order, tagged with the severity name and carrying message and status as fields |
| Alerting.DeliveredFromAlerts | backend/alert_manager.py:87-99 | no more mails than alerts; every delivered mail was accepted by the relay and is the mail of one of the alerts |
| Alerting.DeliveredComplete | backend/alert_manager.py:87-99 | every alert whose mail the relay accepts has that mail delivered, whatever the relay does with the other alerts' mails |
| Alerting.DeliveredAll | backend/alert_manager.py:98-99 | a relay that accepts everything gets every alert's mail, in order; one that refuses everything gets none |
| Alerting.ProcessAlertsAsWritten | backend/alert_manager.py:101 | as written, the first alert's point raises a NameError: nothing is written, only the first alert's mail can go out, and the loop raises exactly when there is an alert |
| Alerting.MissingPointImportLosesAlert | backend/alert_manager.py:97-101 | a CPU mean of 95 gives one alert: as written it is mailed and never recorded, but the intended loop records it |
| QueryApi.GetMetrics | backend/main.py:35-67 | a failed query is raised unchanged; otherwise the three series each have one entry per record, in the query answer's order (table by table, then record by record), all from the same record (same timestamp); a missing field gives a null value and keeps the entry; nothing is written |
| QueryApi.GetAlerts | backend/main.py:69-90 | a failed query is raised unchanged; otherwise one entry per record, in the query answer's order (table by table, then record by record), with severity, message and status from the record's values (null when missing) and the record's time; nothing is written |
| MonitoringAgent.CollectSystemMetrics | monitoring_agent.py:19-29 | the host sample succeeds exactly when both probes answer, with the CPU probe's failure first; it copies the CPU percentage and the memory percent, total and used unchanged |
| MonitoringAgent.Samples | monitoring_agent.py:37-46 | one sample per listed container, in listing order, each carrying that container's id, name, status and counters |
| MonitoringAgent.CollectDockerMetrics | monitoring_agent.py:31-51 | succeeds exactly when the listing and every container's stats can be read; otherwise it raises the listing's failure, or the failure of the first container whose stats fail; on success the count equals the number of listed containers, which equals the length of the sample list, in listing order |
| MonitoringAgent.SystemPointShape | monitoring_agent.py:59-64 | the host point is an untagged `system_metrics` point with exactly the five fields, carrying the sample and the container count unchanged |
| MonitoringAgent.ContainerPointShape | monitoring_agent.py:73-79 | a `container_metrics` point is tagged with the container's id and name, carries its counters unchanged, and has status 1 exactly when the status is "running", 0 otherwise |
| MonitoringAgent.CyclePointsMeaning | monitoring_agent.py:58-84 | a cycle's writes are the host point first, then container i's point at position 1 + i |
| MonitoringAgent.CycleWritesShape | monitoring_agent.py:53-84 | a cycle writes nothing exactly when a probe raises, including a container probe; otherwise it writes 1 + n points for n listed containers, and the host point's container count is n |
| MonitoringAgent.SendMetricsToInfluxdb | monitoring_agent.py:53-84 | one cycle completes exactly when no probe raises, and the store gains exactly that cycle's points, in write order |
| MonitoringAgent.NextDelay | monitoring_agent.py:87-93 | 10 seconds after a completed cycle, 30 (three collection intervals) after one that raised |
| MonitoringAgent.RunAgent | monitoring_agent.py:86-93 | every cycle runs whatever the previous one did (the loop never exits), each is followed by the delay its outcome picks, and the store gains every cycle's points in cycle order |
| RoundTrip.AlertReadBack | backend/alert_manager.py:101-104 | an alert's point read back through `GET /alerts` shows the alert's severity name, message and status at the write time |
| RoundTrip.SystemReadBack | monitoring_agent.py:59-64 | a host point read back through `GET /metrics` puts its CPU, memory and container count at the same timestamp in the three series |

## Left out

- A record of a `mean()` query is reduced to its mean as a `real` (`Alerting.MeanTable`), without its time or other columns. So a record whose `_value` is null, which would raise a TypeError at the comparison (backend/alert_manager.py:47, 64), cannot be expressed, and the model does not cover that error path.
- The Flux query engine (range windows, filters, `mean()`, `pivot`). Query answers are inputs. `TimeSeries.Pivot` states only the row shape a pivot gives for one stored point.
- The relation between the store's contents and a query's answer. Which stored points fall into a window is the engine's business. `RoundTrip` relates only one point to its row.
- Write failures. The store's write is modelled as always succeeding, so a write that raises mid-loop is not modelled.
- SMTP, STARTTLS, login and MIME encoding, and the body's whitespace layout. The relay is an oracle that accepts or refuses a message. The body's three values are fields of `Alerting.Email`.
- The printed error messages and `time.sleep`. The delay is returned as a number.
- Float formatting of the observed mean; `fmt` stands for it. The `isoformat` rendering of times: alert times are an abstract string and record times an integer.
- The two `datetime.utcnow()` calls in one evaluation are modelled as a single instant `now`.
- `Alerting.UpperChar` maps ASCII letters only. No other character occurs in the two severity names.
- The `container_down` threshold is configured but never checked, so there is no rule for it.
- Environment configuration (URLs, token, org, bucket, SMTP settings). The settings are plain values.
- The host probe's one-second sampling interval.
- `InfluxDBClient` is never imported in `monitoring_agent.py`, so the agent as written stops at load time. The model describes the intended agent. Unlike the missing `Point` import below, there is no cycle behaviour to model for it.
- The endless loop is modelled over any finite number of cycles. It has no exit path, but non-termination itself is not stated.
- The root endpoint (`GET /`), the CORS setup and the server start-up carry no logic.
- `send_metrics_to_influxdb` collects both samples before its first write (monitoring_agent.py:55-56), so a failing container probe means nothing is written in that cycle; the model follows the code.
- A probe that answers with a malformed stats document (a missing key) is modelled as that container's stats failing.

## Findings

| source | as written | input that shows it | evidently intended | confidence | as-written member | corrected member |
|---|---|---|---|---|---|---|
| backend/alert_manager.py:101 | `Point` is used but never imported, so building the first alert's point raises NameError after that alert's mail was sent; no alert is ever recorded, later alerts are not mailed, and the run raises | a CPU mean of 95 with an empty memory answer: one alert, mailed but not written | build and write one `alerts` point per alert after its mail | high, not executed | Alerting.ProcessAlertsAsWritten | Alerting.AlertManager.ProcessAlerts |
