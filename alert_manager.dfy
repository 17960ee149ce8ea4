/** The threshold evaluator and the alert dispatcher of the backend's
    `AlertManager`: two windowed means become zero, one or two alerts, and
    each alert is mailed (best effort) and then persisted as an `alerts`
    point. */
module Alerting {
  import opened TimeSeries

  datatype Severity = Warning | Critical {
    function Name(): string
    {
      match this
      case Warning => "warning"
      case Critical => "critical"
    }
  }

  const ACTIVE: string := "active"

  /** The configured limits; the evaluation is a strict greater-than. */
  const CPU_THRESHOLD: real := 90.0
  const MEMORY_THRESHOLD: real := 85.0

  const CPU_MESSAGE: string := "High CPU usage detected: "
  const MEMORY_MESSAGE: string := "High Memory usage detected: "

  datatype Alert = Alert(severity: Severity, message: string, timestamp: string, status: string)

  /** One table of a `mean()` query: the values of its records. */
  datatype MeanTable = MeanTable(values: seq<real>)

  /** The answer to one rule's query, or the query's failure. */
  type MeanResult = Result<seq<MeanTable>>

  /** The message for an observed value; `fmt` renders the number. */
  function Message(prefix: string, fmt: real -> string, observed: real): string
  {
    prefix + fmt(observed) + "%"
  }

  /** The observed mean can be read: the first table has a first record. */
  predicate HasMean(result: MeanResult)
  {
    result.Ok? && |result.value| > 0 && |result.value[0].values| > 0
  }

  function Mean(result: MeanResult): real
    requires HasMean(result)
  {
    result.value[0].values[0]
  }

  /** The rule can be evaluated without raising: the query answered, and a
      non-empty answer has a record to read. */
  predicate RuleEvaluates(result: MeanResult)
  {
    result.Ok? && (|result.value| == 0 || |result.value[0].values| > 0)
  }

  predicate Fires(result: MeanResult, limit: real)
  {
    HasMean(result) && Mean(result) > limit
  }

  /** One rule: an empty answer is no alert; otherwise the first record of
      the first table is compared against the limit. */
  function RuleAlert(result: MeanResult, limit: real, severity: Severity, prefix: string,
                     now: string, fmt: real -> string): Result<Option<Alert>>
  {
    match result
    case Err(e) => Err(e)
    case Ok(tables) =>
      if |tables| == 0 then Ok(None)
      else if |tables[0].values| == 0 then Err(NoRecord)
      else if tables[0].values[0] > limit then
        Ok(Some(Alert(severity, Message(prefix, fmt, tables[0].values[0]), now, ACTIVE)))
      else Ok(None)
  }

  /** The exception a rule raises when it cannot be evaluated. */
  function RuleError(result: MeanResult): Error
  {
    if result.Err? then result.error else NoRecord
  }

  function Listed(a: Option<Alert>): seq<Alert>
  {
    if a.Some? then [a.value] else []
  }

  /** The evaluation of both rules, CPU first; the first rule that raises
      ends the evaluation. */
  function Evaluate(cpu: MeanResult, memory: MeanResult, now: string, fmt: real -> string): Result<seq<Alert>>
  {
    match RuleAlert(cpu, CPU_THRESHOLD, Critical, CPU_MESSAGE, now, fmt)
    case Err(e) => Err(e)
    case Ok(c) =>
      match RuleAlert(memory, MEMORY_THRESHOLD, Warning, MEMORY_MESSAGE, now, fmt)
      case Err(e) => Err(e)
      case Ok(m) => Ok(Listed(c) + Listed(m))
  }

  /** What one rule yields: no exception exactly when it can be evaluated,
      and then an alert exactly when the mean is above the limit. */
  lemma RuleAlertMeaning(result: MeanResult, limit: real, severity: Severity, prefix: string,
                         now: string, fmt: real -> string)
    ensures var r := RuleAlert(result, limit, severity, prefix, now, fmt);
      && (r.Ok? <==> RuleEvaluates(result))
      && (r.Err? ==> r.error == RuleError(result))
      && (r.Ok? ==> (r.value.Some? <==> Fires(result, limit)))
      && (r.Ok? && r.value.Some? ==> r.value.value == Alert(severity, Message(prefix, fmt, Mean(result)), now, ACTIVE))
  {
  }

  /** The evaluation raises exactly when one of the rules cannot be
      evaluated, and then raises the CPU rule's exception first. */
  lemma EvaluateRaises(cpu: MeanResult, memory: MeanResult, now: string, fmt: real -> string)
    ensures var r := Evaluate(cpu, memory, now, fmt);
      && (r.Ok? <==> RuleEvaluates(cpu) && RuleEvaluates(memory))
      && (r.Err? ==> r.error == if RuleEvaluates(cpu) then RuleError(memory) else RuleError(cpu))
  {
    RuleAlertMeaning(cpu, CPU_THRESHOLD, Critical, CPU_MESSAGE, now, fmt);
    RuleAlertMeaning(memory, MEMORY_THRESHOLD, Warning, MEMORY_MESSAGE, now, fmt);
  }

  /** At most two alerts, and a CPU alert always precedes a memory alert. */
  lemma EvaluateOrder(cpu: MeanResult, memory: MeanResult, now: string, fmt: real -> string)
    ensures var r := Evaluate(cpu, memory, now, fmt);
      r.Ok? ==> && |r.value| <= 2
                && forall i, j :: 0 <= i < j < |r.value| ==>
                     r.value[i].severity == Critical && r.value[j].severity == Warning
  {
    RuleAlertMeaning(cpu, CPU_THRESHOLD, Critical, CPU_MESSAGE, now, fmt);
    RuleAlertMeaning(memory, MEMORY_THRESHOLD, Warning, MEMORY_MESSAGE, now, fmt);
  }

  /** A critical alert is raised exactly when the CPU mean is known and
      strictly above 90, and then it is the CPU rule's alert. */
  lemma CpuAlertIff(cpu: MeanResult, memory: MeanResult, now: string, fmt: real -> string)
    ensures var r := Evaluate(cpu, memory, now, fmt);
      r.Ok? ==> && ((exists i :: 0 <= i < |r.value| && r.value[i].severity == Critical)
                    <==> Fires(cpu, CPU_THRESHOLD))
                && forall i :: 0 <= i < |r.value| && r.value[i].severity == Critical ==>
                     r.value[i] == Alert(Critical, Message(CPU_MESSAGE, fmt, Mean(cpu)), now, ACTIVE)
  {
    RuleAlertMeaning(cpu, CPU_THRESHOLD, Critical, CPU_MESSAGE, now, fmt);
    RuleAlertMeaning(memory, MEMORY_THRESHOLD, Warning, MEMORY_MESSAGE, now, fmt);
    var r := Evaluate(cpu, memory, now, fmt);
    if r.Ok? && Fires(cpu, CPU_THRESHOLD) {
      assert r.value[0].severity == Critical;
    }
  }

  /** A warning alert is raised exactly when the memory mean is known and
      strictly above 85, and then it is the memory rule's alert. */
  lemma MemoryAlertIff(cpu: MeanResult, memory: MeanResult, now: string, fmt: real -> string)
    ensures var r := Evaluate(cpu, memory, now, fmt);
      r.Ok? ==> && ((exists i :: 0 <= i < |r.value| && r.value[i].severity == Warning)
                    <==> Fires(memory, MEMORY_THRESHOLD))
                && forall i :: 0 <= i < |r.value| && r.value[i].severity == Warning ==>
                     r.value[i] == Alert(Warning, Message(MEMORY_MESSAGE, fmt, Mean(memory)), now, ACTIVE)
  {
    RuleAlertMeaning(cpu, CPU_THRESHOLD, Critical, CPU_MESSAGE, now, fmt);
    RuleAlertMeaning(memory, MEMORY_THRESHOLD, Warning, MEMORY_MESSAGE, now, fmt);
    var r := Evaluate(cpu, memory, now, fmt);
    if r.Ok? && Fires(memory, MEMORY_THRESHOLD) {
      assert r.value[|r.value| - 1].severity == Warning;
    }
  }

  /** An empty answer to a rule's query never raises and never alerts. */
  lemma EmptyResultNoAlert(cpu: MeanResult, memory: MeanResult, now: string, fmt: real -> string)
    requires cpu == Ok([]) || memory == Ok([])
    ensures var r := Evaluate(cpu, memory, now, fmt);
      && (cpu == Ok([]) ==> (r.Ok? <==> RuleEvaluates(memory)))
      && (memory == Ok([]) ==> (r.Ok? <==> RuleEvaluates(cpu)))
      && (r.Ok? && cpu == Ok([]) ==> forall i :: 0 <= i < |r.value| ==> r.value[i].severity == Warning)
      && (r.Ok? && memory == Ok([]) ==> forall i :: 0 <= i < |r.value| ==> r.value[i].severity == Critical)
  {
    EvaluateRaises(cpu, memory, now, fmt);
    EvaluateOrder(cpu, memory, now, fmt);
    CpuAlertIff(cpu, memory, now, fmt);
    MemoryAlertIff(cpu, memory, now, fmt);
  }

  /** Every alert is active and stamped with the evaluation time. */
  lemma AlertsAreActive(cpu: MeanResult, memory: MeanResult, now: string, fmt: real -> string)
    ensures var r := Evaluate(cpu, memory, now, fmt);
      r.Ok? ==> forall i :: 0 <= i < |r.value| ==> r.value[i].status == ACTIVE && r.value[i].timestamp == now
  {
    RuleAlertMeaning(cpu, CPU_THRESHOLD, Critical, CPU_MESSAGE, now, fmt);
    RuleAlertMeaning(memory, MEMORY_THRESHOLD, Warning, MEMORY_MESSAGE, now, fmt);
  }

  /** A mean of exactly the limit raises nothing: the test is strict. */
  lemma AtLimitNoAlert(now: string, fmt: real -> string)
    ensures Evaluate(Ok([MeanTable([90.0])]), Ok([MeanTable([85.0])]), now, fmt) == Ok([])
  {
    var cpu: MeanResult := Ok([MeanTable([90.0])]);
    var memory: MeanResult := Ok([MeanTable([85.0])]);
    assert RuleAlert(cpu, CPU_THRESHOLD, Critical, CPU_MESSAGE, now, fmt) == Ok(None);
    assert RuleAlert(memory, MEMORY_THRESHOLD, Warning, MEMORY_MESSAGE, now, fmt) == Ok(None);
    assert Listed(None) + Listed(None) == [];
  }

  /** A CPU mean of 95 and no memory data give exactly one critical alert
      whose message carries the rendered 95. */
  lemma HighCpuOneAlert(now: string, fmt: real -> string)
    ensures var r := Evaluate(Ok([MeanTable([95.0])]), Ok([]), now, fmt);
      r == Ok([Alert(Critical, CPU_MESSAGE + fmt(95.0) + "%", now, ACTIVE)])
  {
    var cpu: MeanResult := Ok([MeanTable([95.0])]);
    var a := Alert(Critical, CPU_MESSAGE + fmt(95.0) + "%", now, ACTIVE);
    assert RuleAlert(cpu, CPU_THRESHOLD, Critical, CPU_MESSAGE, now, fmt) == Ok(Some(a));
    assert RuleAlert(Ok([]), MEMORY_THRESHOLD, Warning, MEMORY_MESSAGE, now, fmt) == Ok(None);
    assert Listed(Some(a)) + Listed(None) == [a];
  }

  /** The observed value's rendering sits in the message right after the
      rule's fixed prefix. */
  lemma MessageCarriesValue(prefix: string, fmt: real -> string, observed: real)
    ensures var m := Message(prefix, fmt, observed);
      |prefix| + |fmt(observed)| < |m| &&
      m[..|prefix|] == prefix && m[|prefix|..|prefix| + |fmt(observed)|] == fmt(observed)
  {
  }

  // ---- Notification

  /** `str.upper` on one character; only ASCII letters are mapped. */
  function UpperChar(c: char): char
  {
    if 'a' <= c <= 'z' then (c as int - 32) as char else c
  }

  function Upper(s: string): (r: string)
    ensures |r| == |s|
    ensures forall i :: 0 <= i < |s| ==> r[i] == UpperChar(s[i])
  {
    seq(|s|, i requires 0 <= i < |s| => UpperChar(s[i]))
  }

  function Subject(severity: Severity): string
  {
    "[" + Upper(severity.Name()) + "] Monitoring Alert"
  }

  lemma UpperCritical()
    ensures Upper(Critical.Name()) == "CRITICAL"
  {
  }

  lemma UpperWarning()
    ensures Upper(Warning.Name()) == "WARNING"
  {
  }

  /** The subject line names the severity in capitals. */
  lemma SubjectLines()
    ensures Subject(Critical) == "[CRITICAL] Monitoring Alert"
    ensures Subject(Warning) == "[WARNING] Monitoring Alert"
  {
    UpperCritical();
    UpperWarning();
  }

  /** Relay, credentials and addresses, read from the environment. */
  datatype SmtpConfig = SmtpConfig(host: string, port: int, username: string, password: string,
                                   fromEmail: string, toEmail: string)

  /** A mail message: its headers and the three values its body lists. */
  datatype Email = Email(sender: string, recipient: string, severity: Severity, message: string, time: string) {
    /** The `Subject` header. */
    function SubjectLine(): string
    {
      Subject(severity)
    }
  }

  function EmailFor(a: Alert, smtp: SmtpConfig): Email
  {
    Email(smtp.fromEmail, smtp.toEmail, a.severity, a.message, a.timestamp)
  }

  /** The mail sent for an alert is addressed from and to the configured
      addresses, carries the alert's message and time, and its subject
      names the alert's severity in capitals. */
  lemma EmailSubject(a: Alert, smtp: SmtpConfig)
    ensures var e := EmailFor(a, smtp);
      && e.sender == smtp.fromEmail && e.recipient == smtp.toEmail
      && e.message == a.message && e.time == a.timestamp
      && (a.severity == Critical ==> e.SubjectLine() == "[CRITICAL] Monitoring Alert")
      && (a.severity == Warning ==> e.SubjectLine() == "[WARNING] Monitoring Alert")
  {
    SubjectLines();
  }

  /** The outbound mail relay.  `transport` says whether the relay accepts a
      message; `delivered` is what it has accepted so far. */
  class Mailer {
    var delivered: seq<Email>

    constructor ()
      ensures delivered == []
    {
      delivered := [];
    }

    /** One relay session; `ok` is false where the session raises. */
    method Send(e: Email, transport: Email -> bool) returns (ok: bool)
      modifies this
      ensures ok == transport(e)
      ensures delivered == if ok then old(delivered) + [e] else old(delivered)
    {
      ok := transport(e);
      if ok {
        delivered := delivered + [e];
      }
    }
  }

  // ---- Persistence

  /** The point that records an alert. */
  function AlertPoint(a: Alert): Point
  {
    Point("alerts", map["severity" := a.severity.Name()], map["message" := Str(a.message), "status" := Str(a.status)])
  }

  /** The points written for a list of alerts: one per alert, in order. */
  function AlertPoints(alerts: seq<Alert>): seq<Point>
  {
    if alerts == [] then [] else AlertPoints(alerts[..|alerts| - 1]) + [AlertPoint(alerts[|alerts| - 1])]
  }

  /** One `alerts` point per alert, in the alerts' order, tagged with the
      alert's severity and carrying its message and status. */
  lemma {:induction false} AlertPointsMeaning(alerts: seq<Alert>)
    ensures |AlertPoints(alerts)| == |alerts|
    ensures forall i :: 0 <= i < |alerts| ==>
      && AlertPoints(alerts)[i].measurement == "alerts"
      && AlertPoints(alerts)[i].tags == map["severity" := alerts[i].severity.Name()]
      && AlertPoints(alerts)[i].fields == map["message" := Str(alerts[i].message), "status" := Str(alerts[i].status)]
  {
    if alerts != [] {
      var init := alerts[..|alerts| - 1];
      AlertPointsMeaning(init);
      assert forall i :: 0 <= i < |init| ==> init[i] == alerts[i];
    }
  }

  /** The mail the relay accepts for one alert: its message, or nothing. */
  function Mailed(a: Alert, smtp: SmtpConfig, transport: Email -> bool): seq<Email>
  {
    var e := EmailFor(a, smtp);
    if transport(e) then [e] else []
  }

  /** The mails the relay accepts for a list of alerts, in order. */
  function Delivered(alerts: seq<Alert>, smtp: SmtpConfig, transport: Email -> bool): seq<Email>
  {
    if alerts == [] then []
    else Delivered(alerts[..|alerts| - 1], smtp, transport) + Mailed(alerts[|alerts| - 1], smtp, transport)
  }

  /** Dispatching one more alert extends both traces by that alert's share. */
  lemma DispatchStep(alerts: seq<Alert>, i: nat, smtp: SmtpConfig, transport: Email -> bool)
    requires i < |alerts|
    ensures AlertPoints(alerts[..i + 1]) == AlertPoints(alerts[..i]) + [AlertPoint(alerts[i])]
    ensures Delivered(alerts[..i + 1], smtp, transport) == Delivered(alerts[..i], smtp, transport) + Mailed(alerts[i], smtp, transport)
  {
    var done := alerts[..i + 1];
    assert done[..i] == alerts[..i] && done[i] == alerts[i];
  }

  /** The relay accepts at most one mail per alert, and only mails of the
      alerts that it accepts. */
  lemma {:induction false} DeliveredFromAlerts(alerts: seq<Alert>, smtp: SmtpConfig, transport: Email -> bool)
    ensures |Delivered(alerts, smtp, transport)| <= |alerts|
    ensures forall e :: e in Delivered(alerts, smtp, transport) ==>
      transport(e) && exists i :: 0 <= i < |alerts| && e == EmailFor(alerts[i], smtp)
  {
    if alerts != [] {
      var init := alerts[..|alerts| - 1];
      DeliveredFromAlerts(init, smtp, transport);
      forall e | e in Delivered(alerts, smtp, transport)
        ensures transport(e) && exists i :: 0 <= i < |alerts| && e == EmailFor(alerts[i], smtp)
      {
        if e in Delivered(init, smtp, transport) {
          var i :| 0 <= i < |init| && e == EmailFor(init[i], smtp);
          assert init[i] == alerts[i];
        } else {
          assert e == EmailFor(alerts[|alerts| - 1], smtp);
        }
      }
    }
  }

  /** Conversely, every alert whose mail the relay accepts has that mail
      delivered. */
  lemma {:induction false} DeliveredComplete(alerts: seq<Alert>, smtp: SmtpConfig, transport: Email -> bool)
    ensures forall i :: 0 <= i < |alerts| && transport(EmailFor(alerts[i], smtp)) ==>
      EmailFor(alerts[i], smtp) in Delivered(alerts, smtp, transport)
  {
    if alerts != [] {
      var init := alerts[..|alerts| - 1];
      DeliveredComplete(init, smtp, transport);
      assert forall i :: 0 <= i < |init| ==> init[i] == alerts[i];
    }
  }

  /** A relay that accepts every mail gets every alert's mail, in order; one
      that refuses every mail gets none. */
  lemma {:induction false} DeliveredAll(alerts: seq<Alert>, smtp: SmtpConfig, transport: Email -> bool)
    ensures (forall i :: 0 <= i < |alerts| ==> transport(EmailFor(alerts[i], smtp))) ==>
      |Delivered(alerts, smtp, transport)| == |alerts| &&
      forall i :: 0 <= i < |alerts| ==> Delivered(alerts, smtp, transport)[i] == EmailFor(alerts[i], smtp)
    ensures (forall i :: 0 <= i < |alerts| ==> !transport(EmailFor(alerts[i], smtp))) ==>
      Delivered(alerts, smtp, transport) == []
  {
    if alerts != [] {
      var init := alerts[..|alerts| - 1];
      DeliveredAll(init, smtp, transport);
      assert forall i :: 0 <= i < |init| ==> init[i] == alerts[i];
    }
  }

  /** The alert manager: the store and relay it uses and its mail settings. */
  class AlertManager {
    const store: Store
    const mailer: Mailer
    const smtp: SmtpConfig

    constructor (store: Store, mailer: Mailer, smtp: SmtpConfig)
      ensures this.store == store && this.mailer == mailer && this.smtp == smtp
    {
      this.store := store;
      this.mailer := mailer;
      this.smtp := smtp;
    }

    /** Both rules against the answers to their queries; an `Err` is the
        exception the evaluation raises. */
    method CheckThresholds(cpu: MeanResult, memory: MeanResult, now: string, fmt: real -> string)
      returns (r: Result<seq<Alert>>)
      ensures r == Evaluate(cpu, memory, now, fmt)
    {
      var alerts: seq<Alert> := [];
      if cpu.Err? {
        return Err(cpu.error);
      }
      if |cpu.value| > 0 {
        if |cpu.value[0].values| == 0 {
          return Err(NoRecord);
        }
        var observed := cpu.value[0].values[0];
        if observed > CPU_THRESHOLD {
          alerts := alerts + [Alert(Critical, Message(CPU_MESSAGE, fmt, observed), now, ACTIVE)];
        }
      }
      ghost var c := RuleAlert(cpu, CPU_THRESHOLD, Critical, CPU_MESSAGE, now, fmt).value;
      assert alerts == Listed(c);
      if memory.Err? {
        return Err(memory.error);
      }
      if |memory.value| > 0 {
        if |memory.value[0].values| == 0 {
          return Err(NoRecord);
        }
        var observed := memory.value[0].values[0];
        if observed > MEMORY_THRESHOLD {
          alerts := alerts + [Alert(Warning, Message(MEMORY_MESSAGE, fmt, observed), now, ACTIVE)];
        }
      }
      ghost var m := RuleAlert(memory, MEMORY_THRESHOLD, Warning, MEMORY_MESSAGE, now, fmt).value;
      assert alerts == Listed(c) + Listed(m);
      return Ok(alerts);
    }

    /** Mails one alert; a refusing relay is swallowed, never raised. */
    method SendEmailAlert(alert: Alert, transport: Email -> bool)
      modifies mailer
      ensures mailer.delivered == old(mailer.delivered) + Mailed(alert, smtp, transport)
    {
      var e := EmailFor(alert, smtp);
      var ok := mailer.Send(e, transport);
    }

    /** Evaluates the rules, then dispatches the alerts; an evaluation that
        raises leaves the store and the relay untouched. */
    method ProcessAlerts(cpu: MeanResult, memory: MeanResult, now: string, fmt: real -> string,
                         transport: Email -> bool)
      returns (r: Result<seq<Alert>>)
      modifies store, mailer
      ensures r == Evaluate(cpu, memory, now, fmt)
      ensures r.Err? ==> store.points == old(store.points) && mailer.delivered == old(mailer.delivered)
      ensures r.Ok? ==> store.points == old(store.points) + AlertPoints(r.value)
      ensures r.Ok? ==> mailer.delivered == old(mailer.delivered) + Delivered(r.value, smtp, transport)
    {
      r := CheckThresholds(cpu, memory, now, fmt);
      if r.Ok? {
        Dispatch(r.value, transport);
      }
    }

    /** For each alert in order: mail it, then write its point, whatever
        became of the mail. */
    method Dispatch(alerts: seq<Alert>, transport: Email -> bool)
      modifies store, mailer
      ensures store.points == old(store.points) + AlertPoints(alerts)
      ensures mailer.delivered == old(mailer.delivered) + Delivered(alerts, smtp, transport)
    {
      var i := 0;
      while i < |alerts|
        invariant 0 <= i <= |alerts|
        invariant store.points == old(store.points) + AlertPoints(alerts[..i])
        invariant mailer.delivered == old(mailer.delivered) + Delivered(alerts[..i], smtp, transport)
      {
        DispatchStep(alerts, i, smtp, transport);
        SendEmailAlert(alerts[i], transport);
        store.Write(AlertPoint(alerts[i]));
        i := i + 1;
      }
      assert alerts[..i] == alerts;
    }
  }

  // ---- The dispatch loop as written

  /** What one run of the dispatch loop leaves behind. */
  datatype DispatchTrace = DispatchTrace(delivered: seq<Email>, written: seq<Point>, raised: bool)

  /** The dispatch loop as the source is written: `Point` is never imported,
      so building the first alert's point raises a NameError right after
      that alert's mail was sent, and no point is ever written. */
  function ProcessAlertsAsWritten(alerts: seq<Alert>, smtp: SmtpConfig, transport: Email -> bool): (t: DispatchTrace)
    ensures t.written == []
    ensures t.raised <==> alerts != []
    ensures t.delivered == Delivered(alerts[..if alerts == [] then 0 else 1], smtp, transport)
  {
    if alerts == [] then DispatchTrace([], [], false)
    else
      var e := EmailFor(alerts[0], smtp);
      assert alerts[..1][..0] == [];
      DispatchTrace(if transport(e) then [e] else [], [], true)
  }

  /** A CPU mean of 95 raises one alert; as written it is mailed but never
      recorded, while the intended loop records it. */
  lemma MissingPointImportLosesAlert(now: string, fmt: real -> string, smtp: SmtpConfig)
    ensures var r := Evaluate(Ok([MeanTable([95.0])]), Ok([]), now, fmt);
      && r.Ok? && |r.value| == 1
      && ProcessAlertsAsWritten(r.value, smtp, e => true).written == []
      && ProcessAlertsAsWritten(r.value, smtp, e => true).delivered == [EmailFor(r.value[0], smtp)]
      && AlertPoints(r.value) == [AlertPoint(r.value[0])]
  {
    HighCpuOneAlert(now, fmt);
  }
}
