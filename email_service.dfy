/** The e-mails the dashboard sends: the weekly report, the critical-level alert and the
    maintenance alert. Sending is simulated by the dashboard itself (a delay, then success
    with probability 95%); here the transport is a log of the e-mails handed to it, and
    whether a dispatch succeeds is a parameter. Dates and times in the e-mails are
    locale-formatted text supplied by the caller. */
module EmailService {
  import opened Wrappers
  import opened Text
  import opened Numbers
  import opened Records
  import opened Sequences
  import opened WeeklyReportTemplate

  /** How a simulated dispatch ends: the random draw succeeded, it failed, or the body of
      `sendEmail` threw. */
  datatype Dispatch = Delivered | Undelivered | Crashed

  /** What an e-mail shows: the weekly report, given by the data it is rendered from (its
      sections are `Render(data)`), or one of the two alert boxes, given by the figures they
      fill in (the fixed texts are in `Heading`, `Lines` and `Button`). */
  datatype Body =
    | WeeklyReport(data: ReportData)
    | CriticalBox(sensorName: string, level: Milli, stamp: string)
    | MaintenanceBox(sensorName: string, reason: string, day: string)

  datatype Email = Email(to: string, subject: string, body: Body)

  /** What the notification service hands to `sendWeeklyReport` (`reportData`). */
  datatype WeeklyInput = WeeklyInput(
    sensors: Option<seq<Sensor>>,
    totalReadings: Num,
    alerts: Option<seq<ReportAlert>>)

  const CriticalPrefix := "🚨 FloodGuard - Alerta Crítico: "
  const MaintenancePrefix := "🔧 FloodGuard - Manutenção Necessária: "

  predicate IsActive(s: Sensor) { s.status == "active" }

  /** A sensor row as the template receives it: the row has no `readings_count` and no
      `avg_level`, so both are missing. */
  function ReportSensorOf(s: Sensor): ReportSensor
  {
    ReportSensor(s.name, s.location, s.status, Missing, Missing)
  }

  /** `x || 0` on a number. */
  function OrZero(n: Num): (r: Num)
    ensures r.Finite?
    ensures n.Finite? ==> r == n
  {
    if n.Finite? then n else Finite(0)
  }

  /** The `emailData` object `sendWeeklyReport` builds and renders. */
  function WeeklyData(userEmail: string, userName: string, input: WeeklyInput,
                      start: string, end: string): (d: ReportData)
    ensures d.userEmail == userEmail && d.userName == userName
    ensures d.periodStart == start && d.periodEnd == end
    ensures |SensorsOf(d)| == |input.sensors.GetOr([])|
    ensures d.summary.totalSensors == Whole(|input.sensors.GetOr([])|)
    ensures d.summary.activeSensors == Whole(Count(input.sensors.GetOr([]), IsActive))
    ensures d.alerts == Some(input.alerts.GetOr([]))
  {
    var ss := input.sensors.GetOr([]);
    ReportData(
      userName, userEmail, start, end,
      Some(seq(|ss|, i requires 0 <= i < |ss| => ReportSensorOf(ss[i]))),
      ReportSummary(
        Whole(|ss|),
        Whole(Count(ss, IsActive)),
        OrZero(input.totalReadings),
        Finite(19500),
        Finite(6200),
        Finite(245000)),
      Some(input.alerts.GetOr([])))
  }

  /** The summary never counts more active sensors than sensors. */
  lemma ActiveAtMostTotal(userEmail: string, userName: string, input: WeeklyInput,
                          start: string, end: string)
    ensures var sm := WeeklyData(userEmail, userName, input, start, end).summary;
            sm.activeSensors.v <= sm.totalSensors.v
  {
    var ss := input.sensors.GetOr([]);
    CountMono(ss, IsActive, (s: Sensor) => true);
    FilterAll(ss, (s: Sensor) => true);
  }

  /** Missing sensors, alerts and reading totals become an empty list, an empty list and 0;
      the quality indicators are 19.5, 6.2 and 245 whatever the input. */
  lemma WeeklyDefaults(userEmail: string, userName: string, input: WeeklyInput,
                       start: string, end: string)
    ensures var d := WeeklyData(userEmail, userName, input, start, end);
            (input.sensors.None? ==> SensorsOf(d) == [] && d.summary.totalSensors == Finite(0))
            && (input.alerts.None? ==> d.alerts == Some([]))
            && (!input.totalReadings.Finite? ==> d.summary.totalReadings == Finite(0))
            && d.summary.avgTemperature == Finite(19500)
            && d.summary.avgTurbidity == Finite(6200)
            && d.summary.avgConductivity == Finite(245000)
  {
  }

  /** Every sensor row of a weekly report built from table rows shows "0" readings and an
      average level of "0.00m", because the rows carry neither figure. */
  lemma WeeklyRowsShowNoFigures(userEmail: string, userName: string, input: WeeklyInput,
                                start: string, end: string, i: nat)
    requires i < |input.sensors.GetOr([])|
    ensures var rows := Table(WeeklyData(userEmail, userName, input, start, end));
            i < |rows| && Display(rows[i].readings) == "0" && Display(rows[i].avgLevel) == "0.00m"
  {
    var d := WeeklyData(userEmail, userName, input, start, end);
    var ss := input.sensors.GetOr([]);
    assert SensorsOf(d)[i] == ReportSensorOf(ss[i]);
    RowDefaults(ReportSensorOf(ss[i]));
  }

  function WeeklySubject(start: string, end: string): (r: string)
    ensures Contains(r, start) && Contains(r, end)
  {
    ContainsInfix("FloodGuard - Relatório Semanal (", start, " - " + end + ")");
    ContainsInfix("FloodGuard - Relatório Semanal (" + start + " - ", end, ")");
    assert "FloodGuard - Relatório Semanal (" + start + " - " + end + ")"
        == "FloodGuard - Relatório Semanal (" + start + (" - " + end + ")");
    "FloodGuard - Relatório Semanal (" + start + " - " + end + ")"
  }

  function WeeklyEmail(userEmail: string, userName: string, input: WeeklyInput,
                       start: string, end: string): Email
  {
    Email(userEmail, WeeklySubject(start, end),
          WeeklyReport(WeeklyData(userEmail, userName, input, start, end)))
  }

  /** The critical-level e-mail; `stamp` is the local date and time of sending. */
  function CriticalEmail(userEmail: string, sensorName: string, level: Milli, stamp: string): Email
  {
    Email(userEmail, CriticalPrefix + sensorName, CriticalBox(sensorName, level, stamp))
  }

  /** The maintenance e-mail; `day` is the local date of sending. */
  function MaintenanceEmail(userEmail: string, sensorName: string, reason: string, day: string): Email
  {
    Email(userEmail, MaintenancePrefix + sensorName, MaintenanceBox(sensorName, reason, day))
  }

  /** The title of an alert box. */
  function Heading(b: Body): string
    requires !b.WeeklyReport?
  {
    if b.CriticalBox? then "⚠️ Alerta Crítico de Nível de Água" else "🔧 Alerta de Manutenção"
  }

  /** The lines of an alert box. */
  function Lines(b: Body): (r: seq<string>)
    requires !b.WeeklyReport?
    ensures SensorLine(b) in r && DetailLine(b) in r
  {
    [SensorLine(b), DetailLine(b), DateLine(b), ClosingLine(b)]
  }

  function SensorLine(b: Body): string
    requires !b.WeeklyReport?
  {
    "Sensor: " + b.sensorName
  }

  /** The level of a critical alert, the reason of a maintenance alert. */
  function DetailLine(b: Body): string
    requires !b.WeeklyReport?
  {
    if b.CriticalBox? then "Nível detectado: " + NumberText(b.level) + "m"
    else "Motivo: " + b.reason
  }

  function DateLine(b: Body): string
    requires !b.WeeklyReport?
  {
    if b.CriticalBox? then "Horário: " + b.stamp else "Data: " + b.day
  }

  function ClosingLine(b: Body): string
    requires !b.WeeklyReport?
  {
    if b.CriticalBox? then
      "O nível de água atingiu um valor crítico. Verifique imediatamente a situação."
    else "Este sensor precisa de atenção para manter o funcionamento adequado."
  }

  /** The link and caption of an alert box's button. */
  function Button(b: Body): (string, string)
    requires !b.WeeklyReport?
  {
    if b.CriticalBox? then (DashboardUrl, "Ver Dashboard")
    else (DashboardUrl + "/sensors", "Gerenciar Sensores")
  }

  /** The critical e-mail goes to `userEmail`; its subject is the fixed prefix followed by
      the sensor name, and its lines name the sensor and the level. */
  lemma CriticalEmailContent(userEmail: string, sensorName: string, level: Milli, stamp: string)
    ensures var e := CriticalEmail(userEmail, sensorName, level, stamp);
            && e.to == userEmail
            && |e.subject| == |CriticalPrefix| + |sensorName|
            && e.subject[..|CriticalPrefix|] == CriticalPrefix
            && e.subject[|CriticalPrefix|..] == sensorName
            && e.body.CriticalBox?
            && "Sensor: " + sensorName in Lines(e.body)
            && "Nível detectado: " + NumberText(level) + "m" in Lines(e.body)
  {
  }

  /** The maintenance e-mail goes to `userEmail`; its subject is the fixed prefix followed
      by the sensor name, and its lines name the sensor and the reason. */
  lemma MaintenanceEmailContent(userEmail: string, sensorName: string, reason: string, day: string)
    ensures var e := MaintenanceEmail(userEmail, sensorName, reason, day);
            && e.to == userEmail
            && |e.subject| == |MaintenancePrefix| + |sensorName|
            && e.subject[..|MaintenancePrefix|] == MaintenancePrefix
            && e.subject[|MaintenancePrefix|..] == sensorName
            && e.body.MaintenanceBox?
            && "Sensor: " + sensorName in Lines(e.body)
            && "Motivo: " + reason in Lines(e.body)
  {
  }

  /** The e-mail transport: every e-mail handed to `sendEmail`, in order. */
  class Mailer {
    var sent: seq<Email>

    constructor ()
      ensures sent == []
    {
      sent := [];
    }

    /** `sendEmail`: the e-mail is handed over and the result is the dispatch's success; an
        exception inside is reported as `false`, never propagated. */
    method Send(e: Email, dispatch: Dispatch) returns (ok: bool)
      modifies this
      ensures sent == old(sent) + [e]
      ensures ok <==> dispatch == Delivered
    {
      sent := sent + [e];
      match dispatch
      case Delivered => ok := true;
      case Undelivered => ok := false;
      case Crashed => ok := false;
    }

    method SendWeeklyReport(userEmail: string, userName: string, input: WeeklyInput,
                            start: string, end: string, dispatch: Dispatch) returns (ok: bool)
      modifies this
      ensures sent == old(sent) + [WeeklyEmail(userEmail, userName, input, start, end)]
      ensures ok <==> dispatch == Delivered
    {
      ok := Send(WeeklyEmail(userEmail, userName, input, start, end), dispatch);
    }

    method SendCriticalAlert(userEmail: string, sensorName: string, level: Milli,
                             stamp: string, dispatch: Dispatch) returns (ok: bool)
      modifies this
      ensures sent == old(sent) + [CriticalEmail(userEmail, sensorName, level, stamp)]
      ensures ok <==> dispatch == Delivered
    {
      ok := Send(CriticalEmail(userEmail, sensorName, level, stamp), dispatch);
    }

    method SendMaintenanceAlert(userEmail: string, sensorName: string, reason: string,
                                day: string, dispatch: Dispatch) returns (ok: bool)
      modifies this
      ensures sent == old(sent) + [MaintenanceEmail(userEmail, sensorName, reason, day)]
      ensures ok <==> dispatch == Delivered
    {
      ok := Send(MaintenanceEmail(userEmail, sensorName, reason, day), dispatch);
    }
  }
}
