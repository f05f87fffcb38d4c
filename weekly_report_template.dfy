/** The weekly report e-mail. The markup is modelled as the list of sections it renders, each
    holding the texts that the section displays; styling and the literal HTML are not
    modelled. */
module WeeklyReportTemplate {
  import opened Wrappers
  import opened Text
  import opened Numbers

  /** A value in a numeric field of the report data, which the template receives untyped:
      missing (`null` / `undefined`), not a number (`NaN`, or a value `Number` turns into
      `NaN`), or a finite number. */
  datatype Num = Missing | NotANumber | Finite(v: Milli)

  /** A whole count as a report number. */
  function Whole(n: nat): Num
  {
    Finite(1000 * n)
  }

  datatype ReportSensor = ReportSensor(
    name: string,
    location: Option<string>,
    status: string,
    readingsCount: Num,
    avgLevel: Num)

  datatype ReportSummary = ReportSummary(
    totalSensors: Num,
    activeSensors: Num,
    totalReadings: Num,
    avgTemperature: Num,
    avgTurbidity: Num,
    avgConductivity: Num)

  datatype ReportAlert = ReportAlert(sensorName: string, level: Num, timestamp: string)

  datatype ReportData = ReportData(
    userName: string,
    userEmail: string,
    periodStart: string,
    periodEnd: string,
    sensors: Option<seq<ReportSensor>>,
    summary: ReportSummary,
    alerts: Option<seq<ReportAlert>>)

  type Decimals = d: nat | d <= 3

  /** A number as the template prints it: a count through `x || 0`, or a measure through
      `safeToFixed` with a number of decimals and a unit. Its text is `Display`. */
  datatype Figure = CountFigure(n: Num) | FixedFigure(n: Num, decimals: Decimals, unit: string)

  /** A figure with its caption, as in the summary and quality grids. */
  datatype Stat = Stat(value: Figure, caption: string)

  /** One line of the sensor status table. */
  datatype Row = Row(
    name: string,
    location: string,
    statusClass: string,
    statusLabel: string,
    readings: Figure,
    avgLevel: Figure)

  datatype AlertLine = AlertLine(sensor: string, level: Figure, when: string)

  datatype Section =
    | Header(period: string)
    | Greeting(name: string)
    | Summary(stats: seq<Stat>)
    | SensorTable(rows: seq<Row>)
    | Quality(stats: seq<Stat>)
    | Alerts(items: seq<AlertLine>)
    | Download(href: string)
    | CallToAction(href: string)
    | Footer(settingsHref: string)

  const DownloadUrl := "https://floodguard.vercel.app/dashboard/reports/download"
  const DashboardUrl := "https://floodguard.vercel.app/dashboard"
  const SettingsUrl := "https://floodguard.vercel.app/dashboard/settings"

  /** `safeToFixed(value, decimals)`: anything that is not a finite number prints as "0.00",
      whatever the number of decimals asked for. */
  function SafeToFixed(value: Num, decimals: Decimals := 2): string
  {
    if value.Finite? then ToFixed(value.v, decimals) else "0.00"
  }

  /** With fewer than two decimals, "0.00" appears exactly when the value is not a number. */
  lemma SafeToFixedFallback(value: Num, decimals: Decimals)
    requires decimals < 2
    ensures SafeToFixed(value, decimals) == "0.00" <==> !value.Finite?
  {
    if value.Finite? {
      var r := ToFixed(value.v, decimals);
      if decimals == 1 {
        ToFixedDigits(value.v, 1);
        assert r[|r| - 2] == '.';
        assert "0.00"[2] != '.';
      } else {
        var digits := NatToString(RoundedUnits(Abs(value.v), 0));
        assert r == (if value.v < 0 then "-" else "") + digits;
        assert forall i :: 0 <= i < |r| ==> r[i] != '.';
        assert "0.00"[1] == '.';
      }
    }
  }

  /** `x || 0` on a count: falsy values (missing, `NaN`, 0) print as "0". */
  function CountText(n: Num): (r: string)
    ensures r == "0" <==> !n.Finite? || n.v == 0
  {
    if n.Finite? && n.v != 0 then
      NumberTextRoundTrip(n.v);
      NumberText(n.v)
    else "0"
  }

  function StatusClass(status: string): (r: string)
    ensures r == "status-active" <==> status == "active"
    ensures r == "status-maintenance" <==> status == "maintenance"
  {
    if status == "active" then "status-active"
    else if status == "maintenance" then "status-maintenance"
    else "status-inactive"
  }

  /** Label of a sensor status in the e-mail (and in the day detail dialog). */
  function StatusLabel(status: string): (r: string)
    ensures r == "Ativo" <==> status == "active"
    ensures r == "Manutenção" <==> status == "maintenance"
    ensures r == "Inativo" <==> status != "active" && status != "maintenance"
  {
    if status == "active" then "Ativo"
    else if status == "maintenance" then "Manutenção"
    else "Inativo"
  }

  /** `name || "Sensor sem nome"` and `location || "Localização não informada"`. */
  function OrDefault(s: Option<string>, default: string): (r: string)
    requires default != ""
    ensures r != ""
    ensures s.Some? && s.value != "" ==> r == s.value
  {
    if s.Some? && s.value != "" then s.value else default
  }

  /** The text the template prints for a figure. */
  function Display(f: Figure): string
  {
    match f
    case CountFigure(n) => CountText(n)
    case FixedFigure(n, decimals, unit) => SafeToFixed(n, decimals) + unit
  }

  function RowOf(s: ReportSensor): Row
  {
    Row(OrDefault(Some(s.name), "Sensor sem nome"),
        OrDefault(s.location, "Localização não informada"),
        StatusClass(s.status),
        StatusLabel(s.status),
        CountFigure(s.readingsCount),
        FixedFigure(s.avgLevel, 2, "m"))
  }

  function AlertLineOf(a: ReportAlert): AlertLine
  {
    AlertLine(a.sensorName, FixedFigure(a.level, 2, "m"), a.timestamp)
  }

  function SensorsOf(d: ReportData): seq<ReportSensor>
  {
    d.sensors.GetOr([])
  }

  function AlertsOf(d: ReportData): seq<ReportAlert>
  {
    d.alerts.GetOr([])
  }

  /** The rows of the sensor status table. */
  function Table(d: ReportData): seq<Row>
  {
    var ss := SensorsOf(d);
    seq(|ss|, i requires 0 <= i < |ss| => RowOf(ss[i]))
  }

  /** The e-mail, section by section. */
  function Render(d: ReportData): seq<Section>
  {
    var sm := d.summary;
    var ss := SensorsOf(d);
    var al := AlertsOf(d);
    [ Header(d.periodStart + " - " + d.periodEnd),
      Greeting(d.userName),
      Summary([ Stat(CountFigure(sm.totalSensors), "Sensores"),
                Stat(CountFigure(sm.activeSensors), "Ativos"),
                Stat(CountFigure(sm.totalReadings), "Leituras"),
                Stat(FixedFigure(sm.avgTemperature, 1, "°C"), "Temp. Média") ]),
      SensorTable(Table(d)),
      Quality([ Stat(FixedFigure(sm.avgTemperature, 1, "°C"), "Temperatura"),
                Stat(FixedFigure(sm.avgTurbidity, 1, " NTU"), "Turbidez"),
                Stat(FixedFigure(sm.avgConductivity, 0, " µS/cm"), "Condutividade") ]) ]
    + (if |al| > 0 then [Alerts(seq(|al|, i requires 0 <= i < |al| => AlertLineOf(al[i])))] else [])
    + [ Download(DownloadUrl), CallToAction(DashboardUrl), Footer(SettingsUrl) ]
  }

  predicate HasAlertsSection(page: seq<Section>)
  {
    exists i :: 0 <= i < |page| && page[i].Alerts?
  }

  /** The table has one row per sensor, in order; a missing list gives no rows. */
  lemma SensorTableRows(d: ReportData)
    ensures Render(d)[3] == SensorTable(Table(d))
    ensures |Table(d)| == |SensorsOf(d)|
    ensures d.sensors.None? ==> Table(d) == []
    ensures forall i :: 0 <= i < |SensorsOf(d)| ==> Table(d)[i] == RowOf(SensorsOf(d)[i])
  {
  }

  /** The alerts section is there iff there are alerts, with one line per alert. */
  lemma AlertsSection(d: ReportData)
    ensures HasAlertsSection(Render(d)) <==> d.alerts.Some? && |d.alerts.value| > 0
    ensures |AlertsOf(d)| > 0 ==> Render(d)[5] == Alerts(seq(|AlertsOf(d)|,
              i requires 0 <= i < |AlertsOf(d)| => AlertLineOf(AlertsOf(d)[i])))
  {
    var page := Render(d);
    if |AlertsOf(d)| == 0 {
      assert forall i :: 0 <= i < |page| ==> !page[i].Alerts?;
    } else {
      assert page[5].Alerts?;
    }
  }

  /** The download, dashboard and settings links are always in the e-mail. */
  lemma LinksPresent(d: ReportData)
    ensures Download(DownloadUrl) in Render(d)
    ensures CallToAction(DashboardUrl) in Render(d)
    ensures Footer(SettingsUrl) in Render(d)
  {
    var page := Render(d);
    var n := |page|;
    assert page[n - 3] == Download(DownloadUrl);
    assert page[n - 2] == CallToAction(DashboardUrl);
    assert page[n - 1] == Footer(SettingsUrl);
  }

  /** A sensor row shows a default name and location when they are empty, a falsy count as
      "0" and a missing average as "0.00m". */
  lemma RowDefaults(s: ReportSensor)
    ensures s.name == "" ==> RowOf(s).name == "Sensor sem nome"
    ensures s.location.None? || s.location == Some("") ==>
              RowOf(s).location == "Localização não informada"
    ensures s.readingsCount == Missing ==> Display(RowOf(s).readings) == "0"
    ensures s.avgLevel == Missing ==> Display(RowOf(s).avgLevel) == "0.00m"
  {
  }
}
