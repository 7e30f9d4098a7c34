/**
 * The real-time alert list of the operations centre (`AlertsFeed`): a
 * severity filter with a count per tab, a look per severity, relative
 * times, and the footer count. Clock readings are parameters.
 */
module AlertsFeed {
  import opened Text
  import opened Seqs
  import opened Dates

  datatype Alert = Alert(id: int, severity: string, title: string, area: string, timestamp: int)

  /** The six declared alerts, stamped relative to `loadTime`, the clock when the component rendered. */
  function Alerts(loadTime: int): seq<Alert> {
    [
      Alert(1, "critical", "Cuello de botella crítico detectado", "Marketing", loadTime - 300000),
      Alert(2, "warning", "Tiempo de procesamiento elevado", "Ventas", loadTime - 900000),
      Alert(3, "info", "Nuevo flujo de trabajo iniciado", "RRHH", loadTime - 1800000),
      Alert(4, "critical", "Fallo en integración de sistema", "IT", loadTime - 2700000),
      Alert(5, "warning", "Capacidad del equipo al límite", "Operaciones", loadTime - 3600000),
      Alert(6, "info", "Reporte mensual generado", "Finanzas", loadTime - 7200000)
    ]
  }

  /** A severity test as the function `filter` is given. */
  function SeverityIs(s: string): Alert -> bool {
    (a: Alert) => a.severity == s
  }

  /** `filteredAlerts`: every alert for "all", otherwise exactly the alerts of that severity, in order. */
  function FilteredAlerts(alerts: seq<Alert>, filter: string): (r: seq<Alert>)
    ensures filter == "all" ==> r == alerts
    ensures filter != "all" ==> r == Filter(alerts, SeverityIs(filter))
    ensures filter != "all" ==> forall a | a in r :: a.severity == filter
    ensures filter != "all" ==> forall a | a in alerts && a.severity == filter :: multiset(r)[a] == multiset(alerts)[a]
    ensures |r| <= |alerts|
  {
    if filter == "all" then alerts else Filter(alerts, SeverityIs(filter))
  }

  datatype Counts = Counts(critical: nat, warning: nat, info: nat)

  /** `severityCounts`: per severity, how many alerts the matching tab would list. */
  function SeverityCounts(alerts: seq<Alert>): (c: Counts)
    ensures c.critical == |FilteredAlerts(alerts, "critical")|
    ensures c.warning == |FilteredAlerts(alerts, "warning")|
    ensures c.info == |FilteredAlerts(alerts, "info")|
  {
    Counts(|Filter(alerts, SeverityIs("critical"))|,
           |Filter(alerts, SeverityIs("warning"))|,
           |Filter(alerts, SeverityIs("info"))|)
  }

  predicate KnownSeverity(s: string) {
    s == "critical" || s == "warning" || s == "info"
  }

  /** When every alert has one of the three severities, the three tab counts add up to the "all" count. */
  lemma {:induction false} CountsAddUp(alerts: seq<Alert>)
    requires forall a | a in alerts :: KnownSeverity(a.severity)
    ensures var c := SeverityCounts(alerts);
            c.critical + c.warning + c.info == |alerts|
    decreases |alerts|
  {
    if |alerts| > 0 {
      CountsAddUp(alerts[1..]);
    }
  }

  /** The declared alerts all have a known severity, so their three tab counts add up to six. */
  lemma DeclaredCountsTotal(loadTime: int)
    ensures var c := SeverityCounts(Alerts(loadTime));
            c.critical + c.warning + c.info == 6
  {
    var s := Alerts(loadTime);
    DeclaredSeverities(loadTime);
    forall a | a in s
      ensures KnownSeverity(a.severity)
    {
      var i :| 0 <= i < |s| && s[i] == a;
    }
    CountsAddUp(s);
  }

  lemma DeclaredSeverities(loadTime: int)
    ensures |Alerts(loadTime)| == 6
    ensures forall i | 0 <= i < 6 :: KnownSeverity(Alerts(loadTime)[i].severity)
  {
  }

  datatype SeverityLook = SeverityLook(color: string, icon: string, iconColor: string, badge: string)

  const InfoLook := SeverityLook("border-blue-500 bg-blue-50", "Info", "text-blue-600", "bg-blue-100 text-blue-800")

  /** `getSeverityConfig`: critical and warning have their own look; every other severity looks like info. */
  function SeverityConfig(severity: string): (c: SeverityLook)
    ensures severity == "critical" ==> c.icon == "AlertCircle"
    ensures severity == "warning" ==> c.icon == "AlertTriangle"
    ensures severity != "critical" && severity != "warning" ==> c == InfoLook
  {
    if severity == "critical" then
      SeverityLook("border-red-500 bg-red-50", "AlertCircle", "text-red-600", "bg-red-100 text-red-800")
    else if severity == "warning" then
      SeverityLook("border-orange-500 bg-orange-50", "AlertTriangle", "text-orange-600", "bg-orange-100 text-orange-800")
    else InfoLook
  }

  /** What `formatTimeAgo` shows: a short text, or the locale date of the timestamp (locale formatting is not modelled). */
  datatype TimeAgo = Text(text: string) | LocaleDate(timestamp: int)

  /**
   * `formatTimeAgo`: whole minutes under an hour, whole hours under a day,
   * otherwise the date. A timestamp in the future gives negative minutes.
   */
  function FormatTimeAgo(timestamp: int, now: int): (r: TimeAgo)
    ensures var m := MinutesSince(timestamp, now);
            && (m < 60 ==> r == Text("hace " + IntText(m) + "m"))
            && (60 <= m && m / 60 < 24 ==> r == Text("hace " + Decimal(m / 60) + "h"))
            && (m / 60 >= 24 ==> r == LocaleDate(timestamp))
  {
    var minutes := MinutesSince(timestamp, now);
    var hours := minutes / 60;
    if minutes < 60 then Text("hace " + IntText(minutes) + "m")
    else if hours < 24 then Text("hace " + IntText(hours) + "h")
    else LocaleDate(timestamp)
  }

  /** The shown text is in minutes (it ends in "m"). */
  predicate InMinutes(r: TimeAgo) {
    r.Text? && |r.text| > 0 && r.text[|r.text| - 1] == 'm'
  }

  /** Which form is shown depends on the elapsed time: minutes under an hour, the date from a full day on. */
  lemma FormatTimeAgoBands(timestamp: int, now: int)
    ensures InMinutes(FormatTimeAgo(timestamp, now)) <==> now - timestamp < 60 * MillisPerMinute
    ensures FormatTimeAgo(timestamp, now).LocaleDate? <==> now - timestamp >= 24 * 60 * MillisPerMinute
  {
    var m := MinutesSince(timestamp, now);
    if m >= 60 && m / 60 < 24 {
      var t := "hace " + Decimal(m / 60) + "h";
      assert FormatTimeAgo(timestamp, now).text == t;
      assert t[|t| - 1] == 'h';
    }
  }

  /** The footer: "1 alerta", otherwise "n alertas". */
  function FooterLabel(n: nat): (s: string)
    ensures n == 1 ==> s == "1 alerta"
    ensures n != 1 ==> s == Decimal(n) + " alertas"
  {
    Decimal(n) + " alerta" + (if n != 1 then "s" else "")
  }

  /** The feed's one piece of state: the selected tab. */
  class AlertsFeedState {
    var filter: string

    constructor ()
      ensures filter == "all"
    {
      filter := "all";
    }

    /** A click on a tab. */
    method SetFilter(key: string)
      modifies this
      ensures filter == key
    {
      filter := key;
    }

    /** The list under the tabs. */
    function Shown(alerts: seq<Alert>): seq<Alert>
      reads this
    {
      FilteredAlerts(alerts, filter)
    }
  }
}
