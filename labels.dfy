/**
  The text and class choices the render passes and the tooltip make, with the
  DOM construction around them left out: status pills and labels, severity
  labels, uptime classes, bar classes, the tooltip's three lines, incident
  badges, incident meta text and each pass's empty-list placeholder.
 */
module Labels {
  import opened Wrappers
  import opened Records
  import opened Format
  import opened History
  import opened Summary

  // ---------------------------------------------------------------- services table

  /** The services-table status pill text. */
  function ServicePillLabel(status: ServiceStatus): (text: string)
    ensures text == "Unknown" <==> status == Unknown
  {
    match status
    case Operational => "Operational"
    case Degraded => "Degraded"
    case Outage => "Outage"
    case Unknown => "Unknown"
  }

  /** The class appended to the uptime cell: one per known bucket, none for unknown. */
  function UptimeClassSuffix(c: UptimeClass): (suffix: string)
    ensures suffix == "" <==> c == UptimeUnknown
  {
    match c
    case Good => " uptime-good"
    case Warn => " uptime-warn"
    case Bad => " uptime-bad"
    case UptimeUnknown => ""
  }

  /** The group cell: a missing or empty group shows the placeholder. */
  function GroupCell(service: Service): (text: string)
    ensures text != ""
    ensures service.group != "" ==> text == service.group
    ensures service.group == "" ==> text == Placeholder
  {
    if service.group == "" then Placeholder else service.group
  }

  // ---------------------------------------------------------------- overview banner

  /** The extra class on the overall pill: none for operational. */
  function OverviewPillClass(status: ServiceStatus): (cls: Option<string>)
    ensures cls == None <==> status != Degraded && status != Outage
    ensures cls == Some("degraded") <==> status == Degraded
    ensures cls == Some("outage") <==> status == Outage
  {
    if status == Degraded then Some("degraded")
    else if status == Outage then Some("outage")
    else None
  }

  // ---------------------------------------------------------------- incident feed

  /** The severity label; "info" and every unrecognised severity read "Info". */
  function SeverityLabel(severity: Severity): (text: string)
    ensures text == "Info" <==> severity == Info
  {
    match severity
    case Critical => "Critical"
    case Major => "Major"
    case Minor => "Minor"
    case Info => "Info"
  }

  /** `new Map(services.map((service) => [service.id, service]))`: a later entry with the same id replaces an earlier one. */
  function ServiceIndex(services: seq<Service>): (index: map<string, Service>)
    ensures index.Keys == set k | 0 <= k < |services| :: services[k].id
    ensures forall id :: id in index ==> index[id] in services && index[id].id == id
    decreases |services|
  {
    if services == [] then map[]
    else
      var n := |services| - 1;
      ServiceIndex(services[..n])[services[n].id := services[n]]
  }

  /** The index maps an id to the last service carrying it. */
  lemma {:induction false} ServiceIndexLastWins(services: seq<Service>, k: int)
    requires 0 <= k < |services|
    requires forall j :: k < j < |services| ==> services[j].id != services[k].id
    ensures services[k].id in ServiceIndex(services)
    ensures ServiceIndex(services)[services[k].id] == services[k]
    decreases |services|
  {
    var n := |services| - 1;
    if k < n {
      ServiceIndexLastWins(services[..n], k);
    }
  }

  /** One service badge: the service's name, or the raw id when no service has it. */
  function Badge(index: map<string, Service>, serviceId: string): string {
    if serviceId in index then index[serviceId].name else serviceId
  }

  /** The badges of an incident card, one per referenced id, in order. */
  function IncidentBadges(incident: Incident, services: seq<Service>): (badges: seq<string>)
    ensures |badges| == |incident.services|
    ensures forall i :: 0 <= i < |badges| ==>
      badges[i] == incident.services[i]
      || exists k :: 0 <= k < |services| && services[k].id == incident.services[i] && badges[i] == services[k].name
  {
    var index := ServiceIndex(services);
    seq(|incident.services|, i requires 0 <= i < |incident.services| => Badge(index, incident.services[i]))
  }

  /** A dangling reference shows the raw id; with unique ids a resolved one shows that service's name. */
  lemma BadgeResolution(incident: Incident, services: seq<Service>, i: int)
    requires 0 <= i < |incident.services|
    ensures (forall k :: 0 <= k < |services| ==> services[k].id != incident.services[i])
        ==> IncidentBadges(incident, services)[i] == incident.services[i]
    ensures UniqueIds(services) ==>
      forall k :: 0 <= k < |services| && services[k].id == incident.services[i]
        ==> IncidentBadges(incident, services)[i] == services[k].name
  {
  }

  /** The meta line of an incident card: "<started> → <resolved>" or "<started> • ongoing". */
  datatype Meta = Span(started: DateText, resolved: DateText) | Ongoing(started: DateText)

  /**
    The meta text. The resolved part is formatted only for a truthy
    `resolvedAt`, and the formatted text (a locale date or the placeholder
    glyph) is never empty, so an unparseable resolution shows "→ –".
   */
  function IncidentMeta(incident: Incident, parses: string -> bool): (meta: Meta)
    ensures meta.started == FormatDate(Some(incident.startedAt), parses)
    ensures meta.Span? ==> meta.resolved == FormatDate(incident.resolvedAt, parses)
  {
    var started := FormatDate(Some(incident.startedAt), parses);
    var resolved: Option<DateText> :=
      if incident.resolvedAt.Some? && incident.resolvedAt.value != "" then Some(FormatDate(incident.resolvedAt, parses))
      else None;
    if resolved.Some? then Span(started, resolved.value) else Ongoing(started)
  }

  /** A card reads "ongoing" exactly when the incident is counted as active. */
  lemma OngoingIffActive(incident: Incident, parses: string -> bool)
    ensures IncidentMeta(incident, parses).Ongoing? <==> IsActive(incident)
  {
  }

  // ---------------------------------------------------------------- uptime list

  /** The status line of an uptime row and its class; unknown statuses get no class. */
  datatype StatusLine = StatusLine(text: string, cssClass: Option<string>)

  function UptimeListStatus(status: ServiceStatus): (line: StatusLine)
    ensures line.text == "Status Unknown" <==> status == Unknown
    ensures line.cssClass == None <==> status == Unknown
  {
    match status
    case Operational => StatusLine("Operational", Some("status-operational"))
    case Degraded => StatusLine("Degraded Performance", Some("status-degraded"))
    case Outage => StatusLine("Major Outage", Some("status-outage"))
    case Unknown => StatusLine("Status Unknown", None)
  }

  /** The class added to a bar for its state. */
  function BarClass(state: BarState): (cls: string)
    ensures "uptime-bar-" < cls
  {
    match state
    case Up => "uptime-bar-up"
    case Partial => "uptime-bar-partial"
    case Down => "uptime-bar-down"
  }

  /**
    Different statuses never share a pill text, an uptime-list text or an
    uptime-list class, and the two banner classes are distinct.
   */
  lemma StatusLabelsInjective(a: ServiceStatus, b: ServiceStatus)
    ensures ServicePillLabel(a) == ServicePillLabel(b) ==> a == b
    ensures UptimeListStatus(a).text == UptimeListStatus(b).text ==> a == b
    ensures UptimeListStatus(a).cssClass == UptimeListStatus(b).cssClass ==> a == b
    ensures OverviewPillClass(a).Some? && OverviewPillClass(a) == OverviewPillClass(b) ==> a == b
  {
  }

  /** Different severities never share a label. */
  lemma SeverityLabelsInjective(a: Severity, b: Severity)
    ensures SeverityLabel(a) == SeverityLabel(b) ==> a == b
  {
  }

  /** Different uptime buckets never share a cell class. */
  lemma UptimeClassesInjective(a: UptimeClass, b: UptimeClass)
    ensures UptimeClassSuffix(a) == UptimeClassSuffix(b) ==> a == b
  {
  }

  /** Different bar states never share a bar class. */
  lemma BarClassesInjective(a: BarState, b: BarState)
    ensures BarClass(a) == BarClass(b) ==> a == b
  {
  }

  /**
    The banner agrees with the rows: a major outage banner has an outage row,
    a partial outage banner a degraded row and no outage row, and the
    all-clear banner has neither and no card reading "ongoing".
   */
  lemma BannerMatchesRows(services: seq<Service>, incidents: seq<Incident>, parses: string -> bool)
    ensures Summarize(services, incidents).statusLabel == "Major Service Outage" ==>
      exists k :: 0 <= k < |services| && UptimeListStatus(services[k].status).text == "Major Outage"
    ensures Summarize(services, incidents).statusLabel == "Partial System Outage" ==>
      && (exists k :: 0 <= k < |services| && UptimeListStatus(services[k].status).text == "Degraded Performance")
      && (forall k :: 0 <= k < |services| ==> UptimeListStatus(services[k].status).text != "Major Outage")
    ensures Summarize(services, incidents).statusLabel == "All Systems Operational" ==>
      && (forall k :: 0 <= k < |services| ==> services[k].status != Degraded && services[k].status != Outage)
      && (forall j :: 0 <= j < |incidents| ==> !IncidentMeta(incidents[j], parses).Ongoing?)
  {
    SummaryLabelCases(services, incidents);
    SummaryStatusCases(services, incidents);
    var r := Summarize(services, incidents);
    forall k | 0 <= k < |services| && UptimeListStatus(services[k].status).text == "Major Outage"
      ensures services[k].status == Outage
    {
      StatusLabelsInjective(services[k].status, Outage);
    }
    if r.statusLabel == "All Systems Operational" {
      ActiveCountIsIndexCount(incidents);
      forall j | 0 <= j < |incidents| ensures !IncidentMeta(incidents[j], parses).Ongoing? {
        OngoingIffActive(incidents[j], parses);
        assert j !in ActiveIndexes(incidents);
      }
    }
  }

  // ---------------------------------------------------------------- tooltip

  /** The tooltip's third line: fixed text, or "<pct to one decimal>% successful checks on this day." */
  datatype Details = Sentence(text: string) | SuccessfulChecks(pct: real)

  datatype Tooltip = Tooltip(firstLine: string, secondLine: string, details: Details)

  /** `pctNumber ? … : …`: null, NaN and zero are falsy. */
  predicate PctTruthy(pct: Option<Number>) {
    pct.Some? && pct.value.Num? && pct.value.value != 0.0
  }

  /** The tooltip's status label; a missing or unrecognised bar status reads "Unknown". */
  function BarStatusLabel(state: Option<BarState>): string {
    match state
    case Some(Up) => "Operational"
    case Some(Partial) => "Partial outage"
    case Some(Down) => "Complete outage"
    case None => "Unknown"
  }

  function BarDescription(state: Option<BarState>, pct: Option<Number>): Details {
    match state
    case Some(Up) => Sentence("No downtime recorded on this day.")
    case Some(Partial) =>
      if PctTruthy(pct) then SuccessfulChecks(pct.value.value) else Sentence("Partial outage recorded on this day.")
    case Some(Down) =>
      if PctTruthy(pct) then SuccessfulChecks(pct.value.value) else Sentence("Complete outage recorded on this day.")
    case None => Sentence("")
  }

  predicate EndsWith(s: string, suffix: string) {
    |suffix| <= |s| && s[|s| - |suffix|..] == suffix
  }

  /**
    `handleBarEnter`'s text: the date label (empty when the date is missing or
    invalid) or else the service name first, then "<name> – <label>" when
    both are present or the label alone, then the description.
   */
  function ComposeTooltip(state: Option<BarState>, pct: Option<Number>, dateLabel: string, serviceName: string)
    : (t: Tooltip)
    ensures t.firstLine == "" <==> dateLabel == "" && serviceName == ""
    ensures dateLabel != "" ==> t.firstLine == dateLabel
    ensures dateLabel == "" ==> t.firstLine == serviceName
    ensures dateLabel != "" && serviceName != "" ==> t.secondLine == serviceName + " – " + BarStatusLabel(state)
    ensures dateLabel == "" || serviceName == "" ==> t.secondLine == BarStatusLabel(state)
    ensures EndsWith(t.secondLine, BarStatusLabel(state))
    ensures t.secondLine != BarStatusLabel(state) ==> dateLabel != "" && serviceName != "" && serviceName <= t.secondLine
    ensures t.details.SuccessfulChecks? ==> state.Some? && state.value != Up && pct == Some(Num(t.details.pct))
    ensures state.Some? && state.value != Up ==> (t.details.SuccessfulChecks? <==> PctTruthy(pct))
    ensures state == Some(Up) ==> t.details == Sentence("No downtime recorded on this day.")
    ensures state == Some(Partial) && !PctTruthy(pct) ==> t.details == Sentence("Partial outage recorded on this day.")
    ensures state == Some(Down) && !PctTruthy(pct) ==> t.details == Sentence("Complete outage recorded on this day.")
    ensures state == None ==> t.secondLine != "" && t.details == Sentence("")
  {
    var statusLabel := BarStatusLabel(state);
    var first := if dateLabel != "" then dateLabel else serviceName;
    var second := if dateLabel != "" && serviceName != "" then serviceName + " – " + statusLabel else statusLabel;
    Tooltip(first, second, BarDescription(state, pct))
  }

  /**
    Hovering a generated bar: the tooltip names the bar's state, and on a
    partial or down day quotes its percentage, which is never falsy there.
   */
  lemma TooltipForGeneratedBar(days: int, draws: seq<real>, i: int, dateLabel: string, serviceName: string)
    requires |draws| >= 2 * days && UnitDraws(draws)
    requires 0 <= i < |GeneratedHistory(days, draws)|
    ensures var s := GeneratedHistory(days, draws)[i];
      var t := ComposeTooltip(Some(s.state), Some(Num(s.successPct)), dateLabel, serviceName);
      && (s.state == Up ==> t.details == Sentence("No downtime recorded on this day."))
      && (s.state != Up ==> t.details == SuccessfulChecks(s.successPct))
      && (s.state == Down <==> ForcedState(s.offset) == Down)
  {
    HistoryStatesByOffset(days, draws);
    SamplesForced(days - 1, draws);
  }

  // ---------------------------------------------------------------- empty states

  /** The services table's single placeholder row, present exactly when there is no service. */
  function ServicesTablePlaceholder(services: seq<Service>): (row: Option<string>)
    ensures row.Some? <==> |services| == 0
    ensures row.Some? ==> row.value == "No services configured yet."
  {
    if |services| == 0 then Some("No services configured yet.") else None
  }

  /** The incident feed's placeholder, present exactly when there is no incident. */
  function IncidentListPlaceholder(incidents: seq<Incident>): (row: Option<string>)
    ensures row.Some? <==> |incidents| == 0
    ensures row.Some? ==> row.value == "No incidents recorded yet."
  {
    if |incidents| == 0 then Some("No incidents recorded yet.") else None
  }

  /** The uptime list's placeholder, present exactly when there is no service. */
  function UptimeListPlaceholder(services: seq<Service>): (row: Option<string>)
    ensures row.Some? <==> |services| == 0
    ensures row == ServicesTablePlaceholder(services)
  {
    if |services| == 0 then Some("No services configured yet.") else None
  }
}
