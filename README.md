# Service status dashboard — status and uptime core

This project models the logic behind a browser service-status dashboard,
leaving out the DOM work. The logic covers:

- the overall-status banner, which takes the worst status over the services and counts the unresolved incidents;
- the classification of 30-day uptime percentages into good, warn and bad;
- the window length (90, 60, 30 or 14 days) that the viewport width selects;
- the synthetic per-day uptime history, oldest day first, with fixed incident days;
- the resize handler, which re-renders the uptime list only when the window length changes;
- the small text mappings the render passes use: status pills and labels, severity labels, incident badges and meta lines, tooltip lines, and the empty-list placeholders.

Modules, one per component:

- `Wrappers`, `Records` (`records.dfy`): the option type and the service and incident records. `Records.IsActive` is the "falsy `resolvedAt`" test.
- `Format` (`format.dfy`): the uptime classifier, and where the percent and date formatters show their placeholder.
- `Summary` (`summary.dfy`): the aggregation loop as a method. It is proved equal to the reference worst-of definition and to the banner label.
- `History` (`history.dfy`): the generation loop as a method. It is proved equal to a recursive specification whose properties are lemmas.
- `Viewport` (`viewport.dfy`): window-length bucketing, and the `ResizeController` class that holds `currentDays`.
- `Labels` (`labels.dfy`): the label ternaries, the tooltip composition, the id-to-service index, incident meta text and the placeholders.
- `Fixtures` (`fixtures.dfy`): the built-in sample data and what the core computes from it.

Representation choices:

- JavaScript numbers are `Records.Number`: a finite `real` or `NaN`.
- A status or severity string that is not one of the known values is an `Unknown` or `Info` constructor.
- A history day is its offset from today.
- The random source is a sequence of draws in [0, 1), consumed in the same order the generator calls `Math.random`.
- The viewport width and the host's "does this string parse as a date" test are parameters.

## Model

| member | source | states |
|---|---|---|
| Summary.SummarizeOverallStatus | main.js:67-94 | The scan with its early `break` yields the worst-of aggregate, the matching banner label, and the number of positions holding an unresolved incident; the status is outage exactly when some service is at outage |
| Summary.AggregateIsWorst | main.js:68-77 | No service ranks above the aggregate (outage > degraded > operational/unknown); the aggregate is never unknown, and is operational or the status of some service |
| Summary.BreakIsHarmless | main.js:69-77 | Running the same update over every service, without stopping at the first outage, gives the same aggregate as the loop that breaks |
| Summary.ActiveIncidents | main.js:78 | The filter keeps exactly the incidents whose `resolvedAt` is null, missing or empty, and is no longer than its input |
| Summary.ActiveCountIsIndexCount | main.js:78 | The filtered list has one entry per position of an unresolved incident |
| Summary.ActiveIndexesSnoc | main.js:78 | Appending an incident adds one to the unresolved count exactly when its `resolvedAt` is falsy |
| Summary.SummaryStatusCases | main.js:67-77 | Aggregate is outage iff some service is at outage; degraded iff none is at outage and some is degraded; operational otherwise (empty list and unknown statuses included) |
| Summary.SummaryLabelCases | main.js:79-88 | Each of the four labels as an if-and-only-if on (aggregate, active count); "Status Unknown" is never produced |
| Summary.ActiveCountIndependentOfServices | main.js:78-92 | The active count depends only on the incidents, never on the services, and equals the number of unresolved incidents |
| Summary.SummarizeEmpty | main.js:67-94 | No services and no incidents give operational, "All Systems Operational", 0 |
| Summary.SummarizeOrderExamples | main.js:69-77 | [degraded, operational] aggregates to degraded; [operational, degraded, outage] to outage |
| Summary.SummarizeActiveIncidentExample | main.js:78-83 | An unresolved incident on an all-operational system gives "Operational with active incidents" |
| Format.ClassifyUptime | main.js:96-101 | Unknown exactly for a null or missing uptime; NaN is classified bad |
| Format.ClassifyUptimeBuckets | main.js:96-101 | good iff x >= 99.95, warn iff 99.0 <= x < 99.95, bad iff x < 99.0 |
| Format.ClassifyUptimeMonotone | main.js:96-101 | A larger percentage is never classified as less healthy |
| Format.FormatPercent | main.js:103-106 | Placeholder exactly for null, missing or NaN; otherwise the value itself to three decimals |
| Format.PlaceholderUptimeClasses | main.js:96-106 | An uptime shown as the placeholder is classified unknown if missing and bad if NaN |
| Format.FormatDate | main.js:108-118 | Placeholder exactly for a falsy or unparseable value; otherwise the long rendering of that value |
| Format.FormatShortDate | main.js:120-128 | Same placeholder rule, with the short "month day" rendering |
| History.StateOfThresholds | main.js:317-322 | down iff pct <= 50, partial iff 50 < pct <= 92, up iff pct > 92 |
| History.SuccessPctBand | main.js:311-316 | For draws in [0,1): offsets 5 and 36 land in [40,50) and are down; 12, 20, 48 and 72 land in [65,85) and are partial; all others land in [99,100) and are up |
| History.SamplesShape | main.js:308-324 | For any draws: exactly one sample per offset, entry i has offset `offset - i`, and every state matches its percentage |
| History.SamplesForced | main.js:306-322 | For draws in [0,1): every sample's state is the one its offset alone decides, and its percentage lies in that offset's band |
| History.BuildServiceHistory | main.js:303-326 | The loop builds exactly the specified history: max(days, 0) entries, entry i at offset days-1-i, each state consistent with its percentage |
| History.HistoryStatesByOffset | main.js:306-324 | For draws in [0,1): no emitted offset reaches `days`; the entry for the day o days ago has offset o and is down for o in {5,36}, partial for o in {12,20,48,72}, up otherwise |
| History.StatesIndependentOfDraws | main.js:311-322 | Two runs with different draws give the same sequence of states |
| History.HistoryOrdered | main.js:308-310 | The window starts `days - 1` days ago, ends today, and offsets strictly decrease (oldest to newest) |
| Viewport.DaysToDisplay | main.js:295-301 | The result is one of 90, 60, 30 or 14; it is 90 iff width >= 1200 and 14 iff width < 640 |
| Viewport.DaysToDisplayMonotone | main.js:295-301 | A wider viewport never shows fewer days |
| Viewport.DaysToDisplayBoundaries | main.js:295-301 | 1200→90, 1199→60, 900→60, 899→30, 640→30, 639→14, and a missing width (0)→14 |
| Viewport.ResizeController.constructor | main.js:486-488 | The initial render uses the bucket for the start-up width; no timer is pending |
| Viewport.ResizeController.OnResize | main.js:490-494 | A resize clears any scheduled timer and schedules a fresh one, so a timer is pending; nothing is rendered |
| Viewport.ResizeController.OnTimerFire | main.js:494-500 | Afterwards `currentDays` is the bucket for the width; a re-render happens (and is logged) iff that bucket differs from the previous `currentDays`; no two consecutive renders share a length |
| Viewport.ResizeBurst | main.js:490-500 | Several resize events followed by one firing render at most once, using the width at firing time |
| Viewport.FireTwiceSameWidth | main.js:494-500 | Firing twice at the same width: the second firing never re-renders |
| Labels.ServicePillLabel | main.js:191-200 | The pill reads "Unknown" exactly for an unrecognised or missing status |
| Labels.UptimeClassSuffix | main.js:204-214 | No uptime class is added exactly for the unknown bucket (distinct classes per bucket: `Labels.UptimeClassesInjective`) |
| Labels.GroupCell | main.js:187 | The group cell is never empty; a present group is shown as is and a missing or empty one shows the placeholder "–" |
| Labels.OverviewPillClass | main.js:137-143 | The banner pill gets no extra class exactly when the aggregate is neither degraded nor outage; it gets "degraded" exactly for degraded and "outage" exactly for outage |
| Labels.SeverityLabel | main.js:276-284 | The label is "Info" exactly for "info" and for unrecognised severities (distinct labels per severity: `Labels.SeverityLabelsInjective`) |
| Labels.ServiceIndex | main.js:244 | The keys are exactly the service ids; each maps to a service of the list that carries that id |
| Labels.ServiceIndexLastWins | main.js:244 | An id maps to the last service that carries it |
| Labels.IncidentBadges | main.js:266-272 | One badge per referenced id, in order; each shows the raw id or the name of a service carrying that id |
| Labels.BadgeResolution | main.js:266-271 | A dangling reference shows the raw id; with unique ids, a resolved one shows that service's name |
| Labels.IncidentMeta | main.js:256-260 | The start is always formatted; a range line carries the formatted resolution |
| Labels.OngoingIffActive | main.js:257-260 | A card reads "ongoing" exactly when the incident is counted as active by the banner |
| Labels.UptimeListStatus | main.js:412-426 | "Status Unknown" with no status class exactly for an unrecognised status (distinct texts and classes per status: `Labels.StatusLabelsInjective`) |
| Labels.BarClass | main.js:440-446 | Every bar state gets a class of the form "uptime-bar-…" (distinct per state: `Labels.BarClassesInjective`) |
| Labels.StatusLabelsInjective | main.js:193-200 | Different statuses never share a pill text, an uptime-list text or an uptime-list class; a banner class, when present, names one status |
| Labels.SeverityLabelsInjective | main.js:276-284 | Different severities never share a label |
| Labels.UptimeClassesInjective | main.js:204-214 | Different uptime buckets never share a cell class |
| Labels.BarClassesInjective | main.js:440-446 | Different bar states never share a bar class |
| Labels.BannerMatchesRows | main.js:79-88 | A "Major Service Outage" banner has a "Major Outage" row. A "Partial System Outage" banner has a "Degraded Performance" row and no outage row. The all-clear banner has no degraded or outage service and no "ongoing" incident card |
| Labels.ComposeTooltip | main.js:338-364 | The first line is the date label when there is one and the service name otherwise, so it is empty only when both are. The second line is "<name> – <label>" exactly when both date and name are present and the bare status label otherwise. A partial or down bar quotes its percentage exactly when that percentage is truthy (present, not NaN, not zero) and otherwise shows "Partial outage recorded on this day." or "Complete outage recorded on this day."; an up bar shows "No downtime recorded on this day."; a missing state shows "Unknown" and no sentence |
| Labels.TooltipForGeneratedBar | main.js:345-352 | For a generated bar: an up day shows the no-downtime sentence. A partial or down day quotes its percentage, which is never falsy there. Only the forced down offsets show a complete outage |
| Labels.ServicesTablePlaceholder | main.js:160-168 | The "No services configured yet." row appears exactly when there is no service |
| Labels.IncidentListPlaceholder | main.js:236-242 | The "No incidents recorded yet." placeholder appears exactly when there is no incident |
| Labels.UptimeListPlaceholder | main.js:383-389 | The uptime list shows the same placeholder as the table, exactly when there is no service |
| Fixtures.MockSummary | main.js:1-65 | The sample data summarise to degraded, "Partial System Outage", 1 active incident |
| Fixtures.MockUptimeClasses | main.js:1-38 | The sample uptimes classify good, good, warn, warn; 99.982 is shown to three places |

## Left out

- DOM construction and event wiring are not modelled: element creation, `innerHTML`, `classList`, `dataset`, listener registration and the `DOMContentLoaded` start-up. Only the text and class choices those passes make are modelled. These are calls into the browser.
- The debounce timing is not modelled. The 120 ms delay, `setTimeout` and `clearTimeout` are real-time event-loop behaviour. `ResizeController.timerPending` only records whether a callback is scheduled.
- The timer callback reads `window.innerWidth` when it fires, so the width used is the one at firing time. This is the last resize's width only if nothing changed in between.
- `toFixed` digit rendering is not modelled. `FixedPercent(value, 3)` stands for `value.toFixed(3) + "%"`, and the tooltip's `SuccessfulChecks(pct)` stands for `pct.toFixed(1)`.
- Locale date formatting and `new Date` parsing are host-library calls and are kept abstract. Parseability is the `parses` parameter, and a history day is an integer offset from today rather than a calendar date.
- The "Last updated" clock text is not modelled because it reads the wall clock.
- The uptime axis labels are not modelled because they need number-to-string conversion: "{days} days ago", "{percent} uptime" and "Today".
- The `status-pill ${status}` and `incident-severity ${severity}` class names are not modelled. They echo the raw string.
- Tooltip positioning geometry and `handleBarLeave` are not modelled. They are pixel layout and class toggling.
- Labels.TooltipForGeneratedBar: the bar stores its percentage rounded to one decimal. The lemma feeds the unrounded value. Rounding keeps every generated partial or down percentage at 40 or above, so its truthiness is unchanged.
- Infinite JavaScript numbers are not modelled. `Records.Number` has finite values and NaN only.
- History.BuildServiceHistory requires at least `2 * days` draws. `Math.random` never runs out, and a run uses one draw per day plus one per emitted forced day.
- History.BuildServiceHistory omits the service argument because `buildServiceHistory` never reads it.
- `incident.services || []` is modelled by letting a missing list be the empty sequence. Likewise, an empty `group` string stands for a missing group.
- The banner label chain ends in a "Status Unknown" branch that no aggregate reaches. The model keeps it and proves it unreachable (`Summary.SummaryLabelCases`).
- A NaN uptime is shown as the placeholder but classified bad, not unknown (`Format.PlaceholderUptimeClasses`).
- History.SuccessPctBand: the half-open bands [40,50), [65,85) and [99,100) assume exact real arithmetic. With IEEE doubles the largest draw can round to 50.0, 85.0 or 100.0; the states are unchanged, since 50 is still down, 85 still partial and 100 still up.
