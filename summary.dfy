/**
  The status aggregator: reduces the services' statuses to the worst one,
  counts the unresolved incidents and picks the banner label.
 */
module Summary {
  import opened Wrappers
  import opened Records

  datatype OverallStatus = OverallStatus(status: ServiceStatus, statusLabel: string, activeIncidentsCount: nat)

  /** Severity order: Outage dominates Degraded dominates Operational; Unknown never escalates. */
  function Rank(s: ServiceStatus): nat {
    match s
    case Outage => 2
    case Degraded => 1
    case _ => 0
  }

  /** Some service among the first `n` has status `s`. */
  predicate HasStatusBefore(services: seq<Service>, s: ServiceStatus, n: int) {
    exists k :: 0 <= k < n && k < |services| && services[k].status == s
  }

  predicate HasStatus(services: seq<Service>, s: ServiceStatus) {
    HasStatusBefore(services, s, |services|)
  }

  /** Reference definition of the aggregate: the worst status present, Operational when none escalates. */
  function AggregateStatus(services: seq<Service>): ServiceStatus {
    if HasStatus(services, Outage) then Outage
    else if HasStatus(services, Degraded) then Degraded
    else Operational
  }

  /** The aggregate is a worst case: no service ranks above it, and it is Operational or some service's status. */
  lemma AggregateIsWorst(services: seq<Service>)
    ensures forall k :: 0 <= k < |services| ==> Rank(services[k].status) <= Rank(AggregateStatus(services))
    ensures AggregateStatus(services) != Unknown
    ensures AggregateStatus(services) == Operational
         || exists k :: 0 <= k < |services| && services[k].status == AggregateStatus(services)
  {
  }

  /** `incidents.filter((incident) => !incident.resolvedAt)`, order preserved. */
  function ActiveIncidents(incidents: seq<Incident>): (r: seq<Incident>)
    ensures |r| <= |incidents|
    ensures forall x :: x in r <==> x in incidents && IsActive(x)
    decreases |incidents|
  {
    if incidents == [] then []
    else
      var n := |incidents| - 1;
      ActiveIncidents(incidents[..n]) + (if IsActive(incidents[n]) then [incidents[n]] else [])
  }

  /** Positions of the unresolved incidents. */
  function ActiveIndexes(incidents: seq<Incident>): set<nat> {
    set k: nat | k < |incidents| && IsActive(incidents[k])
  }

  /** The filter keeps exactly one entry per unresolved incident. */
  lemma {:induction false} ActiveCountIsIndexCount(incidents: seq<Incident>)
    ensures |ActiveIncidents(incidents)| == |ActiveIndexes(incidents)|
    decreases |incidents|
  {
    if incidents != [] {
      var n := |incidents| - 1;
      ActiveCountIsIndexCount(incidents[..n]);
      ActiveIndexesSnoc(incidents);
    }
  }

  /** Appending an incident adds its position exactly when it is unresolved. */
  lemma ActiveIndexesSnoc(incidents: seq<Incident>)
    requires incidents != []
    ensures var n := |incidents| - 1;
      |ActiveIndexes(incidents)| == |ActiveIndexes(incidents[..n])| + (if IsActive(incidents[n]) then 1 else 0)
  {
    var n := |incidents| - 1;
    var front := incidents[..n];
    var added: set<nat> := if IsActive(incidents[n]) then {n} else {};
    forall k: nat ensures k in ActiveIndexes(incidents) <==> k in ActiveIndexes(front) + added {
      if k < n {
        assert front[k] == incidents[k];
      }
    }
    assert ActiveIndexes(incidents) == ActiveIndexes(front) + added;
    assert ActiveIndexes(front) !! added;
  }

  /** The banner label; the last branch is kept although no aggregate reaches it. */
  function StatusLabel(status: ServiceStatus, activeCount: nat): string {
    if status == Operational then
      (if activeCount == 0 then "All Systems Operational" else "Operational with active incidents")
    else if status == Degraded then "Partial System Outage"
    else if status == Outage then "Major Service Outage"
    else "Status Unknown"
  }

  /** `summarizeOverallStatus` as a function of its inputs. */
  function Summarize(services: seq<Service>, incidents: seq<Incident>): OverallStatus {
    var status := AggregateStatus(services);
    var count := |ActiveIncidents(incidents)|;
    OverallStatus(status, StatusLabel(status, count), count)
  }

  /**
    The scan of `summarizeOverallStatus`: start at Operational, jump to Outage
    and stop at the first outage, escalate Operational to Degraded on a
    degraded service, ignore everything else.
   */
  method SummarizeOverallStatus(services: seq<Service>, incidents: seq<Incident>) returns (overall: OverallStatus)
    ensures overall == Summarize(services, incidents)
    ensures overall.status == Outage <==> HasStatus(services, Outage)
    ensures overall.activeIncidentsCount == |ActiveIndexes(incidents)|
  {
    var status := Operational;
    var i := 0;
    while i < |services|
      invariant 0 <= i <= |services|
      invariant !HasStatusBefore(services, Outage, i)
      invariant status == (if HasStatusBefore(services, Degraded, i) then Degraded else Operational)
    {
      if services[i].status == Outage {
        status := Outage;
        break;
      }
      if services[i].status == Degraded && status == Operational {
        status := Degraded;
      }
      i := i + 1;
    }
    var active := ActiveIncidents(incidents);
    ActiveCountIsIndexCount(incidents);
    overall := OverallStatus(status, StatusLabel(status, |active|), |active|);
  }

  /** One step of the scan without the early exit. */
  function Step(acc: ServiceStatus, s: ServiceStatus): ServiceStatus {
    if s == Outage then Outage
    else if s == Degraded && acc == Operational then Degraded
    else acc
  }

  /** The scan run to the end of the list, never breaking. */
  function ScanAll(acc: ServiceStatus, services: seq<Service>): ServiceStatus
    decreases |services|
  {
    if services == [] then acc else ScanAll(Step(acc, services[0].status), services[1..])
  }

  /** The worse of two statuses; on a tie the first is kept. */
  function Worse(a: ServiceStatus, b: ServiceStatus): ServiceStatus {
    if Rank(b) > Rank(a) then b else a
  }

  lemma AggregateCons(services: seq<Service>)
    requires services != []
    ensures AggregateStatus(services) == Worse(AggregateStatus(services[1..]), services[0].status)
  {
  }

  lemma {:induction false} ScanAllIsWorse(acc: ServiceStatus, services: seq<Service>)
    requires acc != Unknown
    ensures ScanAll(acc, services) == Worse(acc, AggregateStatus(services))
    decreases |services|
  {
    if services != [] {
      ScanAllIsWorse(Step(acc, services[0].status), services[1..]);
      AggregateCons(services);
    }
  }

  /** The early `break` does not change the result: scanning every service gives the same aggregate. */
  lemma BreakIsHarmless(services: seq<Service>)
    ensures ScanAll(Operational, services) == AggregateStatus(services)
  {
    ScanAllIsWorse(Operational, services);
    AggregateIsWorst(services);
  }

  /** The aggregate as an if-and-only-if per status. */
  lemma SummaryStatusCases(services: seq<Service>, incidents: seq<Incident>)
    ensures var r := Summarize(services, incidents);
      && (r.status == Outage <==> HasStatus(services, Outage))
      && (r.status == Degraded <==> !HasStatus(services, Outage) && HasStatus(services, Degraded))
      && (r.status == Operational <==> !HasStatus(services, Outage) && !HasStatus(services, Degraded))
      && r.status != Unknown
  {
  }

  /** The banner label as an if-and-only-if per label; "Status Unknown" is never produced. */
  lemma SummaryLabelCases(services: seq<Service>, incidents: seq<Incident>)
    ensures var r := Summarize(services, incidents);
      && (r.statusLabel == "All Systems Operational" <==> r.status == Operational && r.activeIncidentsCount == 0)
      && (r.statusLabel == "Operational with active incidents" <==> r.status == Operational && r.activeIncidentsCount > 0)
      && (r.statusLabel == "Partial System Outage" <==> r.status == Degraded)
      && (r.statusLabel == "Major Service Outage" <==> r.status == Outage)
      && r.statusLabel != "Status Unknown"
  {
  }

  /** The active count depends on the incidents alone and counts those with a falsy `resolvedAt`. */
  lemma ActiveCountIndependentOfServices(s1: seq<Service>, s2: seq<Service>, incidents: seq<Incident>)
    ensures Summarize(s1, incidents).activeIncidentsCount == Summarize(s2, incidents).activeIncidentsCount
    ensures Summarize(s1, incidents).activeIncidentsCount == |ActiveIndexes(incidents)|
  {
    ActiveCountIsIndexCount(incidents);
  }

  function ServiceWith(id: string, status: ServiceStatus): Service {
    Service(id, id, "", "", status, None, None)
  }

  /** Empty inputs summarise to the all-clear banner. */
  lemma SummarizeEmpty()
    ensures Summarize([], []) == OverallStatus(Operational, "All Systems Operational", 0)
  {
  }

  /** Degraded then operational is degraded; a degraded service does not block a later outage. */
  lemma SummarizeOrderExamples()
    ensures Summarize([ServiceWith("a", Degraded), ServiceWith("b", Operational)], []).status == Degraded
    ensures Summarize([ServiceWith("a", Operational), ServiceWith("b", Degraded), ServiceWith("c", Outage)], []).status
         == Outage
  {
    var s2 := [ServiceWith("a", Degraded), ServiceWith("b", Operational)];
    assert s2[0].status == Degraded;
    var s3 := [ServiceWith("a", Operational), ServiceWith("b", Degraded), ServiceWith("c", Outage)];
    assert s3[2].status == Outage;
  }

  /** An unresolved incident on an all-operational system gives the second banner label. */
  lemma SummarizeActiveIncidentExample(incident: Incident)
    requires incident.resolvedAt == None
    ensures Summarize([ServiceWith("a", Operational)], [incident]).statusLabel == "Operational with active incidents"
  {
  }
}
