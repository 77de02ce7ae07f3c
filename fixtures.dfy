/** The dashboard's built-in sample data and what the core makes of it. */
module Fixtures {
  import opened Wrappers
  import opened Records
  import opened Format
  import opened Summary

  function MockServices(): seq<Service> {
    [ Service("core-api", "Core API", "Public, authenticated RPC and REST endpoints", "Core",
              Operational, Some(Num(99.982)), Some("2026-01-15T09:30:00Z")),
      Service("ingest", "Ingest pipeline", "Ingestion and normalization for events", "Data",
              Operational, Some(Num(99.963)), Some("2026-01-08T14:10:00Z")),
      Service("dashboards", "Dashboards", "Web dashboard and configuration UI", "UX",
              Degraded, Some(Num(99.721)), Some("2026-01-27T06:05:00Z")),
      Service("webhooks", "Webhooks", "Outbound notifications and incident webhooks", "Integrations",
              Operational, Some(Num(99.901)), Some("2026-01-11T18:40:00Z")) ]
  }

  function MockIncidents(): seq<Incident> {
    [ Incident("incident-3", "Elevated error rates on dashboards", Minor, "2026-01-27T05:40:00Z",
               None, ["dashboards"]),
      Incident("incident-2", "Webhook delivery delays", Minor, "2026-01-11T18:12:00Z",
               Some("2026-01-11T18:40:00Z"), ["webhooks"]),
      Incident("incident-1", "API p99 latency increase", Major, "2026-01-08T13:32:00Z",
               Some("2026-01-08T14:10:00Z"), ["core-api", "ingest"]) ]
  }

  /** The sample data: one degraded service and one unresolved incident give the partial outage banner. */
  lemma MockSummary()
    ensures Summarize(MockServices(), MockIncidents())
         == OverallStatus(Degraded, "Partial System Outage", 1)
  {
    var services := MockServices();
    assert services[2].status == Degraded;
    assert forall k :: 0 <= k < |services| ==> services[k].status != Outage;
    var incidents := MockIncidents();
    ActiveCountIsIndexCount(incidents);
    assert IsActive(incidents[0]) && !IsActive(incidents[1]) && !IsActive(incidents[2]);
    assert ActiveIndexes(incidents) == {0};
  }

  /** The sample uptimes: the first two are good, the other two warn. */
  lemma MockUptimeClasses()
    ensures ClassifyUptime(MockServices()[0].uptime30d) == Good
    ensures ClassifyUptime(MockServices()[1].uptime30d) == Good
    ensures ClassifyUptime(MockServices()[2].uptime30d) == Warn
    ensures ClassifyUptime(MockServices()[3].uptime30d) == Warn
    ensures FormatPercent(MockServices()[0].uptime30d) == FixedPercent(99.982, 3)
  {
  }
}
