/** The optional-value wrapper used for the dashboard's nullable fields. */
module Wrappers {

  datatype Option<+T> = None | Some(value: T)
}

/**
  The records the dashboard reads: services and incidents, as supplied by the
  data source. Both are read-only snapshots; nothing in the core changes them.
 */
module Records {
  import opened Wrappers

  /** A JavaScript number as the dashboard can meet it: a finite value or NaN. */
  datatype Number = Num(value: real) | NaN

  /**
    `service.status`. The code compares the string against "operational",
    "degraded" and "outage"; every other string, and a missing field, falls
    into Unknown.
   */
  datatype ServiceStatus = Operational | Degraded | Outage | Unknown

  /** `incident.severity`; Info stands for "info" and for every unrecognised value. */
  datatype Severity = Critical | Major | Minor | Info

  /** One monitored component; an empty `group` string stands for a missing group. */
  datatype Service = Service(
    id: string,
    name: string,
    description: string,
    group: string,
    status: ServiceStatus,
    uptime30d: Option<Number>,
    lastIncidentAt: Option<string>)

  /** One historical or ongoing event; a missing `services` list reads as empty. */
  datatype Incident = Incident(
    id: string,
    title: string,
    severity: Severity,
    startedAt: string,
    resolvedAt: Option<string>,
    services: seq<string>)

  /** `!incident.resolvedAt`: null, undefined and the empty string are all falsy. */
  predicate IsActive(incident: Incident) {
    incident.resolvedAt == None || incident.resolvedAt == Some("")
  }

  /** The data source's invariant: service ids are unique. */
  predicate UniqueIds(services: seq<Service>) {
    forall j, k :: 0 <= j < k < |services| ==> services[j].id != services[k].id
  }
}
