/**
 * The one-slot incident state machine: the active incident is opened,
 * extended in place while anomalies keep arriving within the correlation
 * window, resolved after a quiet gap, and replaced by a fresh incident.
 * Times are whole seconds; `freshId` stands for the generated incident id.
 */
module IncidentManager {
  import opened Util
  import opened IncidentRules

  datatype IncidentStatus = Open | Ongoing | Resolved

  /** What `to_dict` reports of an incident (service and signal lists as sets). */
  datatype IncidentView = IncidentView(
    incidentId: string,
    status: IncidentStatus,
    startedAt: int,
    lastSeenAt: int,
    services: set<string>,
    signals: set<string>,
    severity: Severity,
    windowCount: int)

  /** A freshly constructed incident. */
  function NewIncident(id: string, services: set<string>, signals: set<string>, now: int): IncidentView
  {
    IncidentView(id, Open, now, now, services, signals, CalculateSeverity(signals), 1)
  }

  /** An incident whose severity matches its signals and which has seen at least one window. */
  predicate Consistent(v: IncidentView)
  {
    v.severity == CalculateSeverity(v.signals) && v.windowCount >= 1
  }

  /** The effect of `update` on the active incident, stated on snapshots. */
  function Step(cur: Option<IncidentView>, isAnomaly: bool, signals: set<string>,
                affected: set<string>, now: int, freshId: string): Option<IncidentView>
  {
    if isAnomaly then
      if cur.Some? && IsCorrelated(Some(cur.value.lastSeenAt), now) && cur.value.status != Resolved then
        var v := cur.value;
        Some(v.(status := Ongoing, lastSeenAt := now,
                services := v.services + affected, signals := v.signals + signals,
                severity := CalculateSeverity(v.signals + signals),
                windowCount := v.windowCount + 1))
      else
        Some(NewIncident(freshId, affected, signals, now))
    else if cur.Some? && cur.value.status != Resolved
            && now - cur.value.lastSeenAt > IncidentResolutionTimeout then
      Some(cur.value.(status := Resolved))
    else
      cur
  }

  /** An anomaly with no active incident opens a new one. */
  lemma AnomalyOpensIncident(signals: set<string>, affected: set<string>, now: int, freshId: string)
    ensures Step(None, true, signals, affected, now, freshId) == Some(NewIncident(freshId, affected, signals, now))
  {
  }

  /**
   * A correlated anomaly on an unresolved incident keeps its id and start,
   * marks it ONGOING, moves last_seen_at to now, unions services and signals,
   * recomputes the severity and counts one more window.
   */
  lemma CorrelatedAnomalyExtends(v: IncidentView, signals: set<string>, affected: set<string>,
                                 now: int, freshId: string)
    requires v.status != Resolved && now - v.lastSeenAt <= IncidentResolutionTimeout
    ensures var w := Step(Some(v), true, signals, affected, now, freshId);
      && w.Some? && w.value.incidentId == v.incidentId && w.value.startedAt == v.startedAt
      && w.value.status == Ongoing && w.value.lastSeenAt == now
      && w.value.services == v.services + affected && w.value.signals == v.signals + signals
      && w.value.severity == CalculateSeverity(v.signals + signals)
      && w.value.windowCount == v.windowCount + 1
  {
  }

  /** After resolution, or after a gap over 120 s, an anomaly starts a fresh incident. */
  lemma StaleIncidentReplaced(v: IncidentView, signals: set<string>, affected: set<string>,
                              now: int, freshId: string)
    requires v.status == Resolved || now - v.lastSeenAt > IncidentResolutionTimeout
    ensures Step(Some(v), true, signals, affected, now, freshId) == Some(NewIncident(freshId, affected, signals, now))
  {
  }

  /**
   * Without an anomaly nothing is created, the active incident stays active,
   * and an unresolved incident becomes RESOLVED exactly when the quiet gap
   * exceeds 120 s, with every other field unchanged.
   */
  lemma QuietWindow(cur: Option<IncidentView>, signals: set<string>, affected: set<string>,
                    now: int, freshId: string)
    ensures var w := Step(cur, false, signals, affected, now, freshId);
      && (w.None? <==> cur.None?)
      && (cur.Some? ==> w.value == cur.value.(status := w.value.status))
      && (cur.Some? && cur.value.status != Resolved ==>
            (w.value.status == Resolved <==> now - cur.value.lastSeenAt > IncidentResolutionTimeout))
      && (cur.Some? && cur.value.status == Resolved ==> w == cur)
  {
  }

  /** Every step keeps the severity in line with the signals and the window count positive. */
  lemma StepKeepsConsistent(cur: Option<IncidentView>, isAnomaly: bool, signals: set<string>,
                            affected: set<string>, now: int, freshId: string)
    requires cur.Some? ==> Consistent(cur.value)
    ensures var w := Step(cur, isAnomaly, signals, affected, now, freshId);
      w.Some? ==> Consistent(w.value)
  {
  }

  /**
   * While an incident carries on under the same id its signal set only grows,
   * so its severity never drops.
   */
  lemma SameIncidentNeverDeescalates(v: IncidentView, isAnomaly: bool, signals: set<string>,
                                     affected: set<string>, now: int, freshId: string)
    requires Consistent(v) && freshId != v.incidentId
    ensures var w := Step(Some(v), isAnomaly, signals, affected, now, freshId);
      w.Some? && w.value.incidentId == v.incidentId ==>
        v.signals <= w.value.signals && Rank(v.severity) <= Rank(w.value.severity)
  {
    var w := Step(Some(v), isAnomaly, signals, affected, now, freshId);
    if w.Some? && w.value.incidentId == v.incidentId {
      SeverityMonotone(v.signals, w.value.signals);
    }
  }

  class Incident {
    const incidentId: string
    var status: IncidentStatus
    const startedAt: int
    var lastSeenAt: int
    var services: set<string>
    var signals: set<string>
    var severity: Severity
    var windowCount: int

    ghost predicate Valid()
      reads this
    {
      Consistent(View())
    }

    /** `to_dict`. */
    function View(): IncidentView
      reads this
    {
      IncidentView(incidentId, status, startedAt, lastSeenAt, services, signals, severity, windowCount)
    }

    /** `Incident(services, signals, started_at)`: OPEN, seen once, severity from its signals. */
    constructor (id: string, services: set<string>, signals: set<string>, startedAt: int)
      ensures Valid()
      ensures incidentId == id && status == Open
      ensures this.startedAt == startedAt && lastSeenAt == startedAt
      ensures this.services == services && this.signals == signals
      ensures severity == CalculateSeverity(signals) && windowCount == 1
    {
      incidentId := id;
      status := Open;
      this.startedAt := startedAt;
      lastSeenAt := startedAt;
      this.services := services;
      this.signals := signals;
      severity := CalculateSeverity(signals);
      windowCount := 1;
    }
  }

  class IncidentManager {
    var activeIncident: Incident?

    ghost predicate Valid()
      reads this, activeIncident
    {
      activeIncident != null ==> activeIncident.Valid()
    }

    /** The snapshot `get_current` would return. */
    ghost function Current(): Option<IncidentView>
      reads this, activeIncident
    {
      if activeIncident == null then None else Some(activeIncident.View())
    }

    constructor ()
      ensures Valid() && activeIncident == null
    {
      activeIncident := null;
    }

    /** `get_current`: None exactly when there is no active incident, else its snapshot. */
    method GetCurrent() returns (r: Option<IncidentView>)
      ensures r.None? <==> activeIncident == null
      ensures activeIncident != null ==> r == Some(activeIncident.View())
    {
      if activeIncident != null {
        return Some(activeIncident.View());
      }
      return None;
    }

    /** `_create_new_incident`: replaces the active incident with a new one. */
    method CreateNewIncident(services: set<string>, signals: set<string>, now: int, freshId: string)
      modifies this
      ensures activeIncident != null && fresh(activeIncident) && Valid()
      ensures Current() == Some(NewIncident(freshId, services, signals, now))
    {
      activeIncident := new Incident(freshId, services, signals, now);
    }

    /**
     * `update(anomaly_result, affected_services, now)`: the active incident
     * after the call is `Step` of the one before; it is either the same object
     * updated in place or a freshly allocated one.
     */
    method Update(isAnomaly: bool, signals: set<string>, affected: set<string>, now: int, freshId: string)
      requires Valid()
      modifies this, activeIncident
      ensures Valid()
      ensures Current() == Step(old(Current()), isAnomaly, signals, affected, now, freshId)
      ensures activeIncident != old(activeIncident) ==> activeIncident != null && fresh(activeIncident)
    {
      if isAnomaly {
        if activeIncident != null {
          if IsCorrelated(Some(activeIncident.lastSeenAt), now) {
            if activeIncident.status == Resolved {
              CreateNewIncident(affected, signals, now, freshId);
            } else {
              activeIncident.status := Ongoing;
              activeIncident.lastSeenAt := now;
              activeIncident.services := activeIncident.services + affected;
              activeIncident.signals := activeIncident.signals + signals;
              activeIncident.severity := CalculateSeverity(activeIncident.signals);
              activeIncident.windowCount := activeIncident.windowCount + 1;
            }
          } else {
            CreateNewIncident(affected, signals, now, freshId);
          }
        } else {
          CreateNewIncident(affected, signals, now, freshId);
        }
      } else {
        if activeIncident != null && activeIncident.status != Resolved {
          var timeSinceLast := now - activeIncident.lastSeenAt;
          if timeSinceLast > IncidentResolutionTimeout {
            activeIncident.status := Resolved;
          }
        }
      }
    }
  }
}
