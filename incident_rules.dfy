/** Correlation and severity rules of the incident pipeline (times in whole seconds). */
module IncidentRules {
  import opened Util

  /** Gap in seconds after which an incident is no longer correlated and may resolve. */
  const IncidentResolutionTimeout: int := 120

  /** `is_correlated(last_seen, current_time)`: within the timeout, boundary included. */
  function IsCorrelated(lastSeen: Option<int>, now: int): (r: bool)
    ensures lastSeen.None? ==> !r
    ensures r ==> lastSeen.Some? && now - lastSeen.value <= IncidentResolutionTimeout
  {
    if lastSeen.None? then false else now - lastSeen.value <= IncidentResolutionTimeout
  }

  /** Correlation holds at a gap of exactly 120 s, fails at 121 s, and shrinking the gap keeps it. */
  lemma CorrelationWindow(lastSeen: int, now: int, earlier: int)
    requires earlier <= now
    ensures IsCorrelated(Some(lastSeen), lastSeen + 120)
    ensures !IsCorrelated(Some(lastSeen), lastSeen + 121)
    ensures IsCorrelated(Some(lastSeen), now) ==> IsCorrelated(Some(lastSeen), earlier)
    ensures IsCorrelated(Some(lastSeen), now) <==> now - lastSeen <= 120
  {
  }

  datatype Severity = Low | Medium | High

  function Rank(s: Severity): nat
  {
    match s
    case Low => 0
    case Medium => 1
    case High => 2
  }

  /** The additive score; signal names outside the four known ones add nothing. */
  function Score(signals: set<string>): (score: nat)
    ensures score <= 8
  {
    (if "error_rate_spike" in signals then 3 else 0)
    + (if "latency_degradation" in signals then 2 else 0)
    + (if "traffic_volume_spike" in signals then 1 else 0)
    + (if "retry_storm" in signals then 2 else 0)
  }

  /** `calculate_severity(signals)`: HIGH from score 4, MEDIUM from 2, else LOW. */
  function CalculateSeverity(signals: set<string>): (s: Severity)
    ensures s == High <==> Score(signals) >= 4
    ensures s == Medium <==> 2 <= Score(signals) < 4
    ensures s == Low <==> Score(signals) < 2
  {
    var score := Score(signals);
    if score >= 4 then High else if score >= 2 then Medium else Low
  }

  /**
   * The severity in terms of the signals themselves: HIGH needs an error spike
   * with any other known signal, or latency degradation with a retry storm;
   * LOW means none of error spike, latency degradation, retry storm.
   */
  lemma SeverityBySignals(signals: set<string>)
    ensures var e, l, t, r := "error_rate_spike" in signals, "latency_degradation" in signals,
                              "traffic_volume_spike" in signals, "retry_storm" in signals;
      && (CalculateSeverity(signals) == High <==> (e && (l || t || r)) || (l && r))
      && (CalculateSeverity(signals) == Low <==> !e && !l && !r)
  {
  }

  lemma SeveritySamples()
    ensures CalculateSeverity({}) == Low
    ensures CalculateSeverity({"error_rate_spike"}) == Medium
    ensures CalculateSeverity({"traffic_volume_spike"}) == Low
    ensures CalculateSeverity({"error_rate_spike", "latency_degradation"}) == High
    ensures CalculateSeverity({"unrelated"}) == Low
  {
  }

  /** More signals never lower the severity. */
  lemma SeverityMonotone(smaller: set<string>, larger: set<string>)
    requires smaller <= larger
    ensures Score(smaller) <= Score(larger)
    ensures Rank(CalculateSeverity(smaller)) <= Rank(CalculateSeverity(larger))
  {
  }
}
