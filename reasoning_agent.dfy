/**
 * The offline reasoning agent: a priority-ordered classifier from an
 * incident's signals and services to one of eight scenario labels, the
 * hypothesis and action plan looked up by that label, the evidence list
 * built line by line, and a capped confidence score. Confidence is kept in
 * integer hundredths; the texts of hypotheses, evidence and actions are
 * represented by which entry is chosen, not by their wording.
 */
module ReasoningAgent {
  import opened Util
  import AnomalyDetector

  datatype Scenario =
    | AuthFailure | DbExhaustion | DbSlowQuery | CascadingFailure
    | TrafficAnomaly | LatencyDegradation | RetryStorm | Unknown

  /** The label a scenario is reported under. */
  function Label(s: Scenario): string
  {
    match s
    case AuthFailure => "auth_failure"
    case DbExhaustion => "db_exhaustion"
    case DbSlowQuery => "db_slow_query"
    case CascadingFailure => "cascading_failure"
    case TrafficAnomaly => "traffic_anomaly"
    case LatencyDegradation => "latency_degradation"
    case RetryStorm => "retry_storm"
    case Unknown => "unknown"
  }

  /** Dictionary lookup by label, falling back to the "unknown" entry. */
  function ScenarioOf(key: string): Scenario
  {
    if key == "auth_failure" then AuthFailure
    else if key == "db_exhaustion" then DbExhaustion
    else if key == "db_slow_query" then DbSlowQuery
    else if key == "cascading_failure" then CascadingFailure
    else if key == "traffic_anomaly" then TrafficAnomaly
    else if key == "latency_degradation" then LatencyDegradation
    else if key == "retry_storm" then RetryStorm
    else Unknown
  }

  /** One of the eight labels. */
  predicate IsLabel(key: string)
  {
    Label(ScenarioOf(key)) == key
  }

  /** Looking a label up finds its own scenario, so the eight labels are distinct. */
  lemma LabelRoundTrip(s: Scenario)
    ensures ScenarioOf(Label(s)) == s
    ensures IsLabel(Label(s))
  {
  }

  /** A string that is not one of the eight labels looks up the "unknown" entry. */
  lemma LookupFallback(key: string)
    requires !IsLabel(key)
    ensures ScenarioOf(key) == Unknown
  {
  }

  // ---------------------------------------------------------------------
  // Scenario identification
  // ---------------------------------------------------------------------

  /**
   * `_identify_scenario`: the first matching rule wins, in the order auth
   * failure, traffic anomaly, cascading failure, database exhaustion or slow
   * query, latency degradation, retry storm; otherwise unknown. Each result
   * implies the signals and services its rule asks for.
   */
  function IdentifyScenario(signals: seq<string>, services: seq<string>): (r: Scenario)
    ensures r == AuthFailure ==> "error_rate_spike" in signals && "auth" in services
    ensures r == TrafficAnomaly ==> "traffic_volume_spike" in signals && "frontend" in services
    ensures r == CascadingFailure ==> ("latency_degradation" in signals
      && ("service-a" in services || "service-b" in services || "service-c" in services))
    ensures r == DbExhaustion ==> ("latency_degradation" in signals && "error_rate_spike" in signals
      && "database" in services)
    ensures r == DbSlowQuery ==> ("latency_degradation" in signals && "error_rate_spike" !in signals
      && "database" in services && |services| <= 2)
    ensures r == LatencyDegradation ==> ("latency_degradation" in signals
      && "error_rate_spike" !in signals && "traffic_volume_spike" !in signals)
    ensures r == RetryStorm ==> "retry_storm" in signals
  {
    if "error_rate_spike" in signals && "auth" in services then AuthFailure
    else if "traffic_volume_spike" in signals && "frontend" in services then TrafficAnomaly
    else
      var multiService := "service-a" in services || "service-b" in services || "service-c" in services;
      if multiService && "latency_degradation" in signals then CascadingFailure
      else if "latency_degradation" in signals && "database" in services
              && ("error_rate_spike" in signals
                  || |services| == 1 || (|services| <= 2 && "database" in services)) then
        if "error_rate_spike" in signals then DbExhaustion else DbSlowQuery
      else if "latency_degradation" in signals && "error_rate_spike" !in signals
              && "traffic_volume_spike" !in signals then LatencyDegradation
      else if "retry_storm" in signals then RetryStorm
      else Unknown
  }

  /** An error spike on the auth service is auth failure whatever else is present. */
  lemma AuthFailureFirst(signals: seq<string>, services: seq<string>)
    requires "error_rate_spike" in signals && "auth" in services
    ensures IdentifyScenario(signals, services) == AuthFailure
  {
  }

  /** A traffic spike on the frontend is a traffic anomaly unless the auth rule fired first. */
  lemma TrafficRule(signals: seq<string>, services: seq<string>)
    requires !("error_rate_spike" in signals && "auth" in services)
    requires "traffic_volume_spike" in signals && "frontend" in services
    ensures IdentifyScenario(signals, services) == TrafficAnomaly
  {
  }

  /**
   * Latency degradation with any of service-a, service-b or service-c is a
   * cascading failure unless the auth or traffic rule fired first.
   */
  lemma CascadingRule(signals: seq<string>, services: seq<string>)
    requires !("error_rate_spike" in signals && "auth" in services)
    requires !("traffic_volume_spike" in signals && "frontend" in services)
    requires "latency_degradation" in signals
    requires "service-a" in services || "service-b" in services || "service-c" in services
    ensures IdentifyScenario(signals, services) == CascadingFailure
  {
  }

  /**
   * Pure latency degradation that none of the first four rules claims (no
   * chained service, and not the database among at most two services) is
   * latency degradation.
   */
  lemma LatencyRule(signals: seq<string>, services: seq<string>)
    requires !("traffic_volume_spike" in signals && "frontend" in services)
    requires "service-a" !in services && "service-b" !in services && "service-c" !in services
    requires !("database" in services && |services| <= 2)
    requires "latency_degradation" in signals
    requires "error_rate_spike" !in signals && "traffic_volume_spike" !in signals
    ensures IdentifyScenario(signals, services) == LatencyDegradation
  {
  }

  /**
   * When none of the first five rules fires, a retry storm is a retry storm
   * and anything else is unknown.
   */
  lemma LastRules(signals: seq<string>, services: seq<string>)
    requires !("error_rate_spike" in signals && "auth" in services)
    requires !("traffic_volume_spike" in signals && "frontend" in services)
    requires !("latency_degradation" in signals
               && ("service-a" in services || "service-b" in services || "service-c" in services))
    requires !("latency_degradation" in signals && "database" in services
               && ("error_rate_spike" in signals || |services| <= 2))
    requires !("latency_degradation" in signals
               && "error_rate_spike" !in signals && "traffic_volume_spike" !in signals)
    ensures "retry_storm" in signals ==> IdentifyScenario(signals, services) == RetryStorm
    ensures "retry_storm" !in signals ==> IdentifyScenario(signals, services) == Unknown
  {
  }

  /**
   * With latency degradation on the database and none of the earlier rules
   * firing, an error spike makes it exhaustion, and otherwise at most two
   * services make it a slow query.
   */
  lemma DatabaseRules(signals: seq<string>, services: seq<string>)
    requires !("error_rate_spike" in signals && "auth" in services)
    requires !("traffic_volume_spike" in signals && "frontend" in services)
    requires "service-a" !in services && "service-b" !in services && "service-c" !in services
    requires "latency_degradation" in signals && "database" in services
    ensures "error_rate_spike" in signals ==> IdentifyScenario(signals, services) == DbExhaustion
    ensures "error_rate_spike" !in signals && |services| <= 2 ==>
      IdentifyScenario(signals, services) == DbSlowQuery
    ensures "error_rate_spike" !in signals && "traffic_volume_spike" !in signals && |services| > 2 ==>
      IdentifyScenario(signals, services) == LatencyDegradation
  {
  }

  /** Pure latency degradation, without error or traffic signals, is never unknown. */
  lemma PureLatencyIsClassified(signals: seq<string>, services: seq<string>)
    requires "latency_degradation" in signals
    requires "error_rate_spike" !in signals && "traffic_volume_spike" !in signals
    ensures IdentifyScenario(signals, services) != Unknown
    ensures IdentifyScenario(signals, services) in {CascadingFailure, DbSlowQuery, LatencyDegradation}
  {
  }

  /**
   * Unknown exactly when no rule fires: in particular a retry storm, or
   * signals naming none of the four detector signals, decide the outcome.
   */
  lemma UnknownCases(signals: seq<string>, services: seq<string>)
    ensures "retry_storm" in signals ==> IdentifyScenario(signals, services) != Unknown
    ensures ("error_rate_spike" !in signals && "latency_degradation" !in signals
             && "traffic_volume_spike" !in signals && "retry_storm" !in signals) ==>
      IdentifyScenario(signals, services) == Unknown
  {
  }

  // ---------------------------------------------------------------------
  // Hypotheses and actions
  // ---------------------------------------------------------------------

  /** `_generate_hypothesis`: the hypothesis entry chosen for a label. */
  function GenerateHypothesis(key: string): (h: Scenario)
    ensures IsLabel(key) ==> Label(h) == key
    ensures !IsLabel(key) ==> h == Unknown
  {
    ScenarioOf(key)
  }

  /** The `index`-th entry of a scenario's action list; `immediate` when it is marked IMMEDIATE. */
  datatype Action = Action(scenario: Scenario, index: nat, immediate: bool)

  /** Number of remediation actions listed per scenario. */
  function ActionCount(s: Scenario): nat
  {
    match s
    case DbSlowQuery => 4
    case RetryStorm => 4
    case Unknown => 4
    case _ => 5
  }

  /** Scenarios whose plan opens with an IMMEDIATE step. */
  predicate LeadsWithImmediate(s: Scenario)
  {
    s == AuthFailure || s == DbExhaustion || s == CascadingFailure || s == TrafficAnomaly
  }

  /**
   * `_recommend_actions`: the action list of the label's scenario, falling
   * back to the unknown plan; four or five steps, and only the first of the
   * attack scenarios' plans is IMMEDIATE.
   */
  function RecommendActions(key: string): (actions: seq<Action>)
    ensures 4 <= |actions| <= 5
    ensures forall i :: 0 <= i < |actions| ==>
      actions[i].scenario == ScenarioOf(key) && actions[i].index == i
    ensures forall i :: 0 <= i < |actions| ==>
      (actions[i].immediate <==> i == 0 && LeadsWithImmediate(ScenarioOf(key)))
    ensures !IsLabel(key) ==> forall i :: 0 <= i < |actions| ==> actions[i].scenario == Unknown
  {
    var s := ScenarioOf(key);
    seq(ActionCount(s), i requires 0 <= i => Action(s, i, i == 0 && LeadsWithImmediate(s)))
  }

  // ---------------------------------------------------------------------
  // Confidence, in hundredths
  // ---------------------------------------------------------------------

  /** `metrics.get(key, default)`. */
  function Get(metrics: map<string, real>, key: string, default: real): real
  {
    if key in metrics then metrics[key] else default
  }

  /** Per-scenario base confidence; a string outside the table gets 50. */
  function BaseConfidence(key: string): (b: int)
    ensures IsLabel(key) ==> 40 <= b <= 90
    ensures IsLabel(key) && b == 40 ==> key == "unknown"
    ensures !IsLabel(key) ==> b == 50
  {
    if !IsLabel(key) then 50
    else match ScenarioOf(key)
      case AuthFailure => 85
      case DbExhaustion => 90
      case CascadingFailure => 75
      case TrafficAnomaly => 88
      case LatencyDegradation => 70
      case RetryStorm => 80
      case DbSlowQuery => 65
      case Unknown => 40
  }

  /** The short-window latency over the baseline latency, the baseline taken as at least 1. */
  function LatencyRatio(metrics: map<string, real>): real
  {
    Get(metrics, "avg_latency_short", 0.0) / MaxReal(Get(metrics, "avg_latency_baseline", 1.0), 1.0)
  }

  /** The bonuses: 5 each for two and for three signals, 5 for two similar incidents, 3 each for the metric deviations. */
  function Bonus(signalCount: nat, similarCount: nat, metrics: map<string, real>): (b: int)
    ensures 0 <= b <= 21
  {
    (if signalCount >= 2 then 5 else 0)
    + (if signalCount >= 3 then 5 else 0)
    + (if similarCount >= 2 then 5 else 0)
    + (if Get(metrics, "error_rate_short", 0.0) > 0.5 then 3 else 0)
    + (if LatencyRatio(metrics) > 3.0 then 3 else 0)
  }

  /**
   * `_calculate_confidence`: base plus bonuses, capped at 98. It never falls
   * below the base, never exceeds it by more than the bonuses, and lies in
   * [40, 98] for every label.
   */
  function CalculateConfidence(key: string, signalCount: nat, similarCount: nat,
                               metrics: map<string, real>): (c: int)
    ensures c <= 98
    ensures BaseConfidence(key) <= c <= BaseConfidence(key) + 21
    ensures c == BaseConfidence(key) <==> Bonus(signalCount, similarCount, metrics) == 0
    ensures IsLabel(key) ==> 40 <= c
  {
    MinInt(BaseConfidence(key) + Bonus(signalCount, similarCount, metrics), 98)
  }

  /** More signals and more similar incidents never lower the confidence. */
  lemma ConfidenceMonotone(key: string, signals1: nat, signals2: nat, similar1: nat, similar2: nat,
                           metrics: map<string, real>)
    requires signals1 <= signals2 && similar1 <= similar2
    ensures CalculateConfidence(key, signals1, similar1, metrics)
         <= CalculateConfidence(key, signals2, similar2, metrics)
  {
  }

  /** Every scenario's confidence lies in [40, 98]; the database exhaustion pattern reaches the cap with three signals. */
  lemma ConfidenceRange(s: Scenario, signalCount: nat, similarCount: nat, metrics: map<string, real>)
    ensures 40 <= CalculateConfidence(Label(s), signalCount, similarCount, metrics) <= 98
    ensures signalCount >= 3 && s == DbExhaustion ==>
      CalculateConfidence(Label(s), signalCount, similarCount, metrics) == 98
  {
    LabelRoundTrip(s);
  }

  // ---------------------------------------------------------------------
  // Evidence
  // ---------------------------------------------------------------------

  /** A similar past incident; only its resolution is read. */
  datatype Similar = Similar(resolution: Option<string>)

  /** The evidence lines, by kind and the values they report. */
  datatype Evidence =
    | ActiveSignals(signals: seq<string>)
    | AffectedServices(services: seq<string>)
    | IncidentDuration(seconds: int)
    | AuthErrorRate(percent: real, baselinePercent: real)
    | DatabaseLatency(latency: real, baseline: real, increase: real)
    | TrafficRate(rate: real, baseline: real, increase: real)
    | ElevatedLatency(latency: real)
    | Observation(scenario: Scenario, index: nat)
    | PatternMatch(similarCount: nat)
    | PreviousResolution(resolution: string)
    | NovelPattern

  /** Python's `int()` on a float: truncation toward zero. */
  function Truncate(x: real): (n: int)
    ensures x >= 0.0 ==> n as real <= x < n as real + 1.0
    ensures x < 0.0 ==> n as real - 1.0 < x <= n as real
  {
    if x >= 0.0 then x.Floor else -((-x).Floor)
  }

  /** `x / base if base > 0 else 0`, the guarded ratio of the database latency line. */
  function GuardedRatio(x: real, base: real): (r: real)
    ensures base > 0.0 ==> r * base == x
    ensures base <= 0.0 ==> r == 0.0
  {
    if base > 0.0 then x / base else 0.0
  }

  /**
   * The traffic line's increase as written: `log_rate / baseline_rate` with
   * the baseline defaulting to 1 but not guarded against 0; None stands for
   * the ZeroDivisionError.
   */
  function TrafficIncreaseAsWritten(metrics: map<string, real>): (r: Option<real>)
    ensures r.None? <==> Get(metrics, "log_rate_baseline", 1.0) == 0.0
    ensures r.Some? ==> r.value * Get(metrics, "log_rate_baseline", 1.0) == Get(metrics, "log_rate_short", 0.0)
  {
    var baseline := Get(metrics, "log_rate_baseline", 1.0);
    if baseline == 0.0 then None else Some(Get(metrics, "log_rate_short", 0.0) / baseline)
  }

  /** The traffic line's increase with the same guard as the database line; it always has a value. */
  function TrafficIncrease(metrics: map<string, real>): (r: real)
    ensures var baseline := Get(metrics, "log_rate_baseline", 1.0);
      && (baseline > 0.0 ==> r * baseline == Get(metrics, "log_rate_short", 0.0))
      && (baseline <= 0.0 ==> r == 0.0)
  {
    GuardedRatio(Get(metrics, "log_rate_short", 0.0), Get(metrics, "log_rate_baseline", 1.0))
  }

  /** Wherever the unguarded division succeeds on a positive baseline, the guarded one agrees with it. */
  lemma TrafficIncreaseAgrees(metrics: map<string, real>)
    requires Get(metrics, "log_rate_baseline", 1.0) > 0.0
    ensures TrafficIncreaseAsWritten(metrics) == Some(TrafficIncrease(metrics))
  {
  }

  /** The scenario-specific evidence lines. */
  function ScenarioEvidence(key: string, metrics: map<string, real>, duration: real): (lines: seq<Evidence>)
    ensures ScenarioOf(key) in {AuthFailure, DbExhaustion, LatencyDegradation} ==> |lines| == 3
    ensures ScenarioOf(key) == TrafficAnomaly ==> |lines| == 4
    ensures ScenarioOf(key) == CascadingFailure ==> |lines| == (if duration > 40.0 then 4 else 3)
    ensures ScenarioOf(key) in {DbSlowQuery, RetryStorm, Unknown} ==> lines == []
  {
    match ScenarioOf(key)
    case AuthFailure =>
      [AuthErrorRate(Get(metrics, "error_rate_short", 0.0) * 100.0, Get(metrics, "error_rate_baseline", 0.0) * 100.0),
       Observation(AuthFailure, 0), Observation(AuthFailure, 1)]
    case DbExhaustion =>
      var latency := Get(metrics, "avg_latency_short", 0.0);
      var baseline := Get(metrics, "avg_latency_baseline", 0.0);
      [DatabaseLatency(latency, baseline, GuardedRatio(latency, baseline)),
       Observation(DbExhaustion, 0), Observation(DbExhaustion, 1)]
    case CascadingFailure =>
      [Observation(CascadingFailure, 0), Observation(CascadingFailure, 1), Observation(CascadingFailure, 2)]
      + (if duration > 40.0 then [Observation(CascadingFailure, 3)] else [])
    case TrafficAnomaly =>
      [TrafficRate(Get(metrics, "log_rate_short", 0.0), Get(metrics, "log_rate_baseline", 1.0), TrafficIncrease(metrics)),
       Observation(TrafficAnomaly, 0), Observation(TrafficAnomaly, 1), Observation(TrafficAnomaly, 2)]
    case LatencyDegradation =>
      [ElevatedLatency(Get(metrics, "avg_latency_short", 0.0)),
       Observation(LatencyDegradation, 0), Observation(LatencyDegradation, 1)]
    case _ => []
  }

  /** A resolution counts when present and non-empty. */
  predicate HasResolution(s: Similar)
  {
    s.resolution.Some? && s.resolution.value != ""
  }

  /** The historical-context lines. */
  function HistoryEvidence(similar: seq<Similar>): (lines: seq<Evidence>)
    ensures similar == [] ==> lines == [NovelPattern]
    ensures similar != [] ==> |lines| >= 1 && lines[0] == PatternMatch(|similar|)
    ensures similar != [] ==> (|lines| == 2 <==> HasResolution(similar[0]))
    ensures similar != [] && HasResolution(similar[0]) ==> lines[1] == PreviousResolution(similar[0].resolution.value)
  {
    if similar == [] then [NovelPattern]
    else if HasResolution(similar[0]) then [PatternMatch(|similar|), PreviousResolution(similar[0].resolution.value)]
    else [PatternMatch(|similar|)]
  }

  /** A line about historical context. */
  predicate IsHistoryLine(e: Evidence)
  {
    e.PatternMatch? || e.PreviousResolution? || e.NovelPattern?
  }

  /** The scenario branch of `_build_evidence`: appends the scenario's lines. */
  method AppendScenarioEvidence(before: seq<Evidence>, key: string, metrics: map<string, real>, duration: real)
    returns (evidence: seq<Evidence>)
    ensures evidence == before + ScenarioEvidence(key, metrics, duration)
  {
    evidence := before;
    var scenario := ScenarioOf(key);
    if scenario == AuthFailure {
      var errorRate := Get(metrics, "error_rate_short", 0.0);
      evidence := evidence + [AuthErrorRate(errorRate * 100.0, Get(metrics, "error_rate_baseline", 0.0) * 100.0)];
      evidence := evidence + [Observation(AuthFailure, 0)];
      evidence := evidence + [Observation(AuthFailure, 1)];
    } else if scenario == DbExhaustion {
      var latency := Get(metrics, "avg_latency_short", 0.0);
      var baselineLatency := Get(metrics, "avg_latency_baseline", 0.0);
      evidence := evidence + [DatabaseLatency(latency, baselineLatency, GuardedRatio(latency, baselineLatency))];
      evidence := evidence + [Observation(DbExhaustion, 0)];
      evidence := evidence + [Observation(DbExhaustion, 1)];
    } else if scenario == CascadingFailure {
      evidence := evidence + [Observation(CascadingFailure, 0)];
      evidence := evidence + [Observation(CascadingFailure, 1)];
      evidence := evidence + [Observation(CascadingFailure, 2)];
      if duration > 40.0 {
        evidence := evidence + [Observation(CascadingFailure, 3)];
      }
    } else if scenario == TrafficAnomaly {
      var logRate := Get(metrics, "log_rate_short", 0.0);
      var baselineRate := Get(metrics, "log_rate_baseline", 1.0);
      evidence := evidence + [TrafficRate(logRate, baselineRate, TrafficIncrease(metrics))];
      evidence := evidence + [Observation(TrafficAnomaly, 0)];
      evidence := evidence + [Observation(TrafficAnomaly, 1)];
      evidence := evidence + [Observation(TrafficAnomaly, 2)];
    } else if scenario == LatencyDegradation {
      evidence := evidence + [ElevatedLatency(Get(metrics, "avg_latency_short", 0.0))];
      evidence := evidence + [Observation(LatencyDegradation, 0)];
      evidence := evidence + [Observation(LatencyDegradation, 1)];
    }
  }

  /**
   * `_build_evidence`: the three core lines, then the scenario's lines, then
   * the history lines; so the list always starts with signals, services and
   * duration and ends with a history line.
   */
  method BuildEvidence(key: string, signals: seq<string>, services: seq<string>, metrics: map<string, real>,
                       similar: seq<Similar>, duration: real) returns (evidence: seq<Evidence>)
    ensures evidence == [ActiveSignals(signals), AffectedServices(services), IncidentDuration(Truncate(duration))]
                        + ScenarioEvidence(key, metrics, duration) + HistoryEvidence(similar)
    ensures 4 <= |evidence| <= 9
    ensures evidence[0] == ActiveSignals(signals) && evidence[1] == AffectedServices(services)
    ensures evidence[2] == IncidentDuration(Truncate(duration))
    ensures IsHistoryLine(evidence[|evidence| - 1])
  {
    evidence := [];
    evidence := evidence + [ActiveSignals(signals)];
    evidence := evidence + [AffectedServices(services)];
    evidence := evidence + [IncidentDuration(Truncate(duration))];

    evidence := AppendScenarioEvidence(evidence, key, metrics, duration);

    if similar != [] {
      evidence := evidence + [PatternMatch(|similar|)];
      if HasResolution(similar[0]) {
        evidence := evidence + [PreviousResolution(similar[0].resolution.value)];
      }
    } else {
      evidence := evidence + [NovelPattern];
    }
  }

  // ---------------------------------------------------------------------
  // The whole analysis
  // ---------------------------------------------------------------------

  /** The incident fields the agent reads; an absent key takes the default of `incident.get`. */
  datatype IncidentInput = IncidentInput(
    signals: Option<seq<string>>,
    services: Option<seq<string>>,
    metrics: Option<map<string, real>>,
    durationSeconds: Option<real>)

  datatype Analysis = Analysis(
    hypothesis: Scenario,
    evidence: seq<Evidence>,
    recommendedActions: seq<Action>,
    confidence: int,
    pattern: Scenario)

  function OrElse<T>(o: Option<T>, default: T): T
  {
    if o.Some? then o.value else default
  }

  /**
   * `analyze_incident`: the hypothesis, actions and the pattern named in the
   * uncertainty note all belong to the identified scenario, the evidence is
   * exactly the lines `BuildEvidence` assembles: the three core lines, the
   * scenario's own lines, then the history lines, and the confidence lies in [40, 98].
   */
  method AnalyzeIncident(incident: IncidentInput, similar: seq<Similar>) returns (result: Analysis)
    ensures var signals := OrElse(incident.signals, []);
            var services := OrElse(incident.services, []);
      && result.pattern == IdentifyScenario(signals, services)
      && result.hypothesis == result.pattern
      && result.recommendedActions == RecommendActions(Label(result.pattern))
      && result.confidence == CalculateConfidence(Label(result.pattern), |signals|, |similar|,
                                                  OrElse(incident.metrics, map[]))
      && |result.evidence| >= 4
      && result.evidence[0] == ActiveSignals(signals) && result.evidence[1] == AffectedServices(services)
      && result.evidence[2] == IncidentDuration(Truncate(OrElse(incident.durationSeconds, 0.0)))
      && IsHistoryLine(result.evidence[|result.evidence| - 1])
    ensures var duration := OrElse(incident.durationSeconds, 0.0);
      result.evidence == [ActiveSignals(OrElse(incident.signals, [])), AffectedServices(OrElse(incident.services, [])),
                          IncidentDuration(Truncate(duration))]
                         + ScenarioEvidence(Label(result.pattern), OrElse(incident.metrics, map[]), duration)
                         + HistoryEvidence(similar)
    ensures 40 <= result.confidence <= 98
  {
    var signals := OrElse(incident.signals, []);
    var services := OrElse(incident.services, []);
    var metrics := OrElse(incident.metrics, map[]);
    var duration := OrElse(incident.durationSeconds, 0.0);

    var scenario := IdentifyScenario(signals, services);
    var key := Label(scenario);
    LabelRoundTrip(scenario);
    var hypothesis := GenerateHypothesis(key);
    var evidence := BuildEvidence(key, signals, services, metrics, similar, duration);
    var actions := RecommendActions(key);
    var confidence := CalculateConfidence(key, |signals|, |similar|, metrics);
    result := Analysis(hypothesis, evidence, actions, confidence, scenario);
  }

  // ---------------------------------------------------------------------
  // Worked incidents and the traffic-line division
  // ---------------------------------------------------------------------

  /** The demonstration auth-failure incident: auth_failure at 0.88. */
  lemma DemoAuthFailure()
    ensures IdentifyScenario(["error_rate_spike"], ["auth"]) == AuthFailure
    ensures CalculateConfidence("auth_failure", 1, 0,
      map["error_rate_short" := 0.55, "error_rate_baseline" := 0.02,
          "avg_latency_short" := 400.0, "avg_latency_baseline" := 250.0]) == 88
  {
    var m := map["error_rate_short" := 0.55, "error_rate_baseline" := 0.02,
                 "avg_latency_short" := 400.0, "avg_latency_baseline" := 250.0];
    assert Get(m, "error_rate_short", 0.0) == 0.55;
    assert Get(m, "avg_latency_short", 0.0) == 400.0 && Get(m, "avg_latency_baseline", 1.0) == 250.0;
  }

  /** The demonstration database-exhaustion incident: db_exhaustion at the 0.98 cap. */
  lemma DemoDbExhaustion()
    ensures IdentifyScenario(["error_rate_spike", "latency_degradation"], ["database"]) == DbExhaustion
    ensures CalculateConfidence("db_exhaustion", 2, 0,
      map["error_rate_short" := 0.70, "error_rate_baseline" := 0.02,
          "avg_latency_short" := 1500.0, "avg_latency_baseline" := 400.0]) == 98
  {
    var m := map["error_rate_short" := 0.70, "error_rate_baseline" := 0.02,
                 "avg_latency_short" := 1500.0, "avg_latency_baseline" := 400.0];
    assert Get(m, "error_rate_short", 0.0) == 0.70;
    assert Get(m, "avg_latency_short", 0.0) == 1500.0 && Get(m, "avg_latency_baseline", 1.0) == 400.0;
  }

  /** The demonstration cascading incident: cascading_failure at 0.83. */
  lemma DemoCascadingFailure()
    ensures IdentifyScenario(["latency_degradation", "error_rate_spike"], ["service-a", "service-b"]) == CascadingFailure
    ensures CalculateConfidence("cascading_failure", 2, 0,
      map["error_rate_short" := 0.50, "error_rate_baseline" := 0.02,
          "avg_latency_short" := 1800.0, "avg_latency_baseline" := 300.0]) == 83
  {
    var m := map["error_rate_short" := 0.50, "error_rate_baseline" := 0.02,
                 "avg_latency_short" := 1800.0, "avg_latency_baseline" := 300.0];
    assert Get(m, "error_rate_short", 0.0) == 0.50;
    assert Get(m, "avg_latency_short", 0.0) == 1800.0 && Get(m, "avg_latency_baseline", 1.0) == 300.0;
  }

  /** The demonstration traffic incident: traffic_anomaly at 0.88. */
  lemma DemoTrafficAnomaly()
    ensures IdentifyScenario(["traffic_volume_spike"], ["frontend"]) == TrafficAnomaly
    ensures CalculateConfidence("traffic_anomaly", 1, 0,
      map["error_rate_short" := 0.01, "error_rate_baseline" := 0.01, "log_rate_short" := 180.0,
          "log_rate_baseline" := 50.0, "avg_latency_short" := 250.0, "avg_latency_baseline" := 200.0]) == 88
  {
    var m := map["error_rate_short" := 0.01, "error_rate_baseline" := 0.01, "log_rate_short" := 180.0,
                 "log_rate_baseline" := 50.0, "avg_latency_short" := 250.0, "avg_latency_baseline" := 200.0];
    assert Get(m, "error_rate_short", 0.0) == 0.01;
    assert Get(m, "avg_latency_short", 0.0) == 250.0 && Get(m, "avg_latency_baseline", 1.0) == 200.0;
  }


  /** The metrics dictionary the detector produces, under its own keys. */
  function DetectorMetrics(m: AnomalyDetector.Metrics): map<string, real>
  {
    map["error_rate_short" := m.errorRateShort, "avg_latency_short" := m.avgLatencyShort,
        "log_rate_short" := m.logRateShort, "avg_retry_short" := m.avgRetryShort,
        "error_rate_baseline" := m.errorRateBaseline, "avg_latency_baseline" := m.avgLatencyBaseline,
        "log_rate_baseline" := m.logRateBaseline, "avg_retry_baseline" := m.avgRetryBaseline]
  }

  /**
   * A traffic spike on the frontend with an empty baseline window (as right
   * after a reset) is classified as a traffic anomaly, and the unguarded
   * traffic line then divides by a zero baseline rate; the guarded line
   * reports an increase of 0 instead.
   */
  lemma TrafficLineDividesByZero(metrics: AnomalyDetector.Metrics)
    requires metrics.logRateBaseline == 0.0
    ensures IdentifyScenario(["traffic_volume_spike"], ["frontend"]) == TrafficAnomaly
    ensures TrafficIncreaseAsWritten(DetectorMetrics(metrics)).None?
    ensures TrafficIncrease(DetectorMetrics(metrics)) == 0.0
  {
    assert Get(DetectorMetrics(metrics), "log_rate_baseline", 1.0) == 0.0;
  }
}
