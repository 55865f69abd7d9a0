# Incident-simulation platform, modelled in Dafny

The system has two halves.

The **attack backend** simulates traffic. A scheduler (`scenarioManager.js`) keeps one
interval timer per started attack scenario, a baseline timer, and the pair
`activeScenario`/`startedAt`. Every second a scenario timer calls its scenario
function with the elapsed whole seconds `t`. Each of the five scenarios turns `t` into
emission parameters (`getEmissionParams`: rate, latency, error probability, and more)
and then emits exactly `rate` structured log records. Each record is an error record
(scenario-specific status and error type) or a healthy one (status 200). The baseline
emitter sends one healthy record per service of a fixed four-entry table.

The **monitoring backend** watches the stored logs:

- The detector compares a 60-second window against a nine-minute baseline window
  ending where the short window starts. It clamps both windows to the last reset and raises up to four threshold
  signals.
- The correlation layer keeps one active incident. The incident is opened, extended
  while anomalies keep arriving within 120 s, and resolved after a quiet gap. Its
  severity comes from an additive score over its signals.
- An offline reasoning agent classifies an incident into one of eight scenario labels,
  picks a hypothesis and an action plan, builds an evidence list and scores its
  confidence.

Modules, one per core source file:

- `ScenarioManager` (`scenario_manager.dfy`): a class `Manager` whose fields are the
  module-level state. A timer firing is an explicit `Tick` call.
- `CascadingFailure`, `AuthFailure`, `DbExhaustion`, `TrafficAnomaly` and
  `LatencyDegradation` (one file each): a pure `EmissionParams`, a per-record `Record`
  function, and an `Emit` method that reads the parameters and runs the loop
  `EmitRecords`, which returns the emitted records.
- `BaselineEmitter` (`baseline_emitter.dfy`): the `SERVICES` table and an `Emit` loop
  over it.
- `Telemetry` (`telemetry.dfy`): the log record and the per-record random draws.
- `IncidentRules` (`incident_rules.dfy`): the pure correlation and severity rules.
- `IncidentManager` (`incident_manager.dfy`): the classes `Incident` and
  `IncidentManager`, mutated in place. `Update` is proved against the pure `Step`.
- `Aggregation` (`aggregation.dfy`): the pure window metrics.
- `AnomalyDetector` (`anomaly_detector.dfy`): window clamping, the metrics, and the
  signal list built by appends.
- `ReasoningAgent` (`reasoning_agent.dfy`): the classifier, lookups with fallbacks,
  evidence built by appends, and confidence.
- `Util` (`util.dfy`): `Option`, `clamp`, min/max and decimal rendering.

Units and inputs:

- **Attack-side time** is in milliseconds, as `Date.now()` returns it. The elapsed time
  is `floor((now - startedAt) / 1000)`.
- **Monitoring-side time** is in whole seconds.
- **Confidence** is in integer hundredths, because every constant in it is a multiple
  of 0.01.
- **Nondeterministic values** are parameters: `Math.random()`, `random(a, b)`,
  `uuid()`, faker addresses and timestamps. A scenario tick takes `draw: nat -> Draw`
  (the i-th record uses `draw(i)`) plus the tick's own `random(0, 100)` latency jitter
  for the traffic scenario.

The model follows the code as written in these places:

- **No conflict check.** `startScenario` refuses only a name that already has a timer.
  Starting a second scenario overwrites `activeScenario` and `startedAt` and leaves the
  first timer running. Every timer reads the one shared `startedAt`, so the first timer
  is rebased to the second start (`SecondStartRebasesFirstTimer`).
- **Cleared start time.** Once `startedAt` has been cleared, a timer that is still
  running computes `t` from time 0, because JavaScript reads `Date.now() - null` as
  `Date.now()`.
- **Inherited names.** `running` is a plain object, so `running[name]` is truthy for
  the names every object inherits (`constructor`, `toString`, …). `startScenario`
  refuses them, and `stopScenario` treats them as running (`InheritedNames`).
- **Empty scenario name.** `getStatus` tests `!activeScenario`, so the empty string
  counts as "no scenario".
- **Short-window log rate.** The detector divides the short window's log count by the
  nominal 60 s even when a recent reset has shortened that window.

## Model

| member | source | states |
|---|---|---|
| `ScenarioManager.RunScenario` | attack-backend/scenarioManager.js:39-42 | calling a scenario function emits exactly its `rate` records for that `t`, the i-th built from the i-th draw |
| `ScenarioManager.ElapsedSeconds` | attack-backend/scenarioManager.js:40 | `t` is the floor of (now − start)/1000: `t·1000 ≤ now − start < t·1000 + 1000`, with a cleared start read as 0 |
| `ScenarioManager.ElapsedProperties` | attack-backend/scenarioManager.js:40 | a tick at or after the start sees `t ≥ 0`; `t` never decreases as the clock advances; a start k·1000 ms back gives exactly k |
| `ScenarioManager.Manager.constructor` | attack-backend/scenarioManager.js:3-9 | initially no timer, no baseline, no active scenario, and the invariant holds |
| `ScenarioManager.Manager.StartBaseline` | attack-backend/scenarioManager.js:11-18 | the baseline starts only when no baseline timer exists and no scenario runs; nothing else changes; the invariant "baseline ⇒ no scenario timer" is kept |
| `ScenarioManager.Manager.StopBaseline` | attack-backend/scenarioManager.js:20-26 | afterwards no baseline timer exists; nothing else changes |
| `ScenarioManager.Manager.StartScenario` | attack-backend/scenarioManager.js:28-43 | a name with a timer, or one inherited from `Object.prototype` (for which `running[name]` is truthy), changes nothing; any other name stops the baseline, becomes active with start `now`, and is added to the running timers, whose other entries stay |
| `ScenarioManager.Manager.StopScenario` | attack-backend/scenarioManager.js:45-59 | a name with neither a timer nor an inherited property is a no-op; otherwise its timer (if any) is removed, the active pair is cleared only if it named this scenario, and the baseline runs exactly when no timer is left |
| `ScenarioManager.Manager.GetStatus` | attack-backend/scenarioManager.js:61-68 | null exactly when the active scenario is absent or empty; otherwise the active name and its start time |
| `ScenarioManager.Manager.Tick` | attack-backend/scenarioManager.js:39-42 | a name without a timer emits nothing; otherwise its function runs with `t` measured from the shared `startedAt` |
| `ScenarioManager.Manager.BaselineTick` | attack-backend/scenarioManager.js:15-17 | without a baseline timer nothing is emitted; otherwise the four baseline records in table order |
| `ScenarioManager.DbExhaustionAt100` | attack-backend/scenarioManager.js:28-42 | db-exhaustion ticked 100 s after its start emits 8 database records, each either 200 or 503, tagged CONNECTION_POOL_EXHAUSTED exactly when 503 |
| `ScenarioManager.StopSoleScenario` | attack-backend/scenarioManager.js:45-59 | stopping the only running scenario leaves no status and the baseline emitting 4 records per tick |
| `ScenarioManager.RestartIsNoOp` | attack-backend/scenarioManager.js:29 | starting a running scenario (a non-empty, non-inherited name) again keeps its first start time in the status |
| `ScenarioManager.SecondStartRebasesFirstTimer` | attack-backend/scenarioManager.js:34-40 | starting auth-failure 100 s after db-exhaustion makes auth-failure the status; db-exhaustion's tick 130 s after its own start emits the 4 records of t = 30, measured from the second start |
| `ScenarioManager.InheritedNames` | attack-backend/scenarioManager.js:29-58 | starting "constructor" is refused, so there is no status; stopping "toString" with no timers restarts the baseline, which then emits 4 records per tick |
| `CascadingFailure.EmissionParams` | attack-backend/scenarios/cascadingFailure.js:6-41 | phase 1..3 on service-a/b/c, with (rate, pError, latency) = (5, 0.6, 1400), (4, 0.4, 1800), (6, 0.7, 2800) per phase |
| `CascadingFailure.PhaseBoundaries` | attack-backend/scenarios/cascadingFailure.js:10-32 | phase 1 iff t < 45, 2 iff 45 ≤ t < 90, 3 iff t ≥ 90 |
| `CascadingFailure.PhaseMonotone` | attack-backend/scenarios/cascadingFailure.js:10-32 | the phase never decreases as t grows |
| `CascadingFailure.PhaseSamples` | attack-backend/scenarios/cascadingFailure.js:10-32 | t = 0, 44, 45, 89, 90, 1000 give phases 1, 1, 2, 2, 3, 3 |
| `CascadingFailure.UpstreamNames` | attack-backend/scenarios/cascadingFailure.js:54 | error messages name external-api in phase 1, service-b in phase 2, service-c in phase 3 |
| `CascadingFailure.CpuByPhase` | attack-backend/scenarios/cascadingFailure.js:62 | cpu_pct is 55, 68 and 85 in phases 1, 2, 3 |
| `CascadingFailure.Record` | attack-backend/scenarios/cascadingFailure.js:47-66 | the phase's service on POST /api/process; ERROR/502/UPSTREAM_TIMEOUT exactly when the draw falls below pError, else INFO/200/no tag; cpu in [30, 85]; no memory or retry count |
| `CascadingFailure.Emit` | attack-backend/scenarios/cascadingFailure.js:43-68 | reads the parameters for `t`, then emits exactly `rate` records, the i-th built from the i-th draw |
| `CascadingFailure.EmitRecords` | attack-backend/scenarios/cascadingFailure.js:46-67 | the loop over i < rate: exactly `rate` records, the i-th built from the i-th draw |
| `AuthFailure.EmissionParams` | attack-backend/scenarios/authFailure.js:6-15 | rate 3, pError in [0.02, 0.7], latency in [300, 550], retry count at most 2 |
| `AuthFailure.ErrorRamp` | attack-backend/scenarios/authFailure.js:8 | pError = 0.02 + 0.007·t below t = 98, equals the 0.7 cap exactly from t = 98, and is 0.02 for t ≤ 0 |
| `AuthFailure.ErrorRampMonotone` | attack-backend/scenarios/authFailure.js:8 | pError never decreases as t grows |
| `AuthFailure.LatencyRamp` | attack-backend/scenarios/authFailure.js:11 | latency = 300 + 5t up to t = 50, then 550 |
| `AuthFailure.RetrySteps` | attack-backend/scenarios/authFailure.js:13 | retry count is 0 before 60 s, 1 before 120 s, 2 afterwards |
| `AuthFailure.CpuPct` | attack-backend/scenarios/authFailure.js:36 | cpu_pct in [40, 85] |
| `AuthFailure.Record` | attack-backend/scenarios/authFailure.js:21-40 | auth on POST /api/login; on error latency + 50, ERROR/401/JWT_VERIFICATION_FAILED and the retry count, else base latency, INFO/200, no tag and no retry count |
| `AuthFailure.Emit` | attack-backend/scenarios/authFailure.js:17-42 | reads the parameters for `t`, then emits exactly `rate` (3) records, the i-th built from the i-th draw |
| `AuthFailure.EmitRecords` | attack-backend/scenarios/authFailure.js:20-41 | the loop over i < rate: exactly `rate` records, the i-th built from the i-th draw |
| `DbExhaustion.EmissionParams` | attack-backend/scenarios/dbExhaustion.js:6-18 | connections = 20 + 0.8t, rate in [2, 8], pError one of 0.02/0.3/0.7, latency = 400 + 10·connections |
| `DbExhaustion.ErrorThresholds` | attack-backend/scenarios/dbExhaustion.js:7-10 | pError is 0.7 iff t > 75, 0.3 iff 50 < t ≤ 75, 0.02 iff t ≤ 50 |
| `DbExhaustion.RateSteps` | attack-backend/scenarios/dbExhaustion.js:13 | rate = 2 + ⌊t/15⌋ below 90 s, then 8 |
| `DbExhaustion.LatencyAt100` | attack-backend/scenarios/dbExhaustion.js:14 | at t = 100: latency 1400, rate 8, pError 0.7 |
| `DbExhaustion.CpuPct` | attack-backend/scenarios/dbExhaustion.js:39 | cpu_pct in [30, 90] |
| `DbExhaustion.MemoryMb` | attack-backend/scenarios/dbExhaustion.js:40 | memory_mb in [200, 1024] |
| `DbExhaustion.Record` | attack-backend/scenarios/dbExhaustion.js:24-43 | database on GET /api/products; ERROR/503/CONNECTION_POOL_EXHAUSTED exactly on error, else INFO/200/no tag; cpu and memory gauges present |
| `DbExhaustion.Emit` | attack-backend/scenarios/dbExhaustion.js:20-45 | reads the parameters for `t`, then emits exactly `rate` records, the i-th built from the i-th draw |
| `DbExhaustion.EmitRecords` | attack-backend/scenarios/dbExhaustion.js:23-44 | the loop over i < rate: exactly `rate` records, the i-th built from the i-th draw |
| `TrafficAnomaly.EmissionParams` | attack-backend/scenarios/trafficAnomaly.js:7-13 | rate in [5, 15], pError 0.01, latency 200 plus the tick's jitter |
| `TrafficAnomaly.RateSteps` | attack-backend/scenarios/trafficAnomaly.js:9 | rate = 5 + ⌊t/10⌋ below 100 s, then 15 |
| `TrafficAnomaly.ClientIp` | attack-backend/scenarios/trafficAnomaly.js:20-23 | a suspicious draw gives an address starting "192.168.1." followed by more text; otherwise the faker address |
| `TrafficAnomaly.CpuBelowForty` | attack-backend/scenarios/trafficAnomaly.js:36 | cpu_pct stays in [20, 40] because the rate is at most 15 |
| `TrafficAnomaly.Record` | attack-backend/scenarios/trafficAnomaly.js:19-40 | frontend on GET /; ERROR/500/INTERNAL_SERVER_ERROR exactly on error, else INFO/200/no tag; the ip chosen by `ClientIp` |
| `TrafficAnomaly.Emit` | attack-backend/scenarios/trafficAnomaly.js:15-42 | reads the parameters for `t`, then emits exactly `rate` records, the i-th built from the i-th draw |
| `TrafficAnomaly.EmitRecords` | attack-backend/scenarios/trafficAnomaly.js:18-41 | the loop over i < rate: exactly `rate` records, the i-th built from the i-th draw |
| `LatencyDegradation.EmissionParams` | attack-backend/scenarios/latencyDegradation.js:6-13 | rate 1; pError 0.1 iff t > 120, 0.01 iff t ≤ 120 |
| `LatencyDegradation.LatencyIncreasing` | attack-backend/scenarios/latencyDegradation.js:10 | latency is 200 ms at t = 0 and strictly increases with t, by 10 ms per second |
| `LatencyDegradation.CpuPct` | attack-backend/scenarios/latencyDegradation.js:34 | cpu_pct in [20, 60] |
| `LatencyDegradation.Record` | attack-backend/scenarios/latencyDegradation.js:19-38 | payment on POST /api/pay; ERROR/504/GATEWAY_TIMEOUT exactly on error, else INFO/200/no tag |
| `LatencyDegradation.Emit` | attack-backend/scenarios/latencyDegradation.js:15-40 | reads the parameters for `t`, then emits exactly `rate` (one) record |
| `LatencyDegradation.EmitRecords` | attack-backend/scenarios/latencyDegradation.js:18-39 | the loop over i < rate: exactly `rate` records, the i-th built from the i-th draw |
| `BaselineEmitter.Record` | attack-backend/scenarios/baselineEmitter.js:15-30 | service, endpoint and method from the table entry; INFO, 200, no error tag or retry count; latency, cpu and memory from the draws |
| `BaselineEmitter.Emit` | attack-backend/scenarios/baselineEmitter.js:13-32 | one record per table entry, in table order |
| `BaselineEmitter.EmitsServicesInOrder` | attack-backend/scenarios/baselineEmitter.js:6-14 | a baseline tick is four healthy records, for auth, database, payment and frontend in that order |
| `IncidentRules.IsCorrelated` | monitoring-backend/correlation/incident_rules.py:5-13 | false without a last-seen time; true only within 120 s of it |
| `IncidentRules.CorrelationWindow` | monitoring-backend/correlation/incident_rules.py:13 | correlated iff the gap is at most 120 s; 120 s is inside and 121 s outside; a smaller gap stays correlated |
| `IncidentRules.Score` | monitoring-backend/correlation/incident_rules.py:30-38 | the score is at most 8 |
| `IncidentRules.CalculateSeverity` | monitoring-backend/correlation/incident_rules.py:40-45 | HIGH iff score ≥ 4, MEDIUM iff 2 ≤ score < 4, LOW iff score < 2 |
| `IncidentRules.SeverityBySignals` | monitoring-backend/correlation/incident_rules.py:30-45 | HIGH iff an error spike comes with another known signal, or latency degradation comes with a retry storm; LOW iff none of error spike, latency degradation and retry storm |
| `IncidentRules.SeveritySamples` | monitoring-backend/correlation/incident_rules.py:30-45 | {} → LOW, {error_rate_spike} → MEDIUM, {traffic_volume_spike} → LOW, error + latency → HIGH, an unknown name → LOW |
| `IncidentRules.SeverityMonotone` | monitoring-backend/correlation/incident_rules.py:30-45 | a superset of signals never scores lower or gets a lower severity |
| `IncidentManager.AnomalyOpensIncident` | monitoring-backend/correlation/incident_manager.py:91-93 | an anomaly with no active incident opens a new OPEN incident started and last seen now, window count 1, severity from its signals |
| `IncidentManager.CorrelatedAnomalyExtends` | monitoring-backend/correlation/incident_manager.py:79-86 | a correlated anomaly on an unresolved incident keeps id and start, sets ONGOING and last seen now, unions services and signals, recomputes severity, counts one more window |
| `IncidentManager.StaleIncidentReplaced` | monitoring-backend/correlation/incident_manager.py:71-90 | an anomaly after resolution, or after a gap over 120 s, replaces the incident with a fresh one |
| `IncidentManager.QuietWindow` | monitoring-backend/correlation/incident_manager.py:95-101 | without an anomaly no incident is created or dropped, only the status can change, an unresolved incident resolves iff the gap exceeds 120 s, and a resolved one stays as is |
| `IncidentManager.StepKeepsConsistent` | monitoring-backend/correlation/incident_manager.py:51-101 | every update keeps severity equal to the severity of the incident's signals and the window count positive |
| `IncidentManager.SameIncidentNeverDeescalates` | monitoring-backend/correlation/incident_manager.py:79-86 | while the same incident carries on, its signals only grow and its severity never drops |
| `IncidentManager.Incident.constructor` | monitoring-backend/correlation/incident_manager.py:11-19 | status OPEN, started and last seen at the given time, window count 1, severity from the signals |
| `IncidentManager.IncidentManager.constructor` | monitoring-backend/correlation/incident_manager.py:36-37 | no active incident |
| `IncidentManager.IncidentManager.GetCurrent` | monitoring-backend/correlation/incident_manager.py:45-49 | None iff there is no active incident, else its snapshot |
| `IncidentManager.IncidentManager.CreateNewIncident` | monitoring-backend/correlation/incident_manager.py:105-106 | the active incident becomes a freshly allocated new incident |
| `IncidentManager.IncidentManager.Update` | monitoring-backend/correlation/incident_manager.py:51-101 | the active incident afterwards is `Step` of the one before (the properties above); it is the same object updated in place or a freshly allocated one |
| `Aggregation.ErrorCount` | monitoring-backend/detection/aggregation.py:7 | the error count never exceeds the number of logs |
| `Aggregation.ErrorCountAppend` | monitoring-backend/detection/aggregation.py:7 | the error count of two concatenated lists is the sum of their counts |
| `Aggregation.ErrorRate` | monitoring-backend/detection/aggregation.py:4-8 | 0 for no logs; otherwise rate × count = error count; always in [0, 1]; 1 exactly when every log is an error |
| `Aggregation.AllErrorsExactly` | monitoring-backend/detection/aggregation.py:7-8 | the count equals the length iff every log is an error (status ≥ 400 or level ERROR), and is 0 iff none is |
| `Aggregation.PresentLatencies` | monitoring-backend/detection/aggregation.py:11 | never more kept latencies than logs |
| `Aggregation.PresentLatenciesMembers` | monitoring-backend/detection/aggregation.py:11 | a value is kept iff some log carries it as its latency: every present latency is kept and nothing else is |
| `Aggregation.PresentLatenciesAppend` | monitoring-backend/detection/aggregation.py:11 | the kept latencies of a concatenation are those of each part in order, so every present value is kept with its multiplicity, in log order |
| `Aggregation.PresentRetries` | monitoring-backend/detection/aggregation.py:22 | never more kept retry counts than logs |
| `Aggregation.PresentRetriesMembers` | monitoring-backend/detection/aggregation.py:22 | a value is kept iff some log carries it as its retry count: every present count is kept and nothing else is |
| `Aggregation.PresentRetriesAppend` | monitoring-backend/detection/aggregation.py:22 | the kept retry counts of a concatenation are those of each part in order, so every present value is kept with its multiplicity, in log order |
| `Aggregation.SumBounds` | monitoring-backend/detection/aggregation.py:14 | a sum of n values within [lo, hi] lies within [n·lo, n·hi] |
| `Aggregation.Mean` | monitoring-backend/detection/aggregation.py:12-14 | 0 with no values, else mean × n = sum |
| `Aggregation.MeanBetweenBounds` | monitoring-backend/detection/aggregation.py:14 | a non-empty mean lies between any bounds of its values |
| `Aggregation.AvgLatency` | monitoring-backend/detection/aggregation.py:10-14 | 0 when no log has a latency, else the mean of the present latencies |
| `Aggregation.AvgLatencyWithinRange` | monitoring-backend/detection/aggregation.py:14 | the mean latency lies between the smallest and largest present latency |
| `Aggregation.PresentLatenciesNonEmpty` | monitoring-backend/detection/aggregation.py:11-13 | one log with a latency is enough for a non-empty list |
| `Aggregation.LogRate` | monitoring-backend/detection/aggregation.py:16-19 | 0 for a window ≤ 0, else rate × window = number of logs; never negative |
| `Aggregation.AvgRetry` | monitoring-backend/detection/aggregation.py:21-25 | 0 when no log has a retry count, else the mean of the present ones |
| `Aggregation.PresentRetriesNonEmpty` | monitoring-backend/detection/aggregation.py:22-24 | one log with a retry count is enough for a non-empty list |
| `Aggregation.AvgRetryWithinRange` | monitoring-backend/detection/aggregation.py:25 | the mean retry count lies between the smallest and largest present count |
| `AnomalyDetector.ComputeWindows` | monitoring-backend/detection/anomaly_detector.py:18-49 | baseline ends at now − 60; with a reset r the short start is min(max(now − 60, r), now) and the baseline start min(max(now − 600, r), now − 60), without one they are now − 60 and now − 600; duration = end − start, in [0, 540] |
| `AnomalyDetector.SignalNames` | monitoring-backend/correlation/incident_manager.py:55 | the set of reported names holds a signal's name iff the detection raised that signal |
| `AnomalyDetector.RaiseSignals` | monitoring-backend/detection/anomaly_detector.py:85-105 | each signal is raised iff its threshold is crossed: error rate > max(0.05, 1.5·baseline), latency > 1.8·baseline, log rate > 2·baseline, retries > 2; in check order, each at most once |
| `AnomalyDetector.DetectAnomaly` | monitoring-backend/detection/anomaly_detector.py:13-116 | metrics are those of the clamped windows; signals as in `RaiseSignals`; anomaly iff some threshold is crossed; affected services are exactly the short-window services |
| `AnomalyDetector.EmptyBaselineFlagsTraffic` | monitoring-backend/detection/anomaly_detector.py:99-100 | with an empty baseline window the baseline log rate is 0, and any short-window traffic is a traffic spike |
| `AnomalyDetector.RecentResetEmptiesBaseline` | monitoring-backend/detection/anomaly_detector.py:43-49 | a reset at or after now − 60 leaves a baseline window of duration 0 |
| `ReasoningAgent.LabelRoundTrip` | monitoring-backend/reasoning/agent.py:97-142 | looking up a scenario's label finds that scenario, so the eight labels are distinct |
| `ReasoningAgent.LookupFallback` | monitoring-backend/reasoning/agent.py:142 | any other string falls back to the unknown entry |
| `ReasoningAgent.IdentifyScenario` | monitoring-backend/reasoning/agent.py:55-91 | each label implies the signals and services its rule asks for (auth_failure: error spike and auth; …; retry_storm: retry storm) |
| `ReasoningAgent.AuthFailureFirst` | monitoring-backend/reasoning/agent.py:62-63 | an error spike with auth is auth_failure whatever else is present |
| `ReasoningAgent.TrafficRule` | monitoring-backend/reasoning/agent.py:67-68 | a traffic spike with frontend is traffic_anomaly whenever the auth rule does not fire |
| `ReasoningAgent.CascadingRule` | monitoring-backend/reasoning/agent.py:71-73 | latency degradation with any of service-a/b/c is cascading_failure whenever neither earlier rule fires |
| `ReasoningAgent.DatabaseRules` | monitoring-backend/reasoning/agent.py:76-85 | latency on database after the earlier rules: db_exhaustion with an error spike, else db_slow_query with at most 2 services, else latency_degradation |
| `ReasoningAgent.LatencyRule` | monitoring-backend/reasoning/agent.py:84-85 | pure latency degradation (no error or traffic signal) is latency_degradation when no earlier rule claims it: no chained service and not the database among at most two services |
| `ReasoningAgent.LastRules` | monitoring-backend/reasoning/agent.py:88-91 | when none of the first five rules fires, a retry storm gives retry_storm and anything else unknown |
| `ReasoningAgent.PureLatencyIsClassified` | monitoring-backend/reasoning/agent.py:71-85 | latency degradation without error or traffic signals is cascading_failure, db_slow_query or latency_degradation, never unknown |
| `ReasoningAgent.UnknownCases` | monitoring-backend/reasoning/agent.py:84-91 | a retry storm is never unknown; signals naming none of the four detector signals are always unknown |
| `ReasoningAgent.GenerateHypothesis` | monitoring-backend/reasoning/agent.py:93-142 | a known label selects its own hypothesis; any other string selects the unknown one |
| `ReasoningAgent.RecommendActions` | monitoring-backend/reasoning/agent.py:202-262 | 4 or 5 actions from the label's plan (unknown plan as fallback); only the first step of the auth, database-exhaustion, cascading and traffic plans is IMMEDIATE |
| `ReasoningAgent.BaseConfidence` | monitoring-backend/reasoning/agent.py:270-281 | known labels get a base in [40, 90], 40 only for unknown; other strings get 50 |
| `ReasoningAgent.Bonus` | monitoring-backend/reasoning/agent.py:283-301 | the bonuses add up to between 0 and 21 hundredths |
| `ReasoningAgent.CalculateConfidence` | monitoring-backend/reasoning/agent.py:264-303 | at most 98; between the base and base + 21; equal to the base iff no bonus applies; at least 40 for every label |
| `ReasoningAgent.ConfidenceMonotone` | monitoring-backend/reasoning/agent.py:284-291 | more signals and more similar incidents never lower the confidence |
| `ReasoningAgent.ConfidenceRange` | monitoring-backend/reasoning/agent.py:281-303 | every scenario scores in [40, 98]; database exhaustion with three signals reaches the cap |
| `ReasoningAgent.Truncate` | monitoring-backend/reasoning/agent.py:154 | `int()` of the duration truncates toward zero |
| `ReasoningAgent.GuardedRatio` | monitoring-backend/reasoning/agent.py:166 | with a positive baseline, ratio × baseline = value; otherwise 0 |
| `ReasoningAgent.TrafficIncreaseAsWritten` | monitoring-backend/reasoning/agent.py:178-180 | fails exactly when the baseline rate is 0; otherwise ratio × baseline = rate |
| `ReasoningAgent.TrafficIncrease` | monitoring-backend/reasoning/agent.py:178-180 | with the database line's guard: ratio × baseline = rate for a positive baseline, else 0 |
| `ReasoningAgent.TrafficIncreaseAgrees` | monitoring-backend/reasoning/agent.py:180 | for a positive baseline the guarded and the as-written ratio agree |
| `ReasoningAgent.ScenarioEvidence` | monitoring-backend/reasoning/agent.py:157-189 | 3 scenario lines for auth, database exhaustion and latency; 4 for traffic; 3 or 4 for cascading (4 iff duration > 40); none otherwise |
| `ReasoningAgent.HistoryEvidence` | monitoring-backend/reasoning/agent.py:192-198 | no similar incidents gives the novel-pattern line; otherwise a pattern-match line with the count, followed by the previous resolution iff the most similar one has a non-empty resolution |
| `ReasoningAgent.AppendScenarioEvidence` | monitoring-backend/reasoning/agent.py:157-189 | appends exactly the scenario's lines |
| `ReasoningAgent.BuildEvidence` | monitoring-backend/reasoning/agent.py:144-200 | 4 to 9 lines: signals, services and duration first, then the scenario lines, and last a history line |
| `ReasoningAgent.AnalyzeIncident` | monitoring-backend/reasoning/agent.py:23-53 | hypothesis, actions and the pattern in the note all follow the identified scenario; evidence is exactly what `BuildEvidence` assembles for that scenario: the three core lines, the scenario's own lines (`ScenarioEvidence`), then the history lines (`HistoryEvidence`); confidence in [40, 98]; absent incident keys take their defaults |
| `ReasoningAgent.DemoAuthFailure` | monitoring-backend/demo_validation.py:24-53 | the demonstration auth incident classifies as auth_failure with confidence 0.88 |
| `ReasoningAgent.DemoDbExhaustion` | monitoring-backend/demo_validation.py:55-84 | the demonstration database incident classifies as db_exhaustion with confidence 0.98 |
| `ReasoningAgent.DemoCascadingFailure` | monitoring-backend/demo_validation.py:86-115 | the demonstration multi-service incident classifies as cascading_failure with confidence 0.83 |
| `ReasoningAgent.DemoTrafficAnomaly` | monitoring-backend/demo_validation.py:117-148 | the demonstration frontend incident classifies as traffic_anomaly with confidence 0.88 |
| `ReasoningAgent.TrafficLineDividesByZero` | monitoring-backend/reasoning/agent.py:178-180 | a frontend traffic spike with the detector's baseline rate 0 is a traffic anomaly whose as-written line fails, while the guarded line reports 0 |

## Left out

- HTTP and process wiring are not part of this model: `attack-backend/server.js`, the
  monitoring API routes, the FastAPI app, the proxy and the asyncio detection loop in
  `main.py`. Start, stop and update are direct method calls. A timer firing is an
  explicit `Tick`/`BaselineTick` call, and the one-second interval is not modelled.
- `emitLog` (a winston wrapper) is not modelled. Each emitter returns the records it
  would log, in order.
- The `clamp` and `random` helpers are not part of this model. `clamp(x, lo, hi)` is
  taken as min(max(x, lo), hi). Every random value, uuid, faker address and timestamp
  is an input.
- Storage, the vector store and the embedder are not modelled: SQL access, log seeding
  and `get_logs_between`. The detector takes the two windows' log lists as inputs.
- The pipeline-state and reset setters are not modelled. The reset time is a parameter
  of `DetectAnomaly`, and the debug-state writes are dropped.
- Time-zone normalisation of the reset time is not modelled. Times are whole seconds
  on one clock.
- UI code and the script-style verification files are not modelled. The four
  demonstration incidents are restated as the four `Demo…` lemmas.
- Text is not modelled: the wording of messages, hypotheses, evidence lines and actions,
  and the number formatting in evidence. Evidence lines are modelled by kind and by the
  values they report, actions by scenario, position and IMMEDIATE marker, and
  hypotheses by the chosen entry.
- Floating-point arithmetic is modelled with exact reals. Confidence is in exact
  hundredths, so `round(confidence, 2)` is the identity.
- `ReasoningAgent.IdentifyScenario` does not model the classifier's unused `metrics`
  argument.
- The severity and duration fields of the agent's request model play no part in the
  analysis and are left out.
- `AnomalyDetector.DetectAnomaly`: the short and baseline log lists are inputs. That the
  stored logs fall inside the computed windows is not modelled.
- `IncidentManager.IncidentManager.Update`: the generated incident id is the `freshId`
  parameter. Its uniqueness is not modelled, and `SameIncidentNeverDeescalates` assumes
  it differs from the current id.

- `ReasoningAgent.ScenarioEvidence`: the traffic line uses the corrected, guarded ratio
  `TrafficIncrease`. With `log_rate_baseline` 0 it reports an increase of 0 where
  `agent.py:180` raises ZeroDivisionError (see Findings).
- `ReasoningAgent.AppendScenarioEvidence`: appends the traffic line with the guarded
  ratio, so the zero-baseline case yields lines instead of the source's exception.
- `ReasoningAgent.BuildEvidence`: returns 4 to 9 lines on the zero-baseline traffic
  input, where `_build_evidence` raises.
- `ReasoningAgent.AnalyzeIncident`: returns an analysis on the zero-baseline traffic
  input, where `analyze_incident` raises. For a positive baseline the two ratios agree
  (`TrafficIncreaseAgrees`).

## Findings

| source | as written | input that shows it | evidently intended | confidence | as-written member | corrected member |
|---|---|---|---|---|---|---|
| monitoring-backend/reasoning/agent.py:179-180 | the traffic evidence line divides `log_rate_short` by `log_rate_baseline`, which defaults to 1 when absent but is not guarded against 0 | the detector's metrics with an empty baseline window (for example right after a reset, which `RecentResetEmptiesBaseline` and `EmptyBaselineFlagsTraffic` show gives `log_rate_baseline` 0 and a traffic spike), with signals `["traffic_volume_spike"]` and services `["frontend"]`: the division raises ZeroDivisionError | the same guard as the database latency line at line 166: report an increase of 0 when the baseline is not positive | not executed; medium (the agent is reached with such metrics only if a caller passes the detector's dictionary) | `ReasoningAgent.TrafficLineDividesByZero` | `ReasoningAgent.TrafficIncrease` |
