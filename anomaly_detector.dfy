/**
 * One detection pass: clamp the short and baseline windows to the last
 * reset, compute the window metrics over the logs read for those windows,
 * and raise threshold signals. Times are whole seconds; the log lists read
 * from storage are inputs.
 */
module AnomalyDetector {
  import opened Util
  import opened Aggregation

  const ShortWindowSeconds: int := 60
  /** The baseline window reaches back 10 minutes. */
  const BaselineWindowSeconds: int := 600

  datatype Windows = Windows(shortStart: int, baselineStart: int, baselineEnd: int, baselineDuration: int)

  /**
   * The window bounds: [now - 60, now] and [now - 600, now - 60], each start
   * raised to the reset time when there is one and capped at its window's end.
   */
  function ComputeWindows(now: int, resetAt: Option<int>): (w: Windows)
    ensures w.baselineEnd == now - ShortWindowSeconds
    ensures now - ShortWindowSeconds <= w.shortStart <= now
    ensures now - BaselineWindowSeconds <= w.baselineStart <= w.baselineEnd
    ensures w.baselineDuration == w.baselineEnd - w.baselineStart
    ensures 0 <= w.baselineDuration <= BaselineWindowSeconds - ShortWindowSeconds
    ensures resetAt.None? ==>
      w.shortStart == now - ShortWindowSeconds && w.baselineStart == now - BaselineWindowSeconds
    ensures resetAt.Some? ==> w.shortStart >= resetAt.value || w.shortStart == now
    ensures resetAt.Some? ==> w.baselineStart >= resetAt.value || w.baselineStart == w.baselineEnd
    ensures resetAt.Some? ==>
      w.shortStart == MinInt(MaxInt(now - ShortWindowSeconds, resetAt.value), now)
    ensures resetAt.Some? ==>
      w.baselineStart == MinInt(MaxInt(now - BaselineWindowSeconds, resetAt.value), now - ShortWindowSeconds)
    ensures resetAt.Some? && resetAt.value <= now - BaselineWindowSeconds ==>
      w.shortStart == now - ShortWindowSeconds && w.baselineStart == now - BaselineWindowSeconds
  {
    var shortStart := now - ShortWindowSeconds;
    var baselineEnd := shortStart;
    var baselineStart := now - BaselineWindowSeconds;
    if resetAt.Some? then
      var r := resetAt.value;
      var raisedShort := if shortStart < r then r else shortStart;
      var raisedBaseline := if baselineStart < r then r else baselineStart;
      var cappedShort := if raisedShort >= now then now else raisedShort;
      var cappedBaseline := if raisedBaseline >= baselineEnd then baselineEnd else raisedBaseline;
      var duration := baselineEnd - cappedBaseline;
      Windows(cappedShort, cappedBaseline, baselineEnd, if duration < 0 then 0 else duration)
    else
      var duration := baselineEnd - baselineStart;
      Windows(shortStart, baselineStart, baselineEnd, if duration < 0 then 0 else duration)
  }

  /** The metrics dictionary; the short log rate always divides by the nominal 60 s. */
  datatype Metrics = Metrics(
    errorRateShort: real, avgLatencyShort: real, logRateShort: real, avgRetryShort: real,
    errorRateBaseline: real, avgLatencyBaseline: real, logRateBaseline: real, avgRetryBaseline: real)

  function WindowMetrics(shortLogs: seq<Log>, baselineLogs: seq<Log>, baselineDuration: int): Metrics
  {
    Metrics(
      ErrorRate(shortLogs), AvgLatency(shortLogs), LogRate(shortLogs, ShortWindowSeconds), AvgRetry(shortLogs),
      ErrorRate(baselineLogs), AvgLatency(baselineLogs), LogRate(baselineLogs, baselineDuration), AvgRetry(baselineLogs))
  }

  /** The four signals, declared in the order the checks run. */
  datatype Signal = ErrorRateSpike | LatencyDegradation | TrafficVolumeSpike | RetryStorm

  /** The name a signal is reported under. */
  function Name(sig: Signal): string
  {
    match sig
    case ErrorRateSpike => "error_rate_spike"
    case LatencyDegradation => "latency_degradation"
    case TrafficVolumeSpike => "traffic_volume_spike"
    case RetryStorm => "retry_storm"
  }

  function CheckRank(sig: Signal): nat
  {
    match sig
    case ErrorRateSpike => 0
    case LatencyDegradation => 1
    case TrafficVolumeSpike => 2
    case RetryStorm => 3
  }

  /** The threshold each signal stands for. */
  predicate Crosses(sig: Signal, m: Metrics)
  {
    match sig
    case ErrorRateSpike => m.errorRateShort > MaxReal(0.05, 1.5 * m.errorRateBaseline)
    case LatencyDegradation => m.avgLatencyShort > m.avgLatencyBaseline * 1.8
    case TrafficVolumeSpike => m.logRateShort > m.logRateBaseline * 2.0
    case RetryStorm => m.avgRetryShort > 2.0
  }

  /** Each signal at most once, in check order. */
  predicate InCheckOrder(signals: seq<Signal>)
  {
    forall i, j :: 0 <= i < j < |signals| ==> CheckRank(signals[i]) < CheckRank(signals[j])
  }

  /** The names are distinct, so reporting by name loses nothing. */
  lemma NamesDistinct(a: Signal, b: Signal)
    ensures Name(a) == Name(b) <==> a == b
  {
    if a != b {
      assert |Name(a)| != |Name(b)|;
    }
  }

  datatype Detection = Detection(anomaly: bool, signals: seq<Signal>, metrics: Metrics, affectedServices: set<string>)

  /** The reported signal names of a detection, as the incident manager receives them. */
  function SignalNames(d: Detection): (names: set<string>)
    ensures forall sig :: Name(sig) in names <==> sig in d.signals
  {
    var names := set i | 0 <= i < |d.signals| :: Name(d.signals[i]);
    assert forall sig :: Name(sig) in names ==> sig in d.signals by {
      forall sig | Name(sig) in names ensures sig in d.signals {
        var i :| 0 <= i < |d.signals| && Name(d.signals[i]) == Name(sig);
        NamesDistinct(d.signals[i], sig);
      }
    }
    names
  }

  /**
   * The signal checks of `detect_anomaly`: each signal is raised exactly when
   * its threshold is crossed, in check order and at most once.
   */
  method RaiseSignals(m: Metrics) returns (signals: seq<Signal>)
    ensures forall sig :: sig in signals <==> Crosses(sig, m)
    ensures InCheckOrder(signals)
  {
    var e := Crosses(ErrorRateSpike, m);
    var l := Crosses(LatencyDegradation, m);
    var t := Crosses(TrafficVolumeSpike, m);
    var r := Crosses(RetryStorm, m);
    signals := [];
    if e {
      signals := signals + [ErrorRateSpike];
    }
    if l {
      signals := signals + [LatencyDegradation];
    }
    if t {
      signals := signals + [TrafficVolumeSpike];
    }
    if r {
      signals := signals + [RetryStorm];
    }
    forall sig ensures sig in signals <==> Crosses(sig, m) {
      match sig
      case ErrorRateSpike =>
      case LatencyDegradation =>
      case TrafficVolumeSpike =>
      case RetryStorm =>
    }
  }

  /**
   * `detect_anomaly`: the metrics are those of the two windows, the signals
   * those their thresholds raise, the result is an anomaly exactly when some
   * threshold was crossed, and the affected services are those of the
   * short-window logs.
   */
  method DetectAnomaly(now: int, resetAt: Option<int>, shortLogs: seq<Log>, baselineLogs: seq<Log>)
    returns (result: Detection)
    ensures result.metrics == WindowMetrics(shortLogs, baselineLogs, ComputeWindows(now, resetAt).baselineDuration)
    ensures forall sig :: sig in result.signals <==> Crosses(sig, result.metrics)
    ensures InCheckOrder(result.signals)
    ensures result.anomaly <==> exists sig :: Crosses(sig, result.metrics)
    ensures forall s :: s in result.affectedServices <==> exists i :: 0 <= i < |shortLogs| && shortLogs[i].service == s
  {
    var windows := ComputeWindows(now, resetAt);
    var metrics := WindowMetrics(shortLogs, baselineLogs, windows.baselineDuration);
    var signals := RaiseSignals(metrics);
    var affected := set i | 0 <= i < |shortLogs| :: shortLogs[i].service;
    result := Detection(|signals| > 0, signals, metrics, affected);
    assert result.anomaly ==> Crosses(signals[0], metrics);
  }

  /**
   * Right after a reset the baseline window is empty, so its log rate is 0
   * and any short-window traffic at all reads as a traffic spike.
   */
  lemma EmptyBaselineFlagsTraffic(shortLogs: seq<Log>, baselineDuration: int)
    requires shortLogs != []
    ensures var m := WindowMetrics(shortLogs, [], baselineDuration);
      m.logRateBaseline == 0.0 && Crosses(TrafficVolumeSpike, m)
  {
    var m := WindowMetrics(shortLogs, [], baselineDuration);
    assert m.logRateShort * 60.0 == |shortLogs| as real;
  }

  /** A reset at or after now - 60 leaves an empty baseline window. */
  lemma RecentResetEmptiesBaseline(now: int, reset: int)
    requires reset >= now - ShortWindowSeconds
    ensures ComputeWindows(now, Some(reset)).baselineDuration == 0
  {
  }
}
