/** The auth-failure scenario: a clamped error ramp at a steady request rate. */
module AuthFailure {
  import opened Util
  import opened Telemetry

  datatype Params = Params(rate: nat, latency: int, pError: real, retryCount: int)

  /** `getEmissionParams(t)`. */
  function EmissionParams(t: int): (p: Params)
    ensures p.rate == 3
    ensures 0.02 <= p.pError <= 0.7
    ensures 300 <= p.latency <= 550
    ensures p.retryCount <= 2
  {
    Params(
      3,
      300 + ClampInt(t * 5, 0, 250),
      Clamp(0.02 + (t as real / 100.0) * 0.7, 0.02, 0.7),
      MinInt(2, t / 60))
  }

  /** The error probability ramps by 0.007 per second and reaches its cap of 0.7 exactly from t = 98 on. */
  lemma ErrorRamp(t: int)
    ensures 0 <= t < 98 ==> EmissionParams(t).pError == 0.02 + 0.007 * t as real
    ensures EmissionParams(t).pError == 0.7 <==> t >= 98
    ensures t <= 0 ==> EmissionParams(t).pError == 0.02
  {
  }

  /** The error probability never decreases as time advances. */
  lemma ErrorRampMonotone(t1: int, t2: int)
    requires t1 <= t2
    ensures EmissionParams(t1).pError <= EmissionParams(t2).pError
  {
  }

  /** Latency grows by 5 ms per second from 300 ms and saturates at 550 ms from t = 50. */
  lemma LatencyRamp(t: int)
    ensures 0 <= t <= 50 ==> EmissionParams(t).latency == 300 + 5 * t
    ensures t >= 50 ==> EmissionParams(t).latency == 550
  {
  }

  /** The retry count is one per full minute elapsed, capped at 2. */
  lemma RetrySteps(t: int)
    requires t >= 0
    ensures EmissionParams(t).retryCount in {0, 1, 2}
    ensures EmissionParams(t).retryCount == 0 <==> t < 60
    ensures EmissionParams(t).retryCount == 1 <==> 60 <= t < 120
    ensures EmissionParams(t).retryCount == 2 <==> t >= 120
  {
  }

  function CpuPct(t: int): (c: real)
    ensures 40.0 <= c <= 85.0
  {
    Clamp(40.0 + t as real * 0.4, 40.0, 85.0)
  }

  /** The record built in one loop iteration at scenario time t. */
  function Record(t: int, d: Draw): (r: LogRecord)
    ensures var p := EmissionParams(t);
      && r.service == "auth" && r.endpoint == "/api/login" && r.httpMethod == "POST"
      && Outcome(r, IsErrorDraw(d, p.pError), 401, "JWT_VERIFICATION_FAILED")
      && r.latencyMs == (if IsErrorDraw(d, p.pError) then p.latency + 50 else p.latency) as real
      && r.retryCount == (if IsErrorDraw(d, p.pError) then Some(p.retryCount) else None)
      && r.cpuPct == Some(CpuPct(t)) && r.memoryMb == None
  {
    var p := EmissionParams(t);
    var isError := IsErrorDraw(d, p.pError);
    LogRecord(
      d.timestamp, "auth", if isError then Error else Info,
      if isError then "JWT verification failed - invalid signature or expired token"
      else "Authentication successful",
      d.requestId, d.fakerIp, "/api/login", "POST",
      (p.latency + (if isError then 50 else 0)) as real,
      if isError then 401 else 200, Some(CpuPct(t)), None,
      if isError then Some("JWT_VERIFICATION_FAILED") else None,
      if isError then Some(p.retryCount) else None)
  }

  /** One tick of the scenario: the parameters for `t`, then exactly `rate` records, the i-th from the i-th draw. */
  method Emit(t: int, draw: nat -> Draw) returns (emitted: seq<LogRecord>)
    ensures |emitted| == EmissionParams(t).rate
    ensures forall i :: 0 <= i < |emitted| ==> emitted[i] == Record(t, draw(i))
  {
    var p := EmissionParams(t);
    emitted := EmitRecords(t, p.rate, draw);
  }

  /**
   * The `for` loop of one tick: `rate` records, the i-th from the i-th draw.
   * Each scenario file of the attack backend carries its own copy of this loop
   * (here authFailure.js), so each scenario module does too.
   */
  method EmitRecords(t: int, rate: nat, draw: nat -> Draw) returns (emitted: seq<LogRecord>)
    ensures |emitted| == rate
    ensures forall i :: 0 <= i < |emitted| ==> emitted[i] == Record(t, draw(i))
  {
    emitted := [];
    var i := 0;
    while i < rate
      invariant 0 <= i <= rate
      invariant |emitted| == i
      invariant forall k :: 0 <= k < i ==> emitted[k] == Record(t, draw(k))
    {
      emitted := emitted + [Record(t, draw(i))];
      i := i + 1;
    }
  }
}
