/** The traffic-anomaly scenario: a clamped traffic ramp, mostly from one address block. */
module TrafficAnomaly {
  import opened Util
  import opened Telemetry

  datatype Params = Params(rate: nat, latency: int, pError: real)

  /** `getEmissionParams(t)`; `jitter` is the tick's `random(0, 100)` draw. */
  function EmissionParams(t: int, jitter: int): (p: Params)
    ensures 5 <= p.rate <= 15
    ensures p.pError == 0.01
    ensures p.latency == 200 + jitter
  {
    Params(ClampInt(5 + t / 10, 5, 15), 200 + jitter, 0.01)
  }

  /** The rate rises by one every 10 s from 5 and stays at 15 from t = 100 on. */
  lemma RateSteps(t: int, jitter: int)
    ensures 0 <= t < 100 ==> EmissionParams(t, jitter).rate == 5 + t / 10
    ensures t >= 100 ==> EmissionParams(t, jitter).rate == 15
  {
  }

  const SuspiciousPrefix: string := "192.168.1."

  /** `Math.random() < 0.8` picks an address in 192.168.1.0/24, else a faker address. */
  function ClientIp(d: Draw): (ip: string)
    ensures d.suspicionSample < 0.8 ==> |ip| > |SuspiciousPrefix| && ip[..|SuspiciousPrefix|] == SuspiciousPrefix
    ensures !(d.suspicionSample < 0.8) ==> ip == d.fakerIp
  {
    if d.suspicionSample < 0.8 then SuspiciousPrefix + Decimal(d.octet) else d.fakerIp
  }

  function CpuPct(p: Params): real
  {
    Clamp((10 + p.rate * 2) as real, 10.0, 50.0)
  }

  /** Since the rate is at most 15, the cpu gauge stays within [20, 40]. */
  lemma CpuBelowForty(t: int, jitter: int)
    ensures 20.0 <= CpuPct(EmissionParams(t, jitter)) <= 40.0
  {
  }

  /** The record built in one loop iteration at scenario time t. */
  function Record(t: int, jitter: int, d: Draw): (r: LogRecord)
    ensures var p := EmissionParams(t, jitter);
      && r.service == "frontend" && r.endpoint == "/" && r.httpMethod == "GET"
      && Outcome(r, IsErrorDraw(d, p.pError), 500, "INTERNAL_SERVER_ERROR")
      && r.ip == ClientIp(d)
      && r.latencyMs == p.latency as real
      && r.cpuPct == Some(CpuPct(p)) && r.memoryMb == None && r.retryCount == None
  {
    var p := EmissionParams(t, jitter);
    var isError := IsErrorDraw(d, p.pError);
    LogRecord(
      d.timestamp, "frontend", if isError then Error else Info,
      if isError then "Internal Server Error" else "Page loaded",
      d.requestId, ClientIp(d), "/", "GET", p.latency as real,
      if isError then 500 else 200, Some(CpuPct(p)), None,
      if isError then Some("INTERNAL_SERVER_ERROR") else None, None)
  }

  /** One tick of the scenario: the parameters for `t`, then exactly `rate` records, the i-th from the i-th draw. */
  method Emit(t: int, jitter: int, draw: nat -> Draw) returns (emitted: seq<LogRecord>)
    ensures |emitted| == EmissionParams(t, jitter).rate
    ensures forall i :: 0 <= i < |emitted| ==> emitted[i] == Record(t, jitter, draw(i))
  {
    var p := EmissionParams(t, jitter);
    emitted := EmitRecords(t, jitter, p.rate, draw);
  }

  /**
   * The `for` loop of one tick: `rate` records, the i-th from the i-th draw.
   * Each scenario file of the attack backend carries its own copy of this loop
   * (here trafficAnomaly.js), so each scenario module does too.
   */
  method EmitRecords(t: int, jitter: int, rate: nat, draw: nat -> Draw) returns (emitted: seq<LogRecord>)
    ensures |emitted| == rate
    ensures forall i :: 0 <= i < |emitted| ==> emitted[i] == Record(t, jitter, draw(i))
  {
    emitted := [];
    var i := 0;
    while i < rate
      invariant 0 <= i <= rate
      invariant |emitted| == i
      invariant forall k :: 0 <= k < i ==> emitted[k] == Record(t, jitter, draw(k))
    {
      emitted := emitted + [Record(t, jitter, draw(i))];
      i := i + 1;
    }
  }
}
