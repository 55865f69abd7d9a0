/** The latency-degradation scenario: payment latency grows linearly, errors step up after 120 s. */
module LatencyDegradation {
  import opened Util
  import opened Telemetry

  datatype Params = Params(rate: nat, latency: int, pError: real)

  /** `getEmissionParams(t)`. */
  function EmissionParams(t: int): (p: Params)
    ensures p.rate == 1
    ensures p.pError == 0.1 <==> t > 120
    ensures p.pError == 0.01 <==> t <= 120
  {
    Params(1, 200 + t * 10, if t > 120 then 0.1 else 0.01)
  }

  /** Latency starts at 200 ms and is strictly increasing in scenario time, 10 ms per second. */
  lemma LatencyIncreasing(t1: int, t2: int)
    requires t1 < t2
    ensures EmissionParams(0).latency == 200
    ensures EmissionParams(t1).latency < EmissionParams(t2).latency
    ensures EmissionParams(t2).latency - EmissionParams(t1).latency == 10 * (t2 - t1)
  {
  }

  function CpuPct(t: int): (c: real)
    ensures 20.0 <= c <= 60.0
  {
    Clamp(20.0 + t as real * 0.1, 20.0, 60.0)
  }

  /** The record built in one loop iteration at scenario time t. */
  function Record(t: int, d: Draw): (r: LogRecord)
    ensures var p := EmissionParams(t);
      && r.service == "payment" && r.endpoint == "/api/pay" && r.httpMethod == "POST"
      && Outcome(r, IsErrorDraw(d, p.pError), 504, "GATEWAY_TIMEOUT")
      && r.latencyMs == p.latency as real
      && r.cpuPct == Some(CpuPct(t)) && r.memoryMb == None && r.retryCount == None
  {
    var p := EmissionParams(t);
    var isError := IsErrorDraw(d, p.pError);
    LogRecord(
      d.timestamp, "payment", if isError then Error else Info,
      if isError then "Payment gateway timeout" else "Payment processed successfully",
      d.requestId, d.fakerIp, "/api/pay", "POST", p.latency as real,
      if isError then 504 else 200, Some(CpuPct(t)), None,
      if isError then Some("GATEWAY_TIMEOUT") else None, None)
  }

  /** One tick of the scenario: the parameters for `t`, then exactly `rate` (one) record. */
  method Emit(t: int, draw: nat -> Draw) returns (emitted: seq<LogRecord>)
    ensures |emitted| == EmissionParams(t).rate
    ensures forall i :: 0 <= i < |emitted| ==> emitted[i] == Record(t, draw(i))
  {
    var p := EmissionParams(t);
    emitted := EmitRecords(t, p.rate, draw);
  }

  /**
   * The `for` loop of one tick: `rate` records, the i-th from the i-th draw.
   * Each scenario file of the attack backend carries its own copy of this loop
   * (here latencyDegradation.js), so each scenario module does too.
   */
  method EmitRecords(t: int, rate: nat, draw: nat -> Draw) returns (emitted: seq<LogRecord>)
    ensures |emitted| == rate
    ensures forall i :: 0 <= i < |emitted| ==> emitted[i] == Record(t, draw(i))
  {
    emitted := [];
    var i := 0;
    while i < rate
      invariant 0 <= i <= rate
      invariant |emitted| == i
      invariant forall k :: 0 <= k < i ==> emitted[k] == Record(t, draw(k))
    {
      emitted := emitted + [Record(t, draw(i))];
      i := i + 1;
    }
  }
}
