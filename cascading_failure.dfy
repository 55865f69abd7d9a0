/** The cascading-failure scenario: three phases spreading from service-a to service-c. */
module CascadingFailure {
  import opened Util
  import opened Telemetry

  datatype Params = Params(rate: nat, latency: int, pError: real, service: string, phase: int)

  const PhaseServices: seq<string> := ["service-a", "service-b", "service-c"]

  /** `getEmissionParams(t)`: the first phase whose bound exceeds t wins. */
  function EmissionParams(t: int): (p: Params)
    ensures 1 <= p.phase <= 3
    ensures p.service == PhaseServices[p.phase - 1]
    ensures p.phase == 1 ==> p.rate == 5 && p.pError == 0.6 && p.latency == 1400
    ensures p.phase == 2 ==> p.rate == 4 && p.pError == 0.4 && p.latency == 1800
    ensures p.phase == 3 ==> p.rate == 6 && p.pError == 0.7 && p.latency == 2800
  {
    if t < 45 then Params(5, 1400, 0.6, "service-a", 1)
    else if t < 90 then Params(4, 1800, 0.4, "service-b", 2)
    else Params(6, 2800, 0.7, "service-c", 3)
  }

  /** Phase boundaries are inclusive below and exclusive above, at 45 s and 90 s. */
  lemma PhaseBoundaries(t: int)
    ensures EmissionParams(t).phase == 1 <==> t < 45
    ensures EmissionParams(t).phase == 2 <==> 45 <= t < 90
    ensures EmissionParams(t).phase == 3 <==> 90 <= t
  {
  }

  /** The phase never moves backwards as the scenario clock advances. */
  lemma PhaseMonotone(t1: int, t2: int)
    requires t1 <= t2
    ensures EmissionParams(t1).phase <= EmissionParams(t2).phase
  {
  }

  lemma PhaseSamples()
    ensures EmissionParams(0).phase == 1 && EmissionParams(44).phase == 1
    ensures EmissionParams(45).phase == 2 && EmissionParams(89).phase == 2
    ensures EmissionParams(90).phase == 3 && EmissionParams(1000).phase == 3
  {
  }

  /** The upstream named in an error message: external-api, then service-b, service-c. */
  function UpstreamName(phase: int): (s: string)
    requires 1 <= phase <= 3
  {
    if phase == 1 then "external-api" else "service-" + [(96 + phase) as char]
  }

  lemma UpstreamNames()
    ensures UpstreamName(1) == "external-api"
    ensures UpstreamName(2) == "service-b"
    ensures UpstreamName(3) == "service-c"
  {
  }

  function CpuPct(p: Params): real
  {
    Clamp((30 + p.phase * 15 + p.rate * 2) as real, 30.0, 85.0)
  }

  /** The cpu gauge per phase: 55, 68, then 85 (87 clamped). */
  lemma CpuByPhase(t: int)
    ensures EmissionParams(t).phase == 1 ==> CpuPct(EmissionParams(t)) == 55.0
    ensures EmissionParams(t).phase == 2 ==> CpuPct(EmissionParams(t)) == 68.0
    ensures EmissionParams(t).phase == 3 ==> CpuPct(EmissionParams(t)) == 85.0
  {
  }

  /** The record built in one loop iteration at scenario time t. */
  function Record(t: int, d: Draw): (r: LogRecord)
    ensures var p := EmissionParams(t);
      && r.service == p.service
      && r.endpoint == "/api/process" && r.httpMethod == "POST"
      && r.latencyMs == p.latency as real
      && Outcome(r, IsErrorDraw(d, p.pError), 502, "UPSTREAM_TIMEOUT")
      && r.cpuPct == Some(CpuPct(p)) && 30.0 <= CpuPct(p) <= 85.0
      && r.memoryMb == None && r.retryCount == None
      && r.message == (if IsErrorDraw(d, p.pError) then "Upstream timeout from " + UpstreamName(p.phase)
                       else "Response received")
  {
    var p := EmissionParams(t);
    var isError := IsErrorDraw(d, p.pError);
    LogRecord(
      d.timestamp, p.service, if isError then Error else Info,
      if isError then "Upstream timeout from " + UpstreamName(p.phase) else "Response received",
      d.requestId, d.fakerIp, "/api/process", "POST", p.latency as real,
      if isError then 502 else 200, Some(CpuPct(p)), None,
      if isError then Some("UPSTREAM_TIMEOUT") else None, None)
  }

  /** One tick of the scenario: the parameters for `t`, then exactly `rate` records, the i-th from the i-th draw. */
  method Emit(t: int, draw: nat -> Draw) returns (emitted: seq<LogRecord>)
    ensures |emitted| == EmissionParams(t).rate
    ensures forall i :: 0 <= i < |emitted| ==> emitted[i] == Record(t, draw(i))
  {
    var p := EmissionParams(t);
    emitted := EmitRecords(t, p.rate, draw);
  }

  /**
   * The `for` loop of one tick: `rate` records, the i-th from the i-th draw.
   * Each scenario file of the attack backend carries its own copy of this loop
   * (here cascadingFailure.js), so each scenario module does too.
   */
  method EmitRecords(t: int, rate: nat, draw: nat -> Draw) returns (emitted: seq<LogRecord>)
    ensures |emitted| == rate
    ensures forall i :: 0 <= i < |emitted| ==> emitted[i] == Record(t, draw(i))
  {
    emitted := [];
    var i := 0;
    while i < rate
      invariant 0 <= i <= rate
      invariant |emitted| == i
      invariant forall k :: 0 <= k < i ==> emitted[k] == Record(t, draw(k))
    {
      emitted := emitted + [Record(t, draw(i))];
      i := i + 1;
    }
  }
}
