/** The db-exhaustion scenario: a growing connection count drives errors and latency. */
module DbExhaustion {
  import opened Util
  import opened Telemetry

  datatype Params = Params(rate: nat, latency: real, pError: real, connections: real)

  function Connections(t: int): real
  {
    20.0 + t as real * 0.8
  }

  /** `getEmissionParams(t)`: the error probability steps up at 60 and 80 connections. */
  function EmissionParams(t: int): (p: Params)
    ensures p.connections == Connections(t)
    ensures 2 <= p.rate <= 8
    ensures p.pError == 0.02 || p.pError == 0.3 || p.pError == 0.7
    ensures p.latency == 400.0 + 10.0 * p.connections
  {
    var connections := Connections(t);
    var pError := if connections > 80.0 then 0.7 else if connections > 60.0 then 0.3 else 0.02;
    Params(ClampInt(2 + t / 15, 2, 8), 400.0 + connections * 10.0, pError, connections)
  }

  /** In scenario time: 0.7 after 75 s, 0.3 after 50 s, else 0.02. */
  lemma ErrorThresholds(t: int)
    ensures EmissionParams(t).pError == 0.7 <==> t > 75
    ensures EmissionParams(t).pError == 0.3 <==> 50 < t <= 75
    ensures EmissionParams(t).pError == 0.02 <==> t <= 50
  {
  }

  /** The rate rises by one every 15 s from 2 and stays at 8 from t = 90 on. */
  lemma RateSteps(t: int)
    ensures 0 <= t < 90 ==> EmissionParams(t).rate == 2 + t / 15
    ensures t >= 90 ==> EmissionParams(t).rate == 8
    ensures t < 15 ==> EmissionParams(t).rate == 2
  {
  }

  lemma LatencyAt100()
    ensures EmissionParams(100).latency == 1400.0
    ensures EmissionParams(100).rate == 8 && EmissionParams(100).pError == 0.7
  {
  }

  function CpuPct(p: Params): (c: real)
    ensures 30.0 <= c <= 90.0
  {
    Clamp(30.0 + p.connections * 0.5, 30.0, 90.0)
  }

  function MemoryMb(p: Params): (m: real)
    ensures 200.0 <= m <= 1024.0
  {
    Clamp(200.0 + p.connections * 5.0, 200.0, 1024.0)
  }

  /** The record built in one loop iteration at scenario time t. */
  function Record(t: int, d: Draw): (r: LogRecord)
    ensures var p := EmissionParams(t);
      && r.service == "database" && r.endpoint == "/api/products" && r.httpMethod == "GET"
      && Outcome(r, IsErrorDraw(d, p.pError), 503, "CONNECTION_POOL_EXHAUSTED")
      && r.latencyMs == p.latency
      && r.cpuPct == Some(CpuPct(p)) && r.memoryMb == Some(MemoryMb(p))
      && r.retryCount == None
  {
    var p := EmissionParams(t);
    var isError := IsErrorDraw(d, p.pError);
    LogRecord(
      d.timestamp, "database", if isError then Error else Info,
      if isError then "Connection pool exhausted" else "Query executed successfully",
      d.requestId, d.fakerIp, "/api/products", "GET", p.latency,
      if isError then 503 else 200, Some(CpuPct(p)), Some(MemoryMb(p)),
      if isError then Some("CONNECTION_POOL_EXHAUSTED") else None, None)
  }

  /** One tick of the scenario: the parameters for `t`, then exactly `rate` records, the i-th from the i-th draw. */
  method Emit(t: int, draw: nat -> Draw) returns (emitted: seq<LogRecord>)
    ensures |emitted| == EmissionParams(t).rate
    ensures forall i :: 0 <= i < |emitted| ==> emitted[i] == Record(t, draw(i))
  {
    var p := EmissionParams(t);
    emitted := EmitRecords(t, p.rate, draw);
  }

  /**
   * The `for` loop of one tick: `rate` records, the i-th from the i-th draw.
   * Each scenario file of the attack backend carries its own copy of this loop
   * (here dbExhaustion.js), so each scenario module does too.
   */
  method EmitRecords(t: int, rate: nat, draw: nat -> Draw) returns (emitted: seq<LogRecord>)
    ensures |emitted| == rate
    ensures forall i :: 0 <= i < |emitted| ==> emitted[i] == Record(t, draw(i))
  {
    emitted := [];
    var i := 0;
    while i < rate
      invariant 0 <= i <= rate
      invariant |emitted| == i
      invariant forall k :: 0 <= k < i ==> emitted[k] == Record(t, draw(k))
    {
      emitted := emitted + [Record(t, draw(i))];
      i := i + 1;
    }
  }
}
