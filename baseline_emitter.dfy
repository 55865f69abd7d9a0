/** The baseline emitter: one healthy record per entry of a fixed service table. */
module BaselineEmitter {
  import opened Util
  import opened Telemetry

  datatype ServiceEntry = ServiceEntry(name: string, endpoint: string, httpMethod: string)

  /** The `SERVICES` table, in emission order. */
  const Services: seq<ServiceEntry> := [
    ServiceEntry("auth", "/api/login", "POST"),
    ServiceEntry("database", "/api/products", "GET"),
    ServiceEntry("payment", "/api/pay", "POST"),
    ServiceEntry("frontend", "/", "GET")
  ]

  /**
   * The nondeterministic inputs of one record: the timestamp, `uuid()`,
   * `faker.internet.ip()` and the draws `random(20, 50)`, `random(10, 30)`
   * and `random(100, 300)` for latency, cpu and memory.
   */
  datatype BaselineDraw = BaselineDraw(
    timestamp: string, requestId: string, ip: string,
    latency: int, cpu: int, memory: int)

  /** The record emitted for one service entry. */
  function Record(entry: ServiceEntry, d: BaselineDraw): (r: LogRecord)
    ensures r.service == entry.name && r.endpoint == entry.endpoint && r.httpMethod == entry.httpMethod
    ensures r.level == Info && r.statusCode == 200
    ensures r.errorType == None && r.retryCount == None
    ensures r.latencyMs == d.latency as real
    ensures r.cpuPct == Some(d.cpu as real) && r.memoryMb == Some(d.memory as real)
  {
    LogRecord(
      d.timestamp, entry.name, Info, "Operation successful", d.requestId, d.ip,
      entry.endpoint, entry.httpMethod, d.latency as real, 200,
      Some(d.cpu as real), Some(d.memory as real), None, None)
  }

  /** One baseline tick: the `forEach` over `SERVICES`, one record per entry in table order. */
  method Emit(draw: nat -> BaselineDraw) returns (emitted: seq<LogRecord>)
    ensures |emitted| == |Services|
    ensures forall i :: 0 <= i < |emitted| ==> emitted[i] == Record(Services[i], draw(i))
  {
    emitted := [];
    var i := 0;
    while i < |Services|
      invariant 0 <= i <= |Services|
      invariant |emitted| == i
      invariant forall k :: 0 <= k < i ==> emitted[k] == Record(Services[k], draw(k))
    {
      emitted := emitted + [Record(Services[i], draw(i))];
      i := i + 1;
    }
  }

  /** Four healthy records per tick, for auth, database, payment and frontend in that order. */
  lemma EmitsServicesInOrder(emitted: seq<LogRecord>, draw: nat -> BaselineDraw)
    requires |emitted| == |Services|
    requires forall i :: 0 <= i < |emitted| ==> emitted[i] == Record(Services[i], draw(i))
    ensures |emitted| == 4
    ensures emitted[0].service == "auth" && emitted[1].service == "database"
    ensures emitted[2].service == "payment" && emitted[3].service == "frontend"
    ensures forall i :: 0 <= i < |emitted| ==> emitted[i].level == Info && emitted[i].statusCode == 200
  {
    assert Record(Services[0], draw(0)).service == "auth";
  }
}
