/**
 * The structured telemetry record every emitter hands to `emitLog`, and the
 * per-record random draws the emitters consume.
 */
module Telemetry {
  import opened Util

  datatype Level = Info | Error

  /** One emitted log record; `httpMethod` is the record's `method` field. */
  datatype LogRecord = LogRecord(
    timestamp: string,
    service: string,
    level: Level,
    message: string,
    requestId: string,
    ip: string,
    endpoint: string,
    httpMethod: string,
    latencyMs: real,
    statusCode: int,
    cpuPct: Option<real>,
    memoryMb: Option<real>,
    errorType: Option<string>,
    retryCount: Option<int>)

  /**
   * The nondeterministic inputs of one loop iteration of a scenario emitter:
   * the `Math.random()` sample that decides error versus success, the second
   * sample and the `random(1, 255)` octet used by the traffic scenario's
   * suspicious-IP choice, and the values of `new Date().toISOString()`,
   * `uuid()` and `faker.internet.ip()`.
   */
  datatype Draw = Draw(
    errorSample: real,
    suspicionSample: real,
    octet: nat,
    timestamp: string,
    requestId: string,
    fakerIp: string)

  /** `Math.random() < pError`: the record is an error record. */
  predicate IsErrorDraw(d: Draw, pError: real)
  {
    d.errorSample < pError
  }

  /**
   * The error/success split all scenarios share: on error the record has
   * level ERROR, the scenario's error status and error tag; otherwise level
   * INFO, status 200 and no error tag.
   */
  predicate Outcome(r: LogRecord, isError: bool, errorStatus: int, errorTag: string)
  {
    if isError then
      r.level == Error && r.statusCode == errorStatus && r.errorType == Some(errorTag)
    else
      r.level == Info && r.statusCode == 200 && r.errorType == None
  }
}
