/**
 * The attack backend's scheduler: the module-level `running` timers, the
 * baseline timer, and the `activeScenario`/`startedAt` pair, updated by
 * start/stop calls. A timer firing is an explicit `Tick` call.
 */
module ScenarioManager {
  import opened Util
  import opened Telemetry
  import CascadingFailure
  import AuthFailure
  import DbExhaustion
  import TrafficAnomaly
  import LatencyDegradation
  import BaselineEmitter

  /** The scenario function handed to `startScenario` and called by its timer. */
  datatype ScenarioFn =
    | AuthFailureFn
    | CascadingFailureFn
    | DbExhaustionFn
    | TrafficAnomalyFn
    | LatencyDegradationFn

  /** How many records one call of the scenario function emits at time t. */
  function Rate(f: ScenarioFn, t: int, jitter: int): nat
  {
    match f
    case AuthFailureFn => AuthFailure.EmissionParams(t).rate
    case CascadingFailureFn => CascadingFailure.EmissionParams(t).rate
    case DbExhaustionFn => DbExhaustion.EmissionParams(t).rate
    case TrafficAnomalyFn => TrafficAnomaly.EmissionParams(t, jitter).rate
    case LatencyDegradationFn => LatencyDegradation.EmissionParams(t).rate
  }

  /** The record the scenario function builds from one draw at time t. */
  function ScenarioRecord(f: ScenarioFn, t: int, jitter: int, d: Draw): LogRecord
  {
    match f
    case AuthFailureFn => AuthFailure.Record(t, d)
    case CascadingFailureFn => CascadingFailure.Record(t, d)
    case DbExhaustionFn => DbExhaustion.Record(t, d)
    case TrafficAnomalyFn => TrafficAnomaly.Record(t, jitter, d)
    case LatencyDegradationFn => LatencyDegradation.Record(t, d)
  }

  /** Calling the scenario function `scenarioFn(t)`. */
  method RunScenario(f: ScenarioFn, t: int, jitter: int, draw: nat -> Draw) returns (emitted: seq<LogRecord>)
    ensures |emitted| == Rate(f, t, jitter)
    ensures forall i :: 0 <= i < |emitted| ==> emitted[i] == ScenarioRecord(f, t, jitter, draw(i))
  {
    match f
    case AuthFailureFn => emitted := AuthFailure.Emit(t, draw);
    case CascadingFailureFn => emitted := CascadingFailure.Emit(t, draw);
    case DbExhaustionFn => emitted := DbExhaustion.Emit(t, draw);
    case TrafficAnomalyFn => emitted := TrafficAnomaly.Emit(t, jitter, draw);
    case LatencyDegradationFn => emitted := LatencyDegradation.Emit(t, draw);
  }

  /**
   * `Math.floor((Date.now() - startedAt) / 1000)` with times in milliseconds.
   * JavaScript reads a cleared (null) `startedAt` as 0 in this subtraction.
   */
  function ElapsedSeconds(now: int, startedAt: Option<int>): (t: int)
    ensures var origin := if startedAt.Some? then startedAt.value else 0;
      t * 1000 <= now - origin < t * 1000 + 1000
  {
    var origin := if startedAt.Some? then startedAt.value else 0;
    (now - origin) / 1000
  }

  /** Whole seconds only: a tick at or after the start sees t >= 0, and t grows with the clock. */
  lemma ElapsedProperties(now: int, later: int, start: int)
    requires start <= now <= later
    ensures 0 <= ElapsedSeconds(now, Some(start)) <= ElapsedSeconds(later, Some(start))
    ensures ElapsedSeconds(start + 1000 * (now - start), Some(start)) == now - start
  {
    var k := now - start;
    var t3 := ElapsedSeconds(start + 1000 * k, Some(start));
    assert t3 * 1000 <= 1000 * k < t3 * 1000 + 1000;
  }

  /** The object `getStatus` returns. */
  datatype Status = Status(scenario: string, startedAt: int)

  /**
   * The properties every plain JavaScript object inherits from
   * `Object.prototype`: `running[name]` is truthy for these names even when
   * no timer was stored under them.
   */
  const InheritedKeys: set<string> := {
    "constructor", "hasOwnProperty", "isPrototypeOf", "propertyIsEnumerable",
    "toLocaleString", "toString", "valueOf", "__proto__",
    "__defineGetter__", "__defineSetter__", "__lookupGetter__", "__lookupSetter__"}

  /** JavaScript truthiness of `running[name]`: an own timer or an inherited property. */
  predicate HasEntry(running: map<string, ScenarioFn>, name: string)
  {
    name in running || name in InheritedKeys
  }

  /** JavaScript truthiness of `activeScenario`: null and "" are both falsy. */
  predicate Truthy(s: Option<string>)
  {
    s.Some? && s.value != ""
  }

  class Manager {
    /** `running`: one interval per started scenario name, with the function it calls. */
    var running: map<string, ScenarioFn>
    /** `baselineInterval !== null`. */
    var baselineActive: bool
    var activeScenario: Option<string>
    /** `Date.now()` at the last start, in milliseconds. */
    var startedAt: Option<int>

    /**
     * The baseline only ticks while no scenario timer exists; `activeScenario`
     * and `startedAt` are set and cleared together; the active scenario has a timer.
     */
    ghost predicate Valid()
      reads this
    {
      && (baselineActive ==> running == map[])
      && (activeScenario.Some? <==> startedAt.Some?)
      && (activeScenario.Some? ==> activeScenario.value in running)
      && (forall k :: k in running ==> k !in InheritedKeys)
    }

    /** The module's initial state: nothing running, no baseline timer. */
    constructor ()
      ensures Valid()
      ensures running == map[] && !baselineActive
      ensures activeScenario == None && startedAt == None
    {
      running := map[];
      baselineActive := false;
      activeScenario := None;
      startedAt := None;
    }

    /** `startBaseline`: refused while a baseline timer exists or any scenario runs. */
    method StartBaseline()
      requires Valid()
      modifies this
      ensures Valid()
      ensures running == old(running)
      ensures activeScenario == old(activeScenario) && startedAt == old(startedAt)
      ensures baselineActive <==> old(baselineActive) || old(running) == map[]
    {
      if baselineActive || |running| > 0 {
        return;
      }
      baselineActive := true;
    }

    /** `stopBaseline`: clears the baseline timer if there is one. */
    method StopBaseline()
      requires Valid()
      modifies this
      ensures Valid()
      ensures !baselineActive
      ensures running == old(running)
      ensures activeScenario == old(activeScenario) && startedAt == old(startedAt)
    {
      if baselineActive {
        baselineActive := false;
      }
    }

    /**
     * `startScenario(name, scenarioFn)`: a name that already has a timer, or
     * that names an inherited object property, is refused; any other name stops the baseline, becomes the active scenario
     * with a fresh start time, and gets its own timer. Timers of other names
     * are left running.
     */
    method StartScenario(name: string, f: ScenarioFn, now: int)
      requires Valid()
      modifies this
      ensures Valid()
      ensures HasEntry(old(running), name) ==>
        && running == old(running) && baselineActive == old(baselineActive)
        && activeScenario == old(activeScenario) && startedAt == old(startedAt)
      ensures !HasEntry(old(running), name) ==>
        && running == old(running)[name := f] && !baselineActive
        && activeScenario == Some(name) && startedAt == Some(now)
    {
      if HasEntry(running, name) {
        return;
      }
      StopBaseline();
      activeScenario := Some(name);
      startedAt := Some(now);
      running := running[name := f];
    }

    /**
     * `stopScenario(name)`: no-op for a name that neither has a timer nor
     * names an inherited object property; otherwise the timer (if any) goes, the active pair is cleared only if it named this scenario,
     * and the baseline restarts exactly when no timer is left.
     */
    method StopScenario(name: string)
      requires Valid()
      modifies this
      ensures Valid()
      ensures !HasEntry(old(running), name) ==>
        && running == old(running) && baselineActive == old(baselineActive)
        && activeScenario == old(activeScenario) && startedAt == old(startedAt)
      ensures HasEntry(old(running), name) ==>
        && running == old(running) - {name}
        && (old(activeScenario) == Some(name) ==> activeScenario == None && startedAt == None)
        && (old(activeScenario) != Some(name) ==>
              activeScenario == old(activeScenario) && startedAt == old(startedAt))
        && (baselineActive <==> running == map[])
    {
      if !HasEntry(running, name) {
        return;
      }
      running := running - {name};
      if activeScenario == Some(name) {
        activeScenario := None;
        startedAt := None;
      }
      if |running| == 0 {
        StartBaseline();
      }
    }

    /** `getStatus`: null unless `activeScenario` is truthy, else the active name and its start. */
    method GetStatus() returns (s: Option<Status>)
      requires Valid()
      ensures s.None? <==> !Truthy(activeScenario)
      ensures s.Some? ==> activeScenario == Some(s.value.scenario) && startedAt == Some(s.value.startedAt)
    {
      if !Truthy(activeScenario) {
        return None;
      }
      s := Some(Status(activeScenario.value, startedAt.value));
    }

    /**
     * One firing of the timer of `name`: nothing when it has no timer,
     * otherwise its function called with the elapsed seconds measured from
     * the shared `startedAt`.
     */
    method Tick(name: string, now: int, jitter: int, draw: nat -> Draw) returns (emitted: seq<LogRecord>)
      ensures name !in running ==> emitted == []
      ensures name in running ==>
        var t := ElapsedSeconds(now, startedAt);
        && |emitted| == Rate(running[name], t, jitter)
        && forall i :: 0 <= i < |emitted| ==> emitted[i] == ScenarioRecord(running[name], t, jitter, draw(i))
    {
      if name !in running {
        return [];
      }
      var t := ElapsedSeconds(now, startedAt);
      emitted := RunScenario(running[name], t, jitter, draw);
    }

    /** One firing of the baseline timer, if there is one. */
    method BaselineTick(draw: nat -> BaselineEmitter.BaselineDraw) returns (emitted: seq<LogRecord>)
      ensures !baselineActive ==> emitted == []
      ensures baselineActive ==>
        && |emitted| == |BaselineEmitter.Services|
        && forall i :: 0 <= i < |emitted| ==> emitted[i] == BaselineEmitter.Record(BaselineEmitter.Services[i], draw(i))
    {
      if !baselineActive {
        return [];
      }
      emitted := BaselineEmitter.Emit(draw);
    }
  }

  /**
   * Starting db-exhaustion and ticking 100 s later: eight database records,
   * each 503 with CONNECTION_POOL_EXHAUSTED on error or 200 with no tag.
   */
  method DbExhaustionAt100(start: int, draw: nat -> Draw) returns (emitted: seq<LogRecord>)
    ensures |emitted| == 8
    ensures forall r :: r in emitted ==>
      && r.service == "database"
      && (r.statusCode == 200 || r.statusCode == 503)
      && (r.errorType == Some("CONNECTION_POOL_EXHAUSTED") <==> r.statusCode == 503)
  {
    var m := new Manager();
    m.StartScenario("db-exhaustion", DbExhaustionFn, start);
    emitted := m.Tick("db-exhaustion", start + 100_000, 0, draw);
    assert ElapsedSeconds(start + 100_000, Some(start)) == 100;
    forall r | r in emitted
      ensures && r.service == "database"
              && (r.statusCode == 200 || r.statusCode == 503)
              && (r.errorType == Some("CONNECTION_POOL_EXHAUSTED") <==> r.statusCode == 503)
    {
      var i :| 0 <= i < |emitted| && emitted[i] == r;
      assert r == DbExhaustion.Record(100, draw(i));
    }
  }

  /** Stopping the only running scenario clears the status and the baseline ticks again. */
  method StopSoleScenario(name: string, f: ScenarioFn, start: int, draw: nat -> BaselineEmitter.BaselineDraw)
    returns (status: Option<Status>, baseline: seq<LogRecord>)
    ensures status == None
    ensures |baseline| == 4
  {
    var m := new Manager();
    m.StartBaseline();
    m.StartScenario(name, f, start);
    m.StopScenario(name);
    status := m.GetStatus();
    baseline := m.BaselineTick(draw);
  }

  /** Starting a running scenario again keeps its original start time. */
  method RestartIsNoOp(name: string, f: ScenarioFn, g: ScenarioFn, first: int, second: int)
    returns (status: Option<Status>)
    requires name != "" && name !in InheritedKeys
    ensures status == Some(Status(name, first))
  {
    var m := new Manager();
    m.StartScenario(name, f, first);
    m.StartScenario(name, g, second);
    status := m.GetStatus();
  }

  /**
   * No conflict check: starting b while a runs makes b the active scenario
   * and leaves a's timer running; a's timer then measures time from b's start.
   */
  method SecondStartRebasesFirstTimer(draw: nat -> Draw)
    returns (status: Option<Status>, fromA: seq<LogRecord>)
    ensures status == Some(Status("auth-failure", 100_000))
    ensures |fromA| == DbExhaustion.EmissionParams(30).rate == 4
  {
    var m := new Manager();
    m.StartScenario("db-exhaustion", DbExhaustionFn, 0);
    m.StartScenario("auth-failure", AuthFailureFn, 100_000);
    status := m.GetStatus();
    fromA := m.Tick("db-exhaustion", 130_000, 0, draw);
    assert ElapsedSeconds(130_000, Some(100_000)) == 30;
  }

  /**
   * Names inherited from `Object.prototype` look like running scenarios:
   * starting "constructor" is refused, and stopping "toString" with no
   * timers at all restarts the baseline.
   */
  method InheritedNames(f: ScenarioFn, now: int, draw: nat -> BaselineEmitter.BaselineDraw)
    returns (status: Option<Status>, baseline: seq<LogRecord>)
    ensures status == None
    ensures |baseline| == 4
  {
    var m := new Manager();
    m.StartScenario("constructor", f, now);
    status := m.GetStatus();
    m.StopScenario("toString");
    baseline := m.BaselineTick(draw);
  }
}
