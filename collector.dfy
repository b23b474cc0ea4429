/**
 * The exporter's collector object: it remembers the printer's host name and
 * the metric name prefix, and on each scrape turns the telemetry the printer
 * returned into metric families.
 */
module Collector {
  import opened Wrappers
  import opened Telemetry
  import opened Metrics
  import opened Translation
  import Duration

  /** The `ValueError` the constructor raises for a missing host name. */
  datatype ConfigError = NoHostname

  /** The prefix every metric name starts with. */
  const Prefix: string := "prusa"

  class PrusaCollector {
    const hostname: string
    const prefix: string

    /** `__init__` for a host name that passed the check. */
    constructor(hostname: string)
      requires hostname != ""
      ensures this.hostname == hostname && prefix == Prefix
    {
      this.hostname := hostname;
      prefix := Prefix;
    }

    /**
     * `PrusaCollector(hostname)` as a caller sees it: a falsy host name
     * (None or the empty string) raises instead of building a collector.
     */
    static method Create(hostname: Option<string>) returns (r: Result<PrusaCollector, ConfigError>)
      ensures r.Err? <==> hostname.None? || hostname.value == ""
      ensures r.Err? ==> r.error == NoHostname
      ensures r.Ok? ==> fresh(r.value) && r.value.hostname == hostname.value && r.value.prefix == Prefix
    {
      if hostname.None? || hostname.value == "" {
        return Err(NoHostname);
      }
      var c := new PrusaCollector(hostname.value);
      return Ok(c);
    }

    /** Lines 80-84: the local `time` stays None for a falsy `print_dur`, else becomes the parsed seconds. */
    static method ElapsedTimeOf(printDur: Value) returns (r: Result<Value, CollectError>)
      ensures r == ElapsedSeconds(printDur)
    {
      var time := Null;
      if Truthy(printDur) {
        if !printDur.Str? {
          return Err(DurationNotText);
        }
        var seconds := Duration.ParseDuration(printDur.s);
        if seconds.None? {
          return Err(DurationMismatch);
        }
        time := Num(seconds.value as real);
      }
      return Ok(time);
    }

    /** Lines 89-91: `progress /= 100` only when `progress` is truthy. */
    static method ProgressOf(value: Value) returns (r: Result<Value, CollectError>)
      ensures r == ScaledProgress(value)
    {
      var progress := value;
      if Truthy(progress) {
        if !progress.Num? {
          return Err(NotANumber("progress"));
        }
        progress := Num(progress.n / 100.0);
      }
      return Ok(progress);
    }

    /**
     * `collect` on the telemetry `retrieve_telemetry` returned: the families
     * it yields, built one after the other, or the exception that stops it.
     * It agrees with the translation, so every property proved about
     * `Translate` holds of what a scrape exposes.
     */
    method Collect(telemetry: Option<Snapshot>) returns (r: Result<seq<Family>, CollectError>)
      ensures r == Translate(prefix, telemetry)
    {
      var available := Available(telemetry);
      var families := [AvailabilityFamily(prefix, available)];
      if !available {
        return Ok(families);
      }
      var snap := telemetry.value;

      families := families + [TemperatureFamily(prefix, snap)];

      var speed := Get(snap, "printing_speed");
      if !speed.Num? {
        return Err(NotANumber("printing_speed"));
      }
      families := families + [PrintSpeedFamily(prefix, speed.n / 100.0)];

      var flow := Get(snap, "flow_factor");
      if !flow.Num? {
        return Err(NotANumber("flow_factor"));
      }
      families := families + [FlowFactorFamily(prefix, flow.n / 100.0)];

      families := families + [PositionFamily(prefix, snap)];
      families := families + [MaterialFamily(prefix, snap)];

      var time :- ElapsedTimeOf(Get(snap, "print_dur"));
      families := families + [ElapsedTimeFamily(prefix, time)];

      families := families + [RemainingTimeFamily(prefix, snap)];

      var progress :- ProgressOf(Get(snap, "progress"));
      families := families + [ProgressFamily(prefix, progress)];

      if Truthy(Get(snap, "project_name")) {
        families := families + [PrintJobFamily(prefix, snap)];
      }

      var rd := Readings(speed.n / 100.0, flow.n / 100.0, time, progress);
      assert Compute(snap) == Ok(rd);
      YieldsInOrder(prefix, snap, rd);
      return Ok(families);
    }
  }
}
