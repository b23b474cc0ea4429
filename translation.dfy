/**
 * PrusaCollector's translation of one telemetry snapshot into metric
 * families (`collect`), and the static catalogue it advertises (`describe`).
 * Both are pure here: `collect` keeps no state between scrapes.
 */
module Translation {
  import opened Wrappers
  import opened Telemetry
  import opened Metrics
  import Duration

  /** The exceptions `collect` can raise; any of them aborts the whole scrape. */
  datatype CollectError =
    | NotANumber(field: string)  // `value / 100` on None or a string: TypeError
    | DurationNotText            // `re.match` given a number as `print_dur`: TypeError
    | DurationMismatch           // `re.match` found no match, so `match.group` fails: AttributeError

  function Name(prefix: string, base: string): string {
    prefix + "_" + base
  }

  // ---------------------------------------------------------------------------
  // The base names and help texts of the ten families, as lines 100-109 spell them.
  // Lines 58-97 spell every one of them a second time, identically, so `collect`
  // and `describe` share these constants here.

  const AvailabilityBase: string := "printer_available"
  const AvailabilityHelp: string := "Returns of the printer is available on the network"
  const TemperatureBase: string := "temperature"
  const TemperatureHelp: string := "Various temperatures of the printer"
  const PrintSpeedBase: string := "print_speed"
  const PrintSpeedHelp: string := "Print speed of the printer"
  const FlowFactorBase: string := "flow_factor"
  const FlowFactorHelp: string := "Flow factor"
  const PositionBase: string := "position"
  const PositionHelp: string := "Position of the axis"
  const MaterialBase: string := "material"
  const MaterialHelp: string := "Info about the material loaded into the printer"
  const ElapsedTimeBase: string := "print_job_elapsed_time"
  const ElapsedTimeHelp: string := "Time elapsed since the start of the print"
  const RemainingTimeBase: string := "print_job_remaining_time"
  const RemainingTimeHelp: string := "Time remaining of the print job"
  const ProgressBase: string := "print_job_progress"
  const ProgressHelp: string := "The percent progress of the print job"
  const PrintJobBase: string := "print_job"
  const PrintJobHelp: string := "Info about the current print job"

  // ---------------------------------------------------------------------------
  // The families `collect` yields, in order

  function AvailabilityFamily(prefix: string, available: bool): (f: Family)
    ensures f.samples == [Sample([], Num(if available then 1.0 else 0.0))]
  {
    NewGauge(Name(prefix, AvailabilityBase), AvailabilityHelp, "", [],
             Num(if available then 1.0 else 0.0))
  }

  function TemperatureFamily(prefix: string, snap: Snapshot): (f: Family)
    ensures f.samples == [Sample([Label("sensor", Str("nozzle"))], Get(snap, "temp_nozzle")),
                          Sample([Label("sensor", Str("bed"))], Get(snap, "temp_bed"))]
  {
    var family := NewGauge(Name(prefix, TemperatureBase), TemperatureHelp, "celsius", ["sensor"], Null);
    assert Zip(["sensor"], [Str("nozzle")]) == [Label("sensor", Str("nozzle"))];
    assert Zip(["sensor"], [Str("bed")]) == [Label("sensor", Str("bed"))];
    var family := AddMetric(family, [Str("nozzle")], Get(snap, "temp_nozzle"));
    AddMetric(family, [Str("bed")], Get(snap, "temp_bed"))
  }

  function PrintSpeedFamily(prefix: string, speed: real): (f: Family)
    ensures f.samples == [Sample([], Num(speed))]
  {
    NewGauge(Name(prefix, PrintSpeedBase), PrintSpeedHelp, "percent", [], Num(speed))
  }

  function FlowFactorFamily(prefix: string, flow: real): (f: Family)
    ensures f.samples == [Sample([], Num(flow))]
  {
    NewGauge(Name(prefix, FlowFactorBase), FlowFactorHelp, "percent", [], Num(flow))
  }

  function PositionFamily(prefix: string, snap: Snapshot): (f: Family)
    ensures f.samples == [Sample([Label("axis", Str("z"))], Get(snap, "pos_z_mm"))]
  {
    var family := NewGauge(Name(prefix, PositionBase), PositionHelp, "millimeters", ["axis"], Null);
    assert Zip(["axis"], [Str("z")]) == [Label("axis", Str("z"))];
    AddMetric(family, [Str("z")], Get(snap, "pos_z_mm"))
  }

  function MaterialFamily(prefix: string, snap: Snapshot): (f: Family)
    ensures f.samples == [Sample([Label("material", Get(snap, "material"))], Num(1.0))]
  {
    var family := NewInfo(Name(prefix, MaterialBase), MaterialHelp);
    assert Zip([], []) + [Label("material", Get(snap, "material"))] == [Label("material", Get(snap, "material"))];
    AddInfo(family, [], [Label("material", Get(snap, "material"))])
  }

  function ElapsedTimeFamily(prefix: string, time: Value): (f: Family)
    ensures f.samples == Reading(time)
  {
    NewGauge(Name(prefix, ElapsedTimeBase), ElapsedTimeHelp, "seconds", [], time)
  }

  function RemainingTimeFamily(prefix: string, snap: Snapshot): (f: Family)
    ensures f.samples == Reading(Get(snap, "time_est"))
  {
    NewGauge(Name(prefix, RemainingTimeBase), RemainingTimeHelp, "seconds", [],
             Get(snap, "time_est"))
  }

  function ProgressFamily(prefix: string, progress: Value): (f: Family)
    ensures f.samples == Reading(progress)
  {
    NewGauge(Name(prefix, ProgressBase), ProgressHelp, "percent", [], progress)
  }

  function PrintJobFamily(prefix: string, snap: Snapshot): (f: Family)
    ensures f.samples == [Sample([Label("project", Get(snap, "project_name"))], Num(1.0))]
  {
    var family := NewInfo(Name(prefix, PrintJobBase), PrintJobHelp);
    assert Zip([], []) + [Label("project", Get(snap, "project_name"))] == [Label("project", Get(snap, "project_name"))];
    AddInfo(family, [], [Label("project", Get(snap, "project_name"))])
  }

  // ---------------------------------------------------------------------------
  // The computed values

  /** `value / 100` as Python evaluates it: only a number can be divided. */
  function Percent(field: string, v: Value): (r: Result<real, CollectError>)
    ensures r.Ok? <==> v.Num?
    ensures r.Ok? ==> r.value * 100.0 == v.n
    ensures r.Err? ==> r.error == NotANumber(field)
  {
    if v.Num? then Ok(v.n / 100.0) else Err(NotANumber(field))
  }

  /** Lines 80-84: no value for a falsy `print_dur`, else the parsed seconds or the exception raised. */
  function ElapsedSeconds(printDur: Value): (r: Result<Value, CollectError>)
    ensures !Truthy(printDur) ==> r == Ok(Null)
    ensures Truthy(printDur) && !printDur.Str? ==> r == Err(DurationNotText)
    ensures Truthy(printDur) && printDur.Str? ==>
              r == if Duration.Scan(printDur.s).None? then Err(DurationMismatch)
                   else Ok(Num(Duration.ParseDuration(printDur.s).value as real))
  {
    if !Truthy(printDur) then Ok(Null)
    else if !printDur.Str? then Err(DurationNotText)
    else match Duration.ParseDuration(printDur.s)
      case None => Err(DurationMismatch)
      case Some(seconds) => Ok(Num(seconds as real))
  }

  /** Lines 89-91: a truthy `progress` is divided by 100, anything else is passed on as it is. */
  function ScaledProgress(progress: Value): (r: Result<Value, CollectError>)
    ensures r.Err? <==> Truthy(progress) && !progress.Num?
    ensures r.Ok? && Truthy(progress) ==> r.value.Num? && r.value.n * 100.0 == progress.n
    ensures !Truthy(progress) ==> r == Ok(progress)
  {
    if Truthy(progress) then
      var p :- Percent("progress", progress);
      Ok(Num(p))
    else Ok(progress)
  }

  /** Whether `collect` raises on this snapshot (every cause, in any order). */
  predicate Raises(snap: Snapshot) {
    var dur := Get(snap, "print_dur");
    var progress := Get(snap, "progress");
    !Get(snap, "printing_speed").Num?
    || !Get(snap, "flow_factor").Num?
    || (Truthy(dur) && (!dur.Str? || Duration.Scan(dur.s).None?))
    || (Truthy(progress) && !progress.Num?)
  }

  /** The four values `collect` computes from a snapshot, the only steps that can raise. */
  datatype Readings = Readings(speed: real, flow: real, elapsed: Value, progress: Value)

  /** Lines 68-91 up to the yields: the computations that can raise, in the order the source runs them. */
  function Compute(snap: Snapshot): (r: Result<Readings, CollectError>)
    ensures r.Err? <==> Raises(snap)
    ensures !Get(snap, "printing_speed").Num? ==> r == Err(NotANumber("printing_speed"))
    ensures Get(snap, "printing_speed").Num? && !Get(snap, "flow_factor").Num? ==>
              r == Err(NotANumber("flow_factor"))
    ensures Get(snap, "printing_speed").Num? && Get(snap, "flow_factor").Num? && r.Err? ==>
              r.error == if ElapsedSeconds(Get(snap, "print_dur")).Err?
                         then ElapsedSeconds(Get(snap, "print_dur")).error
                         else NotANumber("progress")
    ensures r.Ok? ==>
              r.value.speed == Get(snap, "printing_speed").n / 100.0
              && r.value.flow == Get(snap, "flow_factor").n / 100.0
              && Ok(r.value.elapsed) == ElapsedSeconds(Get(snap, "print_dur"))
              && Ok(r.value.progress) == ScaledProgress(Get(snap, "progress"))
  {
    var speed :- Percent("printing_speed", Get(snap, "printing_speed"));
    var flow :- Percent("flow_factor", Get(snap, "flow_factor"));
    var elapsed :- ElapsedSeconds(Get(snap, "print_dur"));
    var progress :- ScaledProgress(Get(snap, "progress"));
    Ok(Readings(speed, flow, elapsed, progress))
  }

  /** The samples of an unlabelled gauge created with `value`: none for `None`. */
  function Reading(value: Value): seq<Sample> {
    if value == Null then [] else [Sample([], value)]
  }

  // ---------------------------------------------------------------------------
  // The catalogue

  /** The ten families, one entry each. */
  datatype Metric =
    | Availability | Temperature | PrintSpeed | FlowFactor | Position
    | Material | ElapsedTime | RemainingTime | Progress | PrintJob

  /** The order in which `describe` lists the families and `collect` yields them. */
  const Catalogue: seq<Metric> :=
    [Availability, Temperature, PrintSpeed, FlowFactor, Position, Material, ElapsedTime, RemainingTime, Progress, PrintJob]

  /** Lines 100-109: the family `describe` yields for an entry, created without a value. */
  function Described(prefix: string, m: Metric): (f: Family)
    ensures f.samples == []
    ensures f.kind == Info <==> m == Material || m == PrintJob
    ensures f.kind == Info ==> f.unit == "" && f.labelNames == []
  {
    match m
    case Availability => NewGauge(Name(prefix, AvailabilityBase), AvailabilityHelp, "", [], Null)
    case Temperature => NewGauge(Name(prefix, TemperatureBase), TemperatureHelp, "celsius", ["sensor"], Null)
    case PrintSpeed => NewGauge(Name(prefix, PrintSpeedBase), PrintSpeedHelp, "percent", [], Null)
    case FlowFactor => NewGauge(Name(prefix, FlowFactorBase), FlowFactorHelp, "percent", [], Null)
    case Position => NewGauge(Name(prefix, PositionBase), PositionHelp, "millimeters", ["axis"], Null)
    case Material => NewInfo(Name(prefix, MaterialBase), MaterialHelp)
    case ElapsedTime => NewGauge(Name(prefix, ElapsedTimeBase), ElapsedTimeHelp, "seconds", [], Null)
    case RemainingTime => NewGauge(Name(prefix, RemainingTimeBase), RemainingTimeHelp, "seconds", [], Null)
    case Progress => NewGauge(Name(prefix, ProgressBase), ProgressHelp, "percent", [], Null)
    case PrintJob => NewInfo(Name(prefix, PrintJobBase), PrintJobHelp)
  }

  /** Lines 58-97: the family `collect` yields for an entry of a reachable printer, from the computed readings. */
  function Collected(prefix: string, snap: Snapshot, rd: Readings, m: Metric): Family {
    match m
    case Availability => AvailabilityFamily(prefix, true)
    case Temperature => TemperatureFamily(prefix, snap)
    case PrintSpeed => PrintSpeedFamily(prefix, rd.speed)
    case FlowFactor => FlowFactorFamily(prefix, rd.flow)
    case Position => PositionFamily(prefix, snap)
    case Material => MaterialFamily(prefix, snap)
    case ElapsedTime => ElapsedTimeFamily(prefix, rd.elapsed)
    case RemainingTime => RemainingTimeFamily(prefix, snap)
    case Progress => ProgressFamily(prefix, rd.progress)
    case PrintJob => PrintJobFamily(prefix, snap)
  }

  /**
   * What each entry yields: a family with samples, except for elapsed time,
   * remaining time and progress, which yield an empty family exactly when
   * their value is None.
   */
  lemma CollectedSamples(prefix: string, snap: Snapshot, rd: Readings, m: Metric)
    ensures var f := Collected(prefix, snap, rd, m);
            (m != ElapsedTime && m != RemainingTime && m != Progress ==> f.samples != [])
            && (m == ElapsedTime ==> (f.samples == [] <==> rd.elapsed == Null))
            && (m == RemainingTime ==> (f.samples == [] <==> Get(snap, "time_est") == Null))
            && (m == Progress ==> (f.samples == [] <==> rd.progress == Null))
  {
  }

  /**
   * Each collected family carries the schema `describe` advertises for its
   * entry. Names and help texts agree by construction (the shared constants
   * above); what is checked is the kind, unit and label names each side uses.
   */
  lemma SameSchema(prefix: string, snap: Snapshot, rd: Readings, m: Metric)
    ensures SchemaOf(Collected(prefix, snap, rd, m)) == SchemaOf(Described(prefix, m))
  {
  }

  /** The collected families for a list of entries, in that order. */
  function CollectedAll(prefix: string, snap: Snapshot, rd: Readings, ms: seq<Metric>): (fs: seq<Family>)
    ensures |fs| == |ms|
    ensures forall i :: 0 <= i < |ms| ==> fs[i] == Collected(prefix, snap, rd, ms[i])
  {
    if ms == [] then [] else [Collected(prefix, snap, rd, ms[0])] + CollectedAll(prefix, snap, rd, ms[1..])
  }

  /** The described families for a list of entries, in that order. */
  function DescribedAll(prefix: string, ms: seq<Metric>): (fs: seq<Family>)
    ensures |fs| == |ms|
    ensures forall i :: 0 <= i < |ms| ==> fs[i] == Described(prefix, ms[i])
  {
    if ms == [] then [] else [Described(prefix, ms[0])] + DescribedAll(prefix, ms[1..])
  }

  /** Extending a prefix of the entries by the next one appends that entry's family. */
  lemma CollectedNext(prefix: string, snap: Snapshot, rd: Readings, ms: seq<Metric>, k: nat)
    requires k < |ms|
    ensures CollectedAll(prefix, snap, rd, ms[..k + 1])
         == CollectedAll(prefix, snap, rd, ms[..k]) + [Collected(prefix, snap, rd, ms[k])]
  {
    assert ms[..k + 1] == ms[..k] + [ms[k]];
    CollectedSnoc(prefix, snap, rd, ms[..k], ms[k]);
  }

  /** Appending an entry appends its family. */
  lemma CollectedSnoc(prefix: string, snap: Snapshot, rd: Readings, ms: seq<Metric>, m: Metric)
    ensures CollectedAll(prefix, snap, rd, ms + [m])
         == CollectedAll(prefix, snap, rd, ms) + [Collected(prefix, snap, rd, m)]
  {
    var l := CollectedAll(prefix, snap, rd, ms + [m]);
    var r := CollectedAll(prefix, snap, rd, ms);
    forall i | 0 <= i < |ms|
      ensures l[i] == r[i]
    {
      assert (ms + [m])[i] == ms[i];
    }
  }

  /** The first four families, spelled out one append at a time as `collect` yields them. */
  lemma OpeningFamilies(prefix: string, snap: Snapshot, rd: Readings)
    ensures CollectedAll(prefix, snap, rd, Catalogue[..4])
         == [AvailabilityFamily(prefix, true)] + [TemperatureFamily(prefix, snap)]
            + [PrintSpeedFamily(prefix, rd.speed)] + [FlowFactorFamily(prefix, rd.flow)]
  {
    assert CollectedAll(prefix, snap, rd, Catalogue[..0]) == [];
    CollectedNext(prefix, snap, rd, Catalogue, 0);
    CollectedNext(prefix, snap, rd, Catalogue, 1);
    CollectedNext(prefix, snap, rd, Catalogue, 2);
    CollectedNext(prefix, snap, rd, Catalogue, 3);
  }

  /** Position and material follow. */
  lemma MiddleFamilies(prefix: string, snap: Snapshot, rd: Readings)
    ensures CollectedAll(prefix, snap, rd, Catalogue[..6])
         == CollectedAll(prefix, snap, rd, Catalogue[..4])
            + [PositionFamily(prefix, snap)] + [MaterialFamily(prefix, snap)]
  {
    CollectedNext(prefix, snap, rd, Catalogue, 4);
    CollectedNext(prefix, snap, rd, Catalogue, 5);
  }

  /** Then the two times, elapsed and remaining. */
  lemma TimeFamilies(prefix: string, snap: Snapshot, rd: Readings)
    ensures CollectedAll(prefix, snap, rd, Catalogue[..8])
         == CollectedAll(prefix, snap, rd, Catalogue[..6])
            + [ElapsedTimeFamily(prefix, rd.elapsed)] + [RemainingTimeFamily(prefix, snap)]
  {
    CollectedNext(prefix, snap, rd, Catalogue, 6);
    CollectedNext(prefix, snap, rd, Catalogue, 7);
  }

  /** Progress completes the families yielded without a print job. */
  lemma ClosingFamilies(prefix: string, snap: Snapshot, rd: Readings)
    ensures CollectedAll(prefix, snap, rd, Catalogue[..9])
         == CollectedAll(prefix, snap, rd, Catalogue[..8]) + [ProgressFamily(prefix, rd.progress)]
  {
    CollectedNext(prefix, snap, rd, Catalogue, 8);
  }

  /** The print-job record comes last. */
  lemma PrintJobLast(prefix: string, snap: Snapshot, rd: Readings)
    ensures CollectedAll(prefix, snap, rd, Catalogue)
         == CollectedAll(prefix, snap, rd, Catalogue[..9]) + [PrintJobFamily(prefix, snap)]
  {
    CollectedNext(prefix, snap, rd, Catalogue, 9);
    assert Catalogue[..10] == Catalogue;
  }

  /**
   * Lines 94-97: the entries yielded for a reachable printer, a prefix of the
   * catalogue that holds the print-job record only for a truthy `project_name`.
   */
  function Yielded(snap: Snapshot): (ms: seq<Metric>)
    ensures ms <= Catalogue
    ensures |ms| == if Truthy(Get(snap, "project_name")) then |Catalogue| else |Catalogue| - 1
    ensures PrintJob in ms <==> Truthy(Get(snap, "project_name"))
  {
    if Truthy(Get(snap, "project_name")) then Catalogue else Catalogue[..9]
  }

  /**
   * `collect` on the snapshot `retrieve_telemetry` returned (None when the
   * printer could not be reached): the families it yields, or the exception
   * that aborts it.
   */
  function Translate(prefix: string, telemetry: Option<Snapshot>): (r: Result<seq<Family>, CollectError>)
    ensures !Available(telemetry) ==> r == Ok([AvailabilityFamily(prefix, false)])
    ensures Available(telemetry) ==> (r.Err? <==> Raises(telemetry.value))
    ensures Available(telemetry) && r.Err? ==> r.error == Compute(telemetry.value).error
    ensures Available(telemetry) && r.Ok? ==>
              r.value == CollectedAll(prefix, telemetry.value, Compute(telemetry.value).value, Yielded(telemetry.value))
  {
    if !Available(telemetry) then
      Ok([AvailabilityFamily(prefix, false)])
    else
      var rd :- Compute(telemetry.value);
      Ok(CollectedAll(prefix, telemetry.value, rd, Yielded(telemetry.value)))
  }

  /**
   * A reachable printer whose readings all computed: the families `collect`
   * yields, spelled out one append at a time in the order it yields them.
   */
  lemma YieldsInOrder(prefix: string, snap: Snapshot, rd: Readings)
    requires |snap.fields| > 0 && Compute(snap) == Ok(rd)
    ensures var opening := [AvailabilityFamily(prefix, true)] + [TemperatureFamily(prefix, snap)]
                           + [PrintSpeedFamily(prefix, rd.speed)] + [FlowFactorFamily(prefix, rd.flow)]
                           + [PositionFamily(prefix, snap)] + [MaterialFamily(prefix, snap)]
                           + [ElapsedTimeFamily(prefix, rd.elapsed)] + [RemainingTimeFamily(prefix, snap)]
                           + [ProgressFamily(prefix, rd.progress)];
            Translate(prefix, Some(snap))
              == Ok(if Truthy(Get(snap, "project_name")) then opening + [PrintJobFamily(prefix, snap)] else opening)
  {
    OpeningFamilies(prefix, snap, rd);
    MiddleFamilies(prefix, snap, rd);
    TimeFamilies(prefix, snap, rd);
    ClosingFamilies(prefix, snap, rd);
    PrintJobLast(prefix, snap, rd);
  }

  /** `describe`: the ten catalogue families, as lines 100-109 create them, without samples. */
  function Describe(prefix: string): (r: seq<Family>)
    ensures |r| == |Catalogue| == 10
    ensures forall i :: 0 <= i < |r| ==> r[i] == Described(prefix, Catalogue[i]) && r[i].samples == []
  {
    DescribedAll(prefix, Catalogue)
  }
}
