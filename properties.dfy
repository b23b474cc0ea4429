/** What `collect` and `describe` promise, stated over the translation. */
module TranslationProperties {
  import opened Wrappers
  import opened Telemetry
  import opened Metrics
  import opened Translation
  import Duration

  /** A successful scrape of a reachable printer yields, at each position, the collected family of that catalogue entry. */
  lemma YieldedAt(prefix: string, snap: Snapshot, i: nat)
    requires |snap.fields| > 0 && Translate(prefix, Some(snap)).Ok?
    requires i < |Translate(prefix, Some(snap)).value|
    ensures !Raises(snap) && Compute(snap).Ok?
    ensures Translate(prefix, Some(snap)).value[i] == Collected(prefix, snap, Compute(snap).value, Catalogue[i])
  {
    assert Available(Some(snap));
    assert Yielded(snap)[i] == Catalogue[i];
  }

  /** An unreachable printer, or an empty object, yields `printer_available` = 0 and nothing else. */
  lemma UnavailableOnlyAvailability(prefix: string, telemetry: Option<Snapshot>)
    requires !Available(telemetry)
    ensures Translate(prefix, telemetry)
         == Ok([Family(Gauge, Name(prefix, AvailabilityBase), AvailabilityHelp, "", [], [Sample([], Num(0.0))])])
  {
  }

  /** The first family is always `printer_available`, 1 for a reachable printer and 0 otherwise. */
  lemma AvailabilityFirst(prefix: string, telemetry: Option<Snapshot>)
    requires Translate(prefix, telemetry).Ok?
    ensures var fs := Translate(prefix, telemetry).value;
            |fs| >= 1 && fs[0].name == Name(prefix, AvailabilityBase)
            && fs[0].samples == [Sample([], Num(if Available(telemetry) then 1.0 else 0.0))]
  {
    if Available(telemetry) {
      YieldedAt(prefix, telemetry.value, 0);
    }
  }

  /** The checks that can raise run in source order, so the first failing one names the error. */
  lemma ErrorsInSourceOrder(prefix: string, snap: Snapshot)
    requires |snap.fields| > 0
    ensures var r := Translate(prefix, Some(snap));
            var speed, flow := Get(snap, "printing_speed"), Get(snap, "flow_factor");
            var dur, progress := Get(snap, "print_dur"), Get(snap, "progress");
            (r.Err? <==> Raises(snap))
            && (!speed.Num? ==> r == Err(NotANumber("printing_speed")))
            && (speed.Num? && !flow.Num? ==> r == Err(NotANumber("flow_factor")))
            && (speed.Num? && flow.Num? && Truthy(dur) && !dur.Str? ==> r == Err(DurationNotText))
            && (speed.Num? && flow.Num? && Truthy(dur) && dur.Str? && Duration.Scan(dur.s).None? ==>
                  r == Err(DurationMismatch))
            && (speed.Num? && flow.Num? && ElapsedSeconds(dur).Ok? && Truthy(progress) && !progress.Num? ==>
                  r == Err(NotANumber("progress")))
  {
    assert Available(Some(snap));
  }

  /**
   * Temperature always carries two samples, nozzle then bed, and position one
   * sample for z, each holding the snapshot's value unchanged (None included).
   */
  lemma TemperatureAndPosition(prefix: string, snap: Snapshot)
    requires Translate(prefix, Some(snap)).Ok? && |snap.fields| > 0
    ensures var fs := Translate(prefix, Some(snap)).value;
            |fs| >= 9
            && fs[1].samples == [Sample([Label("sensor", Str("nozzle"))], Get(snap, "temp_nozzle")),
                                 Sample([Label("sensor", Str("bed"))], Get(snap, "temp_bed"))]
            && fs[4].samples == [Sample([Label("axis", Str("z"))], Get(snap, "pos_z_mm"))]
  {
    YieldedAt(prefix, snap, 1);
    YieldedAt(prefix, snap, 4);
  }

  /** Print speed and flow factor are the snapshot's percentages divided by 100. */
  lemma PercentScaling(prefix: string, snap: Snapshot)
    requires Translate(prefix, Some(snap)).Ok? && |snap.fields| > 0
    ensures var fs := Translate(prefix, Some(snap)).value;
            var speed, flow := Get(snap, "printing_speed"), Get(snap, "flow_factor");
            |fs| >= 9 && speed.Num? && flow.Num?
            && fs[2].samples == [Sample([], Num(speed.n / 100.0))]
            && fs[3].samples == [Sample([], Num(flow.n / 100.0))]
  {
    YieldedAt(prefix, snap, 2);
    YieldedAt(prefix, snap, 3);
  }

  /** Elapsed time: no sample for a falsy `print_dur`, otherwise the parsed seconds. */
  lemma ElapsedTime(prefix: string, snap: Snapshot)
    requires Translate(prefix, Some(snap)).Ok? && |snap.fields| > 0
    ensures var fs := Translate(prefix, Some(snap)).value;
            var dur := Get(snap, "print_dur");
            |fs| >= 9
            && (!Truthy(dur) ==> fs[6].samples == [])
            && (Truthy(dur) ==> dur.Str? && Duration.ParseDuration(dur.s).Some?
                                && fs[6].samples == [Sample([], Num(Duration.ParseDuration(dur.s).value as real))])
  {
    YieldedAt(prefix, snap, 6);
    var fs := Translate(prefix, Some(snap)).value;
    assert Catalogue[6] == Metric.ElapsedTime;
    assert fs[6] == ElapsedTimeFamily(prefix, Compute(snap).value.elapsed);
  }

  /** Any spelling the pattern accepts becomes its seconds; any other non-empty text raises. */
  lemma ElapsedSecondsOfText(s: string)
    requires s != ""
    ensures ElapsedSeconds(Str(s)).Ok?
            <==> exists m :: Duration.WellFormed(m) && Duration.Render(m) == s
    ensures forall m :: Duration.WellFormed(m) && Duration.Render(m) == s
                       ==> ElapsedSeconds(Str(s)) == Ok(Num(Duration.Seconds(m) as real))
  {
    forall m | Duration.WellFormed(m) && Duration.Render(m) == s
      ensures ElapsedSeconds(Str(s)) == Ok(Num(Duration.Seconds(m) as real))
    {
      Duration.ParseRendered(m);
    }
    if ElapsedSeconds(Str(s)).Ok? {
      var m := Duration.Scan(s).value;
      assert Duration.WellFormed(m) && Duration.Render(m) == s;
    }
  }

  /** Remaining time is `time_est` unchanged; None yields no sample. */
  lemma RemainingTimePassThrough(prefix: string, snap: Snapshot)
    requires Translate(prefix, Some(snap)).Ok? && |snap.fields| > 0
    ensures var fs := Translate(prefix, Some(snap)).value;
            var est := Get(snap, "time_est");
            |fs| >= 9 && fs[7].samples == if est == Null then [] else [Sample([], est)]
  {
    YieldedAt(prefix, snap, 7);
    var fs := Translate(prefix, Some(snap)).value;
    assert Catalogue[7] == RemainingTime;
    assert fs[7] == RemainingTimeFamily(prefix, snap);
  }

  /**
   * Progress: a truthy number is divided by 100; a falsy value is passed on
   * unchanged, so 0 (or "") still yields a sample and only None yields none.
   */
  lemma ProgressValue(prefix: string, snap: Snapshot)
    requires Translate(prefix, Some(snap)).Ok? && |snap.fields| > 0
    ensures var fs := Translate(prefix, Some(snap)).value;
            var progress := Get(snap, "progress");
            |fs| >= 9
            && (Truthy(progress) ==> progress.Num? && fs[8].samples == [Sample([], Num(progress.n / 100.0))])
            && (!Truthy(progress) && progress != Null ==> fs[8].samples == [Sample([], progress)])
            && (progress == Null ==> fs[8].samples == [])
  {
    YieldedAt(prefix, snap, 8);
    var progress := Get(snap, "progress");
    if Truthy(progress) {
      var rd := Compute(snap).value;
      assert rd.progress.n * 100.0 == progress.n;
      assert rd.progress == Num(progress.n / 100.0);
    }
  }

  /** The material record is always yielded, whatever `material` holds ("", "---" and None included). */
  lemma MaterialAlwaysYielded(prefix: string, snap: Snapshot)
    requires Translate(prefix, Some(snap)).Ok? && |snap.fields| > 0
    ensures var fs := Translate(prefix, Some(snap)).value;
            |fs| >= 9 && fs[5].samples == [Sample([Label("material", Get(snap, "material"))], Num(1.0))]
  {
    YieldedAt(prefix, snap, 5);
    var fs := Translate(prefix, Some(snap)).value;
    assert Catalogue[5] == Material;
    assert fs[5] == MaterialFamily(prefix, snap);
  }

  /** The print-job record is yielded if and only if `project_name` is truthy, and holds that name. */
  lemma PrintJobIffProject(prefix: string, snap: Snapshot)
    requires Translate(prefix, Some(snap)).Ok? && |snap.fields| > 0
    ensures var fs := Translate(prefix, Some(snap)).value;
            (|fs| == 10 <==> Truthy(Get(snap, "project_name")))
            && (!Truthy(Get(snap, "project_name")) ==> |fs| == 9)
            && (|fs| == 10 ==> fs[9].samples == [Sample([Label("project", Get(snap, "project_name"))], Num(1.0))])
  {
    assert Available(Some(snap));
    if Truthy(Get(snap, "project_name")) {
      YieldedAt(prefix, snap, 9);
    }
  }

  /**
   * `collect` follows `describe`: every family yielded has the name, help
   * text, unit and label names of the catalogue entry at its position.
   */
  lemma FollowsCatalogue(prefix: string, telemetry: Option<Snapshot>)
    requires Translate(prefix, telemetry).Ok?
    ensures var fs := Translate(prefix, telemetry).value;
            1 <= |fs| <= |Describe(prefix)|
            && forall i :: 0 <= i < |fs| ==> SchemaOf(fs[i]) == SchemaOf(Describe(prefix)[i])
  {
    var fs := Translate(prefix, telemetry).value;
    if Available(telemetry) {
      var snap := telemetry.value;
      forall i | 0 <= i < |fs|
        ensures SchemaOf(fs[i]) == SchemaOf(Describe(prefix)[i])
      {
        YieldedAt(prefix, snap, i);
        SameSchema(prefix, snap, Compute(snap).value, Catalogue[i]);
      }
    } else {
      assert SchemaOf(fs[0]) == SchemaOf(Described(prefix, Availability));
    }
  }

  /** A snapshot of a printer in the middle of a job, with every field collect reads of a usable kind. */
  predicate Populated(snap: Snapshot) {
    Get(snap, "printing_speed").Num? && Get(snap, "flow_factor").Num? && Get(snap, "progress").Num?
    && Get(snap, "print_dur").Str? && Get(snap, "print_dur").s != ""
    && Duration.Scan(Get(snap, "print_dur").s).Some?
    && Get(snap, "project_name").Str? && Get(snap, "project_name").s != ""
  }

  /** A populated snapshot yields all ten catalogue families, each with its described schema. */
  lemma PopulatedMatchesDescribe(prefix: string, snap: Snapshot)
    requires Populated(snap)
    ensures var r := Translate(prefix, Some(snap));
            r.Ok? && |r.value| == |Describe(prefix)|
            && forall i :: 0 <= i < |r.value| ==> SchemaOf(r.value[i]) == SchemaOf(Describe(prefix)[i])
  {
    assert "project_name" in snap.fields;
    assert Available(Some(snap));
    assert !Raises(snap);
    FollowsCatalogue(prefix, Some(snap));
  }
}
