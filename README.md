# prusa_exporter: the collector, modelled in Dafny

`prusa_exporter` is a Prometheus exporter for Prusa 3D printers. On every scrape
its `PrusaCollector` fetches the printer's telemetry (a JSON object) and turns it
into metric families:

- printer availability;
- nozzle and bed temperatures;
- print speed and flow factor, as fractions;
- z position and the loaded material;
- elapsed time, remaining time and progress of the print job;
- the project being printed.

`describe` lists the same ten families without samples, for registration.

The Dafny project models the collector, in these files:

- `telemetry.dfy` (`Telemetry`): a snapshot is a map from field names to JSON scalars
  (`Null`, `Num`, `Str`). It also defines Python's truthiness, `dict.get`, and
  `bool(telemetry)`, which is false for `None` and for an empty object.
- `metrics.dfy` (`Metrics`): a metric family is a plain record of kind, name, help, unit,
  label names and samples. It also models the construction of
  `GaugeMetricFamily`/`InfoMetricFamily` and `add_metric`.
- `duration.dfy` (`Duration`): the `print_dur` pattern
  `^\s*((\d+)d)?\s*((\d+)h)?\s*((\d+)m)?\s*((\d+)s)?\s*$`. It is modelled twice:
  - as a grammar, `Render`, which spells every accepted string;
  - as a scanner, `Scan`, which plays `re.match`.

  Scan is proved sound (every match renders back to the input) and complete (every
  spelled string is matched with its own digit groups). `int()` of a digit run is
  proved to invert decimal spelling, and the d/h/m/s sum is proved to be
  days×86400 + hours×3600 + minutes×60 + seconds.
- `translation.dfy` (`Translation`): `collect` and `describe` as pure functions of the
  prefix and the snapshot. The exceptions `collect` can raise are an explicit `Err`.
  The ten families form a catalogue (`Metric`, `Catalogue`); `Described` and
  `Collected` give each entry's family on the two sides.
- `properties.dfy` (`TranslationProperties`): what a scrape promises. This covers:
  - availability gating;
  - the order of the families;
  - the samples of each family;
  - percent scaling and the duration arithmetic;
  - the conditional print-job record;
  - the schema parity between `collect` and `describe`.
- `collector.dfy` (`Collector`): the `PrusaCollector` class.
  - Its constructor, and `Create`, check the host name.
  - `Collect` builds the families step by step. It updates the locals `time` and
    `progress` as the source does, and is proved equal to `Translation.Translate`.

Real numbers are exact: `/ 100` is real division. Python's `None` and JSON `null`
are both `Null`, since `dict.get` does not tell a missing key from a null value.

## Model

| member | source | states |
|---|---|---|
| Telemetry.Truthy | prusa_exporter/prusa_exporter.py:57-94 | Python truthiness of a telemetry value: false exactly for None, 0 and the empty string |
| Telemetry.Get | prusa_exporter/prusa_exporter.py:57-94 | `telemetry.get(key)` returns the stored value of a present key, and any non-None result is the value stored under that key |
| Telemetry.Available | prusa_exporter/prusa_exporter.py:57 | `bool(telemetry)` holds only for a fetched object, and for a fetched object exactly when it has at least one key |
| Metrics.Zip | prusa_exporter/prusa_exporter.py:63-78 | the labels `add_metric` attaches pair each label name with the label value at the same position, as many as the shorter list |
| Collector.PrusaCollector.constructor | prusa_exporter/prusa_exporter.py:46-50 | a collector built from a non-empty host name keeps that host name and the prefix "prusa" |
| Collector.PrusaCollector.Create | prusa_exporter/prusa_exporter.py:46-50 | construction fails with the missing-host-name error exactly when the host name is None or empty; otherwise a fresh collector holds the name and prefix "prusa" |
| Collector.PrusaCollector.ElapsedTimeOf | prusa_exporter/prusa_exporter.py:80-84 | the local `time` (None, then the parsed seconds) ends equal to `ElapsedSeconds`, including its two error cases |
| Collector.PrusaCollector.ProgressOf | prusa_exporter/prusa_exporter.py:89-91 | the local `progress`, divided in place only when truthy, ends equal to `ScaledProgress` |
| Collector.PrusaCollector.Collect | prusa_exporter/prusa_exporter.py:52-97 | the families appended one after another, or the first exception raised, equal `Translate` for the same telemetry, so every lemma below holds of a scrape |
| Translation.AvailabilityFamily | prusa_exporter/prusa_exporter.py:58 | one unlabelled sample, 1 when available and 0 otherwise |
| Translation.TemperatureFamily | prusa_exporter/prusa_exporter.py:63-66 | exactly two samples, labelled sensor=nozzle then sensor=bed, carrying `temp_nozzle` and `temp_bed` unchanged |
| Translation.PrintSpeedFamily | prusa_exporter/prusa_exporter.py:68 | one unlabelled sample holding the given speed |
| Translation.FlowFactorFamily | prusa_exporter/prusa_exporter.py:70 | one unlabelled sample holding the given flow factor |
| Translation.PositionFamily | prusa_exporter/prusa_exporter.py:72-74 | exactly one sample, labelled axis=z, carrying `pos_z_mm` unchanged |
| Translation.MaterialFamily | prusa_exporter/prusa_exporter.py:76-78 | one info sample whose only label is material=`material`, with value 1 |
| Translation.ElapsedTimeFamily | prusa_exporter/prusa_exporter.py:85 | no sample for None, else one unlabelled sample with the value |
| Translation.RemainingTimeFamily | prusa_exporter/prusa_exporter.py:87 | `time_est` passed through: no sample for None, else one sample holding it |
| Translation.ProgressFamily | prusa_exporter/prusa_exporter.py:92 | no sample for None, else one unlabelled sample with the value |
| Translation.PrintJobFamily | prusa_exporter/prusa_exporter.py:95-97 | one info sample whose only label is project=`project_name`, with value 1 |
| Translation.Percent | prusa_exporter/prusa_exporter.py:68-70 | succeeds exactly for a number, and the result times 100 is that number; anything else (None, a string) is the TypeError for that field |
| Translation.ElapsedSeconds | prusa_exporter/prusa_exporter.py:80-85 | a falsy `print_dur` gives None; a truthy non-string is the TypeError of `re.match`; a string the pattern rejects is the AttributeError of `match.group`; otherwise the parsed seconds |
| Translation.ScaledProgress | prusa_exporter/prusa_exporter.py:89-91 | fails exactly for a truthy non-number; a truthy number is divided by 100; a falsy value (None, 0, "") is passed on unchanged |
| Translation.Compute | prusa_exporter/prusa_exporter.py:68-91 | fails exactly when `Raises` holds, with the error of the first failing step in source order (speed, flow, duration, progress); on success holds the four computed values |
| Translation.Described | prusa_exporter/prusa_exporter.py:100-109 | every family `describe` yields has no sample; it is an info family exactly for material and print job, and those have no unit and no label names |
| Translation.CollectedSamples | prusa_exporter/prusa_exporter.py:58-97 | the family `collect` yields for each catalogue entry (`Collected`) has samples, except elapsed time, remaining time and progress, which have none exactly when their value (the parsed duration, `time_est`, the scaled progress) is None |
| Translation.SameSchema | prusa_exporter/prusa_exporter.py:58-109 | for every catalogue entry, the family `collect` yields has the kind, name, help, unit and label names that `describe` gives it |
| Translation.CollectedAll | prusa_exporter/prusa_exporter.py:58-97 | one family per entry, in the entries' order |
| Translation.CollectedSnoc | prusa_exporter/prusa_exporter.py:58-97 | appending an entry appends exactly its family to the yielded list |
| Translation.Yielded | prusa_exporter/prusa_exporter.py:94-97 | the entries yielded are a prefix of the catalogue, of full length when `project_name` is truthy and one shorter otherwise, and contain the print-job entry exactly when `project_name` is truthy |
| Translation.Translate | prusa_exporter/prusa_exporter.py:52-97 | an unavailable printer yields only availability 0; otherwise the scrape fails exactly when `Raises` holds, with `Compute`'s error, and succeeds with the catalogue families for the snapshot |
| Translation.YieldsInOrder | prusa_exporter/prusa_exporter.py:58-97 | for a reachable printer whose values compute, the result is availability 1, temperature, print speed, flow factor, position, material, elapsed, remaining, progress, and print job last only for a truthy project name |
| Translation.Describe | prusa_exporter/prusa_exporter.py:99-109 | ten families, the catalogue's described families in catalogue order, none with a sample |
| TranslationProperties.YieldedAt | prusa_exporter/prusa_exporter.py:58-97 | in a successful scrape of a reachable printer, position i holds the collected family of catalogue entry i |
| TranslationProperties.UnavailableOnlyAvailability | prusa_exporter/prusa_exporter.py:57-61 | for None or an empty object the result is exactly one gauge `prusa_printer_available` with help text, no unit, no labels and value 0 |
| TranslationProperties.AvailabilityFirst | prusa_exporter/prusa_exporter.py:57-58 | every successful scrape starts with `printer_available`, with value 1 when available and 0 otherwise |
| TranslationProperties.ErrorsInSourceOrder | prusa_exporter/prusa_exporter.py:68-91 | the scrape fails exactly when `Raises` holds, and each failing field produces its own exception provided every earlier step succeeded |
| TranslationProperties.TemperatureAndPosition | prusa_exporter/prusa_exporter.py:63-74 | temperature has the nozzle and bed samples and position the z sample, values unchanged and None included |
| TranslationProperties.PercentScaling | prusa_exporter/prusa_exporter.py:68-70 | a successful scrape implies both fields are numbers, and speed and flow factor are those numbers divided by 100 |
| TranslationProperties.ElapsedTime | prusa_exporter/prusa_exporter.py:80-85 | no elapsed-time sample for a falsy `print_dur`; otherwise it is a string the pattern accepts and the sample is its seconds |
| TranslationProperties.ElapsedSecondsOfText | prusa_exporter/prusa_exporter.py:80-84 | a non-empty string is accepted exactly when some well-formed match renders to it, and then the value is that match's seconds |
| TranslationProperties.RemainingTimePassThrough | prusa_exporter/prusa_exporter.py:87 | the remaining-time sample is `time_est` unchanged, absent for None |
| TranslationProperties.ProgressValue | prusa_exporter/prusa_exporter.py:89-92 | a truthy progress appears divided by 100; 0 or "" is passed through as a sample; only None gives no sample |
| TranslationProperties.MaterialAlwaysYielded | prusa_exporter/prusa_exporter.py:76-78 | the material record is yielded whatever `material` holds, with label material=`material` |
| TranslationProperties.PrintJobIffProject | prusa_exporter/prusa_exporter.py:94-97 | ten families if and only if `project_name` is truthy, nine otherwise, and the tenth is the record project=`project_name` |
| TranslationProperties.FollowsCatalogue | prusa_exporter/prusa_exporter.py:52-109 | every successful scrape yields between one and ten families, each with the schema `describe` lists at the same position |
| TranslationProperties.PopulatedMatchesDescribe | prusa_exporter/prusa_exporter.py:52-109 | a fully populated snapshot yields exactly as many families as `describe`, each with the same name, help, unit and label names |
| Duration.SplitSpace | prusa_exporter/prusa_exporter.py:83 | `\s*` is greedy: the prefix is all whitespace, the rest does not start with whitespace, and together they are the input |
| Duration.SplitDigits | prusa_exporter/prusa_exporter.py:83 | `\d+` is greedy: the prefix is all digits, the rest does not start with a digit, and together they are the input |
| Duration.Segment | prusa_exporter/prusa_exporter.py:83 | an optional `(\d+)u` captures a non-empty digit group or consumes nothing, and what it read plus what is left is the input |
| Duration.ScanFrom | prusa_exporter/prusa_exporter.py:83 | a successful scan yields one digit group and one gap per unit, and they render back to the scanned text |
| Duration.Scan | prusa_exporter/prusa_exporter.py:83 | every match is well formed and renders back to the input (soundness of the matcher) |
| Duration.ScanComplete | prusa_exporter/prusa_exporter.py:83 | every string the grammar spells is matched, with exactly the digit groups it was spelled with |
| Duration.ScanFromComplete | prusa_exporter/prusa_exporter.py:83 | the scanner, after any whitespace, recovers the groups of any text spelled with distinct units |
| Duration.DetachedCount | prusa_exporter/prusa_exporter.py:83 | a count not directly followed by one of the unit letters makes the scan fail |
| Duration.ExampleSpaceBeforeUnit | prusa_exporter/prusa_exporter.py:83 | "1 d" does not match, so line 84 would raise |
| Duration.DecimalValue | prusa_exporter/prusa_exporter.py:84 | `int()` of a digit run is 0 exactly when every digit is 0 |
| Duration.DecimalRoundTrip | prusa_exporter/prusa_exporter.py:84 | `int()` of the decimal spelling of n is n |
| Duration.ParseDuration | prusa_exporter/prusa_exporter.py:83-84 | a value exactly when the pattern matches |
| Duration.ParseRendered | prusa_exporter/prusa_exporter.py:83-84 | any accepted spelling parses to the seconds of its own groups |
| Duration.Seconds | prusa_exporter/prusa_exporter.py:84 | the sum of line 84 is 0 exactly when every count is 0 or omitted, and is at least days×86400, hours×3600, minutes×60 and the seconds count |
| Duration.SpelledSeconds | prusa_exporter/prusa_exporter.py:84 | the seconds of a spelled duration are days×86400 + hours×3600 + minutes×60 + seconds, an omitted count being 0 |
| Duration.ParseSpelled | prusa_exporter/prusa_exporter.py:83-84 | parsing optional d, h, m, s counts written in that order, with any whitespace around them, gives that weighted total |
| Duration.RenderUnrolled | prusa_exporter/prusa_exporter.py:83 | the grammar spelled out: lead, then d, h, m and s pieces, each followed by its gap |
| Duration.ExampleDayAndMinutes | prusa_exporter/prusa_exporter.py:26 | the sample `print_dur` "  1d  0h 54m" is 89640 seconds |
| Duration.ExampleHoursAndSeconds | prusa_exporter/prusa_exporter.py:83-84 | "2h 30s", with days and minutes omitted, is 7230 seconds |

## Left out

- `retrieve_telemetry` (the HTTP GET with its timeout and exception handling) is I/O. Its result is the `telemetry` parameter: `None` or a parsed object.
- `start_server` and the `__main__` block (WSGI server, environment variables, registry registration) are process plumbing, not modelled.
- `exporter.py` is not part of this model. It is an early scaffold with one constant gauge.
- prometheus_client itself is a foreign library and is not modelled:
  - names get a unit suffix and, for info families, an `_info` suffix;
  - the text exposition format.

  Names here are the prefix and base name as the source writes them.
- Metrics.NewGauge: a value together with label names is refused by a precondition. The library raises a ValueError in that case, but the source never does it.
- Floating point: `/ 100` is exact real division, and values are compared exactly.
- Translation.ElapsedSeconds: `\d` is ASCII digits only. Python also accepts other Unicode decimal digits.
- JSON booleans, arrays and nested objects are not among the modelled values.
  - `True` divided by 100 would succeed in Python.
  - A non-object JSON body would fail at `.get`.
- Translation.Translate: a scrape that raises is modelled as `Err` alone. The families yielded before the exception are dropped: the registry's collection fails as a whole.
- Metrics.AddInfo: the record's labels are appended after the zipped label values. The library would merge them into one dict, but the source only ever passes an empty label list.
- The model follows the code, which differs from a plain reading of the exporter's behaviour in these ways:
  - the material family is always yielded, even for "" or "---";
  - the elapsed, remaining and progress gauges are not tied to a running job and carry no label;
  - `/ 100` on an absent or non-numeric speed, flow factor or truthy progress raises;
  - a malformed non-empty `print_dur` raises;
  - a progress of 0 is passed through as a 0 sample.
- The sample `print_dur` "  1d  0h 54m" (lines 26 and 54) is 86400 + 54×60 = 89640 seconds by line 84, which is what is proved.
