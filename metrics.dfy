/**
 * Metric families as the exporter builds them with prometheus_client's
 * GaugeMetricFamily and InfoMetricFamily, reduced to plain records.
 * Name suffixing (unit, `_info`) and text encoding belong to the library
 * and are not part of this model.
 */
module Metrics {
  import opened Telemetry

  datatype Kind = Gauge | Info

  /** One label of a sample; info records may carry any value, so it is a Value. */
  datatype Label = Label(name: string, value: Value)

  datatype Sample = Sample(labels: seq<Label>, value: Value)

  datatype Family = Family(kind: Kind, name: string, help: string, unit: string,
                           labelNames: seq<string>, samples: seq<Sample>)

  /** What a family advertises before any data exists: everything but its samples. */
  datatype Schema = Schema(kind: Kind, name: string, help: string, unit: string, labelNames: seq<string>)

  function SchemaOf(f: Family): Schema {
    Schema(f.kind, f.name, f.help, f.unit, f.labelNames)
  }

  /** `dict(zip(names, values))` for distinct names: pairs up to the shorter of the two. */
  function Zip(names: seq<string>, values: seq<Value>): (labels: seq<Label>)
    ensures |labels| == if |names| <= |values| then |names| else |values|
    ensures forall i :: 0 <= i < |labels| ==> labels[i] == Label(names[i], values[i])
  {
    if names == [] || values == [] then []
    else [Label(names[0], values[0])] + Zip(names[1..], values[1..])
  }

  /**
   * `GaugeMetricFamily(name, help, value=value, labels=labelNames, unit=unit)`:
   * a value that is not `None` becomes one unlabelled sample; `None` adds none.
   * The library refuses a value together with label names.
   */
  function NewGauge(name: string, help: string, unit: string, labelNames: seq<string>, value: Value): Family
    requires labelNames == [] || value == Null
  {
    Family(Gauge, name, help, unit, labelNames, if value == Null then [] else [Sample([], value)])
  }

  /** `InfoMetricFamily(name, help)`: no unit, no label names, no samples yet. */
  function NewInfo(name: string, help: string): Family {
    Family(Info, name, help, "", [], [])
  }

  /** Gauge `add_metric(labelValues, value)`: appends a sample; the schema is untouched. */
  function AddMetric(f: Family, labelValues: seq<Value>, value: Value): Family
  {
    f.(samples := f.samples + [Sample(Zip(f.labelNames, labelValues), value)])
  }

  /**
   * Info `add_metric(labelValues, record)`: appends a sample whose labels are
   * the zipped label values followed by the record, with the constant value 1.
   */
  function AddInfo(f: Family, labelValues: seq<Value>, record: seq<Label>): Family
  {
    f.(samples := f.samples + [Sample(Zip(f.labelNames, labelValues) + record, Num(1.0))])
  }
}
