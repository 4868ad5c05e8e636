/**
 * The report an observation produces: a post to path "/" carrying the shard
 * label and the payload `{type: "metric", value, key, attributes}`.
 */
module Reports {
  import opened Options
  import opened Decimal
  import opened MetricIds
  import opened ShardCodec

  /** The four kinds of metric the registry hands out. */
  datatype Kind = MeterKind | DerivingMeterKind | TimerKind | HistogramKind

  /** The `metric_type` attribute reported for each kind. */
  function MetricType(kind: Kind): (metricType: string)
    ensures KindOf(metricType) == Some(kind)
  {
    match kind
    case MeterKind => "meter"
    case DerivingMeterKind => "deriving_meter"
    case TimerKind => "timer"
    case HistogramKind => "histogram"
  }

  /** The kind a `metric_type` attribute names, if any. */
  function KindOf(metricType: string): Option<Kind>
  {
    if metricType == "meter" then Some(MeterKind)
    else if metricType == "deriving_meter" then Some(DerivingMeterKind)
    else if metricType == "timer" then Some(TimerKind)
    else if metricType == "histogram" then Some(HistogramKind)
    else None
  }

  /** The payload map of a post, one field per entry. */
  datatype Payload = Payload(typ: string, value: string, key: string, attributes: map<string, string>)

  /** One call `remote.post(path, shardKey, payload)`. */
  datatype Report = Report(path: string, shardKey: string, payload: Payload)

  const ReportPath: string := "/"
  const MetricPayloadType: string := "metric"

  /**
   * The report of one observation of `value` on a metric of `kind` with
   * identity `id` and shard selection `shard`.
   */
  function MakeReport(id: MetricId, shard: seq<string>, kind: Kind, value: int): (r: Report)
    requires ShardNamesPresent(id, shard)
    ensures r.path == ReportPath && r.payload.typ == MetricPayloadType
    ensures r.payload.key == id.key
    ensures r.shardKey == ShardLabel(id, shard)
    ensures ParseDecimal(r.payload.value) == Some(value)
    ensures NoSeparators(id, shard) ==> ParseShardLabel(r.shardKey) == SelectedTags(id, shard)
    ensures r.payload.attributes.Keys == id.tags.Keys + {MetricTypeAttribute}
    ensures r.payload.attributes[MetricTypeAttribute] == MetricType(kind)
    ensures forall name :: name in id.tags && name != MetricTypeAttribute ==>
      r.payload.attributes[name] == id.tags[name]
  {
    DecimalRoundTrip(value);
    assert NoSeparators(id, shard) ==> ParseShardLabel(ShardLabel(id, shard)) == SelectedTags(id, shard) by {
      if NoSeparators(id, shard) {
        ParseShardLabelRoundTrip(id, shard);
      }
    }
    Report(ReportPath, ShardLabel(id, shard),
      Payload(MetricPayloadType, DecimalString(value), id.key, Attributes(id, MetricType(kind))))
  }

  /** Different kinds report different `metric_type`s. */
  lemma MetricTypeInjective(k: Kind, k': Kind)
    requires MetricType(k) == MetricType(k')
    ensures k == k'
  {
  }

  /**
   * The kind and the value are all that distinguish two reports of the same
   * metric, and the attributes do not depend on the shard selection.
   */
  lemma MakeReportInjective(id: MetricId, shard: seq<string>, shard': seq<string>,
                            kind: Kind, kind': Kind, v: int, v': int)
    requires ShardNamesPresent(id, shard) && ShardNamesPresent(id, shard')
    ensures MakeReport(id, shard, kind, v).payload.attributes
         == MakeReport(id, shard', kind, v').payload.attributes
    ensures MakeReport(id, shard, kind, v) == MakeReport(id, shard, kind', v') ==> kind == kind' && v == v'
  {
    var r, r' := MakeReport(id, shard, kind, v), MakeReport(id, shard, kind', v');
    if r == r' {
      assert Some(v) == ParseDecimal(r.payload.value) == Some(v');
      MetricTypeInjective(kind, kind');
    }
  }
}
