/**
 * `SemanticAggregatorMetricRegistry`: a get-or-create cache from metric
 * identity to metric instance.  Asking twice with equal identities yields the
 * very same instance; on a cache hit the shard argument is not consulted.
 */
module Registries {
  import opened MetricIds
  import opened ShardCodec
  import opened Instruments

  /** A cached instance, tagged with its kind. */
  datatype Metric =
    | MeterEntry(meter: RemoteMeter)
    | DerivingMeterEntry(derivingMeter: RemoteDerivingMeter)
    | TimerEntry(timer: RemoteTimer)
    | HistogramEntry(histogram: RemoteHistogram)

  class SemanticAggregatorMetricRegistry {
    const remote: Remote
    const clock: TimeSource
    var metrics: map<MetricId, Metric>

    /** A cached instance was made for `id` and reports through this registry's remote. */
    ghost predicate Registered(id: MetricId, m: Metric)
    {
      match m
      case MeterEntry(x) => x.id == id && x.remote == remote && x.Valid()
      case DerivingMeterEntry(x) => x.id == id && x.remote == remote && x.Valid()
      case TimerEntry(x) => x.id == id && x.remote == remote && x.clock == clock && x.Valid()
      case HistogramEntry(x) => x.id == id && x.remote == remote && x.Valid()
    }

    ghost predicate Valid()
      reads this
    {
      forall id :: id in metrics ==> Registered(id, metrics[id])
    }

    /** `new SemanticAggregatorMetricRegistry(remote)`, with the timers' clock injected. */
    constructor (remote: Remote, clock: TimeSource)
      ensures this.remote == remote && this.clock == clock
      ensures metrics == map[] && Valid()
    {
      this.remote, this.clock := remote, clock;
      metrics := map[];
    }

    /** `meter(id, shard)`. */
    method MeterSharded(id: MetricId, shard: seq<string>) returns (m: RemoteMeter)
      requires Valid()
      requires id in metrics ==> metrics[id].MeterEntry?
      requires id !in metrics ==> ShardNamesPresent(id, shard)
      modifies this
      ensures Valid()
      ensures m.id == id && m.remote == remote && m.Valid()
      ensures id in old(metrics) ==> metrics == old(metrics) && m == old(metrics)[id].meter
      ensures id !in old(metrics) ==>
        fresh(m) && m.shard == shard && metrics == old(metrics)[id := MeterEntry(m)]
    {
      if id in metrics {
        m := metrics[id].meter;
      } else {
        m := new RemoteMeter(id, shard, remote);
        metrics := metrics[id := MeterEntry(m)];
      }
    }

    /** `meter(id)`: the default shard selection. */
    method Meter(id: MetricId) returns (m: RemoteMeter)
      requires Valid()
      requires id in metrics ==> metrics[id].MeterEntry?
      requires id !in metrics ==> ShardNamesPresent(id, DefaultShard)
      modifies this
      ensures Valid()
      ensures m.id == id && m.remote == remote && m.Valid()
      ensures id in old(metrics) ==> metrics == old(metrics) && m == old(metrics)[id].meter
      ensures id !in old(metrics) ==>
        fresh(m) && m.shard == DefaultShard && metrics == old(metrics)[id := MeterEntry(m)]
    {
      m := MeterSharded(id, DefaultShard);
    }

    /** `derivingMeter(id, shard)`. */
    method DerivingMeterSharded(id: MetricId, shard: seq<string>) returns (m: RemoteDerivingMeter)
      requires Valid()
      requires id in metrics ==> metrics[id].DerivingMeterEntry?
      requires id !in metrics ==> ShardNamesPresent(id, shard)
      modifies this
      ensures Valid()
      ensures m.id == id && m.remote == remote && m.Valid()
      ensures id in old(metrics) ==> metrics == old(metrics) && m == old(metrics)[id].derivingMeter
      ensures id !in old(metrics) ==>
        fresh(m) && m.shard == shard && metrics == old(metrics)[id := DerivingMeterEntry(m)]
    {
      if id in metrics {
        m := metrics[id].derivingMeter;
      } else {
        m := new RemoteDerivingMeter(id, shard, remote);
        metrics := metrics[id := DerivingMeterEntry(m)];
      }
    }

    /** `derivingMeter(id)`: the default shard selection. */
    method DerivingMeter(id: MetricId) returns (m: RemoteDerivingMeter)
      requires Valid()
      requires id in metrics ==> metrics[id].DerivingMeterEntry?
      requires id !in metrics ==> ShardNamesPresent(id, DefaultShard)
      modifies this
      ensures Valid()
      ensures m.id == id && m.remote == remote && m.Valid()
      ensures id in old(metrics) ==> metrics == old(metrics) && m == old(metrics)[id].derivingMeter
      ensures id !in old(metrics) ==>
        fresh(m) && m.shard == DefaultShard && metrics == old(metrics)[id := DerivingMeterEntry(m)]
    {
      m := DerivingMeterSharded(id, DefaultShard);
    }

    /** `timer(id, shard)`: the timer reads this registry's clock. */
    method TimerSharded(id: MetricId, shard: seq<string>) returns (m: RemoteTimer)
      requires Valid()
      requires id in metrics ==> metrics[id].TimerEntry?
      requires id !in metrics ==> ShardNamesPresent(id, shard)
      modifies this
      ensures Valid()
      ensures m.id == id && m.remote == remote && m.clock == clock && m.Valid()
      ensures id in old(metrics) ==> metrics == old(metrics) && m == old(metrics)[id].timer
      ensures id !in old(metrics) ==>
        fresh(m) && m.shard == shard && metrics == old(metrics)[id := TimerEntry(m)]
    {
      if id in metrics {
        m := metrics[id].timer;
      } else {
        m := new RemoteTimer(id, shard, remote, clock);
        metrics := metrics[id := TimerEntry(m)];
      }
    }

    /** `timer(id)`: the default shard selection. */
    method Timer(id: MetricId) returns (m: RemoteTimer)
      requires Valid()
      requires id in metrics ==> metrics[id].TimerEntry?
      requires id !in metrics ==> ShardNamesPresent(id, DefaultShard)
      modifies this
      ensures Valid()
      ensures m.id == id && m.remote == remote && m.clock == clock && m.Valid()
      ensures id in old(metrics) ==> metrics == old(metrics) && m == old(metrics)[id].timer
      ensures id !in old(metrics) ==>
        fresh(m) && m.shard == DefaultShard && metrics == old(metrics)[id := TimerEntry(m)]
    {
      m := TimerSharded(id, DefaultShard);
    }

    /** `histogram(id, shard)`. */
    method HistogramSharded(id: MetricId, shard: seq<string>) returns (m: RemoteHistogram)
      requires Valid()
      requires id in metrics ==> metrics[id].HistogramEntry?
      requires id !in metrics ==> ShardNamesPresent(id, shard)
      modifies this
      ensures Valid()
      ensures m.id == id && m.remote == remote && m.Valid()
      ensures id in old(metrics) ==> metrics == old(metrics) && m == old(metrics)[id].histogram
      ensures id !in old(metrics) ==>
        fresh(m) && m.shard == shard && metrics == old(metrics)[id := HistogramEntry(m)]
    {
      if id in metrics {
        m := metrics[id].histogram;
      } else {
        m := new RemoteHistogram(id, shard, remote);
        metrics := metrics[id := HistogramEntry(m)];
      }
    }

    /** `histogram(id)`: the default shard selection. */
    method Histogram(id: MetricId) returns (m: RemoteHistogram)
      requires Valid()
      requires id in metrics ==> metrics[id].HistogramEntry?
      requires id !in metrics ==> ShardNamesPresent(id, DefaultShard)
      modifies this
      ensures Valid()
      ensures m.id == id && m.remote == remote && m.Valid()
      ensures id in old(metrics) ==> metrics == old(metrics) && m == old(metrics)[id].histogram
      ensures id !in old(metrics) ==>
        fresh(m) && m.shard == DefaultShard && metrics == old(metrics)[id := HistogramEntry(m)]
    {
      m := HistogramSharded(id, DefaultShard);
    }
  }
}
