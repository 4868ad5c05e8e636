# Semantic aggregator metric registry: a Dafny model

This project models the client-side half of semantic-metrics' remote
aggregation: `SemanticAggregatorMetricRegistry` and the metrics it hands out.
A metric identity (`MetricId`) is a key plus a map from tag name to tag
value. The registry is a get-or-create cache from identity to metric instance.
Each observation on an instance sends one post to the `Remote` collaborator:

- `mark()` and `mark(n)` on a meter or deriving meter;
- `update(v)` on a histogram;
- `time()` followed by `stop()` on a timer.

A post goes to path `"/"`. It carries a *shard label* and the payload
`{type: "metric", value, key, attributes}`:

- The shard label is `name:value` for each tag name in the metric's shard
  selection, in selection order, joined by commas.
- `value` is the decimal string of the observation.
- `attributes` holds every tag of the identity plus `metric_type`.

The behaviour modelled is the contract that the registry's test class
(`SemanticAggregatorMetricRegistryTest.java`) states.

Modules, leaf first:

- `Options`: an `Option` type and map lookup.
- `Longs`: Java's `long`, with explicit 64-bit wrap-around (`Wrap`). A timer's
  elapsed time is a `long` subtraction and the test clock's `tm += 69` a `long`
  addition; both wrap.
- `Decimal`: `String.valueOf` for integers, plus a parser `ParseDecimal`. The
  rendering is proved against the parser in both directions.
- `MetricIds`: `MetricId`, `Build` (`MetricId.build`) and `Tagged`
  (`tagged(n1, v1, n2, v2, ...)`, last write wins). Lemmas relate `Tagged` to
  an independent right-to-left reading of the pairs.
- `ShardCodec`: the shard label, the default selection `["what"]`, the
  attribute map, and a label parser. When no selected name holds `,` or `:` and
  no selected value holds `,`, the label is proved to parse back into exactly
  the selected (name, value) pairs.
- `Reports`: the four kinds with their `metric_type`, the payload and post
  values, and `MakeReport`, the post of one observation.
- `Instruments`: classes for the `Remote` sink (the posts it received, in
  order), the injectable `TimeSource`, `RemoteMeter`, `RemoteDerivingMeter`,
  `RemoteHistogram`, `RemoteTimer` (`SemanticAggregatorTimer`) and its
  `TimerContext`.
- `Registries`: the registry class, over a `map<MetricId, Metric>`. Equal
  identities give the same object reference.
- `Scenarios`: one method per test case. Each builds its own remote and clock.
  Every scenario except `TimerBump` also builds a registry. `TimerBump` builds
  the timer directly, as the test does. Each postcondition is the post or
  instance identity the test expects.

With no shard list the selection is `["what"]` (`ShardCodec.DefaultShard`):
the test expects the label `what:balls` from identity tags `what` and
`status` (SemanticAggregatorMetricRegistryTest.java:43-44).

## Model

| member | source | states |
|---|---|---|
| `Longs.Wrap` | remote/src/test/java/com/spotify/metrics/remote/SemanticAggregatorMetricRegistryTest.java:98-101 | `long` arithmetic: a result already in the 64-bit range is unchanged |
| `Longs.WrapDiffersByMultiple` | remote/src/test/java/com/spotify/metrics/remote/SemanticAggregatorMetricRegistryTest.java:98-101 | a wrapped `long` result differs from the exact one by a multiple of 2^64 |
| `Longs.ElapsedIsStep` | remote/src/test/java/com/spotify/metrics/remote/SemanticAggregatorMetricRegistryTest.java:97-108 | a clock advanced by `step` between two readings gives `step` as their `long` difference, even across wrap-around (69 in the test) |
| `Decimal.DecimalString` | remote/src/test/java/com/spotify/metrics/remote/SemanticAggregatorMetricRegistryTest.java:47-61 | `String.valueOf`: a non-negative value renders as a canonical digit string; a negative one renders as `-` followed by the canonical digits of its magnitude, never `-0` |
| `Decimal.Digits` | remote/src/test/java/com/spotify/metrics/remote/SemanticAggregatorMetricRegistryTest.java:47 | the rendering of a natural is a non-empty digit string with no leading zero |
| `Decimal.DigitsRoundTrip` | remote/src/test/java/com/spotify/metrics/remote/SemanticAggregatorMetricRegistryTest.java:47 | reading back the digits of `n` gives `n` |
| `Decimal.CanonicalRoundTrip` | remote/src/test/java/com/spotify/metrics/remote/SemanticAggregatorMetricRegistryTest.java:61 | each canonical digit string is the rendering of its own value |
| `Decimal.DecimalRoundTrip` | remote/src/test/java/com/spotify/metrics/remote/SemanticAggregatorMetricRegistryTest.java:47-61 | parsing the reported `value` string gives back the observed number, negative ones included, so distinct observations render differently |
| `Decimal.ParseDecimalCanonical` | remote/src/test/java/com/spotify/metrics/remote/SemanticAggregatorMetricRegistryTest.java:108 | every string the parser accepts is exactly the rendering of the value read, so the rendering is canonical |
| `MetricIds.Build` | remote/src/test/java/com/spotify/metrics/remote/SemanticAggregatorMetricRegistryTest.java:43 | `MetricId.build(key)` has that key and no tags |
| `MetricIds.Tagged` | remote/src/test/java/com/spotify/metrics/remote/SemanticAggregatorMetricRegistryTest.java:43 | `tagged` keeps the key and every earlier tag; every name it is given becomes a tag; the last pair's value wins for its name |
| `MetricIds.TaggedConcat` | remote/src/test/java/com/spotify/metrics/remote/SemanticAggregatorMetricRegistryTest.java:43 | tagging with some pairs and then with more equals tagging once with all of them |
| `MetricIds.TaggedLookup` | remote/src/test/java/com/spotify/metrics/remote/SemanticAggregatorMetricRegistryTest.java:43-52 | after `tagged`, the key is unchanged; each tag has the last value given for it, or else its old value; no other tag appears |
| `MetricIds.TaggedCommute` | remote/src/test/java/com/spotify/metrics/remote/SemanticAggregatorMetricRegistryTest.java:79-81 | attaching two groups of tags with disjoint names gives equal identities in either order |
| `ShardCodec.ShardLabel` | remote/src/test/java/com/spotify/metrics/remote/SemanticAggregatorMetricRegistryTest.java:70-74 | the label is empty exactly when the selection is empty; a one-name selection renders `name:value` |
| `ShardCodec.DefaultShardLabel` | remote/src/test/java/com/spotify/metrics/remote/SemanticAggregatorMetricRegistryTest.java:43-44 | with no shard list the label is `what:` followed by the `what` tag's value, whatever other tags exist |
| `ShardCodec.SplitJoin` | remote/src/test/java/com/spotify/metrics/remote/SemanticAggregatorMetricRegistryTest.java:74 | cutting a comma-joined list at its commas gives the list back when no piece holds a comma, so there is no leading or trailing separator |
| `ShardCodec.ParseShardLabelRoundTrip` | remote/src/test/java/com/spotify/metrics/remote/SemanticAggregatorMetricRegistryTest.java:70-74 | when names and values hold no separators, the shard label parses back into exactly the selected (name, value) pairs, one per selected name, in selection order |
| `ShardCodec.ShardLabelOnlySelected` | remote/src/test/java/com/spotify/metrics/remote/SemanticAggregatorMetricRegistryTest.java:43-44 | the label depends only on the selected tags; other tags such as `status` leave it unchanged |
| `ShardCodec.Attributes` | remote/src/test/java/com/spotify/metrics/remote/SemanticAggregatorMetricRegistryTest.java:49-52 | the attributes are every identity tag with its value, plus `metric_type` with the kind's name, and nothing else |
| `Reports.MakeReport` | remote/src/test/java/com/spotify/metrics/remote/SemanticAggregatorMetricRegistryTest.java:44-52 | the post goes to `/` with payload type `metric` and `key` the identity key; the shard key is the label of the selection; `value` parses back to the observation; the shard key parses back to the selected tags; the attributes are all tags plus `metric_type` |
| `Reports.MetricType` | remote/src/test/java/com/spotify/metrics/remote/SemanticAggregatorMetricRegistryTest.java:50 | each kind's `metric_type` (`meter`, `deriving_meter`, `timer`, `histogram`) reads back to that kind |
| `Reports.MetricTypeInjective` | remote/src/test/java/com/spotify/metrics/remote/SemanticAggregatorMetricRegistryTest.java:50 | the four kinds report four different `metric_type`s |
| `Reports.MakeReportInjective` | remote/src/test/java/com/spotify/metrics/remote/SemanticAggregatorMetricRegistryTest.java:184-187 | the attributes do not depend on the shard selection; two reports of one metric are equal only when kind and value are equal |
| `Instruments.Remote.Post` | remote/src/test/java/com/spotify/metrics/remote/SemanticAggregatorMetricRegistryTest.java:26-27 | the sink records one more post, with the given path, shard key and payload, after all earlier ones |
| `Instruments.TimeSource.constructor` | remote/src/test/java/com/spotify/metrics/remote/SemanticAggregatorMetricRegistryTest.java:97-98 | the test clock starts at `tm == 0` and keeps its fixed step |
| `Instruments.TimeSource.NanoTime` | remote/src/test/java/com/spotify/metrics/remote/SemanticAggregatorMetricRegistryTest.java:97-102 | each reading advances the clock by its step, with `long` wrap-around, and returns the new time |
| `Instruments.SendReport` | remote/src/test/java/com/spotify/metrics/remote/SemanticAggregatorMetricRegistryTest.java:44 | one observation appends exactly one post, the observation's `MakeReport`, to the remote |
| `Instruments.RemoteMeter.Mark` | remote/src/test/java/com/spotify/metrics/remote/SemanticAggregatorMetricRegistryTest.java:43-52 | `mark()` appends exactly one `meter` post of value 1 |
| `Instruments.RemoteMeter.MarkN` | remote/src/test/java/com/spotify/metrics/remote/SemanticAggregatorMetricRegistryTest.java:57-66 | `mark(n)` appends exactly one `meter` post of value `n` |
| `Instruments.RemoteDerivingMeter.Mark` | remote/src/test/java/com/spotify/metrics/remote/SemanticAggregatorMetricRegistryTest.java:130-139 | `mark()` appends exactly one `deriving_meter` post of value 1 |
| `Instruments.RemoteDerivingMeter.MarkN` | remote/src/test/java/com/spotify/metrics/remote/SemanticAggregatorMetricRegistryTest.java:144-153 | `mark(n)` appends exactly one `deriving_meter` post of value `n` |
| `Instruments.RemoteHistogram.Update` | remote/src/test/java/com/spotify/metrics/remote/SemanticAggregatorMetricRegistryTest.java:178-187 | `update(v)` appends exactly one `histogram` post of value `v` |
| `Instruments.RemoteTimer.constructor` | remote/src/test/java/com/spotify/metrics/remote/SemanticAggregatorMetricRegistryTest.java:93-103 | a timer built directly from an identity, a shard list, a remote and a time source keeps all four |
| `Instruments.RemoteTimer.Time` | remote/src/test/java/com/spotify/metrics/remote/SemanticAggregatorMetricRegistryTest.java:87 | `time()` reads the clock once and returns a new context holding that reading; nothing is posted |
| `Instruments.TimerContext.Stop` | remote/src/test/java/com/spotify/metrics/remote/SemanticAggregatorMetricRegistryTest.java:104-113 | `stop()` reads the clock again and appends exactly one `timer` post whose value is the second reading minus the first |
| `Instruments.TimeOnce` | remote/src/test/java/com/spotify/metrics/remote/SemanticAggregatorMetricRegistryTest.java:93-113 | `time().stop()` over a stepping clock posts exactly once, with the clock's step as its value, and leaves the clock advanced by two steps |
| `Registries.SemanticAggregatorMetricRegistry.constructor` | remote/src/test/java/com/spotify/metrics/remote/SemanticAggregatorMetricRegistryTest.java:33 | a new registry reports through the given remote and has no cached metric |
| `Registries.SemanticAggregatorMetricRegistry.MeterSharded` | remote/src/test/java/com/spotify/metrics/remote/SemanticAggregatorMetricRegistryTest.java:70-74 | a cache hit returns the cached meter and changes nothing; a miss caches a new meter with this identity and shard list and returns it |
| `Registries.SemanticAggregatorMetricRegistry.Meter` | remote/src/test/java/com/spotify/metrics/remote/SemanticAggregatorMetricRegistryTest.java:78-82 | the same as `MeterSharded`, with the default selection `["what"]` |
| `Registries.SemanticAggregatorMetricRegistry.DerivingMeterSharded` | remote/src/test/java/com/spotify/metrics/remote/SemanticAggregatorMetricRegistryTest.java:157-161 | get-or-create for deriving meters, as `MeterSharded` |
| `Registries.SemanticAggregatorMetricRegistry.DerivingMeter` | remote/src/test/java/com/spotify/metrics/remote/SemanticAggregatorMetricRegistryTest.java:165-169 | get-or-create for deriving meters with the default selection |
| `Registries.SemanticAggregatorMetricRegistry.TimerSharded` | remote/src/test/java/com/spotify/metrics/remote/SemanticAggregatorMetricRegistryTest.java:93-96 | get-or-create for timers with an explicit shard list; a new timer reads the registry's time source |
| `Registries.SemanticAggregatorMetricRegistry.Timer` | remote/src/test/java/com/spotify/metrics/remote/SemanticAggregatorMetricRegistryTest.java:117-121 | get-or-create for timers with the default selection |
| `Registries.SemanticAggregatorMetricRegistry.HistogramSharded` | remote/src/test/java/com/spotify/metrics/remote/SemanticAggregatorMetricRegistryTest.java:191-195 | get-or-create for histograms, as `MeterSharded` |
| `Registries.SemanticAggregatorMetricRegistry.Histogram` | remote/src/test/java/com/spotify/metrics/remote/SemanticAggregatorMetricRegistryTest.java:199-203 | get-or-create for histograms with the default selection |
| `Scenarios.WhatBallsStatusTrippingTags` | remote/src/test/java/com/spotify/metrics/remote/SemanticAggregatorMetricRegistryTest.java:43 | `build("X").tagged("what", "balls", "status", "tripping")` has key `X` and exactly those two tags |
| `Scenarios.DefaultReport` | remote/src/test/java/com/spotify/metrics/remote/SemanticAggregatorMetricRegistryTest.java:44-52 | with the default selection, the report is the literal post of the test: label `what:balls`, attributes `metric_type`, `status`, `what` |
| `Scenarios.WhatStatusLabel` | remote/src/test/java/com/spotify/metrics/remote/SemanticAggregatorMetricRegistryTest.java:70-74 | the selection `["what", "status"]` renders `what:balls,status:tripping` |
| `Scenarios.MeterBump1` | remote/src/test/java/com/spotify/metrics/remote/SemanticAggregatorMetricRegistryTest.java:41-53 | `meter(id).mark()` sends exactly the expected post, value `"1"` |
| `Scenarios.MeterBump5` | remote/src/test/java/com/spotify/metrics/remote/SemanticAggregatorMetricRegistryTest.java:55-67 | `meter(id).mark(5)` sends exactly the expected post, value `"5"` |
| `Scenarios.MeterShard` | remote/src/test/java/com/spotify/metrics/remote/SemanticAggregatorMetricRegistryTest.java:69-75 | an explicit selection gives one post with shard key `what:balls,status:tripping` |
| `Scenarios.MeterUniqueness` | remote/src/test/java/com/spotify/metrics/remote/SemanticAggregatorMetricRegistryTest.java:77-82 | two lookups with separately built equal identities return the same meter object |
| `Scenarios.TimerBumpReport` | remote/src/test/java/com/spotify/metrics/remote/SemanticAggregatorMetricRegistryTest.java:105-113 | the timer's report of 69 with selection `["what"]` is the literal post of the test |
| `Scenarios.TimerBump` | remote/src/test/java/com/spotify/metrics/remote/SemanticAggregatorMetricRegistryTest.java:90-114 | `time().stop()` over a clock stepping by 69 sends exactly one `timer` post of value `"69"` |
| `Scenarios.TimerUniqueness` | remote/src/test/java/com/spotify/metrics/remote/SemanticAggregatorMetricRegistryTest.java:116-121 | two timer lookups with equal identities return the same object |
| `Scenarios.DerivingMeterBump1` | remote/src/test/java/com/spotify/metrics/remote/SemanticAggregatorMetricRegistryTest.java:128-140 | `derivingMeter(id).mark()` sends exactly the expected `deriving_meter` post, value `"1"` |
| `Scenarios.DerivingMeterBump5` | remote/src/test/java/com/spotify/metrics/remote/SemanticAggregatorMetricRegistryTest.java:142-154 | `derivingMeter(id).mark(5)` sends exactly the expected post, value `"5"` |
| `Scenarios.DerivingMeterShard` | remote/src/test/java/com/spotify/metrics/remote/SemanticAggregatorMetricRegistryTest.java:156-162 | an explicit selection gives one post with shard key `what:balls,status:tripping` |
| `Scenarios.DerivingMeterUniqueness` | remote/src/test/java/com/spotify/metrics/remote/SemanticAggregatorMetricRegistryTest.java:164-169 | two deriving-meter lookups with equal identities return the same object |
| `Scenarios.HistogramBump` | remote/src/test/java/com/spotify/metrics/remote/SemanticAggregatorMetricRegistryTest.java:176-188 | `histogram(id).update(5)` sends exactly the expected `histogram` post, value `"5"` |
| `Scenarios.HistogramShard` | remote/src/test/java/com/spotify/metrics/remote/SemanticAggregatorMetricRegistryTest.java:190-196 | an explicit selection gives one post with shard key `what:balls,status:tripping` |
| `Scenarios.HistogramUniqueness` | remote/src/test/java/com/spotify/metrics/remote/SemanticAggregatorMetricRegistryTest.java:198-203 | two histogram lookups with equal identities return the same object |

## Left out

- Internals of `SemanticAggregatorMetricRegistry`, `MetricId`, `SemanticAggregatorTimer` and `Remote` beyond what the test asserts are not modelled.
- The network transport behind `Remote`: the model records the posts it is handed. Transport failures and their propagation to the caller are not modelled.
- The test scaffolding: the Mockito spy and `verify` calls and the JUnit runner. Each `verify` becomes a postcondition on the recorded posts.
- Thread safety of the registry cache: the model is sequential get-or-create.
- Counting, rate, reservoir and decay state inside meters, histograms and timers. None of it reaches the posts the test checks.
- The production monotonic clock: a `TimeSource` is the test's stepping clock, and registry-made timers read a clock given to the registry constructor.
- The `create*Test` cases: each asserts that a lookup (and for timers, `time()`) returns non-null. Dafny class types are non-null, so the property holds by typing.
- `MetricIds.Build`: an empty key is not rejected, because the test never exercises it.
- `MetricIds.Tagged`: requires an even number of strings, because the source's callers always pass whole pairs. The odd case is not modelled.
- `ShardCodec.ShardLabel`: requires every selected name to be a tag of the identity. A missing shard tag is not exercised by the test.
- `ShardCodec.Attributes`: where an identity has a tag named `metric_type`, the `metric_type` entry (the kind's name) replaces the tag's value. The test does not show which one the source keeps.
- `Registries.SemanticAggregatorMetricRegistry.Meter`: requires that a cached entry for the identity is of the same kind. The same holds for the other seven lookups. A meter lookup after a timer lookup on one identity is not exercised by the test.
- `Registries.SemanticAggregatorMetricRegistry.MeterSharded`: on a cache hit the shard argument is ignored and the instance keeps the selection it was created with. The same holds for the other sharded lookups. The test does not exercise a hit with a different selection.
