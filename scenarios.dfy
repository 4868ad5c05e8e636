/**
 * The registry's test cases, each as a method that builds its own remote and
 * clock (and, except for `TimerBump`, which builds its timer directly, its own
 * registry) and returns what it observed.  Their postconditions are
 * the posts and instance identities the tests expect.
 */
module Scenarios {
  import opened MetricIds
  import opened ShardCodec
  import opened Reports
  import opened Instruments
  import opened Registries

  /** `MetricId.build("X").tagged("what", "balls", "status", "tripping")`. */
  function WhatBallsStatusTripping(): MetricId
  {
    Tagged(Build("X"), ["what", "balls", "status", "tripping"])
  }

  lemma WhatBallsStatusTrippingTags()
    ensures WhatBallsStatusTripping() == MetricId("X", map["what" := "balls", "status" := "tripping"])
  {
    assert ["what", "balls", "status", "tripping"][2..] == ["status", "tripping"];
  }

  /** The post the tests expect from one observation rendered as `value`. */
  function ExpectedPost(metricType: string, value: string): Report
  {
    Report("/", "what:balls",
      Payload("metric", value, "X",
        map["metric_type" := metricType, "status" := "tripping", "what" := "balls"]))
  }

  /** The report of an observation reported with the default shard selection. */
  lemma DefaultReport(kind: Kind, value: int, rendered: string)
    requires rendered == Decimal.DecimalString(value)
    ensures MakeReport(WhatBallsStatusTripping(), DefaultShard, kind, value)
         == ExpectedPost(MetricType(kind), rendered)
  {
    WhatBallsStatusTrippingTags();
    var id := WhatBallsStatusTripping();
    assert id.tags["what"] == "balls";
    assert "what" + ":" + "balls" == "what:balls";
    assert Segments(id, DefaultShard) == ["what:balls"];
    assert Attributes(id, MetricType(kind))
        == map["metric_type" := MetricType(kind), "status" := "tripping", "what" := "balls"];
  }

  /** The shard label for the selection `["what", "status"]`. */
  lemma WhatStatusLabel()
    ensures ShardNamesPresent(WhatBallsStatusTripping(), ["what", "status"])
    ensures ShardLabel(WhatBallsStatusTripping(), ["what", "status"]) == "what:balls,status:tripping"
  {
    WhatBallsStatusTrippingTags();
    var id := WhatBallsStatusTripping();
    assert id.tags["what"] == "balls" && id.tags["status"] == "tripping";
    assert "what" + ":" + "balls" == "what:balls";
    assert "status" + ":" + "tripping" == "status:tripping";
    assert Segments(WhatBallsStatusTripping(), ["what", "status"]) == ["what:balls", "status:tripping"];
  }

  method MeterBump1() returns (posts: seq<Report>)
    ensures posts == [ExpectedPost("meter", "1")]
  {
    var remote := new Remote();
    var clock := new TimeSource(0);
    var registry := new SemanticAggregatorMetricRegistry(remote, clock);
    WhatBallsStatusTrippingTags();
    var m := registry.Meter(WhatBallsStatusTripping());
    m.Mark();
    DefaultReport(MeterKind, 1, "1");
    posts := remote.posts;
  }

  method MeterBump5() returns (posts: seq<Report>)
    ensures posts == [ExpectedPost("meter", "5")]
  {
    var remote := new Remote();
    var clock := new TimeSource(0);
    var registry := new SemanticAggregatorMetricRegistry(remote, clock);
    WhatBallsStatusTrippingTags();
    var m := registry.Meter(WhatBallsStatusTripping());
    m.MarkN(5);
    DefaultReport(MeterKind, 5, "5");
    posts := remote.posts;
  }

  method MeterShard() returns (posts: seq<Report>)
    ensures |posts| == 1 && posts[0].shardKey == "what:balls,status:tripping"
  {
    var remote := new Remote();
    var clock := new TimeSource(0);
    var registry := new SemanticAggregatorMetricRegistry(remote, clock);
    WhatStatusLabel();
    var m := registry.MeterSharded(WhatBallsStatusTripping(), ["what", "status"]);
    m.Mark();
    posts := remote.posts;
  }

  method MeterUniqueness() returns (same: bool)
    ensures same
  {
    var remote := new Remote();
    var clock := new TimeSource(0);
    var registry := new SemanticAggregatorMetricRegistry(remote, clock);
    WhatBallsStatusTrippingTags();
    var a := registry.Meter(Tagged(Build("X"), ["what", "balls", "status", "tripping"]));
    var b := registry.Meter(Tagged(Build("X"), ["what", "balls", "status", "tripping"]));
    same := a == b;
  }

  lemma TimerBumpReport()
    ensures ShardNamesPresent(WhatBallsStatusTripping(), ["what"])
    ensures MakeReport(WhatBallsStatusTripping(), ["what"], TimerKind, 69) == ExpectedPost("timer", "69")
  {
    DefaultReport(TimerKind, 69, "69");
  }

  /** The test builds the timer directly, over a clock that advances by 69 per reading. */
  method TimerBump() returns (posts: seq<Report>)
    ensures posts == [ExpectedPost("timer", "69")]
  {
    var remote := new Remote();
    var clock := new TimeSource(69);
    WhatBallsStatusTrippingTags();
    var tm := new RemoteTimer(WhatBallsStatusTripping(), ["what"], remote, clock);
    var _ := TimeOnce(tm);
    TimerBumpReport();
    posts := remote.posts;
  }

  method TimerUniqueness() returns (same: bool)
    ensures same
  {
    var remote := new Remote();
    var clock := new TimeSource(0);
    var registry := new SemanticAggregatorMetricRegistry(remote, clock);
    WhatBallsStatusTrippingTags();
    var a := registry.Timer(Tagged(Build("X"), ["what", "balls", "status", "tripping"]));
    var b := registry.Timer(Tagged(Build("X"), ["what", "balls", "status", "tripping"]));
    same := a == b;
  }

  method DerivingMeterBump1() returns (posts: seq<Report>)
    ensures posts == [ExpectedPost("deriving_meter", "1")]
  {
    var remote := new Remote();
    var clock := new TimeSource(0);
    var registry := new SemanticAggregatorMetricRegistry(remote, clock);
    WhatBallsStatusTrippingTags();
    var m := registry.DerivingMeter(WhatBallsStatusTripping());
    m.Mark();
    DefaultReport(DerivingMeterKind, 1, "1");
    posts := remote.posts;
  }

  method DerivingMeterBump5() returns (posts: seq<Report>)
    ensures posts == [ExpectedPost("deriving_meter", "5")]
  {
    var remote := new Remote();
    var clock := new TimeSource(0);
    var registry := new SemanticAggregatorMetricRegistry(remote, clock);
    WhatBallsStatusTrippingTags();
    var m := registry.DerivingMeter(WhatBallsStatusTripping());
    m.MarkN(5);
    DefaultReport(DerivingMeterKind, 5, "5");
    posts := remote.posts;
  }

  method DerivingMeterShard() returns (posts: seq<Report>)
    ensures |posts| == 1 && posts[0].shardKey == "what:balls,status:tripping"
  {
    var remote := new Remote();
    var clock := new TimeSource(0);
    var registry := new SemanticAggregatorMetricRegistry(remote, clock);
    WhatStatusLabel();
    var m := registry.DerivingMeterSharded(WhatBallsStatusTripping(), ["what", "status"]);
    m.Mark();
    posts := remote.posts;
  }

  method DerivingMeterUniqueness() returns (same: bool)
    ensures same
  {
    var remote := new Remote();
    var clock := new TimeSource(0);
    var registry := new SemanticAggregatorMetricRegistry(remote, clock);
    WhatBallsStatusTrippingTags();
    var a := registry.DerivingMeter(Tagged(Build("X"), ["what", "balls", "status", "tripping"]));
    var b := registry.DerivingMeter(Tagged(Build("X"), ["what", "balls", "status", "tripping"]));
    same := a == b;
  }

  method HistogramBump() returns (posts: seq<Report>)
    ensures posts == [ExpectedPost("histogram", "5")]
  {
    var remote := new Remote();
    var clock := new TimeSource(0);
    var registry := new SemanticAggregatorMetricRegistry(remote, clock);
    WhatBallsStatusTrippingTags();
    var m := registry.Histogram(WhatBallsStatusTripping());
    m.Update(5);
    DefaultReport(HistogramKind, 5, "5");
    posts := remote.posts;
  }

  method HistogramShard() returns (posts: seq<Report>)
    ensures |posts| == 1 && posts[0].shardKey == "what:balls,status:tripping"
  {
    var remote := new Remote();
    var clock := new TimeSource(0);
    var registry := new SemanticAggregatorMetricRegistry(remote, clock);
    WhatStatusLabel();
    var m := registry.HistogramSharded(WhatBallsStatusTripping(), ["what", "status"]);
    m.Update(3);
    posts := remote.posts;
  }

  method HistogramUniqueness() returns (same: bool)
    ensures same
  {
    var remote := new Remote();
    var clock := new TimeSource(0);
    var registry := new SemanticAggregatorMetricRegistry(remote, clock);
    WhatBallsStatusTrippingTags();
    var a := registry.Histogram(Tagged(Build("X"), ["what", "balls", "status", "tripping"]));
    var b := registry.Histogram(Tagged(Build("X"), ["what", "balls", "status", "tripping"]));
    same := a == b;
  }
}
