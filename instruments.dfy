/**
 * The metric instances.  Each observation (`mark`, `update`, `stop`) hands
 * exactly one report to the `Remote` collaborator, before it returns.
 */
module Instruments {
  import opened Longs
  import opened MetricIds
  import opened ShardCodec
  import opened Reports

  /**
   * The `Remote` collaborator, as the record of the posts it was handed, in
   * the order they were handed to it.
   */
  class Remote {
    var posts: seq<Report>

    constructor ()
      ensures posts == []
    {
      posts := [];
    }

    /** `remote.post(path, shardKey, payload)`. */
    method Post(path: string, shardKey: string, payload: Payload)
      modifies this
      ensures posts == old(posts) + [Report(path, shardKey, payload)]
    {
      posts := posts + [Report(path, shardKey, payload)];
    }
  }

  /**
   * A time source whose clock advances by a fixed `step` on every reading, as
   * the test's `TimeSource` does (`tm += 69`), with `long` wrap-around.
   */
  class TimeSource {
    var tm: Long
    const step: Long

    constructor (step: Long)
      ensures tm == 0 && this.step == step
    {
      tm := 0;
      this.step := step;
    }

    method NanoTime() returns (t: Long)
      modifies this
      ensures tm == Wrap(old(tm) + step) && t == tm
    {
      tm := Wrap(tm + step);
      t := tm;
    }
  }

  /** Reports one observation of `value` through `remote`. */
  method SendReport(remote: Remote, id: MetricId, shard: seq<string>, kind: Kind, value: int)
    requires ShardNamesPresent(id, shard)
    modifies remote
    ensures remote.posts == old(remote.posts) + [MakeReport(id, shard, kind, value)]
  {
    var r := MakeReport(id, shard, kind, value);
    remote.Post(r.path, r.shardKey, r.payload);
  }

  class RemoteMeter {
    const id: MetricId
    const shard: seq<string>
    const remote: Remote

    ghost predicate Valid()
    {
      ShardNamesPresent(id, shard)
    }

    constructor (id: MetricId, shard: seq<string>, remote: Remote)
      requires ShardNamesPresent(id, shard)
      ensures this.id == id && this.shard == shard && this.remote == remote
      ensures Valid()
    {
      this.id, this.shard, this.remote := id, shard, remote;
    }

    /** `mark()`: an observation of one. */
    method Mark()
      requires Valid()
      modifies remote
      ensures remote.posts == old(remote.posts) + [MakeReport(id, shard, MeterKind, 1)]
    {
      MarkN(1);
    }

    /** `mark(n)`: an observation of `n`. */
    method MarkN(n: Long)
      requires Valid()
      modifies remote
      ensures remote.posts == old(remote.posts) + [MakeReport(id, shard, MeterKind, n)]
    {
      SendReport(remote, id, shard, MeterKind, n);
    }
  }

  class RemoteDerivingMeter {
    const id: MetricId
    const shard: seq<string>
    const remote: Remote

    ghost predicate Valid()
    {
      ShardNamesPresent(id, shard)
    }

    constructor (id: MetricId, shard: seq<string>, remote: Remote)
      requires ShardNamesPresent(id, shard)
      ensures this.id == id && this.shard == shard && this.remote == remote
      ensures Valid()
    {
      this.id, this.shard, this.remote := id, shard, remote;
    }

    /** `mark()`: an observation of one. */
    method Mark()
      requires Valid()
      modifies remote
      ensures remote.posts == old(remote.posts) + [MakeReport(id, shard, DerivingMeterKind, 1)]
    {
      MarkN(1);
    }

    /** `mark(n)`: an observation of `n`. */
    method MarkN(n: Long)
      requires Valid()
      modifies remote
      ensures remote.posts == old(remote.posts) + [MakeReport(id, shard, DerivingMeterKind, n)]
    {
      SendReport(remote, id, shard, DerivingMeterKind, n);
    }
  }

  class RemoteHistogram {
    const id: MetricId
    const shard: seq<string>
    const remote: Remote

    ghost predicate Valid()
    {
      ShardNamesPresent(id, shard)
    }

    constructor (id: MetricId, shard: seq<string>, remote: Remote)
      requires ShardNamesPresent(id, shard)
      ensures this.id == id && this.shard == shard && this.remote == remote
      ensures Valid()
    {
      this.id, this.shard, this.remote := id, shard, remote;
    }

    /** `update(value)`: reports the observed value itself. */
    method Update(value: Long)
      requires Valid()
      modifies remote
      ensures remote.posts == old(remote.posts) + [MakeReport(id, shard, HistogramKind, value)]
    {
      SendReport(remote, id, shard, HistogramKind, value);
    }
  }

  /** `SemanticAggregatorTimer`: reports the time between `time()` and `stop()`. */
  class RemoteTimer {
    const id: MetricId
    const shard: seq<string>
    const remote: Remote
    const clock: TimeSource

    ghost predicate Valid()
    {
      ShardNamesPresent(id, shard)
    }

    constructor (id: MetricId, shard: seq<string>, remote: Remote, clock: TimeSource)
      requires ShardNamesPresent(id, shard)
      ensures this.id == id && this.shard == shard && this.remote == remote && this.clock == clock
      ensures Valid()
    {
      this.id, this.shard, this.remote, this.clock := id, shard, remote, clock;
    }

    /** `time()`: reads the clock once and starts a context; nothing is reported yet. */
    method Time() returns (ctx: TimerContext)
      modifies clock
      ensures fresh(ctx) && ctx.timer == this
      ensures clock.tm == Wrap(old(clock.tm) + clock.step) && ctx.start == clock.tm
    {
      var now := clock.NanoTime();
      ctx := new TimerContext(this, now);
    }
  }

  class TimerContext {
    const timer: RemoteTimer
    const start: Long

    constructor (timer: RemoteTimer, start: Long)
      ensures this.timer == timer && this.start == start
    {
      this.timer, this.start := timer, start;
    }

    /**
     * `stop()`: reads the clock a second time and reports the second reading
     * minus the first, as a `long` subtraction.
     */
    method Stop() returns (elapsed: Long)
      requires timer.Valid()
      modifies timer.clock, timer.remote
      ensures timer.clock.tm == Wrap(old(timer.clock.tm) + timer.clock.step)
      ensures elapsed == Wrap(timer.clock.tm - start)
      ensures timer.remote.posts == old(timer.remote.posts) + [MakeReport(timer.id, timer.shard, TimerKind, elapsed)]
    {
      var clock, remote := timer.clock, timer.remote;
      var now := clock.NanoTime();
      elapsed := Wrap(now - start);
      SendReport(remote, timer.id, timer.shard, TimerKind, elapsed);
    }
  }

  /**
   * Timing an action during which nothing else reads the clock reports
   * exactly one post, whose value is the clock's step; the clock has been
   * read twice.
   */
  method TimeOnce(timer: RemoteTimer) returns (elapsed: Long)
    requires timer.Valid()
    modifies timer.clock, timer.remote
    ensures elapsed == timer.clock.step
    ensures timer.clock.tm == Wrap(Wrap(old(timer.clock.tm) + timer.clock.step) + timer.clock.step)
    ensures timer.remote.posts == old(timer.remote.posts) + [MakeReport(timer.id, timer.shard, TimerKind, timer.clock.step)]
  {
    var ctx := timer.Time();
    ElapsedIsStep(ctx.start, timer.clock.step);
    elapsed := ctx.Stop();
  }
}
