/**
 * Persistence of the dashboard metrics: the cumulative counters row, the
 * `metrics_timeseries` table written in batches behind a watermark (the
 * newest timestamp already written), change-only writes of the queue
 * length, and reloading both at start-up.
 *
 * The database is a value: the time-series table as a sequence of rows in
 * insertion order and the single cumulative row. Whether a transaction
 * could be opened and whether it committed are parameters.
 */
module MetricsPersistence {
  import opened Wrappers
  import Seqs
  import opened MetricsCollector

  /** The five counters of the `metrics_cumulative` row (id = 1). */
  datatype Cumulative = Cumulative(promotions: int, rejections: int, forgotten: int, hits: int, misses: int)

  /** The metrics tables. */
  datatype Store = Store(timeseries: seq<Row>, cumulative: Option<Cumulative>)

  /**
   * metrics_persistence.go `MetricsPersistence`: the watermark and the last
   * queue length written.
   */
  datatype Persistence = Persistence(lastPersistedTime: int, lastQueueLength: real)

  /** In-memory series keep two hours after each write. */
  const KeepInMemory: int := 2 * SecondsPerHour

  /** NewMetricsPersistence: nothing written yet; -1 forces the first queue length to be written. */
  function NewMetricsPersistence(): (p: Persistence)
    ensures p.lastPersistedTime == 0 && p.lastQueueLength == -1.0
  {
    Persistence(0, -1.0)
  }

  /** updateCumulativeStats: overwrite the row's counters with the collector's; no row, no update. */
  function UpdateCumulativeStats(s: Store, c: Collector): (r: Store)
    ensures r.timeseries == s.timeseries
    ensures s.cumulative.None? ==> r.cumulative.None?
    ensures s.cumulative.Some? ==>
      r.cumulative == Some(Cumulative(c.totalPromotions, c.totalRejections, c.totalForgotten, c.cacheHits, c.cacheMisses))
  {
    match s.cumulative
    case None => s
    case Some(_) =>
      s.(cumulative := Some(Cumulative(c.totalPromotions, c.totalRejections, c.totalForgotten, c.cacheHits, c.cacheMisses)))
  }

  /** LoadCumulativeStats: restore the five counters from the row; a missing row is an error. */
  function LoadCumulativeStats(s: Store, c: Collector): (r: Result<Collector>)
    ensures s.cumulative.None? <==> r.Err?
    ensures r.Ok? ==>
      var k := s.cumulative.value;
      r.value == c.(totalPromotions := k.promotions, totalRejections := k.rejections, totalForgotten := k.forgotten,
                    cacheHits := k.hits, cacheMisses := k.misses)
  {
    match s.cumulative
    case None => Err("sql: no rows in result set")
    case Some(k) =>
      Ok(c.(totalPromotions := k.promotions, totalRejections := k.rejections, totalForgotten := k.forgotten,
            cacheHits := k.hits, cacheMisses := k.misses))
  }

  /** Saving the counters and loading them back restores them exactly (when the row exists). */
  lemma CumulativeRoundTrip(s: Store, c: Collector, other: Collector)
    requires s.cumulative.Some?
    ensures var r := LoadCumulativeStats(UpdateCumulativeStats(s, c), other);
      r.Ok? && r.value.totalPromotions == c.totalPromotions && r.value.totalRejections == c.totalRejections
      && r.value.totalForgotten == c.totalForgotten && r.value.cacheHits == c.cacheHits
      && r.value.cacheMisses == c.cacheMisses
      && r.value.promotionHistory == other.promotionHistory
  {
  }

  /** The row written for a promotion point: its label goes to the category column. */
  function PromotionRow(p: Point): Row
  {
    Row(PromotionMetric, p.value, Some(p.tag), p.timestamp)
  }

  /** The promotion points newer than the watermark, as rows, in order. */
  function PromotionRows(points: seq<Point>, after: int): (r: seq<Row>)
    ensures |r| <= |points|
    ensures forall i :: 0 <= i < |r| ==> r[i].metricType == PromotionMetric && r[i].timestamp > after
    ensures forall i :: 0 <= i < |points| && points[i].timestamp > after ==> PromotionRow(points[i]) in r
    ensures (forall i :: 0 <= i < |points| ==> points[i].timestamp <= after) ==> r == []
  {
    if points == [] then []
    else
      var rest := PromotionRows(points[1..], after);
      assert forall i :: 1 <= i < |points| ==> points[i] == points[1..][i - 1];
      if points[0].timestamp > after then [PromotionRow(points[0])] + rest else rest
  }

  /**
   * The queue-length points newer than the watermark, written only when
   * the value differs from the last one written; also returns the new
   * last-written value.
   */
  function QueueRows(points: seq<Point>, after: int, last: real): (r: (seq<Row>, real))
    ensures |r.0| <= |points|
    ensures forall i :: 0 <= i < |r.0| ==>
      r.0[i].metricType == QueueLengthMetric && r.0[i].timestamp > after && r.0[i].category.None?
    ensures r.0 == [] ==> r.1 == last
    ensures r.0 != [] ==> r.0[0].value != last && r.1 == r.0[|r.0| - 1].value
    ensures forall i :: 0 <= i < |r.0| - 1 ==> r.0[i].value != r.0[i + 1].value
    ensures (forall i :: 0 <= i < |points| ==> points[i].timestamp <= after) ==> r.0 == []
  {
    if points == [] then ([], last)
    else
      var p := points[0];
      assert forall i :: 1 <= i < |points| ==> points[i] == points[1..][i - 1];
      if p.timestamp > after && p.value != last then
        var rest := QueueRows(points[1..], after, p.value);
        ([Row(QueueLengthMetric, p.value, None, p.timestamp)] + rest.0, rest.1)
      else
        QueueRows(points[1..], after, last)
  }

  /** A queue length that has not changed since the last write is not written again. */
  lemma {:induction false} SteadyQueueWritesNothing(points: seq<Point>, after: int, v: real)
    requires forall i :: 0 <= i < |points| ==> points[i].value == v
    ensures QueueRows(points, after, v) == ([], v)
  {
    if points != [] {
      SteadyQueueWritesNothing(points[1..], after, v);
    }
  }

  /** The outcome of one write pass. */
  datatype Pass = Pass(persistence: Persistence, collector: Collector, store: Store, status: Result<()>)

  /** Everything a pass writes, promotions first. */
  function PassRows(p: Persistence, c: Collector): seq<Row>
  {
    PromotionRows(c.promotionHistory, p.lastPersistedTime)
      + QueueRows(c.queueLengthHistory, p.lastPersistedTime, p.lastQueueLength).0
  }

  /** The watermark after a pass: the newest timestamp seen, never below the old one. */
  function NextWatermark(p: Persistence, c: Collector): (t: int)
    ensures t >= p.lastPersistedTime
    ensures forall i :: 0 <= i < |c.promotionHistory| ==> c.promotionHistory[i].timestamp <= t
    ensures forall i :: 0 <= i < |c.queueLengthHistory| ==> c.queueLengthHistory[i].timestamp <= t
  {
    Latest(c.queueLengthHistory, Latest(c.promotionHistory, p.lastPersistedTime))
  }

  /** The in-memory series after a pass: the last two hours only. */
  function KeepRecent(c: Collector, now: int): (r: Collector)
    ensures forall i :: 0 <= i < |r.promotionHistory| ==>
      r.promotionHistory[i] in c.promotionHistory && r.promotionHistory[i].timestamp > now - KeepInMemory
    ensures forall i :: 0 <= i < |r.queueLengthHistory| ==>
      r.queueLengthHistory[i] in c.queueLengthHistory && r.queueLengthHistory[i].timestamp > now - KeepInMemory
    ensures forall i :: 0 <= i < |c.promotionHistory| && c.promotionHistory[i].timestamp > now - KeepInMemory ==>
      c.promotionHistory[i] in r.promotionHistory
    ensures forall i :: 0 <= i < |c.queueLengthHistory| && c.queueLengthHistory[i].timestamp > now - KeepInMemory ==>
      c.queueLengthHistory[i] in r.queueLengthHistory
    ensures Seqs.Subsequence(r.promotionHistory, c.promotionHistory)
    ensures Seqs.Subsequence(r.queueLengthHistory, c.queueLengthHistory)
    ensures forall i :: 0 <= i < |c.promotionHistory| ==>
      multiset(r.promotionHistory)[c.promotionHistory[i]] == if c.promotionHistory[i].timestamp > now - KeepInMemory then multiset(c.promotionHistory)[c.promotionHistory[i]] else 0
    ensures forall i :: 0 <= i < |c.queueLengthHistory| ==>
      multiset(r.queueLengthHistory)[c.queueLengthHistory[i]] == if c.queueLengthHistory[i].timestamp > now - KeepInMemory then multiset(c.queueLengthHistory)[c.queueLengthHistory[i]] else 0
    ensures r == c.(promotionHistory := r.promotionHistory, queueLengthHistory := r.queueLengthHistory)
  {
    c.(promotionHistory := FilterPointsAfter(c.promotionHistory, now - KeepInMemory),
       queueLengthHistory := FilterPointsAfter(c.queueLengthHistory, now - KeepInMemory))
  }

  /**
   * insertTimeSeriesData as written: when the transaction opens, the
   * watermark, the last queue length and the in-memory trim are all
   * applied before the commit, so they stand even when the commit fails
   * and the rows are rolled back.
   */
  function InsertTimeSeriesDataAsWritten(p: Persistence, c: Collector, s: Store, now: int,
                                         began: bool, committed: bool): (r: Pass)
    ensures !began ==> r.persistence == p && r.collector == c && r.store == s && r.status.Err?
    ensures began ==>
      r.persistence.lastPersistedTime == NextWatermark(p, c)
      && r.collector == KeepRecent(c, now)
      && (committed ==> r.store.timeseries == s.timeseries + PassRows(p, c) && r.status.Ok?)
      && (!committed ==> r.store == s && r.status.Err?)
  {
    if !began then Pass(p, c, s, Err("begin transaction failed"))
    else
      var q := QueueRows(c.queueLengthHistory, p.lastPersistedTime, p.lastQueueLength);
      var p' := Persistence(NextWatermark(p, c), q.1);
      if committed then Pass(p', KeepRecent(c, now), s.(timeseries := s.timeseries + PassRows(p, c)), Ok(()))
      else Pass(p', KeepRecent(c, now), s, Err("commit failed"))
  }

  /**
   * A point that a failed commit rolled back is never written afterwards:
   * the watermark has already moved past it, and every later pass writes
   * only rows newer than the watermark.
   */
  lemma {:induction false} FailedCommitLosesPoints(p: Persistence, c: Collector, s: Store, now: int, k: nat)
    requires k < |c.promotionHistory| && c.promotionHistory[k].timestamp > p.lastPersistedTime
    ensures var r := InsertTimeSeriesDataAsWritten(p, c, s, now, true, false);
      r.store == s
      && PassRows(r.persistence, r.collector) == []
      && PromotionRow(c.promotionHistory[k]) !in PassRows(r.persistence, r.collector)
  {
    var r := InsertTimeSeriesDataAsWritten(p, c, s, now, true, false);
    var w := r.persistence.lastPersistedTime;
    assert w == NextWatermark(p, c);
    forall i | 0 <= i < |r.collector.promotionHistory|
      ensures r.collector.promotionHistory[i].timestamp <= w
    {
      var x := r.collector.promotionHistory[i];
      var m :| 0 <= m < |c.promotionHistory| && c.promotionHistory[m] == x;
    }
    forall i | 0 <= i < |r.collector.queueLengthHistory|
      ensures r.collector.queueLengthHistory[i].timestamp <= w
    {
      var x := r.collector.queueLengthHistory[i];
      var m :| 0 <= m < |c.queueLengthHistory| && c.queueLengthHistory[m] == x;
    }
  }

  /**
   * insertTimeSeriesData corrected: the watermark, the last queue length
   * and the in-memory trim take effect only once the commit succeeded; a
   * failed pass changes nothing, so the next pass retries the same rows.
   */
  function InsertTimeSeriesData(p: Persistence, c: Collector, s: Store, now: int,
                                began: bool, committed: bool): (r: Pass)
    ensures !(began && committed) ==> r.persistence == p && r.collector == c && r.store == s && r.status.Err?
    ensures began && committed ==>
      r.persistence.lastPersistedTime == NextWatermark(p, c)
      && r.collector == KeepRecent(c, now)
      && r.store.timeseries == s.timeseries + PassRows(p, c)
      && r.store.cumulative == s.cumulative
      && r.status.Ok?
  {
    if !began then Pass(p, c, s, Err("begin transaction failed"))
    else if !committed then Pass(p, c, s, Err("commit failed"))
    else
      var q := QueueRows(c.queueLengthHistory, p.lastPersistedTime, p.lastQueueLength);
      Pass(Persistence(NextWatermark(p, c), q.1), KeepRecent(c, now),
        s.(timeseries := s.timeseries + PassRows(p, c)), Ok(()))
  }

  /** With the correction, a failed pass followed by a successful one writes what one successful pass would. */
  lemma RetryAfterFailedCommitWritesAll(p: Persistence, c: Collector, s: Store, now: int, now2: int, began: bool)
    ensures var r := InsertTimeSeriesData(p, c, s, now, began, false);
      InsertTimeSeriesData(r.persistence, r.collector, r.store, now2, true, true)
        == InsertTimeSeriesData(p, c, s, now2, true, true)
  {
  }

  /** Every row a pass writes is newer than the old watermark and no newer than the new one. */
  lemma PassRowsBetweenWatermarks(p: Persistence, c: Collector)
    ensures var rows := PassRows(p, c);
      forall i :: 0 <= i < |rows| ==>
        p.lastPersistedTime < rows[i].timestamp <= NextWatermark(p, c)
  {
    var promos := PromotionRows(c.promotionHistory, p.lastPersistedTime);
    var queues := QueueRows(c.queueLengthHistory, p.lastPersistedTime, p.lastQueueLength).0;
    var rows := promos + queues;
    forall i | 0 <= i < |rows|
      ensures p.lastPersistedTime < rows[i].timestamp <= NextWatermark(p, c)
    {
      if i < |promos| {
        PromotionRowFromPoint(c.promotionHistory, p.lastPersistedTime, i);
      } else {
        QueueRowFromPoint(c.queueLengthHistory, p.lastPersistedTime, p.lastQueueLength, i - |promos|);
      }
    }
  }

  /** Every promotion row carries the timestamp of some point of the series. */
  lemma {:induction false} PromotionRowFromPoint(points: seq<Point>, after: int, i: nat)
    requires i < |PromotionRows(points, after)|
    ensures exists j :: 0 <= j < |points| && points[j].timestamp == PromotionRows(points, after)[i].timestamp
  {
    var rest := PromotionRows(points[1..], after);
    if points[0].timestamp > after && i == 0 {
      assert points[0].timestamp == PromotionRows(points, after)[0].timestamp;
    } else {
      var i' := if points[0].timestamp > after then i - 1 else i;
      assert PromotionRows(points, after)[i] == rest[i'];
      PromotionRowFromPoint(points[1..], after, i');
      var j :| 0 <= j < |points[1..]| && points[1..][j].timestamp == rest[i'].timestamp;
      assert points[j + 1] == points[1..][j];
    }
  }

  /** Every queue row carries the timestamp of some point of the series. */
  lemma {:induction false} QueueRowFromPoint(points: seq<Point>, after: int, last: real, i: nat)
    requires i < |QueueRows(points, after, last).0|
    ensures exists j :: 0 <= j < |points| && points[j].timestamp == QueueRows(points, after, last).0[i].timestamp
  {
    var p := points[0];
    if p.timestamp > after && p.value != last {
      var rest := QueueRows(points[1..], after, p.value);
      if i == 0 {
        assert points[0].timestamp == QueueRows(points, after, last).0[0].timestamp;
      } else {
        assert QueueRows(points, after, last).0[i] == rest.0[i - 1];
        QueueRowFromPoint(points[1..], after, p.value, i - 1);
        var j :| 0 <= j < |points[1..]| && points[1..][j].timestamp == rest.0[i - 1].timestamp;
        assert points[j + 1] == points[1..][j];
      }
    } else {
      QueueRowFromPoint(points[1..], after, last, i);
      var j :| 0 <= j < |points[1..]| && points[1..][j].timestamp == QueueRows(points[1..], after, last).0[i].timestamp;
      assert points[j + 1] == points[1..][j];
    }
  }

  /**
   * Two successful passes never write the same point twice: everything
   * the second writes is strictly newer than everything the first wrote.
   */
  lemma PassesDoNotOverlap(p: Persistence, c: Collector, s: Store, now: int, c2: Collector)
    ensures var r := InsertTimeSeriesData(p, c, s, now, true, true);
      var first := PassRows(p, c);
      var second := PassRows(r.persistence, c2);
      forall i, j :: 0 <= i < |first| && 0 <= j < |second| ==> first[i].timestamp < second[j].timestamp
  {
    var r := InsertTimeSeriesData(p, c, s, now, true, true);
    PassRowsBetweenWatermarks(p, c);
    PassRowsBetweenWatermarks(r.persistence, c2);
  }

  /** persistMetrics' first step: overwrite the counters row when that write succeeds. */
  function WriteCounters(s: Store, c: Collector, countersWritten: bool): (r: Store)
    ensures countersWritten && s.cumulative.Some? ==>
      r.cumulative == Some(Cumulative(c.totalPromotions, c.totalRejections, c.totalForgotten, c.cacheHits, c.cacheMisses))
    ensures !countersWritten ==> r.cumulative == s.cumulative
    ensures r.timeseries == s.timeseries
  {
    if countersWritten then UpdateCumulativeStats(s, c) else s
  }

  /**
   * persistMetrics: overwrite the counters row, then write the time
   * series with insertTimeSeriesData as written; either failure is only
   * logged, so the pass always completes. An opened transaction moves the
   * watermark even when its commit fails.
   */
  function PersistMetrics(p: Persistence, c: Collector, s: Store, now: int,
                          countersWritten: bool, began: bool, committed: bool): (r: Pass)
    ensures countersWritten && s.cumulative.Some? ==>
      r.store.cumulative == Some(Cumulative(c.totalPromotions, c.totalRejections, c.totalForgotten, c.cacheHits, c.cacheMisses))
    ensures !countersWritten ==> r.store.cumulative == s.cumulative
    ensures r.persistence.lastPersistedTime >= p.lastPersistedTime
    ensures Seqs.IsPrefix(s.timeseries, r.store.timeseries)
    ensures began ==> r.persistence.lastPersistedTime == NextWatermark(p, c) && r.collector == KeepRecent(c, now)
    ensures !(began && committed) ==> r.store.timeseries == s.timeseries
  {
    var s1 := WriteCounters(s, c, countersWritten);
    var r := InsertTimeSeriesDataAsWritten(p, c, s1, now, began, committed);
    assert (s1.timeseries + PassRows(p, c))[..|s1.timeseries|] == s1.timeseries;
    r
  }

  /**
   * As written, a persistMetrics pass whose commit fails leaves nothing
   * for the next pass to write, although none of its rows reached the
   * table.
   */
  lemma PersistMetricsFailedCommitLosesPoints(p: Persistence, c: Collector, s: Store, now: int, countersWritten: bool, k: nat)
    requires k < |c.promotionHistory| && c.promotionHistory[k].timestamp > p.lastPersistedTime
    ensures var r := PersistMetrics(p, c, s, now, countersWritten, true, false);
      r.store.timeseries == s.timeseries
      && PromotionRow(c.promotionHistory[k]) !in PassRows(r.persistence, r.collector)
      && PassRows(r.persistence, r.collector) == []
  {
    FailedCommitLosesPoints(p, c, WriteCounters(s, c, countersWritten), now, k);
  }

  /**
   * persistMetrics over the corrected insertTimeSeriesData: the same
   * counters write, and a pass whose transaction does not commit leaves
   * the watermark and the in-memory series as they were.
   */
  function PersistMetricsCorrected(p: Persistence, c: Collector, s: Store, now: int,
                                   countersWritten: bool, began: bool, committed: bool): (r: Pass)
    ensures countersWritten && s.cumulative.Some? ==>
      r.store.cumulative == Some(Cumulative(c.totalPromotions, c.totalRejections, c.totalForgotten, c.cacheHits, c.cacheMisses))
    ensures !countersWritten ==> r.store.cumulative == s.cumulative
    ensures r.persistence.lastPersistedTime >= p.lastPersistedTime
    ensures Seqs.IsPrefix(s.timeseries, r.store.timeseries)
    ensures began && committed ==>
      r.persistence.lastPersistedTime == NextWatermark(p, c) && r.collector == KeepRecent(c, now)
      && r.store.timeseries == s.timeseries + PassRows(p, c)
    ensures !(began && committed) ==> r.persistence == p && r.collector == c && r.store.timeseries == s.timeseries
  {
    var s1 := WriteCounters(s, c, countersWritten);
    var r := InsertTimeSeriesData(p, c, s1, now, began, committed);
    assert (s1.timeseries + PassRows(p, c))[..|s1.timeseries|] == s1.timeseries;
    r
  }

  /**
   * LoadRecentTimeSeries: replace both in-memory series with the loaded
   * rows, split by type (labels from the category column), and move the
   * watermark to the newest loaded timestamp; a failed query changes nothing.
   */
  function LoadRecentTimeSeries(p: Persistence, c: Collector, rows: Option<seq<Row>>): (r: Result<(Persistence, Collector)>)
    ensures rows.None? <==> r.Err?
    ensures r.Ok? ==>
      var split := SplitRows(rows.value, true);
      r.value.1 == c.(promotionHistory := split.0, queueLengthHistory := split.1)
      && r.value.0.lastQueueLength == p.lastQueueLength
      && r.value.0.lastPersistedTime == MaxDbTime(split.0, split.1)
  {
    match rows
    case None => Err("query failed")
    case Some(rs) =>
      var split := SplitRows(rs, true);
      Ok((p.(lastPersistedTime := MaxDbTime(split.0, split.1)),
          c.(promotionHistory := split.0, queueLengthHistory := split.1)))
  }

  /** Reloaded points are not written back: a pass right after a reload writes nothing. */
  lemma ReloadThenPersistWritesNothing(p: Persistence, c: Collector, rows: seq<Row>)
    ensures var r := LoadRecentTimeSeries(p, c, Some(rows));
      r.Ok? && PassRows(r.value.0, r.value.1) == []
  {
  }

  /** CleanupOldData: drop the rows older than the retention period; a failed delete changes nothing. */
  function CleanupOldData(s: Store, now: int, retentionDays: int, ok: bool): (r: Result<Store>)
    ensures !ok <==> r.Err?
    ensures r.Ok? ==>
      r.value.cumulative == s.cumulative
      && (forall i :: 0 <= i < |r.value.timeseries| ==>
            r.value.timeseries[i] in s.timeseries && r.value.timeseries[i].timestamp >= now - retentionDays * 86400)
      && (forall i :: 0 <= i < |s.timeseries| && s.timeseries[i].timestamp >= now - retentionDays * 86400 ==>
            s.timeseries[i] in r.value.timeseries)
    ensures r.Ok? ==> Seqs.Subsequence(r.value.timeseries, s.timeseries)
    ensures r.Ok? ==> forall i :: 0 <= i < |s.timeseries| ==>
      multiset(r.value.timeseries)[s.timeseries[i]] == if s.timeseries[i].timestamp >= now - retentionDays * 86400 then multiset(s.timeseries)[s.timeseries[i]] else 0
  {
    if !ok then Err("delete failed")
    else
      var cutoff := now - retentionDays * 86400;
      Seqs.FilterKeepsCounts(s.timeseries, (x: Row) => x.timestamp >= cutoff);
      Ok(s.(timeseries := Seqs.Filter(s.timeseries, (x: Row) => x.timestamp >= cutoff)))
  }
}
