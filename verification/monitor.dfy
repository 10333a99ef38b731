/**
 * The performance monitor: promotion and forgetting counters, the staging
 * queue length, and the 24-hour cache of judge verdicts keyed by content.
 * Every cache lookup is counted twice, in the monitor and in the global
 * metrics collector, so both are threaded through a lookup.
 */
module Monitor {
  import opened Wrappers
  import opened Types
  import Seqs
  import StagingStore
  import MetricsCollector

  /** Cached verdicts live for 24 hours. */
  const CacheExpiry: int := 24 * 3600

  /** monitor.go `PerformanceMonitor`; the two maps are the cache and its write times. */
  datatype PerformanceMonitor = PerformanceMonitor(
    stagingQueueLength: int,
    promotionSuccessCount: int,
    promotionFailCount: int,
    forgottenMemoriesCount: int,
    judgmentCacheHits: int,
    judgmentCacheMisses: int,
    judgeCache: map<string, JudgeResult>,
    cacheTimestamps: map<string, int>,
    cacheExpiry: int)

  /** NewPerformanceMonitor: empty cache, zero counters, 24-hour expiry. */
  function NewPerformanceMonitor(): (m: PerformanceMonitor)
    ensures m.judgeCache == map[] && m.cacheTimestamps == map[]
    ensures m.cacheExpiry == CacheExpiry
    ensures m.judgmentCacheHits == m.judgmentCacheMisses == 0
    ensures m.promotionSuccessCount == m.promotionFailCount == m.forgottenMemoriesCount == 0
  {
    PerformanceMonitor(0, 0, 0, 0, 0, 0, map[], map[], CacheExpiry)
  }

  /** When `content` was cached; a missing time reads as Go's zero time (0). */
  function CachedAt(m: PerformanceMonitor, content: string): int
  {
    if content in m.cacheTimestamps then m.cacheTimestamps[content] else 0
  }

  /** A cached verdict is stale once strictly more than the expiry has passed. */
  predicate Expired(m: PerformanceMonitor, content: string, now: int)
  {
    now - CachedAt(m, content) > m.cacheExpiry
  }

  /** What a lookup yields and the two counters it leaves behind. */
  datatype Lookup = Lookup(result: Option<JudgeResult>, monitor: PerformanceMonitor,
                           global: MetricsCollector.Collector)

  /**
   * GetJudgeResultFromCache: an absent entry is a miss; a stale one is
   * removed from both maps and is a miss; otherwise a hit. Each lookup
   * counts exactly one hit or one miss, in the monitor and globally.
   */
  function GetJudgeResultFromCache(m: PerformanceMonitor, g: MetricsCollector.Collector,
                                   content: string, now: int): (r: Lookup)
    ensures r.result.Some? <==> content in m.judgeCache && !Expired(m, content, now)
    ensures r.result.Some? ==> r.result.value == m.judgeCache[content]
    ensures r.result.Some? ==>
      r.monitor == m.(judgmentCacheHits := m.judgmentCacheHits + 1)
      && r.global == g.(cacheHits := g.cacheHits + 1)
    ensures r.result.None? ==>
      r.monitor.judgmentCacheMisses == m.judgmentCacheMisses + 1
      && r.monitor.judgmentCacheHits == m.judgmentCacheHits
      && r.global == g.(cacheMisses := g.cacheMisses + 1)
    ensures content in m.judgeCache && Expired(m, content, now) ==>
      r.monitor == m.(judgeCache := m.judgeCache - {content}, cacheTimestamps := m.cacheTimestamps - {content},
                      judgmentCacheMisses := m.judgmentCacheMisses + 1)
    ensures content !in m.judgeCache ==> r.monitor == m.(judgmentCacheMisses := m.judgmentCacheMisses + 1)
  {
    if content !in m.judgeCache then
      Lookup(None, m.(judgmentCacheMisses := m.judgmentCacheMisses + 1), g.(cacheMisses := g.cacheMisses + 1))
    else if now - CachedAt(m, content) > m.cacheExpiry then
      Lookup(None,
        m.(judgeCache := m.judgeCache - {content}, cacheTimestamps := m.cacheTimestamps - {content},
           judgmentCacheMisses := m.judgmentCacheMisses + 1),
        g.(cacheMisses := g.cacheMisses + 1))
    else
      Lookup(Some(m.judgeCache[content]), m.(judgmentCacheHits := m.judgmentCacheHits + 1),
        g.(cacheHits := g.cacheHits + 1))
  }

  /** SetJudgeResultCache: store the verdict and stamp it with the current time. */
  function SetJudgeResultCache(m: PerformanceMonitor, content: string, result: JudgeResult, now: int): (r: PerformanceMonitor)
    ensures r.judgeCache == m.judgeCache[content := result]
    ensures r.cacheTimestamps == m.cacheTimestamps[content := now]
    ensures r == m.(judgeCache := r.judgeCache, cacheTimestamps := r.cacheTimestamps)
  {
    m.(judgeCache := m.judgeCache[content := result], cacheTimestamps := m.cacheTimestamps[content := now])
  }

  /** A verdict stored at `now` is returned by every lookup up to the expiry, the bound included. */
  lemma SetThenGetHits(m: PerformanceMonitor, g: MetricsCollector.Collector, content: string,
                       result: JudgeResult, now: int, later: int)
    requires now <= later <= now + m.cacheExpiry
    ensures GetJudgeResultFromCache(SetJudgeResultCache(m, content, result, now), g, content, later).result == Some(result)
  {
  }

  /** Past the expiry the verdict is gone: the lookup misses and the entry leaves both maps. */
  lemma SetThenGetAfterExpiryMisses(m: PerformanceMonitor, g: MetricsCollector.Collector, content: string,
                                    result: JudgeResult, now: int, later: int)
    requires later > now + m.cacheExpiry
    ensures var r := GetJudgeResultFromCache(SetJudgeResultCache(m, content, result, now), g, content, later);
      r.result.None? && content !in r.monitor.judgeCache && content !in r.monitor.cacheTimestamps
  {
  }

  /** Every lookup is counted once: hits plus misses grow by one, in both places. */
  lemma LookupCountedOnce(m: PerformanceMonitor, g: MetricsCollector.Collector, content: string, now: int)
    ensures var r := GetJudgeResultFromCache(m, g, content, now);
      r.monitor.judgmentCacheHits + r.monitor.judgmentCacheMisses == m.judgmentCacheHits + m.judgmentCacheMisses + 1
      && r.global.cacheHits + r.global.cacheMisses == g.cacheHits + g.cacheMisses + 1
  {
  }

  /** A lookup never adds to the cache; other contents keep their entries. */
  lemma LookupKeepsOthers(m: PerformanceMonitor, g: MetricsCollector.Collector, content: string, other: string, now: int)
    requires other != content
    ensures var r := GetJudgeResultFromCache(m, g, content, now);
      r.monitor.judgeCache.Keys <= m.judgeCache.Keys
      && (other in m.judgeCache ==> other in r.monitor.judgeCache && r.monitor.judgeCache[other] == m.judgeCache[other])
  {
  }

  /** RecordPromotion: one more success or one more failure. */
  function RecordPromotion(m: PerformanceMonitor, success: bool): (r: PerformanceMonitor)
    ensures r.promotionSuccessCount + r.promotionFailCount == m.promotionSuccessCount + m.promotionFailCount + 1
    ensures success <==> r.promotionSuccessCount == m.promotionSuccessCount + 1
    ensures r == m.(promotionSuccessCount := r.promotionSuccessCount, promotionFailCount := r.promotionFailCount)
  {
    if success then m.(promotionSuccessCount := m.promotionSuccessCount + 1)
    else m.(promotionFailCount := m.promotionFailCount + 1)
  }

  /** RecordForgotten: add the number of memories forgotten in a pass. */
  function RecordForgotten(m: PerformanceMonitor, count: int): (r: PerformanceMonitor)
    ensures r.forgottenMemoriesCount - m.forgottenMemoriesCount == count
    ensures r == m.(forgottenMemoriesCount := r.forgottenMemoriesCount)
  {
    m.(forgottenMemoriesCount := m.forgottenMemoriesCount + count)
  }

  /** Two forgetting passes count as one pass of their total. */
  lemma RecordForgottenAdds(m: PerformanceMonitor, a: int, b: int)
    ensures RecordForgotten(RecordForgotten(m, a), b) == RecordForgotten(m, a + b)
  {
  }

  /** UpdateStagingQueueLength: overwrite the queue length. */
  function UpdateStagingQueueLength(m: PerformanceMonitor, length: int): (r: PerformanceMonitor)
    ensures r.stagingQueueLength == length
    ensures r == m.(stagingQueueLength := length)
  {
    m.(stagingQueueLength := length)
  }

  /** The numbers GetMetrics reports. */
  datatype Metrics = Metrics(
    stagingQueueLength: int,
    promotionSuccessCount: int,
    promotionFailCount: int,
    promotionSuccessRate: real,
    forgottenMemoriesCount: int,
    judgmentCacheHits: int,
    judgmentCacheMisses: int,
    judgmentCacheHitRate: real,
    judgmentCacheSize: nat)

  /**
   * GetMetrics: counters as they stand, success and hit rates in percent
   * (0 before anything was counted), and the number of cached verdicts.
   */
  function GetMetrics(m: PerformanceMonitor): (r: Metrics)
    ensures m.promotionSuccessCount + m.promotionFailCount <= 0 ==> r.promotionSuccessRate == 0.0
    ensures m.promotionSuccessCount + m.promotionFailCount > 0 ==>
      r.promotionSuccessRate * (m.promotionSuccessCount + m.promotionFailCount) as real
      == m.promotionSuccessCount as real * 100.0
    ensures m.judgmentCacheHits + m.judgmentCacheMisses <= 0 ==> r.judgmentCacheHitRate == 0.0
    ensures m.judgmentCacheHits + m.judgmentCacheMisses > 0 ==>
      r.judgmentCacheHitRate * (m.judgmentCacheHits + m.judgmentCacheMisses) as real == m.judgmentCacheHits as real * 100.0
    ensures 0 <= m.judgmentCacheHits && 0 <= m.judgmentCacheMisses ==> 0.0 <= r.judgmentCacheHitRate <= 100.0
    ensures r.judgmentCacheSize == |m.judgeCache|
    ensures r.stagingQueueLength == m.stagingQueueLength && r.forgottenMemoriesCount == m.forgottenMemoriesCount
  {
    Metrics(m.stagingQueueLength, m.promotionSuccessCount, m.promotionFailCount,
      MetricsCollector.Rate(m.promotionSuccessCount, m.promotionFailCount),
      m.forgottenMemoriesCount, m.judgmentCacheHits, m.judgmentCacheMisses,
      MetricsCollector.Rate(m.judgmentCacheHits, m.judgmentCacheMisses), |m.judgeCache|)
  }

  /** A monitor whose every lookup hit reports a 100% hit rate. */
  lemma AllHitsIsFullRate(m: PerformanceMonitor)
    requires m.judgmentCacheHits > 0 && m.judgmentCacheMisses == 0
    ensures GetMetrics(m).judgmentCacheHitRate == 100.0
  {
  }

  /** GetPerformanceMetrics: the pending staging entries, counted without thresholds. */
  function GetPerformanceMetrics(db: StagingStore.Db, order: seq<string>, now: int): (queueLength: nat)
    requires Seqs.Enumerates(order, db.Keys)
    ensures queueLength == MetricsCollector.StagingQueueLength(db, order, now)
    ensures queueLength <= |db|
  {
    |StagingStore.GetPendingEntries(db, order, now, 1, 0)|
  }
}
