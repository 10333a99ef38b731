/**
 * The engine's cached statistics read: the statistics and per-level
 * alert counts served from the 30-second cache when it holds them,
 * recomputed and stored otherwise; and dropping the cache, which firing
 * an alert does after saving it.
 */
module AlertStatsMethods {
  import opened Wrappers
  import opened AlertTypes
  import AlertStatsCache
  import AlertManagement
  import AlertEngine

  /** GetStatsWithCache's three results: statistics, counts per level (nil on error), error. */
  datatype StatsReply = StatsReply(stats: EngineStats, levelCounts: Option<map<string, int>>, error: Option<string>)

  /**
   * GetStatsWithCache: a cache hit is returned as stored; on a miss the
   * current statistics are returned with the fresh level counts, which
   * are then cached; a failed count returns the statistics and the error
   * and caches nothing. Nothing but the cache changes.
   */
  function GetStatsWithCache(e: AlertEngine.Engine, countOk: string -> bool, now: int): (r: (StatsReply, AlertEngine.Engine))
    ensures r.1 == e.(statsCache := r.1.statsCache)
    ensures AlertStatsCache.GetStats(e.statsCache, now).Some? ==>
      var s := AlertStatsCache.GetStats(e.statsCache, now).value;
      r == (StatsReply(s.stats, Some(s.levelCounts), None), e)
    ensures AlertStatsCache.GetStats(e.statsCache, now).None? && e.repository.None? ==>
      r == (StatsReply(e.stats, None, Some("repository not initialized")), e)
    ensures AlertStatsCache.GetStats(e.statsCache, now).None? && e.repository.Some? ==>
      var counts := AlertManagement.GetAlertsByLevel(e.repository, countOk);
      counts.Ok? && r.0 == StatsReply(e.stats, Some(counts.value), None)
      && r.1.statsCache.entry == Some(AlertStatsCache.Snapshot(e.stats, counts.value)) && r.1.statsCache.cachedAt == now
      && r.1.statsCache.ttl == e.statsCache.ttl
  {
    match AlertStatsCache.GetStats(e.statsCache, now)
    case Some(s) => (StatsReply(s.stats, Some(s.levelCounts), None), e)
    case None =>
      match AlertManagement.GetAlertsByLevel(e.repository, countOk)
      case Err(m) => (StatsReply(e.stats, None, Some(m)), e)
      case Ok(counts) =>
        (StatsReply(e.stats, Some(counts), None),
         e.(statsCache := AlertStatsCache.SetStats(e.statsCache, AlertStatsCache.Snapshot(e.stats, counts), now)))
  }

  /** InvalidateStatsCache: drop the cached snapshot; nothing else changes. */
  function InvalidateStatsCache(e: AlertEngine.Engine): (r: AlertEngine.Engine)
    ensures r == e.(statsCache := r.statsCache)
    ensures r.statsCache.entry.None? && r.statsCache.ttl == e.statsCache.ttl
  {
    e.(statsCache := AlertStatsCache.Invalidate(e.statsCache))
  }

  /**
   * Within the ttl of a read that recomputed, a second read repeats it,
   * even when the statistics and the repository changed in between: the
   * cache trades at most `ttl` seconds of staleness for fewer COUNT
   * queries.
   */
  lemma RepeatWithinTtl(e: AlertEngine.Engine, countOk: string -> bool, now: int, later: int,
                        stats: EngineStats, repository: Option<seq<Alert>>, countOk2: string -> bool)
    requires e.repository.Some? && AlertStatsCache.GetStats(e.statsCache, now).None?
    requires now <= later <= now + e.statsCache.ttl
    ensures var (first, e1) := GetStatsWithCache(e, countOk, now);
      GetStatsWithCache(e1.(stats := stats, repository := repository), countOk2, later).0 == first
  {
    var (first, e1) := GetStatsWithCache(e, countOk, now);
    AlertStatsCache.SetThenGet(e.statsCache, AlertStatsCache.Snapshot(e.stats, first.levelCounts.value), now, later);
  }

  /** After an invalidation the next read recomputes from the current statistics. */
  lemma InvalidatedReadIsFresh(e: AlertEngine.Engine, countOk: string -> bool, now: int)
    requires e.repository.Some?
    ensures GetStatsWithCache(InvalidateStatsCache(e), countOk, now).0.stats == e.stats
  {
  }

  /**
   * Saving a fired alert makes the next statistics read recompute, so a
   * fired alert is never hidden behind a stale snapshot.
   */
  lemma FiredAlertIsCounted(e: AlertEngine.Engine, a: Alert, notifyPanics: bool, countOk: string -> bool, now: int)
    requires e.maxRecentAlerts >= 0 && e.repository.Some?
    ensures var e1 := AlertEngine.FireAlert(e, a, true, notifyPanics);
      var reply := GetStatsWithCache(e1, countOk, now).0;
      reply.stats == e1.stats && reply.error.None?
      && reply.levelCounts == Some(AlertManagement.GetAlertsByLevel(Some(e.repository.value + [a]), countOk).value)
  {
  }
}
