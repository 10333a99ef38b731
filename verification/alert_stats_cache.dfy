/**
 * The statistics cache: the engine statistics and the per-level alert
 * counts, kept for a time-to-live and dropped whenever an alert is saved.
 */
module AlertStatsCache {
  import opened Wrappers
  import opened AlertTypes

  /** What the cache holds: the statistics and the counts per level. */
  datatype Snapshot = Snapshot(stats: EngineStats, levelCounts: map<string, int>)

  /** alert_stats_cache.go `StatsCache`; an empty or invalidated cache holds nothing. */
  datatype StatsCache = StatsCache(entry: Option<Snapshot>, cachedAt: int, ttl: int)

  /** NewStatsCache: nothing cached. */
  function NewStatsCache(ttl: int): (c: StatsCache)
    ensures c.entry.None? && c.ttl == ttl
  {
    StatsCache(None, 0, ttl)
  }

  /** GetStats: the snapshot while no more than the ttl has passed since it was stored. */
  function GetStats(c: StatsCache, now: int): (r: Option<Snapshot>)
    ensures r.Some? <==> c.entry.Some? && now - c.cachedAt <= c.ttl
    ensures r.Some? ==> r == c.entry
  {
    if c.entry.None? || now - c.cachedAt > c.ttl then None else c.entry
  }

  /** SetStats: store a snapshot stamped with the current time. */
  function SetStats(c: StatsCache, s: Snapshot, now: int): (r: StatsCache)
    ensures r.entry == Some(s) && r.cachedAt == now && r.ttl == c.ttl
  {
    StatsCache(Some(s), now, c.ttl)
  }

  /** Invalidate: drop the snapshot, keep the ttl. */
  function Invalidate(c: StatsCache): (r: StatsCache)
    ensures r.entry.None? && r.ttl == c.ttl
  {
    c.(entry := None)
  }

  /** A fresh cache misses at any time. */
  lemma NewCacheMisses(ttl: int, now: int)
    ensures GetStats(NewStatsCache(ttl), now).None?
  {
  }

  /** A stored snapshot is returned up to the ttl, the bound included, and not after. */
  lemma SetThenGet(c: StatsCache, s: Snapshot, now: int, later: int)
    ensures GetStats(SetStats(c, s, now), later) == (if later - now <= c.ttl then Some(s) else None)
  {
  }

  /** After Invalidate the next lookup misses, whatever the time. */
  lemma InvalidateThenMiss(c: StatsCache, now: int)
    ensures GetStats(Invalidate(c), now).None?
  {
  }
}
