/**
 * The alert engine: the four built-in rules and their checks, the sweep
 * that runs every enabled rule whose cooldown has passed, firing an alert
 * (aggregation, the in-memory ring of recent alerts, the repository, the
 * statistics cache, the notification), and the read and delete paths.
 *
 * Everything a sweep reads from outside is in `SweepEnv`: the clock, the
 * collector's counters, the pending-queue length (None when the staging
 * scan fails), whether the rule configurations load, the JSON reader for
 * the queue threshold, the verdicts of custom rules, and per rule
 * position the fresh UUID prefix, the measured check duration, whether
 * the alert insert succeeds and whether the notify callback panics.
 */
module AlertEngine {
  import opened Wrappers
  import Seqs
  import Types
  import opened AlertTypes
  import MetricsCollector
  import AlertRepository
  import AlertRulePersistence
  import AlertStatsPersistence
  import AlertEngineStatsSync
  import AlertStatsCache
  import AlertManagement

  /** alert_engine.go `CacheCheckConfig`; thresholds are percentages. */
  datatype CacheCheckConfig = CacheCheckConfig(windowMinutes: int, minSamples: int, warnThreshold: real,
                                               errorThreshold: real, trendPeriods: int)

  /** alert_engine.go `AlertConfig`, without the unused plain cache threshold. */
  datatype AlertConfig = AlertConfig(
    checkIntervalMinutes: int,
    queueBacklogThreshold: int,
    queueBacklogCooldownMinutes: int,
    successRateThreshold: real,
    successRateCooldownMinutes: int,
    cacheHitRateCooldownMinutes: int,
    decaySpikeThreshold: int,
    decaySpikeCooldownMinutes: int,
    historyMaxSize: int,
    cacheWindowMinutes: int,
    cacheMinSamples: int,
    cacheWarnThreshold: real,
    cacheErrorThreshold: real,
    cacheTrendPeriods: int)

  /**
   * alert_engine.go `AlertEngine`. The aggregation map, a package-level
   * variable in Go, travels with the engine here.
   */
  datatype Engine = Engine(
    rules: seq<AlertRule>,
    recentAlerts: seq<Alert>,
    maxRecentAlerts: int,
    checkInterval: int,
    hasNotify: bool,
    cacheCheck: CacheCheckConfig,
    stats: EngineStats,
    statsCache: AlertStatsCache.StatsCache,
    sync: Option<AlertEngineStatsSync.Sync>,
    repository: Option<AlertRepository.Table>,
    configs: Option<AlertRulePersistence.RuleConfigTable>,
    statsTable: Option<AlertStatsPersistence.StatsTable>,
    aggregations: AlertManagement.Aggregations)

  const StatsCacheTtl: int := 30
  const SecondsPerMinute: int := 60

  const QueueBacklogId: string := "queue_backlog"
  const LowSuccessRateId: string := "low_success_rate"
  const CacheAnomalyId: string := "cache_anomaly"
  const DecaySpikeId: string := "decay_spike"

  /** Nothing counted yet. */
  const NoStats: EngineStats := EngineStats(0, 0, 0, 0, map[])

  /** registerDefaultRules: the four built-in rules, enabled, cooldowns from minutes. */
  function DefaultRules(cfg: AlertConfig): (rs: seq<AlertRule>)
    ensures |rs| == 4
    ensures rs[0].id == QueueBacklogId && rs[1].id == LowSuccessRateId
    ensures rs[2].id == CacheAnomalyId && rs[3].id == DecaySpikeId
    ensures forall i :: 0 <= i < 4 ==> rs[i].enabled && rs[i].lastFired.None?
  {
    [ AlertRule(QueueBacklogId, "队列积压告警", "Staging队列长度超过阈值",
        QueueBacklog(cfg.queueBacklogThreshold), true, cfg.queueBacklogCooldownMinutes * SecondsPerMinute, None),
      AlertRule(LowSuccessRateId, "晋升成功率过低", "晋升成功率低于阈值",
        LowSuccessRate(cfg.successRateThreshold), true, cfg.successRateCooldownMinutes * SecondsPerMinute, None),
      AlertRule(CacheAnomalyId, "缓存命中率异常", "缓存命中率异常低或突降",
        CacheAnomaly([]), true, cfg.cacheHitRateCooldownMinutes * SecondsPerMinute, None),
      AlertRule(DecaySpikeId, "记忆衰减突增", "遗忘数量突增",
        DecaySpike(cfg.decaySpikeThreshold), true, cfg.decaySpikeCooldownMinutes * SecondsPerMinute, None) ]
  }

  /**
   * NewAlertEngine: the built-in rules, no recent alerts, zero statistics,
   * an empty 30-second statistics cache, and no persistence until
   * InitWithDB. Go's `make` panics on a negative history size.
   */
  function NewAlertEngine(repository: Option<AlertRepository.Table>, cfg: AlertConfig): (e: Engine)
    requires cfg.historyMaxSize >= 0
    ensures e.rules == DefaultRules(cfg) && e.recentAlerts == [] && e.maxRecentAlerts == cfg.historyMaxSize
    ensures e.stats == NoStats && e.statsCache.entry.None? && e.statsCache.ttl == StatsCacheTtl
    ensures e.repository == repository && e.sync.None? && e.configs.None? && e.statsTable.None?
    ensures Valid(e)
  {
    Engine(DefaultRules(cfg), [], cfg.historyMaxSize, cfg.checkIntervalMinutes * SecondsPerMinute, false,
      CacheCheckConfig(cfg.cacheWindowMinutes, cfg.cacheMinSamples, cfg.cacheWarnThreshold,
        cfg.cacheErrorThreshold, cfg.cacheTrendPeriods),
      NoStats, AlertStatsCache.NewStatsCache(StatsCacheTtl), None, repository, None, None, map[])
  }

  /** The engine's standing invariant: the recent-alert buffer is within its bound. */
  predicate Valid(e: Engine)
  {
    e.maxRecentAlerts >= 0 && |e.recentAlerts| <= e.maxRecentAlerts
  }

  /** AddRule: append a rule; nothing else changes. */
  function AddRule(e: Engine, rule: AlertRule): (r: Engine)
    ensures r.rules == e.rules + [rule]
    ensures r == e.(rules := r.rules)
  {
    e.(rules := e.rules + [rule])
  }

  // ---------- the checks ----------

  /** Go's `int(x)` on a float64: truncation toward zero. */
  function TruncToInt(x: real): (n: int)
    ensures x >= 0.0 ==> n as real <= x < n as real + 1.0
    ensures x < 0.0 ==> n as real - 1.0 < x <= n as real
  {
    if x >= 0.0 then x.Floor else -((-x).Floor)
  }

  /**
   * The queue threshold: the stored configuration's "threshold" when the
   * configurations load, the queue rule has a non-empty JSON, and the JSON
   * holds a number there (`parse`); the default otherwise.
   */
  function QueueThreshold(configs: Option<AlertRulePersistence.RuleConfigTable>, loadOk: bool,
                          parse: string -> Option<real>, default: int): (t: int)
    ensures (configs.Some? && loadOk && QueueBacklogId in configs.value
             && configs.value[QueueBacklogId].configJson != ""
             && parse(configs.value[QueueBacklogId].configJson).Some?)
      ==> t == TruncToInt(parse(configs.value[QueueBacklogId].configJson).value)
    ensures configs.None? || !loadOk ==> t == default
  {
    match configs
    case None => default
    case Some(table) =>
      match AlertRulePersistence.LoadAll(table, loadOk)
      case Err(_) => default
      case Ok(loaded) =>
        if QueueBacklogId in loaded && loaded[QueueBacklogId].configJson != "" then
          match parse(loaded[QueueBacklogId].configJson)
          case Some(x) => TruncToInt(x)
          case None => default
        else default
  }

  /** An alert as the built-in checks build it: ID "<rule>_<uuid prefix>", stamped now. */
  function MakeAlert(rule: string, uid: string, level: string, message: string, now: int, metadata: Types.Metadata): (a: Alert)
    ensures a.rule == rule && a.level == level && a.timestamp == now && a.id == rule + "_" + uid
  {
    Alert(rule + "_" + uid, level, rule, message, now, metadata)
  }

  /** The queue-backlog check: a warning when more entries are pending than the threshold. */
  function QueueBacklogCheck(pending: Option<nat>, threshold: int, now: int, uid: string): (r: Option<Alert>)
    ensures r.Some? <==> pending.Some? && pending.value > threshold
    ensures r.Some? ==>
      r.value.level == LevelWarning && r.value.rule == QueueBacklogId && r.value.timestamp == now
      && r.value.metadata == map["queue_length" := Types.VInt(pending.value), "threshold" := Types.VInt(threshold)]
  {
    match pending
    case None => None
    case Some(n) =>
      if n > threshold then
        Some(MakeAlert(QueueBacklogId, uid, LevelWarning, "Staging队列积压过多，请检查晋升逻辑", now,
          map["queue_length" := Types.VInt(n), "threshold" := Types.VInt(threshold)]))
      else None
  }

  /** The minimum number of promotion attempts before the success rate is judged. */
  const MinAttempts: int := 10

  /**
   * The low-success-rate check: with at least ten attempts, a warning when
   * the promotion success percentage is below the threshold.
   */
  function LowSuccessRateCheck(c: MetricsCollector.Collector, minRate: real, now: int, uid: string): (r: Option<Alert>)
    ensures r.Some? <==> c.totalPromotions + c.totalRejections >= MinAttempts
                         && MetricsCollector.Rate(c.totalPromotions, c.totalRejections) < minRate
    ensures r.Some? ==> r.value.level == LevelWarning && r.value.rule == LowSuccessRateId
  {
    var attempts := c.totalPromotions + c.totalRejections;
    if attempts < MinAttempts then None
    else
      var rate := c.totalPromotions as real / attempts as real * 100.0;
      if rate < minRate then
        Some(MakeAlert(LowSuccessRateId, uid, LevelWarning, "记忆晋升成功率过低，可能是判定标准过严", now,
          map["success_rate" := Types.VReal(rate), "threshold" := Types.VReal(minRate), "attempts" := Types.VInt(attempts)]))
      else None
  }

  /** Every rate in the history is a number (no 0/0 among them). */
  predicate AllKnown(h: seq<Option<real>>)
  {
    forall i :: 0 <= i < |h| ==> h[i].Some?
  }

  /** The numbers of a history with no NaN. */
  function Known(h: seq<Option<real>>): (r: seq<real>)
    requires AllKnown(h)
    ensures |r| == |h| && forall i :: 0 <= i < |h| ==> r[i] == h[i].value
  {
    seq(|h|, i requires 0 <= i < |h| => h[i].value)
  }

  /** The mean of a non-empty history; NaN (None) when any element is NaN. */
  function Average(h: seq<Option<real>>): (r: Option<real>)
    requires |h| > 0
    ensures r.Some? <==> AllKnown(h)
    ensures r.Some? ==> r.value * |h| as real == Seqs.Sum(Known(h))
  {
    if AllKnown(h) then Some(Seqs.Sum(Known(h)) / |h| as real) else None
  }

  /** `x < bound` with NaN comparing false. */
  predicate Below(x: Option<real>, bound: real)
  {
    x.Some? && x.value < bound
  }

  /** The history after appending the current rate, oldest dropped when it grows past the window. */
  function NextHistory(history: seq<Option<real>>, rate: Option<real>, periods: int): (h: seq<Option<real>>)
    ensures |history| < periods ==> h == history + [rate]
    ensures |history| >= periods ==> h == (history + [rate])[1..]
  {
    var h := history + [rate];
    if |h| > periods then h[1..] else h
  }

  /** Keeping the history within the window is preserved by each update. */
  lemma NextHistoryBounded(history: seq<Option<real>>, rate: Option<real>, periods: int)
    requires |history| <= Seqs.Max(periods, 0)
    ensures |NextHistory(history, rate, periods)| <= Seqs.Max(periods, 0)
    ensures |history| >= 1 && periods >= 1 ==> NextHistory(history, rate, periods)[|NextHistory(history, rate, periods)| - 1] == rate
  {
  }

  /**
   * A sudden drop: the window is full and the current rate is more than
   * 20 points below the mean of the earlier rates. With fewer than two
   * rates Go divides by zero (0/0, or -0 for an empty window), which
   * never signals a drop for a non-negative rate.
   */
  predicate Drop(h: seq<Option<real>>, periods: int, rate: Option<real>)
  {
    |h| >= periods && |h| >= 2 && rate.Some?
    && var avg := Average(h[..|h| - 1]);
    avg.Some? && avg.value - rate.value > 20.0
  }

  const DropMessage: string := "缓存命中率突降，可能LLM判定逻辑故障"
  const LowHitMessage: string := "缓存命中率异常低"

  /**
   * The cache-anomaly check. Below `minSamples` accesses nothing happens
   * (not even to the history). Otherwise the hit percentage is an error
   * below the error threshold, a warning below the warning threshold, and
   * at least a warning on a sudden drop; the history takes the new rate.
   */
  function CacheAnomalyCheck(c: MetricsCollector.Collector, cfg: CacheCheckConfig, history: seq<Option<real>>,
                             now: int, uid: string): (r: (Option<Alert>, seq<Option<real>>))
    ensures c.cacheHits + c.cacheMisses < cfg.minSamples ==> r == (None, history)
    ensures c.cacheHits + c.cacheMisses >= cfg.minSamples ==>
      var total := c.cacheHits + c.cacheMisses;
      var rate := if total == 0 then None else Some(c.cacheHits as real / total as real * 100.0);
      r.1 == NextHistory(history, rate, cfg.trendPeriods)
      && (r.0.Some? <==> Below(rate, cfg.warnThreshold) || Below(rate, cfg.errorThreshold) || Drop(r.1, cfg.trendPeriods, rate))
      && (r.0.Some? ==>
            r.0.value.rule == CacheAnomalyId
            && (r.0.value.level == LevelError <==> Below(rate, cfg.errorThreshold))
            && (r.0.value.message == DropMessage <==> Drop(r.1, cfg.trendPeriods, rate)))
  {
    var total := c.cacheHits + c.cacheMisses;
    if total < cfg.minSamples then (None, history)
    else
      var rate := if total == 0 then None else Some(c.cacheHits as real / total as real * 100.0);
      var level: Option<string> :=
        if Below(rate, cfg.errorThreshold) then Some(LevelError)
        else if Below(rate, cfg.warnThreshold) then Some(LevelWarning)
        else None;
      var h := NextHistory(history, rate, cfg.trendPeriods);
      var trend := Drop(h, cfg.trendPeriods, rate);
      if level.None? && !trend then (None, h)
      else
        var message := if trend then DropMessage else LowHitMessage;
        var alert := MakeAlert(CacheAnomalyId, uid, level.UnwrapOr(LevelWarning), message, now,
          map["hit_rate" := Types.VReal(rate.value), "warn_threshold" := Types.VReal(cfg.warnThreshold),
              "error_threshold" := Types.VReal(cfg.errorThreshold), "total_access" := Types.VInt(total),
              "trend_detected" := Types.VBool(trend)]);
        (Some(alert), h)
  }

  /** A steady rate never counts as a drop. */
  lemma SteadyRateNoDrop(h: seq<Option<real>>, periods: int, x: real)
    requires forall i :: 0 <= i < |h| ==> h[i] == Some(x)
    ensures !Drop(h, periods, Some(x))
  {
    if |h| >= periods && |h| >= 2 {
      var init := h[..|h| - 1];
      SumConstant(Known(init), x);
    }
  }

  /** The sum of n copies of x is n * x. */
  lemma {:induction false} SumConstant(s: seq<real>, x: real)
    requires forall i :: 0 <= i < |s| ==> s[i] == x
    ensures Seqs.Sum(s) == |s| as real * x
  {
    if s != [] {
      SumConstant(s[1..], x);
    }
  }

  /** The decay-spike check: an informational alert when more memories were forgotten than the threshold. */
  function DecaySpikeCheck(c: MetricsCollector.Collector, maxForgotten: int, now: int, uid: string): (r: Option<Alert>)
    ensures r.Some? <==> c.totalForgotten > maxForgotten
    ensures r.Some? ==>
      r.value.level == LevelInfo && r.value.rule == DecaySpikeId
      && r.value.metadata == map["forgotten" := Types.VInt(c.totalForgotten), "threshold" := Types.VInt(maxForgotten)]
  {
    if c.totalForgotten > maxForgotten then
      Some(MakeAlert(DecaySpikeId, uid, LevelInfo, "记忆遗忘数量较高，这可能是正常的衰减", now,
        map["forgotten" := Types.VInt(c.totalForgotten), "threshold" := Types.VInt(maxForgotten)]))
    else None
  }

  /** What one sweep reads from outside. */
  datatype SweepEnv = SweepEnv(
    now: int,
    collector: MetricsCollector.Collector,
    pending: Option<nat>,
    configsLoadOk: bool,
    parseThreshold: string -> Option<real>,
    custom: string -> Option<Alert>,
    uids: nat -> string,
    durations: nat -> int,
    saveOk: nat -> bool,
    notifyPanics: nat -> bool)

  /** Run one rule's check: its alert, if any, and the rule with its check state advanced. */
  function CheckRule(configs: Option<AlertRulePersistence.RuleConfigTable>, cacheCheck: CacheCheckConfig,
                     rule: AlertRule, env: SweepEnv, i: nat): (r: (Option<Alert>, AlertRule))
    ensures r.1 == rule.(kind := r.1.kind)
    ensures !rule.kind.CacheAnomaly? ==> r.1 == rule
    ensures rule.kind.CacheAnomaly? ==> r.1.kind.CacheAnomaly?
  {
    match rule.kind
    case QueueBacklog(d) =>
      (QueueBacklogCheck(env.pending, QueueThreshold(configs, env.configsLoadOk, env.parseThreshold, d), env.now, env.uids(i)), rule)
    case LowSuccessRate(m) => (LowSuccessRateCheck(env.collector, m, env.now, env.uids(i)), rule)
    case CacheAnomaly(h) =>
      var (a, h') := CacheAnomalyCheck(env.collector, cacheCheck, h, env.now, env.uids(i));
      (a, rule.(kind := CacheAnomaly(h')))
    case DecaySpike(m) => (DecaySpikeCheck(env.collector, m, env.now, env.uids(i)), rule)
    case Custom => (env.custom(rule.id), rule)
  }

  // ---------- firing ----------

  /** Append an alert to the buffer and keep only the newest `max`. */
  function PushRecent(recent: seq<Alert>, a: Alert, max: int): (r: seq<Alert>)
    requires max >= 0
    ensures |r| == Seqs.Min(|recent| + 1, max)
    ensures Seqs.IsSuffix(r, recent + [a])
    ensures max > 0 ==> r[|r| - 1] == a
  {
    var s := recent + [a];
    if |s| > max then s[|s| - max..] else s
  }

  /**
   * fireAlert: aggregate, push onto the recent buffer, insert into the
   * repository (counting the outcome, and dropping the cached statistics
   * on success), then run the notify callback, which counts a success
   * unless it panics.
   */
  function FireAlert(e: Engine, a: Alert, saveOk: bool, notifyPanics: bool): (r: Engine)
    requires e.maxRecentAlerts >= 0
    ensures r.rules == e.rules && r.maxRecentAlerts == e.maxRecentAlerts
    ensures r.configs == e.configs && r.cacheCheck == e.cacheCheck
    ensures r.recentAlerts == PushRecent(e.recentAlerts, a, e.maxRecentAlerts)
    ensures r.aggregations == AlertManagement.AggregateAlert(e.aggregations, a).0
    ensures e.repository.None? ==> r.repository.None?
    ensures e.repository.Some? ==> r.repository == Some(if saveOk then e.repository.value + [a] else e.repository.value)
    ensures e.repository.Some? && saveOk ==> r.statsCache.entry.None?
    ensures r.stats.totalChecks == e.stats.totalChecks && r.stats.totalFired == e.stats.totalFired
    ensures r.stats.ruleStats == e.stats.ruleStats
    ensures r.sync.Some? <==> e.sync.Some?
  {
    var e1 := e.(aggregations := AlertManagement.AggregateAlert(e.aggregations, a).0,
                 recentAlerts := PushRecent(e.recentAlerts, a, e.maxRecentAlerts));
    var e2 := match e1.repository
      case None => e1
      case Some(_) =>
        match AlertRepository.Save(e1.repository, a, saveOk)
        case Err(_) =>
          var (s, y) := AlertManagement.RecordNotifyResult(e1.stats, e1.sync, false);
          e1.(stats := s, sync := y)
        case Ok(t) =>
          var (s, y) := AlertManagement.RecordNotifyResult(e1.stats, e1.sync, true);
          e1.(stats := s, sync := y, repository := Some(t), statsCache := AlertStatsCache.Invalidate(e1.statsCache));
    if e2.hasNotify then
      var (s, y) := AlertManagement.RecordNotifyResult(e2.stats, e2.sync, !notifyPanics);
      e2.(stats := s, sync := y)
    else e2
  }

  /** Firing keeps the in-memory totals in step with the persisted ones. */
  lemma FireAlertKeepsSync(e: Engine, a: Alert, saveOk: bool, notifyPanics: bool, persisted: AlertStatsPersistence.Totals)
    requires e.maxRecentAlerts >= 0
    requires e.sync.Some? && AlertManagement.InSync(e.stats, e.sync.value, persisted)
    ensures var r := FireAlert(e, a, saveOk, notifyPanics);
      r.sync.Some? && AlertManagement.InSync(r.stats, r.sync.value, persisted)
  {
  }

  /** Firing keeps the engine valid. */
  lemma FireAlertKeepsValid(e: Engine, a: Alert, saveOk: bool, notifyPanics: bool)
    requires Valid(e)
    ensures Valid(FireAlert(e, a, saveOk, notifyPanics))
  {
  }

  // ---------- the sweep ----------

  /**
   * How a sweep at `now` may change a rule: only its check state and its
   * firing time; not at all when it is disabled or cooling down; and a
   * changed firing time is `now`.
   */
  predicate Advanced(before: AlertRule, after: AlertRule, now: int)
  {
    after == before.(kind := after.kind, lastFired := after.lastFired)
    && (!before.enabled || !ShouldFire(before, now) ==> after == before)
    && (after.lastFired != before.lastFired ==> after.lastFired == Some(now))
  }

  /**
   * The firing time a sweep at `env.now` gives the rule at position j:
   * now when the rule is enabled, out of cooldown and its check raises an
   * alert; its previous firing time otherwise.
   */
  function FiringTime(e: Engine, env: SweepEnv, j: nat): Option<int>
    requires j < |e.rules|
  {
    var due := e.rules[j].enabled && ShouldFire(e.rules[j], env.now);
    if due && CheckRule(e.configs, e.cacheCheck, e.rules[j], env, j).0.Some? then Some(env.now)
    else e.rules[j].lastFired
  }

  /**
   * What a sweep at `env.now` does to the rule at position j of `e`, ending
   * in `r`: the rule advances and takes its firing time.
   */
  predicate Swept(e: Engine, r: Engine, env: SweepEnv, j: nat)
    requires j < |e.rules| && j < |r.rules|
  {
    Advanced(e.rules[j], r.rules[j], env.now) && r.rules[j].lastFired == FiringTime(e, env, j)
  }

  /**
   * How a sweep counts a check: as written, recordRuleCheck leaves the
   * engine's TotalChecks alone; corrected, it counts the check there too.
   */
  datatype Counting = AsWritten | Corrected

  /** recordRuleCheck under the given counting. */
  function RecordCheckBy(counting: Counting, stats: EngineStats, sync: Option<AlertEngineStatsSync.Sync>,
                         ruleId: string, duration: int): (r: (EngineStats, Option<AlertEngineStatsSync.Sync>))
    ensures r.0.totalChecks == stats.totalChecks + (if counting == Corrected then 1 else 0)
    ensures r.0.totalFired == stats.totalFired
    ensures r.0.notifySuccess == stats.notifySuccess && r.0.notifyFailed == stats.notifyFailed
    ensures r.1.Some? <==> sync.Some?
    ensures sync.Some? ==> r.1.value.pending == AlertStatsPersistence.Add(sync.value.pending, AlertStatsPersistence.Totals(1, 0, 0))
  {
    match counting
    case AsWritten => AlertManagement.RecordRuleCheckAsWritten(stats, sync, ruleId, duration)
    case Corrected => AlertManagement.RecordRuleCheck(stats, sync, ruleId, duration)
  }

  /** The rule is enabled and out of cooldown at `now`, so a sweep checks it. */
  predicate Due(rule: AlertRule, now: int)
  {
    rule.enabled && ShouldFire(rule, now)
  }

  /** The number of rules from position i on that a sweep at `now` checks. */
  function DueFrom(rules: seq<AlertRule>, now: int, i: nat): (n: nat)
    requires i <= |rules|
    ensures n <= |rules| - i
    decreases |rules| - i
  {
    if i == |rules| then 0 else (if Due(rules[i], now) then 1 else 0) + DueFrom(rules, now, i + 1)
  }

  /** Rules that agree from position i on have as many due rules from there. */
  lemma {:induction false} DueFromSame(a: seq<AlertRule>, b: seq<AlertRule>, now: int, i: nat)
    requires |a| == |b| && i <= |a|
    requires forall j :: i <= j < |a| ==> a[j] == b[j]
    ensures DueFrom(a, now, i) == DueFrom(b, now, i)
    decreases |a| - i
  {
    if i < |a| {
      DueFromSame(a, b, now, i + 1);
    }
  }

  /**
   * One step of checkAllRules for the rule at position i: skip it when it
   * is disabled or cooling down; otherwise run its check and count it, and
   * on an alert fire it, count the firing and mark the rule fired.
   */
  function Step(e: Engine, env: SweepEnv, i: nat, counting: Counting): (r: Engine)
    requires i < |e.rules| && e.maxRecentAlerts >= 0
    ensures |r.rules| == |e.rules| && r.maxRecentAlerts == e.maxRecentAlerts
    ensures forall j :: 0 <= j < |e.rules| && j != i ==> r.rules[j] == e.rules[j]
    ensures Swept(e, r, env, i)
    ensures !Due(e.rules[i], env.now) ==> r == e
    ensures r.configs == e.configs && r.cacheCheck == e.cacheCheck
    ensures r.sync.Some? <==> e.sync.Some?
    ensures r.statsTable == e.statsTable
    ensures e.repository.Some? ==> r.repository.Some? && Seqs.IsPrefix(e.repository.value, r.repository.value)
    ensures |e.recentAlerts| <= e.maxRecentAlerts ==> |r.recentAlerts| <= r.maxRecentAlerts
    ensures r.stats.totalChecks == e.stats.totalChecks + (if counting == Corrected && Due(e.rules[i], env.now) then 1 else 0)
  {
    if !Due(e.rules[i], env.now) then e else StepDue(e, env, i, counting)
  }

  /** A step at position i whose rule is due: check it, then fire on an alert. */
  function StepDue(e: Engine, env: SweepEnv, i: nat, counting: Counting): (r: Engine)
    requires i < |e.rules| && e.maxRecentAlerts >= 0 && Due(e.rules[i], env.now)
    ensures |r.rules| == |e.rules| && r.maxRecentAlerts == e.maxRecentAlerts
    ensures forall j :: 0 <= j < |e.rules| && j != i ==> r.rules[j] == e.rules[j]
    ensures Swept(e, r, env, i)
    ensures r.configs == e.configs && r.cacheCheck == e.cacheCheck
    ensures r.sync.Some? <==> e.sync.Some?
    ensures r.statsTable == e.statsTable
    ensures e.repository.Some? ==> r.repository.Some? && Seqs.IsPrefix(e.repository.value, r.repository.value)
    ensures |e.recentAlerts| <= e.maxRecentAlerts ==> |r.recentAlerts| <= r.maxRecentAlerts
    ensures r.stats.totalChecks == e.stats.totalChecks + (if counting == Corrected then 1 else 0)
  {
    var (e1, alert) := CheckDue(e, env, i, counting);
    assert e1.maxRecentAlerts == e.maxRecentAlerts && e1.recentAlerts == e.recentAlerts
      && e1.repository == e.repository && e1.configs == e.configs && e1.cacheCheck == e.cacheCheck
      && e1.statsTable == e.statsTable;
    assert FiringTime(e, env, i) == if alert.Some? then Some(env.now) else e.rules[i].lastFired;
    match alert
    case None => e1
    case Some(a) => FireFor(e1, a, env, i)
  }

  /** Run the check of the rule at position i and count it. */
  function CheckDue(e: Engine, env: SweepEnv, i: nat, counting: Counting): (r: (Engine, Option<Alert>))
    requires i < |e.rules|
    ensures r.0 == e.(stats := r.0.stats, sync := r.0.sync, rules := r.0.rules)
    ensures r.1 == CheckRule(e.configs, e.cacheCheck, e.rules[i], env, i).0
    ensures |r.0.rules| == |e.rules| && forall j :: 0 <= j < |e.rules| && j != i ==> r.0.rules[j] == e.rules[j]
    ensures r.0.rules[i] == e.rules[i].(kind := r.0.rules[i].kind)
    ensures r.0.sync.Some? <==> e.sync.Some?
    ensures r.0.stats.totalChecks == e.stats.totalChecks + (if counting == Corrected then 1 else 0)
  {
    var rule := e.rules[i];
    var (alert, rule') := CheckRule(e.configs, e.cacheCheck, rule, env, i);
    var (stats1, sync1) := RecordCheckBy(counting, e.stats, e.sync, rule.id, env.durations(i));
    (e.(stats := stats1, sync := sync1, rules := e.rules[i := rule']), alert)
  }

  /** Fire the alert the rule at position i raised, count the firing, and mark the rule fired. */
  function FireFor(e: Engine, a: Alert, env: SweepEnv, i: nat): (r: Engine)
    requires i < |e.rules| && e.maxRecentAlerts >= 0
    ensures |r.rules| == |e.rules| && r.maxRecentAlerts == e.maxRecentAlerts
    ensures forall j :: 0 <= j < |e.rules| && j != i ==> r.rules[j] == e.rules[j]
    ensures r.rules[i] == e.rules[i].(lastFired := Some(env.now))
    ensures r.configs == e.configs && r.cacheCheck == e.cacheCheck
    ensures r.sync.Some? <==> e.sync.Some?
    ensures r.statsTable == e.statsTable
    ensures e.repository.Some? ==> r.repository.Some? && Seqs.IsPrefix(e.repository.value, r.repository.value)
    ensures |e.recentAlerts| <= e.maxRecentAlerts ==> |r.recentAlerts| <= r.maxRecentAlerts
    ensures r.stats.totalChecks == e.stats.totalChecks
  {
    var e2 := FireAlert(e, a, env.saveOk(i), env.notifyPanics(i));
    assert e.repository.Some? ==> e2.repository.Some? && Seqs.IsPrefix(e.repository.value, e2.repository.value) by {
      if e.repository.Some? {
        assert e.repository.value + [] == e.repository.value;
      }
    }
    assert |e.recentAlerts| <= e.maxRecentAlerts ==> |e2.recentAlerts| <= e2.maxRecentAlerts;
    var marked := e.rules[i := MarkFired(e.rules[i], env.now)];
    var stats := AlertManagement.RecordRuleFire(e2.stats, e.rules[i].id, env.now);
    e2.(stats := stats, rules := marked)
  }

  /** checkAllRules from position i on. */
  function SweepFrom(e: Engine, env: SweepEnv, i: nat, counting: Counting): (r: Engine)
    requires i <= |e.rules| && e.maxRecentAlerts >= 0
    ensures |r.rules| == |e.rules| && r.maxRecentAlerts == e.maxRecentAlerts
    ensures forall j :: 0 <= j < i ==> r.rules[j] == e.rules[j]
    ensures forall j :: i <= j < |e.rules| ==> Swept(e, r, env, j)
    ensures r.configs == e.configs && r.cacheCheck == e.cacheCheck
    ensures r.sync.Some? <==> e.sync.Some?
    ensures r.statsTable == e.statsTable
    ensures e.repository.Some? ==> r.repository.Some? && Seqs.IsPrefix(e.repository.value, r.repository.value)
    ensures |e.recentAlerts| <= e.maxRecentAlerts ==> |r.recentAlerts| <= r.maxRecentAlerts
    ensures r.stats.totalChecks == e.stats.totalChecks + (if counting == Corrected then DueFrom(e.rules, env.now, i) else 0)
    decreases |e.rules| - i
  {
    if i == |e.rules| then e
    else
      var e1 := Step(e, env, i, counting);
      var r := SweepFrom(e1, env, i + 1, counting);
      LaterRulesSwept(e, e1, r, env, i);
      DueFromSame(e.rules, e1.rules, env.now, i + 1);
      r
  }

  /**
   * A step at position i leaves every later rule and the configuration its
   * check reads as they were, so sweeping them from the step's result is
   * sweeping them from the start.
   */
  lemma LaterRulesSwept(e: Engine, e1: Engine, r: Engine, env: SweepEnv, i: nat)
    requires |e1.rules| == |e.rules| == |r.rules| && i < |e.rules|
    requires forall j :: 0 <= j < |e.rules| && j != i ==> e1.rules[j] == e.rules[j]
    requires e1.configs == e.configs && e1.cacheCheck == e.cacheCheck
    requires forall j :: i < j < |e.rules| ==> Swept(e1, r, env, j)
    ensures forall j :: i < j < |e.rules| ==> Swept(e, r, env, j)
  {
    forall j | i < j < |e.rules|
      ensures Swept(e, r, env, j)
    {
      assert Swept(e1, r, env, j);
    }
  }

  /** The rule facts of a whole sweep, whichever way it counts checks. */
  lemma SweepRules(e: Engine, env: SweepEnv, counting: Counting)
    requires e.maxRecentAlerts >= 0
    ensures var r := SweepFrom(e, env, 0, counting);
      forall j :: 0 <= j < |e.rules| ==>
        Advanced(e.rules[j], r.rules[j], env.now) && r.rules[j].lastFired == FiringTime(e, env, j)
  {
    var r := SweepFrom(e, env, 0, counting);
    forall j | 0 <= j < |e.rules|
      ensures Advanced(e.rules[j], r.rules[j], env.now) && r.rules[j].lastFired == FiringTime(e, env, j)
    {
      assert Swept(e, r, env, j);
    }
  }

  /**
   * checkAllRules: exactly the due rules whose check raises an alert are
   * marked fired, at the sweep's time (the check of a rule sees the same
   * configuration whatever earlier rules did); a rule that is disabled or
   * cooling down is left exactly as it was; a rule's identity, flag and
   * cooldown never change; the repository only grows and the recent buffer
   * stays within its bound. As written, the engine's TotalChecks does not
   * move, however many rules were checked.
   */
  function CheckAllRules(e: Engine, env: SweepEnv): (r: Engine)
    requires e.maxRecentAlerts >= 0
    ensures |r.rules| == |e.rules|
    ensures forall j :: 0 <= j < |e.rules| ==> Advanced(e.rules[j], r.rules[j], env.now)
    ensures forall j :: 0 <= j < |e.rules| ==> r.rules[j].lastFired == FiringTime(e, env, j)
    ensures e.repository.Some? ==> r.repository.Some? && Seqs.IsPrefix(e.repository.value, r.repository.value)
    ensures Valid(e) ==> Valid(r)
    ensures r.stats.totalChecks == e.stats.totalChecks
  {
    SweepRules(e, env, AsWritten);
    SweepFrom(e, env, 0, AsWritten)
  }

  /**
   * checkAllRules with the check counted in TotalChecks: the same rule
   * facts, and TotalChecks grows by the number of rules checked.
   */
  function CheckAllRulesCorrected(e: Engine, env: SweepEnv): (r: Engine)
    requires e.maxRecentAlerts >= 0
    ensures |r.rules| == |e.rules|
    ensures forall j :: 0 <= j < |e.rules| ==> Advanced(e.rules[j], r.rules[j], env.now)
    ensures forall j :: 0 <= j < |e.rules| ==> r.rules[j].lastFired == FiringTime(e, env, j)
    ensures e.repository.Some? ==> r.repository.Some? && Seqs.IsPrefix(e.repository.value, r.repository.value)
    ensures Valid(e) ==> Valid(r)
    ensures r.stats.totalChecks == e.stats.totalChecks + DueFrom(e.rules, env.now, 0)
  {
    SweepRules(e, env, Corrected);
    SweepFrom(e, env, 0, Corrected)
  }

  /** Persisted totals with `lag` fewer checks: what memory has counted when it misses `lag` checks. */
  function Lagging(persisted: AlertStatsPersistence.Totals, lag: int): AlertStatsPersistence.Totals
  {
    persisted.(checks := persisted.checks - lag)
  }

  /**
   * One step: memory and storage stay in step, except that as written a
   * checked rule is counted only in the pending deltas, so memory falls
   * one check behind.
   */
  lemma StepSync(e: Engine, env: SweepEnv, i: nat, counting: Counting, persisted: AlertStatsPersistence.Totals)
    requires i < |e.rules| && e.maxRecentAlerts >= 0
    requires e.sync.Some? && AlertManagement.InSync(e.stats, e.sync.value, persisted)
    ensures var r := Step(e, env, i, counting);
      var lag := if counting == AsWritten && Due(e.rules[i], env.now) then 1 else 0;
      r.sync.Some? && AlertManagement.InSync(r.stats, r.sync.value, Lagging(persisted, lag))
  {
    var rule := e.rules[i];
    if Due(rule, env.now) {
      var (e1, alert) := CheckDue(e, env, i, counting);
      var lagged := Lagging(persisted, if counting == AsWritten then 1 else 0);
      assert AlertManagement.InSync(e1.stats, e1.sync.value, lagged);
      if alert.Some? {
        FireAlertKeepsSync(e1, alert.value, env.saveOk(i), env.notifyPanics(i), lagged);
      }
    }
  }

  /**
   * A whole sweep: memory ends exactly as many checks behind storage as
   * the sweep missed, which is every checked rule as written and none
   * when corrected.
   */
  lemma {:induction false} SweepSync(e: Engine, env: SweepEnv, i: nat, counting: Counting,
                                     persisted: AlertStatsPersistence.Totals)
    requires i <= |e.rules| && e.maxRecentAlerts >= 0
    requires e.sync.Some? && AlertManagement.InSync(e.stats, e.sync.value, persisted)
    ensures var r := SweepFrom(e, env, i, counting);
      var lag := if counting == AsWritten then DueFrom(e.rules, env.now, i) else 0;
      r.sync.Some? && AlertManagement.InSync(r.stats, r.sync.value, Lagging(persisted, lag))
    decreases |e.rules| - i
  {
    if i < |e.rules| {
      var e1 := Step(e, env, i, counting);
      StepSync(e, env, i, counting, persisted);
      var lag1 := if counting == AsWritten && Due(e.rules[i], env.now) then 1 else 0;
      SweepSync(e1, env, i + 1, counting, Lagging(persisted, lag1));
      DueFromSame(e.rules, e1.rules, env.now, i + 1);
    }
  }

  /** Corrected, one step keeps the in-memory totals in step with the persisted ones. */
  lemma StepKeepsSync(e: Engine, env: SweepEnv, i: nat, persisted: AlertStatsPersistence.Totals)
    requires i < |e.rules| && e.maxRecentAlerts >= 0
    requires e.sync.Some? && AlertManagement.InSync(e.stats, e.sync.value, persisted)
    ensures var r := Step(e, env, i, Corrected);
      r.sync.Some? && AlertManagement.InSync(r.stats, r.sync.value, persisted)
  {
    StepSync(e, env, i, Corrected, persisted);
  }

  /**
   * Corrected, a whole sweep keeps the in-memory totals in step with the
   * persisted ones, so a later flush writes exactly what was counted.
   */
  lemma SweepKeepsSync(e: Engine, env: SweepEnv, persisted: AlertStatsPersistence.Totals)
    requires e.maxRecentAlerts >= 0
    requires e.sync.Some? && AlertManagement.InSync(e.stats, e.sync.value, persisted)
    ensures var r := CheckAllRulesCorrected(e, env);
      r.sync.Some? && AlertManagement.InSync(r.stats, r.sync.value, persisted)
  {
    SweepSync(e, env, 0, Corrected, persisted);
  }

  /**
   * As written, a sweep that checks any rule leaves memory out of step
   * with storage: TotalChecks misses every check of the sweep while the
   * pending deltas carry them to the database.
   */
  lemma SweepAsWrittenDrifts(e: Engine, env: SweepEnv, persisted: AlertStatsPersistence.Totals)
    requires e.maxRecentAlerts >= 0
    requires e.sync.Some? && AlertManagement.InSync(e.stats, e.sync.value, persisted)
    requires exists j :: 0 <= j < |e.rules| && Due(e.rules[j], env.now)
    ensures var r := CheckAllRules(e, env);
      r.sync.Some? && !AlertManagement.InSync(r.stats, r.sync.value, persisted)
      && r.stats.totalChecks + DueFrom(e.rules, env.now, 0) == persisted.checks + r.sync.value.pending.checks
  {
    SweepSync(e, env, 0, AsWritten, persisted);
    var j :| 0 <= j < |e.rules| && Due(e.rules[j], env.now);
    DuePositive(e.rules, env.now, 0, j);
  }

  /** A due rule at or after position i makes the count from i positive. */
  lemma {:induction false} DuePositive(rules: seq<AlertRule>, now: int, i: nat, j: nat)
    requires i <= j < |rules| && Due(rules[j], now)
    ensures DueFrom(rules, now, i) > 0
    decreases j - i
  {
    if i < j {
      DuePositive(rules, now, i + 1, j);
    }
  }

  /**
   * A rule with a positive cooldown fires at most once per instant: after
   * a sweep marked it fired, a second sweep at the same time leaves it
   * alone.
   */
  lemma NoRefireWithinCooldown(e: Engine, env: SweepEnv, j: nat)
    requires e.maxRecentAlerts >= 0 && j < |e.rules|
    requires e.rules[j].cooldown > 0
    requires CheckAllRules(e, env).rules[j].lastFired != e.rules[j].lastFired
    ensures var r1 := CheckAllRules(e, env);
      CheckAllRules(r1, env).rules[j] == r1.rules[j]
  {
    var r1 := CheckAllRules(e, env);
    assert r1.rules[j].cooldown == e.rules[j].cooldown;
    MarkedRuleCoolsDown(r1.rules[j], env.now, env.now);
  }

  // ---------- reads, deletes, manual alerts ----------

  /** The newest-first order of a sequence, as an independent reference. */
  function Reverse(s: seq<Alert>): (r: seq<Alert>)
    ensures |r| == |s|
  {
    if s == [] then [] else [s[|s| - 1]] + Reverse(s[..|s| - 1])
  }

  /**
   * GetRecentAlerts: the newest `limit` buffered alerts, newest first; a
   * limit that is not positive or exceeds the buffer means all of them.
   */
  function GetRecentAlerts(recent: seq<Alert>, limit: int): (r: seq<Alert>)
    ensures |r| == (if limit <= 0 || limit > |recent| then |recent| else limit)
    ensures forall i :: 0 <= i < |r| ==> r[i] == recent[|recent| - 1 - i]
  {
    var n := if limit <= 0 || limit > |recent| then |recent| else limit;
    seq(n, i requires 0 <= i < n => recent[|recent| - 1 - i])
  }

  /** Asking for everything yields the buffer reversed. */
  lemma {:induction false} RecentAllIsReverse(recent: seq<Alert>)
    ensures GetRecentAlerts(recent, 0) == Reverse(recent)
  {
    if recent != [] {
      var init := recent[..|recent| - 1];
      RecentAllIsReverse(init);
      assert GetRecentAlerts(recent, 0) == [recent[|recent| - 1]] + GetRecentAlerts(init, 0);
    }
  }

  /** QueryAlerts: the repository's filtered page and total; no repository is an error. */
  function QueryAlerts(e: Engine, level: string, rule: string, limit: int, offset: int, countOk: bool, queryOk: bool)
    : (r: Result<(AlertRepository.Table, int)>)
    ensures e.repository.None? ==> r == Err("alert repository not initialized")
    ensures e.repository.Some? ==> r == AlertRepository.QueryFiltered(e.repository, level, rule, limit, offset, countOk, queryOk)
  {
    if e.repository.None? then Err("alert repository not initialized")
    else AlertRepository.QueryFiltered(e.repository, level, rule, limit, offset, countOk, queryOk)
  }

  /**
   * DeleteAlert: delete from the repository first (its failure is returned
   * and nothing changes), then drop every buffered alert with the ID.
   */
  function DeleteAlert(e: Engine, id: string, ok: bool): (r: (Engine, Result<()>))
    ensures e.repository.Some? && !ok ==> r.0 == e && r.1.Err?
    ensures e.repository.None? || ok ==> r.1.Ok?
    ensures r.1.Ok? ==> forall i :: 0 <= i < |r.0.recentAlerts| ==> r.0.recentAlerts[i].id != id
    ensures r.1.Ok? ==> forall i :: 0 <= i < |e.recentAlerts| && e.recentAlerts[i].id != id ==> e.recentAlerts[i] in r.0.recentAlerts
    ensures r.1.Ok? ==> forall a :: a in r.0.recentAlerts ==> a in e.recentAlerts
    ensures r.1.Ok? ==> |r.0.recentAlerts| <= |e.recentAlerts|
    ensures r.1.Ok? ==> Seqs.Subsequence(r.0.recentAlerts, e.recentAlerts)
    ensures r.1.Ok? ==> forall i :: 0 <= i < |e.recentAlerts| ==>
      multiset(r.0.recentAlerts)[e.recentAlerts[i]] == if e.recentAlerts[i].id == id then 0 else multiset(e.recentAlerts)[e.recentAlerts[i]]
    ensures r.0.rules == e.rules && r.0.stats == e.stats
  {
    Seqs.FilterKeepsCounts(e.recentAlerts, (a: Alert) => a.id != id);
    var repo := match e.repository
      case None => Ok(None)
      case Some(_) =>
        match AlertRepository.Delete(e.repository, id, ok)
        case Ok(t) => Ok(Some(t))
        case Err(m) => Err(m);
    match repo
    case Err(m) => (e, Err(m))
    case Ok(t) =>
      (e.(repository := t, recentAlerts := Seqs.Filter(e.recentAlerts, (a: Alert) => a.id != id)), Ok(()))
  }

  /** CreateAlert: a manual alert with no timestamp is stamped now, then fired like any other. */
  function CreateAlert(e: Engine, a: Alert, now: int, saveOk: bool, notifyPanics: bool): (r: Engine)
    requires e.maxRecentAlerts >= 0
    ensures var stamped := if a.timestamp == 0 then a.(timestamp := now) else a;
      r == FireAlert(e, stamped, saveOk, notifyPanics)
      && (e.maxRecentAlerts > 0 ==> r.recentAlerts[|r.recentAlerts| - 1] == stamped)
  {
    FireAlert(e, if a.timestamp == 0 then a.(timestamp := now) else a, saveOk, notifyPanics)
  }

  /** UpdateRuleConfigJSON: store the JSON; no configuration store is an error. */
  function UpdateRuleConfigJson(e: Engine, id: string, configJson: string, now: int, ok: bool): (r: (Engine, Result<()>))
    ensures e.configs.None? ==> r == (e, Err("config persistence not initialized"))
    ensures e.configs.Some? ==> (r.1.Ok? <==> ok && id in e.configs.value)
    ensures r.1.Ok? ==>
      e.configs.Some? && r.0.configs.Some? && r.0.configs.value.Keys == e.configs.value.Keys
      && id in r.0.configs.value && r.0.configs.value[id].configJson == configJson
    ensures r.1.Err? ==> r.0 == e
    ensures r.0.rules == e.rules
  {
    match e.configs
    case None => (e, Err("config persistence not initialized"))
    case Some(t) =>
      match AlertRulePersistence.UpdateConfigJson(t, id, configJson, now, ok)
      case Ok(t') => (e.(configs := Some(t')), Ok(()))
      case Err(m) => (e, Err(m))
  }
}
