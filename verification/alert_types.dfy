/**
 * The alert engine's records: alerts, rules with their cooldown state, and
 * the engine-wide and per-rule statistics.
 *
 * Levels are the strings Go's `AlertLevel` holds, so alerts read back from
 * the database or created by hand may carry any level. Durations are whole
 * seconds except the measured check durations, which are nanoseconds.
 */
module AlertTypes {
  import opened Wrappers
  import Types

  const LevelInfo: string := "INFO"
  const LevelWarning: string := "WARNING"
  const LevelError: string := "ERROR"

  /** alert_engine.go `Alert`; a zero timestamp is 0. */
  datatype Alert = Alert(id: string, level: string, rule: string, message: string,
                         timestamp: int, metadata: Types.Metadata)

  /**
   * What a rule's check closure does. The cache-anomaly closure keeps the
   * hit rates of its previous runs; a rate Go computes as 0/0 (NaN) is None.
   * A custom rule's verdict comes from outside.
   */
  datatype RuleKind =
    | QueueBacklog(defaultThreshold: int)
    | LowSuccessRate(minRate: real)
    | CacheAnomaly(history: seq<Option<real>>)
    | DecaySpike(maxForgotten: int)
    | Custom

  /** alert_engine.go `AlertRule`; a rule that never fired has no `lastFired`. */
  datatype AlertRule = AlertRule(id: string, name: string, description: string, kind: RuleKind,
                                 enabled: bool, cooldown: int, lastFired: Option<int>)

  /**
   * ShouldFire: the cooldown has elapsed since the last firing. Go measures
   * from the zero time for a rule that never fired, which saturates at the
   * longest duration and so always passes.
   */
  predicate ShouldFire(r: AlertRule, now: int)
  {
    match r.lastFired
    case None => true
    case Some(t) => now - t >= r.cooldown
  }

  /** MarkFired: remember the firing time; nothing else changes. */
  function MarkFired(r: AlertRule, now: int): (m: AlertRule)
    ensures m.lastFired == Some(now)
    ensures m == r.(lastFired := m.lastFired)
  {
    r.(lastFired := Some(now))
  }

  /** Once fired, a rule is silent for exactly its cooldown. */
  lemma MarkedRuleCoolsDown(r: AlertRule, now: int, later: int)
    ensures ShouldFire(MarkFired(r, now), later) <==> later - now >= r.cooldown
  {
  }

  /** alert_engine.go `RuleStats`; `avgCheckDuration` is in nanoseconds. */
  datatype RuleStats = RuleStats(totalFired: int, lastFiredAt: int, totalChecks: int, avgCheckDuration: int)

  /** A rule nobody has checked yet. */
  const NoRuleStats: RuleStats := RuleStats(0, 0, 0, 0)

  /** alert_engine.go `AlertEngineStats`. */
  datatype EngineStats = EngineStats(totalChecks: int, totalFired: int, notifySuccess: int, notifyFailed: int,
                                     ruleStats: map<string, RuleStats>)

  /** getRuleStats: a copy of the rule's statistics, or zeros for an unknown rule. */
  function RuleStatsOf(s: EngineStats, ruleId: string): (r: RuleStats)
    ensures ruleId !in s.ruleStats ==> r == NoRuleStats
    ensures ruleId in s.ruleStats ==> r == s.ruleStats[ruleId]
  {
    if ruleId in s.ruleStats then s.ruleStats[ruleId] else NoRuleStats
  }
}
