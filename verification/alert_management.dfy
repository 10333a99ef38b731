/**
 * Rule management and statistics of the alert engine: listing, finding,
 * toggling and re-timing rules; the per-rule and engine-wide counters and
 * how they stay in step with the persisted totals; the hourly alert trend;
 * the per-level counts; and the aggregation of repeated alerts.
 *
 * These operate on the parts of the engine they touch (its rules, its
 * statistics, its optional sync, repository and configuration table), so
 * the engine can compose them.
 */
module AlertManagement {
  import opened Wrappers
  import Seqs
  import opened AlertTypes
  import AlertRepository
  import opened AlertRulePersistence
  import opened AlertStatsPersistence
  import opened AlertEngineStatsSync

  // ---------- rules ----------

  /** alert_management.go `RuleInfo`; the cooldown is in seconds. */
  datatype RuleInfo = RuleInfo(id: string, name: string, description: string, enabled: bool,
                               cooldown: int, configJson: string, stats: RuleStats)

  /** Some rule in the list has the ID. */
  predicate HasRule(rules: seq<AlertRule>, id: string)
  {
    exists i :: 0 <= i < |rules| && rules[i].id == id
  }

  /** The position of the first rule with the ID, the one Go's loops stop at. */
  function FindRule(rules: seq<AlertRule>, id: string): (r: Option<nat>)
    ensures r.None? <==> !HasRule(rules, id)
    ensures r.Some? ==> r.value < |rules| && rules[r.value].id == id
    ensures r.Some? ==> forall j :: 0 <= j < r.value ==> rules[j].id != id
  {
    if rules == [] then None
    else if rules[0].id == id then Some(0)
    else
      match FindRule(rules[1..], id)
      case None =>
        assert forall j :: 1 <= j < |rules| ==> rules[j] == rules[1..][j - 1];
        None
      case Some(k) => Some(k + 1)
  }

  /** GetRuleByID: the first rule with the ID, or nothing. */
  function GetRuleByID(rules: seq<AlertRule>, id: string): (r: Option<AlertRule>)
    ensures r.None? <==> !HasRule(rules, id)
    ensures r.Some? ==> r.value.id == id && r.value in rules
  {
    match FindRule(rules, id)
    case None => None
    case Some(k) => Some(rules[k])
  }

  /** One listed rule: the stored configuration, with the in-memory statistics when the engine has the rule. */
  function InfoFor(key: string, c: RuleConfigDB, rules: seq<AlertRule>, stats: EngineStats): RuleInfo
  {
    RuleInfo(c.id, c.name, c.description, c.enabled, c.cooldownSeconds, c.configJson,
      if HasRule(rules, key) then RuleStatsOf(stats, key) else NoRuleStats)
  }

  /**
   * GetAllRules: one entry per stored configuration, in the map order
   * `order`; nothing when the configurations cannot be loaded.
   */
  function GetAllRules(rules: seq<AlertRule>, stats: EngineStats, configs: Result<RuleConfigTable>,
                       order: seq<string>): (r: seq<RuleInfo>)
    requires configs.Ok? ==> Seqs.Enumerates(order, configs.value.Keys)
    ensures configs.Err? ==> r == []
    ensures configs.Ok? ==> |r| == |order| == |configs.value|
    ensures configs.Ok? ==> forall i :: 0 <= i < |r| ==>
      var c := configs.value[order[i]];
      r[i].id == c.id && r[i].name == c.name && r[i].enabled == c.enabled
      && r[i].cooldown == c.cooldownSeconds && r[i].configJson == c.configJson
      && (HasRule(rules, order[i]) ==> r[i].stats == RuleStatsOf(stats, order[i]))
      && (!HasRule(rules, order[i]) ==> r[i].stats == NoRuleStats)
  {
    match configs
    case Err(_) => []
    case Ok(t) =>
      Seqs.EnumeratesCard(order, t.Keys);
      seq(|order|, i requires 0 <= i < |order| => InfoFor(order[i], t[order[i]], rules, stats))
  }

  /** With rows filed under their own IDs, every stored rule is listed exactly once. */
  lemma GetAllRulesListsEachOnce(rules: seq<AlertRule>, stats: EngineStats, t: RuleConfigTable,
                                 order: seq<string>, id: string)
    requires Seqs.Enumerates(order, t.Keys)
    requires WellKeyed(t)
    ensures var r := GetAllRules(rules, stats, Ok(t), order);
      (id in t <==> exists i :: 0 <= i < |r| && r[i].id == id)
      && forall i, j :: 0 <= i < j < |r| ==> r[i].id != r[j].id
  {
    var r := GetAllRules(rules, stats, Ok(t), order);
    assert forall i :: 0 <= i < |r| ==> r[i].id == order[i];
    if id in t {
      var i :| 0 <= i < |order| && order[i] == id;
      assert r[i].id == id;
    }
  }

  /**
   * ToggleRule: enable or disable the first rule with the ID and try to
   * store the flag; a failed store is only logged. An unknown ID is
   * "rule not found" and changes nothing.
   */
  function ToggleRule(rules: seq<AlertRule>, configs: Option<RuleConfigTable>, id: string, enabled: bool,
                      now: int, persistOk: bool): (r: (seq<AlertRule>, Option<RuleConfigTable>, Result<()>))
    ensures r.2.Ok? <==> HasRule(rules, id)
    ensures !HasRule(rules, id) ==> r == (rules, configs, Err(NotFound(id)))
    ensures HasRule(rules, id) ==> var k := FindRule(rules, id).value;
      |r.0| == |rules| && r.0[k] == rules[k].(enabled := enabled)
      && forall j :: 0 <= j < |rules| && j != k ==> r.0[j] == rules[j]
    ensures configs.None? ==> r.1.None?
    ensures configs.Some? ==> r.1.Some? && r.1.value.Keys == configs.value.Keys
  {
    match FindRule(rules, id)
    case None => (rules, configs, Err(NotFound(id)))
    case Some(k) =>
      var configs' := match configs
        case None => None
        case Some(t) => match UpdateEnabled(t, id, enabled, now, persistOk)
          case Ok(t') => Some(t')
          case Err(_) => configs;
      (rules[k := rules[k].(enabled := enabled)], configs', Ok(()))
  }

  /** A toggled rule reads back with the new flag, and a stored row agrees when the store succeeded. */
  lemma ToggleThenGet(rules: seq<AlertRule>, t: RuleConfigTable, id: string, enabled: bool, now: int)
    requires HasRule(rules, id)
    ensures var r := ToggleRule(rules, Some(t), id, enabled, now, true);
      GetRuleByID(r.0, id).Some? && GetRuleByID(r.0, id).value.enabled == enabled
      && (id in t ==> r.1.value[id].enabled == enabled)
  {
    var k := FindRule(rules, id).value;
    var r := ToggleRule(rules, Some(t), id, enabled, now, true);
    assert FindRule(r.0, id) == Some(k) by {
      var f := FindRule(r.0, id);
      assert r.0[k].id == id;
      assert f.Some? && f.value <= k;
      assert forall j :: 0 <= j < k ==> r.0[j].id != id;
    }
  }

  /**
   * UpdateRuleCooldown: set the first matching rule's cooldown and try to
   * store it in seconds; a failed store is only logged. An unknown ID is
   * "rule not found" and changes nothing.
   */
  function UpdateRuleCooldown(rules: seq<AlertRule>, configs: Option<RuleConfigTable>, id: string, cooldown: int,
                              now: int, persistOk: bool): (r: (seq<AlertRule>, Option<RuleConfigTable>, Result<()>))
    ensures r.2.Ok? <==> HasRule(rules, id)
    ensures !HasRule(rules, id) ==> r == (rules, configs, Err(NotFound(id)))
    ensures HasRule(rules, id) ==> var k := FindRule(rules, id).value;
      |r.0| == |rules| && r.0[k] == rules[k].(cooldown := cooldown)
      && forall j :: 0 <= j < |rules| && j != k ==> r.0[j] == rules[j]
    ensures configs.Some? && HasRule(rules, id) && persistOk && id in configs.value ==>
      r.1 == Some(configs.value[id := configs.value[id].(cooldownSeconds := cooldown, updatedAt := now)])
    ensures configs.Some? && (!persistOk || id !in configs.value) ==> r.1 == configs
  {
    match FindRule(rules, id)
    case None => (rules, configs, Err(NotFound(id)))
    case Some(k) =>
      var configs' := match configs
        case None => None
        case Some(t) => match UpdateCooldown(t, id, cooldown, now, persistOk)
          case Ok(t') => Some(t')
          case Err(_) => configs;
      (rules[k := rules[k].(cooldown := cooldown)], configs', Ok(()))
  }

  // ---------- statistics ----------

  /** Go's `/ 2` on a signed integer: truncates toward zero. */
  function Half(x: int): (h: int)
    ensures x >= 0 ==> 0 <= h && 2 * h <= x < 2 * h + 2
    ensures x < 0 ==> h <= 0 && 2 * h - 2 < x <= 2 * h
  {
    if x >= 0 then x / 2 else -((-x) / 2)
  }

  /** The "simple moving average" of check durations: the first sample, then the mean of old and new. */
  function NextAvg(avg: int, d: int): int
  {
    if avg == 0 then d else Half(avg + d)
  }

  /** For non-negative durations the average stays between the old average and the new sample. */
  lemma NextAvgBetween(avg: int, d: int)
    requires avg > 0 && d >= 0
    ensures Seqs.Min(avg, d) <= NextAvg(avg, d) <= Seqs.Max(avg, d)
  {
  }

  /** The rule's statistics after one more check taking `duration` nanoseconds. */
  function CheckedRuleStats(s: RuleStats, duration: int): (r: RuleStats)
    ensures r.totalChecks == s.totalChecks + 1
    ensures r.totalFired == s.totalFired && r.lastFiredAt == s.lastFiredAt
    ensures s.avgCheckDuration == 0 ==> r.avgCheckDuration == duration
  {
    s.(totalChecks := s.totalChecks + 1, avgCheckDuration := NextAvg(s.avgCheckDuration, duration))
  }

  /**
   * recordRuleCheck as written: count the check on the rule and in the
   * pending sync deltas, but not in the engine-wide TotalChecks.
   */
  function RecordRuleCheckAsWritten(stats: EngineStats, sync: Option<Sync>, ruleId: string, duration: int)
    : (r: (EngineStats, Option<Sync>))
    ensures r.0.totalChecks == stats.totalChecks
    ensures r.0.ruleStats == stats.ruleStats[ruleId := CheckedRuleStats(RuleStatsOf(stats, ruleId), duration)]
    ensures r.1.Some? <==> sync.Some?
    ensures sync.Some? ==> r.1.value.pending.checks == sync.value.pending.checks + 1
  {
    var rs := CheckedRuleStats(RuleStatsOf(stats, ruleId), duration);
    var sync' := match sync case None => None case Some(s) => Some(RecordCheck(s));
    (stats.(ruleStats := stats.ruleStats[ruleId := rs]), sync')
  }

  /**
   * recordRuleCheck as the engine's comments describe it: the check is
   * also counted in TotalChecks, where the rest of the engine expects it.
   */
  function RecordRuleCheck(stats: EngineStats, sync: Option<Sync>, ruleId: string, duration: int)
    : (r: (EngineStats, Option<Sync>))
    ensures r.0.totalChecks == stats.totalChecks + 1
    ensures r.0.totalFired == stats.totalFired
    ensures r.0.notifySuccess == stats.notifySuccess && r.0.notifyFailed == stats.notifyFailed
    ensures r.0.ruleStats == stats.ruleStats[ruleId := CheckedRuleStats(RuleStatsOf(stats, ruleId), duration)]
    ensures r.1.Some? <==> sync.Some?
    ensures sync.Some? ==> r.1.value.pending == Add(sync.value.pending, Totals(1, 0, 0))
  {
    var w := RecordRuleCheckAsWritten(stats, sync, ruleId, duration);
    (w.0.(totalChecks := stats.totalChecks + 1), w.1)
  }

  /** recordRuleFire: one more firing for the rule and the engine, stamped now. */
  function RecordRuleFire(stats: EngineStats, ruleId: string, now: int): (r: EngineStats)
    ensures r.totalFired == stats.totalFired + 1
    ensures r.totalChecks == stats.totalChecks
    ensures r.notifySuccess == stats.notifySuccess && r.notifyFailed == stats.notifyFailed
    ensures r.ruleStats.Keys == stats.ruleStats.Keys + {ruleId}
    ensures r.ruleStats[ruleId].totalFired == RuleStatsOf(stats, ruleId).totalFired + 1
    ensures r.ruleStats[ruleId].lastFiredAt == now
    ensures r.ruleStats[ruleId].totalChecks == RuleStatsOf(stats, ruleId).totalChecks
    ensures forall id :: id in stats.ruleStats && id != ruleId ==> r.ruleStats[id] == stats.ruleStats[id]
  {
    var rs := RuleStatsOf(stats, ruleId);
    stats.(totalFired := stats.totalFired + 1,
           ruleStats := stats.ruleStats[ruleId := rs.(totalFired := rs.totalFired + 1, lastFiredAt := now)])
  }

  /** recordNotifyResult: one more success or failure, in memory and in the pending deltas. */
  function RecordNotifyResult(stats: EngineStats, sync: Option<Sync>, success: bool): (r: (EngineStats, Option<Sync>))
    ensures success ==> r.0 == stats.(notifySuccess := stats.notifySuccess + 1)
    ensures !success ==> r.0 == stats.(notifyFailed := stats.notifyFailed + 1)
    ensures r.1.Some? <==> sync.Some?
    ensures sync.Some? ==> r.1.value.pending == Add(sync.value.pending, if success then Totals(0, 1, 0) else Totals(0, 0, 1))
  {
    if success then
      (stats.(notifySuccess := stats.notifySuccess + 1), match sync case None => None case Some(s) => Some(RecordNotifySuccess(s)))
    else
      (stats.(notifyFailed := stats.notifyFailed + 1), match sync case None => None case Some(s) => Some(RecordNotifyFailed(s)))
  }

  /**
   * The in-memory totals equal what is persisted plus what is pending:
   * the relation loadStatsFromDB sets up and the sync is meant to keep.
   */
  predicate InSync(stats: EngineStats, sync: Sync, persisted: Totals)
  {
    stats.totalChecks == persisted.checks + sync.pending.checks
    && stats.notifySuccess == persisted.success + sync.pending.success
    && stats.notifyFailed == persisted.failed + sync.pending.failed
  }

  /** Recording a check keeps memory and storage in step. */
  lemma RecordRuleCheckKeepsSync(stats: EngineStats, sync: Sync, persisted: Totals, ruleId: string, duration: int)
    requires InSync(stats, sync, persisted)
    ensures var r := RecordRuleCheck(stats, Some(sync), ruleId, duration);
      InSync(r.0, r.1.value, persisted)
  {
  }

  /** As written, every recorded check opens a gap of one between memory and storage. */
  lemma RecordRuleCheckAsWrittenDrifts(stats: EngineStats, sync: Sync, persisted: Totals, ruleId: string, duration: int)
    requires InSync(stats, sync, persisted)
    ensures var r := RecordRuleCheckAsWritten(stats, Some(sync), ruleId, duration);
      !InSync(r.0, r.1.value, persisted)
      && r.0.totalChecks + 1 == persisted.checks + r.1.value.pending.checks
  {
  }

  /** Recording a notification outcome keeps memory and storage in step. */
  lemma RecordNotifyResultKeepsSync(stats: EngineStats, sync: Sync, persisted: Totals, success: bool)
    requires InSync(stats, sync, persisted)
    ensures var r := RecordNotifyResult(stats, Some(sync), success);
      InSync(r.0, r.1.value, persisted)
  {
  }

  /** A flush, successful or not, keeps memory and storage in step. */
  lemma FlushKeepsSync(stats: EngineStats, sync: Sync, t: StatsTable, updateOk: bool, insertOk: bool)
    requires InSync(stats, sync, Stored(t))
    ensures var r := FlushToDB(sync, Some(t), updateOk, insertOk);
      InSync(stats, r.0, Stored(r.1.value))
  {
    FlushConserves(sync, t, updateOk, insertOk);
  }

  // ---------- trend ----------

  const SecondsPerHour: int := 3600

  /** Go's `Truncate(time.Hour)`: the whole hour at or before `t`. */
  function Trunc(t: int): (r: int)
    ensures r <= t < r + SecondsPerHour && r % SecondsPerHour == 0
  {
    t - t % SecondsPerHour
  }

  /** The first bucket of a trend over `hours` hours. */
  function TrendStart(now: int, hours: int): int
  {
    Trunc(now - hours * SecondsPerHour)
  }

  /** An alert GetAlertTrend counts: inside [start, now], of the level, in the hour whose key is `key`. */
  predicate Counted(a: Alert, start: int, now: int, hourKey: int -> string, key: string, level: string)
  {
    start <= a.timestamp <= now && hourKey(Trunc(a.timestamp)) == key && a.level == level
  }

  /** The reference count of a bucket. */
  function Tally(alerts: seq<Alert>, start: int, now: int, hourKey: int -> string, key: string, level: string): nat
  {
    if alerts == [] then 0
    else
      Tally(alerts[..|alerts| - 1], start, now, hourKey, key, level)
      + (if Counted(alerts[|alerts| - 1], start, now, hourKey, key, level) then 1 else 0)
  }

  /** The trend: hour keys and, per key, the error, warning and info counts. */
  datatype Trend = Trend(timestamps: seq<string>, errors: seq<int>, warnings: seq<int>, infos: seq<int>)

  /** A bucket's initial counters. */
  const ZeroCounts: map<string, int> := map[LevelError := 0, LevelWarning := 0, LevelInfo := 0]

  /** Every bucket holds, for each of the three levels, the reference count over `alerts`. */
  predicate Tallied(buckets: map<string, map<string, int>>, alerts: seq<Alert>, start: int, now: int, hourKey: int -> string)
  {
    forall k :: k in buckets ==>
      LevelError in buckets[k] && buckets[k][LevelError] == Tally(alerts, start, now, hourKey, k, LevelError)
      && LevelWarning in buckets[k] && buckets[k][LevelWarning] == Tally(alerts, start, now, hourKey, k, LevelWarning)
      && LevelInfo in buckets[k] && buckets[k][LevelInfo] == Tally(alerts, start, now, hourKey, k, LevelInfo)
  }

  /** The hour keys from `start`, one per hour up to `hours` hours later, each with zeroed counters. */
  method MakeBuckets(start: int, hours: nat, hourKey: int -> string)
    returns (buckets: map<string, map<string, int>>, timestamps: seq<string>)
    ensures |timestamps| == hours + 1
    ensures forall j :: 0 <= j <= hours ==> timestamps[j] == hourKey(start + j * SecondsPerHour)
    ensures forall k :: k in buckets <==> k in timestamps
    ensures Tallied(buckets, [], start, 0, hourKey)
  {
    buckets := map[];
    timestamps := [];
    var i := 0;
    while i <= hours
      invariant 0 <= i <= hours + 1
      invariant |timestamps| == i
      invariant forall j :: 0 <= j < i ==> timestamps[j] == hourKey(start + j * SecondsPerHour)
      invariant forall k :: k in buckets <==> k in timestamps
      invariant forall k :: k in buckets ==> buckets[k] == ZeroCounts
    {
      var key := hourKey(start + i * SecondsPerHour);
      buckets := buckets[key := ZeroCounts];
      timestamps := timestamps + [key];
      i := i + 1;
    }
  }

  /** Adding one alert to the counted prefix adds one to the counts it matches. */
  lemma TallySnoc(alerts: seq<Alert>, a: Alert, start: int, now: int, hourKey: int -> string, key: string, level: string)
    ensures Tally(alerts + [a], start, now, hourKey, key, level)
      == Tally(alerts, start, now, hourKey, key, level) + (if Counted(a, start, now, hourKey, key, level) then 1 else 0)
  {
    assert (alerts + [a])[..|alerts|] == alerts;
  }

  /** Count each alert of the window into the bucket of its hour, when there is one. */
  method CountIntoBuckets(buckets: map<string, map<string, int>>, alerts: seq<Alert>, start: int, now: int,
                          hourKey: int -> string) returns (b: map<string, map<string, int>>)
    requires Tallied(buckets, [], start, now, hourKey)
    ensures b.Keys == buckets.Keys
    ensures Tallied(b, alerts, start, now, hourKey)
  {
    b := buckets;
    var n := 0;
    while n < |alerts|
      invariant 0 <= n <= |alerts|
      invariant b.Keys == buckets.Keys
      invariant Tallied(b, alerts[..n], start, now, hourKey)
    {
      var a := alerts[n];
      var before := b;
      if start <= a.timestamp <= now {
        var key := hourKey(Trunc(a.timestamp));
        if key in b {
          var c := b[key];
          b := b[key := c[a.level := (if a.level in c then c[a.level] else 0) + 1]];
        }
      }
      assert alerts[..n + 1] == alerts[..n] + [a];
      forall k | k in b
        ensures LevelError in b[k] && b[k][LevelError] == Tally(alerts[..n + 1], start, now, hourKey, k, LevelError)
        ensures LevelWarning in b[k] && b[k][LevelWarning] == Tally(alerts[..n + 1], start, now, hourKey, k, LevelWarning)
        ensures LevelInfo in b[k] && b[k][LevelInfo] == Tally(alerts[..n + 1], start, now, hourKey, k, LevelInfo)
      {
        TallySnoc(alerts[..n], a, start, now, hourKey, k, LevelError);
        TallySnoc(alerts[..n], a, start, now, hourKey, k, LevelWarning);
        TallySnoc(alerts[..n], a, start, now, hourKey, k, LevelInfo);
      }
      n := n + 1;
    }
    assert alerts[..|alerts|] == alerts;
  }

  /** The output arrays: the buckets' three counts, in hour order. */
  function TrendOf(buckets: map<string, map<string, int>>, timestamps: seq<string>): (t: Trend)
    requires forall k :: k in timestamps ==> k in buckets
    requires forall k :: k in buckets ==> LevelError in buckets[k] && LevelWarning in buckets[k] && LevelInfo in buckets[k]
    ensures t.timestamps == timestamps
    ensures |t.errors| == |t.warnings| == |t.infos| == |timestamps|
    ensures forall j :: 0 <= j < |timestamps| ==>
      t.errors[j] == buckets[timestamps[j]][LevelError]
      && t.warnings[j] == buckets[timestamps[j]][LevelWarning] && t.infos[j] == buckets[timestamps[j]][LevelInfo]
  {
    Trend(timestamps,
      seq(|timestamps|, j requires 0 <= j < |timestamps| => buckets[timestamps[j]][LevelError]),
      seq(|timestamps|, j requires 0 <= j < |timestamps| => buckets[timestamps[j]][LevelWarning]),
      seq(|timestamps|, j requires 0 <= j < |timestamps| => buckets[timestamps[j]][LevelInfo]))
  }

  /**
   * A trend over `hours` hours from `start`: one entry per hour, keyed by
   * the hour's text, whose three counts are the reference counts.
   */
  predicate CountsMatch(t: Trend, alerts: seq<Alert>, start: int, now: int, hours: int, hourKey: int -> string)
  {
    |t.timestamps| == hours + 1 && |t.errors| == hours + 1 && |t.warnings| == hours + 1 && |t.infos| == hours + 1
    && forall i :: 0 <= i <= hours ==>
      t.timestamps[i] == hourKey(start + i * SecondsPerHour)
      && t.errors[i] == Tally(alerts, start, now, hourKey, t.timestamps[i], LevelError)
      && t.warnings[i] == Tally(alerts, start, now, hourKey, t.timestamps[i], LevelWarning)
      && t.infos[i] == Tally(alerts, start, now, hourKey, t.timestamps[i], LevelInfo)
  }

  /** The buckets, once counted, give the trend. */
  lemma TrendCounts(buckets: map<string, map<string, int>>, timestamps: seq<string>, alerts: seq<Alert>,
                    start: int, now: int, hours: nat, hourKey: int -> string)
    requires |timestamps| == hours + 1
    requires forall j :: 0 <= j <= hours ==> timestamps[j] == hourKey(start + j * SecondsPerHour)
    requires forall k :: k in buckets <==> k in timestamps
    requires Tallied(buckets, alerts, start, now, hourKey)
    ensures CountsMatch(TrendOf(buckets, timestamps), alerts, start, now, hours, hourKey)
  {
  }

  /**
   * GetAlertTrend: read `hours * 100` newest alerts, make one bucket per
   * hour from the truncated start to now, count each alert of the window
   * into the bucket of its hour, and list the buckets in order. `hourKey`
   * formats an hour in local time.
   */
  method GetAlertTrend(repo: Option<AlertRepository.Table>, queryOk: bool, now: int, hours: int,
                       hourKey: int -> string) returns (r: Result<Trend>)
    ensures repo.None? ==> r == Err("repository not initialized")
    ensures r.Ok? <==> repo.Some? && queryOk && hours >= 0
    ensures r.Ok? ==>
      CountsMatch(r.value, AlertRepository.QueryRecent(repo, hours * 100, queryOk).value, TrendStart(now, hours), now, hours, hourKey)
  {
    if repo.None? {
      return Err("repository not initialized");
    }
    var q := AlertRepository.QueryRecent(repo, hours * 100, queryOk);
    if q.Err? {
      return Err(q.msg);
    }
    var start := TrendStart(now, hours);
    var empty, timestamps := MakeBuckets(start, hours, hourKey);
    var buckets := CountIntoBuckets(empty, q.value, start, now, hourKey);
    r := Ok(TrendOf(buckets, timestamps));
    TrendCounts(buckets, timestamps, q.value, start, now, hours, hourKey);
  }

  /** Truncation moves back by exactly an hour when the time does. */
  lemma TruncStep(t: int)
    ensures Trunc(t - SecondsPerHour) == Trunc(t) - SecondsPerHour
  {
  }

  /** Shifting by whole hours commutes with truncation. */
  lemma {:induction false} TruncShift(t: int, h: nat)
    ensures Trunc(t - h * SecondsPerHour) == Trunc(t) - h * SecondsPerHour
  {
    if h > 0 {
      TruncShift(t, h - 1);
      assert t - h * SecondsPerHour == (t - (h - 1) * SecondsPerHour) - SecondsPerHour;
      TruncStep(t - (h - 1) * SecondsPerHour);
    }
  }

  /**
   * Every alert inside the window falls in one of the hours + 1 buckets,
   * so GetAlertTrend drops none of them for want of a bucket.
   */
  lemma WindowAlertHasBucket(now: int, hours: nat, ts: int)
    requires TrendStart(now, hours) <= ts <= now
    ensures exists i :: 0 <= i <= hours && Trunc(ts) == TrendStart(now, hours) + i * SecondsPerHour
  {
    var start := TrendStart(now, hours);
    TruncShift(now, hours);
    var d := Trunc(ts) - start;
    assert 0 <= d <= hours * SecondsPerHour;
    assert d % SecondsPerHour == 0;
    var i := d / SecondsPerHour;
    assert d == i * SecondsPerHour;
    assert 0 <= i <= hours;
  }

  // ---------- counts per level ----------

  /**
   * GetAlertsByLevel: the count of each of the three levels; a count that
   * fails stays 0. No repository is an error.
   */
  function GetAlertsByLevel(repo: Option<AlertRepository.Table>, countOk: string -> bool): (r: Result<map<string, int>>)
    ensures repo.None? <==> r.Err?
    ensures repo.None? ==> r == Err("repository not initialized")
    ensures r.Ok? ==> r.value.Keys == {LevelError, LevelWarning, LevelInfo}
    ensures r.Ok? ==> forall l :: l in r.value ==>
      r.value[l] == (if countOk(l) then |AlertRepository.Selected(repo.value, l, "")| else 0)
  {
    match repo
    case None => Err("repository not initialized")
    case Some(t) =>
      Ok(map l | l in {LevelError, LevelWarning, LevelInfo} ::
        match AlertRepository.Count(repo, l, "", countOk(l)) case Ok(n) => n case Err(_) => 0)
  }

  /** A level's count is the number of stored alerts with exactly that level. */
  lemma LevelCountIsLevelMembers(t: AlertRepository.Table, level: string, a: Alert)
    requires level in {LevelError, LevelWarning, LevelInfo}
    ensures a in AlertRepository.Selected(t, level, "") <==> a in t && a.level == level
  {
    if a in t && a.level == level {
      var i :| 0 <= i < |t| && t[i] == a;
      assert AlertRepository.Matches(level, "", t[i]);
    }
    if a in AlertRepository.Selected(t, level, "") {
      var s := AlertRepository.Selected(t, level, "");
      var i :| 0 <= i < |s| && s[i] == a;
      assert AlertRepository.Matches(level, "", s[i]);
    }
  }

  // ---------- aggregation ----------

  /** alert_management.go `AggregatedAlert`. */
  datatype AggregatedAlert = AggregatedAlert(alert: Alert, count: int, firstSeen: int, lastSeen: int)

  /** The process-wide aggregation map, keyed by rule and level. */
  type Aggregations = map<string, AggregatedAlert>

  /** getAggregationKey: "<rule>:<level>". */
  function AggregationKey(a: Alert): string
  {
    a.rule + ":" + a.level
  }

  /**
   * aggregateAlert: a first alert of its rule and level opens an entry
   * with count 1; a repeat bumps the count, moves lastSeen and takes the
   * latest message.
   */
  function AggregateAlert(m: Aggregations, a: Alert): (r: (Aggregations, AggregatedAlert))
    ensures r.0 == m[AggregationKey(a) := r.1]
    ensures AggregationKey(a) !in m ==> r.1 == AggregatedAlert(a, 1, a.timestamp, a.timestamp)
    ensures AggregationKey(a) in m ==> var e := m[AggregationKey(a)];
      r.1.count == e.count + 1 && r.1.lastSeen == a.timestamp && r.1.firstSeen == e.firstSeen
      && r.1.alert == e.alert.(message := a.message)
  {
    var key := AggregationKey(a);
    var agg := if key in m then
        var e := m[key];
        e.(count := e.count + 1, lastSeen := a.timestamp, alert := e.alert.(message := a.message))
      else AggregatedAlert(a, 1, a.timestamp, a.timestamp);
    (m[key := agg], agg)
  }

  /** Aggregate a sequence of alerts in order. */
  function AggregateAll(m: Aggregations, alerts: seq<Alert>): Aggregations
  {
    if alerts == [] then m else AggregateAlert(AggregateAll(m, alerts[..|alerts| - 1]), alerts[|alerts| - 1]).0
  }

  /** How many of the alerts share a key. */
  function KeyCount(alerts: seq<Alert>, key: string): nat
  {
    if alerts == [] then 0
    else
      KeyCount(alerts[..|alerts| - 1], key) + (if AggregationKey(alerts[|alerts| - 1]) == key then 1 else 0)
  }

  /**
   * Starting from nothing, a key has an entry exactly when some alert has
   * that key, and its count is the number of such alerts.
   */
  lemma {:induction false} AggregateCounts(alerts: seq<Alert>, key: string)
    ensures key in AggregateAll(map[], alerts) <==> KeyCount(alerts, key) > 0
    ensures key in AggregateAll(map[], alerts) ==> AggregateAll(map[], alerts)[key].count == KeyCount(alerts, key)
  {
    if alerts != [] {
      AggregateCounts(alerts[..|alerts| - 1], key);
    }
  }

  /** cleanOldAggregations: drop the entries last seen more than an hour ago. */
  function CleanOldAggregations(m: Aggregations, now: int): (r: Aggregations)
    ensures forall k :: k in r <==> k in m && now - m[k].lastSeen <= SecondsPerHour
    ensures forall k :: k in r ==> r[k] == m[k]
  {
    map k | k in m && now - m[k].lastSeen <= SecondsPerHour :: m[k]
  }

  /** Cleaning later keeps no more than cleaning earlier, and cleaning twice is cleaning once. */
  lemma CleanMonotone(m: Aggregations, now: int, later: int)
    requires now <= later
    ensures CleanOldAggregations(m, later).Keys <= CleanOldAggregations(m, now).Keys
    ensures CleanOldAggregations(CleanOldAggregations(m, now), now) == CleanOldAggregations(m, now)
  {
  }

  /** GetAggregatedAlerts: a copy of every entry, in the map order `order`. */
  function GetAggregatedAlerts(m: Aggregations, order: seq<string>): (r: seq<AggregatedAlert>)
    requires Seqs.Enumerates(order, m.Keys)
    ensures |r| == |order| == |m|
    ensures forall i :: 0 <= i < |r| ==> r[i] == m[order[i]]
    ensures forall k :: k in m ==> m[k] in r
  {
    Seqs.EnumeratesCard(order, m.Keys);
    var r := seq(|order|, i requires 0 <= i < |order| => m[order[i]]);
    forall k | k in m
      ensures m[k] in r
    {
      var i :| 0 <= i < |order| && order[i] == k;
      assert r[i] == m[k];
    }
    r
  }
}
