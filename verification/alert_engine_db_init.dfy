/**
 * Connecting the engine to its database at start-up: seed the built-in
 * rule configurations, apply the stored configurations to the rules, load
 * the persisted totals, and start the statistics sync.
 */
module AlertEngineDbInit {
  import opened Wrappers
  import opened AlertTypes
  import AlertRulePersistence
  import AlertStatsPersistence
  import AlertEngineStatsSync
  import AlertManagement
  import AlertEngine

  /** The two tables the engine persists to. */
  datatype Database = Database(configs: AlertRulePersistence.RuleConfigTable, stats: AlertStatsPersistence.StatsTable)

  /**
   * loadRuleConfigsFromDB: a rule with a stored row takes its name,
   * description, flag and cooldown; other rules are untouched; a failed
   * load is returned and changes nothing.
   */
  function LoadRuleConfigsFromDB(e: AlertEngine.Engine, ok: bool): (r: Result<AlertEngine.Engine>)
    requires e.configs.Some?
    ensures r.Ok? <==> ok
    ensures r.Ok? ==> r.value == e.(rules := r.value.rules) && |r.value.rules| == |e.rules|
    ensures r.Ok? ==> forall j :: 0 <= j < |e.rules| ==>
      var rule := e.rules[j];
      var t := e.configs.value;
      r.value.rules[j].id == rule.id && r.value.rules[j].kind == rule.kind && r.value.rules[j].lastFired == rule.lastFired
      && (rule.id !in t ==> r.value.rules[j] == rule)
      && (rule.id in t ==>
            r.value.rules[j].enabled == t[rule.id].enabled && r.value.rules[j].cooldown == t[rule.id].cooldownSeconds
            && r.value.rules[j].name == t[rule.id].name)
  {
    match AlertRulePersistence.LoadAll(e.configs.value, ok)
    case Err(m) => Err(m)
    case Ok(t) =>
      Ok(e.(rules := seq(|e.rules|, j requires 0 <= j < |e.rules| =>
        AlertRulePersistence.ApplyConfigToRule(e.rules[j], if e.rules[j].id in t then Some(t[e.rules[j].id]) else None))))
  }

  /**
   * loadStatsFromDB: the persisted check and notification totals replace
   * the in-memory ones; a failed query is returned and changes nothing;
   * without a stats table there is nothing to do.
   */
  function LoadStatsFromDB(e: AlertEngine.Engine, queryOk: bool): (r: (AlertEngine.Engine, Result<()>))
    ensures r.1.Err? <==> e.statsTable.Some? && !queryOk
    ensures r.1.Err? || e.statsTable.None? ==> r.0 == e
    ensures r.1.Ok? && e.statsTable.Some? ==>
      var stored := AlertStatsPersistence.Stored(e.statsTable.value);
      r.0 == e.(stats := r.0.stats)
      && r.0.stats.totalChecks == stored.checks && r.0.stats.notifySuccess == stored.success
      && r.0.stats.notifyFailed == stored.failed
      && r.0.stats.totalFired == e.stats.totalFired && r.0.stats.ruleStats == e.stats.ruleStats
  {
    match e.statsTable
    case None => (e, Ok(()))
    case Some(t) =>
      match AlertStatsPersistence.Load(t, queryOk)
      case Err(m) => (e, Err(m))
      case Ok(tot) =>
        (e.(stats := e.stats.(totalChecks := tot.checks, notifySuccess := tot.success, notifyFailed := tot.failed)), Ok(()))
  }

  /**
   * InitWithDB: without a database nothing happens. Otherwise the tables
   * are attached, the built-in configurations seeded (a failure there is
   * only logged), the stored configurations applied (a failure there is
   * returned, and the sync is not started), the totals loaded (a failure
   * there is only logged), and the sync started with nothing pending.
   */
  function InitWithDB(e: AlertEngine.Engine, db: Option<Database>, now: int, seedFailAt: nat, loadOk: bool, statsOk: bool)
    : (r: (AlertEngine.Engine, Result<()>))
    ensures db.None? ==> r == (e, Ok(()))
    ensures db.Some? ==> r.0.statsTable == Some(db.value.stats) && r.0.configs.Some?
    ensures db.Some? ==> (r.1.Ok? <==> loadOk)
    ensures db.Some? && loadOk ==> r.0.sync == Some(AlertEngineStatsSync.NewSync())
    ensures db.Some? && !loadOk ==> r.0.sync == e.sync && r.0.rules == e.rules && r.0.stats == e.stats
    ensures db.Some? ==> r.0.configs.value == AlertRulePersistence.SeedDefaultConfigs(db.value.configs, now, seedFailAt).0
    ensures r.0.repository == e.repository && r.0.recentAlerts == e.recentAlerts
  {
    match db
    case None => (e, Ok(()))
    case Some(d) =>
      var (seeded, _) := AlertRulePersistence.SeedDefaultConfigs(d.configs, now, seedFailAt);
      var e1 := e.(configs := Some(seeded), statsTable := Some(d.stats));
      match LoadRuleConfigsFromDB(e1, loadOk)
      case Err(m) => (e1, Err(m))
      case Ok(e2) =>
        var (e3, _) := LoadStatsFromDB(e2, statsOk);
        (e3.(sync := Some(AlertEngineStatsSync.NewSync())), Ok(()))
  }

  /**
   * After a fully successful start-up the in-memory totals equal the
   * persisted ones with nothing pending, so every later flush keeps the
   * table and memory agreeing.
   */
  lemma InitEstablishesSync(e: AlertEngine.Engine, d: Database, now: int, seedFailAt: nat)
    ensures var r := InitWithDB(e, Some(d), now, seedFailAt, true, true).0;
      r.sync.Some? && AlertManagement.InSync(r.stats, r.sync.value, AlertStatsPersistence.Stored(d.stats))
  {
  }

  /**
   * After a successful start-up each built-in rule takes the flag and
   * cooldown stored for it, a row seeded now carrying the default
   * cooldown, and a row already present winning over the default.
   */
  lemma InitAppliesStoredConfig(e: AlertEngine.Engine, d: Database, now: int, statsOk: bool, j: nat)
    requires j < |e.rules| && e.rules[j].id in d.configs
    ensures var r := InitWithDB(e, Some(d), now, 4, true, statsOk).0;
      r.rules[j].enabled == d.configs[e.rules[j].id].enabled
      && r.rules[j].cooldown == d.configs[e.rules[j].id].cooldownSeconds
  {
  }

  /** A fresh engine started against empty tables gets the seeded default cooldowns. */
  lemma FreshStartUsesSeededDefaults(cfg: AlertEngine.AlertConfig, d: Database, now: int, statsOk: bool)
    requires cfg.historyMaxSize >= 0 && d.configs == map[]
    ensures var r := InitWithDB(AlertEngine.NewAlertEngine(None, cfg), Some(d), now, 4, true, statsOk).0;
      r.rules[0].cooldown == 600 && r.rules[1].cooldown == 1800
      && r.rules[2].cooldown == 900 && r.rules[3].cooldown == 3600
  {
    SeedEmptyGivesDefaults(now);
    AlertRulePersistence.DefaultCooldowns(now);
  }

  /** Seeding an empty table files each built-in row under its own ID. */
  lemma SeedEmptyGivesDefaults(now: int)
    ensures var seeded := AlertRulePersistence.SeedDefaultConfigs(map[], now, 4).0;
      forall i :: 0 <= i < 4 ==>
        AlertRulePersistence.Defaults(now)[i].id in seeded
        && seeded[AlertRulePersistence.Defaults(now)[i].id] == AlertRulePersistence.Defaults(now)[i]
  {
    var seeded := AlertRulePersistence.SeedDefaultConfigs(map[], now, 4).0;
    var defaults := AlertRulePersistence.Defaults(now);
    forall i | 0 <= i < 4
      ensures defaults[i].id in seeded && seeded[defaults[i].id] == defaults[i]
    {
      var row := seeded[defaults[i].id];
      assert row in defaults && row.id == defaults[i].id;
    }
  }
}
