/**
 * The `alert_rule_configs` table, keyed by rule ID: loading, saving and
 * updating single fields, seeding the four built-in rules, and applying a
 * stored configuration to a rule.
 *
 * Each statement's success is a parameter; a statement that fails changes
 * nothing. `now` is the database's CURRENT_TIMESTAMP.
 */
module AlertRulePersistence {
  import opened Wrappers
  import opened AlertTypes

  /** alert_rule_persistence.go `RuleConfigDB`. */
  datatype RuleConfigDB = RuleConfigDB(id: string, name: string, description: string, enabled: bool,
                                       cooldownSeconds: int, configJson: string, updatedAt: int)

  type RuleConfigTable = map<string, RuleConfigDB>

  /** A table whose rows sit under their own IDs. */
  predicate WellKeyed(t: RuleConfigTable)
  {
    forall id :: id in t ==> t[id].id == id
  }

  /** LoadAll: every row by ID; a failed query or scan is an error. */
  function LoadAll(t: RuleConfigTable, ok: bool): (r: Result<RuleConfigTable>)
    ensures ok <==> r.Ok?
    ensures r.Ok? ==> r.value == t
  {
    if ok then Ok(t) else Err("failed to load rule configs")
  }

  /**
   * Save: insert the rule with empty name and description, or, when the ID
   * exists, update enabled, cooldown and config only.
   */
  function Save(t: RuleConfigTable, id: string, enabled: bool, cooldownSeconds: int, configJson: string,
                now: int, ok: bool): (r: Result<RuleConfigTable>)
    ensures ok <==> r.Ok?
    ensures r.Ok? ==> r.value.Keys == t.Keys + {id}
    ensures r.Ok? ==> forall other :: other in t && other != id ==> r.value[other] == t[other]
    ensures r.Ok? ==>
      var row := r.value[id];
      row.enabled == enabled && row.cooldownSeconds == cooldownSeconds && row.configJson == configJson
      && (id in t ==> row.name == t[id].name && row.description == t[id].description)
      && (id !in t ==> row.id == id && row.name == "" && row.description == "")
    ensures r.Ok? && WellKeyed(t) ==> WellKeyed(r.value)
  {
    if !ok then Err("failed to save rule config")
    else if id in t then
      Ok(t[id := t[id].(enabled := enabled, cooldownSeconds := cooldownSeconds, configJson := configJson, updatedAt := now)])
    else
      Ok(t[id := RuleConfigDB(id, "", "", enabled, cooldownSeconds, configJson, now)])
  }

  /** The error UpdateEnabled, UpdateCooldown and UpdateConfigJSON return when no row has the ID. */
  function NotFound(id: string): string
  {
    "rule not found: " + id
  }

  /**
   * The shape shared by UpdateEnabled, UpdateCooldown and UpdateConfigJSON:
   * one UPDATE by ID, its own message when the statement fails, and "rule not
   * found" when no row was affected.
   */
  function UpdateRow(t: RuleConfigTable, id: string, change: RuleConfigDB -> RuleConfigDB, ok: bool, failure: string)
    : (r: Result<RuleConfigTable>)
    ensures r.Ok? <==> ok && id in t
    ensures !ok ==> r == Err(failure)
    ensures ok && id !in t ==> r == Err(NotFound(id))
    ensures r.Ok? ==> r.value == t[id := change(t[id])]
  {
    if !ok then Err(failure)
    else if id !in t then Err(NotFound(id))
    else Ok(t[id := change(t[id])])
  }

  /** UpdateEnabled: set one row's flag; an unknown ID is "rule not found". */
  function UpdateEnabled(t: RuleConfigTable, id: string, enabled: bool, now: int, ok: bool): (r: Result<RuleConfigTable>)
    ensures r.Ok? <==> ok && id in t
    ensures ok && id !in t ==> r == Err(NotFound(id))
    ensures r.Ok? ==> r.value == t[id := t[id].(enabled := enabled, updatedAt := now)]
  {
    UpdateRow(t, id, (row: RuleConfigDB) => row.(enabled := enabled, updatedAt := now), ok, "failed to update enabled status")
  }

  /** UpdateCooldown: set one row's cooldown; an unknown ID is "rule not found". */
  function UpdateCooldown(t: RuleConfigTable, id: string, cooldownSeconds: int, now: int, ok: bool): (r: Result<RuleConfigTable>)
    ensures r.Ok? <==> ok && id in t
    ensures ok && id !in t ==> r == Err(NotFound(id))
    ensures r.Ok? ==> r.value == t[id := t[id].(cooldownSeconds := cooldownSeconds, updatedAt := now)]
  {
    UpdateRow(t, id, (row: RuleConfigDB) => row.(cooldownSeconds := cooldownSeconds, updatedAt := now), ok, "failed to update cooldown")
  }

  /** UpdateConfigJSON: set one row's JSON configuration; an unknown ID is "rule not found". */
  function UpdateConfigJson(t: RuleConfigTable, id: string, configJson: string, now: int, ok: bool): (r: Result<RuleConfigTable>)
    ensures r.Ok? <==> ok && id in t
    ensures ok && id !in t ==> r == Err(NotFound(id))
    ensures r.Ok? ==> r.value == t[id := t[id].(configJson := configJson, updatedAt := now)]
  {
    UpdateRow(t, id, (row: RuleConfigDB) => row.(configJson := configJson, updatedAt := now), ok, "failed to update config")
  }

  /** A field written by UpdateEnabled reads back from LoadAll. */
  lemma UpdateEnabledThenLoad(t: RuleConfigTable, id: string, enabled: bool, now: int)
    requires id in t
    ensures var r := UpdateEnabled(t, id, enabled, now, true);
      r.Ok? && LoadAll(r.value, true).value[id].enabled == enabled
      && LoadAll(r.value, true).value[id].name == t[id].name
  {
  }

  /** The four built-in rules as alert_rule_persistence.go seeds them (cooldowns in seconds, thresholds in the JSON). */
  const QueueBacklogDefault := RuleConfigDB("queue_backlog", "队列积压告警", "Staging队列长度超过阈值", true, 600,
    "{\"threshold\": 100}", 0)
  const LowSuccessRateDefault := RuleConfigDB("low_success_rate", "晋升成功率过低", "记忆晋升成功率低于阈值", true, 1800,
    "{\"threshold\": 60}", 0)
  const CacheAnomalyDefault := RuleConfigDB("cache_anomaly", "缓存命中率异常", "判定缓存命中率异常（智能检测）", true, 900,
    "{\"window_minutes\": 5, \"min_samples\": 500, \"warn_threshold\": 30, \"error_threshold\": 15}", 0)
  const DecaySpikeDefault := RuleConfigDB("decay_spike", "记忆衰减突增", "遗忘的记忆数量突然增加", true, 3600,
    "{\"threshold\": 1000}", 0)

  /** The built-in rules in seeding order, stamped with the insertion time. */
  function Defaults(now: int): (d: seq<RuleConfigDB>)
    ensures |d| == 4
  {
    [ QueueBacklogDefault.(updatedAt := now), LowSuccessRateDefault.(updatedAt := now),
      CacheAnomalyDefault.(updatedAt := now), DecaySpikeDefault.(updatedAt := now) ]
  }

  /** Insert each row unless its ID is taken; the statement for row `failAt` (if any) fails and stops the loop. */
  function SeedRows(t: RuleConfigTable, rows: seq<RuleConfigDB>, failAt: nat): (r: (RuleConfigTable, Result<()>))
    ensures r.1.Ok? <==> failAt >= |rows|
    ensures forall id :: id in t ==> id in r.0 && r.0[id] == t[id]
    ensures forall id :: id in r.0 && id !in t ==> r.0[id] in rows && r.0[id].id == id
    ensures failAt >= |rows| ==> forall i :: 0 <= i < |rows| ==> rows[i].id in r.0
    decreases |rows|
  {
    if rows == [] then (t, Ok(()))
    else if failAt == 0 then (t, Err("failed to seed default config for " + rows[0].id))
    else
      var t' := if rows[0].id in t then t else t[rows[0].id := rows[0]];
      var rest := SeedRows(t', rows[1..], failAt - 1);
      assert forall x :: x in rows[1..] ==> x in rows;
      assert forall i :: 0 <= i < |rows[1..]| ==> rows[1..][i] == rows[i + 1];
      rest
  }

  /**
   * SeedDefaultConfigs: the four built-in rules are present afterwards,
   * rows that already existed are untouched, and a newly inserted row is
   * exactly its default, filed under its own ID.
   */
  function SeedDefaultConfigs(t: RuleConfigTable, now: int, failAt: nat): (r: (RuleConfigTable, Result<()>))
    ensures r.1.Ok? <==> failAt >= 4
    ensures forall id :: id in t ==> id in r.0 && r.0[id] == t[id]
    ensures r.1.Ok? ==> forall i :: 0 <= i < 4 ==> Defaults(now)[i].id in r.0
    ensures forall id :: id in r.0 && id !in t ==> r.0[id] in Defaults(now)
    ensures WellKeyed(t) ==> WellKeyed(r.0)
  {
    SeedRows(t, Defaults(now), failAt)
  }

  /** The default cooldowns: 10, 30, 15 and 60 minutes. */
  lemma DefaultCooldowns(now: int)
    ensures Defaults(now)[0].id == "queue_backlog" && Defaults(now)[0].cooldownSeconds == 600
    ensures Defaults(now)[1].id == "low_success_rate" && Defaults(now)[1].cooldownSeconds == 1800
    ensures Defaults(now)[2].id == "cache_anomaly" && Defaults(now)[2].cooldownSeconds == 900
    ensures Defaults(now)[3].id == "decay_spike" && Defaults(now)[3].cooldownSeconds == 3600
  {
  }

  /**
   * ApplyConfigToRule: copy name, description and enabled, and take the
   * cooldown in seconds; no configuration leaves the rule alone. The ID,
   * the check and the firing state are never touched.
   */
  function ApplyConfigToRule(rule: AlertRule, config: Option<RuleConfigDB>): (r: AlertRule)
    ensures config.None? ==> r == rule
    ensures r.id == rule.id && r.kind == rule.kind && r.lastFired == rule.lastFired
    ensures config.Some? ==>
      r.name == config.value.name && r.description == config.value.description
      && r.enabled == config.value.enabled && r.cooldown == config.value.cooldownSeconds
  {
    match config
    case None => rule
    case Some(c) => rule.(name := c.name, description := c.description, enabled := c.enabled, cooldown := c.cooldownSeconds)
  }

  /** SerializeRuleConfig: the JSON text, or "{}" when marshalling fails. */
  function SerializeRuleConfig(marshalled: Option<string>): (r: string)
    ensures marshalled.None? <==> (r == "{}" && marshalled != Some("{}"))
    ensures marshalled.Some? ==> r == marshalled.value
  {
    marshalled.UnwrapOr("{}")
  }
}
