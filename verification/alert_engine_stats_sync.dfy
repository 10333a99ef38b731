/**
 * The alert statistics sync: checks and notification outcomes are counted
 * as pending deltas and flushed to the `alert_stats` row periodically. A
 * failed flush puts the deltas back, so nothing counted is lost.
 */
module AlertEngineStatsSync {
  import opened Wrappers
  import opened AlertStatsPersistence

  /** alert_engine_stats_sync.go `AlertEngineStatsSync`: the pending deltas. */
  datatype Sync = Sync(pending: Totals)

  /** NewAlertEngineStatsSync: nothing pending. */
  function NewSync(): (s: Sync)
    ensures s.pending == Zero
  {
    Sync(Zero)
  }

  /** RecordCheck: one more pending check. */
  function RecordCheck(s: Sync): (r: Sync)
    ensures r.pending == Add(s.pending, Totals(1, 0, 0))
  {
    Sync(s.pending.(checks := s.pending.checks + 1))
  }

  /** RecordNotifySuccess: one more pending success. */
  function RecordNotifySuccess(s: Sync): (r: Sync)
    ensures r.pending == Add(s.pending, Totals(0, 1, 0))
  {
    Sync(s.pending.(success := s.pending.success + 1))
  }

  /** RecordNotifyFailed: one more pending failure. */
  function RecordNotifyFailed(s: Sync): (r: Sync)
    ensures r.pending == Add(s.pending, Totals(0, 0, 1))
  {
    Sync(s.pending.(failed := s.pending.failed + 1))
  }

  /**
   * FlushToDB: take the pending deltas (leaving zeros); nothing pending
   * is a no-op; without a stats table the deltas are dropped; otherwise
   * add them to the row, and put them back if that fails.
   */
  function FlushToDB(s: Sync, table: Option<StatsTable>, updateOk: bool, insertOk: bool): (r: (Sync, Option<StatsTable>))
    ensures s.pending == Zero ==> r == (s, table)
    ensures table.None? ==> r == (NewSync(), None)
    ensures table.Some? ==> r.1.Some?
    ensures table.Some? && Update(table.value, s.pending, updateOk, insertOk).Ok? ==>
      r.0.pending == Zero && Stored(r.1.value) == Add(Stored(table.value), s.pending)
    ensures table.Some? && Update(table.value, s.pending, updateOk, insertOk).Err? ==>
      r == (s, table)
  {
    if s.pending == Zero then (s, table)
    else match table
      case None => (NewSync(), None)
      case Some(t) =>
        match Update(t, s.pending, updateOk, insertOk)
        case Ok(t') => (NewSync(), Some(t'))
        case Err(_) => (Sync(Add(Zero, s.pending)), table)
  }

  /** With a stats table, pending plus persisted is the same before and after any flush. */
  lemma FlushConserves(s: Sync, t: StatsTable, updateOk: bool, insertOk: bool)
    ensures var r := FlushToDB(s, Some(t), updateOk, insertOk);
      Add(r.0.pending, Stored(r.1.value)) == Add(s.pending, Stored(t))
  {
  }

  /** Recording then flushing successfully persists exactly what was recorded. */
  lemma RecordThenFlush(t: StatsTable, updateOk: bool, insertOk: bool)
    requires Update(t, Totals(1, 0, 0), updateOk, insertOk).Ok?
    ensures var r := FlushToDB(RecordCheck(NewSync()), Some(t), updateOk, insertOk);
      Stored(r.1.value) == Stored(t).(checks := Stored(t).checks + 1) && r.0.pending == Zero
  {
  }
}
