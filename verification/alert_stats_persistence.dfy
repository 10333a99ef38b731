/**
 * The `alert_stats` table: a single row (id = 1) holding the persisted
 * check and notification totals, read at start-up and grown by deltas.
 */
module AlertStatsPersistence {
  import opened Wrappers

  /** The three persisted totals. */
  datatype Totals = Totals(checks: int, success: int, failed: int)

  const Zero: Totals := Totals(0, 0, 0)

  function Add(a: Totals, b: Totals): Totals
  {
    Totals(a.checks + b.checks, a.success + b.success, a.failed + b.failed)
  }

  /** The table: row 1, or no row yet. */
  datatype StatsTable = StatsTable(row: Option<Totals>)

  /** What the table adds up to, a missing row counting as zeros. */
  function Stored(t: StatsTable): Totals
  {
    t.row.UnwrapOr(Zero)
  }

  /** Load: the row's totals; no row reads as zeros; a failed query is an error. */
  function Load(t: StatsTable, queryOk: bool): (r: Result<Totals>)
    ensures !queryOk <==> r.Err?
    ensures r.Ok? && t.row.None? ==> r.value == Zero
    ensures r.Ok? && t.row.Some? ==> r.value == t.row.value
  {
    if !queryOk then Err("query failed") else Ok(Stored(t))
  }

  /**
   * Update: add the deltas to row 1, inserting the row when the update
   * touched none. All-zero deltas touch nothing. `updateOk`/`insertOk`
   * say whether the two statements succeed.
   */
  function Update(t: StatsTable, delta: Totals, updateOk: bool, insertOk: bool): (r: Result<StatsTable>)
    ensures delta == Zero ==> r == Ok(t)
    ensures delta != Zero && !updateOk ==> r.Err?
    ensures delta != Zero && updateOk && t.row.Some? ==> r == Ok(StatsTable(Some(Add(t.row.value, delta))))
    ensures delta != Zero && updateOk && t.row.None? ==>
      (insertOk ==> r == Ok(StatsTable(Some(delta)))) && (!insertOk ==> r.Err?)
  {
    if delta == Zero then Ok(t)
    else if !updateOk then Err("failed to update alert stats")
    else match t.row
      case Some(row) => Ok(StatsTable(Some(Add(row, delta))))
      case None => if insertOk then Ok(StatsTable(Some(delta))) else Err("failed to insert alert stats")
  }

  /** A successful update leaves the stored totals grown by exactly the deltas. */
  lemma UpdateAddsDeltas(t: StatsTable, delta: Totals, updateOk: bool, insertOk: bool)
    requires Update(t, delta, updateOk, insertOk).Ok?
    ensures Stored(Update(t, delta, updateOk, insertOk).value) == Add(Stored(t), delta)
  {
  }
}
