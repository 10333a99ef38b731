/**
 * The alert repository over the `alerts` table: saving, deleting, counting
 * and the filtered, paged query, including how the SQL text and its
 * arguments are assembled from the optional level and rule filters.
 *
 * The table is a sequence in insertion order; a nil database is None.
 * Each statement's success is a parameter.
 */
module AlertRepository {
  import opened Wrappers
  import Seqs
  import opened AlertTypes

  type Table = seq<Alert>

  const NotInitialized: string := "database not initialized"

  /** A positional SQL argument. */
  datatype Arg = StrArg(s: string) | IntArg(n: int)

  /** One optional equality filter. */
  datatype Cond = LevelIs(level: string) | RuleIs(rule: string)

  /** The filters a request asks for: an empty level or rule means "any". */
  function FilterConds(level: string, rule: string): (cs: seq<Cond>)
    ensures |cs| <= 2
  {
    (if level != "" then [LevelIs(level)] else []) + (if rule != "" then [RuleIs(rule)] else [])
  }

  /** A piece of SQL text: literal text or a positional placeholder ("?"). */
  datatype Piece = Sql(text: string) | Param

  /** How many placeholders a sequence of pieces holds. */
  function Params(ps: seq<Piece>): nat
  {
    if ps == [] then 0 else Params(ps[..|ps| - 1]) + (if ps[|ps| - 1].Param? then 1 else 0)
  }

  lemma {:induction false} ParamsAppend(a: seq<Piece>, b: seq<Piece>)
    ensures Params(a + b) == Params(a) + Params(b)
    decreases |b|
  {
    if b == [] {
      assert a + b == a;
    } else {
      assert (a + b)[..|a + b| - 1] == a + b[..|b| - 1];
      ParamsAppend(a, b[..|b| - 1]);
    }
  }

  /** One piece holds a placeholder exactly when it is one. */
  lemma ParamsSingle(p: Piece)
    ensures Params([p]) == (if p.Param? then 1 else 0)
  {
    assert [p][..0] == [];
  }

  /** The SQL of one filter: " AND <column> = ?". */
  function CondSql(c: Cond): seq<Piece>
  {
    match c
    case LevelIs(_) => [Sql(" AND level = "), Param]
    case RuleIs(_) => [Sql(" AND rule = "), Param]
  }

  /** The argument of one filter. */
  function CondArg(c: Cond): Arg
  {
    match c
    case LevelIs(l) => StrArg(l)
    case RuleIs(r) => StrArg(r)
  }

  /** The WHERE clause: " WHERE 1=1" followed by each filter's SQL. */
  function WhereSql(cs: seq<Cond>): seq<Piece>
  {
    if cs == [] then [Sql(" WHERE 1=1")] else WhereSql(cs[..|cs| - 1]) + CondSql(cs[|cs| - 1])
  }

  /** The arguments of the filters, in order. */
  function WhereArgs(cs: seq<Cond>): (args: seq<Arg>)
    ensures |args| == |cs|
    ensures forall i :: 0 <= i < |cs| ==> args[i] == CondArg(cs[i])
  {
    seq(|cs|, i requires 0 <= i < |cs| => CondArg(cs[i]))
  }

  /** What a row must satisfy for the filters to select it. */
  predicate Holds(cs: seq<Cond>, a: Alert)
  {
    forall i :: 0 <= i < |cs| ==>
      match cs[i]
      case LevelIs(l) => a.level == l
      case RuleIs(r) => a.rule == r
  }

  /** The intended selection: an empty level or rule matches every alert. */
  predicate Matches(level: string, rule: string, a: Alert)
  {
    (level == "" || a.level == level) && (rule == "" || a.rule == rule)
  }

  /** The assembled filters select exactly the alerts the request asks for. */
  lemma FilterMeansMatch(level: string, rule: string, a: Alert)
    ensures Holds(FilterConds(level, rule), a) <==> Matches(level, rule, a)
  {
    var cs := FilterConds(level, rule);
    if level != "" {
      assert cs[0] == LevelIs(level);
    }
    if rule != "" {
      assert cs[|cs| - 1] == RuleIs(rule);
    }
  }

  /** Each filter contributes exactly one placeholder. */
  lemma {:induction false} WherePlaceholders(cs: seq<Cond>)
    ensures Params(WhereSql(cs)) == |cs|
  {
    if cs != [] {
      WherePlaceholders(cs[..|cs| - 1]);
      ParamsAppend(WhereSql(cs[..|cs| - 1]), CondSql(cs[|cs| - 1]));
      assert Params(CondSql(cs[|cs| - 1])) == 1 by {
        var c := cs[|cs| - 1];
        assert CondSql(c) == [CondSql(c)[0]] + [Param];
        ParamsSingle(CondSql(c)[0]);
        ParamsSingle(Param);
        ParamsAppend([CondSql(c)[0]], [Param]);
      }
    } else {
      assert [Sql(" WHERE 1=1")][..0] == [];
    }
  }

  const SelectSql: seq<Piece> := [Sql("SELECT id, level, rule, message, timestamp, metadata FROM alerts")]
  const CountSql: seq<Piece> := [Sql("SELECT COUNT(*) FROM alerts")]
  const PageSql: seq<Piece> := [Sql(" ORDER BY timestamp DESC LIMIT "), Param, Sql(" OFFSET "), Param]

  /** The two statements QueryFiltered sends and their arguments. */
  datatype Statements = Statements(countQuery: seq<Piece>, countArgs: seq<Arg>, dataQuery: seq<Piece>, dataArgs: seq<Arg>)

  /**
   * The statements of QueryFiltered. Each binds exactly as many arguments
   * as it has placeholders; the arguments are the non-empty filters,
   * level before rule; the data query repeats the count query's filters
   * and its arguments add limit and offset, in that order.
   */
  function FilteredStatements(level: string, rule: string, limit: int, offset: int): (st: Statements)
    ensures Params(st.countQuery) == |st.countArgs| && Params(st.dataQuery) == |st.dataArgs|
    ensures st.countArgs == (if level != "" then [StrArg(level)] else []) + (if rule != "" then [StrArg(rule)] else [])
    ensures st.dataArgs == st.countArgs + [IntArg(limit), IntArg(offset)]
    ensures |st.countQuery| >= 1 && |st.dataQuery| == |st.countQuery| + |PageSql|
    ensures st.countQuery[..1] == CountSql && st.dataQuery[..1] == SelectSql
    ensures st.dataQuery[1..|st.dataQuery| - |PageSql|] == st.countQuery[1..]
    ensures st.dataQuery[|st.dataQuery| - |PageSql|..] == PageSql
  {
    var cs := FilterConds(level, rule);
    var st := Statements(CountSql + WhereSql(cs), WhereArgs(cs), SelectSql + WhereSql(cs) + PageSql,
      WhereArgs(cs) + [IntArg(limit), IntArg(offset)]);
    PlaceholdersMatchArgs(cs, limit, offset);
    FilterArgs(level, rule);
    assert st.dataQuery[1..|st.dataQuery| - |PageSql|] == WhereSql(cs);
    assert st.dataQuery[|st.dataQuery| - |PageSql|..] == PageSql;
    st
  }

  /** The filter arguments are the level, then the rule, each only when non-empty. */
  lemma FilterArgs(level: string, rule: string)
    ensures WhereArgs(FilterConds(level, rule))
      == (if level != "" then [StrArg(level)] else []) + (if rule != "" then [StrArg(rule)] else [])
  {
  }

  /** In both statements every placeholder has exactly one argument. */
  lemma PlaceholdersMatchArgs(cs: seq<Cond>, limit: int, offset: int)
    ensures Params(CountSql + WhereSql(cs)) == |WhereArgs(cs)|
    ensures Params(SelectSql + WhereSql(cs) + PageSql) == |WhereArgs(cs) + [IntArg(limit), IntArg(offset)]|
  {
    WherePlaceholders(cs);
    ParamsAppend(CountSql, WhereSql(cs));
    ParamsAppend(SelectSql, WhereSql(cs));
    ParamsAppend(SelectSql + WhereSql(cs), PageSql);
    ParamsSingle(CountSql[0]);
    assert CountSql == [CountSql[0]];
    ParamsSingle(SelectSql[0]);
    assert SelectSql == [SelectSql[0]];
    assert Params(PageSql) == 2 by {
      var p0, p2 := PageSql[0], PageSql[2];
      assert PageSql == [p0] + [Param] + [p2] + [Param];
      ParamsSingle(p0);
      ParamsSingle(Param);
      ParamsSingle(p2);
      ParamsAppend([p0], [Param]);
      ParamsAppend([p0] + [Param], [p2]);
      ParamsAppend([p0] + [Param] + [p2], [Param]);
    }
  }

  /** The statement Count sends: the same filters as QueryFiltered's count query. */
  function CountStatement(level: string, rule: string): (r: (seq<Piece>, seq<Arg>))
    ensures r.0 == FilteredStatements(level, rule, 0, 0).countQuery
    ensures r.1 == FilteredStatements(level, rule, 0, 0).countArgs
  {
    var cs := FilterConds(level, rule);
    (CountSql + WhereSql(cs), WhereArgs(cs))
  }

  /** The rows a filter selects, in table order. */
  function Selected(t: Table, level: string, rule: string): (r: Table)
    ensures forall i :: 0 <= i < |r| ==> r[i] in t && Matches(level, rule, r[i])
    ensures forall i :: 0 <= i < |t| && Matches(level, rule, t[i]) ==> t[i] in r
  {
    Seqs.Filter(t, (a: Alert) => Matches(level, rule, a))
  }

  /** The sort key of ORDER BY timestamp. */
  function TimestampKey(a: Alert): real
  {
    a.timestamp as real
  }

  /** Newest first, the model of ORDER BY timestamp DESC (ties in one of the orders MySQL may use). */
  function NewestFirst(t: Table): (r: Table)
    ensures |r| == |t| && multiset(r) == multiset(t)
    ensures forall i, j :: 0 <= i < j < |r| ==> r[i].timestamp >= r[j].timestamp
  {
    var r := Seqs.SortDesc(t, TimestampKey);
    assert forall i, j :: 0 <= i < j < |r| ==> r[i].timestamp as real >= r[j].timestamp as real;
    r
  }

  /** Save: append the alert; a nil database or a failed insert is an error. */
  function Save(db: Option<Table>, a: Alert, ok: bool): (r: Result<Table>)
    ensures db.None? ==> r == Err(NotInitialized)
    ensures r.Ok? <==> db.Some? && ok
    ensures r.Ok? ==> r.value == db.value + [a]
  {
    match db
    case None => Err(NotInitialized)
    case Some(t) => if ok then Ok(t + [a]) else Err("insert failed")
  }

  /** QueryRecent: the `limit` newest alerts, newest first. */
  function QueryRecent(db: Option<Table>, limit: int, ok: bool): (r: Result<Table>)
    ensures db.None? ==> r == Err(NotInitialized)
    ensures r.Ok? <==> db.Some? && ok && limit >= 0
    ensures r.Ok? ==> |r.value| == Seqs.Min(limit, |db.value|)
    ensures r.Ok? ==> forall i :: 0 <= i < |r.value| ==> r.value[i] in db.value
    ensures r.Ok? ==> forall i, j :: 0 <= i < j < |r.value| ==> r.value[i].timestamp >= r.value[j].timestamp
    ensures r.Ok? ==> multiset(r.value) <= multiset(db.value)
    ensures r.Ok? ==> forall a :: a in db.value && a !in r.value ==>
      forall i :: 0 <= i < |r.value| ==> r.value[i].timestamp >= a.timestamp
    ensures r.Ok? ==> r.value == Seqs.Take(NewestFirst(db.value), limit)
  {
    match db
    case None => Err(NotInitialized)
    case Some(t) =>
      if !ok || limit < 0 then Err("query failed")
      else
        NewestTake(t, limit);
        Ok(Seqs.Take(NewestFirst(t), limit))
  }

  /**
   * The first `limit` alerts newest first come from the table and are
   * no older than any alert left out.
   */
  lemma NewestTake(t: Table, limit: nat)
    ensures multiset(Seqs.Take(NewestFirst(t), limit)) <= multiset(t)
    ensures forall i :: 0 <= i < |Seqs.Take(NewestFirst(t), limit)| ==> Seqs.Take(NewestFirst(t), limit)[i] in t
    ensures forall a :: a in t && a !in Seqs.Take(NewestFirst(t), limit) ==>
      forall i :: 0 <= i < |Seqs.Take(NewestFirst(t), limit)| ==> Seqs.Take(NewestFirst(t), limit)[i].timestamp >= a.timestamp
  {
    var r := Seqs.Take(NewestFirst(t), limit);
    Seqs.TakeSubMultiset(NewestFirst(t), limit);
    assert forall i :: 0 <= i < |r| ==> r[i] in multiset(t);
    forall a | a in t && a !in r
      ensures forall i :: 0 <= i < |r| ==> r[i].timestamp >= a.timestamp
    {
      Seqs.TopK(t, TimestampKey, limit, a);
    }
  }

  /**
   * QueryFiltered: the total number of matching alerts, and the page of
   * them newest first after skipping `offset`, at most `limit` long.
   * A nil database, a failed statement or a negative limit or offset
   * (which MySQL rejects) is an error.
   */
  function QueryFiltered(db: Option<Table>, level: string, rule: string, limit: int, offset: int,
                         countOk: bool, queryOk: bool): (r: Result<(Table, int)>)
    ensures db.None? ==> r == Err(NotInitialized)
    ensures r.Ok? <==> db.Some? && countOk && queryOk && limit >= 0 && offset >= 0
    ensures r.Ok? ==> r.value.1 == |Selected(db.value, level, rule)|
    ensures r.Ok? ==> var n := |Selected(db.value, level, rule)|;
      |r.value.0| == (if offset >= n then 0 else Seqs.Min(limit, n - offset))
    ensures r.Ok? ==> forall i :: 0 <= i < |r.value.0| ==>
      r.value.0[i] == NewestFirst(Selected(db.value, level, rule))[offset + i]
  {
    match db
    case None => Err(NotInitialized)
    case Some(t) =>
      if !countOk then Err("count query failed")
      else if !queryOk || limit < 0 || offset < 0 then Err("query failed")
      else
        var matching := NewestFirst(Selected(t, level, rule));
        var page := if offset >= |matching| then [] else Seqs.Take(matching[offset..], limit);
        Ok((page, |Selected(t, level, rule)|))
  }

  /** Delete: remove every alert with the ID; a nil database or a failed delete is an error. */
  function Delete(db: Option<Table>, id: string, ok: bool): (r: Result<Table>)
    ensures db.None? ==> r == Err(NotInitialized)
    ensures r.Ok? <==> db.Some? && ok
    ensures r.Ok? ==> forall i :: 0 <= i < |r.value| ==> r.value[i].id != id && r.value[i] in db.value
    ensures r.Ok? ==> forall i :: 0 <= i < |db.value| && db.value[i].id != id ==> db.value[i] in r.value
    ensures r.Ok? ==> Seqs.Subsequence(r.value, db.value)
    ensures r.Ok? ==> forall i :: 0 <= i < |db.value| ==>
      multiset(r.value)[db.value[i]] == if db.value[i].id == id then 0 else multiset(db.value)[db.value[i]]
  {
    match db
    case None => Err(NotInitialized)
    case Some(t) =>
      Seqs.FilterKeepsCounts(t, (a: Alert) => a.id != id);
      if ok then Ok(Seqs.Filter(t, (a: Alert) => a.id != id)) else Err("delete failed")
  }

  /** Count: how many alerts match the filters; a nil database or a failed query is an error. */
  function Count(db: Option<Table>, level: string, rule: string, ok: bool): (r: Result<int>)
    ensures db.None? ==> r == Err(NotInitialized)
    ensures r.Ok? <==> db.Some? && ok
    ensures r.Ok? ==> r.value == Seqs.CountWhere(db.value, (a: Alert) => Matches(level, rule, a))
  {
    match db
    case None => Err(NotInitialized)
    case Some(t) => if ok then Ok(|Selected(t, level, rule)|) else Err("count failed")
  }

  /** Count agrees with the total QueryFiltered reports for the same filters. */
  lemma CountAgreesWithQuery(t: Table, level: string, rule: string, limit: nat, offset: nat)
    ensures Count(Some(t), level, rule, true).value == QueryFiltered(Some(t), level, rule, limit, offset, true, true).value.1
  {
  }
}
