/**
 * The memory manager's own logic: where `Add` writes a conversation turn,
 * how `Retrieve` combines the recent session window with a vector search,
 * how `List` merges, orders and pages both tiers, and the lookup order of
 * `Update`. The stores are the models of `ListStore` (short-term) and
 * `VectorStore` (long-term); the embedder's answer is a parameter.
 */
module Manager {
  import opened Wrappers
  import opened Types
  import opened Text
  import Seqs
  import ListStore
  import VectorStore

  /** The configuration values the manager reads. */
  datatype Config = Config(contextWindow: int, maxRecentMemories: int)

  const StmKeyPrefix: string := "memory:stm:"

  /** The list holding one session's short-term memory: "memory:stm:<user>:<session>". */
  function StmKey(userId: string, sessionId: string): (k: string)
    ensures HasPrefix(k, StmKeyPrefix + userId + ":")
  {
    StmKeyPrefix + userId + ":" + sessionId
  }

  /** Position of the first ':' (the length when there is none). */
  function ColonIndex(s: string): (n: nat)
    ensures n <= |s|
    ensures forall i :: 0 <= i < n ==> s[i] != ':'
    ensures n < |s| ==> s[n] == ':'
  {
    if s == [] || s[0] == ':' then 0 else 1 + ColonIndex(s[1..])
  }

  lemma {:induction false} ColonIndexAfter(u: string, rest: string)
    requires ':' !in u
    ensures ColonIndex(u + ":" + rest) == |u|
  {
    if u != [] {
      assert (u + ":" + rest)[1..] == u[1..] + ":" + rest;
      assert u[0] in u;
      ColonIndexAfter(u[1..], rest);
    }
  }

  /** For user IDs without ':' the key determines both the user and the session. */
  lemma StmKeyInjective(u1: string, s1: string, u2: string, s2: string)
    requires ':' !in u1 && ':' !in u2
    requires StmKey(u1, s1) == StmKey(u2, s2)
    ensures u1 == u2 && s1 == s2
  {
    var t1 := u1 + ":" + s1;
    var t2 := u2 + ":" + s2;
    assert StmKey(u1, s1) == StmKeyPrefix + t1;
    assert StmKey(u2, s2) == StmKeyPrefix + t2;
    assert t1 == StmKey(u1, s1)[|StmKeyPrefix|..];
    assert t2 == StmKey(u2, s2)[|StmKeyPrefix|..];
    ColonIndexAfter(u1, s1);
    ColonIndexAfter(u2, s2);
    assert u1 == t1[..|u1|];
    assert u2 == t2[..|u2|];
    assert s1 == t1[|u1| + 1..];
    assert s2 == t2[|u2| + 1..];
  }

  /** The conversation turn as stored: "User: <input>\nAI: <output>". */
  function TurnContent(input: string, output: string): string
  {
    "User: " + input + "\nAI: " + output
  }

  /**
   * Add: a short-term record (fresh `id`, clock `now`) tagged with the user
   * and session is appended, encoded, to the session's list.
   */
  function Add(stm: ListStore.Store, userId: string, sessionId: string, input: string, output: string,
               metadata: Metadata, id: string, now: int, encode: Record -> string): (r: (ListStore.Store, Record))
    ensures r.1.memType == ShortTerm && r.1.id == id && r.1.timestamp == now && r.1.embedding.None?
    ensures r.1.content == "User: " + input + "\nAI: " + output
    ensures HasPrefix(r.1.content, "User: " + input) && HasSuffix(r.1.content, "\nAI: " + output)
    ensures MetaString(r.1.metadata, "user_id") == Some(userId)
    ensures MetaString(r.1.metadata, "session_id") == Some(sessionId)
    ensures r.1.metadata.Keys == metadata.Keys + {"user_id", "session_id"}
    ensures forall k :: k in metadata && k != "user_id" && k != "session_id" ==> r.1.metadata[k] == metadata[k]
    ensures ListStore.Items(r.0, StmKey(userId, sessionId)) == ListStore.Items(stm, StmKey(userId, sessionId)) + [encode(r.1)]
    ensures forall k :: k != StmKey(userId, sessionId) ==> ListStore.Items(r.0, k) == ListStore.Items(stm, k)
  {
    var md := metadata["user_id" := VStr(userId)]["session_id" := VStr(sessionId)];
    var rec := Record(id, TurnContent(input, output), None, now, md, ShortTerm);
    assert TurnContent(input, output) == ("User: " + input) + ("\nAI: " + output);
    (ListStore.RPush(stm, StmKey(userId, sessionId), [encode(rec)]), rec)
  }

  /** The scan pattern `List` uses: one user's sessions, or every session. */
  function UserPattern(userId: string): string
  {
    if userId != "" then StmKeyPrefix + userId + ":*" else StmKeyPrefix + "*:*"
  }

  lemma UserPatternPrefix(userId: string)
    requires '*' !in userId
    ensures ListStore.UpToStar(UserPattern(userId)) == (if userId != "" then StmKeyPrefix + userId + ":" else StmKeyPrefix)
  {
    var p := UserPattern(userId);
    var want := if userId != "" then StmKeyPrefix + userId + ":" else StmKeyPrefix;
    assert p == want + "*" + (if userId != "" then "" else ":*");
    UpToStarOf(want, if userId != "" then "" else ":*");
  }

  lemma {:induction false} UpToStarOf(w: string, rest: string)
    requires '*' !in w
    ensures ListStore.UpToStar(w + "*" + rest) == w
  {
    if w != [] {
      assert w[0] in w;
      assert (w + "*" + rest)[1..] == w[1..] + "*" + rest;
      UpToStarOf(w[1..], rest);
    }
  }

  /** After `Add`, the session's list is among the keys a `List` for that user scans. */
  lemma AddIsScanned(stm: ListStore.Store, order: seq<string>, userId: string, sessionId: string)
    requires '*' !in userId
    requires Seqs.Enumerates(order, stm.lists.Keys)
    requires StmKey(userId, sessionId) in stm.lists
    ensures StmKey(userId, sessionId) in ListStore.ScanKeys(stm, order, UserPattern(userId))
  {
    UserPatternPrefix(userId);
    var k := StmKey(userId, sessionId);
    assert HasPrefix(k, StmKeyPrefix + userId + ":");
    assert k[..|StmKeyPrefix|] == StmKeyPrefix;
  }

  /** The decodable items, decoded, in list order (undecodable ones are skipped). */
  function DecodeAll(items: seq<string>, decode: string -> Option<Record>): (r: seq<Record>)
    ensures |r| <= |items|
    ensures forall i :: 0 <= i < |r| ==> exists j :: 0 <= j < |items| && decode(items[j]) == Some(r[i])
  {
    if items == [] then []
    else
      var rest := DecodeAll(items[1..], decode);
      assert forall i :: 0 <= i < |rest| ==> exists j :: 1 <= j < |items| && decode(items[j]) == Some(rest[i]) by {
        forall i | 0 <= i < |rest|
          ensures exists j :: 1 <= j < |items| && decode(items[j]) == Some(rest[i])
        {
          var j :| 0 <= j < |items[1..]| && decode(items[1..][j]) == Some(rest[i]);
          assert items[1..][j] == items[j + 1];
        }
      }
      match decode(items[0])
      case Some(rec) => [rec] + rest
      case None => rest
  }

  /** The session window `Retrieve` reads: the last `contextWindow` items. */
  function Window(items: seq<string>, contextWindow: int): (r: seq<string>)
    ensures contextWindow >= 0 ==> |r| == Seqs.Min(|items|, contextWindow)
    ensures contextWindow < 0 ==> r == []
    ensures Seqs.IsSuffix(r, items)
  {
    if |items| > contextWindow then
      (if contextWindow >= 0 then items[|items| - contextWindow..] else [])
    else items
  }

  /** The number of results asked of the vector search. */
  function SearchLimit(cfg: Config, limit: int): (n: int)
    ensures cfg.maxRecentMemories > 0 ==> n == Seqs.Min(limit, cfg.maxRecentMemories)
    ensures cfg.maxRecentMemories <= 0 ==> n == limit
  {
    if cfg.maxRecentMemories > 0 && limit > cfg.maxRecentMemories then cfg.maxRecentMemories else limit
  }

  const RetrieveThreshold: real := 0.7

  function UserFilter(userId: string): Metadata
  {
    map["user_id" := VStr(userId)]
  }

  /** The decodable records of the session window, oldest first. */
  function Recent(stm: ListStore.Store, cfg: Config, userId: string, sessionId: string,
                  decode: string -> Option<Record>): seq<Record>
  {
    DecodeAll(Window(ListStore.LRange(stm, StmKey(userId, sessionId), 0, -1), cfg.contextWindow), decode)
  }

  /** The final cut of `Retrieve`: at most `maxRecent` records when that is positive. */
  function CapRecent(all: seq<Record>, maxRecent: int): (r: seq<Record>)
    ensures Seqs.IsPrefix(r, all)
    ensures maxRecent > 0 ==> |r| == Seqs.Min(|all|, maxRecent)
    ensures maxRecent <= 0 ==> r == all
  {
    if maxRecent > 0 && |all| > maxRecent then all[..maxRecent] else all
  }

  /**
   * Retrieve: the decodable records of the session window, then the best
   * long-term matches for the user, cut to `MaxRecentMemories` when that is
   * set. `queryVec` is the embedder's answer (None: it failed). A negative
   * limit reaches the vector search unchanged and panics there once the
   * query is embedded (None stands for the panic).
   */
  function Retrieve(stm: ListStore.Store, ltm: seq<Record>, cfg: Config, userId: string, sessionId: string,
                    limit: int, queryVec: Option<Vector>, decode: string -> Option<Record>,
                    ratio: (real, real, real) -> real): (r: Option<Result<seq<Record>>>)
    ensures r.None? <==> queryVec.Some? && limit < 0
    ensures r.Some? ==> (queryVec.None? <==> r.value.Err?)
    ensures r.Some? && r.value.Err? ==> r.value.msg == "failed to embed query"
    ensures r.Some? && r.value.Ok? && cfg.maxRecentMemories > 0 ==> |r.value.value| <= cfg.maxRecentMemories
    ensures r.Some? && r.value.Ok? ==>
      var all := Recent(stm, cfg, userId, sessionId, decode)
        + VectorStore.Ranked(ltm, queryVec.value, SearchLimit(cfg, limit), RetrieveThreshold, UserFilter(userId), ratio);
      Seqs.IsPrefix(r.value.value, all) && (cfg.maxRecentMemories <= 0 || |all| <= cfg.maxRecentMemories ==> r.value.value == all)
        && (cfg.maxRecentMemories > 0 && |all| > cfg.maxRecentMemories ==> |r.value.value| == cfg.maxRecentMemories)
  {
    match queryVec
    case None => Some(Err("failed to embed query"))
    case Some(v) =>
      match VectorStore.Search(ltm, v, SearchLimit(cfg, limit), RetrieveThreshold, UserFilter(userId), ratio)
      case None => None
      case Some(found) => Some(Ok(CapRecent(Recent(stm, cfg, userId, sessionId, decode) + found, cfg.maxRecentMemories)))
  }

  /** The session part of `Retrieve` is at most the last `ContextWindow` items of the session's list. */
  lemma RecentIsWindow(stm: ListStore.Store, cfg: Config, userId: string, sessionId: string,
                       decode: string -> Option<Record>)
    ensures var items := ListStore.Items(stm, StmKey(userId, sessionId));
      |Recent(stm, cfg, userId, sessionId, decode)| <= Seqs.Max(0, Seqs.Min(|items|, cfg.contextWindow))
      && Recent(stm, cfg, userId, sessionId, decode) == DecodeAll(Window(items, cfg.contextWindow), decode)
  {
    ListStore.LRangeAll(stm, StmKey(userId, sessionId));
  }

  /** The long-term records `Retrieve` returns all belong to the user and scored at least 0.7. */
  lemma RetrieveLtmBelongsToUser(stm: ListStore.Store, ltm: seq<Record>, cfg: Config, userId: string, sessionId: string,
                                 limit: int, v: Vector, decode: string -> Option<Record>,
                                 ratio: (real, real, real) -> real)
    requires limit >= 0
    ensures var found := VectorStore.Ranked(ltm, v, SearchLimit(cfg, limit), RetrieveThreshold, UserFilter(userId), ratio);
      forall i :: 0 <= i < |found| ==>
        found[i] in ltm && MetaString(found[i].metadata, "user_id") == Some(userId)
        && VectorStore.Score(v, found[i], ratio) >= RetrieveThreshold
  {
    var found := VectorStore.Ranked(ltm, v, SearchLimit(cfg, limit), RetrieveThreshold, UserFilter(userId), ratio);
    forall i | 0 <= i < |found|
      ensures MetaString(found[i].metadata, "user_id") == Some(userId)
    {
      assert VectorStore.MetadataMatches(found[i], UserFilter(userId));
      assert "user_id" in UserFilter(userId);
    }
  }

  /** The query of `List`. */
  datatype Filter = Filter(userId: string, kind: string, limit: int, page: int)

  function EffectiveLimit(f: Filter): (n: nat)
    ensures n > 0
    ensures f.limit > 0 ==> n == f.limit
  {
    if f.limit <= 0 then 50 else f.limit
  }

  function EffectivePage(f: Filter): (n: nat)
    ensures n > 0
    ensures f.page > 0 ==> n == f.page
  {
    if f.page <= 0 then 1 else f.page
  }

  function Offset(f: Filter): nat
  {
    (EffectivePage(f) - 1) * EffectiveLimit(f)
  }

  /** A short-term record `List` keeps for the user: one tagged with another user is skipped. */
  predicate StmVisible(rec: Record, userId: string)
  {
    userId == "" || MetaString(rec.metadata, "user_id").None? || MetaString(rec.metadata, "user_id").value == userId
  }

  /** The visible decodable records of the given lists, list by list. */
  function GatherStm(stm: ListStore.Store, keys: seq<string>, userId: string, decode: string -> Option<Record>): (r: seq<Record>)
    ensures forall i :: 0 <= i < |r| ==> StmVisible(r[i], userId)
  {
    if keys == [] then []
    else
      Seqs.Filter(DecodeAll(ListStore.Items(stm, keys[0]), decode), (rec: Record) => StmVisible(rec, userId))
      + GatherStm(stm, keys[1..], userId, decode)
  }

  predicate WantsStm(kind: string) { kind == "short_term" || kind == "all" || kind == "" }

  predicate WantsMixedLtm(kind: string) { kind == "all" || kind == "" }

  function LtmFilter(userId: string): (m: Metadata)
    ensures VectorStore.ListFilterOk(m)
  {
    if userId != "" then map["user_id" := VStr(userId)] else map[]
  }

  function TimeKey(rec: Record): real { rec.timestamp as real }

  /** The records a merged `List` sorts before paging. */
  function Merged(stm: ListStore.Store, order: seq<string>, ltm: seq<Record>, f: Filter,
                  decode: string -> Option<Record>): seq<Record>
    requires Seqs.Enumerates(order, stm.lists.Keys)
  {
    var fromStm := if WantsStm(f.kind) then GatherStm(stm, ListStore.ScanKeys(stm, order, UserPattern(f.userId)), f.userId, decode) else [];
    var fromLtm := if WantsMixedLtm(f.kind) then VectorStore.List(ltm, LtmFilter(f.userId), EffectiveLimit(f) + Offset(f), 0) else [];
    fromStm + fromLtm
  }

  /** Go's `s[offset:min(offset+limit, len)]`, empty once the offset passes the end. */
  function Page<T>(s: seq<T>, offset: nat, limit: nat): (r: seq<T>)
    ensures |r| == if offset >= |s| then 0 else Seqs.Min(limit, |s| - offset)
    ensures forall i :: 0 <= i < |r| ==> r[i] == s[offset + i]
  {
    if offset >= |s| then [] else s[offset..Seqs.Min(offset + limit, |s|)]
  }

  /**
   * List. A "long_term" query is paged by the vector store itself; any
   * other is merged, ordered newest first and paged here.
   */
  function List(stm: ListStore.Store, order: seq<string>, ltm: seq<Record>, f: Filter,
                decode: string -> Option<Record>): (r: seq<Record>)
    requires Seqs.Enumerates(order, stm.lists.Keys)
    ensures |r| <= EffectiveLimit(f)
    ensures f.kind == LongTerm ==> r == VectorStore.List(ltm, LtmFilter(f.userId), EffectiveLimit(f), Offset(f))
    ensures f.kind != LongTerm ==>
      var sorted := Seqs.SortDesc(Merged(stm, order, ltm, f, decode), TimeKey);
      r == Page(sorted, Offset(f), EffectiveLimit(f))
      && (forall i, j :: 0 <= i < j < |r| ==> r[i].timestamp >= r[j].timestamp)
      && (forall i :: 0 <= i < |r| ==> r[i] in Merged(stm, order, ltm, f, decode))
  {
    if f.kind == LongTerm then VectorStore.List(ltm, LtmFilter(f.userId), EffectiveLimit(f), Offset(f))
    else
      var merged := Merged(stm, order, ltm, f, decode);
      var sorted := Seqs.SortDesc(merged, TimeKey);
      var r := Page(sorted, Offset(f), EffectiveLimit(f));
      SortedPage(merged, sorted, r, Offset(f), EffectiveLimit(f));
      r
  }

  /** A page of the newest-first ordering is newest first and holds only merged records. */
  lemma SortedPage(merged: seq<Record>, sorted: seq<Record>, r: seq<Record>, offset: nat, limit: nat)
    requires Seqs.SortedDesc(sorted, TimeKey) && multiset(sorted) == multiset(merged)
    requires r == Page(sorted, offset, limit)
    ensures forall i, j :: 0 <= i < j < |r| ==> r[i].timestamp >= r[j].timestamp
    ensures forall i :: 0 <= i < |r| ==> r[i] in merged
  {
    forall i | 0 <= i < |r|
      ensures r[i] in merged
    {
      assert r[i] == sorted[offset + i];
      assert sorted[offset + i] in multiset(sorted);
    }
    forall i, j | 0 <= i < j < |r|
      ensures r[i].timestamp >= r[j].timestamp
    {
      assert TimeKey(sorted[offset + i]) >= TimeKey(sorted[offset + j]);
    }
  }

  /** A short-term listing for a user holds only records that are not tagged with another user. */
  lemma ListStmOnlyThisUser(stm: ListStore.Store, order: seq<string>, ltm: seq<Record>, f: Filter,
                            decode: string -> Option<Record>)
    requires Seqs.Enumerates(order, stm.lists.Keys)
    requires f.kind == ShortTerm
    ensures forall i :: 0 <= i < |List(stm, order, ltm, f, decode)| ==> StmVisible(List(stm, order, ltm, f, decode)[i], f.userId)
  {
    MergedShortTermVisible(stm, order, ltm, f, decode);
    var r := List(stm, order, ltm, f, decode);
    assert forall i :: 0 <= i < |r| ==> r[i] in Merged(stm, order, ltm, f, decode);
  }

  /** A short-term query merges only the visible session records. */
  lemma MergedShortTermVisible(stm: ListStore.Store, order: seq<string>, ltm: seq<Record>, f: Filter,
                               decode: string -> Option<Record>)
    requires Seqs.Enumerates(order, stm.lists.Keys)
    requires f.kind == ShortTerm
    ensures forall rec :: rec in Merged(stm, order, ltm, f, decode) ==> StmVisible(rec, f.userId)
  {
    var merged := Merged(stm, order, ltm, f, decode);
    assert merged == GatherStm(stm, ListStore.ScanKeys(stm, order, UserPattern(f.userId)), f.userId, decode) + [];
    forall rec | rec in merged
      ensures StmVisible(rec, f.userId)
    {
      var j :| 0 <= j < |merged| && merged[j] == rec;
    }
  }

  /**
   * Update: the record is looked up in long-term memory first, then in
   * short-term memory; its content and embedding are replaced and it is
   * written back where it was found. `newVec` is the embedder's answer.
   */
  function Update(ltm: seq<Record>, stm: ListStore.Store, order: seq<string>, id: string, newContent: string,
                  newVec: Option<Vector>, decode: string -> Option<Record>, encode: Record -> string)
    : (r: Result<(seq<Record>, ListStore.Store)>)
    requires Seqs.Enumerates(order, stm.lists.Keys)
    ensures r.Err? && r.msg == "record not found in LTM or STM" <==>
      VectorStore.Get(ltm, id).Err? && !ListStore.AnyHolds(stm, id, decode)
    ensures newVec.None? ==> r.Err?
    ensures r.Ok? && VectorStore.Get(ltm, id).Ok? ==>
      var old_ := VectorStore.Get(ltm, id).value;
      r.value.1 == stm
      && VectorStore.Update(ltm, old_.(content := newContent, embedding := newVec)) == Ok(r.value.0)
    ensures r.Ok? && VectorStore.Get(ltm, id).Err? ==>
      var old_ := ListStore.Get(stm, order, id, decode).value;
      r.value.0 == ltm
      && ListStore.Update(stm, order, old_.(content := newContent, embedding := newVec), decode, encode) == Ok(r.value.1)
  {
    var found: Result<(Record, bool)> :=
      match VectorStore.Get(ltm, id)
      case Ok(rec) => Ok((rec, true))
      case Err(_) =>
        match ListStore.Get(stm, order, id, decode)
        case Ok(rec) => Ok((rec, false))
        case Err(_) => Err("record not found in LTM or STM");
    match found
    case Err(e) => Err(e)
    case Ok((rec, isLtm)) =>
      match newVec
      case None => Err("failed to embed new content")
      case Some(v) =>
        var rec' := rec.(content := newContent, embedding := newVec);
        if isLtm then
          match VectorStore.Update(ltm, rec')
          case Ok(ltm') => Ok((ltm', stm))
          case Err(_) => Err("failed to update LTM")
        else
          match ListStore.Update(stm, order, rec', decode, encode)
          case Ok(stm') => Ok((ltm, stm'))
          case Err(_) => Err("failed to update STM")
  }

  /** Updating a long-term record keeps its ID, type, timestamp and metadata; reading it back shows the new content. */
  lemma UpdateLtmThenGet(ltm: seq<Record>, stm: ListStore.Store, order: seq<string>, id: string, newContent: string,
                         v: Vector, decode: string -> Option<Record>, encode: Record -> string)
    requires Seqs.Enumerates(order, stm.lists.Keys)
    requires VectorStore.Get(ltm, id).Ok?
    ensures var r := Update(ltm, stm, order, id, newContent, Some(v), decode, encode);
      var before := VectorStore.Get(ltm, id).value;
      r.Ok? && VectorStore.Get(r.value.0, id) == Ok(before.(content := newContent, embedding := Some(v)))
      && before.timestamp == VectorStore.Get(r.value.0, id).value.timestamp
  {
    var before := VectorStore.Get(ltm, id).value;
    var rec' := before.(content := newContent, embedding := Some(v));
    VectorStore.UpdateThenGet(ltm, rec');
  }

  /** Delete removes the record from long-term memory only. */
  function Delete(ltm: seq<Record>, id: string): (r: seq<Record>)
    ensures forall i :: 0 <= i < |r| ==> r[i].id != id
    ensures forall i :: 0 <= i < |ltm| && ltm[i].id != id ==> ltm[i] in r
    ensures Seqs.Subsequence(r, ltm)
    ensures forall i :: 0 <= i < |ltm| ==> multiset(r)[ltm[i]] == if ltm[i].id == id then 0 else multiset(ltm)[ltm[i]]
  {
    VectorStore.Delete(ltm, [id])
  }

  /** Clear drops the session's short-term list and nothing else. */
  function Clear(stm: ListStore.Store, userId: string, sessionId: string): (r: ListStore.Store)
    ensures ListStore.LRange(r, StmKey(userId, sessionId), 0, -1) == []
    ensures forall k :: k != StmKey(userId, sessionId) ==> ListStore.Items(r, k) == ListStore.Items(stm, k)
  {
    ListStore.Del(stm, [StmKey(userId, sessionId)])
  }

  /** What `Add` writes is what `Retrieve`'s window reads last; `Clear` then empties the session. */
  lemma AddThenClear(stm: ListStore.Store, userId: string, sessionId: string, input: string, output: string,
                     metadata: Metadata, id: string, now: int, encode: Record -> string)
    ensures var (stm', rec) := Add(stm, userId, sessionId, input, output, metadata, id, now, encode);
      var items := ListStore.Items(stm', StmKey(userId, sessionId));
      |items| > 0 && items[|items| - 1] == encode(rec)
      && Window(items, 1) == [encode(rec)]
      && ListStore.Items(Clear(stm', userId, sessionId), StmKey(userId, sessionId)) == []
  {
  }
}
