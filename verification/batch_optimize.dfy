/**
 * The batched variants of the funnel: promoting many staging entries with
 * one long-term write and one staging delete, and judging a whole session
 * list without the judged set.
 */
module BatchOptimize {
  import opened Wrappers
  import opened Types
  import Seqs
  import ListStore
  import StagingStore
  import VectorStore
  import Judge
  import Manager
  import Funnel

  // ----- BatchPromoteToLTM -----

  /** The metadata of a batch-promoted memory; unlike the single path it keeps the entry's own times. */
  function BatchPairs(e: StagingEntry, tags: seq<string>): seq<(string, Value)>
  {
    [("user_id", VStr(e.userId)), ("created_at", VTime(e.firstSeenAt)), ("tags", VStrs(tags)), ("entities", VOther),
     ("category", VStr(e.category)), ("last_access_at", VTime(e.lastSeenAt)), ("access_count", VInt(0)),
     ("decay_score", VReal(1.0)), ("source_type", VStr(StagingType)), ("confidence_origin", VReal(e.confidenceScore))]
  }

  lemma BatchMetadataFacts(e: StagingEntry, tags: seq<string>)
    ensures var m := Funnel.FromPairs(BatchPairs(e, tags));
      MetaString(m, "user_id") == Some(e.userId)
      && MetaString(m, "category") == Some(e.category)
      && "created_at" in m && m["created_at"] == VTime(e.firstSeenAt)
      && "last_access_at" in m && m["last_access_at"] == VTime(e.lastSeenAt)
      && "access_count" in m && m["access_count"] == VInt(0)
      && "decay_score" in m && m["decay_score"] == VReal(1.0)
  {
    var ps := BatchPairs(e, tags);
    Funnel.FromPairsLookup(ps, 0);
    Funnel.FromPairsLookup(ps, 1);
    Funnel.FromPairsLookup(ps, 4);
    Funnel.FromPairsLookup(ps, 5);
    Funnel.FromPairsLookup(ps, 6);
    Funnel.FromPairsLookup(ps, 7);
  }

  /** The long-term record written for one entry. */
  function BatchRecord(e: StagingEntry, v: Vector, o: Funnel.Oracles): (rec: Record)
    ensures rec.memType == LongTerm && rec.content == e.content && rec.timestamp == e.lastSeenAt
    ensures rec.embedding == Some(v) && rec.id == o.freshId(e.id)
    ensures MetaString(rec.metadata, "user_id") == Some(e.userId)
    ensures "created_at" in rec.metadata && rec.metadata["created_at"] == VTime(e.firstSeenAt)
    ensures "last_access_at" in rec.metadata && rec.metadata["last_access_at"] == VTime(e.lastSeenAt)
    ensures "access_count" in rec.metadata && rec.metadata["access_count"] == VInt(0)
    ensures "decay_score" in rec.metadata && rec.metadata["decay_score"] == VReal(1.0)
  {
    BatchMetadataFacts(e, Funnel.PromotedTags(e, o));
    Record(o.freshId(e.id), e.content, Some(v), e.lastSeenAt, Funnel.FromPairs(BatchPairs(e, Funnel.PromotedTags(e, o))), LongTerm)
  }

  /** The entries the embedder answers for, in input order. */
  function Embedded(entries: seq<StagingEntry>, o: Funnel.Oracles): seq<StagingEntry>
  {
    Seqs.Filter(entries, (e: StagingEntry) => o.embed(e.content).Some?)
  }

  /**
   * The loop over the entries: the records to write and the staging IDs to
   * delete, side by side. An entry the embedder fails on is skipped;
   * `build` makes the record from the entry and its vector.
   */
  function Collect(entries: seq<StagingEntry>, embed: string -> Option<Vector>, build: (StagingEntry, Vector) -> Record)
    : (r: (seq<Record>, seq<string>))
    ensures var ok := Seqs.Filter(entries, (e: StagingEntry) => embed(e.content).Some?);
      |r.0| == |ok| && |r.1| == |ok|
      && forall i :: 0 <= i < |ok| ==>
           r.1[i] == ok[i].id && embed(ok[i].content).Some? && r.0[i] == build(ok[i], embed(ok[i].content).value)
  {
    if entries == [] then ([], [])
    else
      var e := entries[0];
      var rest := Collect(entries[1..], embed, build);
      match embed(e.content)
      case None => rest
      case Some(v) => ([build(e, v)] + rest.0, [e.id] + rest.1)
  }

  /** An ID that some entry was written under, for a given embedder. */
  predicate EmbeddedId(entries: seq<StagingEntry>, embed: string -> Option<Vector>, id: string)
  {
    exists i :: 0 <= i < |entries| && entries[i].id == id && embed(entries[i].content).Some?
  }

  /** The batch promotion for any record builder: one write of all records, then one delete of their entries. */
  function BatchPromote(t: Funnel.Tiers, entries: seq<StagingEntry>, embed: string -> Option<Vector>,
                       build: (StagingEntry, Vector) -> Record, addError: Option<string>): (r: Result<Funnel.Tiers>)
    ensures entries == [] ==> r == Ok(t)
    ensures var ok := Seqs.Filter(entries, (e: StagingEntry) => embed(e.content).Some?);
      r.Err? <==> addError.Some? && ok != []
    ensures r.Err? ==> r.msg == "批量写入LTM失败: " + addError.value
    ensures r.Ok? ==> r.value.promotions == t.promotions
    ensures r.Ok? ==> var ok := Seqs.Filter(entries, (e: StagingEntry) => embed(e.content).Some?);
      |r.value.ltm| == |t.ltm| + |ok| && r.value.ltm[..|t.ltm|] == t.ltm
      && forall i :: 0 <= i < |ok| ==> r.value.ltm[|t.ltm| + i] == build(ok[i], embed(ok[i].content).value)
    ensures r.Ok? ==> forall k :: k in r.value.db <==> k in t.db && !EmbeddedId(entries, embed, k)
    ensures r.Ok? ==> forall k :: k in r.value.db ==> r.value.db[k] == t.db[k]
  {
    if |entries| == 0 then Ok(t)
    else
      var c := Collect(entries, embed, build);
      if |c.0| > 0 && addError.Some? then Err("批量写入LTM失败: " + addError.value)
      else
        var ltm := if |c.0| > 0 then VectorStore.Add(t.ltm, c.0) else t.ltm;
        var db := if |c.1| > 0 then StagingStore.DeleteBatch(t.db, c.1) else t.db;
        var ok := Seqs.Filter(entries, (e: StagingEntry) => embed(e.content).Some?);
        CollectedIds(entries, embed, ok, c.1);
        Ok(t.(ltm := ltm, db := db))
  }

  /** The IDs collected for the batch are exactly the IDs of the embedded entries. */
  lemma CollectedIds(entries: seq<StagingEntry>, embed: string -> Option<Vector>, ok: seq<StagingEntry>, ids: seq<string>)
    requires forall i :: 0 <= i < |ok| ==> ok[i] in entries && embed(ok[i].content).Some?
    requires forall i :: 0 <= i < |entries| && embed(entries[i].content).Some? ==> entries[i] in ok
    requires |ids| == |ok| && forall i :: 0 <= i < |ok| ==> ids[i] == ok[i].id
    ensures forall k :: k in ids <==> EmbeddedId(entries, embed, k)
  {
    forall k | k in ids
      ensures EmbeddedId(entries, embed, k)
    {
      var i :| 0 <= i < |ids| && ids[i] == k;
      assert ok[i] in entries;
      var j :| 0 <= j < |entries| && entries[j] == ok[i];
      assert entries[j].id == k && embed(entries[j].content).Some?;
    }
    forall k | EmbeddedId(entries, embed, k)
      ensures k in ids
    {
      var i :| 0 <= i < |entries| && entries[i].id == k && embed(entries[i].content).Some?;
      assert entries[i] in ok;
      var j :| 0 <= j < |ok| && ok[j] == entries[i];
      assert ids[j] == k;
    }
  }

  /**
   * BatchPromoteToLTM. `addError` is the long-term store's answer to the
   * batch write; the staging delete's error is only logged.
   */
  function BatchPromoteToLtm(t: Funnel.Tiers, entries: seq<StagingEntry>, o: Funnel.Oracles, addError: Option<string>)
    : (r: Result<Funnel.Tiers>)
    ensures entries == [] ==> r == Ok(t)
    ensures r.Err? <==> addError.Some? && Embedded(entries, o) != []
    ensures r.Err? ==> r.msg == "批量写入LTM失败: " + addError.value
    ensures r.Ok? ==> r.value.promotions == t.promotions
    ensures r.Ok? ==> var ok := Embedded(entries, o);
      |r.value.ltm| == |t.ltm| + |ok| && r.value.ltm[..|t.ltm|] == t.ltm
      && forall i :: 0 <= i < |ok| ==> r.value.ltm[|t.ltm| + i] == BatchRecord(ok[i], o.embed(ok[i].content).value, o)
    ensures r.Ok? ==> forall k :: k in r.value.db <==> k in t.db && !EmbeddedId(entries, o.embed, k)
    ensures r.Ok? ==> forall k :: k in r.value.db ==> r.value.db[k] == t.db[k]
  {
    BatchPromote(t, entries, o.embed, (e, v) => BatchRecord(e, v, o), addError)
  }

  /** The batch write never loses what the store held: a failed write leaves everything to the caller unchanged. */
  lemma FailedWriteDeletesNothing(t: Funnel.Tiers, entries: seq<StagingEntry>, o: Funnel.Oracles, err: string)
    requires Embedded(entries, o) != []
    ensures BatchPromoteToLtm(t, entries, o, Some(err)) == Err("批量写入LTM失败: " + err)
  {
  }

  /** A batch-promoted memory reads back with the entry's own last sighting, no accesses and full score. */
  lemma BatchRecordReadsBack(e: StagingEntry, v: Vector, o: Funnel.Oracles, now: int)
    ensures var m := Funnel.ExtractLtmMetadata(BatchRecord(e, v, o).metadata, now);
      m.userId == e.userId && m.lastAccessAt == e.lastSeenAt && m.accessCount == 0 && m.decayScore == 1.0
  {
  }

  /** An entry the embedder fails on stays in staging unless another entry with its ID was written. */
  lemma UnembeddedEntryStays(t: Funnel.Tiers, entries: seq<StagingEntry>, o: Funnel.Oracles, addError: Option<string>, e: StagingEntry)
    requires e in entries && e.id in t.db
    requires forall i :: 0 <= i < |entries| && entries[i].id == e.id ==> o.embed(entries[i].content).None?
    ensures var r := BatchPromoteToLtm(t, entries, o, addError);
      r.Ok? ==> e.id in r.value.db && r.value.db[e.id] == t.db[e.id]
  {
  }

  // ----- JudgeAndStageFromSTMCached -----

  /** The worthwhile (content, verdict) pairs of one judged batch, in batch order. */
  function Worthy(contents: seq<string>, results: seq<JudgeResult>, cfg: Funnel.Config): (r: seq<(string, JudgeResult)>)
    requires |contents| == |results|
    ensures forall p :: p in r ==> Funnel.WorthStaging(p.1, cfg) && p.0 in contents
    ensures forall i :: 0 <= i < |results| && Funnel.WorthStaging(results[i], cfg) ==> (contents[i], results[i]) in r
  {
    if contents == [] then []
    else
      var rest := Worthy(contents[1..], results[1..], cfg);
      assert forall i :: 1 <= i < |results| ==> results[i] == results[1..][i - 1] && contents[i] == contents[1..][i - 1];
      (if Funnel.WorthStaging(results[0], cfg) then [(contents[0], results[0])] else []) + rest
  }

  /** One raw batch: decode, judge the decodable contents, keep the worthwhile verdicts; a failed call stages nothing. */
  function BatchStagings(batch: seq<string>, cfg: Funnel.Config, o: Funnel.Oracles): (r: seq<(string, JudgeResult)>)
    ensures forall p :: p in r ==>
      Funnel.WorthStaging(p.1, cfg) && exists rec :: rec in Manager.DecodeAll(batch, o.decode) && rec.content == p.0
    ensures Judge.JudgeBatch(Funnel.Contents(Manager.DecodeAll(batch, o.decode)), o.generate, o.parseBatch).Err? ==> r == []
  {
    var recs := Manager.DecodeAll(batch, o.decode);
    var contents := Funnel.Contents(recs);
    if |contents| == 0 then []
    else match Judge.JudgeBatch(contents, o.generate, o.parseBatch)
      case Err(_) => []
      case Ok(results) =>
        var r := Worthy(contents, results, cfg);
        WorthyFromRecords(recs, contents, r);
        r
  }

  /** A staged content is the content of one of the decoded records. */
  lemma WorthyFromRecords(recs: seq<Record>, contents: seq<string>, r: seq<(string, JudgeResult)>)
    requires |contents| == |recs| && forall i :: 0 <= i < |contents| ==> contents[i] == recs[i].content
    requires forall p :: p in r ==> p.0 in contents
    ensures forall p :: p in r ==> exists rec :: rec in recs && rec.content == p.0
  {
    forall p | p in r
      ensures exists rec :: rec in recs && rec.content == p.0
    {
      var i :| 0 <= i < |contents| && contents[i] == p.0;
      assert recs[i] in recs;
    }
  }

  /** Every batch's stagings, one batch after the other. */
  function AllStagings(batches: seq<seq<string>>, cfg: Funnel.Config, o: Funnel.Oracles): (r: seq<(string, JudgeResult)>)
    ensures forall p :: p in r ==>
      Funnel.WorthStaging(p.1, cfg)
      && exists i, rec :: 0 <= i < |batches| && rec in Manager.DecodeAll(batches[i], o.decode) && rec.content == p.0
  {
    if batches == [] then []
    else
      var first := BatchStagings(batches[0], cfg, o);
      var rest := AllStagings(batches[1..], cfg, o);
      StagingsOfAllBatches(batches, first, rest, o.decode);
      first + rest
  }

  /** The first batch's stagings followed by the rest's come from some batch each. */
  lemma StagingsOfAllBatches(batches: seq<seq<string>>, first: seq<(string, JudgeResult)>, rest: seq<(string, JudgeResult)>,
                             decode: string -> Option<Record>)
    requires batches != []
    requires forall p :: p in first ==> exists rec :: rec in Manager.DecodeAll(batches[0], decode) && rec.content == p.0
    requires forall p :: p in rest ==>
      exists i, rec :: 0 <= i < |batches[1..]| && rec in Manager.DecodeAll(batches[1..][i], decode) && rec.content == p.0
    ensures forall p :: p in first + rest ==>
      exists i, rec :: 0 <= i < |batches| && rec in Manager.DecodeAll(batches[i], decode) && rec.content == p.0
  {
    forall p | p in first + rest
      ensures exists i, rec :: 0 <= i < |batches| && rec in Manager.DecodeAll(batches[i], decode) && rec.content == p.0
    {
      if p in first {
        var rec :| rec in Manager.DecodeAll(batches[0], decode) && rec.content == p.0;
        assert 0 < |batches|;
      } else {
        var i, rec :| 0 <= i < |batches[1..]| && rec in Manager.DecodeAll(batches[1..][i], decode) && rec.content == p.0;
        assert batches[1..][i] == batches[i + 1];
      }
    }
  }

  /** The staging writes, in order, each counting one sighting. */
  function ApplyStagings(db: StagingStore.Db, stagings: seq<(string, JudgeResult)>, o: Funnel.Oracles, now: int,
                         userId: string, sessionId: string): (r: StagingStore.Db)
    requires Funnel.ValidOracles(o)
    ensures stagings == [] ==> r == db
    ensures StagingStore.WellKeyed(db) ==> StagingStore.WellKeyed(r)
    ensures forall k :: k in db ==> k in r
    ensures StagingStore.WellKeyed(db) ==>
      forall k :: k in r && k !in db ==>
        exists i :: 0 <= i < |stagings| && k == StagingStore.EntryKey(userId, o.hash(stagings[i].0))
    decreases |stagings|
  {
    if stagings == [] then db
    else
      var p := stagings[0];
      var db1 := StagingStore.AddOrIncrement(db, o.scanOrder(db), now, userId, sessionId, p.0, p.1, o.embed(p.0), o.hash, o.ratio);
      assert StagingStore.WellKeyed(db) ==> forall k :: k in db ==> k in db1;
      var r := ApplyStagings(db1, stagings[1..], o, now, userId, sessionId);
      assert StagingStore.WellKeyed(db) ==>
        forall k :: k in r && k !in db ==>
          exists i :: 0 <= i < |stagings| && k == StagingStore.EntryKey(userId, o.hash(stagings[i].0)) by {
        if StagingStore.WellKeyed(db) {
          forall k | k in r && k !in db
            ensures exists i :: 0 <= i < |stagings| && k == StagingStore.EntryKey(userId, o.hash(stagings[i].0))
          {
            if k in db1 {
              assert k == StagingStore.EntryKey(userId, o.hash(stagings[0].0));
            } else {
              var j :| 0 <= j < |stagings[1..]| && k == StagingStore.EntryKey(userId, o.hash(stagings[1..][j].0));
              assert stagings[1..][j] == stagings[j + 1];
            }
          }
        }
      }
      r
  }

  /** The contents the cached variant stages from a session list, with their verdicts. */
  function CachedStagings(items: seq<string>, cfg: Funnel.Config, o: Funnel.Oracles): (r: seq<(string, JudgeResult)>)
    requires cfg.batchJudgeSize > 0
    ensures items == [] ==> r == []
    ensures forall p :: p in r ==>
      Funnel.WorthStaging(p.1, cfg) && exists rec :: rec in Manager.DecodeAll(items, o.decode) && rec.content == p.0
  {
    var batches: seq<seq<string>> := Seqs.Batches(items, cfg.batchJudgeSize);
    var r := AllStagings(batches, cfg, o);
    assert forall p :: p in r ==> exists rec :: rec in Manager.DecodeAll(items, o.decode) && rec.content == p.0 by {
      forall p | p in r
        ensures exists rec :: rec in Manager.DecodeAll(items, o.decode) && rec.content == p.0
      {
        var i, rec :| 0 <= i < |batches| && rec in Manager.DecodeAll(batches[i], o.decode) && rec.content == p.0;
        DecodedInBatchIsDecoded(batches, i, rec, o.decode);
      }
    }
    r
  }

  /** A record decoded from one batch is decoded from the whole list. */
  lemma DecodedInBatchIsDecoded(batches: seq<seq<string>>, i: nat, rec: Record, decode: string -> Option<Record>)
    requires i < |batches| && rec in Manager.DecodeAll(batches[i], decode)
    ensures rec in Manager.DecodeAll(Seqs.Flatten(batches), decode)
  {
    var k :| 0 <= k < |Manager.DecodeAll(batches[i], decode)| && Manager.DecodeAll(batches[i], decode)[k] == rec;
    var j :| 0 <= j < |batches[i]| && decode(batches[i][j]) == Some(rec);
    Seqs.InFlatten(batches, i, j);
    DecodeAllComplete(Seqs.Flatten(batches), batches[i][j], decode);
  }

  /** Every decodable item of a list is among its decoded records. */
  lemma {:induction false} DecodeAllComplete(items: seq<string>, x: string, decode: string -> Option<Record>)
    requires x in items && decode(x).Some?
    ensures decode(x).value in Manager.DecodeAll(items, decode)
  {
    if items[0] != x {
      DecodeAllComplete(items[1..], x, decode);
    }
  }

  /**
   * JudgeAndStageFromSTMCached: every list item is judged again, batch by
   * batch, and worthwhile contents are staged; the session list and the
   * judged set are neither read nor written.
   */
  function JudgeAndStageFromStmCached(st: Funnel.State, cfg: Funnel.Config, o: Funnel.Oracles, now: int,
                                      userId: string, sessionId: string): (r: Funnel.State)
    requires Funnel.ValidOracles(o)
    requires cfg.batchJudgeSize > 0
    ensures r.stm == st.stm
    ensures ListStore.Items(st.stm, Manager.StmKey(userId, sessionId)) == [] ==> r == st
    ensures StagingStore.WellKeyed(st.db) ==> StagingStore.WellKeyed(r.db)
    ensures forall k :: k in st.db ==> k in r.db
    ensures r.db == ApplyStagings(st.db, CachedStagings(ListStore.Items(st.stm, Manager.StmKey(userId, sessionId)), cfg, o),
                                  o, now, userId, sessionId)
    ensures StagingStore.WellKeyed(st.db) ==>
      var items := ListStore.Items(st.stm, Manager.StmKey(userId, sessionId));
      forall k :: k in r.db && k !in st.db ==>
        exists rec :: rec in Manager.DecodeAll(items, o.decode) && k == StagingStore.EntryKey(userId, o.hash(rec.content))
  {
    var key := Manager.StmKey(userId, sessionId);
    ListStore.LRangeAll(st.stm, key);
    var items := ListStore.LRange(st.stm, key, 0, -1);
    var cs := CachedStagings(items, cfg, o);
    var db := ApplyStagings(st.db, cs, o, now, userId, sessionId);
    assert StagingStore.WellKeyed(st.db) ==>
      forall k :: k in db && k !in st.db ==>
        exists rec :: rec in Manager.DecodeAll(items, o.decode) && k == StagingStore.EntryKey(userId, o.hash(rec.content)) by {
      if StagingStore.WellKeyed(st.db) {
        forall k | k in db && k !in st.db
          ensures exists rec :: rec in Manager.DecodeAll(items, o.decode) && k == StagingStore.EntryKey(userId, o.hash(rec.content))
        {
          var i :| 0 <= i < |cs| && k == StagingStore.EntryKey(userId, o.hash(cs[i].0));
          assert cs[i] in cs;
        }
      }
    }
    st.(db := db)
  }

  /** The cached variant ignores the judged set: marking records judged changes nothing it does. */
  lemma CachedIgnoresJudgedSet(st: Funnel.State, cfg: Funnel.Config, o: Funnel.Oracles, now: int,
                               userId: string, sessionId: string, judged: set<string>)
    requires Funnel.ValidOracles(o)
    requires cfg.batchJudgeSize > 0
    ensures var marked := st.(stm := st.stm.(sets := st.stm.sets[Funnel.JudgedKey(userId, sessionId) := judged]));
      JudgeAndStageFromStmCached(marked, cfg, o, now, userId, sessionId).db
      == JudgeAndStageFromStmCached(st, cfg, o, now, userId, sessionId).db
  {
    var marked := st.(stm := st.stm.(sets := st.stm.sets[Funnel.JudgedKey(userId, sessionId) := judged]));
    var key := Manager.StmKey(userId, sessionId);
    ListStore.LRangeAll(st.stm, key);
    ListStore.LRangeAll(marked.stm, key);
    assert ListStore.Items(marked.stm, key) == ListStore.Items(st.stm, key);
  }
}
