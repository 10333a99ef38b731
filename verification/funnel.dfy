/**
 * The memory funnel: short-term records are judged in batches and the
 * valuable ones staged; staged entries are routed by confidence and
 * promoted into long-term memory (merging with a near-duplicate when the
 * LLM says so); long-term memories whose decay score falls below the
 * minimum are forgotten.
 *
 * Every outside answer (LLM text, parsers, embedder, MD5, UUIDs, cosine
 * ratio, JSON) comes in through `Oracles`, and so does the monitor's
 * judge-result cache as it stands when a run starts (None everywhere
 * when there is no monitor). Calls the funnel makes to the
 * global metrics collector are returned as a log of
 * (category, success) pairs.
 */
module Funnel {
  import opened Wrappers
  import opened Types
  import opened Text
  import Seqs
  import ListStore
  import VectorStore
  import StagingStore
  import Judge
  import Decay
  import Manager

  /** The configuration values the funnel reads. */
  datatype Config = Config(
    judgeMinMessages: int,
    judgeMaxWaitMinutes: int,
    batchJudgeSize: int,
    valueThreshold: real,
    confidenceHigh: real,
    confidenceLow: real,
    minOccurrences: int,
    minWaitHours: int)

  /** The outside world, as functions. */
  datatype Oracles = Oracles(
    generate: string -> Option<string>,
    parseBatch: string -> Option<seq<JudgeResult>>,
    parseTags: string -> Option<(seq<string>, map<string, string>)>,
    summarize: (string, string) -> Option<string>,
    decideMerge: (string, string) -> Option<(string, string)>,
    embed: string -> Option<Vector>,
    hash: string -> string,
    freshId: string -> string,
    ratio: (real, real, real) -> real,
    encode: Record -> string,
    decode: string -> Option<Record>,
    scanOrder: StagingStore.Db -> seq<string>,
    judgeCache: string -> Option<JudgeResult>)

  /** A Redis SCAN visits every key once. */
  ghost predicate ValidOracles(o: Oracles)
  {
    forall d: StagingStore.Db :: Seqs.Enumerates(o.scanOrder(d), d.Keys)
  }

  /** The set of record IDs already judged for a session. */
  function JudgedKey(userId: string, sessionId: string): string
  {
    "memory:judged:" + userId + ":" + sessionId
  }

  // ----- STM -> staging -----

  /** The session's decodable records that are not in the judged set, in list order. */
  function Unjudged(stm: ListStore.Store, userId: string, sessionId: string, decode: string -> Option<Record>)
    : (r: seq<Record>)
    ensures forall i :: 0 <= i < |r| ==> !ListStore.SIsMember(stm, JudgedKey(userId, sessionId), r[i].id)
    ensures forall i :: 0 <= i < |r| ==> r[i] in Manager.DecodeAll(ListStore.Items(stm, Manager.StmKey(userId, sessionId)), decode)
  {
    var key := Manager.StmKey(userId, sessionId);
    ListStore.LRangeAll(stm, key);
    Seqs.Filter(Manager.DecodeAll(ListStore.LRange(stm, key, 0, -1), decode),
                (rec: Record) => !ListStore.SIsMember(stm, JudgedKey(userId, sessionId), rec.id))
  }

  /** Judging starts once enough records wait, or the oldest one has waited long enough. */
  predicate Triggered(pending: seq<Record>, cfg: Config, now: int)
  {
    |pending| > 0
    && (|pending| >= cfg.judgeMinMessages || now - pending[0].timestamp >= cfg.judgeMaxWaitMinutes * 60)
  }

  /** A verdict that sends the content to staging. */
  predicate WorthStaging(jr: JudgeResult, cfg: Config)
  {
    jr.shouldStage && jr.valueScore >= cfg.valueThreshold
  }

  datatype State = State(stm: ListStore.Store, db: StagingStore.Db)

  /** The judged set only grows and the session list only loses items. */
  ghost predicate Progress(a: ListStore.Store, b: ListStore.Store, userId: string, sessionId: string)
  {
    (forall x :: ListStore.SIsMember(a, JudgedKey(userId, sessionId), x) ==> ListStore.SIsMember(b, JudgedKey(userId, sessionId), x))
    && (forall x :: x in ListStore.Items(b, Manager.StmKey(userId, sessionId)) ==> x in ListStore.Items(a, Manager.StmKey(userId, sessionId)))
  }

  /** Done with a record: it is in the judged set and no longer in the session list. */
  predicate Retired(stm: ListStore.Store, rec: Record, userId: string, sessionId: string, encode: Record -> string)
  {
    ListStore.SIsMember(stm, JudgedKey(userId, sessionId), rec.id)
    && encode(rec) !in ListStore.Items(stm, Manager.StmKey(userId, sessionId))
  }

  /** The staging write for a worthwhile record: its restructured summary (or itself) is counted. */
  function StageContent(db: StagingStore.Db, o: Oracles, now: int, userId: string, sessionId: string,
                        rec: Record, jr: JudgeResult): StagingStore.Db
    requires ValidOracles(o)
  {
    var summary := match o.summarize(rec.content, jr.category) case Some(s) => s case None => rec.content;
    StagingStore.AddOrIncrement(db, o.scanOrder(db), now, userId, sessionId, summary, jr, o.embed(summary), o.hash, o.ratio)
  }

  /** One verdict: stage when worthwhile, then mark judged and drop from the session list either way. */
  function ApplyVerdict(st: State, cfg: Config, o: Oracles, now: int, userId: string, sessionId: string,
                        rec: Record, jr: JudgeResult): (r: State)
    requires ValidOracles(o)
    ensures !WorthStaging(jr, cfg) ==> r.db == st.db
    ensures WorthStaging(jr, cfg) ==> r.db == StageContent(st.db, o, now, userId, sessionId, rec, jr)
    ensures Retired(r.stm, rec, userId, sessionId, o.encode)
    ensures Progress(st.stm, r.stm, userId, sessionId)
  {
    var db' := if WorthStaging(jr, cfg) then StageContent(st.db, o, now, userId, sessionId, rec, jr) else st.db;
    var stm1 := ListStore.SAdd(st.stm, JudgedKey(userId, sessionId), [rec.id]);
    var stm2 := ListStore.LRemAll(stm1, Manager.StmKey(userId, sessionId), o.encode(rec));
    State(stm2, db')
  }

  lemma ProgressTrans(a: ListStore.Store, b: ListStore.Store, c: ListStore.Store, userId: string, sessionId: string)
    requires Progress(a, b, userId, sessionId) && Progress(b, c, userId, sessionId)
    ensures Progress(a, c, userId, sessionId)
  {
  }

  lemma RetiredStays(a: ListStore.Store, b: ListStore.Store, rec: Record, userId: string, sessionId: string,
                     encode: Record -> string)
    requires Retired(a, rec, userId, sessionId, encode) && Progress(a, b, userId, sessionId)
    ensures Retired(b, rec, userId, sessionId, encode)
  {
  }

  /** The verdicts of one batch, applied in order. */
  function ApplyVerdicts(st: State, cfg: Config, o: Oracles, now: int, userId: string, sessionId: string,
                         batch: seq<Record>, results: seq<JudgeResult>): (r: State)
    requires ValidOracles(o)
    requires |batch| == |results|
    ensures forall i :: 0 <= i < |batch| ==> Retired(r.stm, batch[i], userId, sessionId, o.encode)
    ensures Progress(st.stm, r.stm, userId, sessionId)
    ensures (forall i :: 0 <= i < |results| ==> !WorthStaging(results[i], cfg)) ==> r.db == st.db
    decreases |batch|
  {
    if batch == [] then st
    else
      var st1 := ApplyVerdict(st, cfg, o, now, userId, sessionId, batch[0], results[0]);
      var r := ApplyVerdicts(st1, cfg, o, now, userId, sessionId, batch[1..], results[1..]);
      RetiredStays(st1.stm, r.stm, batch[0], userId, sessionId, o.encode);
      ProgressTrans(st.stm, st1.stm, r.stm, userId, sessionId);
      VerdictsStep(st, st1, r, cfg, userId, sessionId, batch, results, o.encode);
      r
  }

  /** The first verdict followed by the rest covers the whole batch. */
  lemma VerdictsStep(st: State, st1: State, r: State, cfg: Config, userId: string, sessionId: string,
                     batch: seq<Record>, results: seq<JudgeResult>, encode: Record -> string)
    requires |batch| == |results| > 0
    requires Retired(r.stm, batch[0], userId, sessionId, encode)
    requires forall i :: 0 <= i < |batch[1..]| ==> Retired(r.stm, batch[1..][i], userId, sessionId, encode)
    requires !WorthStaging(results[0], cfg) ==> st1.db == st.db
    requires (forall i :: 0 <= i < |results[1..]| ==> !WorthStaging(results[1..][i], cfg)) ==> r.db == st1.db
    ensures forall i :: 0 <= i < |batch| ==> Retired(r.stm, batch[i], userId, sessionId, encode)
    ensures (forall i :: 0 <= i < |results| ==> !WorthStaging(results[i], cfg)) ==> r.db == st.db
  {
    forall i | 1 <= i < |batch|
      ensures Retired(r.stm, batch[i], userId, sessionId, encode)
    {
      assert batch[i] == batch[1..][i - 1];
    }
    if forall i :: 0 <= i < |results| ==> !WorthStaging(results[i], cfg) {
      forall i | 0 <= i < |results[1..]|
        ensures !WorthStaging(results[1..][i], cfg)
      {
        assert results[1..][i] == results[i + 1];
      }
    }
  }

  function Contents(batch: seq<Record>): (r: seq<string>)
    ensures |r| == |batch| && forall i :: 0 <= i < |r| ==> r[i] == batch[i].content
  {
    if batch == [] then [] else [batch[0].content] + Contents(batch[1..])
  }

  /** The contents of the batch the cache has no verdict for, in batch order. */
  function Misses(batch: seq<Record>, cached: string -> Option<JudgeResult>): (r: seq<string>)
    ensures |r| <= |batch|
  {
    if batch == [] then []
    else (if cached(batch[0].content).None? then [batch[0].content] else []) + Misses(batch[1..], cached)
  }

  /** One verdict per record: the cached one, else the next LLM verdict. */
  function Fill(batch: seq<Record>, cached: string -> Option<JudgeResult>, llm: seq<JudgeResult>): (r: seq<JudgeResult>)
    requires |llm| == |Misses(batch, cached)|
    ensures |r| == |batch|
    ensures forall j :: 0 <= j < |batch| && cached(batch[j].content).Some? ==> r[j] == cached(batch[j].content).value
  {
    if batch == [] then []
    else if cached(batch[0].content).Some? then
      var rest := Fill(batch[1..], cached, llm);
      assert forall j :: 1 <= j < |batch| ==> batch[j] == batch[1..][j - 1];
      [cached(batch[0].content).value] + rest
    else
      var rest := Fill(batch[1..], cached, llm[1..]);
      assert forall j :: 1 <= j < |batch| ==> batch[j] == batch[1..][j - 1];
      [llm[0]] + rest
  }

  /** Without a cache every content goes to the LLM and its verdicts are used as they come. */
  lemma {:induction false} NoCacheAsksForAll(batch: seq<Record>, cached: string -> Option<JudgeResult>, llm: seq<JudgeResult>)
    requires forall c :: cached(c).None?
    ensures Misses(batch, cached) == Contents(batch)
    ensures |llm| == |batch| ==> Fill(batch, cached, llm) == llm
  {
    if batch != [] {
      NoCacheAsksForAll(batch[1..], cached, if |llm| == 0 then [] else llm[1..]);
      if |llm| == |batch| {
        NoCacheAsksForAll(batch[1..], cached, llm[1..]);
      }
    }
  }

  /** The LLM verdicts for the cache misses (no call when everything is cached). */
  function AskJudge(batch: seq<Record>, o: Oracles): (r: Result<seq<JudgeResult>>)
    ensures r.Ok? ==> |r.value| == |Misses(batch, o.judgeCache)|
    ensures Misses(batch, o.judgeCache) == [] ==> r == Ok([])
  {
    var misses := Misses(batch, o.judgeCache);
    if |misses| == 0 then Ok([]) else Judge.JudgeBatch(misses, o.generate, o.parseBatch)
  }

  /** Every record of the batch has a verdict, from the cache or the LLM. */
  predicate BatchJudged(batch: seq<Record>, o: Oracles)
  {
    AskJudge(batch, o).Ok?
  }

  /** One batch: a failed judge call skips the batch, cached verdicts included. */
  function JudgeOneBatch(st: State, cfg: Config, o: Oracles, now: int, userId: string, sessionId: string,
                         batch: seq<Record>): (r: State)
    requires ValidOracles(o)
    ensures !BatchJudged(batch, o) ==> r == st
    ensures BatchJudged(batch, o) ==> forall i :: 0 <= i < |batch| ==> Retired(r.stm, batch[i], userId, sessionId, o.encode)
    ensures Progress(st.stm, r.stm, userId, sessionId)
  {
    match AskJudge(batch, o)
    case Err(_) => st
    case Ok(llm) => ApplyVerdicts(st, cfg, o, now, userId, sessionId, batch, Fill(batch, o.judgeCache, llm))
  }

  /** A batch whose every content is cached is applied without asking the LLM. */
  lemma FullyCachedBatchIsJudged(batch: seq<Record>, o: Oracles)
    requires forall i :: 0 <= i < |batch| ==> o.judgeCache(batch[i].content).Some?
    ensures BatchJudged(batch, o)
  {
    assert Misses(batch, o.judgeCache) == [] by {
      NoMisses(batch, o.judgeCache);
    }
  }

  lemma {:induction false} NoMisses(batch: seq<Record>, cached: string -> Option<JudgeResult>)
    requires forall i :: 0 <= i < |batch| ==> cached(batch[i].content).Some?
    ensures Misses(batch, cached) == []
  {
    if batch != [] {
      assert forall i :: 0 <= i < |batch| - 1 ==> batch[1..][i] == batch[i + 1];
      NoMisses(batch[1..], cached);
    }
  }

  /** The batches, one after the other. */
  function JudgeBatches(st: State, cfg: Config, o: Oracles, now: int, userId: string, sessionId: string,
                        batches: seq<seq<Record>>): (r: State)
    requires ValidOracles(o)
    ensures Progress(st.stm, r.stm, userId, sessionId)
    ensures forall i, j :: 0 <= i < |batches| && 0 <= j < |batches[i]| && BatchJudged(batches[i], o) ==>
      Retired(r.stm, batches[i][j], userId, sessionId, o.encode)
    decreases |batches|
  {
    if batches == [] then st
    else
      var st1 := JudgeOneBatch(st, cfg, o, now, userId, sessionId, batches[0]);
      var r := JudgeBatches(st1, cfg, o, now, userId, sessionId, batches[1..]);
      ProgressTrans(st.stm, st1.stm, r.stm, userId, sessionId);
      assert forall i, j :: 0 <= i < |batches| && 0 <= j < |batches[i]| && BatchJudged(batches[i], o) ==>
        Retired(r.stm, batches[i][j], userId, sessionId, o.encode) by {
        forall i, j | 0 <= i < |batches| && 0 <= j < |batches[i]| && BatchJudged(batches[i], o)
          ensures Retired(r.stm, batches[i][j], userId, sessionId, o.encode)
        {
          if i == 0 {
            RetiredStays(st1.stm, r.stm, batches[0][j], userId, sessionId, o.encode);
          } else {
            assert batches[i] == batches[1..][i - 1];
          }
        }
      }
      r
  }

  /**
   * JudgeAndStageFromSTM for one session: the unjudged records are judged
   * in consecutive batches once the trigger holds; nothing happens otherwise.
   */
  function JudgeAndStageFromStm(st: State, cfg: Config, o: Oracles, now: int, userId: string, sessionId: string)
    : (r: State)
    requires ValidOracles(o)
    requires cfg.batchJudgeSize > 0
    ensures var pending := Unjudged(st.stm, userId, sessionId, o.decode);
      !Triggered(pending, cfg, now) ==> r == st
    ensures Progress(st.stm, r.stm, userId, sessionId)
    ensures var pending := Unjudged(st.stm, userId, sessionId, o.decode);
      Triggered(pending, cfg, now) ==>
        forall i, j :: 0 <= i < |Seqs.Batches(pending, cfg.batchJudgeSize)|
          && 0 <= j < |Seqs.Batches(pending, cfg.batchJudgeSize)[i]|
          && BatchJudged(Seqs.Batches(pending, cfg.batchJudgeSize)[i], o)
          ==> Retired(r.stm, Seqs.Batches(pending, cfg.batchJudgeSize)[i][j], userId, sessionId, o.encode)
  {
    var pending := Unjudged(st.stm, userId, sessionId, o.decode);
    if !Triggered(pending, cfg, now) then st
    else JudgeBatches(st, cfg, o, now, userId, sessionId, Seqs.Batches(pending, cfg.batchJudgeSize))
  }

  /** The batches cover the unjudged records exactly, in order, and none of them was judged before. */
  lemma BatchesNeverRejudge(stm: ListStore.Store, cfg: Config, userId: string, sessionId: string,
                            decode: string -> Option<Record>)
    requires cfg.batchJudgeSize > 0
    ensures var pending := Unjudged(stm, userId, sessionId, decode);
      var batches := Seqs.Batches(pending, cfg.batchJudgeSize);
      Seqs.Flatten(batches) == pending
      && forall i, j :: 0 <= i < |batches| && 0 <= j < |batches[i]| ==>
           !ListStore.SIsMember(stm, JudgedKey(userId, sessionId), batches[i][j].id)
  {
    var pending := Unjudged(stm, userId, sessionId, decode);
    var batches: seq<seq<Record>> := Seqs.Batches(pending, cfg.batchJudgeSize);
    forall i, j | 0 <= i < |batches| && 0 <= j < |batches[i]|
      ensures !ListStore.SIsMember(stm, JudgedKey(userId, sessionId), batches[i][j].id)
    {
      Seqs.InFlatten(batches, i, j);
      var k :| 0 <= k < |pending| && pending[k] == batches[i][j];
    }
  }

  /** A session whose records are all judged already is left alone. */
  lemma AllJudgedIsNoop(st: State, cfg: Config, o: Oracles, now: int, userId: string, sessionId: string)
    requires ValidOracles(o) && cfg.batchJudgeSize > 0
    requires forall rec :: rec in Manager.DecodeAll(ListStore.Items(st.stm, Manager.StmKey(userId, sessionId)), o.decode) ==>
      ListStore.SIsMember(st.stm, JudgedKey(userId, sessionId), rec.id)
    ensures JudgeAndStageFromStm(st, cfg, o, now, userId, sessionId) == st
  {
  }

  // ----- staging -> LTM -----

  /** The long-term memory, the staging area and the promotion log handed to the metrics collector. */
  datatype Tiers = Tiers(ltm: seq<Record>, db: StagingStore.Db, promotions: seq<(string, bool)>)

  /** What `PromoteStagingToLTM` does with a pending entry. */
  datatype Route = AutoPromote | AwaitReview | Discard

  function RouteOf(e: StagingEntry, cfg: Config): (r: Route)
    ensures r == AutoPromote <==> e.confidenceScore >= cfg.confidenceHigh
    ensures r == AwaitReview <==> cfg.confidenceLow <= e.confidenceScore < cfg.confidenceHigh
    ensures r == Discard <==> e.confidenceScore < cfg.confidenceLow && e.confidenceScore < cfg.confidenceHigh
  {
    if e.confidenceScore >= cfg.confidenceHigh then AutoPromote
    else if e.confidenceScore >= cfg.confidenceLow then AwaitReview
    else Discard
  }

  /**
   * The review log line as written: `Content[:50]` takes the first 50
   * bytes of the UTF-8 content and panics when it has fewer (None stands
   * for the panic).
   */
  function SnippetAsWritten(content: string): (r: Option<seq<Byte>>)
    ensures r.None? <==> |Utf8(content)| < 50
    ensures r.Some? ==> |r.value| == 50 && Seqs.IsPrefix(r.value, Utf8(content))
  {
    var bytes := Utf8(content);
    if |bytes| < 50 then None else Some(bytes[..50])
  }

  /** The routing as written: a medium-confidence entry with fewer than 50 content bytes panics. */
  function RouteAsWritten(e: StagingEntry, cfg: Config): (r: Option<Route>)
    ensures r.Some? ==> r.value == RouteOf(e, cfg)
    ensures r.None? <==> RouteOf(e, cfg) == AwaitReview && |Utf8(e.content)| < 50
  {
    var route := RouteOf(e, cfg);
    if route == AwaitReview && SnippetAsWritten(e.content).None? then None else Some(route)
  }

  /** A short medium-confidence entry crashes the promotion pass as written. */
  lemma ShortReviewEntryPanics(e: StagingEntry, cfg: Config)
    requires e.content == "likes tea" && cfg.confidenceLow == 0.5 && cfg.confidenceHigh == 0.8
    requires e.confidenceScore == 0.6
    ensures RouteAsWritten(e, cfg).None?
    ensures RouteOf(e, cfg) == AwaitReview
  {
    Utf8Ascii(e.content);
  }

  /**
   * The panic counts bytes, not characters: twenty characters of CJK text
   * are sixty bytes and pass, while any ASCII content under 50 characters
   * panics.
   */
  lemma SnippetCountsBytes(content: string)
    requires |content| == 20 && forall i :: 0 <= i < 20 ==> content[i] == '\U{8336}'
    ensures SnippetAsWritten(content).Some?
  {
    Utf8ThreeBytes(content);
  }

  /**
   * The intended snippet: at most the first 50 characters, never a panic;
   * on ASCII content it is exactly the text Go's byte slice prints.
   */
  function Snippet(content: string): (r: string)
    ensures |r| == Seqs.Min(|content|, 50)
    ensures HasPrefix(content, r)
    ensures IsAscii(content) && |content| >= 50 ==> Some(Utf8(r)) == SnippetAsWritten(content)
  {
    if |content| < 50 then content
    else
      var r := content[..50];
      assert IsAscii(content) ==> Some(Utf8(r)) == SnippetAsWritten(content) by {
        if IsAscii(content) {
          Utf8Append(r, content[50..]);
          assert content == r + content[50..];
          assert IsAscii(r);
          Utf8Ascii(r);
        }
      }
      r
  }

  /** A metadata map written key by key; a later pair overwrites an earlier one. */
  function FromPairs(ps: seq<(string, Value)>): Metadata
  {
    if ps == [] then map[] else FromPairs(ps[..|ps| - 1])[ps[|ps| - 1].0 := ps[|ps| - 1].1]
  }

  /** A pair whose key is not written again is what the map holds. */
  lemma {:induction false} FromPairsLookup(ps: seq<(string, Value)>, i: nat)
    requires i < |ps|
    requires forall j :: i < j < |ps| ==> ps[j].0 != ps[i].0
    ensures ps[i].0 in FromPairs(ps) && FromPairs(ps)[ps[i].0] == ps[i].1
  {
    if i < |ps| - 1 {
      FromPairsLookup(ps[..|ps| - 1], i);
    }
  }

  /** The metadata of a newly promoted long-term memory, in the order the Go map literal lists it. */
  function NewLtmMetadata(e: StagingEntry, tags: seq<string>, now: int): Metadata
  {
    FromPairs(LtmPairs(e, tags, now))
  }

  function LtmPairs(e: StagingEntry, tags: seq<string>, now: int): seq<(string, Value)>
  {
    [("user_id", VStr(e.userId)), ("created_at", VTime(now)), ("tags", VStrs(tags)), ("entities", VOther),
     ("category", VStr(e.category)), ("last_access_at", VTime(now)), ("access_count", VInt(0)),
     ("decay_score", VReal(1.0)), ("source_type", VStr(StagingType)), ("confidence_origin", VReal(e.confidenceScore))]
  }

  /** What a new long-term memory's metadata says about its owner, age, use and score. */
  lemma {:induction false} NewLtmMetadataFacts(e: StagingEntry, tags: seq<string>, now: int)
    ensures var m := NewLtmMetadata(e, tags, now);
      MetaString(m, "user_id") == Some(e.userId)
      && MetaString(m, "category") == Some(e.category)
      && MetaString(m, "source_type") == Some(StagingType)
      && "created_at" in m && m["created_at"] == VTime(now)
      && "last_access_at" in m && m["last_access_at"] == VTime(now)
      && "access_count" in m && m["access_count"] == VInt(0)
      && "decay_score" in m && m["decay_score"] == VReal(1.0)
  {
    var ps := LtmPairs(e, tags, now);
    var m := NewLtmMetadata(e, tags, now);
    assert "user_id" in m && m["user_id"] == VStr(e.userId) by { FromPairsLookup(ps, 0); }
    assert "created_at" in m && m["created_at"] == VTime(now) by { FromPairsLookup(ps, 1); }
    assert "category" in m && m["category"] == VStr(e.category) by { FromPairsLookup(ps, 4); }
    assert "last_access_at" in m && m["last_access_at"] == VTime(now) by { FromPairsLookup(ps, 5); }
    assert "access_count" in m && m["access_count"] == VInt(0) by { FromPairsLookup(ps, 6); }
    assert "decay_score" in m && m["decay_score"] == VReal(1.0) by { FromPairsLookup(ps, 7); }
    assert "source_type" in m && m["source_type"] == VStr(StagingType) by { FromPairsLookup(ps, 8); }
  }

  /** `update_existing`: one more access, decay reset to 1, accessed now. */
  function Bumped(existing: Record, now: int): (r: Record)
    ensures r.id == existing.id && r.content == existing.content && r.embedding == existing.embedding
    ensures "decay_score" in r.metadata && r.metadata["decay_score"] == VReal(1.0)
    ensures "last_access_at" in r.metadata && r.metadata["last_access_at"] == VTime(now)
    ensures "access_count" in r.metadata && r.metadata["access_count"] ==
      VInt(if "access_count" in existing.metadata && existing.metadata["access_count"].VInt?
           then existing.metadata["access_count"].n + 1 else 1)
  {
    var md := existing.metadata;
    var count := if "access_count" in md && md["access_count"].VInt? then md["access_count"].n + 1 else 1;
    existing.(metadata := md["access_count" := VInt(count)]["decay_score" := VReal(1.0)]["last_access_at" := VTime(now)])
  }

  /** `merge`: the merged text, re-embedded when the embedder answers; an int access count is bumped. */
  function MergedInto(existing: Record, merged: string, newVec: Option<Vector>): (r: Record)
    ensures r.id == existing.id && r.content == merged
    ensures r.embedding == (if newVec.Some? then newVec else existing.embedding)
    ensures "decay_score" in r.metadata && r.metadata["decay_score"] == VReal(1.0)
  {
    var md := existing.metadata;
    var md1 := if "access_count" in md && md["access_count"].VInt? then md["access_count" := VInt(md["access_count"].n + 1)] else md;
    existing.(content := merged, embedding := if newVec.Some? then newVec else existing.embedding,
              metadata := md1["decay_score" := VReal(1.0)])
  }

  /** An update whose error is only logged. */
  function UpdateLtm(ltm: seq<Record>, rec: Record): seq<Record>
  {
    match VectorStore.Update(ltm, rec) case Ok(l) => l case Err(_) => ltm
  }

  /** The staging entry leaves and a successful promotion is reported. */
  function Finish(t: Tiers, e: StagingEntry): (r: Tiers)
    ensures r.ltm == t.ltm
    ensures r.db == StagingStore.Delete(t.db, e.id)
    ensures r.promotions == t.promotions + [(e.category, true)]
  {
    t.(db := StagingStore.Delete(t.db, e.id), promotions := t.promotions + [(e.category, true)])
  }

  /** The long-term record built from an entry (tags from the tag model, or the pre-extracted ones). */
  function NewLtmRecord(e: StagingEntry, v: Vector, o: Oracles, now: int): (rec: Record)
    ensures rec.content == e.content && rec.memType == LongTerm && rec.timestamp == e.lastSeenAt
    ensures rec.embedding == Some(v) && rec.id == o.freshId(e.id)
    ensures MetaString(rec.metadata, "user_id") == Some(e.userId)
    ensures "access_count" in rec.metadata && rec.metadata["access_count"] == VInt(0)
    ensures "decay_score" in rec.metadata && rec.metadata["decay_score"] == VReal(1.0)
  {
    NewLtmMetadataFacts(e, PromotedTags(e, o), now);
    Record(o.freshId(e.id), e.content, Some(v), e.lastSeenAt, NewLtmMetadata(e, PromotedTags(e, o), now), LongTerm)
  }

  /** The tags of a promoted memory: the tag model's answer, or the tags staged with the entry. */
  function PromotedTags(e: StagingEntry, o: Oracles): seq<string>
  {
    match Judge.ExtractStructuredTags(e.content, e.category, o.generate, o.parseTags)
    case Ok(te) => te.0
    case Err(_) => e.extractedTags
  }

  function CreateNew(t: Tiers, e: StagingEntry, v: Vector, o: Oracles, now: int): (r: Tiers)
    ensures r == Finish(t.(ltm := t.ltm + [NewLtmRecord(e, v, o, now)]), e)
  {
    Finish(t.(ltm := t.ltm + [NewLtmRecord(e, v, o, now)]), e)
  }

  const DedupThreshold: real := 0.95

  /** The best long-term match of the entry's user at 0.95 or above, if any. */
  function NearDuplicate(ltm: seq<Record>, e: StagingEntry, v: Vector, o: Oracles): (r: seq<Record>)
    ensures |r| <= 1
    ensures |r| == 1 ==> r[0] in ltm && MetaString(r[0].metadata, "user_id") == Some(e.userId)
  {
    var filter := map["user_id" := VStr(e.userId)];
    var r := VectorStore.Search(ltm, v, 1, DedupThreshold, filter, o.ratio).value;
    assert |r| == 1 ==> VectorStore.MetadataMatches(r[0], filter) && "user_id" in filter;
    r
  }

  /** The vector a promotion uses: the staged one, or a fresh embedding when none was stored. */
  function EntryVector(e: StagingEntry, o: Oracles): Option<Vector>
  {
    if |e.embedding| > 0 then Some(e.embedding) else o.embed(e.content)
  }

  /**
   * promoteSingleEntry. With a near-duplicate the LLM picks a strategy
   * ("keep_both" when it fails): "update_existing" and "merge" rewrite the
   * existing memory, "keep_newer" replaces it, "keep_both" adds beside it,
   * and any other answer only retires the entry.
   */
  function PromoteSingleEntry(t: Tiers, e: StagingEntry, o: Oracles, now: int): (r: Result<Tiers>)
    ensures r.Err? <==> EntryVector(e, o).None?
    ensures r.Err? ==> r.msg == "生成embedding失败"
    ensures r.Ok? ==> r.value.db == StagingStore.Delete(t.db, e.id)
    ensures r.Ok? ==> r.value.promotions == t.promotions + [(e.category, true)]
    ensures r.Ok? ==> |r.value.ltm| <= |t.ltm| + 1
    ensures r.Ok? && NearDuplicate(t.ltm, e, EntryVector(e, o).value, o) == [] ==>
      r.value.ltm == t.ltm + [NewLtmRecord(e, EntryVector(e, o).value, o, now)]
    ensures r.Ok? && NearDuplicate(t.ltm, e, EntryVector(e, o).value, o) != [] ==>
      r.value == ResolveDuplicate(t, e, EntryVector(e, o).value, NearDuplicate(t.ltm, e, EntryVector(e, o).value, o)[0], o, now)
  {
    match EntryVector(e, o)
    case None => Err("生成embedding失败")
    case Some(v) =>
      var similar := NearDuplicate(t.ltm, e, v, o);
      if |similar| == 0 then Ok(CreateNew(t, e, v, o, now))
      else Ok(ResolveDuplicate(t, e, v, similar[0], o, now))
  }

  /** The merge model's decision (strategy, merged text); a failed call counts as "keep_both". */
  function MergeDecision(existing: Record, e: StagingEntry, o: Oracles): (d: (string, string))
    ensures o.decideMerge(existing.content, e.content).None? ==> d.0 == "keep_both"
  {
    match o.decideMerge(existing.content, e.content) case Some(d) => d case None => ("keep_both", "")
  }

  /**
   * The merge decision against the closest existing memory, applied: the
   * entry always leaves staging as a success, and the long-term store
   * changes as the strategy says.
   */
  function ResolveDuplicate(t: Tiers, e: StagingEntry, v: Vector, existing: Record, o: Oracles, now: int): (r: Tiers)
    ensures r.db == StagingStore.Delete(t.db, e.id)
    ensures r.promotions == t.promotions + [(e.category, true)]
    ensures |r.ltm| <= |t.ltm| + 1
    ensures MergeDecision(existing, e, o).0 == "keep_newer" ==>
      r.ltm == VectorStore.Delete(t.ltm, [existing.id]) + [NewLtmRecord(e, v, o, now)]
    ensures MergeDecision(existing, e, o).0 == "keep_both" ==> r.ltm == t.ltm + [NewLtmRecord(e, v, o, now)]
    ensures MergeDecision(existing, e, o).0 == "update_existing" ==>
      |r.ltm| == |t.ltm|
      && (existing.id in VectorStore.Ids(t.ltm) ==> Bumped(existing, now) in r.ltm)
      && forall p :: 0 <= p < |t.ltm| && t.ltm[p].id != existing.id ==> r.ltm[p] == t.ltm[p]
    ensures MergeDecision(existing, e, o).0 == "merge" ==>
      |r.ltm| == |t.ltm|
      && (existing.id in VectorStore.Ids(t.ltm) ==>
            MergedInto(existing, MergeDecision(existing, e, o).1, o.embed(MergeDecision(existing, e, o).1)) in r.ltm)
      && forall p :: 0 <= p < |t.ltm| && t.ltm[p].id != existing.id ==> r.ltm[p] == t.ltm[p]
    ensures MergeDecision(existing, e, o).0 !in {"keep_newer", "keep_both", "update_existing", "merge"} ==> r.ltm == t.ltm
  {
    var decision := MergeDecision(existing, e, o);
    var strategy := decision.0;
    if strategy == "keep_newer" then
      CreateNew(t.(ltm := VectorStore.Delete(t.ltm, [existing.id])), e, v, o, now)
    else if strategy == "keep_both" then CreateNew(t, e, v, o, now)
    else if strategy == "update_existing" then
      UpdateLtmFacts(t.ltm, Bumped(existing, now));
      Finish(t.(ltm := UpdateLtm(t.ltm, Bumped(existing, now))), e)
    else if strategy == "merge" then
      var merged := MergedInto(existing, decision.1, o.embed(decision.1));
      UpdateLtmFacts(t.ltm, merged);
      Finish(t.(ltm := UpdateLtm(t.ltm, merged)), e)
    else Finish(t, e)
  }

  /** What an automatic promotion may do to the staging area and the promotion log. */
  predicate StepOk(t: Tiers, e: StagingEntry, r: Tiers)
  {
    r == t || (r.db == StagingStore.Delete(t.db, e.id) && r.promotions == t.promotions + [(e.category, true)])
  }

  /** A high-confidence entry: promoted, or left where it was when no embedding could be made. */
  function AutoStep(t: Tiers, e: StagingEntry, o: Oracles, now: int): (r: Tiers)
    ensures StepOk(t, e, r)
    ensures EntryVector(e, o).Some? ==> r == PromoteSingleEntry(t, e, o, now).value
    ensures EntryVector(e, o).Some? ==>
      r.db == StagingStore.Delete(t.db, e.id) && r.promotions == t.promotions + [(e.category, true)]
    ensures EntryVector(e, o).None? ==> r == t
  {
    match PromoteSingleEntry(t, e, o, now)
    case Ok(t') => t'
    case Err(_) => t
  }

  /** `k` holds a staged entry ready for promotion. */
  predicate PendingKey(db: StagingStore.Db, k: string, now: int, cfg: Config)
  {
    k in db && HasPrefix(k, "staging:") && StagingStore.Promotable(db[k], now, cfg.minOccurrences, cfg.minWaitHours)
  }

  /** Every entry with ID `k` in the list is one that waits for review. */
  predicate OnlyAwaiting(entries: seq<StagingEntry>, k: string, cfg: Config)
  {
    forall i :: 0 <= i < |entries| && entries[i].id == k ==> RouteOf(entries[i], cfg) == AwaitReview
  }

  /** A promotion step that, from any state, retires `e` from staging and logs it as a success. */
  ghost predicate Retires(promote: (Tiers, StagingEntry) -> Tiers, e: StagingEntry)
  {
    forall t: Tiers :: promote(t, e).db == StagingStore.Delete(t.db, e.id) && promote(t, e).promotions == t.promotions + [(e.category, true)]
  }

  /**
   * The automatic promotion as the routing loop's step: it only ever does
   * what StepOk allows, and it retires every entry it can embed.
   */
  function AutoPromotion(o: Oracles, now: int): (f: (Tiers, StagingEntry) -> Tiers)
    ensures forall t: Tiers, e: StagingEntry :: StepOk(t, e, f(t, e))
    ensures forall t: Tiers, e: StagingEntry :: f(t, e) == AutoStep(t, e, o, now)
  {
    (t: Tiers, e: StagingEntry) => AutoStep(t, e, o, now)
  }

  /** One pending entry: promoted, left for review, or deleted and reported as rejected. */
  function RouteStep(t: Tiers, e: StagingEntry, cfg: Config, promote: (Tiers, StagingEntry) -> Tiers): (r: Tiers)
    requires forall t', e' :: StepOk(t', e', promote(t', e'))
    ensures forall k :: k in r.db ==> k in t.db && r.db[k] == t.db[k]
    ensures forall k :: k in t.db && k != e.id ==> k in r.db
    ensures RouteOf(e, cfg) == AutoPromote ==> r == promote(t, e)
    ensures RouteOf(e, cfg) == AwaitReview ==> r == t
    ensures RouteOf(e, cfg) == Discard ==>
      r.db == StagingStore.Delete(t.db, e.id) && r.promotions == t.promotions + [(e.category, false)]
    ensures Seqs.IsPrefix(t.promotions, r.promotions)
  {
    match RouteOf(e, cfg)
    case AutoPromote =>
      var r := promote(t, e);
      assert StepOk(t, e, r);
      assert r.promotions[..|t.promotions|] == t.promotions;
      r
    case AwaitReview => t
    case Discard => t.(db := StagingStore.Delete(t.db, e.id), promotions := t.promotions + [(e.category, false)])
  }

  /** The pending entries, routed one after the other. */
  function PromoteEach(t: Tiers, entries: seq<StagingEntry>, cfg: Config, promote: (Tiers, StagingEntry) -> Tiers)
    : (r: Tiers)
    requires forall t', e' :: StepOk(t', e', promote(t', e'))
    ensures Seqs.IsPrefix(t.promotions, r.promotions)
    ensures forall i :: 0 <= i < |entries| && RouteOf(entries[i], cfg) == Discard ==> entries[i].id !in r.db
    ensures forall i :: 0 <= i < |entries| && RouteOf(entries[i], cfg) == AutoPromote && Retires(promote, entries[i]) ==>
      entries[i].id !in r.db
    ensures forall k :: k in r.db ==> k in t.db && r.db[k] == t.db[k]
    ensures forall k :: k in t.db && OnlyAwaiting(entries, k, cfg) ==> k in r.db && r.db[k] == t.db[k]
    decreases |entries|
  {
    if entries == [] then t
    else
      var e := entries[0];
      var t1 := RouteStep(t, e, cfg, promote);
      var r := PromoteEach(t1, entries[1..], cfg, promote);
      assert forall i :: 1 <= i < |entries| ==> entries[i] == entries[1..][i - 1];
      assert r.promotions[..|t.promotions|] == r.promotions[..|t1.promotions|][..|t.promotions|];
      r
  }

  /** A high-confidence entry the promotion can embed, and so moves to long-term memory. */
  predicate Promoted(e: StagingEntry, cfg: Config, o: Oracles)
  {
    RouteOf(e, cfg) == AutoPromote && EntryVector(e, o).Some?
  }

  /**
   * The log line the routing pass writes for one entry: a success when it
   * promotes it, a rejection for a low-confidence entry, and nothing for an
   * entry left for review or one it cannot embed.
   */
  function Outcome(e: StagingEntry, cfg: Config, o: Oracles): seq<(string, bool)>
  {
    if Promoted(e, cfg, o) then [(e.category, true)]
    else if RouteOf(e, cfg) == Discard then [(e.category, false)]
    else []
  }

  /** The promotion log of a whole routing pass, entry by entry. */
  function Outcomes(entries: seq<StagingEntry>, cfg: Config, o: Oracles): seq<(string, bool)>
  {
    if entries == [] then [] else Outcome(entries[0], cfg, o) + Outcomes(entries[1..], cfg, o)
  }

  /** How many of the entries the routing pass promotes. */
  function PromotedCount(entries: seq<StagingEntry>, cfg: Config, o: Oracles): nat
  {
    if entries == [] then 0 else (if Promoted(entries[0], cfg, o) then 1 else 0) + PromotedCount(entries[1..], cfg, o)
  }

  /** The automatic step retires every entry it can embed, whatever the state. */
  lemma AutoRetires(o: Oracles, now: int, e: StagingEntry)
    requires EntryVector(e, o).Some?
    ensures Retires(AutoPromotion(o, now), e)
  {
    forall t: Tiers
      ensures AutoPromotion(o, now)(t, e).db == StagingStore.Delete(t.db, e.id)
      ensures AutoPromotion(o, now)(t, e).promotions == t.promotions + [(e.category, true)]
    {
      assert AutoPromotion(o, now)(t, e) == AutoStep(t, e, o, now);
    }
  }

  /** One routed entry logs its Outcome and adds a long-term memory only when it is promoted. */
  lemma RouteStepEffects(t: Tiers, e: StagingEntry, cfg: Config, o: Oracles, now: int)
    ensures RouteStep(t, e, cfg, AutoPromotion(o, now)).promotions == t.promotions + Outcome(e, cfg, o)
    ensures |RouteStep(t, e, cfg, AutoPromotion(o, now)).ltm| <= |t.ltm| + (if Promoted(e, cfg, o) then 1 else 0)
    ensures !Promoted(e, cfg, o) ==> RouteStep(t, e, cfg, AutoPromotion(o, now)).ltm == t.ltm
  {
    assert AutoPromotion(o, now)(t, e) == AutoStep(t, e, o, now);
  }

  /**
   * The routing pass with the real promotion writes exactly the Outcomes
   * log, adds at most one long-term memory per promoted entry, and leaves
   * long-term memory alone when it promotes nothing.
   */
  lemma {:induction false} PromoteEachEffects(t: Tiers, entries: seq<StagingEntry>, cfg: Config, o: Oracles, now: int)
    ensures PromoteEach(t, entries, cfg, AutoPromotion(o, now)).promotions == t.promotions + Outcomes(entries, cfg, o)
    ensures |PromoteEach(t, entries, cfg, AutoPromotion(o, now)).ltm| <= |t.ltm| + PromotedCount(entries, cfg, o)
    ensures PromotedCount(entries, cfg, o) == 0 ==> PromoteEach(t, entries, cfg, AutoPromotion(o, now)).ltm == t.ltm
  {
    AutoLogs(o, now);
    PromoteEachLog(t, entries, cfg, o, AutoPromotion(o, now));
    PromoteEachGrowth(t, entries, cfg, o, now);
  }

  /**
   * A promotion step that logs a success exactly when the entry has an
   * embedding, and otherwise logs nothing.
   */
  ghost predicate LogsPromotion(promote: (Tiers, StagingEntry) -> Tiers, o: Oracles)
  {
    forall t: Tiers, e: StagingEntry ::
      promote(t, e).promotions == t.promotions + (if EntryVector(e, o).Some? then [(e.category, true)] else [])
  }

  /** The automatic step logs its promotions that way. */
  lemma AutoLogs(o: Oracles, now: int)
    ensures LogsPromotion(AutoPromotion(o, now), o)
  {
    forall t: Tiers, e: StagingEntry
      ensures AutoPromotion(o, now)(t, e).promotions ==
        t.promotions + (if EntryVector(e, o).Some? then [(e.category, true)] else [])
    {
      assert AutoPromotion(o, now)(t, e) == AutoStep(t, e, o, now);
    }
  }

  /** One routed entry, under a step that logs that way, logs its Outcome. */
  lemma RouteStepLog(t: Tiers, e: StagingEntry, cfg: Config, o: Oracles, promote: (Tiers, StagingEntry) -> Tiers)
    requires forall t', e' :: StepOk(t', e', promote(t', e'))
    requires LogsPromotion(promote, o)
    ensures RouteStep(t, e, cfg, promote).promotions == t.promotions + Outcome(e, cfg, o)
  {
    assert RouteOf(e, cfg) == AutoPromote ==> RouteStep(t, e, cfg, promote) == promote(t, e);
  }

  /** The log half of PromoteEachEffects, one entry at a time, for any step that logs that way. */
  lemma {:induction false} PromoteEachLog(t: Tiers, entries: seq<StagingEntry>, cfg: Config, o: Oracles,
                                          promote: (Tiers, StagingEntry) -> Tiers)
    requires forall t', e' :: StepOk(t', e', promote(t', e'))
    requires LogsPromotion(promote, o)
    ensures PromoteEach(t, entries, cfg, promote).promotions == t.promotions + Outcomes(entries, cfg, o)
    decreases |entries|
  {
    if entries != [] {
      var e := entries[0];
      var t1 := RouteStep(t, e, cfg, promote);
      var rest := entries[1..];
      var head, tail := Outcome(e, cfg, o), Outcomes(rest, cfg, o);
      var p1 := PromoteEach(t1, rest, cfg, promote).promotions;
      assert PromoteEach(t, entries, cfg, promote).promotions == p1;
      RouteStepLog(t, e, cfg, o, promote);
      assert p1 == t1.promotions + tail by {
        PromoteEachLog(t1, rest, cfg, o, promote);
      }
      assert Outcomes(entries, cfg, o) == head + tail;
      assert (t.promotions + head) + tail == t.promotions + (head + tail);
    }
  }

  /** The long-term-memory half of PromoteEachEffects, one entry at a time. */
  lemma {:induction false} PromoteEachGrowth(t: Tiers, entries: seq<StagingEntry>, cfg: Config, o: Oracles, now: int)
    ensures |PromoteEach(t, entries, cfg, AutoPromotion(o, now)).ltm| <= |t.ltm| + PromotedCount(entries, cfg, o)
    ensures PromotedCount(entries, cfg, o) == 0 ==> PromoteEach(t, entries, cfg, AutoPromotion(o, now)).ltm == t.ltm
    decreases |entries|
  {
    if entries != [] {
      var promote := AutoPromotion(o, now);
      var t1 := RouteStep(t, entries[0], cfg, promote);
      var rest := entries[1..];
      var r1 := PromoteEach(t1, rest, cfg, promote);
      assert PromoteEach(t, entries, cfg, promote) == r1;
      RouteStepEffects(t, entries[0], cfg, o, now);
      PromoteEachGrowth(t1, rest, cfg, o, now);
      assert PromotedCount(entries, cfg, o) == (if Promoted(entries[0], cfg, o) then 1 else 0) + PromotedCount(rest, cfg, o);
    }
  }


  /**
   * PromoteStagingToLTM, in its corrected form (see Funnel.RouteAsWritten
   * for the panic of the code as written): every pending entry is promoted
   * (high confidence), kept for review (medium) or deleted and reported as
   * rejected (low).
   */
  function PromoteStagingToLtm(t: Tiers, cfg: Config, o: Oracles, now: int): (r: Tiers)
    requires ValidOracles(o)
    ensures forall k :: k in r.db ==> k in t.db && r.db[k] == t.db[k]
    ensures StagingStore.WellKeyed(t.db) ==>
      forall k :: k in t.db && HasPrefix(k, "staging:") && RouteOf(t.db[k], cfg) == Discard
        && StagingStore.Promotable(t.db[k], now, cfg.minOccurrences, cfg.minWaitHours)
        ==> k !in r.db
    ensures StagingStore.WellKeyed(t.db) ==>
      forall k :: k in t.db && HasPrefix(k, "staging:") && Promoted(t.db[k], cfg, o)
        && StagingStore.Promotable(t.db[k], now, cfg.minOccurrences, cfg.minWaitHours)
        ==> k !in r.db
    ensures StagingStore.WellKeyed(t.db) ==>
      forall k :: k in t.db && RouteOf(t.db[k], cfg) == AwaitReview ==> k in r.db && r.db[k] == t.db[k]
    ensures r.promotions == t.promotions
      + Outcomes(StagingStore.GetPendingEntries(t.db, o.scanOrder(t.db), now, cfg.minOccurrences, cfg.minWaitHours), cfg, o)
    ensures |r.ltm| <= |t.ltm|
      + PromotedCount(StagingStore.GetPendingEntries(t.db, o.scanOrder(t.db), now, cfg.minOccurrences, cfg.minWaitHours), cfg, o)
    ensures PromotedCount(StagingStore.GetPendingEntries(t.db, o.scanOrder(t.db), now, cfg.minOccurrences, cfg.minWaitHours), cfg, o) == 0
      ==> r.ltm == t.ltm
  {
    var entries := StagingStore.GetPendingEntries(t.db, o.scanOrder(t.db), now, cfg.minOccurrences, cfg.minWaitHours);
    var promote := AutoPromotion(o, now);
    var r := PromoteEach(t, entries, cfg, promote);
    forall i | 0 <= i < |entries| && Promoted(entries[i], cfg, o)
      ensures entries[i].id !in r.db
    {
      AutoRetires(o, now, entries[i]);
    }
    PendingRouted(t, entries, r, cfg, o, now);
    PromoteEachEffects(t, entries, cfg, o, now);
    r
  }

  lemma PendingRouted(t: Tiers, entries: seq<StagingEntry>, r: Tiers, cfg: Config, o: Oracles, now: int)
    requires forall i :: 0 <= i < |entries| ==>
      StagingStore.Promotable(entries[i], now, cfg.minOccurrences, cfg.minWaitHours)
      && exists k :: k in t.db && HasPrefix(k, "staging:") && t.db[k] == entries[i]
    requires forall k :: PendingKey(t.db, k, now, cfg) ==> t.db[k] in entries
    requires forall i :: 0 <= i < |entries| && RouteOf(entries[i], cfg) == Discard ==> entries[i].id !in r.db
    requires forall i :: 0 <= i < |entries| && Promoted(entries[i], cfg, o) ==> entries[i].id !in r.db
    requires forall k :: k in t.db && OnlyAwaiting(entries, k, cfg) ==> k in r.db && r.db[k] == t.db[k]
    ensures StagingStore.WellKeyed(t.db) ==>
      forall k :: k in t.db && HasPrefix(k, "staging:") && RouteOf(t.db[k], cfg) == Discard
        && StagingStore.Promotable(t.db[k], now, cfg.minOccurrences, cfg.minWaitHours)
        ==> k !in r.db
    ensures StagingStore.WellKeyed(t.db) ==>
      forall k :: k in t.db && HasPrefix(k, "staging:") && Promoted(t.db[k], cfg, o)
        && StagingStore.Promotable(t.db[k], now, cfg.minOccurrences, cfg.minWaitHours)
        ==> k !in r.db
    ensures StagingStore.WellKeyed(t.db) ==>
      forall k :: k in t.db && RouteOf(t.db[k], cfg) == AwaitReview ==> k in r.db && r.db[k] == t.db[k]
  {
    if StagingStore.WellKeyed(t.db) {
    forall k | k in t.db && HasPrefix(k, "staging:") && RouteOf(t.db[k], cfg) == Discard
      && StagingStore.Promotable(t.db[k], now, cfg.minOccurrences, cfg.minWaitHours)
      ensures k !in r.db
    {
      var i :| 0 <= i < |entries| && entries[i] == t.db[k];
    }
    forall k | k in t.db && HasPrefix(k, "staging:") && Promoted(t.db[k], cfg, o)
      && StagingStore.Promotable(t.db[k], now, cfg.minOccurrences, cfg.minWaitHours)
      ensures k !in r.db
    {
      var i :| 0 <= i < |entries| && entries[i] == t.db[k];
    }
    forall k | k in t.db && RouteOf(t.db[k], cfg) == AwaitReview
      ensures k in r.db && r.db[k] == t.db[k]
    {
      forall i | 0 <= i < |entries| && entries[i].id == k
        ensures RouteOf(entries[i], cfg) == AwaitReview
      {
        var k' :| k' in t.db && HasPrefix(k', "staging:") && t.db[k'] == entries[i];
        assert k' == k;
      }
    }
    }
  }

  // ----- forgetting -----

  const ThirtyDays: int := 30 * Decay.SecondsPerDay

  /** extractLTMMetadata: missing or mistyped fields fall back to "", now − 30 days, 0 and 1.0. */
  function ExtractLtmMetadata(meta: Metadata, now: int): (r: LtmMetadata)
    ensures r.userId == (if "user_id" in meta && meta["user_id"].VStr? then meta["user_id"].s else "")
    ensures r.lastAccessAt == (if "last_access_at" in meta && meta["last_access_at"].VTime? then meta["last_access_at"].t else now - ThirtyDays)
    ensures r.accessCount == (if "access_count" in meta && meta["access_count"].VInt? then meta["access_count"].n else 0)
    ensures r.decayScore == (if "decay_score" in meta && meta["decay_score"].VReal? then meta["decay_score"].x else 1.0)
  {
    LtmMetadata(
      if "user_id" in meta && meta["user_id"].VStr? then meta["user_id"].s else "",
      "", 0, [], map[], "",
      if "last_access_at" in meta && meta["last_access_at"].VTime? then meta["last_access_at"].t else now - ThirtyDays,
      if "access_count" in meta && meta["access_count"].VInt? then meta["access_count"].n else 0,
      if "decay_score" in meta && meta["decay_score"].VReal? then meta["decay_score"].x else 1.0,
      "", 0.0)
  }

  /** A freshly promoted memory reads back as accessed now, never, with full score. */
  lemma NewMetadataReadsBack(e: StagingEntry, tags: seq<string>, now: int, later: int)
    ensures var m := ExtractLtmMetadata(NewLtmMetadata(e, tags, now), later);
      m.userId == e.userId && m.lastAccessAt == now && m.accessCount == 0 && m.decayScore == 1.0
  {
    NewLtmMetadataFacts(e, tags, now);
  }

  /** The recomputed score of one long-term record. */
  function DecayOf(rec: Record, c: Decay.Calculator, now: int, expDecay: (real, int) -> real): LtmMetadata
  {
    Decay.UpdateMetadataDecay(c, ExtractLtmMetadata(rec.metadata, now), now, expDecay)
  }

  predicate Evicts(rec: Record, c: Decay.Calculator, now: int, expDecay: (real, int) -> real)
  {
    Decay.ShouldEvict(c, DecayOf(rec, c, now, expDecay).decayScore)
  }

  /** A kept record with its new score and (possibly defaulted) last access written back. */
  function Rescored(rec: Record, c: Decay.Calculator, now: int, expDecay: (real, int) -> real): (r: Record)
    ensures r.id == rec.id && r.content == rec.content && r.timestamp == rec.timestamp
    ensures "decay_score" in r.metadata && r.metadata["decay_score"] == VReal(DecayOf(rec, c, now, expDecay).decayScore)
  {
    var m := DecayOf(rec, c, now, expDecay);
    rec.(metadata := rec.metadata["decay_score" := VReal(m.decayScore)]["last_access_at" := VTime(m.lastAccessAt)])
  }

  /** The scan's two lists: IDs to delete and rescored records to write back. */
  function Partition(records: seq<Record>, evicts: Record -> bool, rescore: Record -> Record)
    : (r: (seq<string>, seq<Record>))
    ensures |r.0| + |r.1| == |records|
    ensures forall i :: 0 <= i < |records| && evicts(records[i]) ==> records[i].id in r.0
    ensures forall i :: 0 <= i < |records| && !evicts(records[i]) ==> rescore(records[i]) in r.1
    ensures forall x :: x in r.0 ==> exists i :: 0 <= i < |records| && records[i].id == x && evicts(records[i])
    ensures forall y :: y in r.1 ==> exists i :: 0 <= i < |records| && !evicts(records[i]) && y == rescore(records[i])
  {
    if records == [] then ([], [])
    else
      var rest := Partition(records[1..], evicts, rescore);
      assert forall i :: 1 <= i < |records| ==> records[i] == records[1..][i - 1];
      if evicts(records[0]) then ([records[0].id] + rest.0, rest.1)
      else (rest.0, [rescore(records[0])] + rest.1)
  }

  /** The write-backs, one after the other (an unknown ID is only logged). */
  function UpdateAll(ltm: seq<Record>, recs: seq<Record>): (r: seq<Record>)
    ensures |r| == |ltm|
    ensures forall i :: 0 <= i < |r| ==> r[i].id == ltm[i].id
    decreases |recs|
  {
    if recs == [] then ltm
    else
      var l1 := UpdateLtm(ltm, recs[0]);
      assert |l1| == |ltm| && forall i :: 0 <= i < |l1| ==> l1[i].id == ltm[i].id;
      UpdateAll(l1, recs[1..])
  }

  /**
   * ScanAndEvictDecayedMemories over the first 1000 long-term records, in
   * its corrected form (see Funnel.EvictionLogAsWritten for the panic of the
   * code as written): the decayed ones are deleted, the others get their new
   * score.
   */
  function ScanAndEvict(ltm: seq<Record>, c: Decay.Calculator, now: int, expDecay: (real, int) -> real): (r: seq<Record>)
    ensures var scanned := VectorStore.List(ltm, map[], 1000, 0);
      forall i, j :: 0 <= i < |scanned| && Evicts(scanned[i], c, now, expDecay) && 0 <= j < |r| ==> r[j].id != scanned[i].id
    ensures |r| <= |ltm|
    ensures VectorStore.IdsFrom(r, ltm)
    ensures VectorStore.UniqueIds(ltm) ==>
      forall i :: 0 <= i < |ltm| && i < 1000 && !Evicts(ltm[i], c, now, expDecay) ==> Rescored(ltm[i], c, now, expDecay) in r
    ensures VectorStore.UniqueIds(ltm) ==> forall i :: 1000 <= i < |ltm| ==> ltm[i] in r
  {
    EvictPass(ltm, rec => Evicts(rec, c, now, expDecay), rec => Rescored(rec, c, now, expDecay))
  }

  /** The scan with the decision and the rewrite as parameters. */
  function EvictPass(ltm: seq<Record>, evicts: Record -> bool, rescore: Record -> Record): (r: seq<Record>)
    ensures var scanned := VectorStore.List(ltm, map[], 1000, 0);
      forall i, j :: 0 <= i < |scanned| && evicts(scanned[i]) && 0 <= j < |r| ==> r[j].id != scanned[i].id
    ensures |r| <= |ltm|
    ensures VectorStore.IdsFrom(r, ltm)
    ensures (forall x :: rescore(x).id == x.id) && VectorStore.UniqueIds(ltm) ==>
      forall i :: 0 <= i < |ltm| && i < 1000 && !evicts(ltm[i]) ==> rescore(ltm[i]) in r
    ensures (forall x :: rescore(x).id == x.id) && VectorStore.UniqueIds(ltm) ==>
      forall i :: 1000 <= i < |ltm| ==> ltm[i] in r
  {
    var scanned := VectorStore.List(ltm, map[], 1000, 0);
    var (del, upd) := Partition(scanned, evicts, rescore);
    var ltm1 := DeleteIfAny(ltm, del);
    var r := UpdateAll(ltm1, upd);
    EvictPassKeepsIds(ltm, scanned, del, ltm1, r, evicts);
    EvictPassKeepsRest(ltm, scanned, del, upd, ltm1, evicts, rescore);
    r
  }

  /**
   * With unique IDs and a rewrite that keeps IDs, the pass writes back
   * every scanned record it does not evict and leaves the records past
   * the scan as they were.
   */
  lemma EvictPassKeepsRest(ltm: seq<Record>, scanned: seq<Record>, del: seq<string>, upd: seq<Record>,
                           ltm1: seq<Record>, evicts: Record -> bool, rescore: Record -> Record)
    requires scanned == VectorStore.List(ltm, map[], 1000, 0)
    requires (del, upd) == Partition(scanned, evicts, rescore)
    requires ltm1 == DeleteIfAny(ltm, del)
    ensures (forall x :: rescore(x).id == x.id) && VectorStore.UniqueIds(ltm) ==>
      forall i :: 0 <= i < |ltm| && i < 1000 && !evicts(ltm[i]) ==> rescore(ltm[i]) in UpdateAll(ltm1, upd)
    ensures (forall x :: rescore(x).id == x.id) && VectorStore.UniqueIds(ltm) ==>
      forall i :: 1000 <= i < |ltm| ==> ltm[i] in UpdateAll(ltm1, upd)
  {
    if (forall x :: rescore(x).id == x.id) && VectorStore.UniqueIds(ltm) {
      VectorStore.ListAllIsTake(ltm, 1000);
      KeepsRest(ltm, scanned, del, upd, ltm1, evicts, rescore);
    }
  }

  /** An ID to delete belongs to an evicted scanned record, so to nothing else. */
  lemma SurvivesDelete(ltm: seq<Record>, scanned: seq<Record>, del: seq<string>,
                       ltm1: seq<Record>, evicts: Record -> bool)
    requires VectorStore.UniqueIds(ltm)
    requires |scanned| <= |ltm| && forall i :: 0 <= i < |scanned| ==> scanned[i] == ltm[i]
    requires forall x :: x in del ==> exists i :: 0 <= i < |scanned| && scanned[i].id == x && evicts(scanned[i])
    requires forall k :: 0 <= k < |ltm| && ltm[k].id !in del ==> ltm[k] in ltm1
    ensures forall k :: 0 <= k < |ltm| && (k >= |scanned| || !evicts(ltm[k])) ==> ltm[k] in ltm1
  {
    forall k | 0 <= k < |ltm| && (k >= |scanned| || !evicts(ltm[k]))
      ensures ltm[k] in ltm1
    {
      forall x | x in del
        ensures x != ltm[k].id
      {
        var i :| 0 <= i < |scanned| && scanned[i].id == x && evicts(scanned[i]);
        if i < k {
          assert ltm[i].id != ltm[k].id;
        } else if k < i {
          assert ltm[k].id != ltm[i].id;
        }
      }
    }
  }

  /**
   * The rewritten records of distinct scanned records: one ID means one
   * record, and every ID is still stored after the delete.
   */
  lemma WritesAgree(ltm: seq<Record>, scanned: seq<Record>, upd: seq<Record>,
                    ltm1: seq<Record>, evicts: Record -> bool, rescore: Record -> Record)
    requires forall x :: rescore(x).id == x.id
    requires VectorStore.UniqueIds(ltm)
    requires |scanned| <= |ltm| && forall i :: 0 <= i < |scanned| ==> scanned[i] == ltm[i]
    requires forall y :: y in upd ==> exists i :: 0 <= i < |scanned| && !evicts(scanned[i]) && y == rescore(scanned[i])
    requires forall k :: 0 <= k < |ltm| && (k >= |scanned| || !evicts(ltm[k])) ==> ltm[k] in ltm1
    ensures forall a, b :: a in upd && b in upd && a.id == b.id ==> a == b
    ensures forall u :: u in upd ==> u.id in VectorStore.Ids(ltm1)
  {
    forall a, b | a in upd && b in upd && a.id == b.id
      ensures a == b
    {
      var i :| 0 <= i < |scanned| && !evicts(scanned[i]) && a == rescore(scanned[i]);
      var j :| 0 <= j < |scanned| && !evicts(scanned[j]) && b == rescore(scanned[j]);
      assert scanned[i].id == scanned[j].id;
    }
    forall u | u in upd
      ensures u.id in VectorStore.Ids(ltm1)
    {
      var i :| 0 <= i < |scanned| && !evicts(scanned[i]) && u == rescore(scanned[i]);
      assert ltm[i] in ltm1;
    }
  }

  /**
   * The pass over a scanned prefix, from the contracts of its three steps:
   * every record past the prefix or not evicted survives the delete, and
   * the write-backs then keep the former and land the latter rewritten.
   */
  lemma KeepsRest(ltm: seq<Record>, scanned: seq<Record>, del: seq<string>, upd: seq<Record>,
                  ltm1: seq<Record>, evicts: Record -> bool, rescore: Record -> Record)
    requires forall x :: rescore(x).id == x.id
    requires VectorStore.UniqueIds(ltm)
    requires |scanned| <= |ltm| && forall i :: 0 <= i < |scanned| ==> scanned[i] == ltm[i]
    requires forall x :: x in del ==> exists i :: 0 <= i < |scanned| && scanned[i].id == x && evicts(scanned[i])
    requires forall y :: y in upd ==> exists i :: 0 <= i < |scanned| && !evicts(scanned[i]) && y == rescore(scanned[i])
    requires forall i :: 0 <= i < |scanned| && !evicts(scanned[i]) ==> rescore(scanned[i]) in upd
    requires forall k :: 0 <= k < |ltm| && ltm[k].id !in del ==> ltm[k] in ltm1
    ensures forall i :: 0 <= i < |scanned| && !evicts(ltm[i]) ==> rescore(ltm[i]) in UpdateAll(ltm1, upd)
    ensures forall k :: |scanned| <= k < |ltm| ==> ltm[k] in UpdateAll(ltm1, upd)
  {
    SurvivesDelete(ltm, scanned, del, ltm1, evicts);
    WritesAgree(ltm, scanned, upd, ltm1, evicts, rescore);
    UpdateAllWrites(ltm1, upd);
    forall i | 0 <= i < |scanned| && !evicts(ltm[i])
      ensures rescore(ltm[i]) in UpdateAll(ltm1, upd)
    {
      assert rescore(scanned[i]) in upd;
    }
    forall k | |scanned| <= k < |ltm|
      ensures ltm[k] in UpdateAll(ltm1, upd)
    {
      forall u | u in upd
        ensures u.id != ltm[k].id
      {
        var i :| 0 <= i < |scanned| && !evicts(scanned[i]) && u == rescore(scanned[i]);
        assert i != k;
      }
      UpdateAllKeepsOthers(ltm1, upd, ltm[k]);
    }
  }

  /**
   * One write-back changes only the first record with its ID, which it
   * replaces; every position keeps its ID.
   */
  lemma UpdateLtmFacts(ltm: seq<Record>, rec: Record)
    ensures |UpdateLtm(ltm, rec)| == |ltm|
    ensures forall p :: 0 <= p < |ltm| ==> UpdateLtm(ltm, rec)[p].id == ltm[p].id
    ensures forall p :: 0 <= p < |ltm| && ltm[p].id != rec.id ==> UpdateLtm(ltm, rec)[p] == ltm[p]
    ensures rec.id in VectorStore.Ids(ltm) ==> rec in UpdateLtm(ltm, rec)
    ensures VectorStore.Ids(UpdateLtm(ltm, rec)) == VectorStore.Ids(ltm)
  {
    var l1 := UpdateLtm(ltm, rec);
    forall x | x in VectorStore.Ids(ltm)
      ensures x in VectorStore.Ids(l1)
    {
      var q :| q in ltm && q.id == x;
      var p :| 0 <= p < |ltm| && ltm[p] == q;
      assert l1[p].id == x;
    }
    forall x | x in VectorStore.Ids(l1)
      ensures x in VectorStore.Ids(ltm)
    {
      var q :| q in l1 && q.id == x;
      var p :| 0 <= p < |l1| && l1[p] == q;
      assert ltm[p].id == x;
    }
    if rec.id in VectorStore.Ids(ltm) {
      var q :| q in ltm && q.id == rec.id;
      assert VectorStore.Update(ltm, rec).Ok?;
      var i :| 0 <= i < |ltm| && ltm[i].id == rec.id && UpdateLtm(ltm, rec) == ltm[i := rec];
      assert UpdateLtm(ltm, rec)[i] == rec;
    }
  }

  /** A record no write-back names survives the write-backs. */
  lemma {:induction false} UpdateAllKeepsOthers(ltm: seq<Record>, recs: seq<Record>, x: Record)
    requires x in ltm
    requires forall u :: u in recs ==> u.id != x.id
    ensures x in UpdateAll(ltm, recs)
    decreases |recs|
  {
    if recs != [] {
      var p :| 0 <= p < |ltm| && ltm[p] == x;
      UpdateLtmFacts(ltm, recs[0]);
      assert UpdateLtm(ltm, recs[0])[p] == x;
      UpdateAllKeepsOthers(UpdateLtm(ltm, recs[0]), recs[1..], x);
    }
  }

  /**
   * Write-backs that agree on each ID and name stored IDs all land: each
   * written record is in the result.
   */
  lemma {:induction false} UpdateAllWrites(ltm: seq<Record>, recs: seq<Record>)
    requires forall a, b :: a in recs && b in recs && a.id == b.id ==> a == b
    requires forall u :: u in recs ==> u.id in VectorStore.Ids(ltm)
    ensures forall u :: u in recs ==> u in UpdateAll(ltm, recs)
    decreases |recs|
  {
    if recs != [] {
      var l1 := UpdateLtm(ltm, recs[0]);
      var rest := recs[1..];
      UpdateLtmFacts(ltm, recs[0]);
      assert forall u :: u in rest ==> u in recs;
      UpdateAllWrites(l1, rest);
      assert UpdateAll(ltm, recs) == UpdateAll(l1, rest);
      FirstWriteLands(l1, recs);
      assert forall u :: u in recs ==> u == recs[0] || u in rest;
    }
  }

  /**
   * The first write-back, already applied, survives the others: a later
   * one with its ID writes the same record, and any other leaves it alone.
   */
  lemma FirstWriteLands(l1: seq<Record>, recs: seq<Record>)
    requires recs != []
    requires forall a, b :: a in recs && b in recs && a.id == b.id ==> a == b
    requires recs[0] in l1
    requires forall u :: u in recs[1..] ==> u in UpdateAll(l1, recs[1..])
    ensures recs[0] in UpdateAll(l1, recs[1..])
  {
    var rest := recs[1..];
    assert forall u :: u in rest ==> u in recs;
    if exists u :: u in rest && u.id == recs[0].id {
      var u :| u in rest && u.id == recs[0].id;
      assert u == recs[0];
    } else {
      UpdateAllKeepsOthers(l1, rest, recs[0]);
    }
  }



  /** The batch delete, skipped when nothing is to be deleted. */
  function DeleteIfAny(ltm: seq<Record>, del: seq<string>): (r: seq<Record>)
    ensures |r| <= |ltm|
    ensures forall k :: 0 <= k < |r| ==> r[k] in ltm && r[k].id !in del
    ensures forall k :: 0 <= k < |ltm| && ltm[k].id !in del ==> ltm[k] in r
    ensures Seqs.Subsequence(r, ltm)
    ensures forall k :: 0 <= k < |ltm| ==> multiset(r)[ltm[k]] == if ltm[k].id in del then 0 else multiset(ltm)[ltm[k]]
  {
    if |del| > 0 then VectorStore.Delete(ltm, del)
    else
      Seqs.SubsequenceRefl(ltm);
      ltm
  }

  /** The deleted IDs are gone and no ID is invented, whatever the write-backs do in place. */
  lemma EvictPassKeepsIds(ltm: seq<Record>, scanned: seq<Record>, del: seq<string>, ltm1: seq<Record>, r: seq<Record>,
                          evicts: Record -> bool)
    requires forall i :: 0 <= i < |scanned| && evicts(scanned[i]) ==> scanned[i].id in del
    requires forall k :: 0 <= k < |ltm1| ==> ltm1[k] in ltm && ltm1[k].id !in del
    requires |r| == |ltm1| && forall k :: 0 <= k < |r| ==> r[k].id == ltm1[k].id
    ensures forall i, j :: 0 <= i < |scanned| && evicts(scanned[i]) && 0 <= j < |r| ==> r[j].id != scanned[i].id
    ensures VectorStore.IdsFrom(r, ltm)
  {
    forall x | x in VectorStore.Ids(r)
      ensures x in VectorStore.Ids(ltm)
    {
      var j :| 0 <= j < |r| && r[j].id == x;
      assert ltm1[j] in ltm;
    }
  }

  /**
   * The scan as written: logging an evicted record's first 50 content
   * bytes panics when it has fewer.
   */
  function EvictionLogAsWritten(scanned: seq<Record>, c: Decay.Calculator, now: int, expDecay: (real, int) -> real)
    : (r: Option<seq<seq<Byte>>>)
    ensures r.None? <==> exists i :: 0 <= i < |scanned| && Evicts(scanned[i], c, now, expDecay) && |Utf8(scanned[i].content)| < 50
  {
    if scanned == [] then Some([])
    else
      var rest := EvictionLogAsWritten(scanned[1..], c, now, expDecay);
      assert forall i :: 1 <= i < |scanned| ==> scanned[i] == scanned[1..][i - 1];
      if Evicts(scanned[0], c, now, expDecay) then
        match SnippetAsWritten(scanned[0].content)
        case None => None
        case Some(s) => (match rest case None => None case Some(lines) => Some([s] + lines))
      else rest
  }

  /** Forgetting one short memory crashes the scan as written. */
  lemma ShortEvictedRecordPanics(rec: Record, c: Decay.Calculator, now: int, expDecay: (real, int) -> real)
    requires rec.content == "hi" && Evicts(rec, c, now, expDecay)
    ensures EvictionLogAsWritten([rec], c, now, expDecay).None?
  {
    Utf8Ascii(rec.content);
  }

  /** The intended log lines: one snippet per evicted record, for any content. */
  function EvictionLog(scanned: seq<Record>, c: Decay.Calculator, now: int, expDecay: (real, int) -> real)
    : (r: seq<string>)
    ensures |r| <= |scanned|
    ensures forall j :: 0 <= j < |r| ==> |r[j]| <= 50
    ensures forall i :: 0 <= i < |scanned| ==> Evicts(scanned[i], c, now, expDecay) ==> Snippet(scanned[i].content) in r
  {
    if scanned == [] then []
    else
      var rest := EvictionLog(scanned[1..], c, now, expDecay);
      assert forall i :: 1 <= i < |scanned| ==> scanned[i] == scanned[1..][i - 1];
      if Evicts(scanned[0], c, now, expDecay) then [Snippet(scanned[0].content)] + rest else rest
  }

  // ----- the STM autosave task -----

  /** Length of the leading run of non-space characters (what Go's `%s` verb reads). */
  function TokenLength(s: string): (n: nat)
    ensures n <= |s|
    ensures forall i :: 0 <= i < n ==> !IsSpace(s[i])
  {
    if s == [] || IsSpace(s[0]) then 0 else 1 + TokenLength(s[1..])
  }

  /** The run stops at white space or at the end. */
  lemma {:induction false} TokenStopsAtSpace(s: string)
    ensures TokenLength(s) < |s| ==> IsSpace(s[TokenLength(s)])
  {
    if s != [] && !IsSpace(s[0]) {
      TokenStopsAtSpace(s[1..]);
    }
  }

  /**
   * `fmt.Sscanf(key, "memory:stm:%s:%s", &user, &session)` as written: the
   * number of verbs filled, with the two fields.
   */
  function ScanStmKeyAsWritten(key: string): (r: (nat, string, string))
    ensures r.0 <= 2
    ensures r.0 == 0 <==>
      (!HasPrefix(key, Manager.StmKeyPrefix) || TokenLength(TrimLeftSpace(key[|Manager.StmKeyPrefix|..])) == 0)
  {
    if !HasPrefix(key, Manager.StmKeyPrefix) then (0, "", "")
    else
      var rest := TrimLeftSpace(key[|Manager.StmKeyPrefix|..]);
      var n := TokenLength(rest);
      if n == 0 then (0, "", "")
      else if n < |rest| && rest[n] == ':' then
        var tail := TrimLeftSpace(rest[n + 1..]);
        var m := TokenLength(tail);
        if m == 0 then (1, rest[..n], "") else (2, rest[..n], tail[..m])
      else (1, rest[..n], "")
  }

  /** `%s` reads up to white space, so the first field swallows the ':' the format wants next: never two fields. */
  lemma ScanNeverFillsBoth(key: string)
    ensures ScanStmKeyAsWritten(key).0 < 2
  {
    if HasPrefix(key, Manager.StmKeyPrefix) {
      var rest := TrimLeftSpace(key[|Manager.StmKeyPrefix|..]);
      TokenStopsAtSpace(rest);
      ColonIsNotSpace();
    }
  }

  lemma ColonIsNotSpace()
    ensures !IsSpace(':')
  {
  }

  /** The sessions the autosave tick judges as written: those whose key scanned into two fields. */
  function AutosaveSessionsAsWritten(keys: seq<string>): (r: seq<(string, string)>)
    ensures r == []
  {
    if keys == [] then []
    else
      var sc := ScanStmKeyAsWritten(keys[0]);
      ScanNeverFillsBoth(keys[0]);
      (if sc.0 == 2 then [(sc.1, sc.2)] else []) + AutosaveSessionsAsWritten(keys[1..])
  }

  /** A session key the intended parse splits into its user and session is never judged as written. */
  lemma AutosaveJudgesNothingAsWritten(u: string, s: string)
    requires ':' !in u
    ensures ParseStmKey(Manager.StmKey(u, s)) == Some((u, s))
    ensures AutosaveSessionsAsWritten([Manager.StmKey(u, s)]) == []
  {
    ParseStmKeyRoundTrip(u, s);
  }

  /** The intended parse: the user up to the first ':' after the prefix, the session after it. */
  function ParseStmKey(key: string): (r: Option<(string, string)>)
    ensures r.Some? ==> Manager.StmKey(r.value.0, r.value.1) == key && ':' !in r.value.0
    ensures HasPrefix(key, Manager.StmKeyPrefix) && ':' in key[|Manager.StmKeyPrefix|..] ==> r.Some?
  {
    if !HasPrefix(key, Manager.StmKeyPrefix) then None
    else
      var rest := key[|Manager.StmKeyPrefix|..];
      var i := Manager.ColonIndex(rest);
      if i == |rest| then None
      else
        assert rest == rest[..i] + ":" + rest[i + 1..];
        assert key == Manager.StmKeyPrefix + rest;
        Some((rest[..i], rest[i + 1..]))
  }

  /** Parsing a session key gives back its user and session (for user IDs without ':'). */
  lemma ParseStmKeyRoundTrip(u: string, s: string)
    requires ':' !in u
    ensures ParseStmKey(Manager.StmKey(u, s)) == Some((u, s))
  {
    var key := Manager.StmKey(u, s);
    assert key[|Manager.StmKeyPrefix|..] == u + ":" + s;
    Manager.ColonIndexAfter(u, s);
    assert (u + ":" + s)[..|u|] == u;
    assert (u + ":" + s)[|u| + 1..] == s;
  }

  /** The users of the judged (user, session) pairs. */
  function Users(pairs: seq<(string, string)>): (r: set<string>)
    ensures forall i :: 0 <= i < |pairs| ==> pairs[i].0 in r
    ensures forall u :: u in r ==> exists i :: 0 <= i < |pairs| && pairs[i].0 == u
  {
    if pairs == [] then {} else {pairs[0].0} + Users(pairs[1..])
  }

  /**
   * The pairs judged in a pass over `keys` with the users in `processed`
   * already done: each is a parsed key of an unprocessed user, no user
   * twice, and every unprocessed user with a parsable key is among them.
   */
  predicate Judged(keys: seq<string>, processed: set<string>, judged: seq<(string, string)>)
  {
    (forall i :: 0 <= i < |judged| ==> judged[i].0 !in processed && Some(judged[i]) in ParsedKeys(keys))
    && (forall i, j :: 0 <= i < j < |judged| ==> judged[i].0 != judged[j].0)
    && (forall i :: 0 <= i < |keys| && ParseStmKey(keys[i]).Some? && ParseStmKey(keys[i]).value.0 !in processed ==>
          ParseStmKey(keys[i]).value.0 in Users(judged))
  }

  /**
   * One pass over the session keys with the judging as a parameter: a user
   * is judged at most once per pass (its first session in scan order) and
   * never when already processed. Returns the state and the pairs judged.
   */
  function SessionsTick(st: State, keys: seq<string>, processed: set<string>, judge: (State, string, string) -> State)
    : (r: (State, seq<(string, string)>))
    ensures Judged(keys, processed, r.1)
    decreases |keys|
  {
    if keys == [] then (st, [])
    else
      match ParseStmKey(keys[0])
      case None =>
        var rest := SessionsTick(st, keys[1..], processed, judge);
        TickSkipsKey(keys, processed, rest.1);
        rest
      case Some(us) =>
        if us.0 in processed then
          var rest := SessionsTick(st, keys[1..], processed, judge);
          TickSkipsKey(keys, processed, rest.1);
          rest
        else
          var rest := SessionsTick(judge(st, us.0, us.1), keys[1..], processed + {us.0}, judge);
          TickJudgesUser(keys, processed, us, rest.1);
          (rest.0, [us] + rest.1)
  }

  /** A key that does not parse, or whose user is done, adds nothing to the pass. */
  lemma TickSkipsKey(keys: seq<string>, processed: set<string>, judged: seq<(string, string)>)
    requires keys != [] && (ParseStmKey(keys[0]).None? || ParseStmKey(keys[0]).value.0 in processed)
    requires Judged(keys[1..], processed, judged)
    ensures Judged(keys, processed, judged)
  {
    assert ParsedKeys(keys) == [ParseStmKey(keys[0])] + ParsedKeys(keys[1..]);
    forall i | 1 <= i < |keys|
      ensures keys[i] == keys[1..][i - 1]
    {
    }
  }

  /** A key of an unprocessed user judges that user first. */
  lemma TickJudgesUser(keys: seq<string>, processed: set<string>, us: (string, string), judged: seq<(string, string)>)
    requires keys != [] && ParseStmKey(keys[0]) == Some(us) && us.0 !in processed
    requires Judged(keys[1..], processed + {us.0}, judged)
    ensures Judged(keys, processed, [us] + judged)
  {
    var all := [us] + judged;
    var rest := keys[1..];
    assert ParsedKeys(keys) == [ParseStmKey(keys[0])] + ParsedKeys(rest);
    assert Users(all) == {us.0} + Users(judged) by {
      assert all[1..] == judged;
    }
    forall i | 0 <= i < |all|
      ensures all[i].0 !in processed && Some(all[i]) in ParsedKeys(keys)
    {
      if i > 0 {
        assert all[i] == judged[i - 1];
      }
    }
    forall i, j | 0 <= i < j < |all|
      ensures all[i].0 != all[j].0
    {
      assert all[j] == judged[j - 1];
      if i > 0 {
        assert all[i] == judged[i - 1];
      }
    }
    forall i | 0 <= i < |keys| && ParseStmKey(keys[i]).Some? && ParseStmKey(keys[i]).value.0 !in processed
      ensures ParseStmKey(keys[i]).value.0 in Users(all)
    {
      if i > 0 {
        assert keys[i] == rest[i - 1];
      }
    }
  }


  /** The parses of the keys, in order. */
  function ParsedKeys(keys: seq<string>): (r: seq<Option<(string, string)>>)
    ensures |r| == |keys| && forall i :: 0 <= i < |keys| ==> r[i] == ParseStmKey(keys[i])
  {
    if keys == [] then [] else [ParseStmKey(keys[0])] + ParsedKeys(keys[1..])
  }

  /**
   * The STM autosave tick as intended: SCAN "memory:stm:*:*", then judge
   * every user's first session. Every user with a session list is judged,
   * and no user twice.
   */
  function AutosaveTick(st: State, order: seq<string>, cfg: Config, o: Oracles, now: int)
    : (r: (State, seq<(string, string)>))
    requires Seqs.Enumerates(order, st.stm.lists.Keys)
    requires ValidOracles(o) && cfg.batchJudgeSize > 0
    ensures forall i, j :: 0 <= i < j < |r.1| ==> r.1[i].0 != r.1[j].0
    ensures forall i :: 0 <= i < |r.1| ==> Manager.StmKey(r.1[i].0, r.1[i].1) in st.stm.lists
    ensures forall u, s :: ':' !in u && Manager.StmKey(u, s) in st.stm.lists ==> u in Users(r.1)
  {
    var keys := ListStore.ScanKeys(st.stm, order, Manager.UserPattern(""));
    var r := SessionsTick(st, keys, {}, (s: State, u: string, sid: string) => JudgeAndStageFromStm(s, cfg, o, now, u, sid));
    AutosaveCoverage(st, keys, r.1);
    r
  }

  lemma AutosaveCoverage(st: State, keys: seq<string>, judged: seq<(string, string)>)
    requires forall i :: 0 <= i < |keys| ==> keys[i] in st.stm.lists
    requires forall k :: k in st.stm.lists && HasPrefix(k, ListStore.UpToStar(Manager.UserPattern(""))) ==> k in keys
    requires forall i :: 0 <= i < |judged| ==> Some(judged[i]) in ParsedKeys(keys)
    requires forall i :: 0 <= i < |keys| && ParseStmKey(keys[i]).Some? ==> ParseStmKey(keys[i]).value.0 in Users(judged)
    ensures forall i :: 0 <= i < |judged| ==> Manager.StmKey(judged[i].0, judged[i].1) in st.stm.lists
    ensures forall u, s :: ':' !in u && Manager.StmKey(u, s) in st.stm.lists ==> u in Users(judged)
  {
    JudgedSessionsExist(st, keys, judged);
    ListedUsersJudged(st, keys, judged);
  }

  /** Every judged pair names a session list that is present. */
  lemma JudgedSessionsExist(st: State, keys: seq<string>, judged: seq<(string, string)>)
    requires forall i :: 0 <= i < |keys| ==> keys[i] in st.stm.lists
    requires forall i :: 0 <= i < |judged| ==> Some(judged[i]) in ParsedKeys(keys)
    ensures forall i :: 0 <= i < |judged| ==> Manager.StmKey(judged[i].0, judged[i].1) in st.stm.lists
  {
    forall i | 0 <= i < |judged|
      ensures Manager.StmKey(judged[i].0, judged[i].1) in st.stm.lists
    {
      var pk := ParsedKeys(keys);
      assert Some(judged[i]) in pk;
      var k :| 0 <= k < |pk| && pk[k] == Some(judged[i]);
      assert pk[k] == ParseStmKey(keys[k]);
    }
  }

  /** Every user with a session list (and no ':' in the ID) is judged. */
  lemma ListedUsersJudged(st: State, keys: seq<string>, judged: seq<(string, string)>)
    requires forall k :: k in st.stm.lists && HasPrefix(k, ListStore.UpToStar(Manager.UserPattern(""))) ==> k in keys
    requires forall i :: 0 <= i < |keys| && ParseStmKey(keys[i]).Some? ==> ParseStmKey(keys[i]).value.0 in Users(judged)
    ensures forall u, s :: ':' !in u && Manager.StmKey(u, s) in st.stm.lists ==> u in Users(judged)
  {
    Manager.UserPatternPrefix("");
    forall u, s | ':' !in u && Manager.StmKey(u, s) in st.stm.lists
      ensures u in Users(judged)
    {
      var key := Manager.StmKey(u, s);
      assert HasPrefix(key, Manager.StmKeyPrefix) by {
        assert key[..|Manager.StmKeyPrefix|] == Manager.StmKeyPrefix;
      }
      var i :| 0 <= i < |keys| && keys[i] == key;
      ParseStmKeyRoundTrip(u, s);
    }
  }

  /** The promotion task's period: half the minimum wait, at least one hour. */
  function PromotionIntervalHours(cfg: Config): (h: int)
    ensures h >= 1
    ensures cfg.minWaitHours >= 2 ==> 2 * h <= cfg.minWaitHours < 2 * h + 2
  {
    var hours := cfg.minWaitHours / 2;
    if hours < 1 then 1 else hours
  }
}
