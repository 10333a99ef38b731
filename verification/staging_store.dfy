/**
 * The staging area: candidate memories kept in Redis under
 * "staging:<userID>:<hash>" keys, counted each time the same (or a
 * semantically similar) content is judged again.
 *
 * Redis is modelled as a map from key to decoded entry; a SCAN is the
 * parameter `order`, which lists the keys once each. MD5 is the parameter
 * `hash`, the embedder's answer is `embedding` (None when there is no
 * embedder or it failed).
 */
module StagingStore {
  import opened Wrappers
  import opened Types
  import opened Text
  import Seqs
  import VectorStore

  type Db = map<string, StagingEntry>

  /** Semantic dedup threshold used by `AddOrIncrement`. */
  const SimilarityThreshold: real := 0.95

  function UserPrefix(userId: string): string
  {
    "staging:" + userId + ":"
  }

  /** The key of a content: "staging:<userID>:<hash(content)>". */
  function EntryKey(userId: string, contentHash: string): (k: string)
    ensures HasPrefix(k, UserPrefix(userId))
    ensures HasPrefix(k, "staging:")
  {
    UserPrefix(userId) + contentHash
  }

  /** Every entry is stored under its own ID (all writes use the entry ID as the key). */
  predicate WellKeyed(db: Db)
  {
    forall k :: k in db ==> db[k].id == k
  }

  /** Session IDs are recorded once each; an empty session ID is never appended. */
  function AddSession(sids: seq<string>, sid: string): (r: seq<string>)
    ensures sid in sids || sid == "" ==> r == sids
    ensures sid !in sids && sid != "" ==> r == sids + [sid]
    ensures Seqs.NoDup(sids) ==> Seqs.NoDup(r)
  {
    if sid in sids || sid == "" then sids else sids + [sid]
  }

  /** The entry after one more sighting: counted, re-stamped, re-scored. */
  function Bump(e: StagingEntry, jr: JudgeResult, now: int, sessionId: string): (r: StagingEntry)
    ensures r.occurrenceCount == e.occurrenceCount + 1 && r.lastSeenAt == now
    ensures r.valueScore == jr.valueScore && r.confidenceScore == jr.confidenceScore
    ensures r.category == jr.category && r.extractedTags == jr.tags && r.extractedEntities == jr.entities
    ensures r.sessionIds == AddSession(e.sessionIds, sessionId)
    ensures r.id == e.id && r.content == e.content && r.embedding == e.embedding && r.userId == e.userId
    ensures r.firstSeenAt == e.firstSeenAt && r.status == e.status && r.confirmedBy == e.confirmedBy
  {
    e.(occurrenceCount := e.occurrenceCount + 1, lastSeenAt := now,
       valueScore := jr.valueScore, confidenceScore := jr.confidenceScore,
       category := jr.category, extractedTags := jr.tags, extractedEntities := jr.entities,
       sessionIds := AddSession(e.sessionIds, sessionId))
  }

  /** A first sighting: count 1, pending, seen now, in exactly the given session. */
  function NewEntry(key: string, userId: string, sessionId: string, content: string, emb: Vector,
                    jr: JudgeResult, now: int): (r: StagingEntry)
    ensures r.id == key && r.userId == userId && r.content == content && r.embedding == emb
    ensures r.occurrenceCount == 1 && r.status == Pending
    ensures r.firstSeenAt == now && r.lastSeenAt == now
    ensures r.sessionIds == [sessionId]
    ensures r.valueScore == jr.valueScore && r.confidenceScore == jr.confidenceScore && r.category == jr.category
  {
    StagingEntry(key, content, emb, userId, now, now, 1, jr.valueScore, jr.confidenceScore, jr.category,
                 jr.tags, jr.entities, Pending, "", [sessionId])
  }

  /** Similarity of a stored entry to the query (float64 cosine with the empty-vector guard). */
  function Similarity(query: Vector, e: StagingEntry, ratio: (real, real, real) -> real): real
  {
    VectorStore.CosineWithEmptyGuard(query, e.embedding, ratio)
  }

  /** A key SearchSimilar looks at: one of the user's keys whose entry has an embedding. */
  predicate Eligible(db: Db, k: string, userId: string)
  {
    k in db && HasPrefix(k, UserPrefix(userId)) && |db[k].embedding| > 0
  }

  /** The scan loop of SearchSimilar from a running best (`bestSim` starts at 0). */
  function BestFrom(db: Db, keys: seq<string>, userId: string, query: Vector, threshold: real,
                    ratio: (real, real, real) -> real, best: Option<StagingEntry>, bestSim: real): (r: Option<StagingEntry>)
    requires best.Some? ==> Similarity(query, best.value, ratio) == bestSim
    ensures r.None? ==> best.None? && forall i :: 0 <= i < |keys| && Eligible(db, keys[i], userId) ==>
      !(Similarity(query, db[keys[i]], ratio) > threshold && Similarity(query, db[keys[i]], ratio) > bestSim)
    ensures r.Some? ==>
      r == best ||
      (exists i :: 0 <= i < |keys| && Eligible(db, keys[i], userId) && r.value == db[keys[i]]
        && Similarity(query, r.value, ratio) > threshold && Similarity(query, r.value, ratio) > bestSim)
    ensures r.Some? ==> Similarity(query, r.value, ratio) >= bestSim
    ensures r.Some? ==>
      forall i :: 0 <= i < |keys| && Eligible(db, keys[i], userId) ==>
        (Similarity(query, db[keys[i]], ratio) <= Similarity(query, r.value, ratio)
         || Similarity(query, db[keys[i]], ratio) <= threshold)
    decreases |keys|
  {
    if keys == [] then best
    else
      var k := keys[0];
      if Eligible(db, k, userId) && Similarity(query, db[k], ratio) > threshold
         && Similarity(query, db[k], ratio) > bestSim
      then BestFrom(db, keys[1..], userId, query, threshold, ratio, Some(db[k]), Similarity(query, db[k], ratio))
      else BestFrom(db, keys[1..], userId, query, threshold, ratio, best, bestSim)
  }

  /**
   * SearchSimilar: among the user's entries that have an embedding, the one
   * most similar to the query, provided its similarity exceeds both the
   * threshold and 0.
   */
  function SearchSimilar(db: Db, order: seq<string>, userId: string, query: Vector, threshold: real,
                         ratio: (real, real, real) -> real): (r: Option<StagingEntry>)
    requires Seqs.Enumerates(order, db.Keys)
    ensures r.None? <==> forall k :: Eligible(db, k, userId) ==>
      Similarity(query, db[k], ratio) <= threshold || Similarity(query, db[k], ratio) <= 0.0
    ensures r.Some? ==>
      exists k :: Eligible(db, k, userId) && db[k] == r.value
        && Similarity(query, r.value, ratio) > threshold && Similarity(query, r.value, ratio) > 0.0
    ensures r.Some? ==> forall k :: Eligible(db, k, userId) && Similarity(query, db[k], ratio) > threshold ==>
      Similarity(query, db[k], ratio) <= Similarity(query, r.value, ratio)
  {
    var r := BestFrom(db, order, userId, query, threshold, ratio, None, 0.0);
    assert forall k :: Eligible(db, k, userId) ==> exists i :: 0 <= i < |order| && order[i] == k;
    r
  }

  /**
   * AddOrIncrement: count one more sighting of `content` for the user.
   * With an embedding, a similar entry (similarity above 0.95) absorbs the
   * sighting; otherwise the entry under the content's hash key does, and a
   * content never seen before gets a new pending entry.
   */
  function AddOrIncrement(db: Db, order: seq<string>, now: int, userId: string, sessionId: string,
                          content: string, jr: JudgeResult, embedding: Option<Vector>,
                          hash: string -> string, ratio: (real, real, real) -> real): (r: Db)
    requires Seqs.Enumerates(order, db.Keys)
    ensures WellKeyed(db) ==> WellKeyed(r)
    ensures WellKeyed(db) ==>
      exists k :: k in r && r == db[k := r[k]]
        && (k in db ==> r[k] == Bump(db[k], jr, now, sessionId))
        && (k !in db ==>
              k == EntryKey(userId, hash(content))
              && r[k] == NewEntry(k, userId, sessionId, content, embedding.UnwrapOr([]), jr, now))
    ensures embedding.Some? && SearchSimilar(db, order, userId, embedding.value, SimilarityThreshold, ratio).Some? ==>
      var hit := SearchSimilar(db, order, userId, embedding.value, SimilarityThreshold, ratio).value;
      r == db[hit.id := Bump(hit, jr, now, sessionId)]
    ensures embedding.Some? && SearchSimilar(db, order, userId, embedding.value, SimilarityThreshold, ratio).None? ==>
      r == AddByHash(db, now, userId, sessionId, content, jr, embedding.value, hash)
    ensures embedding.None? ==> r == AddByHash(db, now, userId, sessionId, content, jr, [], hash)
  {
    var similar := if embedding.Some? then SearchSimilar(db, order, userId, embedding.value, SimilarityThreshold, ratio) else None;
    match similar
    case Some(e) => db[e.id := Bump(e, jr, now, sessionId)]
    case None => AddByHash(db, now, userId, sessionId, content, jr, embedding.UnwrapOr([]), hash)
  }

  /** The hash path of AddOrIncrement: exact-content dedup under the content's key. */
  function AddByHash(db: Db, now: int, userId: string, sessionId: string, content: string,
                     jr: JudgeResult, emb: Vector, hash: string -> string): (r: Db)
    ensures var k := EntryKey(userId, hash(content));
      k in r && r == db[k := r[k]]
      && r[k] == (if k in db then Bump(db[k], jr, now, sessionId) else NewEntry(k, userId, sessionId, content, emb, jr, now))
  {
    var key := EntryKey(userId, hash(content));
    if key in db then db[key := Bump(db[key], jr, now, sessionId)]
    else db[key := NewEntry(key, userId, sessionId, content, emb, jr, now)]
  }

  /** Seeing the same content twice without an embedder yields one entry counted twice. */
  lemma AddTwiceCountsTwo(db: Db, order1: seq<string>, order2: seq<string>, now1: int, now2: int,
                          userId: string, sid1: string, sid2: string, content: string,
                          jr1: JudgeResult, jr2: JudgeResult, hash: string -> string,
                          ratio: (real, real, real) -> real)
    requires EntryKey(userId, hash(content)) !in db
    requires Seqs.Enumerates(order1, db.Keys)
    requires Seqs.Enumerates(order2, AddOrIncrement(db, order1, now1, userId, sid1, content, jr1, None, hash, ratio).Keys)
    ensures var db1 := AddOrIncrement(db, order1, now1, userId, sid1, content, jr1, None, hash, ratio);
      var db2 := AddOrIncrement(db1, order2, now2, userId, sid2, content, jr2, None, hash, ratio);
      var k := EntryKey(userId, hash(content));
      k in db2 && db2[k].occurrenceCount == 2 && db2[k].firstSeenAt == now1 && db2[k].lastSeenAt == now2
      && db2[k].sessionIds == (if sid2 == sid1 || sid2 == "" then [sid1] else [sid1, sid2])
      && db2.Keys == db.Keys + {k}
  {
  }

  /** Promotion criteria of GetPendingEntries. */
  predicate Promotable(e: StagingEntry, now: int, minOccurrences: int, minWaitHours: int)
  {
    e.status == Pending && e.occurrenceCount >= minOccurrences
    // hours since first seen, compared as reals: (now - first) / 3600 >= minWaitHours
    && now - e.firstSeenAt >= minWaitHours * 3600
  }

  /** The entries stored under `keys`, in that order. */
  function Values(db: Db, keys: seq<string>): (r: seq<StagingEntry>)
    requires forall i :: 0 <= i < |keys| ==> keys[i] in db
    ensures |r| == |keys| && forall i :: 0 <= i < |r| ==> r[i] == db[keys[i]]
  {
    if keys == [] then [] else [db[keys[0]]] + Values(db, keys[1..])
  }

  /** The entries under the keys a SCAN with `prefix*` returns. */
  function Scan(db: Db, order: seq<string>, prefix: string): (r: seq<StagingEntry>)
    requires Seqs.Enumerates(order, db.Keys)
    ensures forall i :: 0 <= i < |r| ==> exists k :: k in db && HasPrefix(k, prefix) && db[k] == r[i]
    ensures forall k :: k in db && HasPrefix(k, prefix) ==> db[k] in r
    ensures |r| <= |db|
  {
    var keys := Seqs.Filter(order, (k: string) => HasPrefix(k, prefix));
    assert |order| == |db| by {
      Seqs.EnumeratesCard(order, db.Keys);
    }
    var r := Values(db, keys);
    forall k | k in db && HasPrefix(k, prefix)
      ensures db[k] in r
    {
      var i :| 0 <= i < |order| && order[i] == k;
      var j :| 0 <= j < |keys| && keys[j] == k;
      assert r[j] == db[k];
    }
    r
  }

  /** GetPendingEntries: every staged entry that is pending, seen often enough and waited long enough. */
  function GetPendingEntries(db: Db, order: seq<string>, now: int, minOccurrences: int, minWaitHours: int): (r: seq<StagingEntry>)
    requires Seqs.Enumerates(order, db.Keys)
    ensures forall i :: 0 <= i < |r| ==>
      Promotable(r[i], now, minOccurrences, minWaitHours)
      && exists k :: k in db && HasPrefix(k, "staging:") && db[k] == r[i]
    ensures forall k :: k in db && HasPrefix(k, "staging:") && Promotable(db[k], now, minOccurrences, minWaitHours) ==> db[k] in r
    ensures |r| <= |db|
  {
    var all := Scan(db, order, "staging:");
    var r := Seqs.Filter(all, (e: StagingEntry) => Promotable(e, now, minOccurrences, minWaitHours));
    forall i | 0 <= i < |r|
      ensures Promotable(r[i], now, minOccurrences, minWaitHours)
      ensures exists k :: k in db && HasPrefix(k, "staging:") && db[k] == r[i]
    {
      var j :| 0 <= j < |all| && all[j] == r[i];
    }
    forall k | k in db && HasPrefix(k, "staging:") && Promotable(db[k], now, minOccurrences, minWaitHours)
      ensures db[k] in r
    {
      var i :| 0 <= i < |all| && all[i] == db[k];
    }
    r
  }

  /** GetAllByUser: every entry under the user's key prefix. */
  function GetAllByUser(db: Db, order: seq<string>, userId: string): (r: seq<StagingEntry>)
    requires Seqs.Enumerates(order, db.Keys)
    ensures forall i :: 0 <= i < |r| ==> exists k :: k in db && HasPrefix(k, UserPrefix(userId)) && db[k] == r[i]
    ensures forall k :: k in db && HasPrefix(k, UserPrefix(userId)) ==> db[k] in r
  {
    Scan(db, order, UserPrefix(userId))
  }

  /**
   * GetBySession: the user's entries that the session has touched, in scan
   * order and as often as the scan yields them.
   */
  function GetBySession(db: Db, order: seq<string>, userId: string, sessionId: string): (r: seq<StagingEntry>)
    requires Seqs.Enumerates(order, db.Keys)
    ensures forall i :: 0 <= i < |r| ==> sessionId in r[i].sessionIds && r[i] in GetAllByUser(db, order, userId)
    ensures forall k :: k in db && HasPrefix(k, UserPrefix(userId)) && sessionId in db[k].sessionIds ==> db[k] in r
    ensures |r| <= |GetAllByUser(db, order, userId)|
    ensures var all := GetAllByUser(db, order, userId);
      Seqs.Subsequence(r, all)
      && forall i :: 0 <= i < |all| ==>
        multiset(r)[all[i]] == if sessionId in all[i].sessionIds then multiset(all)[all[i]] else 0
  {
    var all := GetAllByUser(db, order, userId);
    var touched := (e: StagingEntry) => sessionId in e.sessionIds;
    Seqs.FilterKeepsCounts(all, touched);
    var r := Seqs.Filter(all, touched);
    forall k | k in db && HasPrefix(k, UserPrefix(userId)) && sessionId in db[k].sessionIds
      ensures db[k] in r
    {
      var i :| 0 <= i < |all| && all[i] == db[k];
    }
    r
  }

  /** Update: the entry is written under its ID. */
  function Update(db: Db, e: StagingEntry): (r: Db)
    ensures e.id in r && r[e.id] == e
    ensures forall k :: k != e.id ==> (k in r <==> k in db) && (k in r ==> r[k] == db[k])
  {
    db[e.id := e]
  }

  function Delete(db: Db, id: string): (r: Db)
    ensures id !in r
    ensures forall k :: k != id ==> (k in r <==> k in db) && (k in r ==> r[k] == db[k])
  {
    db - {id}
  }

  /** DeleteBatch: an empty list is a no-op; otherwise every listed key is removed. */
  function DeleteBatch(db: Db, ids: seq<string>): (r: Db)
    ensures ids == [] ==> r == db
    ensures forall k :: k in r <==> k in db && k !in ids
    ensures forall k :: k in r ==> r[k] == db[k]
  {
    if ids == [] then db else db - set i | i in ids
  }
}
