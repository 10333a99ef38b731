# AI-Memory core, modelled in Dafny

AI-Memory is a Go back end that gives an AI agent a layered memory. Conversation turns are pushed to short-term memory (STM), which is a Redis list per user and session. An LLM judge scores batches of them. Worthwhile contents are parked in a staging area that counts how often they recur. Confident entries are promoted to long-term memory (LTM), a vector store. There, near-duplicates are merged and a decay score decides what is forgotten. Around this pipeline sit a metrics collector with its MySQL persistence, and an alerting subsystem:
- rules with cooldowns;
- a bounded buffer of recent alerts;
- per-rule statistics with a TTL cache and pending deltas flushed to the database;
- a rule-configuration table;
- an alert repository;
- an e-mail/webhook notifier.

This project models that core as pure functions over immutable data. Each module follows one Go file:

- `ListStore`, `VectorStore`, `StagingStore`: the three in-memory stores;
- `StagingApi`: the admin staging view;
- `Manager`: `Add`, `Retrieve`, `List` and `Update`;
- `Funnel`, `BatchOptimize`: the STM → staging → LTM funnel;
- `LtmDedup`: LTM deduplication;
- `Decay`: the decay calculator;
- `Judge`: the LLM judge's prompt and response handling;
- `Prompts`: the prompt registry;
- `Monitor`: the judge-result cache and funnel counters;
- `MetricsCollector`, `MetricsPersistence`: metrics;
- `AlertTypes`, `AlertEngine`, `AlertEngineDbInit`, `AlertEngineStatsSync`, `AlertManagement`, `AlertStatsCache`, `AlertStatsMethods`, `AlertStatsPersistence`, `AlertRulePersistence`, `AlertRepository`, `AlertNotifier`: alerting.

`Wrappers`, `Types`, `Seqs` and `Text` hold the shared result types, the record type, and sequence and string helpers. The latter include Go's `strings.TrimSpace`/`TrimPrefix`/`TrimSuffix`, `strconv` integer formatting and parsing, a stable descending sort, and the UTF-8 encoding in which Go stores strings, since slicing a Go string counts bytes.

The model follows the Go code, not the product documentation. That documentation describes the web front end, so wherever the two differ, the code decides.

Conventions:
- Time is an integer clock in seconds, passed in as `now`.
- Go's zero `time.Time` is `None` where the code tests for it.
- Floating-point scores, thresholds and rates are `real`.
- Everything the code obtains from outside is a parameter of the function that uses it:
  - LLM answers, embeddings and JSON encoding/decoding;
  - `exp`, and `sqrt` inside cosine similarity;
  - whether each SQL statement, Redis call or HTTP/SMTP request succeeds;
  - the iteration order of a Go map or of a Redis SCAN.
- SQL tables are maps keyed by their primary key.
- Redis lists are a map from key to sequence.
- The snapshot does not compile as a whole:
  - `Manager` has no `monitor` or `alertEngine` field;
  - `STMJudgeMinMessages` and `STMJudgeMaxWaitMinutes` are missing from `Config`;
  - `funnel.go:137` passes one argument fewer than `AddOrIncrement` declares;
  - `InMemoryListStore` lacks `LRem` and `SAdd`.

  The model takes the missing values as parameters. It passes the session ID to `AddOrIncrement`, and gives `LRem` and `SAdd` their Redis meaning.

## Model

| member | source | states |
|---|---|---|
| ListStore.RPush | pkg/store/in_memory_list.go:22-36 | the named list grows by exactly the pushed values, in argument order; every other list and the sets are unchanged |
| ListStore.LRange | pkg/store/in_memory_list.go:38-69 | a missing key gives the empty list; otherwise the result is the contiguous run of the list starting at the clamped start, and a position is in it exactly when it lies between the normalised start and stop (negative indices count from the end) |
| ListStore.LRangeAll | pkg/store/in_memory_list.go:47-68 | `LRange(key, 0, -1)` is the whole list |
| ListStore.Del | pkg/store/in_memory_list.go:71-79 | exactly the named lists disappear; absent names are ignored and the other lists keep their contents |
| ListStore.UpToStar | pkg/store/in_memory_list.go:101-116 | the prefix a scan uses is a prefix of the pattern, holds no '*', and ends where the first '*' of the pattern is |
| ListStore.ScanKeys | pkg/store/in_memory_list.go:86-124 | the result holds every stored list name starting with the pattern's text before its first '*', and nothing else, each once |
| ListStore.FindInList | pkg/store/in_memory_list.go:132-141 | the first position of one list whose item decodes to a record with the ID, or none when no item does |
| ListStore.Find | pkg/store/in_memory_list.go:131-143 | the lists are visited in map order; a hit is a first decoding item with the ID in that list, and a miss means no visited item decodes to that ID |
| ListStore.FindNoneMeansAbsent | pkg/store/in_memory_list.go:131-144 | when the search visits every list and finds nothing, no stored item holds the ID |
| ListStore.Update | pkg/store/in_memory_list.go:127-145 | "record not found" exactly when no stored item decodes to the record's ID; otherwise one such item is replaced by the new encoding and nothing else changes |
| ListStore.Get | pkg/store/in_memory_list.go:148-163 | "record not found" exactly when no stored item decodes to the ID; otherwise a decoded stored record with that ID |
| ListStore.UpdateThenGet | pkg/store/in_memory_list.go:127-163 | with a JSON round trip that preserves the record, Get after a successful Update returns exactly the record written |
| ListStore.FirstInListAfterWrite | pkg/store/in_memory_list.go:132-141 | overwriting the first matching item with the new record leaves it the first match |
| ListStore.LRemAll | pkg/memory/interfaces.go:61 | LREM with count 0 removes every occurrence of the value from that list only: the remaining items keep their order and every other value keeps its multiplicity; other lists and the sets are unchanged |
| ListStore.SAdd | pkg/memory/interfaces.go:74 | after SADD the named set is exactly its old members plus the added ones; other sets and the lists are unchanged |
| VectorStore.Cosine | pkg/store/in_memory.go:186-200 | 0 when the lengths differ or either norm is zero; otherwise the ratio of the dot product to the product of the norms |
| VectorStore.CosineWithEmptyGuard | pkg/store/staging_store.go:341-358 | the extra empty-vector guard of the staging store and the deduplication pass gives the same value as the vector store's cosine |
| VectorStore.Add | pkg/store/in_memory.go:27-32 | the stored records come first, unchanged, followed by the added ones in order |
| VectorStore.Delete | pkg/store/in_memory.go:65-82 | a record survives exactly when its ID is not listed; the survivors are a subsequence of the store, so they keep their order, and each stays as often as it was stored |
| VectorStore.List | pkg/store/in_memory.go:86-128 | the result is the matching records from `offset` to `min(offset+limit, total)`, or empty when `offset >= total`; key "type" compares the record type and every other key an equal metadata value |
| VectorStore.ListAllIsTake | pkg/store/in_memory.go:86-128 | with an empty filter and offset 0, a page of `n` is the first `n` stored records |
| VectorStore.ListPages | pkg/store/in_memory.go:113-127 | a page of size a followed by the page of size b at offset a is the page of size a+b |
| VectorStore.Count | pkg/store/in_memory.go:235-268 | the count equals the number of records List selects with no limit, and never exceeds the store size |
| VectorStore.Search | pkg/store/in_memory.go:131-184 | a negative limit makes `results[:limit]` panic (none) whatever the store holds; any other limit gives the ranked result below |
| VectorStore.Ranked | pkg/store/in_memory.go:140-177 | at most `limit` records, drawn without repetition from the qualifying candidates, each with an embedding, matching every filter key and scoring at least the threshold, best score first; a qualifying record left out means the result is full of records scoring at least as high |
| VectorStore.Candidates | pkg/store/in_memory.go:142-166 | a record is ranked exactly when it has an embedding, matches the filter and scores at least the threshold |
| VectorStore.Update | pkg/store/in_memory.go:203-218 | "record not found" exactly when no record has the ID; otherwise the first record with the ID is replaced and the length and the other records are unchanged |
| VectorStore.IndexOf | pkg/store/in_memory.go:207-216 | the first position holding the ID, or none exactly when no record has it |
| VectorStore.Get | pkg/store/in_memory.go:221-233 | "not found" exactly when no record has the ID; otherwise a stored record with that ID |
| VectorStore.UpdateThenGet | pkg/store/in_memory.go:203-233 | Get after Update of an existing ID returns exactly the record written |
| VectorStore.DeleteThenGet | pkg/store/in_memory.go:65-82 | after Delete, Get of any deleted ID fails |
| StagingStore.EntryKey | pkg/store/staging_store.go:76 | a content's key starts with "staging:<userID>:", so a scan of the user's prefix finds it |
| StagingStore.AddSession | pkg/store/staging_store.go:56-66 | a session ID is appended only when it is non-empty and not yet recorded, so the list never gains a duplicate |
| StagingStore.Bump | pkg/store/staging_store.go:47-66 | a repeat sighting adds exactly one to the count, stamps the last sighting, takes the new scores, category, tags and entities, and keeps ID, content, embedding, user, first sighting and status |
| StagingStore.NewEntry | pkg/store/staging_store.go:120-137 | a first sighting is pending with count 1, first and last sighting equal, and exactly the given session |
| StagingStore.BestFrom | pkg/store/staging_store.go:172-195 | the running best only moves to an eligible entry above both the threshold and the best so far, and ends no worse than any eligible entry above the threshold |
| StagingStore.SearchSimilar | pkg/store/staging_store.go:160-204 | nil exactly when no entry of the user with an embedding scores above both the threshold and 0; otherwise such an entry scoring at least as high as every other above the threshold |
| StagingStore.AddOrIncrement | pkg/store/staging_store.go:31-151 | exactly one key changes: with an embedding, the entry SearchSimilar finds is bumped under its own ID, and with no similar entry (or no embedding) the hash path bumps the entry under "staging:<userID>:<hash>" or creates a new pending one there; stored entries keep sitting under their IDs |
| StagingStore.AddByHash | pkg/store/staging_store.go:75-138 | the entry under the content's hash key is bumped when present and created otherwise; no other key changes |
| StagingStore.AddTwiceCountsTwo | pkg/store/staging_store.go:75-138 | the same content seen twice without an embedder is one entry counted twice, first seen at the first sighting, with both sessions recorded once |
| StagingStore.Values | pkg/store/staging_store.go:219-228 | reading the scanned keys gives their entries in scan order |
| StagingStore.Scan | pkg/store/staging_store.go:256-288 | a prefix scan returns exactly the entries stored under keys with the prefix |
| StagingStore.GetPendingEntries | pkg/store/staging_store.go:207-253 | exactly the staged entries that are pending, seen at least `minOccurrences` times and waited at least `minWaitHours` |
| StagingStore.GetAllByUser | pkg/store/staging_store.go:256-288 | exactly the entries under "staging:<userID>:" |
| StagingStore.GetBySession | pkg/store/staging_store.go:291-308 | exactly the user's entries whose session list holds the session: a subsequence of the user's scan, in scan order, each entry as often as the scan yields it |
| StagingStore.Update | pkg/store/staging_store.go:311-318 | the entry is stored under its ID and every other key is unchanged |
| StagingStore.Delete | pkg/store/staging_store.go:321-323 | the key is gone and every other key is unchanged |
| StagingStore.DeleteBatch | pkg/store/staging_store.go:326-331 | an empty ID list is a no-op; otherwise exactly the listed keys are gone and the rest are unchanged |
| StagingApi.AllPending | pkg/memory/staging_api.go:16 | `GetPendingEntries(1, 0)`: exactly the pending staged entries seen at least once and first seen no later than now |
| StagingApi.GetStagingEntries | pkg/memory/staging_api.go:11-17 | with a user, exactly that user's entries; without one, every pending entry |
| StagingApi.FindEntry | pkg/memory/staging_api.go:27-33 | the first entry with the ID, or none exactly when no entry has it |
| StagingApi.MarkConfirmed | pkg/memory/staging_api.go:39-41 | status confirmed and confirmed by "user"; every other field unchanged |
| StagingApi.ConfirmStagingEntry | pkg/memory/staging_api.go:20-45 | "条目不存在: <id>" exactly when no pending entry has the ID; otherwise the first pending entry with the ID, marked confirmed by "user", is promoted on the spot: it fails only when it cannot be embedded, and on success it leaves staging, `(category, true)` is logged, and long-term memory changes as Funnel.PromoteSingleEntry states |
| StagingApi.RejectStagingEntry | pkg/memory/staging_api.go:48-50 | the entry is deleted and nothing else changes |
| StagingApi.RejectThenConfirmFails | pkg/memory/staging_api.go:20-50 | an entry that was rejected can no longer be confirmed |
| StagingApi.RejectedNotPending | pkg/memory/staging_api.go:48-50 | after a rejection no pending entry carries the rejected ID |
| StagingApi.WholeHours | pkg/memory/staging_api.go:86-88 | `int(d.Hours())` truncates toward zero, for negative durations too |
| StagingApi.Tally | pkg/memory/staging_api.go:59-93 | high, medium and low count the entries in the high, medium and low confidence bands and sum to total_pending; awaiting counts the entries meeting the promotion criteria and never exceeds total_pending |
| StagingApi.GetStagingStats | pkg/memory/staging_api.go:53-96 | total_pending counts every pending entry; high, medium and low count those entries routed to auto-promotion, review and discard, and awaiting_promotion those meeting the occurrence and wait criteria; the three buckets sum to the total, which is at most the number of stored entries |
| StagingApi.AwaitingIsPromotable | pkg/memory/staging_api.go:83-92 | for a pending entry with a first sighting in the past, the stats' awaiting test agrees with the promotion criteria of GetPendingEntries |
| Manager.StmKey | pkg/memory/manager.go:99 | a session's list name starts with "memory:stm:<user>:" |
| Manager.ColonIndex | pkg/memory/manager.go:99 | the position of the first ':' of a key part, or its length when there is none |
| Manager.StmKeyInjective | pkg/memory/manager.go:99 | for user IDs without ':' the list name determines both the user and the session |
| Manager.Add | pkg/memory/manager.go:78-110 | a short-term record tagged with the user and session and holding exactly "User: <input>\nAI: <output>" is appended to exactly that session's list; the caller's other metadata is kept and no other list changes |
| Manager.UserPatternPrefix | pkg/memory/manager.go:277-280 | the scan pattern of List reduces to the prefix "memory:stm:<user>:", or "memory:stm:" with no user |
| Manager.AddIsScanned | pkg/memory/manager.go:274-282 | after Add, the session's list is among the keys a List for that user scans (also manager.go:78-110) |
| Manager.DecodeAll | pkg/memory/manager.go:125-130 | every kept record decodes from some item, and undecodable items are skipped |
| Manager.Window | pkg/memory/manager.go:118-125 | the session window is the last `ContextWindow` items, all of them when the list is shorter, none when the window is negative |
| Manager.SearchLimit | pkg/memory/manager.go:134-137 | the vector search asks for `min(limit, MaxRecentMemories)` results when that setting is positive, `limit` otherwise |
| Manager.CapRecent | pkg/memory/manager.go:154-157 | the final cut keeps the first `MaxRecentMemories` records when that is positive and everything otherwise |
| Manager.Retrieve | pkg/memory/manager.go:113-160 | a query vector with a negative limit panics in the vector search (none); otherwise an embedder failure is "failed to embed query", and a result is a prefix of the session window records followed by the user's long-term matches at threshold 0.7: all of it when it fits, and exactly `MaxRecentMemories` records when a positive cap is exceeded |
| Manager.RecentIsWindow | pkg/memory/manager.go:118-131 | the session part of Retrieve is the decoded last `ContextWindow` items and no longer than that window |
| Manager.RetrieveLtmBelongsToUser | pkg/memory/manager.go:144-152 | every long-term record Retrieve adds belongs to the user and scored at least 0.7 |
| Manager.EffectiveLimit | pkg/memory/manager.go:264-266 | a non-positive limit becomes 50; a positive one is kept |
| Manager.EffectivePage | pkg/memory/manager.go:267-269 | a non-positive page becomes 1; a positive one is kept |
| Manager.GatherStm | pkg/memory/manager.go:282-299 | every gathered short-term record is untagged or tagged with the requested user |
| Manager.LtmFilter | pkg/memory/manager.go:306-315 | the long-term filter of List never holds a "type" key that is not a string |
| Manager.Page | pkg/memory/manager.go:365-376 | the page is the elements from `offset` to `min(offset+limit, total)`, or empty once the offset passes the end |
| Manager.List | pkg/memory/manager.go:260-377 | never more than the effective limit; a "long_term" query is the vector store's own page; any other query is the page at `(page-1)*limit` of the merged records ordered newest first |
| Manager.SortedPage | pkg/memory/manager.go:361-376 | a page of the newest-first ordering is newest first and holds only merged records |
| Manager.ListStmOnlyThisUser | pkg/memory/manager.go:290-295 | a short-term listing for a user holds no record tagged with another user |
| Manager.MergedShortTermVisible | pkg/memory/manager.go:273-301 | a short-term query merges only session records visible to the user |
| Manager.Update | pkg/memory/manager.go:380-422 | "record not found in LTM or STM" exactly when neither store has the ID; an embedder failure is an error; a long-term hit is rewritten in the vector store only, otherwise the short-term hit in the list store only, with new content and embedding |
| Manager.UpdateLtmThenGet | pkg/memory/manager.go:380-422 | after updating a long-term record, reading it back shows the new content and embedding with the timestamp kept |
| Manager.Delete | pkg/memory/manager.go:425-427 | the long-term records without the ID remain, in their order and with their multiplicity, and none with the ID does |
| Manager.Clear | pkg/memory/manager.go:430-437 | the session's list reads back empty and every other list is unchanged |
| Manager.AddThenClear | pkg/memory/manager.go:78-160 | the record Add writes is the last item of the session window; Clear then empties the session (also manager.go:430-437) |
| Funnel.Unjudged | pkg/memory/funnel.go:32-49 | the records to judge are decodable records of the session's list that are not in the session's judged set |
| Funnel.ApplyVerdict | pkg/memory/funnel.go:123-152 | a worthwhile verdict (`ShouldStage` and value score at the threshold) counts the content in staging and any other verdict leaves staging alone; either way the record ends up in the judged set and out of the session list |
| Funnel.ProgressTrans | pkg/memory/funnel.go:142-151 | the judged set only grows and the session list only loses items, across any number of verdicts |
| Funnel.RetiredStays | pkg/memory/funnel.go:142-151 | a record once judged and removed stays judged and removed |
| Funnel.ApplyVerdicts | pkg/memory/funnel.go:123-152 | after a batch's verdicts every record of the batch is judged and out of the session list; with no worthwhile verdict staging is unchanged |
| Funnel.VerdictsStep | pkg/memory/funnel.go:123-152 | the first verdict followed by the rest of the batch covers the whole batch |
| Funnel.Contents | pkg/memory/funnel.go:96-98 | the contents sent to the judge are the batch's contents in order |
| Funnel.Misses | pkg/memory/funnel.go:86-94 | the contents the cache has no verdict for are at most the batch |
| Funnel.Fill | pkg/memory/funnel.go:85-119 | there is one verdict per record, and a cached verdict is the one used for its record |
| Funnel.AskJudge | pkg/memory/funnel.go:104-111 | a successful judge call gives one verdict per cache miss; with no miss the LLM is not asked |
| Funnel.JudgeOneBatch | pkg/memory/funnel.go:73-152 | a failed judge call skips the whole batch, cached verdicts included; otherwise every record of the batch is judged and out of the session list |
| Funnel.FullyCachedBatchIsJudged | pkg/memory/funnel.go:86-105 | a batch whose every content is cached is applied without asking the LLM |
| Funnel.JudgeBatches | pkg/memory/funnel.go:74-153 | every record of every batch the judge answered is judged and out of the session list, and the judged set only grows |
| Funnel.JudgeAndStageFromStm | pkg/memory/funnel.go:18-162 | without the trigger (`STMJudgeMinMessages` records waiting, or the oldest waiting `STMJudgeMaxWaitMinutes`) nothing changes; otherwise the unjudged records go in consecutive batches of `STMBatchJudgeSize` and every answered batch is retired |
| Funnel.BatchesNeverRejudge | pkg/memory/funnel.go:32-80 | the batches cover the unjudged records exactly, in order, and none of them was judged before |
| Funnel.AllJudgedIsNoop | pkg/memory/funnel.go:51-53 | a session whose records are all judged already is left alone |
| Funnel.RouteOf | pkg/memory/funnel.go:177-193 | high confidence is promoted, confidence between the low and the high thresholds waits for review, and anything below both is discarded |
| Funnel.SnippetAsWritten | pkg/memory/funnel.go:186 | `Content[:50]` slices bytes: it exists exactly when the UTF-8 encoding of the content has at least 50 bytes, and is then the first 50 of those bytes |
| Funnel.RouteAsWritten | pkg/memory/funnel.go:177-193 | as written, routing fails exactly for a medium-confidence entry whose content is shorter than 50 bytes in UTF-8; otherwise it routes as intended |
| Funnel.ShortReviewEntryPanics | pkg/memory/funnel.go:184-186 | a 9-byte entry at confidence 0.6 between thresholds 0.5 and 0.8 panics the promotion pass as written |
| Funnel.SnippetCountsBytes | pkg/memory/funnel.go:186 | a content of 20 three-byte characters (60 bytes) can be sliced by `Content[:50]` although it has fewer than 50 characters: the bound is in bytes |
| Funnel.Snippet | pkg/memory/funnel.go:186 | the intended snippet is the first `min(len, 50)` characters, a prefix of the content; for ASCII content of at least 50 characters its bytes are exactly `Content[:50]` (also funnel.go:360) |
| Funnel.NewLtmMetadataFacts | pkg/memory/funnel.go:284-310 | a new long-term memory is owned by the entry's user, has the entry's category and source "staging", is created and accessed now, with access count 0 and decay score 1.0 |
| Funnel.Bumped | pkg/memory/funnel.go:232-241 | "update_existing" adds one to an int access count (or sets 1), resets the decay score to 1.0 and the last access to now, and keeps ID, content and embedding |
| Funnel.MergedInto | pkg/memory/funnel.go:244-255 | "merge" puts the merged text in place, takes the new embedding only when the embedder answered, and resets the decay score to 1.0 |
| Funnel.Finish | pkg/memory/funnel.go:268-270 | the staging entry is deleted and a successful promotion of its category is reported; long-term memory is unchanged |
| Funnel.NewLtmRecord | pkg/memory/funnel.go:274-319 | the new long-term record has the entry's content, its last sighting as timestamp, the promotion vector, the user tag, access count 0 and decay score 1.0 |
| Funnel.CreateNew | pkg/memory/funnel.go:274-333 | the new record is appended to long-term memory, then the entry is finished |
| Funnel.NearDuplicate | pkg/memory/funnel.go:218-220 | at most one long-term record, belonging to the entry's user |
| Funnel.PromoteSingleEntry | pkg/memory/funnel.go:199-334 | "生成embedding失败" exactly when no vector is stored and the embedder fails; otherwise the entry leaves staging, one successful promotion is reported, long-term memory grows by at most one; without a near duplicate the new record is appended, and with one the merge decision is applied as Funnel.ResolveDuplicate states |
| Funnel.ResolveDuplicate | pkg/memory/funnel.go:222-272 | the entry leaves staging and one success is reported; long-term memory changes as the strategy says: keep_newer removes the existing record and appends the new one, keep_both (also on a failed merge call) appends it, update_existing writes back the bumped existing record and merge the merged one with every other record kept in place, and an unknown strategy leaves it unchanged |
| Funnel.MergeDecision | pkg/memory/funnel.go:225-229 | a failed merge-strategy call falls back to "keep_both" |
| Funnel.AutoStep | pkg/memory/funnel.go:179-183 | a high-confidence entry that can be embedded is promoted (deleted from staging, logged as a success, written to long-term memory as Funnel.PromoteSingleEntry states); one that cannot is left as it was, the failure only logged |
| Funnel.AutoPromotion | pkg/memory/funnel.go:179-183 | the automatic promotion as a routing step: it keeps to what a routing step may do and is Funnel.AutoStep on every state and entry |
| Funnel.RouteStep | pkg/memory/funnel.go:177-193 | a high-confidence entry goes to the promotion step; an entry waiting for review leaves everything unchanged; a discarded entry is deleted and reported as a failed promotion; staging only loses the routed entry |
| Funnel.PromoteEach | pkg/memory/funnel.go:177-193 | after routing the entries one by one, every discarded entry and every high-confidence entry the step retires is gone, staging only loses entries, and an entry only routed to review is untouched |
| Funnel.PromoteStagingToLtm | pkg/memory/funnel.go:166-196 | the corrected pass (no panic on a short review entry): every low-confidence entry meeting the promotion criteria is deleted, every high-confidence one that can be embedded is promoted and deleted, every medium-confidence entry stays as it was; the log gains exactly one line per promoted or discarded pending entry, in scan order, and long-term memory grows by at most one per promotion and not at all without one |
| Funnel.PendingRouted | pkg/memory/funnel.go:166-196 | the per-entry facts of the routing loop (discarded and promoted entries gone, review entries kept) carry over to the staging keys the pending scan enumerates |
| Funnel.AutoRetires | pkg/memory/funnel.go:179-183 | from any state, the automatic step deletes an entry it can embed and logs it as a success |
| Funnel.RouteStepEffects | pkg/memory/funnel.go:177-193 | one routed entry writes its own log line and adds a long-term memory only when it is promoted |
| Funnel.PromoteEachEffects | pkg/memory/funnel.go:177-193 | the routing loop writes one log line per promoted or discarded entry, in order, and adds at most one long-term memory per promotion |
| Funnel.ExtractLtmMetadata | pkg/memory/funnel.go:388-409 | each field is read when present with the right type; otherwise user "" , last access 30 days ago, access count 0 and decay score 1.0 |
| Funnel.NewMetadataReadsBack | pkg/memory/funnel.go:299-310 | a freshly promoted memory's metadata reads back as owned by the user, accessed at creation, never used and at full score (also funnel.go:388-409) |
| Funnel.Rescored | pkg/memory/funnel.go:361-365 | a kept record gets its recomputed decay score written back and keeps ID, content and timestamp |
| Funnel.Partition | pkg/memory/funnel.go:344-367 | every scanned record either has its ID in the delete list (evicted) or its rescored copy in the update list, and nothing else is in either |
| Funnel.UpdateAll | pkg/memory/funnel.go:376-381 | the write-backs change neither the number of records nor any record's ID |
| Funnel.ScanAndEvict | pkg/memory/funnel.go:337-385 | the corrected pass (no panic on a short evicted record): no evicted record's ID survives, no record is added, every surviving ID was there before; with unique IDs every scanned record that is not evicted is present rescored and every record past the first 1000 is kept |
| Funnel.EvictPass | pkg/memory/funnel.go:339-381 | the same, for any eviction test and any ID-keeping rewrite over the first 1000 records |
| Funnel.DeleteIfAny | pkg/memory/funnel.go:369-374 | exactly the records whose IDs are not listed survive, in their order and with their multiplicity |
| Funnel.EvictPassKeepsIds | pkg/memory/funnel.go:369-381 | after the delete and the write-backs the deleted IDs are gone and no ID is invented |
| Funnel.EvictPassKeepsRest | pkg/memory/funnel.go:339-381 | with unique IDs and an ID-keeping rewrite, every scanned record that is not evicted ends up rescored in the store and every record past the first 1000 is kept |
| Funnel.KeepsRest | pkg/memory/funnel.go:346-381 | the same, for any scanned prefix and any delete and write-back lists that the scan loop could build from it |
| Funnel.UpdateLtmFacts | pkg/store/in_memory.go:203-218 | one write-back keeps the length and every position's ID, leaves records with other IDs in place, lands the record when its ID is stored, and keeps the set of IDs |
| Funnel.UpdateAllKeepsOthers | pkg/memory/funnel.go:376-381 | a record that no write-back names survives the write-back loop |
| Funnel.UpdateAllWrites | pkg/memory/funnel.go:376-381 | write-backs that agree per ID and name stored IDs all land in the store |
| Funnel.EvictionLogAsWritten | pkg/memory/funnel.go:357-360 | the scan as written panics exactly when some evicted record's content is shorter than 50 bytes in UTF-8 |
| Funnel.ShortEvictedRecordPanics | pkg/memory/funnel.go:360 | evicting the two-character memory "hi" crashes the scan as written |
| Funnel.EvictionLog | pkg/memory/funnel.go:357-360 | the intended log has one snippet of at most 50 characters per evicted record |
| Funnel.TokenLength | pkg/memory/funnel.go:467 | the run `%s` reads holds no white space |
| Funnel.ScanStmKeyAsWritten | pkg/memory/funnel.go:467 | `Sscanf` fills no field exactly when the key lacks the literal prefix or has no token after it, and never more than two |
| Funnel.ScanNeverFillsBoth | pkg/memory/funnel.go:467 | as written the scan never fills both fields, because the first `%s` swallows the ':' |
| Funnel.ColonIsNotSpace | pkg/memory/funnel.go:467 | ':' is not white space, so `%s` reads through it |
| Funnel.AutosaveSessionsAsWritten | pkg/memory/funnel.go:463-478 | as written the autosave tick judges no session at all |
| Funnel.AutosaveJudgesNothingAsWritten | pkg/memory/funnel.go:465-467 | a well-formed session key that the intended parse splits is still never judged as written |
| Funnel.ParseStmKey | pkg/memory/funnel.go:465-467 | the intended parse gives a user without ':' and a session whose list name is the key, and succeeds for every prefixed key with a ':' after the prefix |
| Funnel.ParseStmKeyRoundTrip | pkg/memory/funnel.go:465-467 | parsing a session's list name gives back its user and session |
| Funnel.Users | pkg/memory/funnel.go:463 | the users of the judged pairs, exactly |
| Funnel.SessionsTick | pkg/memory/funnel.go:463-478 | each judged pair is a parsed key of an unprocessed user, no user is judged twice, and every unprocessed user with a parsable key is judged |
| Funnel.TickSkipsKey | pkg/memory/funnel.go:467-471 | a key that does not parse, or whose user is done, adds nothing to the pass |
| Funnel.TickJudgesUser | pkg/memory/funnel.go:467-477 | the first key of an unprocessed user judges that user |
| Funnel.ParsedKeys | pkg/memory/funnel.go:464-467 | one parse per scanned key, in order |
| Funnel.AutosaveTick | pkg/memory/funnel.go:457-478 | with the intended parse, every user with a session list is judged, each once, and each judged pair names a session list that exists |
| Funnel.AutosaveCoverage | pkg/memory/funnel.go:457-478 | facts of the pass over the scanned keys become facts about the session lists |
| Funnel.JudgedSessionsExist | pkg/memory/funnel.go:457-473 | every judged pair names a session list that exists |
| Funnel.ListedUsersJudged | pkg/memory/funnel.go:457-477 | every user with a session list (and no ':' in the ID) is judged |
| Funnel.PromotionIntervalHours | pkg/memory/funnel.go:421-425 | the promotion period is half the minimum wait, rounded down, and at least one hour |
| BatchOptimize.BatchMetadataFacts | pkg/memory/batch_optimize.go:38-49 | a batch-promoted memory is owned by the entry's user, has its category, is created at the entry's first sighting and last accessed at its last sighting, with access count 0 and decay score 1.0 |
| BatchOptimize.BatchRecord | pkg/memory/batch_optimize.go:37-58 | the long-term record has the entry's content, its last sighting as timestamp, the vector, a fresh ID and the metadata above |
| BatchOptimize.Collect | pkg/memory/batch_optimize.go:22-62 | one record and one staging ID per entry the embedder answers for, side by side in input order; failed entries are skipped |
| BatchOptimize.BatchPromote | pkg/memory/batch_optimize.go:14-80 | no entries is a no-op; the batch write's error is returned exactly when there was something to write; on success the records are appended in order, exactly the written entries leave staging, and no promotion is reported |
| BatchOptimize.CollectedIds | pkg/memory/batch_optimize.go:60-76 | the IDs deleted from staging are exactly the IDs of the entries that were written |
| BatchOptimize.BatchPromoteToLtm | pkg/memory/batch_optimize.go:14-80 | the same contract with the tag model, the embedder and the fresh IDs of the real loop |
| BatchOptimize.FailedWriteDeletesNothing | pkg/memory/batch_optimize.go:64-69 | a failed batch write returns "批量写入LTM失败: …" before anything is deleted from staging |
| BatchOptimize.BatchRecordReadsBack | pkg/memory/batch_optimize.go:38-49 | a batch-promoted memory reads back with the entry's last sighting, no accesses and full score (also funnel.go:388-409) |
| BatchOptimize.UnembeddedEntryStays | pkg/memory/batch_optimize.go:31-35 | an entry the embedder fails on stays in staging, unchanged |
| BatchOptimize.Worthy | pkg/memory/batch_optimize.go:126-131 | exactly the worthwhile verdicts are kept, each with its own content |
| BatchOptimize.BatchStagings | pkg/memory/batch_optimize.go:102-131 | every staged content is the content of a decodable record of the batch with a worthwhile verdict; a failed judge call stages nothing |
| BatchOptimize.WorthyFromRecords | pkg/memory/batch_optimize.go:106-131 | a staged content is the content of one of the decoded records |
| BatchOptimize.AllStagings | pkg/memory/batch_optimize.go:96-133 | every staged content comes from a decodable record of some batch with a worthwhile verdict |
| BatchOptimize.StagingsOfAllBatches | pkg/memory/batch_optimize.go:96-133 | the first batch's stagings followed by the rest's each come from some batch |
| BatchOptimize.ApplyStagings | pkg/memory/batch_optimize.go:126-131 | the staging writes only add or update entries, keep entries under their IDs, every new key is the hash key of a staged content, and nothing to stage changes nothing |
| BatchOptimize.CachedStagings | pkg/memory/batch_optimize.go:95-133 | an empty list stages nothing; every staged content is from a decodable list item with a worthwhile verdict |
| BatchOptimize.DecodedInBatchIsDecoded | pkg/memory/batch_optimize.go:96-113 | a record decoded from one batch is decoded from the whole list |
| BatchOptimize.JudgeAndStageFromStmCached | pkg/memory/batch_optimize.go:83-136 | the session list and the judged set are never touched, staging is the in-order application of the worthwhile verdicts on the session list's contents, every new staging key is the hash key of a decoded session record, an empty list changes nothing, and staging only gains or updates entries |
| BatchOptimize.CachedIgnoresJudgedSet | pkg/memory/batch_optimize.go:83-136 | marking records judged changes nothing the cached variant stages |
| LtmDedup.AccessCount | pkg/memory/ltm_dedup.go:71-72 | an int access count is read as is; a missing or mistyped one reads as 0 |
| LtmDedup.Survivor | pkg/memory/ltm_dedup.go:86-107 | the survivor carries the summed count and decay score 1.0, and no other metadata key changes |
| LtmDedup.Rewrite | pkg/memory/ltm_dedup.go:88-109 | after an update and a delete the dropped ID is gone and no ID is invented |
| LtmDedup.UpdateKeepsIds | pkg/store/in_memory.go:203-218 | an update rewrites a record in place under the same ID |
| LtmDedup.ExecuteMergeStrategy | pkg/memory/ltm_dedup.go:66-117 | only a failed embedding of the merged text is an error; an unknown strategy, like "keep_both", does nothing; otherwise records only disappear or are rewritten in place, and only the counts and scores change in metadata |
| LtmDedup.KeepNewerRemovesOlder | pkg/memory/ltm_dedup.go:75-81 | "keep_newer" deletes the older record, rec1 on equal timestamps, and keeps every other record |
| LtmDedup.CountsConserved | pkg/memory/ltm_dedup.go:83-109 | "keep_higher_access", "update_existing" and "merge" conserve the pair's accesses: the survivor (rec1 on a tie, always rec1 for "merge") carries both counts and decay score 1.0, and the other record is deleted |
| LtmDedup.MergeRewritesFirst | pkg/memory/ltm_dedup.go:97-109 | a successful "merge" rewrites rec1 with the merged text and its new embedding |
| LtmDedup.Similarity | pkg/memory/ltm_dedup.go:120-137 | 0 for a nil embedding, different lengths or a zero norm |
| LtmDedup.CandidateStable | pkg/memory/ltm_dedup.go:25-27 | the loop reads the page copies, so handling a pair never changes which later pairs qualify |
| LtmDedup.ComparePair | pkg/memory/ltm_dedup.go:27-54 | a pair of different users, similarity at most 0.95 or a failed LLM call changes nothing; otherwise it is handled once, counted as processed, and counted as merged at most once |
| LtmDedup.SweepFrom | pkg/memory/ltm_dedup.go:25-56 | from pair (i, j) on, the handled pairs are exactly the qualifying pairs a < b not before (i, j), each once; merges never exceed processed pairs |
| LtmDedup.SweepStep | pkg/memory/ltm_dedup.go:25-56 | the pair (i, j) followed by the sweep from (i, j+1) is the sweep from (i, j) |
| LtmDedup.StepNoDup | pkg/memory/ltm_dedup.go:25-56 | a new pair in front of a duplicate-free tail that lacks it keeps the list duplicate-free |
| LtmDedup.SweepPage | pkg/memory/ltm_dedup.go:24-56 | every qualifying pair i < j of the page is handled exactly once, processed counts them, and merged never exceeds processed |
| LtmDedup.DedupFrom | pkg/memory/ltm_dedup.go:17-59 | pages of 1000 until one comes back empty (an empty page changes nothing); every qualifying pair of the current page is processed, records only disappear or are rewritten in place, and merges never exceed processed pairs |
| LtmDedup.DeduplicateLtm | pkg/memory/ltm_dedup.go:11-63 | no ID is invented, the store never grows, merged never exceeds processed, every qualifying same-user pair of the first page is processed, and an empty store is left alone |
| LtmDedup.DistinctUsersUntouched | pkg/memory/ltm_dedup.go:29-34 | a page of records from distinct users is left alone |
| Decay.FrequencyBonus | pkg/memory/decay.go:34 | `min(1, accessCount/10)`: 1 from ten accesses on, and between 0 and 1 for a non-negative count |
| Decay.CalculateDecayScore | pkg/memory/decay.go:27-40 | the score never exceeds `0.6·timeDecay + 0.4`, exactly that from ten accesses on, and in [0, 1] when the time decay lies in [0, 1] |
| Decay.MoreAccessNeverLowers | pkg/memory/decay.go:27-40 | more accesses never lower the score |
| Decay.UpdateMetadataDecay | pkg/memory/decay.go:48-50 | only the decay score changes, and it stays in [0, 1] |
| Decay.RefreshAccess | pkg/memory/decay.go:53-56 | a recall stamps the access time and adds one access; nothing else changes |
| Decay.RefreshedIsKept | pkg/memory/decay.go:27-56 | a memory refreshed just now scores at least 0.6 and is not forgotten under any minimum score up to 0.6 |
| Judge.CleanFencedJson | pkg/memory/judge.go:56-61 | an answer wrapped in a ```json fence cleans to its trimmed body |
| Judge.FencePrefix | pkg/memory/judge.go:58-59 | text that starts with "```json" also starts with "```", so the two prefix trims run in that order |
| Judge.CleanUnfenced | pkg/memory/judge.go:56-61 | an answer with no fence is only trimmed of white space |
| Judge.BatchPrompt | pkg/memory/judge.go:77-105 | the batch prompt always ends with the fixed output instructions |
| Judge.JudgeBatch | pkg/memory/judge.go:72-128 | no contents is an empty result without an LLM call; a failed call is an error; a success is exactly the parse of the cleaned answer, one verdict per content |
| Judge.ParseBatch | pkg/memory/judge.go:111-127 | the cleaned answer is accepted exactly when it parses to as many verdicts as there are contents, and then the verdicts are those parsed |
| Judge.JudgeMemoryValue | pkg/memory/judge.go:29-69 | a failed LLM call is "LLM判定失败"; the call succeeds exactly when the cleaned answer parses, and yields that verdict |
| Judge.ExtractStructuredTags | pkg/memory/judge.go:131-170 | a failed LLM call is "标签提取失败"; success exactly when the cleaned answer parses, yielding its tags and entities |
| Prompts.Unescape | pkg/prompts/prompts.go:29-32 | replacing the two-character sequence backslash-n never lengthens the text and leaves no such sequence behind |
| Prompts.UnescapeEscape | pkg/prompts/prompts.go:29-32 | for text without backslashes, unescaping undoes writing line breaks as backslash-n |
| Prompts.NewRegistry | pkg/prompts/prompts.go:22-36 | an empty override keeps the built-in template; a non-empty one is used with its escaped line breaks turned into real ones |
| Prompts.PlainText | pkg/prompts/prompts.go:39-46 | text without '%' is a template with no verb and formats to itself |
| Prompts.PlainPrefix | pkg/prompts/prompts.go:39-46 | a '%'-free prefix passes through formatting unchanged |
| Prompts.FormatTrailingSlot | pkg/prompts/prompts.go:39-46 | formatting "<text>%s" with a content puts the content right after the text |
| Prompts.SummarizeIsPlain | pkg/prompts/prompts.go:10 | the built-in summary instruction holds no formatting verb |
| Prompts.ExtractProfileIsPlain | pkg/prompts/prompts.go:12 | the built-in profile instruction holds no formatting verb |
| Prompts.DefaultSummarize | pkg/prompts/prompts.go:22-41 | with no override the summary prompt is the instruction followed by the content |
| Prompts.DefaultExtractProfile | pkg/prompts/prompts.go:22-46 | with no override the profile prompt is the instruction followed by the content |
| Prompts.GetSummarizePrompt | pkg/prompts/prompts.go:39-41 | `Sprintf` of the summary template: a template "<text>%s" puts the content right after the text, and a template with no verb at all is followed by "%!(EXTRA string=<content>)" |
| Prompts.GetExtractProfilePrompt | pkg/prompts/prompts.go:44-46 | the same two cases for the profile template |
| Monitor.NewPerformanceMonitor | pkg/memory/monitor.go:29-35 | a new monitor has an empty cache, zero counters and a 24-hour expiry |
| Monitor.GetJudgeResultFromCache | pkg/memory/monitor.go:38-80 | a hit exactly when the content is cached and not older than the expiry, returning the cached verdict; a stale entry is evicted from both maps; each lookup counts one hit or one miss, locally and in the global collector |
| Monitor.SetJudgeResultCache | pkg/memory/monitor.go:83-89 | the verdict is cached under the content with the current time; nothing else changes |
| Monitor.SetThenGetHits | pkg/memory/monitor.go:38-89 | a verdict stored now is returned by every lookup up to the expiry, the bound included |
| Monitor.SetThenGetAfterExpiryMisses | pkg/memory/monitor.go:38-89 | after the expiry the lookup misses and the entry has left both maps |
| Monitor.LookupCountedOnce | pkg/memory/monitor.go:38-80 | hits plus misses grow by exactly one per lookup, in both counters |
| Monitor.LookupKeepsOthers | pkg/memory/monitor.go:38-80 | a lookup never adds to the cache and keeps other contents' entries |
| Monitor.RecordPromotion | pkg/memory/monitor.go:92-101 | exactly one of the success and failure counters grows, the success one exactly on success |
| Monitor.RecordForgotten | pkg/memory/monitor.go:104-109 | the forgotten counter grows by the count and nothing else changes |
| Monitor.RecordForgottenAdds | pkg/memory/monitor.go:104-109 | two passes count as one pass of their total |
| Monitor.UpdateStagingQueueLength | pkg/memory/monitor.go:112-117 | the queue length is overwritten and nothing else changes |
| Monitor.GetMetrics | pkg/memory/monitor.go:120-147 | success and hit rates are the percentages of their totals, 0 when nothing was counted, the hit rate within [0, 100]; the cache size and counters are reported as they stand |
| Monitor.AllHitsIsFullRate | pkg/memory/monitor.go:127-135 | a monitor whose every lookup hit reports 100% |
| Monitor.GetPerformanceMetrics | pkg/memory/monitor.go:159-169 | the queue length is the count of pending staging entries, never more than the entries stored |
| MetricsCollector.NewCollector | pkg/memory/metrics_collector.go:72-76 | the collector starts with empty series and zero counters |
| MetricsCollector.FirstAfter | pkg/memory/metrics_collector.go:146-153 | the first index whose point is after the cutoff, with every earlier point at or before it; none exactly when no point is after it |
| MetricsCollector.TrimHistory | pkg/memory/metrics_collector.go:143-160 | the result is a suffix of the series; every dropped point is at or before `now - duration` and the first kept one is after it |
| MetricsCollector.FilterPointsAfter | pkg/memory/metrics_collector.go:416-424 | exactly the points after the cutoff are kept: the result is a subsequence of the input, in input order, and each point after the cutoff appears as often as in the input, others not at all |
| MetricsCollector.TrimKeepsExactlyNewer | pkg/memory/metrics_collector.go:143-160 | on a chronological series a point survives trimming exactly when it is after `now - duration` |
| MetricsCollector.ChronologicalTail | pkg/memory/metrics_collector.go:143-160 | in a chronological series everything from a point after the cutoff on is after it too |
| MetricsCollector.AppendNowChronological | pkg/memory/metrics_collector.go:91-112 | appending a point stamped with a clock that does not go back keeps a series chronological |
| MetricsCollector.RecordPromotion | pkg/memory/metrics_collector.go:85-103 | a success adds one promotion and a point (now, 1, category) at the end of the trimmed series; a failure adds one rejection and only trims; nothing else changes |
| MetricsCollector.RecordQueueLength | pkg/memory/metrics_collector.go:106-116 | the point (now, length) ends the trimmed series; nothing else changes |
| MetricsCollector.TrimKeepsChronological | pkg/memory/metrics_collector.go:143-160 | trimming keeps a series chronological |
| MetricsCollector.RecordPromotionChronological | pkg/memory/metrics_collector.go:85-103 | recording a promotion keeps the series chronological when the clock does not go back |
| MetricsCollector.RecordQueueLengthChronological | pkg/memory/metrics_collector.go:106-116 | recording a queue length keeps the series chronological when the clock does not go back |
| MetricsCollector.SuffixChronological | pkg/memory/metrics_collector.go:143-160 | any suffix of a chronological series is chronological |
| MetricsCollector.Percent | pkg/memory/metrics_collector.go:128-133 | a category's share in percent of the total, 0 for a non-positive total, within [0, 100] for a count within the total |
| MetricsCollector.Entries | pkg/memory/metrics_collector.go:332-341 | one entry per category in order, with its count and share |
| MetricsCollector.CategoryHistory | pkg/memory/metrics_collector.go:321-344 | a category distribution: one entry per category of the map, each once, with its count and its share of the total |
| MetricsCollector.PercentsSum | pkg/memory/metrics_collector.go:321-344 | the shares of a distribution with a positive total add up to 100% |
| MetricsCollector.UpdateCategoryDistribution | pkg/memory/metrics_collector.go:119-140 | the category history is replaced by a distribution of the categories: one entry per category, each once, with its count and share; nothing else changes |
| MetricsCollector.ParseTimeRangeToHours | pkg/memory/metrics_collector.go:353-366 | "1h" is 1 hour, "7d" is 7×24 and "30d" is 30×24 hours; "24h" and anything else is 24 |
| MetricsCollector.SlotsFor | pkg/memory/metrics_collector.go:235-246 | up to an hour is aggregated per minute, up to a day per hour, beyond that per day (hours / 24 days) |
| MetricsCollector.TimeRangeSlots | pkg/memory/metrics_collector.go:235-246 | "1h" gives 60 minutes, "7d" 7 days, "30d" 30 days, anything else 24 hours (also metrics_collector.go:353-366) |
| MetricsCollector.Accumulate | pkg/memory/metrics_collector.go:466-487 | the per-slot totals built by walking the points are each slot's sum and number of points, points outside the window skipped |
| MetricsCollector.AccumulateStep | pkg/memory/metrics_collector.go:476-487 | handling one more point updates exactly its own slot's sum and count |
| MetricsCollector.SlotAppend | pkg/memory/metrics_collector.go:476-487 | a further point adds its value and one hit to its own slot and nothing to any other |
| MetricsCollector.Aggregate | pkg/memory/metrics_collector.go:462-613 | one point per slot, oldest first, stamped with the slot's start and carrying its sum, or its mean when averaging a non-empty slot |
| MetricsCollector.OutsidePointIgnored | pkg/memory/metrics_collector.go:482-486 | a point outside every slot leaves the trend unchanged |
| MetricsCollector.PointLandsInItsSlot | pkg/memory/metrics_collector.go:482-486 | in a summed trend a point inside the window adds its value to exactly its own slot |
| MetricsCollector.Trend | pkg/memory/metrics_collector.go:235-246 | the trend has as many points as the resolution chosen for the range has slots |
| MetricsCollector.Latest | pkg/memory/metrics_collector.go:192-202 | the newest timestamp of the points, or the start value when none is newer |
| MetricsCollector.MergeSeries | pkg/memory/metrics_collector.go:210-228 | the persisted points come first; the rest is a subsequence of the in-memory series, in its order, holding each in-memory point newer than every persisted one as often as the series does, and no other |
| MetricsCollector.MaxDbTime | pkg/memory/metrics_collector.go:192-202 | at least Go's zero time and no earlier than any persisted point of either series |
| MetricsCollector.MergeNeverDuplicatesPersisted | pkg/memory/metrics_collector.go:192-228 | every in-memory point kept by the merge is newer than every persisted point, so no period is counted twice |
| MetricsCollector.PointsOf | pkg/memory/metrics_collector.go:392-410 | one point per row, in order |
| MetricsCollector.PointsOfCons | pkg/memory/metrics_collector.go:392-410 | converting a row then the rest is converting the whole |
| MetricsCollector.SplitRows | pkg/memory/metrics_collector.go:392-410 | the promotion series is the promotion rows and the queue series the queue-length rows, each in row order; other rows are dropped |
| MetricsCollector.SplitCounts | pkg/memory/metrics_collector.go:403-408 | a row goes to at most one of the two series |
| MetricsCollector.QueryRawMetrics | pkg/memory/metrics_collector.go:369-413 | no database or a failed query gives two empty series; otherwise the promotion series is the promotion rows and the queue series the queue-length rows, each in row order, all unlabelled |
| MetricsCollector.StagingQueueLength | pkg/memory/metrics_collector.go:347-350 | the queue length never exceeds the entries stored |
| MetricsCollector.Rate | pkg/memory/metrics_collector.go:269-280 | a / (a + b) in percent, 0 with no attempts, within [0, 100] |
| MetricsCollector.RatesComplement | pkg/memory/metrics_collector.go:269-280 | the success and failure rates add up to 100% once anything was counted |
| MetricsCollector.CategoriesFor | pkg/memory/metrics_collector.go:249-263 | a fresh cached distribution is used as is; otherwise the queried one is used and cached for 30 seconds |
| MetricsCollector.BuildDashboard | pkg/memory/metrics_collector.go:176-309 | counters come from the collector, the rates are Rate of them, both trends have one point per slot, and the distribution has one entry per category, each once, with its count and share |
| MetricsCollector.DashboardCountsNewPromotion | pkg/memory/metrics_collector.go:188-246 | recording one more promotion point adds its value to exactly the promotion slot its timestamp falls in, when it is newer than every persisted point and than the window start, and changes no slot otherwise; the queue trend is unchanged |
| MetricsCollector.TrendCountsNewPoint | pkg/memory/metrics_collector.go:210-246 | the same slot arithmetic for any persisted and in-memory series: an appended point shifts one summed slot by its value or nothing |
| MetricsCollector.WindowAfterAppend | pkg/memory/metrics_collector.go:210-233 | an in-memory point appended to the history joins the end of the merged, cut series exactly when it is newer than the persisted points and than the cutoff; otherwise that series is unchanged |
| MetricsCollector.WindowSnoc | pkg/memory/metrics_collector.go:416-424 | cutting a series with one more point at its end cuts the series and keeps the point exactly when it is after the cutoff |
| MetricsCollector.MergeSnoc | pkg/memory/metrics_collector.go:214-219 | merging a history with one more point appends that point exactly when it is newer than the persisted points |
| MetricsCollector.GetDashboardMetrics | pkg/memory/metrics_collector.go:165-318 | a fresh cached dashboard for the range is returned without side effects; otherwise it is rebuilt with the current queue length, cached for 30 seconds, and the queue length and distribution are recorded without touching the promotion counters |
| MetricsCollector.RepeatWithinTtlIsCached | pkg/memory/metrics_collector.go:167-172 | asking again for the same range within 30 seconds returns the same dashboard and changes nothing (also metrics_collector.go:311-315) |
| MetricsPersistence.NewMetricsPersistence | pkg/memory/metrics_persistence.go:22-29 | nothing is persisted yet and the last queue length is -1, so the first queue length is always written |
| MetricsPersistence.UpdateCumulativeStats | pkg/memory/metrics_persistence.go:76-96 | the counters row (when present) takes the collector's five counters; the time series is untouched; no row, no update |
| MetricsPersistence.LoadCumulativeStats | pkg/memory/metrics_persistence.go:165-207 | a missing row is an error; otherwise exactly the five counters are restored and the series are left alone |
| MetricsPersistence.CumulativeRoundTrip | pkg/memory/metrics_persistence.go:76-96 | counters saved and loaded back are restored exactly (also metrics_persistence.go:165-207) |
| MetricsPersistence.PromotionRows | pkg/memory/metrics_persistence.go:114-124 | exactly the promotion points newer than the watermark are written, as promotion rows; none when no point is newer |
| MetricsPersistence.QueueRows | pkg/memory/metrics_persistence.go:127-140 | only queue points newer than the watermark are written, the first one differing from the last value written and no two consecutive rows equal; the last written value moves to the last row's value |
| MetricsPersistence.SteadyQueueWritesNothing | pkg/memory/metrics_persistence.go:130-135 | a queue length that has not changed since the last write is not written again |
| MetricsPersistence.NextWatermark | pkg/memory/metrics_persistence.go:114-142 | the new watermark never goes back and is no older than any point of either series |
| MetricsPersistence.KeepRecent | pkg/memory/metrics_persistence.go:144-162 | exactly the points of the last two hours stay in memory, in their order and with their multiplicity; nothing else in the collector changes |
| MetricsPersistence.InsertTimeSeriesDataAsWritten | pkg/memory/metrics_persistence.go:99-151 | once the transaction opens, the watermark moves and memory is trimmed even when the commit fails and the rows are rolled back |
| MetricsPersistence.FailedCommitLosesPoints | pkg/memory/metrics_persistence.go:114-150 | a point rolled back by a failed commit is never written by a later pass |
| MetricsPersistence.InsertTimeSeriesData | pkg/memory/metrics_persistence.go:99-151 | corrected: a pass that does not commit changes nothing and is an error; a committed one appends the pass's rows, moves the watermark and trims memory to two hours |
| MetricsPersistence.RetryAfterFailedCommitWritesAll | pkg/memory/metrics_persistence.go:99-151 | with the correction, a failed pass followed by a successful one writes what one successful pass would |
| MetricsPersistence.PassRowsBetweenWatermarks | pkg/memory/metrics_persistence.go:114-142 | every row a pass writes is newer than the old watermark and no newer than the new one |
| MetricsPersistence.PromotionRowFromPoint | pkg/memory/metrics_persistence.go:115-117 | every promotion row carries the timestamp of a point of the series |
| MetricsPersistence.QueueRowFromPoint | pkg/memory/metrics_persistence.go:127-131 | every queue row carries the timestamp of a point of the series |
| MetricsPersistence.PassesDoNotOverlap | pkg/memory/metrics_persistence.go:114-142 | two successful passes never write the same point twice: the second only writes points strictly newer than the first |
| MetricsPersistence.PersistMetrics | pkg/memory/metrics_persistence.go:56-73 | the counters row takes the collector's counters when written; the time series pass is the code as written: once the transaction begins, the watermark moves to the newest point and memory is trimmed, but rows are stored only on commit; the stored series only grows at its end |
| MetricsPersistence.WriteCounters | pkg/memory/metrics_persistence.go:64-66 | a written counters row holds exactly the collector's five counters; a failed update leaves it as it was, and the series is untouched |
| MetricsPersistence.PersistMetricsFailedCommitLosesPoints | pkg/memory/metrics_persistence.go:56-73 | a persistence run whose commit fails stores no row, and leaves nothing for the next run to write, not even the points it did not store |
| MetricsPersistence.PersistMetricsCorrected | pkg/memory/metrics_persistence.go:56-73 | with the corrected pass, a committed run stores exactly the pass rows and then moves the watermark and trims memory; any other run leaves watermark, memory and series as they were |
| MetricsPersistence.LoadRecentTimeSeries | pkg/memory/metrics_persistence.go:210-278 | a failed query is an error; otherwise both series are replaced by the loaded rows split by type, labelled by category, and the watermark becomes the newest loaded timestamp |
| MetricsPersistence.ReloadThenPersistWritesNothing | pkg/memory/metrics_persistence.go:263-275 | points reloaded at start-up are not written back by the next pass |
| MetricsPersistence.CleanupOldData | pkg/memory/metrics_persistence.go:281-297 | a failed delete is an error; otherwise exactly the rows within the retention period remain, in their order and with their multiplicity, and the counters row is untouched |
| AlertTypes.MarkFired | pkg/memory/alert_engine.go:56-60 | the rule remembers the firing time and nothing else changes |
| AlertTypes.MarkedRuleCoolsDown | pkg/memory/alert_engine.go:49-60 | once fired, a rule may fire again exactly when its cooldown has elapsed |
| AlertTypes.RuleStatsOf | pkg/memory/alert_management.go:163-178 | a rule's statistics as stored, or zeros for a rule never checked |
| AlertEngine.DefaultRules | pkg/memory/alert_engine.go:180-220 | the four built-in rules in order (queue backlog, low success rate, cache anomaly, decay spike), all enabled and never fired |
| AlertEngine.NewAlertEngine | pkg/memory/alert_engine.go:146-177 | a new engine holds the built-in rules, no recent alerts, zero statistics and an empty 30-second statistics cache, with no persistence attached yet |
| AlertEngine.AddRule | pkg/memory/alert_engine.go:223-227 | the rule is appended and nothing else changes |
| AlertEngine.TruncToInt | pkg/memory/alert_engine.go:426 | Go's float-to-int conversion truncates toward zero |
| AlertEngine.QueueThreshold | pkg/memory/alert_engine.go:417-431 | the stored numeric "threshold" of the queue rule, truncated, when configurations load and hold one; the configured default when there is no store or the load fails |
| AlertEngine.MakeAlert | pkg/memory/alert_engine.go:440-450 | an alert built by a check is named "<rule>_<uuid prefix>", carries the rule and level, and is stamped now (also alert_engine.go:471-482, alert_engine.go:556-569, alert_engine.go:584-594) |
| AlertEngine.QueueBacklogCheck | pkg/memory/alert_engine.go:433-453 | a warning exactly when more entries are pending than the threshold, reporting both; a failed staging read raises nothing |
| AlertEngine.LowSuccessRateCheck | pkg/memory/alert_engine.go:459-486 | a warning exactly when there were at least ten attempts and the success percentage is below the threshold |
| AlertEngine.Known | pkg/memory/alert_engine.go:532-536 | the numbers of a history with no NaN, position by position |
| AlertEngine.Average | pkg/memory/alert_engine.go:532-536 | the mean of the history, NaN exactly when any rate is NaN |
| AlertEngine.NextHistory | pkg/memory/alert_engine.go:523-526 | the current rate is appended and the oldest dropped once the history is longer than the trend window |
| AlertEngine.NextHistoryBounded | pkg/memory/alert_engine.go:523-526 | the history never grows past the trend window and ends with the current rate |
| AlertEngine.CacheAnomalyCheck | pkg/memory/alert_engine.go:495-573 | below the minimum samples nothing happens, not even to the history; otherwise the rate joins the history and an alert is raised exactly when the rate is below a threshold or dropped more than 20 points below the window's mean, at error level exactly below the error threshold, with the drop message exactly on a drop |
| AlertEngine.SteadyRateNoDrop | pkg/memory/alert_engine.go:529-546 | a steady hit rate never counts as a sudden drop |
| AlertEngine.SumConstant | pkg/memory/alert_engine.go:532-536 | the sum of n copies of a rate is n times it |
| AlertEngine.DecaySpikeCheck | pkg/memory/alert_engine.go:578-598 | an informational alert exactly when more memories were forgotten than the threshold, reporting both |
| AlertEngine.CheckRule | pkg/memory/alert_engine.go:281 | running a rule's check changes only the cache-anomaly rule's history, and nothing of any other rule |
| AlertEngine.PushRecent | pkg/memory/alert_engine.go:303-306 | the buffer keeps the newest `max` alerts of the old buffer plus the new one, which comes last |
| AlertEngine.FireAlert | pkg/memory/alert_engine.go:295-341 | the alert is aggregated and buffered; the repository (when attached) gains it exactly when the save succeeds, which also drops the cached statistics; rules, configuration and check and fire totals are untouched |
| AlertEngine.FireAlertKeepsSync | pkg/memory/alert_engine.go:317-339 | each counted notification outcome goes both to memory and to the pending deltas, so they stay in step with the table (also alert_engine_stats_sync.go:66-73) |
| AlertEngine.FireAlertKeepsValid | pkg/memory/alert_engine.go:303-306 | firing keeps the recent-alert buffer within its bound |
| AlertEngine.Step | pkg/memory/alert_engine.go:267-290 | a disabled or cooling rule leaves the engine as it was; a due rule is checked and, on an alert, fired and marked; other rules, the configuration and the saved alerts stay; the engine-wide check total moves only in the corrected counting, by one for a due rule |
| AlertEngine.StepDue | pkg/memory/alert_engine.go:277-289 | for a rule that is enabled and out of cooldown, the step advances only that rule, which takes now as its firing time exactly when its check raises an alert; the configuration and sync are kept, saved alerts only grow, the recent list stays bounded, and the check total gains one only when checks are counted |
| AlertEngine.CheckDue | pkg/memory/alert_engine.go:277-284 | running a due rule's check yields that check's alert and changes only the statistics and that rule's check state; as written the engine-wide check total stays, corrected it gains one |
| AlertEngine.FireFor | pkg/memory/alert_engine.go:286-290 | the fired rule is marked fired now; no other rule changes, saved alerts stay and the check total is unchanged |
| AlertEngine.SweepFrom | pkg/memory/alert_engine.go:267-291 | every rule from the position on is swept exactly as the rule-by-rule description says; earlier rules are untouched; the check total is unchanged as written and grows by the number of due rules when corrected |
| AlertEngine.LaterRulesSwept | pkg/memory/alert_engine.go:259-291 | a step at one rule leaves later rules and the configuration they read as they were, so sweeping them afterwards is sweeping them from the start |
| AlertEngine.CheckAllRules | pkg/memory/alert_engine.go:258-292 | as written: each rule only advances its check state and firing time; exactly the due rules whose check raises an alert are marked fired at the sweep's time; saved alerts stay, the buffer stays bounded, and the engine-wide check total does not move |
| AlertEngine.CheckAllRulesCorrected | pkg/memory/alert_engine.go:258-292 | the same sweep with the engine-wide total counted: it grows by exactly the number of enabled rules out of their cooldown |
| AlertEngine.RecordCheckBy | pkg/memory/alert_management.go:181-205 | a rule check queues one check for the database in both countings; only the corrected one also adds it to the engine-wide total |
| AlertEngine.StepSync | pkg/memory/alert_engine.go:267-290 | one step keeps the in-memory totals equal to the persisted plus the queued ones, except that as written a due rule leaves the in-memory check total one behind |
| AlertEngine.SweepSync | pkg/memory/alert_engine.go:258-292 | after a sweep from any position the in-memory check total lags the persisted plus queued checks by the number of due rules as written, and by nothing when corrected |
| AlertEngine.SweepAsWrittenDrifts | pkg/memory/alert_engine.go:258-292 | as written, a sweep with at least one due rule breaks the agreement between in-memory and persisted totals, by exactly the number of due rules |
| AlertEngine.StepKeepsSync | pkg/memory/alert_engine.go:267-290 | with corrected counting one step keeps the in-memory totals in step with the persisted ones |
| AlertEngine.SweepKeepsSync | pkg/memory/alert_engine.go:258-292 | the corrected sweep keeps the in-memory totals in step with the persisted ones, so a later flush writes exactly what was counted |
| AlertEngine.NoRefireWithinCooldown | pkg/memory/alert_engine.go:49-60 | a rule with a positive cooldown that a sweep fired is left alone by a second sweep at the same time (also alert_engine.go:273-275) |
| AlertEngine.Reverse | pkg/memory/alert_engine.go:364-368 | the reference newest-first order has the same length |
| AlertEngine.GetRecentAlerts | pkg/memory/alert_engine.go:351-371 | the newest `limit` buffered alerts, newest first; a limit that is not positive or exceeds the buffer means all of them |
| AlertEngine.RecentAllIsReverse | pkg/memory/alert_engine.go:351-371 | asking for everything yields the whole buffer reversed |
| AlertEngine.QueryAlerts | pkg/memory/alert_engine.go:374-379 | no repository is "alert repository not initialized"; otherwise the repository's filtered page and total |
| AlertEngine.DeleteAlert | pkg/memory/alert_engine.go:382-401 | a failed repository delete is returned and changes nothing; otherwise exactly the buffered alerts with other IDs remain, in their order and with their multiplicity |
| AlertEngine.CreateAlert | pkg/memory/alert_engine.go:404-410 | a manual alert without a timestamp is stamped now, then fired like any other and is the newest buffered alert |
| AlertEngine.UpdateRuleConfigJson | pkg/memory/alert_engine_config_update.go:9-21 | no configuration store is an error; otherwise the row's JSON is replaced when the ID exists and the update succeeds; rules are untouched |
| AlertEngineDbInit.LoadRuleConfigsFromDB | pkg/memory/alert_engine_db_init.go:48-67 | a rule with a stored row takes its name, flag and cooldown; other rules are untouched; a failed load changes nothing (also alert_rule_persistence.go:185-197) |
| AlertEngineDbInit.LoadStatsFromDB | pkg/memory/alert_engine_db_init.go:70-89 | the persisted check and notification totals replace the in-memory ones, fire totals and rule statistics stay; a failed query changes nothing |
| AlertEngineDbInit.InitWithDB | pkg/memory/alert_engine_db_init.go:11-45 | no database does nothing; otherwise tables are attached and seeded, and start-up fails exactly when loading the configurations fails, in which case no sync starts and rules and totals are unchanged |
| AlertEngineDbInit.InitEstablishesSync | pkg/memory/alert_engine_db_init.go:11-45 | after a successful start-up memory equals the table with nothing pending |
| AlertEngineDbInit.InitAppliesStoredConfig | pkg/memory/alert_engine_db_init.go:22-31 | each rule with a stored row takes its flag and cooldown; a row already present wins over the seeded default (also alert_rule_persistence.go:123-182) |
| AlertEngineDbInit.FreshStartUsesSeededDefaults | pkg/memory/alert_engine_db_init.go:11-45 | against empty tables the built-in rules get cooldowns of 600, 1800, 900 and 3600 seconds (also alert_rule_persistence.go:123-182) |
| AlertEngineDbInit.SeedEmptyGivesDefaults | pkg/memory/alert_rule_persistence.go:123-182 | seeding an empty table files each built-in row under its own ID |
| AlertEngineStatsSync.NewSync | pkg/memory/alert_engine_stats_sync.go:27-33 | nothing is pending at first |
| AlertEngineStatsSync.RecordCheck | pkg/memory/alert_engine_stats_sync.go:61-63 | one more pending check |
| AlertEngineStatsSync.RecordNotifySuccess | pkg/memory/alert_engine_stats_sync.go:66-68 | one more pending notification success |
| AlertEngineStatsSync.RecordNotifyFailed | pkg/memory/alert_engine_stats_sync.go:71-73 | one more pending notification failure |
| AlertEngineStatsSync.FlushToDB | pkg/memory/alert_engine_stats_sync.go:76-102 | nothing pending is a no-op; without a table the deltas are dropped; a successful update adds exactly the deltas to the row and clears them; a failed one restores them |
| AlertEngineStatsSync.FlushConserves | pkg/memory/alert_engine_stats_sync.go:76-102 | with a table, pending plus persisted totals are the same before and after any flush |
| AlertEngineStatsSync.RecordThenFlush | pkg/memory/alert_engine_stats_sync.go:61-102 | a recorded check, flushed successfully, adds exactly one check to the table |
| AlertStatsCache.NewStatsCache | pkg/memory/alert_stats_cache.go:18-22 | a new cache holds nothing |
| AlertStatsCache.GetStats | pkg/memory/alert_stats_cache.go:25-34 | the snapshot while no more than the ttl has passed since it was stored |
| AlertStatsCache.SetStats | pkg/memory/alert_stats_cache.go:37-44 | the snapshot is stored with the current time |
| AlertStatsCache.Invalidate | pkg/memory/alert_stats_cache.go:47-53 | the snapshot is dropped |
| AlertStatsCache.NewCacheMisses | pkg/memory/alert_stats_cache.go:18-34 | a new cache misses at any time |
| AlertStatsCache.SetThenGet | pkg/memory/alert_stats_cache.go:25-44 | a stored snapshot is returned up to the ttl, the bound included, and not after |
| AlertStatsCache.InvalidateThenMiss | pkg/memory/alert_stats_cache.go:25-53 | after invalidation the next lookup misses |
| AlertStatsMethods.GetStatsWithCache | pkg/memory/alert_stats_methods.go:8-25 | a cache hit is returned as stored; a miss returns the current statistics with fresh level counts and caches them; a failed count returns the error and caches nothing; nothing but the cache changes |
| AlertStatsMethods.InvalidateStatsCache | pkg/memory/alert_stats_methods.go:28-32 | only the cached snapshot is dropped |
| AlertStatsMethods.RepeatWithinTtl | pkg/memory/alert_stats_methods.go:8-25 | within the ttl of a recomputing read a second read repeats it, even after the statistics changed: at most ttl seconds of staleness |
| AlertStatsMethods.InvalidatedReadIsFresh | pkg/memory/alert_stats_methods.go:8-32 | after invalidation the next read reports the current statistics |
| AlertStatsMethods.FiredAlertIsCounted | pkg/memory/alert_engine.go:317-325 | after a saved alert the next read recomputes, counting the new alert (also alert_stats_methods.go:8-25) |
| AlertStatsPersistence.Load | pkg/memory/alert_stats_persistence.go:20-28 | the row's totals; no row reads as zeros; a failed query is an error |
| AlertStatsPersistence.Update | pkg/memory/alert_stats_persistence.go:31-60 | zero deltas touch nothing; the deltas are added to the row, or inserted as the row when there is none; a failed statement is an error |
| AlertStatsPersistence.UpdateAddsDeltas | pkg/memory/alert_stats_persistence.go:31-60 | a successful update grows the stored totals by exactly the deltas |
| AlertRulePersistence.LoadAll | pkg/memory/alert_rule_persistence.go:34-64 | all rows by ID; a failed query is an error |
| AlertRulePersistence.Save | pkg/memory/alert_rule_persistence.go:67-84 | inserts the rule with empty name and description, or updates only flag, cooldown and JSON of an existing one; other rows are untouched |
| AlertRulePersistence.UpdateEnabled | pkg/memory/alert_rule_persistence.go:87-102 | sets one row's flag; an unknown ID is "rule not found" |
| AlertRulePersistence.UpdateCooldown | pkg/memory/alert_rule_persistence.go:105-120 | sets one row's cooldown; an unknown ID is "rule not found" |
| AlertRulePersistence.UpdateConfigJson | pkg/memory/alert_rule_config_update.go:9-24 | sets one row's JSON; an unknown ID is "rule not found" |
| AlertRulePersistence.UpdateRow | pkg/memory/alert_rule_persistence.go:87-120 | one UPDATE by ID: a failed statement is its own error, no affected row is "rule not found", and otherwise exactly that row is rewritten |
| AlertRulePersistence.UpdateEnabledThenLoad | pkg/memory/alert_rule_persistence.go:34-102 | a flag written reads back from the table, with the rest of the row as it was |
| AlertRulePersistence.Defaults | pkg/memory/alert_rule_persistence.go:124-164 | there are four built-in rows |
| AlertRulePersistence.SeedRows | pkg/memory/alert_rule_persistence.go:166-181 | rows already present are untouched, new rows come from the list under their own IDs, all are present when no statement fails, and a failure is returned |
| AlertRulePersistence.SeedDefaultConfigs | pkg/memory/alert_rule_persistence.go:123-182 | afterwards the four built-in rows are present, existing rows are untouched and a new row is exactly its default |
| AlertRulePersistence.DefaultCooldowns | pkg/memory/alert_rule_persistence.go:124-164 | the built-in cooldowns are 600, 1800, 900 and 3600 seconds |
| AlertRulePersistence.ApplyConfigToRule | pkg/memory/alert_rule_persistence.go:185-197 | a stored row sets name, description, flag and cooldown in seconds; none leaves the rule alone; the ID, check and firing state never change |
| AlertRulePersistence.SerializeRuleConfig | pkg/memory/alert_rule_persistence.go:200-206 | the JSON text, or "{}" when marshalling fails |
| AlertManagement.FindRule | pkg/memory/alert_management.go:77-81 | the position of the first rule with the ID, where the Go loops stop; none exactly when no rule has it (also alert_management.go:90-91, alert_management.go:114-115) |
| AlertManagement.GetRuleByID | pkg/memory/alert_management.go:73-83 | a rule with the ID from the engine, or nothing exactly when there is none |
| AlertManagement.GetAllRules | pkg/memory/alert_management.go:30-70 | nothing when the configurations cannot be loaded; otherwise one entry per stored row with its name, flag, cooldown and JSON, and the rule's statistics when the engine has the rule, zeros otherwise |
| AlertManagement.GetAllRulesListsEachOnce | pkg/memory/alert_management.go:30-70 | every stored rule is listed, and listed once |
| AlertManagement.ToggleRule | pkg/memory/alert_management.go:86-107 | an unknown ID is "rule not found" and changes nothing; otherwise exactly the first matching rule takes the flag, and a failed store is only logged |
| AlertManagement.ToggleThenGet | pkg/memory/alert_management.go:73-107 | a toggled rule reads back with the new flag, and the stored row agrees when the store succeeded |
| AlertManagement.UpdateRuleCooldown | pkg/memory/alert_management.go:110-132 | an unknown ID is "rule not found" and changes nothing; otherwise the first matching rule takes the cooldown and the stored row takes it in seconds when the store succeeds |
| AlertManagement.Half | pkg/memory/alert_management.go:198 | Go's signed division by two truncates toward zero |
| AlertManagement.NextAvgBetween | pkg/memory/alert_management.go:194-199 | for non-negative durations the running average stays between the old average and the new sample |
| AlertManagement.CheckedRuleStats | pkg/memory/alert_management.go:185-199 | one more check for the rule, its first duration taken as the average; firings untouched |
| AlertManagement.RecordRuleCheckAsWritten | pkg/memory/alert_management.go:181-205 | as written the check is counted for the rule and in the pending deltas, but not in the engine's TotalChecks |
| AlertManagement.RecordRuleCheck | pkg/memory/alert_management.go:181-205 | corrected: the check is also counted in TotalChecks; the pending deltas gain one check (also alert_engine.go:264-265) |
| AlertManagement.RecordRuleFire | pkg/memory/alert_management.go:208-224 | one more firing for the rule and for the engine, stamped now; other rules and other totals untouched |
| AlertManagement.RecordNotifyResult | pkg/memory/alert_management.go:227-242 | one more success or failure, in memory and in the pending deltas |
| AlertManagement.RecordRuleCheckKeepsSync | pkg/memory/alert_management.go:181-205 | with the correction, memory stays equal to persisted plus pending after a check (also alert_engine_db_init.go:80-85) |
| AlertManagement.RecordRuleCheckAsWrittenDrifts | pkg/memory/alert_management.go:181-205 | as written, every check opens a gap of one between the in-memory total and persisted plus pending (also alert_engine_db_init.go:80-85) |
| AlertManagement.RecordNotifyResultKeepsSync | pkg/memory/alert_management.go:227-242 | a notification outcome keeps memory equal to persisted plus pending |
| AlertManagement.FlushKeepsSync | pkg/memory/alert_engine_stats_sync.go:76-102 | a flush, successful or not, keeps memory equal to persisted plus pending |
| AlertManagement.Trunc | pkg/memory/alert_management.go:258 | truncating to the hour gives the whole hour at or before the time (also alert_management.go:287) |
| AlertManagement.MakeBuckets | pkg/memory/alert_management.go:261-273 | hours + 1 buckets keyed by the consecutive hours from the start, all counts zero |
| AlertManagement.TallySnoc | pkg/memory/alert_management.go:276-291 | one more alert adds one to exactly the count it matches |
| AlertManagement.CountIntoBuckets | pkg/memory/alert_management.go:276-291 | after the loop every bucket holds, per level, the number of alerts inside [start, now] in its hour; no bucket is added |
| AlertManagement.TrendOf | pkg/memory/alert_management.go:294-303 | the three count arrays follow the bucket keys in order |
| AlertManagement.TrendCounts | pkg/memory/alert_management.go:261-303 | the counted buckets give a trend whose every hour holds the reference counts |
| AlertManagement.GetAlertTrend | pkg/memory/alert_management.go:245-311 | no repository or a failed query is an error; otherwise one entry per hour from the truncated start to now, each holding the numbers of error, warning and info alerts of that hour among the alerts read |
| AlertManagement.TruncStep | pkg/memory/alert_management.go:258-265 | moving back an hour moves the truncated hour back by exactly one hour |
| AlertManagement.TruncShift | pkg/memory/alert_management.go:258-265 | shifting by whole hours commutes with truncation |
| AlertManagement.WindowAlertHasBucket | pkg/memory/alert_management.go:258-290 | every alert inside the window falls into one of the hours + 1 buckets, so none is lost for want of a bucket |
| AlertManagement.GetAlertsByLevel | pkg/memory/alert_management.go:314-336 | no repository is an error; otherwise each of the three levels maps to the number of stored alerts of that level, 0 when its count fails |
| AlertManagement.LevelCountIsLevelMembers | pkg/memory/alert_management.go:326-332 | the alerts a level counts are exactly the stored alerts of that level (also alert_repository.go:126-146) |
| AlertManagement.AggregateAlert | pkg/memory/alert_management.go:353-380 | a first alert of its rule and level opens an entry with count 1; a repeat bumps the count, moves lastSeen and takes the latest message, keeping firstSeen |
| AlertManagement.AggregateCounts | pkg/memory/alert_management.go:353-380 | starting empty, a rule-and-level key has an entry exactly when some alert has it, and its count is the number of such alerts |
| AlertManagement.CleanOldAggregations | pkg/memory/alert_management.go:383-393 | exactly the entries seen within the last hour remain, unchanged |
| AlertManagement.CleanMonotone | pkg/memory/alert_management.go:383-393 | cleaning later keeps no more than cleaning earlier, and cleaning twice is cleaning once |
| AlertManagement.GetAggregatedAlerts | pkg/memory/alert_management.go:396-412 | a copy of every entry, each once |
| AlertNotifier.Notify | pkg/memory/alert_notifier.go:49-63 | a level not enabled is not notified at all; otherwise the webhook is used exactly when enabled with a URL, and e-mail exactly when enabled with a recipient |
| AlertNotifier.ChannelsIndependent | pkg/memory/alert_notifier.go:55-62 | turning one channel off never changes whether the other is used |
| AlertNotifier.LinesListEveryKey | pkg/memory/alert_notifier.go:110-112 | every listed metadata key has its line in the listing (also alert_notifier.go:237-239) |
| AlertNotifier.SectionListsMetadata | pkg/memory/alert_notifier.go:107-113 | the details section is empty exactly when there is no metadata, and otherwise lists every entry (also alert_notifier.go:234-240) |
| AlertNotifier.Emoji | pkg/memory/alert_notifier.go:101-122 | red for errors, yellow for warnings, blue for info, nothing for any other level |
| AlertNotifier.FormatMarkdown | pkg/memory/alert_notifier.go:100-129 | the Markdown message opens with the level, rule, message and time lines |
| AlertNotifier.MarkdownShowsMetadata | pkg/memory/alert_notifier.go:100-129 | the message ends at the time exactly when the alert has no metadata, and otherwise lists every entry as "- key: value" |
| AlertNotifier.WebhookPayloadFor | pkg/memory/alert_notifier.go:68-73 | the webhook posts a "markdown" message whose content is the Markdown text |
| AlertNotifier.SendWebhook | pkg/memory/alert_notifier.go:85-96 | a delivery succeeds exactly on a 2xx status; a failed POST and any other status are told apart |
| AlertNotifier.FormatEmailBody | pkg/memory/alert_notifier.go:233-257 | the e-mail body always ends with the do-not-reply footer |
| AlertNotifier.EmailBodyShowsMetadata | pkg/memory/alert_notifier.go:233-257 | every metadata entry appears in the body as an indented "key: value" line |
| AlertNotifier.EmailMessage | pkg/memory/alert_notifier.go:137-148 | the message starts with the From header and ends with a blank line and the body |
| AlertNotifier.EveryRecipientAddressed | pkg/memory/alert_notifier.go:139-145 | every recipient is named in the To header |
| AlertNotifier.SmtpAddrRoundTrip | pkg/memory/alert_notifier.go:158 | host and port can be read back from the "host:port" address |
| AlertNotifier.RcptSteps | pkg/memory/alert_notifier.go:208-212 | one RCPT per recipient, in order |
| AlertNotifier.SmtpSteps | pkg/memory/alert_notifier.go:184-229 | the conversation has eight fixed steps plus one per recipient |
| AlertNotifier.SendMailTls | pkg/memory/alert_notifier.go:178-230 | the steps run in order until the first failing one, which ends the conversation with its error; with no failure all of them run |
| AlertNotifier.MessageOnlyAfterAllRecipients | pkg/memory/alert_notifier.go:204-222 | the message is written only after every recipient has been accepted |
| AlertRepository.FilterConds | pkg/memory/alert_repository.go:81-90 | at most two filters, one per non-empty level or rule |
| AlertRepository.ParamsAppend | pkg/memory/alert_repository.go:77-92 | placeholders of joined SQL add up |
| AlertRepository.ParamsSingle | pkg/memory/alert_repository.go:82-88 | a piece holds a placeholder exactly when it is one |
| AlertRepository.WhereArgs | pkg/memory/alert_repository.go:84-89 | one argument per filter, in filter order |
| AlertRepository.FilterMeansMatch | pkg/memory/alert_repository.go:77-90 | the assembled filters select exactly the alerts of the level and rule asked for, an empty one matching all |
| AlertRepository.WherePlaceholders | pkg/memory/alert_repository.go:81-90 | each filter contributes exactly one placeholder |
| AlertRepository.FilteredStatements | pkg/memory/alert_repository.go:76-104 | the arguments are the level then the rule, each only when non-empty, and the data query adds limit and offset; both statements share the same WHERE text after their own head, the data query ends with ordering and paging, and each has one placeholder per argument |
| AlertRepository.PlaceholdersMatchArgs | pkg/memory/alert_repository.go:76-105 | for any filter conditions, the count statement and the paged data statement have exactly as many placeholders as arguments |
| AlertRepository.FilterArgs | pkg/memory/alert_repository.go:81-90 | the filter arguments are the level then the rule, each present exactly when non-empty |
| AlertRepository.CountStatement | pkg/memory/alert_repository.go:131-141 | Count sends the same filtered statement as QueryFiltered's count |
| AlertRepository.Selected | pkg/memory/alert_repository.go:77-90 | exactly the stored alerts that match the filters |
| AlertRepository.NewestFirst | pkg/memory/alert_repository.go:60 | a permutation of the table ordered by descending timestamp (also alert_repository.go:92) |
| AlertRepository.Save | pkg/memory/alert_repository.go:36-51 | a nil database is "database not initialized"; a successful insert appends the alert |
| AlertRepository.QueryRecent | pkg/memory/alert_repository.go:54-68 | the `limit` newest stored alerts, newest first: drawn from the stored ones without repetition, and no stored alert left out is newer than one returned |
| AlertRepository.NewestTake | pkg/memory/alert_repository.go:59-61 | `ORDER BY timestamp DESC LIMIT n` picks stored alerts without repetition, and no alert left out is newer than one picked |
| AlertRepository.QueryFiltered | pkg/memory/alert_repository.go:71-113 | the total of matching alerts and the page of them newest first after skipping `offset`, at most `limit` long; a nil database, a failed statement or a negative limit or offset is an error |
| AlertRepository.Delete | pkg/memory/alert_repository.go:116-123 | exactly the alerts with other IDs remain, in their order and with their multiplicity |
| AlertRepository.Count | pkg/memory/alert_repository.go:126-146 | the number of stored alerts matching the filters |
| AlertRepository.CountAgreesWithQuery | pkg/memory/alert_repository.go:71-146 | Count agrees with the total QueryFiltered reports for the same filters |
| BatchOptimize.DecodeAllComplete | pkg/memory/batch_optimize.go:106-113 | every list item that decodes contributes its record to the decoded batch: nothing decodable is dropped |
| Funnel.NoCacheAsksForAll | pkg/memory/funnel.go:85-119 | with an empty judge cache every content of the batch is sent to the LLM, and the LLM's verdicts are the batch's verdicts in order |
| Funnel.NoMisses | pkg/memory/funnel.go:86-94 | when the cache answers for every record, no content is left for the LLM |
| Funnel.FromPairsLookup | pkg/memory/funnel.go:284-310 | a key of the metadata literal that is not listed again later maps to the value written with it |
| Funnel.TokenStopsAtSpace | pkg/memory/funnel.go:467 | the run a `%s` verb reads ends at the input's end or at a white-space character |
| Judge.ContentListAppend | pkg/memory/judge.go:78-81 | adding one more content adds exactly one block, numbered one past the blocks before it |
| ListStore.ScanPrefixIsUpToStar | pkg/store/in_memory_list.go:100-116 | dropping a trailing '*' and then cutting at the first '*' leaves the text before the pattern's first '*' |
| ListStore.UpToStarDropLast | pkg/store/in_memory_list.go:101-104 | removing a trailing '*' does not change the prefix before the first '*' |
| ListStore.FilterNoDup | pkg/store/in_memory_list.go:118-122 | keeping the matching names of a duplicate-free key list yields no duplicates |
| ListStore.FindAfterWrite | pkg/store/in_memory_list.go:127-145 | after the found item is overwritten by the record's own encoding, the search for its ID stops at the same list and position |
| LtmDedup.SweepCounts | pkg/memory/ltm_dedup.go:38-53 | `processed` grows by one for each pair a merge strategy was decided for, and by nothing else |
| LtmDedup.NoCandidateNoChange | pkg/memory/ltm_dedup.go:29-34 | when no two records of a page belong to the same user, the page sweep changes nothing |
| Manager.ColonIndexAfter | pkg/memory/manager.go:99 | for a user ID without ':', the first ':' after the key prefix is the one the format puts after the user |
| Manager.UpToStarOf | pkg/memory/manager.go:277-280 | the store's prefix for the user-scoped pattern is exactly the text before the user's '*' |
| VectorStore.ZeroNorm | pkg/store/in_memory.go:190-198 | an all-zero vector has zero squared norm, so the zero-norm guard catches it |
| Types.MetaString | pkg/types/types.go:40 | a metadata value reads as a string exactly when the key is present with a string value, and then it is that value |
| Text.TrimPrefix | pkg/memory/judge.go:58-59 | the result is what follows the prefix when the text starts with it, and the text itself otherwise |
| Text.TrimSuffix | pkg/memory/judge.go:60 | the result is what precedes the suffix when the text ends with it, and the text itself otherwise |
| Text.TrimSpaceIdempotent | pkg/memory/judge.go:57-61 | trimming white space twice gives the same text as trimming once |
| Text.EncodeChar | pkg/memory/funnel.go:186 | a character takes 1, 2, 3 or 4 bytes in UTF-8 by its code-point range, as Go stores strings |
| Text.EncodeCharRoundTrip | pkg/memory/funnel.go:186 | decoding a character's UTF-8 bytes gives back its code point; continuation bytes lie in 0x80-0xBF and a multi-byte lead is at least 0xC0 |
| Text.Utf8 | pkg/memory/funnel.go:186 | a string has at least as many bytes as characters and at most four times as many |
| Text.Utf8Append | pkg/memory/funnel.go:186 | the encoding of a concatenation is the concatenation of the encodings |
| Text.Utf8Ascii | pkg/memory/funnel.go:186 | an ASCII string has one byte per character, equal to its code |
| Text.Utf8ThreeBytes | pkg/memory/funnel.go:186 | a string of characters from U+0800 to U+FFFF has three bytes per character |

## Left out

- Database, Redis, HTTP and SMTP transport: each statement or request is reduced to a success flag or an answer passed in, except the staging store's Redis, which is taken to succeed (see StagingStore.AddOrIncrement below). Connection handling, `sql.Rows` iteration and driver errors other than "failed" are not modelled.
- Goroutines, tickers, `Start`/`Stop`, mutexes and channels: each background loop is modelled as one tick, and locking as atomic steps. The notifier's buffered channel is modelled as a send that either goes through or is dropped.
- Logging (`logger.*`) and `log.Printf`: no effect on state, so absent.
- Go's float32/float64 rounding: scores and rates are exact reals. `exp` (decay) and the `sqrt` quotient of cosine similarity are parameters, so properties that need their numeric values are out of reach.
- UUID generation: a parameter function `freshId` from the staging entry's ID to the new memory's ID.
- `Summarize` (marked deprecated): not modelled.
- `startBackgroundTasks`: the goroutines and their tickers are not modelled; each ticker loop is modelled as one tick. The promotion loop's period is Funnel.PromotionIntervalHours and each of its ticks is Funnel.PromoteStagingToLtm, the corrected pass: as written a tick panics on a short medium-confidence entry (see Findings); a tick of the STM autosave loop is Funnel.AutosaveTick.
- The judge-cache path of `JudgeAndStageFromSTM`: `Manager` has no `monitor` field, so the cache is a read-only oracle during one run. Cache writes made by the run are modelled separately in `Monitor`.
- `SetNotifyFunc` and the callbacks wired through it: the notifier is invoked directly.
- SMTP authentication and the choice between the TLS and plain paths of `sendEmail`: one send step with a success flag.
- `CacheHitRateThreshold` in the alert configuration is never read by the code, so it is not modelled.
- A negative history size in the metrics collector: the Go slice expression would panic. The model requires a non-negative size.
- Go's `sort.Slice` is not stable. `Seqs.SortDesc` is a stable sort, so the model fixes one order among records with equal keys; the contracts state only sortedness and permutation.
- Per-row `Exec` errors inside `insertTimeSeriesData` are only logged by the code. The model writes every row once the transaction began.
- A negative `LIMIT` in `QueryRecent` is modelled as a failed query, as MySQL rejects it.
- `GetAllRules` dereferences `configPersistence` without a nil check. The model takes the loaded configurations as a `Result`.
- Funnel.AutosaveTick: a failing judge call is not modelled. In the code a failure leaves the user unmarked, so another of their sessions may be judged in the same tick; the model marks every judged user.
- VectorStore.Cosine: for non-degenerate vectors the value is the abstract `ratio` of the dot product and the squared norms; the bound `-1 <= r <= 1` is not stated.
- Decay.CalculateDecayScore: the `exp(-days/half-life)` term is a parameter function, so the contract bounds the score through the value that function returns, not through the formula itself.
- The cache-anomaly rule: when the total is zero the Go rate is NaN and no comparison fires; the model represents that rate as `None`.
- `JudgeBatch` with no contents returns `nil, nil` in Go; the model returns `Ok([])`, which callers treat the same way.
- Funnel.JudgeAndStageFromStm: requires a positive `STMBatchJudgeSize`. `config.go:110` turns an unparsable `STM_BATCH_JUDGE_SIZE` into 0 without an error; with 0 the loop at `funnel.go:74` never advances `i` and spins forever on the first empty batch, and a negative size makes `toJudge[i:end]` panic. Neither outcome is modelled.
- Funnel.BatchesNeverRejudge: requires a positive batch size, for the reason given for Funnel.JudgeAndStageFromStm.
- Funnel.AllJudgedIsNoop: requires a positive batch size, for the reason given for Funnel.JudgeAndStageFromStm.
- Funnel.AutosaveTick: requires a positive batch size, because each judged session runs Funnel.JudgeAndStageFromStm.
- BatchOptimize.CachedStagings: requires a positive batch size; `batch_optimize.go:95` reads the same setting and loops forever at 0 in the same way as `funnel.go:74`.
- BatchOptimize.JudgeAndStageFromStmCached: requires a positive batch size, for the reason given for BatchOptimize.CachedStagings.
- BatchOptimize.CachedIgnoresJudgedSet: requires a positive batch size, for the reason given for BatchOptimize.CachedStagings.
- Prompts.GetSummarizePrompt: requires every '%' of the template to start a "%s" or "%%" verb. A custom template with any other verb, flag or width ("%d", "%v", "%5s", a trailing '%') is formatted by Go's `fmt` rules, which are not modelled.
- Prompts.GetExtractProfilePrompt: the same restriction on the template as Prompts.GetSummarizePrompt.
- MetricsCollector.MaxDbTime: the fold starts from 0 where Go starts from the zero `time.Time`. The two agree because clock values are taken to be positive (seconds after the epoch), so a persisted point at or before 0 is not modelled.
- Funnel.Snippet: the intended snippet counts characters. It agrees with the bytes of `Content[:50]` only for ASCII content; for other content the byte slice can end inside a character, and the model does not relate the two.
- Seqs.Enumerates: a key order is taken to list every key of the store exactly once. Redis `SCAN` may return a key more than once across cursor pages, so `GetPendingEntries`, `GetAllByUser` and `PromoteStagingToLTM` could see one entry twice; StagingStore.GetPendingEntries, StagingApi.AllPending and Funnel.PromoteStagingToLtm do not model that repetition.
- Funnel.ApplyVerdicts: a verdict is always a value. `funnel.go:123-125` skips a `nil` verdict (a JSON `null` element in the judge's answer), leaving that record unjudged and in the session list; the batch parser of the model cannot yield `null`, so Funnel.ApplyVerdicts and Funnel.JudgeOneBatch claim every record of a judged batch is retired. `batch_optimize.go:127` would dereference such a `nil` verdict and panic; that is not modelled either.
- Redis key expiry: staging entries expire 30 days after their last write (`staging_store.go:25`, set at lines 70, 146 and 317 with the value from `manager.go:46`), session lists expire through `RPushWithExpire` (`manager.go:100`) and the judged set through `funnel.go:155-159`. The model has no clock on keys, so nothing expires; in particular a medium-confidence entry waits for review until someone acts on it.
- StagingStore.AddOrIncrement: the staging store's Redis is taken to succeed. The `Exists`, `Get`, JSON decode and `Set` failures of `staging_store.go:79-96` and `141-148`, on which nothing is written and an error is returned, are not modelled, so every call writes exactly one key.
- StagingStore.AddByHash: the same Redis failures as StagingStore.AddOrIncrement are not modelled.

## Findings

| source | as written | input that shows it | evidently intended | confidence | as-written member | corrected member |
|---|---|---|---|---|---|---|
| pkg/memory/funnel.go:186 | logs `entry.Content[:50]`, a slice of the first 50 bytes, for a medium-confidence staging entry | an entry with content "likes tea" (9 bytes) and confidence 0.6, thresholds 0.5 and 0.8: the slice is out of range and the promotion pass panics | log at most the first 50 characters | not executed | Funnel.SnippetAsWritten, Funnel.RouteAsWritten, Funnel.ShortReviewEntryPanics | Funnel.Snippet, Funnel.RouteOf, Funnel.PromoteStagingToLtm |
| pkg/memory/funnel.go:360 | logs `record.Content[:50]`, the first 50 bytes, for every evicted long-term memory | an evicted memory whose content is "hi" (2 bytes): the scan panics | log at most the first 50 characters | not executed | Funnel.EvictionLogAsWritten, Funnel.ShortEvictedRecordPanics | Funnel.Snippet, Funnel.EvictionLog, Funnel.ScanAndEvict |
| pkg/memory/funnel.go:467 | `fmt.Sscanf(key, "memory:stm:%s:%s", &userID, &sessionID)` and a test for `n == 2` | the key "memory:stm:u1:s1": `%s` reads "u1:s1" up to the end, so `n` is at most 1 and no session is ever auto-judged | split the key at the ':' after the user ID | not executed | Funnel.ScanStmKeyAsWritten, Funnel.ScanNeverFillsBoth, Funnel.AutosaveSessionsAsWritten | Funnel.ParseStmKey, Funnel.AutosaveTick |
| pkg/memory/metrics_persistence.go:114-150 | advances the persisted-time watermark and trims the in-memory points before `tx.Commit` | a batch whose commit fails: the points are dropped from memory and the watermark says they were written, so no later call writes them | move the watermark and trim only after a successful commit | not executed | MetricsPersistence.InsertTimeSeriesDataAsWritten, MetricsPersistence.FailedCommitLosesPoints, MetricsPersistence.PersistMetrics, MetricsPersistence.PersistMetricsFailedCommitLosesPoints | MetricsPersistence.InsertTimeSeriesData, MetricsPersistence.RetryAfterFailedCommitWritesAll, MetricsPersistence.PersistMetricsCorrected |
| pkg/memory/alert_management.go:181-205 | `recordRuleCheck` updates the rule's counters only, although the comment at alert_engine.go:264-265 says the engine-wide `TotalChecks` is counted there | one rule check on fresh stats: the rule's `TotalChecks` is 1 and the engine's stays 0 | increment the engine-wide total with the rule's | not executed | AlertManagement.RecordRuleCheckAsWritten, AlertManagement.RecordRuleCheckAsWrittenDrifts, AlertEngine.CheckAllRules, AlertEngine.SweepAsWrittenDrifts | AlertManagement.RecordRuleCheck, AlertManagement.RecordRuleCheckKeepsSync, AlertEngine.CheckAllRulesCorrected, AlertEngine.SweepKeepsSync |
