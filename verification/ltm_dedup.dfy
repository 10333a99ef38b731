/**
 * The weekly deduplication of long-term memory: pages of 1000 records,
 * every pair of one page compared, and the LLM's merge strategy carried out
 * for near-identical memories of the same user.
 *
 * The page is a snapshot. Go copies a record struct out of it for each pair
 * but the copy shares the metadata map, so the access count and decay score
 * written for one pair are seen by later pairs, while a merged content or
 * embedding is not.
 */
module LtmDedup {
  import opened Wrappers
  import opened Types
  import Seqs
  import VectorStore
  import Funnel

  const PageSize: nat := 1000
  const SimilarityThreshold: real := 0.95

  /** `rec.Metadata["access_count"].(int)`: a missing or non-int count reads as 0. */
  function AccessCount(m: Metadata): (n: int)
    ensures "access_count" in m && m["access_count"].VInt? ==> n == m["access_count"].n
    ensures !("access_count" in m && m["access_count"].VInt?) ==> n == 0
  {
    if "access_count" in m && m["access_count"].VInt? then m["access_count"].n else 0
  }

  /** The survivor's metadata: the summed count and a fresh decay score. */
  function Survivor(m: Metadata, total: int): (r: Metadata)
    ensures "access_count" in r && r["access_count"] == VInt(total)
    ensures "decay_score" in r && r["decay_score"] == VReal(1.0)
    ensures OnlyCountsChanged(m, r)
  {
    m["access_count" := VInt(total)]["decay_score" := VReal(1.0)]
  }

  /** Every key other than the access count and the decay score is as it was. */
  ghost predicate OnlyCountsChanged(a: Metadata, b: Metadata)
  {
    forall k :: k != "access_count" && k != "decay_score" ==> (k in a <==> k in b) && (k in a ==> a[k] == b[k])
  }

  /** The store after a pair is handled, and the two records' metadata as the page now sees it. */
  datatype Outcome = Outcome(ltm: seq<Record>, meta1: Metadata, meta2: Metadata)

  /** Update one record, delete the other (errors of either are only logged). */
  function Rewrite(ltm: seq<Record>, keep: Record, drop: string): (r: seq<Record>)
    ensures |r| <= |ltm| && VectorStore.IdsFrom(r, ltm)
    ensures forall i :: 0 <= i < |r| ==> r[i].id != drop
  {
    var updated := Funnel.UpdateLtm(ltm, keep);
    assert |updated| == |ltm| && VectorStore.IdsFrom(updated, ltm) by {
      UpdateKeepsIds(ltm, keep);
      forall x | x in VectorStore.Ids(updated)
        ensures x in VectorStore.Ids(ltm)
      {
        var rec :| rec in updated && rec.id == x;
        var i :| 0 <= i < |updated| && updated[i] == rec;
        assert ltm[i] in ltm;
      }
    }
    VectorStore.Delete(updated, [drop])
  }

  /** An update rewrites a record in place, under the same ID. */
  lemma UpdateKeepsIds(ltm: seq<Record>, keep: Record)
    ensures var updated := Funnel.UpdateLtm(ltm, keep);
      |updated| == |ltm| && forall i :: 0 <= i < |updated| ==> updated[i].id == ltm[i].id
  {
  }

  /**
   * executeMergeStrategy. Only a failed embedding of the merged text is an
   * error; an unknown strategy, like "keep_both", does nothing.
   */
  function ExecuteMergeStrategy(ltm: seq<Record>, rec1: Record, rec2: Record, strategy: string, merged: string,
                                embed: string -> Option<Vector>): (r: Result<Outcome>)
    ensures r.Err? <==> strategy == "merge" && embed(merged).None?
    ensures strategy !in {"keep_newer", "keep_higher_access", "update_existing", "merge"} ==>
      r == Ok(Outcome(ltm, rec1.metadata, rec2.metadata))
    ensures r.Ok? ==> |r.value.ltm| <= |ltm| && VectorStore.IdsFrom(r.value.ltm, ltm)
    ensures r.Ok? ==> OnlyCountsChanged(rec1.metadata, r.value.meta1) && OnlyCountsChanged(rec2.metadata, r.value.meta2)
  {
    var count1 := AccessCount(rec1.metadata);
    var count2 := AccessCount(rec2.metadata);
    if strategy == "keep_newer" then
      var loser := if rec1.timestamp > rec2.timestamp then rec2.id else rec1.id;
      var l := VectorStore.Delete(ltm, [loser]);
      Ok(Outcome(l, rec1.metadata, rec2.metadata))
    else if strategy == "keep_higher_access" || strategy == "update_existing" then
      if count1 >= count2 then
        var m1 := Survivor(rec1.metadata, count1 + count2);
        Ok(Outcome(Rewrite(ltm, rec1.(metadata := m1), rec2.id), m1, rec2.metadata))
      else
        var m2 := Survivor(rec2.metadata, count1 + count2);
        Ok(Outcome(Rewrite(ltm, rec2.(metadata := m2), rec1.id), rec1.metadata, m2))
    else if strategy == "merge" then
      match embed(merged)
      case None => Err("embedding failed")
      case Some(v) =>
        var m1 := Survivor(rec1.metadata, count1 + count2);
        Ok(Outcome(Rewrite(ltm, rec1.(content := merged, embedding := Some(v), metadata := m1), rec2.id), m1, rec2.metadata))
    else Ok(Outcome(ltm, rec1.metadata, rec2.metadata))
  }

  /** keep_newer removes the older record of the pair; on equal timestamps rec1 goes. */
  lemma KeepNewerRemovesOlder(ltm: seq<Record>, rec1: Record, rec2: Record, merged: string, embed: string -> Option<Vector>)
    requires rec1.id != rec2.id
    ensures var r := ExecuteMergeStrategy(ltm, rec1, rec2, "keep_newer", merged, embed);
      var (older, newer) := if rec1.timestamp > rec2.timestamp then (rec2, rec1) else (rec1, rec2);
      r.Ok? && (forall i :: 0 <= i < |r.value.ltm| ==> r.value.ltm[i].id != older.id)
      && (forall i :: 0 <= i < |ltm| && ltm[i].id != older.id ==> ltm[i] in r.value.ltm)
  {
  }

  /**
   * keep_higher_access, update_existing and merge conserve the pair's
   * accesses: the survivor (rec1 on a tie, always rec1 for merge) carries
   * both counts and a full decay score, and the other record is gone.
   */
  lemma CountsConserved(ltm: seq<Record>, rec1: Record, rec2: Record, strategy: string, merged: string,
                        embed: string -> Option<Vector>)
    requires strategy in {"keep_higher_access", "update_existing", "merge"}
    ensures var r := ExecuteMergeStrategy(ltm, rec1, rec2, strategy, merged, embed);
      var total := AccessCount(rec1.metadata) + AccessCount(rec2.metadata);
      var rec1Survives := strategy == "merge" || AccessCount(rec1.metadata) >= AccessCount(rec2.metadata);
      r.Ok? ==>
        (rec1Survives ==>
           AccessCount(r.value.meta1) == total && r.value.meta1["decay_score"] == VReal(1.0)
           && r.value.meta2 == rec2.metadata
           && forall i :: 0 <= i < |r.value.ltm| ==> r.value.ltm[i].id != rec2.id)
        && (!rec1Survives ==>
              AccessCount(r.value.meta2) == total && r.value.meta2["decay_score"] == VReal(1.0)
              && r.value.meta1 == rec1.metadata
              && forall i :: 0 <= i < |r.value.ltm| ==> r.value.ltm[i].id != rec1.id)
  {
  }

  /** A successful merge rewrites rec1 with the merged text and its new embedding. */
  lemma {:induction false} MergeRewritesFirst(ltm: seq<Record>, rec1: Record, rec2: Record, merged: string, embed: string -> Option<Vector>)
    requires embed(merged).Some?
    requires exists i :: 0 <= i < |ltm| && ltm[i].id == rec1.id
    requires rec1.id != rec2.id
    ensures var r := ExecuteMergeStrategy(ltm, rec1, rec2, "merge", merged, embed);
      r.Ok?
      && exists i :: 0 <= i < |r.value.ltm| && r.value.ltm[i].id == rec1.id
           && r.value.ltm[i].content == merged && r.value.ltm[i].embedding == embed(merged)
  {
    var m1 := Survivor(rec1.metadata, AccessCount(rec1.metadata) + AccessCount(rec2.metadata));
    var keep := rec1.(content := merged, embedding := embed(merged), metadata := m1);
    var up := VectorStore.Update(ltm, keep);
    var i :| 0 <= i < |up.value| && ltm[i].id == rec1.id && up.value == ltm[i := keep] && (forall j :: 0 <= j < i ==> ltm[j].id != rec1.id);
    assert up.value[i] == keep;
    var del := VectorStore.Delete(up.value, [rec2.id]);
    assert keep in del;
    var k :| 0 <= k < |del| && del[k] == keep;
  }

  // ----- the pair sweep over one page -----

  /** Both records carry a string user_id and the two are equal. */
  predicate SameUser(a: Record, b: Record)
  {
    MetaString(a.metadata, "user_id").Some? && MetaString(a.metadata, "user_id") == MetaString(b.metadata, "user_id")
  }

  /** The deduplication's cosineSimilarity; a nil embedding is an empty vector. */
  function Similarity(a: Record, b: Record, ratio: (real, real, real) -> real): (r: real)
    ensures a.embedding.None? || b.embedding.None? ==> r == 0.0
    ensures |a.embedding.UnwrapOr([])| != |b.embedding.UnwrapOr([])| ==> r == 0.0
    ensures VectorStore.AllZero(a.embedding.UnwrapOr([])) || VectorStore.AllZero(b.embedding.UnwrapOr([])) ==> r == 0.0
  {
    VectorStore.CosineWithEmptyGuard(a.embedding.UnwrapOr([]), b.embedding.UnwrapOr([]), ratio)
  }

  /** A pair that reaches executeMergeStrategy: same user, similar above 0.95, and the LLM answered. */
  predicate Candidate(page: seq<Record>, i: nat, j: nat, o: Funnel.Oracles)
    requires i < |page| && j < |page|
  {
    SameUser(page[i], page[j])
    && Similarity(page[i], page[j], o.ratio) > SimilarityThreshold
    && o.decideMerge(page[i].content, page[j].content).Some?
  }

  /** What the sweep reads of a page record never changes while the page is swept. */
  predicate SameFaces(a: seq<Record>, b: seq<Record>)
  {
    |a| == |b|
    && forall k :: 0 <= k < |a| ==>
         a[k].id == b[k].id && a[k].content == b[k].content && a[k].embedding == b[k].embedding
         && MetaString(a[k].metadata, "user_id") == MetaString(b[k].metadata, "user_id")
  }

  lemma CandidateStable(a: seq<Record>, b: seq<Record>, i: nat, j: nat, o: Funnel.Oracles)
    requires SameFaces(a, b) && i < |a| && j < |a|
    ensures Candidate(a, i, j, o) == Candidate(b, i, j, o)
  {
    assert a[i].embedding == b[i].embedding && a[j].embedding == b[j].embedding;
  }

  /** The sweep's state: the store, the page, the counters and the pairs that were handled. */
  datatype Sweep = Sweep(ltm: seq<Record>, page: seq<Record>, processed: nat, merged: nat, acted: seq<(nat, nat)>)

  /** One pair (i, j) of the page. */
  function ComparePair(s: Sweep, i: nat, j: nat, o: Funnel.Oracles): (r: Sweep)
    requires i < j < |s.page|
    ensures SameFaces(s.page, r.page)
    ensures |r.ltm| <= |s.ltm| && VectorStore.IdsFrom(r.ltm, s.ltm)
    ensures Candidate(s.page, i, j, o) ==> r.acted == s.acted + [(i, j)] && r.processed == s.processed + 1
    ensures !Candidate(s.page, i, j, o) ==> r == s
    ensures r.processed - s.processed == |r.acted| - |s.acted|
    ensures r.merged - s.merged <= r.processed - s.processed && r.merged >= s.merged
  {
    if !Candidate(s.page, i, j, o) then s
    else
      var decision := o.decideMerge(s.page[i].content, s.page[j].content).value;
      match ExecuteMergeStrategy(s.ltm, s.page[i], s.page[j], decision.0, decision.1, o.embed)
      case Err(_) => s.(processed := s.processed + 1, acted := s.acted + [(i, j)])
      case Ok(out) =>
        var page := s.page[i := s.page[i].(metadata := out.meta1)][j := s.page[j].(metadata := out.meta2)];
        assert MetaString(out.meta1, "user_id") == MetaString(s.page[i].metadata, "user_id");
        assert MetaString(out.meta2, "user_id") == MetaString(s.page[j].metadata, "user_id");
        Sweep(out.ltm, page, s.processed + 1, s.merged + 1, s.acted + [(i, j)])
  }

  /** (a, b) does not come before (i, j) in the sweep's order. */
  predicate AtOrAfter(a: nat, b: nat, i: nat, j: nat)
  {
    a > i || (a == i && b >= j)
  }

  /**
   * The nested loops from pair (i, j) on. The handled pairs are exactly the
   * candidates i < j not before (i, j), each once.
   */
  function SweepFrom(s: Sweep, i: nat, j: nat, o: Funnel.Oracles): (r: Sweep)
    requires i < j
    ensures SameFaces(s.page, r.page)
    ensures |r.ltm| <= |s.ltm| && VectorStore.IdsFrom(r.ltm, s.ltm)
    ensures r.processed >= s.processed && r.merged - s.merged <= r.processed - s.processed && r.merged >= s.merged
    ensures Seqs.IsPrefix(s.acted, r.acted)
    ensures forall a: nat, b: nat :: (a, b) in r.acted[|s.acted|..] <==>
      a < b < |s.page| && AtOrAfter(a, b, i, j) && Candidate(s.page, a, b, o)
    ensures Seqs.NoDup(r.acted[|s.acted|..])
    decreases |s.page| - i, |s.page| - j
  {
    if i >= |s.page| then
      assert s.acted[|s.acted|..] == [];
      s
    else if j >= |s.page| then
      SweepFrom(s, i + 1, i + 2, o)
    else
      var s1 := ComparePair(s, i, j, o);
      var r := SweepFrom(s1, i, j + 1, o);
      SweepStep(s, s1, r, i, j, o);
      r
  }

  lemma SweepStep(s: Sweep, s1: Sweep, r: Sweep, i: nat, j: nat, o: Funnel.Oracles)
    requires i < j < |s.page|
    requires SameFaces(s.page, s1.page)
    requires Candidate(s.page, i, j, o) ==> s1.acted == s.acted + [(i, j)]
    requires !Candidate(s.page, i, j, o) ==> s1.acted == s.acted
    requires Seqs.IsPrefix(s1.acted, r.acted)
    requires forall a: nat, b: nat :: (a, b) in r.acted[|s1.acted|..] <==>
      a < b < |s1.page| && AtOrAfter(a, b, i, j + 1) && Candidate(s1.page, a, b, o)
    requires Seqs.NoDup(r.acted[|s1.acted|..])
    ensures Seqs.IsPrefix(s.acted, r.acted)
    ensures forall a: nat, b: nat :: (a, b) in r.acted[|s.acted|..] <==>
      a < b < |s.page| && AtOrAfter(a, b, i, j) && Candidate(s.page, a, b, o)
    ensures Seqs.NoDup(r.acted[|s.acted|..])
  {
    var tail := r.acted[|s1.acted|..];
    forall a: nat, b: nat | a < b < |s.page|
      ensures Candidate(s1.page, a, b, o) == Candidate(s.page, a, b, o)
    {
      CandidateStable(s1.page, s.page, a, b, o);
    }
    if Candidate(s.page, i, j, o) {
      assert r.acted[..|s1.acted|] == s.acted + [(i, j)];
      assert r.acted[|s.acted|..] == [(i, j)] + tail;
      assert (i, j) !in tail;
      StepNoDup(r.acted[|s.acted|..], tail, (i, j));
    } else {
      assert r.acted[|s.acted|..] == tail;
    }
  }

  lemma StepNoDup(all: seq<(nat, nat)>, tail: seq<(nat, nat)>, p: (nat, nat))
    requires all == [p] + tail && p !in tail && Seqs.NoDup(tail)
    ensures Seqs.NoDup(all)
  {
    forall x, y | 0 <= x < y < |all|
      ensures all[x] != all[y]
    {
      if x == 0 {
        assert all[y] == tail[y - 1];
      } else {
        assert all[x] == tail[x - 1] && all[y] == tail[y - 1];
      }
    }
  }

  /** One page: every pair i < j, starting at (0, 1). */
  function SweepPage(ltm: seq<Record>, page: seq<Record>, o: Funnel.Oracles): (r: Sweep)
    ensures |r.ltm| <= |ltm| && VectorStore.IdsFrom(r.ltm, ltm)
    ensures r.merged <= r.processed
    ensures forall a: nat, b: nat :: (a, b) in r.acted <==> a < b < |page| && Candidate(page, a, b, o)
    ensures Seqs.NoDup(r.acted)
    ensures r.processed == |r.acted|
  {
    var r := SweepFrom(Sweep(ltm, page, 0, 0, []), 0, 1, o);
    assert r.acted[0..] == r.acted;
    SweepCounts(Sweep(ltm, page, 0, 0, []), 0, 1, o);
    r
  }

  /** Every handled pair is counted as processed. */
  lemma {:induction false} SweepCounts(s: Sweep, i: nat, j: nat, o: Funnel.Oracles)
    requires i < j
    ensures var r := SweepFrom(s, i, j, o);
      r.processed - s.processed == |r.acted| - |s.acted|
    decreases |s.page| - i, |s.page| - j
  {
    if i >= |s.page| {
    } else if j >= |s.page| {
      SweepCounts(s, i + 1, i + 2, o);
    } else {
      var s1 := ComparePair(s, i, j, o);
      assert SweepFrom(s, i, j, o) == SweepFrom(s1, i, j + 1, o);
      assert s1.processed - s.processed == |s1.acted| - |s.acted|;
      SweepCounts(s1, i, j + 1, o);
    }
  }

  // ----- the page loop -----

  /** The pass's summary: the store after it and the logged counters. */
  datatype Report = Report(ltm: seq<Record>, processed: nat, merged: nat)

  /** Pages from `offset` on, until a page comes back empty. */
  function DedupFrom(ltm: seq<Record>, offset: nat, o: Funnel.Oracles, processed: nat, merged: nat): (r: Report)
    requires merged <= processed
    ensures |r.ltm| <= |ltm| && VectorStore.IdsFrom(r.ltm, ltm)
    ensures r.processed >= processed && r.merged - merged <= r.processed - processed
    ensures r.processed - processed >= SweepPage(ltm, VectorStore.List(ltm, map[], PageSize, offset), o).processed
    ensures VectorStore.List(ltm, map[], PageSize, offset) == [] ==> r == Report(ltm, processed, merged)
    decreases |ltm| - offset
  {
    var page := VectorStore.List(ltm, map[], PageSize, offset);
    if page == [] then Report(ltm, processed, merged)
    else
      assert offset < |ltm| by {
        assert |VectorStore.Filtered(ltm, map[])| <= |ltm|;
      }
      var s := SweepPage(ltm, page, o);
      var r := DedupFrom(s.ltm, offset + PageSize, o, processed + s.processed, merged + s.merged);
      r
  }

  /**
   * DeduplicateLTM: records only disappear or are rewritten in place, so no
   * ID is invented, and no more pairs merge than were processed; every
   * qualifying pair of the first page is processed, and an empty store is
   * left alone.
   */
  function DeduplicateLtm(ltm: seq<Record>, o: Funnel.Oracles): (r: Report)
    ensures |r.ltm| <= |ltm| && VectorStore.IdsFrom(r.ltm, ltm)
    ensures r.merged <= r.processed
    ensures r.processed >= SweepPage(ltm, VectorStore.List(ltm, map[], PageSize, 0), o).processed
    ensures forall a: nat, b: nat ::
      a < b < |VectorStore.List(ltm, map[], PageSize, 0)| && Candidate(VectorStore.List(ltm, map[], PageSize, 0), a, b, o) ==>
        r.processed > 0
    ensures ltm == [] ==> r == Report([], 0, 0)
  {
    DedupFrom(ltm, 0, o, 0, 0)
  }

  /** Records of different users are never compared, so a page of one record per user is left alone. */
  lemma DistinctUsersUntouched(ltm: seq<Record>, page: seq<Record>, o: Funnel.Oracles)
    requires forall a: nat, b: nat :: 0 <= a < b < |page| ==> !SameUser(page[a], page[b])
    ensures SweepPage(ltm, page, o).acted == []
    ensures SweepPage(ltm, page, o).ltm == ltm
  {
    NoCandidateNoChange(Sweep(ltm, page, 0, 0, []), 0, 1, o);
  }

  lemma {:induction false} NoCandidateNoChange(s: Sweep, i: nat, j: nat, o: Funnel.Oracles)
    requires i < j
    requires forall a: nat, b: nat :: 0 <= a < b < |s.page| ==> !SameUser(s.page[a], s.page[b])
    ensures SweepFrom(s, i, j, o) == s
    decreases |s.page| - i, |s.page| - j
  {
    if i >= |s.page| {
    } else if j >= |s.page| {
      NoCandidateNoChange(s, i + 1, i + 2, o);
    } else {
      assert !SameUser(s.page[i], s.page[j]);
      assert ComparePair(s, i, j, o) == s;
      NoCandidateNoChange(s, i, j + 1, o);
    }
  }
}
