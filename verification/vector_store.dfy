/**
 * The long-term memory store (the in-memory `VectorStore`): a sequence of
 * records searched by cosine similarity of their embeddings.
 */
module VectorStore {
  import opened Wrappers
  import opened Types
  import Seqs

  /** Σ aᵢ·bᵢ over two vectors of equal length. */
  function Dot(a: Vector, b: Vector): real
    requires |a| == |b|
  {
    if a == [] then 0.0 else a[0] * b[0] + Dot(a[1..], b[1..])
  }

  predicate AllZero(a: Vector)
  {
    forall i :: 0 <= i < |a| ==> a[i] == 0.0
  }

  /** A vector of zeros has a zero norm. */
  lemma {:induction false} ZeroNorm(a: Vector)
    ensures AllZero(a) ==> Dot(a, a) == 0.0
  {
    if a != [] && AllZero(a) {
      assert AllZero(a[1..]) by {
        assert forall i :: 0 <= i < |a| - 1 ==> a[1..][i] == a[i + 1];
      }
      ZeroNorm(a[1..]);
    }
  }

  /**
   * Cosine similarity with the Go code's guards: 0 for vectors of different
   * length or with a zero norm. `ratio(dot, |a|², |b|²)` stands for the
   * floating-point `dot / (sqrt(|a|²)·sqrt(|b|²))`, which is left abstract.
   */
  function Cosine(a: Vector, b: Vector, ratio: (real, real, real) -> real): (r: real)
    ensures |a| != |b| || AllZero(a) || AllZero(b) ==> r == 0.0
    ensures |a| == |b| && Dot(a, a) != 0.0 && Dot(b, b) != 0.0 ==> r == ratio(Dot(a, b), Dot(a, a), Dot(b, b))
  {
    ZeroNorm(a);
    ZeroNorm(b);
    if |a| != |b| then 0.0
    else
      var dot, na, nb := Dot(a, b), Dot(a, a), Dot(b, b);
      if na == 0.0 || nb == 0.0 then 0.0 else ratio(dot, na, nb)
  }

  /** The staging store and the deduplication pass also test for empty vectors first; that guard changes nothing. */
  function CosineWithEmptyGuard(a: Vector, b: Vector, ratio: (real, real, real) -> real): (r: real)
    ensures r == Cosine(a, b, ratio)
  {
    if |a| != |b| || |a| == 0 then 0.0 else Cosine(a, b, ratio)
  }

  /**
   * The filter of `List` and `Count`: key "type" compares the record's
   * type, every other key an equal metadata value.
   */
  predicate Matches(rec: Record, filter: Metadata)
  {
    forall k :: k in filter ==>
      if k == "type" then filter[k] == VStr(rec.memType)
      else k in rec.metadata && rec.metadata[k] == filter[k]
  }

  /** The filter of `Search`: every key is a metadata key, "type" included. */
  predicate MetadataMatches(rec: Record, filter: Metadata)
  {
    forall k :: k in filter ==> k in rec.metadata && rec.metadata[k] == filter[k]
  }

  /** Filter values Go can compare against metadata without a run-time panic. */
  predicate ComparableFilter(filter: Metadata)
  {
    forall k :: k in filter ==> Comparable(filter[k])
  }

  /** `List` asserts that a "type" filter value is a string. */
  predicate ListFilterOk(filter: Metadata)
  {
    ComparableFilter(filter) && ("type" in filter ==> filter["type"].VStr?)
  }

  function Filtered(records: seq<Record>, filter: Metadata): seq<Record>
  {
    Seqs.Filter(records, (rec: Record) => Matches(rec, filter))
  }

  function Add(records: seq<Record>, added: seq<Record>): (r: seq<Record>)
    ensures |r| == |records| + |added|
    ensures r[..|records|] == records && r[|records|..] == added
  {
    records + added
  }

  /** The IDs held by a sequence of records. */
  function Ids(s: seq<Record>): set<string>
  {
    set r | r in s :: r.id
  }

  /** Every record of `after` carries the ID of a record of `before`. */
  predicate IdsFrom(after: seq<Record>, before: seq<Record>)
  {
    Ids(after) <= Ids(before)
  }

  /**
   * Delete: every record whose ID is listed disappears; the rest keep
   * their order and their number of occurrences.
   */
  function Delete(records: seq<Record>, ids: seq<string>): (r: seq<Record>)
    ensures forall i :: 0 <= i < |r| ==> r[i] in records && r[i].id !in ids
    ensures forall i :: 0 <= i < |records| && records[i].id !in ids ==> records[i] in r
    ensures |r| <= |records|
    ensures Seqs.Subsequence(r, records)
    ensures forall i :: 0 <= i < |records| ==>
      multiset(r)[records[i]] == if records[i].id in ids then 0 else multiset(records)[records[i]]
  {
    var keep := (rec: Record) => rec.id !in ids;
    Seqs.FilterKeepsCounts(records, keep);
    Seqs.Filter(records, keep)
  }

  /** List: the matching records, skipping `offset` and keeping at most `limit`. */
  function List(records: seq<Record>, filter: Metadata, limit: int, offset: int): (r: seq<Record>)
    requires ListFilterOk(filter)
    requires limit >= 0 && offset >= 0
    ensures var f := Filtered(records, filter);
      |r| == (if offset >= |f| then 0 else Seqs.Min(limit, |f| - offset))
      && forall i :: 0 <= i < |r| ==> r[i] == f[offset + i]
    ensures forall i :: 0 <= i < |r| ==> r[i] in records && Matches(r[i], filter)
  {
    var filtered := Filtered(records, filter);
    var total := |filtered|;
    if offset >= total then []
    else
      var end := if offset + limit > total then total else offset + limit;
      filtered[offset..end]
  }

  /** No two records share an ID. */
  predicate UniqueIds(records: seq<Record>)
  {
    forall i, j :: 0 <= i < j < |records| ==> records[i].id != records[j].id
  }

  /** With no filter, a first page of `n` is the first `n` records of the store. */
  lemma ListAllIsTake(records: seq<Record>, n: nat)
    ensures List(records, map[], n, 0) == Seqs.Take(records, n)
  {
    Seqs.FilterAll(records, (rec: Record) => Matches(rec, map[]));
  }

  /** Two consecutive pages make up the page of their combined size. */
  lemma ListPages(records: seq<Record>, filter: Metadata, a: nat, b: nat)
    requires ListFilterOk(filter)
    ensures List(records, filter, a, 0) + List(records, filter, b, a) == List(records, filter, a + b, 0)
  {
    var f := Filtered(records, filter);
    var p1, p2, p := List(records, filter, a, 0), List(records, filter, b, a), List(records, filter, a + b, 0);
    assert |p1 + p2| == |p|;
    forall i | 0 <= i < |p|
      ensures (p1 + p2)[i] == p[i]
    {
      if i >= |p1| {
        assert (p1 + p2)[i] == p2[i - a];
      }
    }
  }

  /** Count: the number of records `List` would select. */
  function Count(records: seq<Record>, filter: Metadata): (n: nat)
    ensures n <= |records|
    ensures ListFilterOk(filter) ==> n == |List(records, filter, |records|, 0)|
  {
    Seqs.CountWhere(records, (rec: Record) => Matches(rec, filter))
  }

  /** Score of a stored record against the query (records without embedding never get here). */
  function Score(query: Vector, rec: Record, ratio: (real, real, real) -> real): real
  {
    match rec.embedding
    case None => 0.0
    case Some(e) => Cosine(query, e, ratio)
  }

  predicate SearchCandidate(rec: Record, query: Vector, threshold: real, filter: Metadata,
                            ratio: (real, real, real) -> real)
  {
    rec.embedding.Some? && MetadataMatches(rec, filter) && Score(query, rec, ratio) >= threshold
  }

  /**
   * Search: the records with an embedding that match the filter and score
   * at least `threshold`, best score first, at most `limit` of them. A
   * negative limit makes `results[:limit]` panic, whatever matched (None
   * stands for the panic).
   */
  function Search(records: seq<Record>, query: Vector, limit: int, threshold: real, filter: Metadata,
                  ratio: (real, real, real) -> real): (r: Option<seq<Record>>)
    requires ComparableFilter(filter)
    ensures r.None? <==> limit < 0
    ensures r.Some? ==> r.value == Ranked(records, query, limit, threshold, filter, ratio)
  {
    if limit < 0 then None else Some(Ranked(records, query, limit, threshold, filter, ratio))
  }

  /** The ranking Search returns for a limit that is not negative. */
  function Ranked(records: seq<Record>, query: Vector, limit: nat, threshold: real, filter: Metadata,
                  ratio: (real, real, real) -> real): (r: seq<Record>)
    requires ComparableFilter(filter)
    ensures |r| <= limit
    ensures forall i :: 0 <= i < |r| ==> r[i] in records && SearchCandidate(r[i], query, threshold, filter, ratio)
    ensures forall i, j :: 0 <= i < j < |r| ==> Score(query, r[i], ratio) >= Score(query, r[j], ratio)
    ensures forall rec :: rec in records && SearchCandidate(rec, query, threshold, filter, ratio) && rec !in r ==>
      |r| == limit && forall i :: 0 <= i < |r| ==> Score(query, r[i], ratio) >= Score(query, rec, ratio)
    ensures multiset(r) <= multiset(Candidates(records, query, threshold, filter, ratio))
  {
    var key := (rec: Record) => Score(query, rec, ratio);
    var cands := Candidates(records, query, threshold, filter, ratio);
    var r := Seqs.Take(Seqs.SortDesc(cands, key), limit);
    Seqs.TakeSortFacts(cands, key, limit);
    Seqs.TakeSubMultiset(Seqs.SortDesc(cands, key), limit);
    assert multiset(r) <= multiset(cands);
    forall rec | rec in records && SearchCandidate(rec, query, threshold, filter, ratio) && rec !in r
      ensures |r| == limit && forall i :: 0 <= i < |r| ==> key(r[i]) >= key(rec)
    {
      Seqs.TopK(cands, key, limit, rec);
    }
    r
  }

  /** The records Search ranks, in store order. */
  function Candidates(records: seq<Record>, query: Vector, threshold: real, filter: Metadata,
                      ratio: (real, real, real) -> real): (c: seq<Record>)
    requires ComparableFilter(filter)
    ensures forall rec :: rec in c <==> rec in records && SearchCandidate(rec, query, threshold, filter, ratio)
  {
    var p := (rec: Record) => SearchCandidate(rec, query, threshold, filter, ratio);
    var c := Seqs.Filter(records, p);
    forall rec | rec in c
      ensures rec in records && SearchCandidate(rec, query, threshold, filter, ratio)
    {
      var n :| 0 <= n < |c| && c[n] == rec;
      assert p(c[n]);
    }
    forall rec | rec in records && SearchCandidate(rec, query, threshold, filter, ratio)
      ensures rec in c
    {
      var n :| 0 <= n < |records| && records[n] == rec;
      assert p(records[n]);
    }
    c
  }

  /** Update: the first record with the same ID is replaced. */
  function Update(records: seq<Record>, rec: Record): (r: Result<seq<Record>>)
    ensures r.Err? <==> forall i :: 0 <= i < |records| ==> records[i].id != rec.id
    ensures r.Err? ==> r.msg == "record not found"
    ensures r.Ok? ==>
      exists i :: 0 <= i < |records| && records[i].id == rec.id
        && (forall j :: 0 <= j < i ==> records[j].id != rec.id) && r.value == records[i := rec]
  {
    match IndexOf(records, rec.id)
    case None => Err("record not found")
    case Some(i) => Ok(records[i := rec])
  }

  /** First position of a record with this ID. */
  function IndexOf(records: seq<Record>, id: string): (r: Option<nat>)
    ensures r.None? <==> forall i :: 0 <= i < |records| ==> records[i].id != id
    ensures r.Some? ==> r.value < |records| && records[r.value].id == id
    ensures r.Some? ==> forall j :: 0 <= j < r.value ==> records[j].id != id
  {
    if records == [] then None
    else if records[0].id == id then Some(0)
    else match IndexOf(records[1..], id)
      case None => None
      case Some(i) => Some(i + 1)
  }

  /** Get: the first record with this ID. */
  function Get(records: seq<Record>, id: string): (r: Result<Record>)
    ensures r.Err? <==> forall i :: 0 <= i < |records| ==> records[i].id != id
    ensures r.Err? ==> r.msg == "not found"
    ensures r.Ok? ==> r.value.id == id && r.value in records
  {
    match IndexOf(records, id)
    case None => Err("not found")
    case Some(i) => Ok(records[i])
  }

  /** Reading back after an update returns the record just written. */
  lemma UpdateThenGet(records: seq<Record>, rec: Record)
    requires exists i :: 0 <= i < |records| && records[i].id == rec.id
    ensures Update(records, rec).Ok?
    ensures Get(Update(records, rec).value, rec.id) == Ok(rec)
  {
    var i := IndexOf(records, rec.id).value;
    var r := records[i := rec];
    assert forall j :: 0 <= j < i ==> r[j] == records[j];
    var v := IndexOf(r, rec.id);
    assert r[i].id == rec.id;
    assert v.Some?;
    assert !(v.value < i);
    assert !(i < v.value);
  }

  /** After Delete no record carries a deleted ID, so Get fails for each of them. */
  lemma DeleteThenGet(records: seq<Record>, ids: seq<string>, id: string)
    requires id in ids
    ensures Get(Delete(records, ids), id).Err?
  {
  }
}
