/**
 * The short-term memory store: named lists of JSON-encoded records
 * (the in-memory `ListStore`), plus the two Redis operations the funnel
 * relies on that the in-memory store does not implement (`LREM`, `SADD`).
 *
 * JSON is abstracted: `decode` is `json.Unmarshal` into a `Record` (None on
 * failure) and `encode` is `json.Marshal`. Go map iteration order is the
 * parameter `order`, an enumeration of the list names.
 */
module ListStore {
  import opened Wrappers
  import opened Types
  import opened Text
  import Seqs

  datatype Store = Store(lists: map<string, seq<string>>, sets: map<string, set<string>>)

  function Items(s: Store, key: string): seq<string>
  {
    if key in s.lists then s.lists[key] else []
  }

  /** RPUSH: the values are appended in order; pushing nothing creates no list. */
  function RPush(s: Store, key: string, values: seq<string>): (s': Store)
    ensures Items(s', key) == Items(s, key) + values
    ensures forall k :: k != key ==> Items(s', k) == Items(s, k)
    ensures key in s'.lists <==> key in s.lists || values != []
    ensures s'.lists.Keys <= s.lists.Keys + {key}
    ensures s'.sets == s.sets
  {
    if values == [] then s
    else s.(lists := s.lists[key := Items(s, key) + values])
  }

  /** Position of a Redis-style index: negative counts from the end. */
  function Resolve(i: int, len: nat): int
  {
    if i < 0 then len + i else i
  }

  /** Position `p` lies between the resolved `start` and `stop`, both inclusive. */
  predicate Selected(p: int, start: int, stop: int, len: nat)
  {
    Resolve(start, len) <= p <= Resolve(stop, len)
  }

  /** LRANGE with Redis index semantics. */
  function LRange(s: Store, key: string, start: int, stop: int): (r: seq<string>)
    ensures key !in s.lists ==> r == []
    ensures |r| <= |Items(s, key)|
    ensures var list := Items(s, key);
      var lo := Seqs.Max(0, Resolve(start, |list|));
      (|r| > 0 ==> lo + |r| <= |list|)
      && (forall j :: 0 <= j < |r| ==> lo + j < |list| && r[j] == list[lo + j])
      && (forall p :: 0 <= p < |list| ==> (Selected(p, start, stop, |list|) <==> lo <= p < lo + |r|))
  {
    if key !in s.lists then []
    else
      var list := s.lists[key];
      var ln := |list|;
      var first := if start < 0 then (if ln + start < 0 then 0 else ln + start) else start;
      var last0 := if stop < 0 then (if ln + stop < 0 then -1 else ln + stop) else stop;
      var last := if last0 >= ln then ln - 1 else last0;
      if first > last then [] else list[first..last + 1]
  }

  /** LRANGE 0 -1 is the whole list. */
  lemma LRangeAll(s: Store, key: string)
    ensures LRange(s, key, 0, -1) == Items(s, key)
  {
    var r := LRange(s, key, 0, -1);
    var list := Items(s, key);
    if |list| > 0 {
      assert Selected(|list| - 1, 0, -1, |list|);
    }
  }

  /** DEL: the named lists disappear, the others are untouched. */
  function Del(s: Store, keys: seq<string>): (s': Store)
    ensures forall k :: k in s'.lists <==> k in s.lists && k !in keys
    ensures forall k :: k in s'.lists ==> s'.lists[k] == s.lists[k]
    ensures s'.sets == s.sets
  {
    s.(lists := map k | k in s.lists && k !in keys :: s.lists[k])
  }

  /** The prefix a scan pattern is reduced to: drop one trailing '*', then cut at the first '*'. */
  function ScanPrefix(pattern: string): string
  {
    var p := if |pattern| > 0 && pattern[|pattern| - 1] == '*' then pattern[..|pattern| - 1] else pattern;
    UpToStar(p)
  }

  /** The text before the first '*' (all of it when there is none). */
  function UpToStar(p: string): (r: string)
    ensures HasPrefix(p, r)
    ensures '*' !in r
    ensures |r| < |p| ==> p[|r|] == '*'
  {
    if p == [] || p[0] == '*' then [] else [p[0]] + UpToStar(p[1..])
  }

  /** Net effect of the two steps: the pattern is cut at its first '*'. */
  lemma {:induction false} ScanPrefixIsUpToStar(pattern: string)
    ensures ScanPrefix(pattern) == UpToStar(pattern)
  {
    if |pattern| > 0 && pattern[|pattern| - 1] == '*' {
      UpToStarDropLast(pattern);
    }
  }

  lemma {:induction false} UpToStarDropLast(p: string)
    requires |p| > 0 && p[|p| - 1] == '*'
    ensures UpToStar(p[..|p| - 1]) == UpToStar(p)
  {
    if |p| > 1 && p[0] != '*' {
      assert p[..|p| - 1][1..] == p[1..][..|p| - 2];
      UpToStarDropLast(p[1..]);
    }
  }

  /** SCAN over the list names: every name that starts with the pattern's prefix, once each. */
  function ScanKeys(s: Store, order: seq<string>, pattern: string): (r: seq<string>)
    requires Seqs.Enumerates(order, s.lists.Keys)
    ensures Seqs.NoDup(r)
    ensures forall i :: 0 <= i < |r| ==> r[i] in s.lists && HasPrefix(r[i], UpToStar(pattern))
    ensures forall k :: k in s.lists && HasPrefix(k, UpToStar(pattern)) ==> k in r
  {
    ScanPrefixIsUpToStar(pattern);
    var prefix := ScanPrefix(pattern);
    FilterNoDup(order, (k: string) => HasPrefix(k, prefix));
    Seqs.Filter(order, (k: string) => HasPrefix(k, prefix))
  }

  lemma {:induction false} FilterNoDup<T>(s: seq<T>, p: T -> bool)
    requires Seqs.NoDup(s)
    ensures Seqs.NoDup(Seqs.Filter(s, p))
  {
    if s != [] {
      FilterNoDup(s[1..], p);
      forall j | 0 <= j < |s| - 1
        ensures s[1..][j] != s[0]
      {
        assert s[1..][j] == s[j + 1];
      }
    }
  }

  /** The item is a record with this ID (`json.Unmarshal` succeeded and the IDs agree). */
  predicate HoldsId(item: string, id: string, decode: string -> Option<Record>)
  {
    decode(item).Some? && decode(item).value.id == id
  }

  /** Some list holds a record with this ID. */
  predicate AnyHolds(s: Store, id: string, decode: string -> Option<Record>)
  {
    exists k, j :: k in s.lists && 0 <= j < |s.lists[k]| && HoldsId(s.lists[k][j], id, decode)
  }

  /** First position in one list holding the ID. */
  function FindInList(items: seq<string>, id: string, decode: string -> Option<Record>): (r: Option<nat>)
    ensures r.Some? ==> r.value < |items| && HoldsId(items[r.value], id, decode)
    ensures r.Some? ==> forall j :: 0 <= j < r.value ==> !HoldsId(items[j], id, decode)
    ensures r.None? ==> forall j :: 0 <= j < |items| ==> !HoldsId(items[j], id, decode)
  {
    if items == [] then None
    else if HoldsId(items[0], id, decode) then Some(0)
    else match FindInList(items[1..], id, decode)
      case None => None
      case Some(j) => Some(j + 1)
  }

  /** First (list name, position) holding the ID, visiting the lists in `order`. */
  function Find(s: Store, order: seq<string>, id: string, decode: string -> Option<Record>): (r: Option<(string, nat)>)
    requires forall i :: 0 <= i < |order| ==> order[i] in s.lists
    ensures r.Some? ==> r.value.0 in order && r.value.0 in s.lists && r.value.1 < |s.lists[r.value.0]|
    ensures r.Some? ==> HoldsId(s.lists[r.value.0][r.value.1], id, decode)
    ensures r.Some? ==> forall j :: 0 <= j < r.value.1 ==> !HoldsId(s.lists[r.value.0][j], id, decode)
    ensures r.None? ==> forall i, j :: 0 <= i < |order| && 0 <= j < |s.lists[order[i]]| ==>
      !HoldsId(s.lists[order[i]][j], id, decode)
  {
    if order == [] then None
    else match FindInList(s.lists[order[0]], id, decode)
      case Some(j) => Some((order[0], j))
      case None =>
        var r := Find(s, order[1..], id, decode);
        assert r.None? ==> forall i, j :: 1 <= i < |order| && 0 <= j < |s.lists[order[i]]| ==>
          !HoldsId(s.lists[order[i]][j], id, decode) by {
          if r.None? {
            forall i, j | 1 <= i < |order| && 0 <= j < |s.lists[order[i]]|
              ensures !HoldsId(s.lists[order[i]][j], id, decode)
            {
              assert order[i] == order[1..][i - 1];
            }
          }
        }
        r
  }

  lemma FindNoneMeansAbsent(s: Store, order: seq<string>, id: string, decode: string -> Option<Record>)
    requires Seqs.Enumerates(order, s.lists.Keys)
    requires Find(s, order, id, decode).None?
    ensures !AnyHolds(s, id, decode)
  {
    forall k, j | k in s.lists && 0 <= j < |s.lists[k]|
      ensures !HoldsId(s.lists[k][j], id, decode)
    {
      var i :| 0 <= i < |order| && order[i] == k;
    }
  }

  /** Update: the first stored record with the same ID is replaced by the new encoding. */
  function Update(s: Store, order: seq<string>, rec: Record,
                  decode: string -> Option<Record>, encode: Record -> string): (r: Result<Store>)
    requires Seqs.Enumerates(order, s.lists.Keys)
    ensures r.Err? <==> !AnyHolds(s, rec.id, decode)
    ensures r.Err? ==> r.msg == "record not found"
    ensures r.Ok? ==>
      exists k, j :: k in s.lists && 0 <= j < |s.lists[k]|
        && HoldsId(s.lists[k][j], rec.id, decode)
        && r.value == s.(lists := s.lists[k := s.lists[k][j := encode(rec)]])
  {
    match Find(s, order, rec.id, decode)
    case None =>
      FindNoneMeansAbsent(s, order, rec.id, decode);
      Err("record not found")
    case Some((k, j)) =>
      Ok(s.(lists := s.lists[k := s.lists[k][j := encode(rec)]]))
  }

  /** Get: the first stored record with the ID, decoded. */
  function Get(s: Store, order: seq<string>, id: string, decode: string -> Option<Record>): (r: Result<Record>)
    requires Seqs.Enumerates(order, s.lists.Keys)
    ensures r.Err? <==> !AnyHolds(s, id, decode)
    ensures r.Err? ==> r.msg == "record not found"
    ensures r.Ok? ==> r.value.id == id
    ensures r.Ok? ==>
      exists k, j :: k in s.lists && 0 <= j < |s.lists[k]| && decode(s.lists[k][j]) == Some(r.value)
  {
    match Find(s, order, id, decode)
    case None =>
      FindNoneMeansAbsent(s, order, id, decode);
      Err("record not found")
    case Some((k, j)) => Ok(decode(s.lists[k][j]).value)
  }

  /**
   * Reading back after an update: with a JSON round trip that preserves the
   * record, `Get` returns exactly the record just written.
   */
  lemma UpdateThenGet(s: Store, order: seq<string>, rec: Record,
                      decode: string -> Option<Record>, encode: Record -> string)
    requires Seqs.Enumerates(order, s.lists.Keys)
    requires decode(encode(rec)) == Some(rec)
    requires AnyHolds(s, rec.id, decode)
    ensures Update(s, order, rec, decode, encode).Ok?
    ensures Get(Update(s, order, rec, decode, encode).value, order, rec.id, decode) == Ok(rec)
  {
    var f := Find(s, order, rec.id, decode);
    if f.None? {
      FindNoneMeansAbsent(s, order, rec.id, decode);
    }
    var (k, j) := f.value;
    var s' := Update(s, order, rec, decode, encode).value;
    FindAfterWrite(s, order, rec, decode, encode, k, j);
  }

  lemma {:induction false} FindAfterWrite(s: Store, order: seq<string>, rec: Record,
                                          decode: string -> Option<Record>, encode: Record -> string,
                                          k: string, j: nat)
    requires forall i :: 0 <= i < |order| ==> order[i] in s.lists
    requires decode(encode(rec)) == Some(rec)
    requires Find(s, order, rec.id, decode) == Some((k, j))
    ensures var s' := s.(lists := s.lists[k := s.lists[k][j := encode(rec)]]);
      Find(s', order, rec.id, decode) == Some((k, j))
  {
    var s' := s.(lists := s.lists[k := s.lists[k][j := encode(rec)]]);
    if order[0] == k {
      FirstInListAfterWrite(s.lists[k], rec, decode, encode, j);
    } else {
      assert FindInList(s.lists[order[0]], rec.id, decode).None?;
      assert s'.lists[order[0]] == s.lists[order[0]];
      FindAfterWrite(s, order[1..], rec, decode, encode, k, j);
    }
  }

  lemma FirstInListAfterWrite(items: seq<string>, rec: Record,
                              decode: string -> Option<Record>, encode: Record -> string, j: nat)
    requires decode(encode(rec)) == Some(rec)
    requires FindInList(items, rec.id, decode) == Some(j)
    ensures FindInList(items[j := encode(rec)], rec.id, decode) == Some(j)
  {
    var items' := items[j := encode(rec)];
    assert HoldsId(items'[j], rec.id, decode);
    assert forall i :: 0 <= i < j ==> items'[i] == items[i];
  }

  /** LREM key 0 value (Redis): every occurrence of `value` is removed; an emptied list disappears. */
  function LRemAll(s: Store, key: string, value: string): (s': Store)
    ensures forall x :: x in Items(s', key) <==> x in Items(s, key) && x != value
    ensures |Items(s', key)| <= |Items(s, key)|
    ensures Seqs.Subsequence(Items(s', key), Items(s, key))
    ensures forall i :: 0 <= i < |Items(s, key)| ==>
      multiset(Items(s', key))[Items(s, key)[i]] == if Items(s, key)[i] == value then 0 else multiset(Items(s, key))[Items(s, key)[i]]
    ensures forall k :: k != key ==> Items(s', k) == Items(s, k) && (k in s'.lists <==> k in s.lists)
    ensures s'.sets == s.sets
  {
    if key !in s.lists then s
    else
      var keep := (x: string) => x != value;
      var kept := Seqs.Filter(s.lists[key], keep);
      Seqs.FilterKeepsCounts(s.lists[key], keep);
      if kept == [] then s.(lists := map k | k in s.lists && k != key :: s.lists[k])
      else s.(lists := s.lists[key := kept])
  }

  /** SADD (Redis): the members join the set named `key`. */
  function SAdd(s: Store, key: string, members: seq<string>): (s': Store)
    ensures key in s'.sets || members == []
    ensures forall m :: m in members ==> key in s'.sets && m in s'.sets[key]
    ensures forall k :: k in s'.sets && k != key ==> k in s.sets && s'.sets[k] == s.sets[k]
    ensures key in s.sets ==> key in s'.sets && s.sets[key] <= s'.sets[key]
    ensures key in s'.sets ==> s'.sets[key] == (if key in s.sets then s.sets[key] else {}) + (set m | m in members)
    ensures s'.lists == s.lists
  {
    if members == [] then s
    else
      var current := if key in s.sets then s.sets[key] else {};
      s.(sets := s.sets[key := current + set m | m in members])
  }

  /** SISMEMBER (Redis). */
  predicate SIsMember(s: Store, key: string, member: string)
  {
    key in s.sets && member in s.sets[key]
  }
}
