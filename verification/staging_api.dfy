/**
 * The admin operations on the staging area: listing, confirming (which
 * promotes the entry at once), rejecting, and the dashboard counts.
 */
module StagingApi {
  import opened Wrappers
  import opened Types
  import opened Text
  import Seqs
  import StagingStore
  import Funnel

  /** Pending, seen at least once, first seen no later than `now`. */
  predicate PendingSince(e: StagingEntry, now: int)
  {
    e.status == Pending && e.occurrenceCount >= 1 && e.firstSeenAt <= now
  }

  /** Every pending entry seen at least once, whatever its age (GetPendingEntries(1, 0)). */
  function AllPending(db: StagingStore.Db, order: seq<string>, now: int): (r: seq<StagingEntry>)
    requires Seqs.Enumerates(order, db.Keys)
    ensures forall i :: 0 <= i < |r| ==>
      r[i].status == Pending && r[i].occurrenceCount >= 1 && r[i].firstSeenAt <= now
      && exists k :: k in db && HasPrefix(k, "staging:") && db[k] == r[i]
    ensures forall k :: k in db && HasPrefix(k, "staging:") && PendingSince(db[k], now) ==> db[k] in r
  {
    StagingStore.GetPendingEntries(db, order, now, 1, 0)
  }

  /** GetStagingEntries: a user's entries, or every pending entry when no user is given. */
  function GetStagingEntries(db: StagingStore.Db, order: seq<string>, now: int, userId: string): (r: seq<StagingEntry>)
    requires Seqs.Enumerates(order, db.Keys)
    ensures userId != "" ==>
      (forall i :: 0 <= i < |r| ==> exists k :: k in db && HasPrefix(k, StagingStore.UserPrefix(userId)) && db[k] == r[i])
      && (forall k :: k in db && HasPrefix(k, StagingStore.UserPrefix(userId)) ==> db[k] in r)
    ensures userId == "" ==>
      (forall i :: 0 <= i < |r| ==> r[i].status == Pending && r[i].occurrenceCount >= 1)
      && (forall k :: k in db && HasPrefix(k, "staging:") && PendingSince(db[k], now) ==> db[k] in r)
  {
    if userId != "" then StagingStore.GetAllByUser(db, order, userId) else AllPending(db, order, now)
  }

  /** The first entry with the given ID. */
  function FindEntry(entries: seq<StagingEntry>, id: string): (r: Option<StagingEntry>)
    ensures r.None? <==> forall i :: 0 <= i < |entries| ==> entries[i].id != id
    ensures r.Some? ==> r.value in entries && r.value.id == id
  {
    if entries == [] then None
    else if entries[0].id == id then Some(entries[0])
    else
      var r := FindEntry(entries[1..], id);
      assert forall i :: 1 <= i < |entries| ==> entries[i] == entries[1..][i - 1];
      r
  }

  /** The entry as the confirmation marks it (the mark is never written back). */
  function MarkConfirmed(e: StagingEntry): (r: StagingEntry)
    ensures r.status == Confirmed && r.confirmedBy == "user"
    ensures r.(status := e.status, confirmedBy := e.confirmedBy) == e
  {
    e.(status := Confirmed, confirmedBy := "user")
  }

  /**
   * ConfirmStagingEntry: a pending entry is promoted on the spot, whatever
   * its confidence; an unknown ID is an error.
   */
  function ConfirmStagingEntry(t: Funnel.Tiers, o: Funnel.Oracles, now: int, entryId: string): (r: Result<Funnel.Tiers>)
    requires Funnel.ValidOracles(o)
    ensures var pending := AllPending(t.db, o.scanOrder(t.db), now);
      (forall i :: 0 <= i < |pending| ==> pending[i].id != entryId) <==> r == Err("条目不存在: " + entryId)
    ensures r.Ok? ==> r.value.db == StagingStore.Delete(t.db, entryId)
    ensures r.Ok? ==> |r.value.promotions| == |t.promotions| + 1 && r.value.promotions[..|t.promotions|] == t.promotions
    ensures var found := FindEntry(AllPending(t.db, o.scanOrder(t.db), now), entryId);
      found.Some? ==>
        r == Funnel.PromoteSingleEntry(t, MarkConfirmed(found.value), o, now)
        && (r.Err? <==> Funnel.EntryVector(found.value, o).None?)
        && (r.Ok? ==> r.value.promotions == t.promotions + [(found.value.category, true)])
  {
    var pending := AllPending(t.db, o.scanOrder(t.db), now);
    match FindEntry(pending, entryId)
    case None => Err("条目不存在: " + entryId)
    case Some(e) =>
      var r := Funnel.PromoteSingleEntry(t, MarkConfirmed(e), o, now);
      assert r.Err? ==> r.msg == "生成embedding失败";
      assert r.Err? ==> r != Err("条目不存在: " + entryId) by {
        if r.Err? {
          assert r.msg[0] != "条目不存在: "[0];
        }
      }
      r
  }

  /** RejectStagingEntry: the entry is deleted and nothing else changes. */
  function RejectStagingEntry(db: StagingStore.Db, entryId: string): (r: StagingStore.Db)
    ensures entryId !in r
    ensures forall k :: k != entryId ==> (k in r <==> k in db) && (k in r ==> r[k] == db[k])
  {
    StagingStore.Delete(db, entryId)
  }

  /** A rejected entry can no longer be confirmed. */
  lemma RejectThenConfirmFails(t: Funnel.Tiers, o: Funnel.Oracles, now: int, entryId: string)
    requires Funnel.ValidOracles(o)
    requires StagingStore.WellKeyed(t.db)
    ensures ConfirmStagingEntry(t.(db := RejectStagingEntry(t.db, entryId)), o, now, entryId) == Err("条目不存在: " + entryId)
  {
    var db := RejectStagingEntry(t.db, entryId);
    RejectedNotPending(t.db, entryId, o.scanOrder(db), now);
  }

  /** After a rejection no pending entry carries the rejected ID. */
  lemma RejectedNotPending(db0: StagingStore.Db, entryId: string, order: seq<string>, now: int)
    requires StagingStore.WellKeyed(db0)
    requires Seqs.Enumerates(order, RejectStagingEntry(db0, entryId).Keys)
    ensures var pending := AllPending(RejectStagingEntry(db0, entryId), order, now);
      forall i :: 0 <= i < |pending| ==> pending[i].id != entryId
  {
    var db := RejectStagingEntry(db0, entryId);
    var pending := AllPending(db, order, now);
    forall i | 0 <= i < |pending|
      ensures pending[i].id != entryId
    {
      var k :| k in db && HasPrefix(k, "staging:") && db[k] == pending[i];
      assert k != entryId && k in db0 && db0[k] == db[k];
    }
  }

  /** The dashboard counts of GetStagingStats. */
  datatype Stats = Stats(totalPending: nat, high: nat, medium: nat, low: nat, awaitingPromotion: nat)

  /** Go's `int(d.Hours())`: whole hours, truncated toward zero. */
  function WholeHours(seconds: int): (h: int)
    ensures seconds >= 0 ==> h * 3600 <= seconds < (h + 1) * 3600
    ensures seconds < 0 ==> h <= 0 && -h * 3600 <= -seconds < (-h + 1) * 3600
  {
    if seconds >= 0 then seconds / 3600 else -((-seconds) / 3600)
  }

  /** An entry the stats count as awaiting promotion. */
  predicate Awaiting(e: StagingEntry, cfg: Funnel.Config, now: int)
  {
    e.firstSeenAt != 0 && e.occurrenceCount >= cfg.minOccurrences && WholeHours(now - e.firstSeenAt) >= cfg.minWaitHours
  }

  /** One pass over the entries, bumping one confidence bucket and maybe the awaiting count per entry. */
  function Tally(entries: seq<StagingEntry>, cfg: Funnel.Config, now: int): (s: Stats)
    ensures s.totalPending == |entries|
    ensures s.high + s.medium + s.low == |entries|
    ensures s.high == Seqs.CountWhere(entries, (e: StagingEntry) => Funnel.RouteOf(e, cfg) == Funnel.AutoPromote)
    ensures s.medium == Seqs.CountWhere(entries, (e: StagingEntry) => Funnel.RouteOf(e, cfg) == Funnel.AwaitReview)
    ensures s.low == Seqs.CountWhere(entries, (e: StagingEntry) => Funnel.RouteOf(e, cfg) == Funnel.Discard)
    ensures s.awaitingPromotion == Seqs.CountWhere(entries, (e: StagingEntry) => Awaiting(e, cfg, now))
    ensures s.awaitingPromotion <= s.totalPending
  {
    if entries == [] then Stats(0, 0, 0, 0, 0)
    else
      var rest := Tally(entries[1..], cfg, now);
      var e := entries[0];
      var route := Funnel.RouteOf(e, cfg);
      Stats(rest.totalPending + 1,
            rest.high + (if route == Funnel.AutoPromote then 1 else 0),
            rest.medium + (if route == Funnel.AwaitReview then 1 else 0),
            rest.low + (if route == Funnel.Discard then 1 else 0),
            rest.awaitingPromotion + (if Awaiting(e, cfg, now) then 1 else 0))
  }

  /** GetStagingStats over every pending entry. */
  function GetStagingStats(db: StagingStore.Db, order: seq<string>, now: int, cfg: Funnel.Config): (s: Stats)
    requires Seqs.Enumerates(order, db.Keys)
    ensures s.high + s.medium + s.low == s.totalPending
    ensures s.awaitingPromotion <= s.totalPending
    ensures s.totalPending <= |db|
    ensures s.totalPending == |AllPending(db, order, now)|
    ensures s.high == Seqs.CountWhere(AllPending(db, order, now), (e: StagingEntry) => Funnel.RouteOf(e, cfg) == Funnel.AutoPromote)
    ensures s.medium == Seqs.CountWhere(AllPending(db, order, now), (e: StagingEntry) => Funnel.RouteOf(e, cfg) == Funnel.AwaitReview)
    ensures s.low == Seqs.CountWhere(AllPending(db, order, now), (e: StagingEntry) => Funnel.RouteOf(e, cfg) == Funnel.Discard)
    ensures s.awaitingPromotion == Seqs.CountWhere(AllPending(db, order, now), (e: StagingEntry) => Awaiting(e, cfg, now))
  {
    Tally(AllPending(db, order, now), cfg, now)
  }

  /**
   * The stats' "awaiting promotion" test agrees with the promotion criteria
   * for every pending entry whose first sighting is set and not in the future
   * (every entry the stats look at is such an entry).
   */
  lemma AwaitingIsPromotable(e: StagingEntry, cfg: Funnel.Config, now: int)
    requires e.status == Pending && e.firstSeenAt != 0 && e.firstSeenAt <= now
    ensures Awaiting(e, cfg, now) <==> StagingStore.Promotable(e, now, cfg.minOccurrences, cfg.minWaitHours)
  {
    var d := now - e.firstSeenAt;
    var h := WholeHours(d);
    if h >= cfg.minWaitHours {
      assert (h - cfg.minWaitHours) * 3600 >= 0;
    } else {
      assert (cfg.minWaitHours - (h + 1)) * 3600 >= 0;
    }
  }
}
