/**
 * The dashboard metrics collector: in-memory time series of promotions and
 * staging-queue lengths (the last 24 hours), cumulative counters, and the
 * dashboard read that merges persisted points with in-memory ones and
 * aggregates them into per-minute, per-hour or per-day slots.
 *
 * Time is an int number of seconds; `now` is the caller's clock reading.
 * Local-time formatting of slot keys is the parameter `Calendar`: `ago`
 * says how many whole units before the current one a timestamp falls, and
 * `start` gives the timestamp of the slot `i` units back.
 */
module MetricsCollector {
  import opened Wrappers
  import opened Types
  import Seqs
  import StagingStore

  /** One sample of a series (metrics_collector.go `TimeSeriesPoint`; `tag` is its Label). */
  datatype Point = Point(timestamp: int, value: real, tag: string)

  /** One category of the long-term-memory distribution. */
  datatype CategoryCount = CategoryCount(category: string, count: int, percent: real)

  /** The process-wide collector (metrics_collector.go `MetricsCollector`). */
  datatype Collector = Collector(
    promotionHistory: seq<Point>,
    queueLengthHistory: seq<Point>,
    categoryHistory: seq<CategoryCount>,
    totalPromotions: int,
    totalRejections: int,
    totalForgotten: int,
    cacheHits: int,
    cacheMisses: int)

  const SecondsPerHour: int := 3600
  /** In-memory series keep the last 24 hours. */
  const HistoryWindow: int := 24 * SecondsPerHour
  /** Dashboard results and the category distribution are cached for 30 seconds. */
  const DashboardCacheTtl: int := 30

  /** The collector at start-up: empty series, zero counters. */
  function NewCollector(): (c: Collector)
    ensures c.promotionHistory == [] && c.queueLengthHistory == [] && c.categoryHistory == []
    ensures c.totalPromotions == c.totalRejections == c.totalForgotten == c.cacheHits == c.cacheMisses == 0
  {
    Collector([], [], [], 0, 0, 0, 0, 0)
  }

  /** Points are in time order (appends always carry the current clock). */
  predicate Chronological(h: seq<Point>)
  {
    forall i, j :: 0 <= i < j < |h| ==> StampAt(h, i) <= StampAt(h, j)
  }

  /** The timestamp of the `i`-th point. */
  function StampAt(h: seq<Point>, i: nat): int
    requires i < |h|
  {
    h[i].timestamp
  }

  /** The index of the first point strictly after `cutoff`, if any. */
  function FirstAfter(h: seq<Point>, cutoff: int): (r: Option<nat>)
    ensures r.None? <==> forall i :: 0 <= i < |h| ==> h[i].timestamp <= cutoff
    ensures r.Some? ==>
      r.value < |h| && h[r.value].timestamp > cutoff
      && forall i :: 0 <= i < r.value ==> h[i].timestamp <= cutoff
  {
    if h == [] then None
    else if h[0].timestamp > cutoff then Some(0)
    else match FirstAfter(h[1..], cutoff)
      case None => None
      case Some(k) => Some(k + 1)
  }

  /**
   * trimHistory: drop everything before the first point newer than
   * `now - duration`; no such point empties the series.
   */
  function TrimHistory(h: seq<Point>, now: int, duration: int): (r: seq<Point>)
    ensures Seqs.IsSuffix(r, h)
    ensures forall i :: 0 <= i < |h| - |r| ==> h[i].timestamp <= now - duration
    ensures r != [] ==> r[0].timestamp > now - duration
  {
    match FirstAfter(h, now - duration)
    case None => []
    case Some(k) => h[k..]
  }

  /** Go's `p.Timestamp.After(cutoff)`. */
  function After(cutoff: int): Point -> bool
  {
    (p: Point) => p.timestamp > cutoff
  }

  /**
   * filterPointsAfter: the points strictly after `cutoff`, in order, each
   * as often as in the input.
   */
  function FilterPointsAfter(points: seq<Point>, cutoff: int): (r: seq<Point>)
    ensures forall i :: 0 <= i < |r| ==> r[i] in points && r[i].timestamp > cutoff
    ensures forall i :: 0 <= i < |points| && points[i].timestamp > cutoff ==> points[i] in r
    ensures |r| <= |points|
    ensures Seqs.Subsequence(r, points)
    ensures forall i {:trigger multiset(r)[points[i]]} :: 0 <= i < |points| ==>
      multiset(r)[points[i]] == if points[i].timestamp > cutoff then multiset(points)[points[i]] else 0
  {
    Seqs.FilterKeepsCounts(points, After(cutoff));
    Seqs.Filter(points, After(cutoff))
  }

  /**
   * On a chronological series, trimming keeps exactly the points newer
   * than the cutoff: a point survives iff it is after `now - duration`.
   */
  lemma TrimKeepsExactlyNewer(h: seq<Point>, now: int, duration: int)
    requires Chronological(h)
    ensures var r := TrimHistory(h, now, duration);
      forall i :: 0 <= i < |h| ==> (i >= |h| - |r| <==> h[i].timestamp > now - duration)
  {
    var f := FirstAfter(h, now - duration);
    if f.Some? {
      ChronologicalTail(h, now - duration, f.value);
    }
  }

  /** In a chronological series, everything from a point after the cutoff on is after it too. */
  lemma ChronologicalTail(h: seq<Point>, cutoff: int, k: nat)
    requires Chronological(h)
    requires k < |h| && h[k].timestamp > cutoff
    ensures forall i :: k <= i < |h| ==> h[i].timestamp > cutoff
  {
    forall i | k <= i < |h|
      ensures h[i].timestamp > cutoff
    {
      if i > k {
        assert StampAt(h, k) <= StampAt(h, i);
      }
    }
  }

  /** Appending a point at the current time keeps a series chronological. */
  lemma AppendNowChronological(h: seq<Point>, pt: Point)
    requires Chronological(h)
    requires forall i :: 0 <= i < |h| ==> h[i].timestamp <= pt.timestamp
    ensures Chronological(h + [pt])
  {
    var g := h + [pt];
    forall i, j | 0 <= i < j < |g|
      ensures StampAt(g, i) <= StampAt(g, j)
    {
      if j < |h| {
        assert StampAt(h, i) <= StampAt(h, j);
      }
    }
  }

  /**
   * RecordPromotion: a success counts and appends (now, 1, category); a
   * failure counts as a rejection; both trim the series to 24 hours.
   */
  function RecordPromotion(c: Collector, category: string, success: bool, now: int): (r: Collector)
    ensures success ==>
      r.totalPromotions == c.totalPromotions + 1 && r.totalRejections == c.totalRejections
      && |r.promotionHistory| > 0
      && r.promotionHistory[|r.promotionHistory| - 1] == Point(now, 1.0, category)
      && Seqs.IsSuffix(r.promotionHistory, c.promotionHistory + [Point(now, 1.0, category)])
    ensures !success ==>
      r.totalRejections == c.totalRejections + 1 && r.totalPromotions == c.totalPromotions
      && Seqs.IsSuffix(r.promotionHistory, c.promotionHistory)
    ensures r == c.(promotionHistory := r.promotionHistory, totalPromotions := r.totalPromotions,
                    totalRejections := r.totalRejections)
  {
    if success then
      var h := c.promotionHistory + [Point(now, 1.0, category)];
      var t := TrimHistory(h, now, HistoryWindow);
      assert t != [] by {
        assert h[|h| - 1].timestamp > now - HistoryWindow;
      }
      assert t[|t| - 1] == h[|h| - 1];
      c.(totalPromotions := c.totalPromotions + 1, promotionHistory := t)
    else
      var t := TrimHistory(c.promotionHistory, now, HistoryWindow);
      c.(totalRejections := c.totalRejections + 1, promotionHistory := t)
  }

  /** RecordQueueLength: append (now, length) and trim to 24 hours. */
  function RecordQueueLength(c: Collector, length: int, now: int): (r: Collector)
    ensures |r.queueLengthHistory| > 0
    ensures r.queueLengthHistory[|r.queueLengthHistory| - 1] == Point(now, length as real, "")
    ensures Seqs.IsSuffix(r.queueLengthHistory, c.queueLengthHistory + [Point(now, length as real, "")])
    ensures r == c.(queueLengthHistory := r.queueLengthHistory)
  {
    var h := c.queueLengthHistory + [Point(now, length as real, "")];
    var t := TrimHistory(h, now, HistoryWindow);
    assert t != [] by {
      assert h[|h| - 1].timestamp > now - HistoryWindow;
    }
    assert t[|t| - 1] == h[|h| - 1];
    c.(queueLengthHistory := t)
  }

  /** Trimming keeps a chronological series chronological. */
  lemma TrimKeepsChronological(h: seq<Point>, now: int, duration: int)
    requires Chronological(h)
    ensures Chronological(TrimHistory(h, now, duration))
  {
    SuffixChronological(h, TrimHistory(h, now, duration));
  }

  /** Recording a promotion keeps the series chronological when the clock does not go back. */
  lemma RecordPromotionChronological(c: Collector, category: string, success: bool, now: int)
    requires Chronological(c.promotionHistory)
    requires forall i :: 0 <= i < |c.promotionHistory| ==> c.promotionHistory[i].timestamp <= now
    ensures Chronological(RecordPromotion(c, category, success, now).promotionHistory)
  {
    var h := c.promotionHistory + [Point(now, 1.0, category)];
    AppendNowChronological(c.promotionHistory, Point(now, 1.0, category));
    if success {
      TrimKeepsChronological(h, now, HistoryWindow);
    } else {
      TrimKeepsChronological(c.promotionHistory, now, HistoryWindow);
    }
  }

  /** Recording a queue length keeps the series chronological when the clock does not go back. */
  lemma RecordQueueLengthChronological(c: Collector, length: int, now: int)
    requires Chronological(c.queueLengthHistory)
    requires forall i :: 0 <= i < |c.queueLengthHistory| ==> c.queueLengthHistory[i].timestamp <= now
    ensures Chronological(RecordQueueLength(c, length, now).queueLengthHistory)
  {
    AppendNowChronological(c.queueLengthHistory, Point(now, length as real, ""));
    TrimKeepsChronological(c.queueLengthHistory + [Point(now, length as real, "")], now, HistoryWindow);
  }

  lemma SuffixChronological(h: seq<Point>, t: seq<Point>)
    requires Chronological(h) && Seqs.IsSuffix(t, h)
    ensures Chronological(t)
  {
    var d := |h| - |t|;
    forall i, j | 0 <= i < j < |t|
      ensures StampAt(t, i) <= StampAt(t, j)
    {
      assert t[i] == h[d + i] && t[j] == h[d + j];
      assert StampAt(h, d + i) <= StampAt(h, d + j);
    }
  }

  /** The sum of the counts of `keys` in `m`. */
  function CountTotal(m: map<string, int>, keys: seq<string>): int
    requires forall i :: 0 <= i < |keys| ==> keys[i] in m
  {
    if keys == [] then 0 else m[keys[0]] + CountTotal(m, keys[1..])
  }

  /** count / total × 100, or 0 when the total is not positive. */
  function Percent(count: int, total: int): (r: real)
    ensures total <= 0 ==> r == 0.0
    ensures total > 0 ==> r * total as real == count as real * 100.0
    ensures total > 0 && 0 <= count <= total ==> 0.0 <= r <= 100.0
  {
    if total > 0 then count as real / total as real * 100.0 else 0.0
  }

  /** One entry per key of `keys`, each with its count and share of `total`. */
  function Entries(m: map<string, int>, keys: seq<string>, total: int): (r: seq<CategoryCount>)
    requires forall i :: 0 <= i < |keys| ==> keys[i] in m
    ensures |r| == |keys|
    ensures forall i :: 0 <= i < |r| ==>
      r[i].category == keys[i] && r[i].count == m[keys[i]] && r[i].percent == Percent(m[keys[i]], total)
  {
    if keys == [] then [] else [CategoryCount(keys[0], m[keys[0]], Percent(m[keys[0]], total))] + Entries(m, keys[1..], total)
  }

  /**
   * `h` lists every category of `m` once, in the iteration order `order`,
   * each with its count and its share of the total.
   */
  predicate Distribution(h: seq<CategoryCount>, m: map<string, int>, order: seq<string>)
  {
    |h| == |m| == |order|
    && (forall i :: 0 <= i < |order| ==> order[i] in m)
    && (forall i :: 0 <= i < |h| ==>
          h[i].category == order[i] && h[i].category in m && h[i].count == m[h[i].category]
          && h[i].percent == Percent(h[i].count, CountTotal(m, order)))
    && (forall k :: k in m ==> exists i :: 0 <= i < |h| && h[i].category == k)
    && (forall i, j :: 0 <= i < j < |h| ==> h[i].category != h[j].category)
  }

  /**
   * convertToCategoryHistory (and the body of UpdateCategoryDistribution):
   * one entry per category of the map, in its iteration order `order`,
   * with the count and its share of the total.
   */
  function CategoryHistory(m: map<string, int>, order: seq<string>): (r: seq<CategoryCount>)
    requires Seqs.Enumerates(order, m.Keys)
    ensures Distribution(r, m, order)
  {
    Seqs.EnumeratesCard(order, m.Keys);
    if |m| == 0 then []
    else
      var r := Entries(m, order, CountTotal(m, order));
      assert forall k :: k in m ==> exists i :: 0 <= i < |r| && r[i].category == k by {
        forall k | k in m
          ensures exists i :: 0 <= i < |r| && r[i].category == k
        {
          var i :| 0 <= i < |order| && order[i] == k;
          assert r[i].category == k;
        }
      }
      r
  }

  /** The percentages of a non-empty distribution with a positive total add up to 100. */
  lemma {:induction false} PercentsSum(m: map<string, int>, keys: seq<string>, total: int)
    requires forall i :: 0 <= i < |keys| ==> keys[i] in m
    requires total > 0
    ensures PercentSum(m, keys, total) * total as real == CountTotal(m, keys) as real * 100.0
  {
    if keys != [] {
      PercentsSum(m, keys[1..], total);
    }
  }

  /** Σ Percent(m[k], total) over `keys`. */
  function PercentSum(m: map<string, int>, keys: seq<string>, total: int): real
    requires forall i :: 0 <= i < |keys| ==> keys[i] in m
  {
    if keys == [] then 0.0 else Percent(m[keys[0]], total) + PercentSum(m, keys[1..], total)
  }

  /** UpdateCategoryDistribution: replace the category history, nothing else. */
  function UpdateCategoryDistribution(c: Collector, m: map<string, int>, order: seq<string>): (r: Collector)
    requires Seqs.Enumerates(order, m.Keys)
    ensures Distribution(r.categoryHistory, m, order)
    ensures r == c.(categoryHistory := r.categoryHistory)
  {
    c.(categoryHistory := CategoryHistory(m, order))
  }

  /** parseTimeRangeToHours: 1h, 24h, 7d and 30d; anything else is 24 hours. */
  function ParseTimeRangeToHours(timeRange: string): (hours: int)
    ensures hours in {1, 24, 168, 720}
    ensures timeRange == "1h" ==> hours == 1
    ensures timeRange == "7d" ==> hours == 7 * 24
    ensures timeRange == "30d" ==> hours == 30 * 24
    ensures timeRange !in {"1h", "7d", "30d"} ==> hours == 24
  {
    match timeRange
    case "1h" => 1
    case "24h" => 24
    case "7d" => 24 * 7
    case "30d" => 24 * 30
    case _ => 24
  }

  /** The resolution of a dashboard trend. */
  datatype Unit = Minute | Hour | Day

  /** Unit, requested slot count and the count used when that is not positive. */
  datatype Slots = Slots(unit: Unit, requested: int, fallback: nat)

  /** Up to one hour per minute, up to a day per hour, beyond that per day. */
  function SlotsFor(hours: int): (s: Slots)
    ensures s.fallback > 0
    ensures hours <= 1 ==> s.unit == Minute && s.requested == hours * 60
    ensures 1 < hours <= 24 ==> s.unit == Hour && s.requested == hours
    ensures 24 < hours ==> s.unit == Day && s.requested == hours / 24
  {
    if hours <= 1 then Slots(Minute, hours * 60, 60)
    else if hours <= 24 then Slots(Hour, hours, 24)
    else Slots(Day, hours / 24, 7)
  }

  /** Number of slots actually produced. */
  function SlotCount(s: Slots): nat
  {
    if s.requested <= 0 then s.fallback else s.requested
  }

  /** Every named time range yields whole slots of the expected resolution. */
  lemma TimeRangeSlots(timeRange: string)
    ensures var s := SlotsFor(ParseTimeRangeToHours(timeRange));
      (timeRange == "1h" ==> s.unit == Minute && SlotCount(s) == 60)
      && (timeRange == "7d" ==> s.unit == Day && SlotCount(s) == 7)
      && (timeRange == "30d" ==> s.unit == Day && SlotCount(s) == 30)
      && (timeRange !in {"1h", "7d", "30d"} ==> s.unit == Hour && SlotCount(s) == 24)
  {
  }

  /**
   * Local-calendar arithmetic: `ago(u, t)` is how many units `u` before
   * the current one the timestamp `t` falls (negative in the future),
   * `start(u, i)` the timestamp of the slot `i` units back.
   */
  datatype Calendar = Calendar(ago: (Unit, int) -> int, start: (Unit, int) -> int)

  /** Reference: the sum of the values of the points that fall in slot `i`. */
  function SlotSum(points: seq<Point>, cal: Calendar, u: Unit, i: int): real
  {
    if points == [] then 0.0
    else (if cal.ago(u, points[0].timestamp) == i then points[0].value else 0.0) + SlotSum(points[1..], cal, u, i)
  }

  /** Reference: how many points fall in slot `i`. */
  function SlotHits(points: seq<Point>, cal: Calendar, u: Unit, i: int): nat
  {
    if points == [] then 0
    else (if cal.ago(u, points[0].timestamp) == i then 1 else 0) + SlotHits(points[1..], cal, u, i)
  }

  /** A slot's value: the sum, or the mean when averaging and the slot is not empty. */
  function SlotValue(points: seq<Point>, cal: Calendar, u: Unit, i: int, isAverage: bool): real
  {
    var s := SlotSum(points, cal, u, i);
    var c := SlotHits(points, cal, u, i);
    if isAverage && c > 0 then s / c as real else s
  }

  /**
   * The per-slot running totals the Go code keeps in two maps, built by
   * walking the points in order; a point outside the `n` slots is skipped.
   */
  function Accumulate(points: seq<Point>, cal: Calendar, u: Unit, n: nat): (acc: seq<(real, nat)>)
    ensures |acc| == n
    ensures forall i :: 0 <= i < n ==> acc[i] == (SlotSum(points, cal, u, i), SlotHits(points, cal, u, i))
  {
    if points == [] then seq(n, i => (0.0, 0))
    else
      var rest := Accumulate(points[1..], cal, u, n);
      var slot := cal.ago(u, points[0].timestamp);
      var acc := if 0 <= slot < n then rest[slot := (points[0].value + rest[slot].0, rest[slot].1 + 1)] else rest;
      AccumulateStep(points, cal, u, n, rest, acc);
      acc
  }

  lemma AccumulateStep(points: seq<Point>, cal: Calendar, u: Unit, n: nat,
                       rest: seq<(real, nat)>, acc: seq<(real, nat)>)
    requires points != [] && |rest| == n
    requires forall i :: 0 <= i < n ==> rest[i] == (SlotSum(points[1..], cal, u, i), SlotHits(points[1..], cal, u, i))
    requires var slot := cal.ago(u, points[0].timestamp);
      acc == if 0 <= slot < n then rest[slot := (points[0].value + rest[slot].0, rest[slot].1 + 1)] else rest
    ensures |acc| == n
    ensures forall i :: 0 <= i < n ==> acc[i] == (SlotSum(points, cal, u, i), SlotHits(points, cal, u, i))
  {
    var slot := cal.ago(u, points[0].timestamp);
    forall i | 0 <= i < n
      ensures acc[i] == (SlotSum(points, cal, u, i), SlotHits(points, cal, u, i))
    {
      if slot == i {
        assert acc[i] == (points[0].value + rest[i].0, rest[i].1 + 1);
        assert SlotSum(points, cal, u, i) == points[0].value + SlotSum(points[1..], cal, u, i);
        assert SlotHits(points, cal, u, i) == 1 + SlotHits(points[1..], cal, u, i);
      } else {
        assert acc[i] == rest[i];
        assert SlotSum(points, cal, u, i) == 0.0 + SlotSum(points[1..], cal, u, i);
        assert SlotHits(points, cal, u, i) == 0 + SlotHits(points[1..], cal, u, i);
      }
    }
  }

  /** Appending one point changes only the slot it falls in. */
  lemma {:induction false} SlotAppend(init: seq<Point>, last: Point, cal: Calendar, u: Unit, i: int)
    ensures SlotSum(init + [last], cal, u, i)
      == SlotSum(init, cal, u, i) + (if cal.ago(u, last.timestamp) == i then last.value else 0.0)
    ensures SlotHits(init + [last], cal, u, i)
      == SlotHits(init, cal, u, i) + (if cal.ago(u, last.timestamp) == i then 1 else 0)
  {
    if init == [] {
      assert [] + [last] == [last];
    } else {
      assert (init + [last])[1..] == init[1..] + [last];
      SlotAppend(init[1..], last, cal, u, i);
    }
  }

  /**
   * aggregateBy{Minute,Hour,Day}: one point per slot, oldest first, each
   * carrying its slot's start and its sum (or mean); points outside the
   * slots are ignored. A non-positive slot count falls back to the default.
   */
  function Aggregate(points: seq<Point>, isAverage: bool, s: Slots, cal: Calendar): (r: seq<Point>)
    ensures |r| == SlotCount(s)
    ensures forall k :: 0 <= k < |r| ==>
      r[k] == Point(cal.start(s.unit, |r| - 1 - k), SlotValue(points, cal, s.unit, |r| - 1 - k, isAverage), "")
  {
    var n := SlotCount(s);
    var acc := Accumulate(points, cal, s.unit, n);
    seq(n, k requires 0 <= k < n =>
      var i := n - 1 - k;
      Point(cal.start(s.unit, i), if isAverage && acc[i].1 > 0 then acc[i].0 / acc[i].1 as real else acc[i].0, ""))
  }

  /** A point outside every slot leaves the aggregation unchanged. */
  lemma OutsidePointIgnored(points: seq<Point>, p: Point, isAverage: bool, s: Slots, cal: Calendar)
    requires var a := cal.ago(s.unit, p.timestamp); a < 0 || a >= SlotCount(s)
    ensures Aggregate(points + [p], isAverage, s, cal) == Aggregate(points, isAverage, s, cal)
  {
    var r1 := Aggregate(points + [p], isAverage, s, cal);
    var r2 := Aggregate(points, isAverage, s, cal);
    forall k | 0 <= k < |r1|
      ensures r1[k] == r2[k]
    {
      SlotAppend(points, p, cal, s.unit, |r1| - 1 - k);
    }
  }

  /** In a summed trend, a point inside the window adds its value to exactly its own slot. */
  lemma PointLandsInItsSlot(points: seq<Point>, p: Point, s: Slots, cal: Calendar, k: nat)
    requires k < SlotCount(s)
    ensures var r1 := Aggregate(points + [p], false, s, cal);
      var r2 := Aggregate(points, false, s, cal);
      r1[k].value == r2[k].value + (if cal.ago(s.unit, p.timestamp) == SlotCount(s) - 1 - k then p.value else 0.0)
  {
    SlotAppend(points, p, cal, s.unit, SlotCount(s) - 1 - k);
  }

  /** The trend of a series over `hours` at the resolution SlotsFor chooses. */
  function Trend(points: seq<Point>, isAverage: bool, hours: int, cal: Calendar): (r: seq<Point>)
    ensures |r| == SlotCount(SlotsFor(hours))
  {
    Aggregate(points, isAverage, SlotsFor(hours), cal)
  }

  /** The latest timestamp in `points`, starting from `from`. */
  function Latest(points: seq<Point>, from: int): (r: int)
    ensures r >= from
    ensures forall i :: 0 <= i < |points| ==> points[i].timestamp <= r
    ensures r == from || exists i :: 0 <= i < |points| && points[i].timestamp == r
  {
    if points == [] then from
    else
      var rest := Latest(points[1..], if points[0].timestamp > from then points[0].timestamp else from);
      assert forall i :: 0 <= i < |points| ==> points[i].timestamp <= rest by {
        forall i | 0 <= i < |points|
          ensures points[i].timestamp <= rest
        {
          if i > 0 {
            assert points[i] == points[1..][i - 1];
          }
        }
      }
      assert rest == from || exists i :: 0 <= i < |points| && points[i].timestamp == rest by {
        if rest != from && rest != points[0].timestamp {
          var j :| 0 <= j < |points[1..]| && points[1..][j].timestamp == rest;
          assert points[j + 1].timestamp == rest;
        }
      }
      rest
  }

  /**
   * Merging persisted points with in-memory ones: the persisted series
   * first, then the in-memory points newer than every persisted point of
   * either series (the Go zero time, 0 here, when nothing is persisted).
   */
  function MergeSeries(db: seq<Point>, mem: seq<Point>, maxDbTime: int): (r: seq<Point>)
    ensures Seqs.IsPrefix(db, r)
    ensures forall i :: |db| <= i < |r| ==> r[i] in mem && r[i].timestamp > maxDbTime
    ensures forall i :: 0 <= i < |mem| && mem[i].timestamp > maxDbTime ==> mem[i] in r[|db|..]
    ensures Seqs.Subsequence(r[|db|..], mem)
    ensures forall i {:trigger multiset(r[|db|..])[mem[i]]} :: 0 <= i < |mem| ==>
      multiset(r[|db|..])[mem[i]] == if mem[i].timestamp > maxDbTime then multiset(mem)[mem[i]] else 0
  {
    var newer := FilterPointsAfter(mem, maxDbTime);
    assert (db + newer)[|db|..] == newer;
    db + newer
  }

  /** The newest persisted timestamp across both series, from Go's zero time. */
  function MaxDbTime(dbPromotions: seq<Point>, dbQueues: seq<Point>): (t: int)
    ensures t >= 0
    ensures forall i :: 0 <= i < |dbPromotions| ==> dbPromotions[i].timestamp <= t
    ensures forall i :: 0 <= i < |dbQueues| ==> dbQueues[i].timestamp <= t
  {
    Latest(dbQueues, Latest(dbPromotions, 0))
  }

  /** No in-memory point that is already covered by a persisted one is counted twice. */
  lemma MergeNeverDuplicatesPersisted(db: seq<Point>, other: seq<Point>, mem: seq<Point>)
    ensures var r := MergeSeries(db, mem, MaxDbTime(db, other));
      forall i, j :: 0 <= i < |db| <= j < |r| ==> r[j].timestamp > r[i].timestamp
  {
  }

  /** One row of the `metrics_timeseries` table. */
  datatype Row = Row(metricType: string, value: real, category: Option<string>, timestamp: int)

  const PromotionMetric: string := "promotion"
  const QueueLengthMetric: string := "queue_length"

  function IsMetric(t: string): Row -> bool
  {
    (x: Row) => x.metricType == t
  }

  /** A row as a point: timestamp and value, with the category as label when asked and present. */
  function PointOf(x: Row, labels: bool): Point
  {
    Point(x.timestamp, x.value, if labels && x.category.Some? then x.category.value else "")
  }

  function PointsOf(rows: seq<Row>, labels: bool): (r: seq<Point>)
    ensures |r| == |rows| && forall i :: 0 <= i < |r| ==> r[i] == PointOf(rows[i], labels)
  {
    seq(|rows|, i requires 0 <= i < |rows| => PointOf(rows[i], labels))
  }

  lemma PointsOfCons(x: Row, s: seq<Row>, labels: bool)
    ensures PointsOf([x] + s, labels) == [PointOf(x, labels)] + PointsOf(s, labels)
  {
  }

  /**
   * Splitting rows by metric type in one pass, in row order; rows of
   * other types are dropped. With `labels`, a row's category becomes the
   * label.
   */
  function SplitRows(rows: seq<Row>, labels: bool): (r: (seq<Point>, seq<Point>))
    ensures r.0 == PointsOf(Seqs.Filter(rows, IsMetric(PromotionMetric)), labels)
    ensures r.1 == PointsOf(Seqs.Filter(rows, IsMetric(QueueLengthMetric)), labels)
    decreases |rows|
  {
    if rows == [] then ([], [])
    else
      var rest := SplitRows(rows[1..], labels);
      var x := rows[0];
      var pt := PointOf(x, labels);
      PointsOfCons(x, Seqs.Filter(rows[1..], IsMetric(PromotionMetric)), labels);
      PointsOfCons(x, Seqs.Filter(rows[1..], IsMetric(QueueLengthMetric)), labels);
      if x.metricType == PromotionMetric then ([pt] + rest.0, rest.1)
      else if x.metricType == QueueLengthMetric then (rest.0, [pt] + rest.1)
      else rest
  }

  /** queryRawMetricsFromDB: no database (or a failed query) gives two empty series. */
  function QueryRawMetrics(rows: Option<seq<Row>>): (r: (seq<Point>, seq<Point>))
    ensures rows.None? ==> r == ([], [])
    ensures rows.Some? ==>
      r.0 == PointsOf(Seqs.Filter(rows.value, IsMetric(PromotionMetric)), false)
      && r.1 == PointsOf(Seqs.Filter(rows.value, IsMetric(QueueLengthMetric)), false)
    ensures rows.Some? ==>
      |r.0| + |r.1| <= |rows.value|
      && (forall i :: 0 <= i < |r.0| ==> r.0[i].tag == "")
      && (forall i :: 0 <= i < |r.1| ==> r.1[i].tag == "")
  {
    match rows
    case None => ([], [])
    case Some(rs) =>
      SplitCounts(rs);
      SplitRows(rs, false)
  }

  /** The two metric types are disjoint, so the split never duplicates a row. */
  lemma {:induction false} SplitCounts(rows: seq<Row>)
    ensures Seqs.CountWhere(rows, IsMetric(PromotionMetric))
      + Seqs.CountWhere(rows, IsMetric(QueueLengthMetric)) <= |rows|
  {
    if rows != [] {
      SplitCounts(rows[1..]);
    }
  }

  /** getStagingQueueLength: the number of pending staging entries (no thresholds). */
  function StagingQueueLength(db: StagingStore.Db, order: seq<string>, now: int): (n: nat)
    requires Seqs.Enumerates(order, db.Keys)
    ensures n <= |db|
  {
    |StagingStore.GetPendingEntries(db, order, now, 1, 0)|
  }

  /** a / (a + b) × 100, or 0 when there were no attempts. */
  function Rate(a: int, b: int): (r: real)
    ensures a + b <= 0 ==> r == 0.0
    ensures a + b > 0 ==> r * (a + b) as real == a as real * 100.0
    ensures 0 <= a && 0 <= b ==> 0.0 <= r <= 100.0
  {
    if a + b > 0 then a as real / (a + b) as real * 100.0 else 0.0
  }

  /** Success and failure rates are complementary once anything was counted. */
  lemma RatesComplement(a: int, b: int)
    requires a + b > 0
    ensures Rate(a, b) + Rate(b, a) == 100.0
  {
    var t := (a + b) as real;
    assert Rate(a, b) == a as real / t * 100.0;
    assert Rate(b, a) == b as real / t * 100.0;
    assert a as real / t + b as real / t == t / t;
  }

  /** What the dashboard shows. */
  datatype Dashboard = Dashboard(
    currentQueueLength: int,
    totalPromotions: int,
    totalRejections: int,
    totalForgotten: int,
    promotionSuccessRate: real,
    cacheHitRate: real,
    cacheHits: int,
    cacheMisses: int,
    promotionTrend: seq<Point>,
    queueLengthTrend: seq<Point>,
    categoryDistribution: seq<CategoryCount>,
    timestamp: int,
    dataRangeHours: int)

  datatype CacheEntry = CacheEntry(data: Dashboard, expireAt: int)

  /** The category-distribution cache; `data` is None until the first query. */
  datatype CategoryCache = CategoryCache(data: Option<map<string, int>>, expireAt: int)

  /** Everything a dashboard read touches. */
  datatype Board = Board(cache: map<string, CacheEntry>, categories: CategoryCache, metrics: Collector)

  /** Go map iteration orders, one per map, each listing the keys once. */
  ghost predicate EnumeratesAll(keyOrder: map<string, int> -> seq<string>)
  {
    forall m: map<string, int> :: Seqs.Enumerates(keyOrder(m), m.Keys)
  }

  /** The category distribution in force: the cached one while fresh, otherwise the query result. */
  function CategoriesFor(cc: CategoryCache, now: int, queried: map<string, int>): (r: (map<string, int>, CategoryCache))
    ensures cc.data.Some? && now < cc.expireAt ==> r == (cc.data.value, cc)
    ensures !(cc.data.Some? && now < cc.expireAt) ==>
      r == (queried, CategoryCache(Some(queried), now + DashboardCacheTtl))
  {
    if cc.data.Some? && now < cc.expireAt then (cc.data.value, cc)
    else (queried, CategoryCache(Some(queried), now + DashboardCacheTtl))
  }

  /** Start of a dashboard window of the given number of hours ending now. */
  function WindowStart(now: int, hours: int): (t: int)
    ensures hours >= 0 ==> t <= now
  {
    now - hours * SecondsPerHour
  }

  /**
   * The dashboard computed afresh: counters and rates from the collector,
   * trends from the persisted rows merged with the in-memory series and
   * cut to the requested window.
   */
  function BuildDashboard(c: Collector, hours: int, now: int, queueLength: int,
                          rows: Option<seq<Row>>, categories: map<string, int>,
                          keyOrder: map<string, int> -> seq<string>, cal: Calendar): (d: Dashboard)
    requires EnumeratesAll(keyOrder)
    ensures d.dataRangeHours == hours && d.currentQueueLength == queueLength && d.timestamp == now
    ensures d.totalPromotions == c.totalPromotions && d.totalRejections == c.totalRejections
    ensures d.totalForgotten == c.totalForgotten
    ensures d.cacheHits == c.cacheHits && d.cacheMisses == c.cacheMisses
    ensures d.promotionSuccessRate == Rate(c.totalPromotions, c.totalRejections)
    ensures d.cacheHitRate == Rate(c.cacheHits, c.cacheMisses)
    ensures |d.promotionTrend| == |d.queueLengthTrend| == SlotCount(SlotsFor(hours))
    ensures Distribution(d.categoryDistribution, categories, keyOrder(categories))
  {
    var raw := QueryRawMetrics(rows);
    var maxDb := MaxDbTime(raw.0, raw.1);
    var cutoff := WindowStart(now, hours);
    var promotions := FilterPointsAfter(MergeSeries(raw.0, c.promotionHistory, maxDb), cutoff);
    var queues := FilterPointsAfter(MergeSeries(raw.1, c.queueLengthHistory, maxDb), cutoff);
    Dashboard(queueLength, c.totalPromotions, c.totalRejections, c.totalForgotten,
      Rate(c.totalPromotions, c.totalRejections), Rate(c.cacheHits, c.cacheMisses),
      c.cacheHits, c.cacheMisses,
      Trend(promotions, false, hours, cal), Trend(queues, true, hours, cal),
      CategoryHistory(categories, keyOrder(categories)), now, hours)
  }

  /**
   * A newly recorded promotion point shows up on the dashboard exactly when
   * it is newer than every persisted point and than the window's start: it
   * then adds its value to the slot its timestamp falls in, and to no other.
   */
  lemma DashboardCountsNewPromotion(c: Collector, hours: int, now: int, queueLength: int,
                                    rows: Option<seq<Row>>, categories: map<string, int>,
                                    keyOrder: map<string, int> -> seq<string>, cal: Calendar, p: Point, k: nat)
    requires EnumeratesAll(keyOrder)
    requires k < SlotCount(SlotsFor(hours))
    ensures BuildDashboard(c.(promotionHistory := c.promotionHistory + [p]), hours, now, queueLength,
                           rows, categories, keyOrder, cal).promotionTrend[k].value
      == BuildDashboard(c, hours, now, queueLength, rows, categories, keyOrder, cal).promotionTrend[k].value
         + (if p.timestamp > MaxDbTime(QueryRawMetrics(rows).0, QueryRawMetrics(rows).1)
               && p.timestamp > WindowStart(now, hours)
               && cal.ago(SlotsFor(hours).unit, p.timestamp) == SlotCount(SlotsFor(hours)) - 1 - k
            then p.value else 0.0)
    ensures BuildDashboard(c.(promotionHistory := c.promotionHistory + [p]), hours, now, queueLength,
                           rows, categories, keyOrder, cal).queueLengthTrend
      == BuildDashboard(c, hours, now, queueLength, rows, categories, keyOrder, cal).queueLengthTrend
  {
    DashboardTrends(c, hours, now, queueLength, rows, categories, keyOrder, cal);
    DashboardTrends(c.(promotionHistory := c.promotionHistory + [p]), hours, now, queueLength, rows, categories, keyOrder, cal);
    TrendCountsNewPoint(QueryRawMetrics(rows).0, c.promotionHistory, p,
                        MaxDbTime(QueryRawMetrics(rows).0, QueryRawMetrics(rows).1),
                        WindowStart(now, hours), SlotsFor(hours), cal, k);
  }

  /** The slot arithmetic behind DashboardCountsNewPromotion, on the series alone. */
  lemma TrendCountsNewPoint(db: seq<Point>, mem: seq<Point>, p: Point, maxDb: int, cutoff: int, s: Slots, cal: Calendar, k: nat)
    requires k < SlotCount(s)
    ensures Aggregate(FilterPointsAfter(MergeSeries(db, mem + [p], maxDb), cutoff), false, s, cal)[k].value
      == Aggregate(FilterPointsAfter(MergeSeries(db, mem, maxDb), cutoff), false, s, cal)[k].value
         + (if p.timestamp > maxDb && p.timestamp > cutoff && cal.ago(s.unit, p.timestamp) == SlotCount(s) - 1 - k
            then p.value else 0.0)
  {
    var w0 := FilterPointsAfter(MergeSeries(db, mem, maxDb), cutoff);
    WindowAfterAppend(db, mem, p, maxDb, cutoff);
    if p.timestamp > maxDb && p.timestamp > cutoff {
      PointLandsInItsSlot(w0, p, s, cal, k);
    }
  }

  /** The dashboard's trends aggregate the merged series cut to the window. */
  lemma DashboardTrends(c: Collector, hours: int, now: int, queueLength: int,
                        rows: Option<seq<Row>>, categories: map<string, int>,
                        keyOrder: map<string, int> -> seq<string>, cal: Calendar)
    requires EnumeratesAll(keyOrder)
    ensures var d := BuildDashboard(c, hours, now, queueLength, rows, categories, keyOrder, cal);
      var raw := QueryRawMetrics(rows);
      var maxDb := MaxDbTime(raw.0, raw.1);
      var cutoff := WindowStart(now, hours);
      d.promotionTrend == Aggregate(FilterPointsAfter(MergeSeries(raw.0, c.promotionHistory, maxDb), cutoff), false, SlotsFor(hours), cal)
      && d.queueLengthTrend == Aggregate(FilterPointsAfter(MergeSeries(raw.1, c.queueLengthHistory, maxDb), cutoff), true, SlotsFor(hours), cal)
  {
  }

  /** Appending an in-memory point appends it to the merged window exactly when it is newer than both bounds. */
  lemma WindowAfterAppend(db: seq<Point>, mem: seq<Point>, p: Point, maxDb: int, cutoff: int)
    ensures var w0 := FilterPointsAfter(MergeSeries(db, mem, maxDb), cutoff);
      var w1 := FilterPointsAfter(MergeSeries(db, mem + [p], maxDb), cutoff);
      (p.timestamp > maxDb && p.timestamp > cutoff ==> w1 == w0 + [p])
      && (p.timestamp <= maxDb || p.timestamp <= cutoff ==> w1 == w0)
  {
    MergeSnoc(db, mem, p, maxDb);
    var merged0 := MergeSeries(db, mem, maxDb);
    if p.timestamp > maxDb {
      WindowSnoc(merged0, p, cutoff);
      assert FilterPointsAfter(merged0, cutoff) + [] == FilterPointsAfter(merged0, cutoff);
    } else {
      assert merged0 + [] == merged0;
    }
  }

  lemma WindowSnoc(merged: seq<Point>, p: Point, cutoff: int)
    ensures FilterPointsAfter(merged + [p], cutoff) == FilterPointsAfter(merged, cutoff) + (if p.timestamp > cutoff then [p] else [])
  {
    Seqs.FilterSnoc(merged, p, After(cutoff));
  }

  /** Appending an in-memory point appends it to the merge exactly when it is newer than every persisted point. */
  lemma MergeSnoc(db: seq<Point>, mem: seq<Point>, p: Point, maxDb: int)
    ensures MergeSeries(db, mem + [p], maxDb) == MergeSeries(db, mem, maxDb) + (if p.timestamp > maxDb then [p] else [])
  {
    Seqs.FilterSnoc(mem, p, After(maxDb));
  }

  /**
   * GetDashboardMetrics: a fresh cached result for the time range is
   * returned as is, touching nothing; otherwise the dashboard is built,
   * cached for 30 seconds under the time range, and the collector then
   * records the queue length and the category distribution (the Go code
   * starts both updates while holding the collector's read lock, so they
   * land after the read).
   */
  function GetDashboardMetrics(b: Board, timeRange: string, now: int,
                               staging: StagingStore.Db, order: seq<string>,
                               rows: Option<seq<Row>>, queriedCategories: map<string, int>,
                               keyOrder: map<string, int> -> seq<string>, cal: Calendar): (r: (Dashboard, Board))
    requires Seqs.Enumerates(order, staging.Keys)
    requires EnumeratesAll(keyOrder)
    ensures timeRange in b.cache && now < b.cache[timeRange].expireAt ==> r == (b.cache[timeRange].data, b)
    ensures !(timeRange in b.cache && now < b.cache[timeRange].expireAt) ==>
      var hours := ParseTimeRangeToHours(timeRange);
      var cats := CategoriesFor(b.categories, now, queriedCategories);
      r.0.dataRangeHours == hours
      && r.0.currentQueueLength == StagingQueueLength(staging, order, now)
      && |r.0.promotionTrend| == SlotCount(SlotsFor(hours))
      && r.1.cache == b.cache[timeRange := CacheEntry(r.0, now + DashboardCacheTtl)]
      && r.1.categories == cats.1
      && |r.1.metrics.queueLengthHistory| > 0
      && r.1.metrics.queueLengthHistory[|r.1.metrics.queueLengthHistory| - 1]
         == Point(now, StagingQueueLength(staging, order, now) as real, "")
      && |r.1.metrics.categoryHistory| == |cats.0|
      && r.1.metrics.totalPromotions == b.metrics.totalPromotions
  {
    if timeRange in b.cache && now < b.cache[timeRange].expireAt then (b.cache[timeRange].data, b)
    else
      var hours := ParseTimeRangeToHours(timeRange);
      var queueLength := StagingQueueLength(staging, order, now);
      var cats := CategoriesFor(b.categories, now, queriedCategories);
      var d := BuildDashboard(b.metrics, hours, now, queueLength, rows, cats.0, keyOrder, cal);
      var m := UpdateCategoryDistribution(RecordQueueLength(b.metrics, queueLength, now), cats.0, keyOrder(cats.0));
      (d, Board(b.cache[timeRange := CacheEntry(d, now + DashboardCacheTtl)], cats.1, m))
  }

  /** Asking again for the same range within 30 seconds returns the same dashboard. */
  lemma RepeatWithinTtlIsCached(b: Board, timeRange: string, now: int, later: int,
                                staging: StagingStore.Db, order: seq<string>,
                                rows: Option<seq<Row>>, cats: map<string, int>,
                                staging2: StagingStore.Db, order2: seq<string>,
                                rows2: Option<seq<Row>>, cats2: map<string, int>,
                                keyOrder: map<string, int> -> seq<string>, cal: Calendar)
    requires Seqs.Enumerates(order, staging.Keys) && Seqs.Enumerates(order2, staging2.Keys)
    requires EnumeratesAll(keyOrder)
    requires !(timeRange in b.cache && now < b.cache[timeRange].expireAt)
    requires now <= later < now + DashboardCacheTtl
    ensures var first := GetDashboardMetrics(b, timeRange, now, staging, order, rows, cats, keyOrder, cal);
      var second := GetDashboardMetrics(first.1, timeRange, later, staging2, order2, rows2, cats2, keyOrder, cal);
      second.0 == first.0 && second.1 == first.1
  {
  }
}
