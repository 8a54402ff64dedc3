/** The request series of the observability summary (apps/api/src/observability.rs): grouped rows laid
    out over every aligned bucket of the window. */
module TimeSeries {
  import opened Common
  import opened Sums

  datatype RangeSpec = RangeSpec(window: int, resolution: int)

  /** The five ranges a caller may ask for; a day by default. */
  function ParseRange(value: Option<string>): (r: Option<RangeSpec>)
    ensures r.Some? ==> 0 < r.value.window && r.value.resolution > 0 && r.value.resolution % 60_000 == 0
    ensures r.Some? ==> r.value.window % r.value.resolution == 0 && 60 <= r.value.window / r.value.resolution <= 168
    ensures r.None? <==> value.Some? && value.value !in {"1h", "6h", "24h", "7d", "30d"}
  {
    match if value.Some? then value.value else "24h"
    case "1h" => Some(RangeSpec(3_600_000, 60_000))
    case "6h" => Some(RangeSpec(21_600_000, 300_000))
    case "24h" => Some(RangeSpec(86_400_000, 900_000))
    case "7d" => Some(RangeSpec(604_800_000, 3_600_000))
    case "30d" => Some(RangeSpec(2_592_000_000, 21_600_000))
    case _ => None
  }

  /** One stored row: the minute it covers and its request count. */
  datatype Row = Row(minute: int, requests: nat)

  /** The bucket a recorded time is stored under: never negative. */
  function MinuteBucket(now: int): (minute: int)
    ensures 0 <= minute && minute % 60_000 == 0 && (0 <= now ==> minute <= now < minute + 60_000)
  {
    var minute := Max(now, 0) / 60_000 * 60_000;
    AlignedBounds(Max(now, 0), 60_000);
    minute
  }

  /** Euclidean alignment, as the loop computes its bounds. */
  function Aligned(t: int, resolution: int): int requires resolution > 0 { t / resolution * resolution }

  /** Truncating alignment, as the database computes its groups. */
  function GroupOf(t: int, resolution: int): int
    requires resolution > 0
  {
    if 0 <= t then t / resolution * resolution else -(-t / resolution * resolution)
  }

  /** Groups are cut towards zero: those before it mirror those after it. */
  lemma GroupsMirror(t: int, resolution: int)
    requires resolution > 0
    ensures GroupOf(-t, resolution) == -GroupOf(t, resolution)
  {
    assert -(-t) == t;
  }

  predicate Within(row: Row, start: int, end: int) { start <= row.minute < end }

  /** SELECT ... GROUP BY over the window. */
  function Grouped(rows: seq<Row>, start: int, end: int, resolution: int): map<int, nat>
    requires resolution > 0
  {
    if rows == [] then map[]
    else
      var last, groups := rows[|rows| - 1], Grouped(rows[..|rows| - 1], start, end, resolution);
      var bucket := GroupOf(last.minute, resolution);
      if !Within(last, start, end) then groups
      else groups[bucket := last.requests + if bucket in groups then groups[bucket] else 0]
  }

  /** The separate total over the window. */
  function WindowTotal(rows: seq<Row>, start: int, end: int): nat {
    if rows == [] then 0
    else
      var last := rows[|rows| - 1];
      WindowTotal(rows[..|rows| - 1], start, end) + if Within(last, start, end) then last.requests else 0
  }

  datatype Point = Point(bucket: int, requests: nat)

  function PointTotal(points: seq<Point>): nat {
    if points == [] then 0 else PointTotal(points[..|points| - 1]) + points[|points| - 1].requests
  }

  function Size(groups: map<int, nat>): int -> int { k => if k in groups then groups[k] else 0 }

  ghost function GroupTotal(groups: map<int, nat>): int { Sum(groups.Keys, Size(groups)) }

  lemma AlignedBounds(t: int, resolution: int)
    requires resolution > 0
    ensures Aligned(t, resolution) <= t < Aligned(t, resolution) + resolution
    ensures Aligned(t, resolution) % resolution == 0
  {
    MultipleOf(t / resolution, resolution);
  }

  lemma MultipleOf(q: int, resolution: int)
    requires resolution > 0
    ensures q * resolution % resolution == 0
  {
    var p := q * resolution;
    assert p == resolution * (p / resolution) + p % resolution;
    var d := q - p / resolution;
    assert resolution * d == p % resolution;
    assert d >= 1 ==> resolution * d >= resolution;
    assert d <= -1 ==> resolution * d <= -resolution;
  }

  lemma AlignedMonotone(a: int, b: int, resolution: int)
    requires resolution > 0 && a <= b
    ensures Aligned(a, resolution) <= Aligned(b, resolution)
  {
    AlignedBounds(a, resolution);
    AlignedBounds(b, resolution);
    var gap := a / resolution - b / resolution;
    assert gap >= 1 ==> gap * resolution >= resolution;
    assert gap <= 0 ==> gap * resolution <= 0;
    assert Aligned(a, resolution) - Aligned(b, resolution) == gap * resolution;
  }

  /** Two windows that meet count every request of the whole window once. */
  lemma {:induction false} WindowsMeet(rows: seq<Row>, start: int, middle: int, end: int)
    requires start <= middle <= end
    ensures WindowTotal(rows, start, end) == WindowTotal(rows, start, middle) + WindowTotal(rows, middle, end)
  {
    if rows == [] {
    } else {
      WindowsMeet(rows[..|rows| - 1], start, middle, end);
    }
  }

  /** Grouping loses no request. */
  lemma {:induction false} GroupedTotal(rows: seq<Row>, start: int, end: int, resolution: int)
    requires resolution > 0
    ensures GroupTotal(Grouped(rows, start, end, resolution)) == WindowTotal(rows, start, end)
  {
    if rows == [] {
    } else {
      var last, before := rows[|rows| - 1], Grouped(rows[..|rows| - 1], start, end, resolution);
      GroupedTotal(rows[..|rows| - 1], start, end, resolution);
      if Within(last, start, end) {
        var k, after := GroupOf(last.minute, resolution), Grouped(rows, start, end, resolution);
        if k in before {
          assert after.Keys == before.Keys;
          SumChange(before.Keys, Size(before), Size(after), k);
        } else {
          assert after.Keys == before.Keys + {k};
          SumInsert(before.Keys, Size(before), Size(after), k);
        }
      }
    }
  }

  /** Every group is one of the buckets the loop visits. */
  lemma {:induction false} GroupedKeys(rows: seq<Row>, start: int, end: int, resolution: int, key: int)
    requires resolution > 0 && forall i :: 0 <= i < |rows| ==> 0 <= rows[i].minute
    requires key in Grouped(rows, start, end, resolution)
    ensures key % resolution == 0 && Aligned(start, resolution) <= key <= Aligned(end, resolution)
  {
    var n := |rows| - 1;
    if key in Grouped(rows[..n], start, end, resolution) {
      GroupedKeys(rows[..n], start, end, resolution, key);
    } else {
      var minute := rows[n].minute;
      assert key == Aligned(minute, resolution);
      AlignedMonotone(start, minute, resolution);
      AlignedMonotone(minute, end, resolution);
      AlignedBounds(minute, resolution);
    }
  }

  lemma LastBucketBelowLimit(now: int, resolution: int)
    requires resolution > 0 && resolution % 60_000 == 0 && now <= I64_MAX
    ensures Aligned(now, resolution) < I64_MAX
  {
    AlignedBounds(now, resolution);
    var half := resolution / 2;
    assert resolution == 2 * half;
    assert Aligned(now, resolution) == 2 * (now / resolution * half);
  }

  predicate OnGrid(t: int, res: int) requires res > 0 { t % res == 0 }

  /** Grid points are at least one step apart. */
  lemma StepApart(a: int, b: int, res: int)
    requires res > 0 && OnGrid(a, res) && OnGrid(b, res) && a < b
    ensures a + res <= b
  {
    var d := b / res - a / res;
    assert b - a == d * res;
    assert d <= 0 ==> d * res <= 0;
    assert d >= 1 ==> d * res >= res;
  }

  lemma NextOnGrid(t: int, res: int)
    requires res > 0 && OnGrid(t, res)
    ensures OnGrid(t + res, res)
  {
    assert t + res == (t / res + 1) * res;
    MultipleOf(t / res + 1, res);
  }

  /** The groups from a bucket on. */
  function Rest(groups: map<int, nat>, from: int): map<int, nat> {
    map key | key in groups && from <= key :: groups[key]
  }

  ghost predicate KeysOnGrid(groups: map<int, nat>, res: int) requires res > 0 {
    forall key :: key in groups ==> OnGrid(key, res)
  }

  /** Taking one bucket out of the rest leaves the rest from the next bucket on. */
  lemma RestStep(groups: map<int, nat>, from: int, next: int, res: int)
    requires res > 0 && KeysOnGrid(groups, res) && OnGrid(from, res) && from < next <= from + res
    ensures Rest(groups, from) - {from} == Rest(groups, next)
  {
    forall key | key in groups && from < key ensures next <= key { StepApart(from, key, res); }
  }

  /** One bucket after another, each with its group's count. */
  ghost predicate Ladder(points: seq<Point>, groups: map<int, nat>, first: int, res: int) {
    && (points != [] ==> points[0].bucket == first)
    && (forall i :: 1 <= i < |points| ==> points[i].bucket == points[i - 1].bucket + res)
    && (forall i :: 0 <= i < |points| ==> points[i].requests == Size(groups)(points[i].bucket))
  }

  /** The bucket after the last point, as far as 64 bits go. */
  function Following(points: seq<Point>, first: int, res: int): int {
    if points == [] then first else Min(I64_MAX, points[|points| - 1].bucket + res)
  }

  /** What the loop has done when `bucket` comes next. */
  ghost predicate Filled(points: seq<Point>, unused: map<int, nat>, bucket: int, groups: map<int, nat>, first: int,
                         res: int)
    requires res > 0
  {
    && Ladder(points, groups, first, res)
    && bucket == Following(points, first, res) && (bucket < I64_MAX ==> OnGrid(bucket, res))
    && (points != [] ==> OnGrid(points[|points| - 1].bucket, res))
    && unused == Rest(groups, bucket)
    && PointTotal(points) + GroupTotal(unused) == GroupTotal(groups)
  }

  lemma LadderStep(points: seq<Point>, bucket: int, groups: map<int, nat>, first: int, res: int)
    requires Ladder(points, groups, first, res) && bucket == Following(points, first, res) < I64_MAX
    ensures Ladder(points + [Point(bucket, Size(groups)(bucket))], groups, first, res)
  {
  }

  lemma FilledStep(points: seq<Point>, unused: map<int, nat>, bucket: int, groups: map<int, nat>, first: int, res: int)
    requires res > 0 && KeysOnGrid(groups, res) && bucket < I64_MAX
    requires Filled(points, unused, bucket, groups, first, res)
    ensures Filled(points + [Point(bucket, Size(unused)(bucket))], unused - {bucket}, Min(I64_MAX, bucket + res),
                   groups, first, res)
  {
    var next, more := Min(I64_MAX, bucket + res), points + [Point(bucket, Size(unused)(bucket))];
    assert Size(unused)(bucket) == Size(groups)(bucket);
    LadderStep(points, bucket, groups, first, res);
    RestStep(groups, bucket, next, res);
    Removed(unused, bucket);
    NextOnGrid(bucket, res);
    assert more[..|points|] == points;
  }

  lemma FilledStarts(groups: map<int, nat>, first: int, res: int)
    requires res > 0 && OnGrid(first, res) && forall key :: key in groups ==> first <= key
    ensures Filled([], groups, first, groups, first, res)
  {
    assert Rest(groups, first) == groups;
  }

  lemma FilledEnds(points: seq<Point>, unused: map<int, nat>, bucket: int, groups: map<int, nat>, first: int, last: int,
                   res: int)
    requires res > 0 && Filled(points, unused, bucket, groups, first, res) && first <= last < bucket
    requires OnGrid(last, res) && last < I64_MAX && forall key :: key in groups ==> key <= last
    requires points != [] ==> points[|points| - 1].bucket <= last
    ensures points != [] && points[|points| - 1].bucket == last
    ensures unused == map[] && PointTotal(points) == GroupTotal(groups)
  {
    assert points != [];
    if points[|points| - 1].bucket < last { StepApart(points[|points| - 1].bucket, last, res); }
    assert unused == map[];
  }

  /** The filling loop over every bucket from `first` to `last`. */
  method Fill(groups: map<int, nat>, first: int, last: int, res: int)
      returns (points: seq<Point>, unused: map<int, nat>)
    requires res > 0 && OnGrid(first, res) && OnGrid(last, res) && first <= last < I64_MAX
    requires KeysOnGrid(groups, res) && forall key :: key in groups ==> first <= key <= last
    ensures Ladder(points, groups, first, res) && points != [] && points[|points| - 1].bucket == last
    ensures unused == map[] && PointTotal(points) == GroupTotal(groups)
  {
    points, unused := [], groups;
    var bucket := first;
    FilledStarts(groups, first, res);
    while bucket <= last
      invariant Filled(points, unused, bucket, groups, first, res)
      invariant points != [] ==> points[|points| - 1].bucket <= last
      decreases I64_MAX - bucket
    {
      FilledStep(points, unused, bucket, groups, first, res);
      var requests := if bucket in unused then unused[bucket] else 0;
      unused := unused - {bucket};
      points := points + [Point(bucket, requests)];
      bucket := Min(I64_MAX, bucket + res);
    }
    FilledEnds(points, unused, bucket, groups, first, last, res);
  }

  /** Lays the groups out: every aligned bucket from the window's first to its last exactly once and in
      order, every group used up, and the counts adding up to the window's own total. */
  method Series(rows: seq<Row>, now: int, spec: RangeSpec) returns (points: seq<Point>, unused: map<int, nat>)
    requires exists value :: ParseRange(value) == Some(spec)
    requires 0 <= now <= I64_MAX && forall i :: 0 <= i < |rows| ==> 0 <= rows[i].minute
    ensures var start, res := Max(I64_MIN, now - spec.window), spec.resolution;
      && Ladder(points, Grouped(rows, start, now, res), Aligned(start, res), res)
      && points != [] && points[|points| - 1].bucket == Aligned(now, res)
      && unused == map[]
      && PointTotal(points) == WindowTotal(rows, start, now)
  {
    var start, res := Max(I64_MIN, now - spec.window), spec.resolution;
    var groups := Grouped(rows, start, now, res);
    GroupedTotal(rows, start, now, res);
    AlignedMonotone(start, now, res);
    AlignedBounds(start, res);
    AlignedBounds(now, res);
    LastBucketBelowLimit(now, res);
    forall key | key in groups ensures OnGrid(key, res) && Aligned(start, res) <= key <= Aligned(now, res) {
      GroupedKeys(rows, start, now, res, key);
    }
    points, unused := Fill(groups, Aligned(start, res), Aligned(now, res), res);
  }

  lemma Removed(groups: map<int, nat>, key: int)
    ensures GroupTotal(groups) == GroupTotal(groups - {key}) + Size(groups)(key)
  {
    var rest := groups - {key};
    if key in groups {
      SumTake(groups.Keys, Size(groups), key);
      assert rest.Keys == groups.Keys - {key};
      SumAgrees(rest.Keys, Size(groups), Size(rest));
    } else {
      assert rest == groups;
    }
  }
}
