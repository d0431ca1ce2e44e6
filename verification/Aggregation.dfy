/**
 * Timeframe aggregation of the price series (src/components/BTCChart.jsx): points are grouped
 * into buckets aligned to absolute multiples of an interval, and each non-empty bucket becomes
 * one aggregated point carrying the value of the bucket's last member. The three helpers of the
 * source differ only in the interval, so one generic `Aggregate` models them all.
 */
module Aggregation {

  /** A chart point: a raw price sample, or an aggregated bucket. Times are milliseconds. */
  datatype ChartPoint =
    | Raw(value: real, time: int)
    | Agg(value: real, time: int, originalPoints: nat, bucketEnd: int)

  const OneSecond := 1000
  const FifteenSeconds := 15000
  const ThirtySeconds := 30000
  const OneMinute := 60000
  /** `dataPoints`: every timeframe shows at most this many points. */
  const DataPoints := 60

  /** `Math.floor(t / interval) * interval`; Dafny's `/` is floor division for a positive divisor. */
  function BucketStart(t: int, interval: int): (b: int)
    requires interval > 0
    ensures b <= t < b + interval
    ensures b % interval == 0
  {
    var q := t / interval;
    assert t == q * interval + t % interval;
    MultipleHasNoRemainder(q, interval);
    q * interval
  }

  lemma MultipleHasNoRemainder(q: int, n: int)
    requires n > 0
    ensures (q * n) % n == 0
  {
    var d, r := (q * n) / n, (q * n) % n;
    assert (q - d) * n == r;
    if q - d >= 1 {
      MultipleAtLeast(q - d, n);
      assert false;
    } else if q - d <= -1 {
      MultipleAtLeast(d - q, n);
      assert false;
    }
  }

  lemma {:induction false} MultipleAtLeast(e: int, n: int)
    requires e >= 1 && n > 0
    ensures e * n >= n
  {
    if e > 1 {
      MultipleAtLeast(e - 1, n);
      assert e * n == (e - 1) * n + n;
    }
  }

  function KeyOf(p: ChartPoint, interval: int): int
    requires interval > 0
  {
    BucketStart(p.time, interval)
  }

  /** The members of bucket `k`, in input order. */
  function Members(points: seq<ChartPoint>, interval: int, k: int): (m: seq<ChartPoint>)
    requires interval > 0
    ensures |m| <= |points|
  {
    if points == [] then []
    else
      var p := points[|points| - 1];
      Members(points[..|points| - 1], interval, k) + (if KeyOf(p, interval) == k then [p] else [])
  }

  /** The bucket keys in order of first appearance: the key order of the source's `Map`. */
  function FirstKeys(points: seq<ChartPoint>, interval: int): (ks: seq<int>)
    requires interval > 0
  {
    if points == [] then []
    else
      var prefix := FirstKeys(points[..|points| - 1], interval);
      var k := KeyOf(points[|points| - 1], interval);
      if k in prefix then prefix else prefix + [k]
  }

  lemma {:induction false} MembersBelong(points: seq<ChartPoint>, interval: int, k: int)
    requires interval > 0
    ensures forall q :: q in Members(points, interval, k) ==> q in points && KeyOf(q, interval) == k
  {
    if points != [] {
      MembersBelong(points[..|points| - 1], interval, k);
    }
  }

  lemma MembersSnoc(s: seq<ChartPoint>, p: ChartPoint, interval: int, k: int)
    requires interval > 0
    ensures Members(s + [p], interval, k)
      == Members(s, interval, k) + (if KeyOf(p, interval) == k then [p] else [])
  {
    assert (s + [p])[..|s|] == s;
  }

  lemma FirstKeysSnoc(s: seq<ChartPoint>, p: ChartPoint, interval: int)
    requires interval > 0
    ensures FirstKeys(s + [p], interval) == (var ks := FirstKeys(s, interval);
      if KeyOf(p, interval) in ks then ks else ks + [KeyOf(p, interval)])
  {
    assert (s + [p])[..|s|] == s;
  }

  predicate Distinct(s: seq<int>)
  {
    forall i, j :: 0 <= i < j < |s| ==> s[i] != s[j]
  }

  predicate StrictlyIncreasing(s: seq<int>)
  {
    forall i, j :: 0 <= i < j < |s| ==> s[i] < s[j]
  }

  /** `FirstKeys` lists every bucket key once, and a listed key has at least one member. */
  lemma {:induction false} FirstKeysComplete(points: seq<ChartPoint>, interval: int)
    requires interval > 0
    ensures Distinct(FirstKeys(points, interval))
    ensures forall k :: k in FirstKeys(points, interval) <==> |Members(points, interval, k)| > 0
    ensures forall p :: p in points ==> KeyOf(p, interval) in FirstKeys(points, interval)
  {
    if points != [] {
      var prefix := points[..|points| - 1];
      FirstKeysComplete(prefix, interval);
      assert points == prefix + [points[|points| - 1]];
    }
  }

  /** Inserts `x` into an ascending sequence. */
  function InsertSorted(x: int, s: seq<int>): (r: seq<int>)
    requires StrictlyIncreasing(s) && x !in s
    ensures StrictlyIncreasing(r) && |r| == |s| + 1
    ensures forall y :: y in r <==> y == x || y in s
  {
    if s == [] then [x]
    else if x < s[0] then [x] + s
    else
      var rest := InsertSorted(x, s[1..]);
      assert forall j :: 0 <= j < |rest| ==> rest[j] in rest && s[0] < rest[j];
      [s[0]] + rest
  }

  /** `Array.prototype.sort((a, b) => a - b)` on distinct keys. */
  function SortAscending(s: seq<int>): (r: seq<int>)
    requires Distinct(s)
    ensures StrictlyIncreasing(r) && |r| == |s|
    ensures forall y :: y in r <==> y in s
  {
    if s == [] then []
    else
      var init := s[..|s| - 1];
      assert forall y :: y in init ==> y in s;
      InsertSorted(s[|s| - 1], SortAscending(init))
  }

  /** The aggregated point for bucket `k`, if the bucket is non-empty. */
  function BarFor(points: seq<ChartPoint>, interval: int, k: int): seq<ChartPoint>
    requires interval > 0
  {
    var m := Members(points, interval, k);
    if |m| > 0 then [Agg(m[|m| - 1].value, k, |m|, k + interval - 1)] else []
  }

  /** The points for the first `n` keys of `ks`. */
  function Bars(points: seq<ChartPoint>, interval: int, ks: seq<int>, n: nat): seq<ChartPoint>
    requires interval > 0 && n <= |ks|
  {
    if n == 0 then []
    else Bars(points, interval, ks, n - 1) + BarFor(points, interval, ks[n - 1])
  }

  /** What aggregating `points` into `interval`-wide buckets yields. */
  function Aggregation(points: seq<ChartPoint>, interval: int): seq<ChartPoint>
    requires interval > 0
  {
    FirstKeysComplete(points, interval);
    var ks := SortAscending(FirstKeys(points, interval));
    Bars(points, interval, ks, |ks|)
  }

  /** The bucketing pass: each point is pushed onto the list of its bucket, new buckets in order of appearance. */
  method CollectBuckets(points: seq<ChartPoint>, interval: int)
    returns (buckets: map<int, seq<ChartPoint>>, order: seq<int>)
    requires interval > 0
    ensures order == FirstKeys(points, interval) && Distinct(order)
    ensures forall k :: k in buckets <==> k in order
    ensures forall k :: k in buckets ==> buckets[k] == Members(points, interval, k)
  {
    buckets := map[];
    order := [];
    for i := 0 to |points|
      invariant order == FirstKeys(points[..i], interval)
      invariant forall k :: k in buckets <==> k in order
      invariant forall k :: k in buckets ==> buckets[k] == Members(points[..i], interval, k)
    {
      var point := points[i];
      var bucketStart := BucketStart(point.time, interval);
      assert points[..i + 1] == points[..i] + [point];
      FirstKeysComplete(points[..i], interval);
      FirstKeysSnoc(points[..i], point, interval);
      forall k | true
        ensures Members(points[..i + 1], interval, k)
          == Members(points[..i], interval, k) + (if bucketStart == k then [point] else [])
      {
        MembersSnoc(points[..i], point, interval, k);
      }
      if bucketStart !in buckets {
        buckets := buckets[bucketStart := []];
        order := order + [bucketStart];
      }
      buckets := buckets[bucketStart := buckets[bucketStart] + [point]];
    }
    assert points[..|points|] == points;
    FirstKeysComplete(points, interval);
  }

  /** `aggregateRawTo15s`, `aggregate15sTo30s` and `aggregate30sTo1m`, with the interval as a parameter. */
  method Aggregate(points: seq<ChartPoint>, interval: int) returns (aggregated: seq<ChartPoint>)
    requires interval > 0
    ensures aggregated == Aggregation(points, interval)
  {
    if |points| == 0 {
      return [];
    }
    aggregated := [];
    var buckets, order := CollectBuckets(points, interval);
    var keys := SortAscending(order);
    for j := 0 to |keys|
      invariant aggregated == Bars(points, interval, keys, j)
    {
      assert keys[j] in order;
      var bucketData := buckets[keys[j]];
      BarsStep(points, interval, keys, j, bucketData);
      if |bucketData| > 0 {
        var lastPoint := bucketData[|bucketData| - 1];
        aggregated := aggregated + [Agg(lastPoint.value, keys[j], |bucketData|, keys[j] + interval - 1)];
      }
    }
  }

  lemma BarsStep(points: seq<ChartPoint>, interval: int, ks: seq<int>, j: nat, m: seq<ChartPoint>)
    requires interval > 0 && j < |ks| && m == Members(points, interval, ks[j])
    ensures Bars(points, interval, ks, j + 1) == Bars(points, interval, ks, j)
      + (if |m| > 0 then [Agg(m[|m| - 1].value, ks[j], |m|, ks[j] + interval - 1)] else [])
  {
  }

  /** When every listed key has members, `Bars` yields exactly one point per key, in key order. */
  lemma {:induction false} BarsPointwise(points: seq<ChartPoint>, interval: int, ks: seq<int>, n: nat)
    requires interval > 0 && n <= |ks|
    requires forall k :: k in ks ==> |Members(points, interval, k)| > 0
    ensures |Bars(points, interval, ks, n)| == n
    ensures forall i :: 0 <= i < n ==>
      Bars(points, interval, ks, n)[i].time == ks[i] && IsBucketPoint(points, interval, Bars(points, interval, ks, n)[i])
  {
    if n > 0 {
      BarsPointwise(points, interval, ks, n - 1);
      var b, last := Bars(points, interval, ks, n - 1), BarFor(points, interval, ks[n - 1]);
      assert |last| == 1 && last[0].time == ks[n - 1] && IsBucketPoint(points, interval, last[0]) by {
        assert ks[n - 1] in ks;
      }
      assert Bars(points, interval, ks, n) == b + last;
    }
  }

  /** Every bucket key is a multiple of the interval. */
  lemma {:induction false} KeysAligned(points: seq<ChartPoint>, interval: int)
    requires interval > 0
    ensures forall k :: k in FirstKeys(points, interval) ==> k % interval == 0
  {
    if points != [] {
      KeysAligned(points[..|points| - 1], interval);
    }
  }

  /** `a` is the aggregated point of bucket `a.time`: last member value, member count and bucket end. */
  predicate IsBucketPoint(points: seq<ChartPoint>, interval: int, a: ChartPoint)
    requires interval > 0
  {
    var m := Members(points, interval, a.time);
    && a.Agg?
    && |m| > 0
    && a.value == m[|m| - 1].value
    && a.originalPoints == |m|
    && a.bucketEnd == a.time + interval - 1
  }

  /**
   * The aggregation has one point per non-empty bucket, in strictly increasing bucket order; each
   * point's time is a multiple of the interval, its value is the last member's value, it counts
   * the members, and its bucket ends one millisecond before the next bucket starts.
   */
  lemma AggregationShape(points: seq<ChartPoint>, interval: int)
    requires interval > 0
    ensures var r := Aggregation(points, interval);
      && StrictlyIncreasing(Times(r))
      && (forall i :: 0 <= i < |r| ==> r[i].time % interval == 0 && IsBucketPoint(points, interval, r[i]))
      && (forall p :: p in points ==> KeyOf(p, interval) in Times(r))
      && (forall t :: t in Times(r) ==> exists p :: p in points && KeyOf(p, interval) == t)
  {
    FirstKeysComplete(points, interval);
    var r := Aggregation(points, interval);
    var ks := SortAscending(FirstKeys(points, interval));
    AggregationIsPointwise(points, interval);
    forall t | t in ks
      ensures exists p :: p in points && KeyOf(p, interval) == t
    {
      var m := Members(points, interval, t);
      MembersBelong(points, interval, t);
      assert m[0] in m;
    }
  }

  /** Every aggregated point is the bucket point of the sorted key at its position. */
  lemma AggregationIsPointwise(points: seq<ChartPoint>, interval: int)
    requires interval > 0
    ensures Distinct(FirstKeys(points, interval))
    ensures var r, ks := Aggregation(points, interval), SortAscending(FirstKeys(points, interval));
      && Times(r) == ks
      && forall i :: 0 <= i < |r| ==> r[i].time % interval == 0 && IsBucketPoint(points, interval, r[i])
  {
    assert Distinct(FirstKeys(points, interval)) by {
      FirstKeysComplete(points, interval);
    }
    var ks := SortAscending(FirstKeys(points, interval));
    var r := Aggregation(points, interval);
    assert r == Bars(points, interval, ks, |ks|);
    assert forall k :: k in ks ==> |Members(points, interval, k)| > 0 by {
      FirstKeysComplete(points, interval);
    }
    assert |r| == |ks| && forall i :: 0 <= i < |ks| ==> r[i].time == ks[i] && IsBucketPoint(points, interval, r[i]) by {
      BarsPointwise(points, interval, ks, |ks|);
    }
    assert forall i :: 0 <= i < |ks| ==> ks[i] % interval == 0 by {
      KeysAligned(points, interval);
      assert forall i :: 0 <= i < |ks| ==> ks[i] in ks;
    }
    assert Times(r) == ks;
  }

  function Times(r: seq<ChartPoint>): (ts: seq<int>)
    ensures |ts| == |r| && forall i :: 0 <= i < |r| ==> ts[i] == r[i].time
  {
    if r == [] then [] else [r[0].time] + Times(r[1..])
  }

  /** Empty input gives empty output. */
  lemma AggregationOfEmpty(interval: int)
    requires interval > 0
    ensures Aggregation([], interval) == []
  {
  }

  /** Sum of the `originalPoints` counts. */
  function CountSum(r: seq<ChartPoint>): nat
  {
    if r == [] then 0
    else CountSum(r[..|r| - 1]) + (if r[|r| - 1].Agg? then r[|r| - 1].originalPoints else 0)
  }

  /** Sum over the keys `ks` of the member counts. */
  function MemberSum(points: seq<ChartPoint>, interval: int, ks: seq<int>): nat
    requires interval > 0
  {
    if ks == [] then 0
    else MemberSum(points, interval, ks[..|ks| - 1]) + |Members(points, interval, ks[|ks| - 1])|
  }

  lemma {:induction false} MemberSumStep(s: seq<ChartPoint>, p: ChartPoint, interval: int, ks: seq<int>)
    requires interval > 0 && Distinct(ks)
    ensures MemberSum(s + [p], interval, ks)
      == MemberSum(s, interval, ks) + (if KeyOf(p, interval) in ks then 1 else 0)
  {
    if ks != [] {
      var init := ks[..|ks| - 1];
      assert ks == init + [ks[|ks| - 1]];
      MemberSumStep(s, p, interval, init);
      assert (s + [p])[..|s + [p]| - 1] == s;
    }
  }

  /** Over a distinct key list covering every point, the member counts add up to the input length. */
  lemma {:induction false} MemberSumCovers(points: seq<ChartPoint>, interval: int, ks: seq<int>)
    requires interval > 0 && Distinct(ks)
    requires forall p :: p in points ==> KeyOf(p, interval) in ks
    ensures MemberSum(points, interval, ks) == |points|
  {
    if points == [] {
      if ks != [] {
        MemberSumCovers(points, interval, ks[..|ks| - 1]);
      }
    } else {
      var init := points[..|points| - 1];
      assert points == init + [points[|points| - 1]];
      MemberSumCovers(init, interval, ks);
      MemberSumStep(init, points[|points| - 1], interval, ks);
    }
  }

  lemma {:induction false} BarsCount(points: seq<ChartPoint>, interval: int, ks: seq<int>, n: nat)
    requires interval > 0 && n <= |ks|
    ensures CountSum(Bars(points, interval, ks, n)) == MemberSum(points, interval, ks[..n])
  {
    if n > 0 {
      BarsCount(points, interval, ks, n - 1);
      BarsCountStep(points, interval, ks, n);
    }
  }

  lemma BarsCountStep(points: seq<ChartPoint>, interval: int, ks: seq<int>, n: nat)
    requires interval > 0 && 0 < n <= |ks|
    requires CountSum(Bars(points, interval, ks, n - 1)) == MemberSum(points, interval, ks[..n - 1])
    ensures CountSum(Bars(points, interval, ks, n)) == MemberSum(points, interval, ks[..n])
  {
    var m := Members(points, interval, ks[n - 1]);
    assert MemberSum(points, interval, ks[..n]) == MemberSum(points, interval, ks[..n - 1]) + |m| by {
      assert ks[..n][..n - 1] == ks[..n - 1] && ks[..n][n - 1] == ks[n - 1];
    }
    var b := Bars(points, interval, ks, n - 1);
    var last := BarFor(points, interval, ks[n - 1]);
    assert CountSum(b + last) == CountSum(b) + |m| by {
      if last != [] {
        assert (b + last)[..|b + last| - 1] == b;
      } else {
        assert b + last == b;
      }
    }
  }

  /** `originalPoints` over all aggregated points sums to the number of input points. */
  lemma CountsSumToLength(points: seq<ChartPoint>, interval: int)
    requires interval > 0
    ensures CountSum(Aggregation(points, interval)) == |points|
  {
    FirstKeysComplete(points, interval);
    var ks := SortAscending(FirstKeys(points, interval));
    BarsCount(points, interval, ks, |ks|);
    assert ks[..|ks|] == ks;
    MemberSumCovers(points, interval, ks);
  }

  /** `slice(-n)` for `n > 0`: the last `n` elements, or all of them when there are fewer. */
  function Last<T>(s: seq<T>, n: nat): (r: seq<T>)
    requires n > 0
    ensures |r| == if |s| < n then |s| else n
    ensures r == s[|s| - |r|..]
  {
    if |s| <= n then s else s[|s| - n..]
  }

  /** `TIMEFRAME_CONFIG`: the interval of each timeframe. */
  function TimeframeInterval(timeframe: string): (r: int)
  {
    match timeframe
    case "1s" => OneSecond
    case "15s" => FifteenSeconds
    case "30s" => ThirtySeconds
    case "1m" => OneMinute
    case _ => 0
  }

  predicate AlignedIncreasing(r: seq<ChartPoint>, interval: int)
    requires interval > 0
  {
    StrictlyIncreasing(Times(r)) && forall i :: 0 <= i < |r| ==> r[i].time % interval == 0
  }

  lemma AggregationAligned(points: seq<ChartPoint>, interval: int)
    requires interval > 0
    ensures AlignedIncreasing(Aggregation(points, interval), interval)
  {
    AggregationShape(points, interval);
  }

  lemma LastKeepsAligned(r: seq<ChartPoint>, interval: int, n: nat)
    requires interval > 0 && n > 0 && AlignedIncreasing(r, interval)
    ensures AlignedIncreasing(Last(r, n), interval)
  {
    var l := Last(r, n);
    var d := |r| - |l|;
    assert forall i :: 0 <= i < |l| ==> l[i] == r[d + i];
    assert StrictlyIncreasing(Times(l)) by {
      var tl, tr := Times(l), Times(r);
      assert forall i :: 0 <= i < |l| ==> tl[i] == tr[d + i];
    }
  }

  /**
   * `getHierarchicalData`: '1s' shows raw points, '15s' raw→15s, '30s' raw→15s→30s and '1m'
   * raw→15s→30s→1m buckets, each cut to the last 60; empty input or another timeframe gives [].
   */
  method GetHierarchicalData(rawData: seq<ChartPoint>, targetTimeframe: string)
    returns (r: seq<ChartPoint>)
    ensures |r| <= DataPoints
    ensures rawData == [] || TimeframeInterval(targetTimeframe) == 0 ==> r == []
    ensures rawData != [] && targetTimeframe == "1s" ==> r == Last(rawData, DataPoints)
    ensures rawData != [] && targetTimeframe == "15s" ==>
      r == Last(Aggregation(rawData, FifteenSeconds), DataPoints)
    ensures rawData != [] && targetTimeframe == "30s" ==>
      r == Last(Aggregation(Aggregation(rawData, FifteenSeconds), ThirtySeconds), DataPoints)
    ensures rawData != [] && targetTimeframe == "1m" ==>
      r == Last(Aggregation(Aggregation(Aggregation(rawData, FifteenSeconds), ThirtySeconds), OneMinute), DataPoints)
    ensures TimeframeInterval(targetTimeframe) > 0 && targetTimeframe != "1s" ==>
      AlignedIncreasing(r, TimeframeInterval(targetTimeframe))
  {
    if |rawData| == 0 {
      return [];
    }
    match targetTimeframe
    case "1s" =>
      r := Last(rawData, DataPoints);
    case "15s" =>
      var data15s := Aggregate(rawData, FifteenSeconds);
      AggregationAligned(rawData, FifteenSeconds);
      LastKeepsAligned(data15s, FifteenSeconds, DataPoints);
      r := Last(data15s, DataPoints);
    case "30s" =>
      var data15sFor30s := Aggregate(rawData, FifteenSeconds);
      var data30s := Aggregate(data15sFor30s, ThirtySeconds);
      AggregationAligned(data15sFor30s, ThirtySeconds);
      LastKeepsAligned(data30s, ThirtySeconds, DataPoints);
      r := Last(data30s, DataPoints);
    case "1m" =>
      var data15sFor1m := Aggregate(rawData, FifteenSeconds);
      var data30sFor1m := Aggregate(data15sFor1m, ThirtySeconds);
      var data1m := Aggregate(data30sFor1m, OneMinute);
      AggregationAligned(data30sFor1m, OneMinute);
      LastKeepsAligned(data1m, OneMinute, DataPoints);
      r := Last(data1m, DataPoints);
    case _ =>
      r := [];
  }
}
