/** How a load test is summarised: percentiles, totals and a timeline of equal windows
    (scripts/production_validation/metrics.py). */
module LoadMetrics {
  import opened Basics
  import opened Rounding
  import opened Sorting

  // ------------------------------------------------------------ percentiles

  predicate AtMost(x: real, y: real) { x <= y }

  function Ceil(x: real): (c: int)
    ensures (c - 1) as real < x <= c as real
  {
    -((-x).Floor)
  }

  /** The value at the nearest rank; None without values, an error for a percentile out of range. */
  function NearestRank(values: seq<real>, percentile: real): Result<Option<real>> {
    var ordered := Sort(values, AtMost);
    if ordered == [] then Ok(None)
    else if !(0.0 < percentile <= 100.0) then Raised(ValueError)
    else
      RankInRange(|ordered|, percentile);
      Ok(Some(ordered[Rank(|ordered|, percentile)]))
  }

  function Rank(n: nat, percentile: real): int {
    Ceil(percentile / 100.0 * n as real) - 1
  }

  lemma {:induction false} RankInRange(n: nat, percentile: real)
    requires n > 0 && 0.0 < percentile <= 100.0
    ensures 0 <= Rank(n, percentile) < n
    ensures Rank(n, percentile) as real * 100.0 < percentile * n as real
    ensures percentile * n as real <= (Rank(n, percentile) + 1) as real * 100.0
  {
    var share := percentile / 100.0;
    assert share * 100.0 == percentile;
    assert 0.0 < share * n as real <= n as real;
    assert share * n as real * 100.0 == percentile * n as real;
  }

  /** A percentile of no values is none, whatever is asked for; of some values it is refused if
      and only if it is out of range. */
  lemma {:induction false} PercentileIsRefusedIff(values: seq<real>, percentile: real)
    ensures NearestRank(values, percentile) == Ok(None) <==> values == []
    ensures NearestRank(values, percentile).Raised? <==> values != [] && !(0.0 < percentile <= 100.0)
  {
    hide Sort, TotalPreorder;
    AtMostIsAnOrder();
    SortSorts(values, AtMost);
  }

  function CountAtMost(values: seq<real>, v: real): nat { Count(values, x => x <= v) }

  function CountBelow(values: seq<real>, v: real): nat { Count(values, x => x < v) }

  lemma {:induction false} AtMostIsAnOrder()
    ensures TotalPreorder(AtMost)
  {
  }

  lemma {:induction false} CountsAtRank(values: seq<real>, n: nat)
    requires n < |values|
    ensures |Sort(values, AtMost)| == |values|
    ensures var v := Sort(values, AtMost)[n];
            v in values && CountAtMost(values, v) >= n + 1 && CountBelow(values, v) <= n
  {
    hide Sort, Count, TotalPreorder;
    AtMostIsAnOrder();
    SortSorts(values, AtMost);
    var ordered := Sort(values, AtMost);
    var v := ordered[n];
    forall k | 0 <= k < n + 1 ensures ordered[k] <= v {
      assert k < n ==> AtMost(ordered[k], ordered[n]);
    }
    forall k | n <= k < |ordered| ensures v <= ordered[k] {
      assert n < k ==> AtMost(ordered[n], ordered[k]);
    }
    assert v in multiset(ordered);
    CountOfSort(values, AtMost, x => x <= v);
    CountOfSort(values, AtMost, x => x < v);
    CountBounds(ordered, x => x <= v, n + 1);
    CountBounds(ordered, x => x < v, n);
  }

  /** What a nearest-rank percentile is: one of the values, with at least that percentage
      of the values at or below it and less than that percentage below it. */
  lemma {:induction false} NearestRankSplitsTheValues(values: seq<real>, percentile: real)
    requires values != [] && 0.0 < percentile <= 100.0
    ensures NearestRank(values, percentile).Ok? && NearestRank(values, percentile).value.Some?
    ensures var v := NearestRank(values, percentile).value.value;
            && v in values
            && CountAtMost(values, v) as real * 100.0 >= percentile * |values| as real
            && CountBelow(values, v) as real * 100.0 < percentile * |values| as real
  {
    hide CountAtMost, CountBelow, Sort, Rank;
    RankInRange(|values|, percentile);
    CountsAtRank(values, Rank(|values|, percentile));
  }

  /** It is the least value that has that percentage of the values at or below it. */
  lemma {:induction false} NearestRankIsLeast(values: seq<real>, percentile: real, w: real)
    requires values != [] && 0.0 < percentile <= 100.0
    requires CountAtMost(values, w) as real * 100.0 >= percentile * |values| as real
    ensures NearestRank(values, percentile).Ok? && NearestRank(values, percentile).value.Some?
    ensures NearestRank(values, percentile).value.value <= w
  {
    NearestRankSplitsTheValues(values, percentile);
    var v := NearestRank(values, percentile).value.value;
    if w < v {
      CountMonotone(values, x => x <= w, x => x < v);
    }
  }

  lemma {:induction false} NearestRankIsMonotone(values: seq<real>, p: real, q: real)
    requires values != [] && 0.0 < p <= q <= 100.0
    ensures NearestRank(values, p).Ok? && NearestRank(values, p).value.Some?
    ensures NearestRank(values, q).Ok? && NearestRank(values, q).value.Some?
    ensures NearestRank(values, p).value.value <= NearestRank(values, q).value.value
  {
    hide CountAtMost, CountBelow, NearestRank;
    NearestRankSplitsTheValues(values, q);
    var v := NearestRank(values, q).value.value;
    ProductsKeepOrder(p, q, |values| as real);
    NearestRankIsLeast(values, p, v);
  }

  // ------------------------------------------------------------ samples

  datatype Sample = Sample(operation: string, startedAt: Time, duration: real, status: Option<int>,
                           expectedStatuses: seq<int>, error: Option<string>)

  predicate IsExpected(sample: Sample) {
    sample.error.None? && sample.status.Some? && sample.status.value in sample.expectedStatuses
  }

  predicate Is5xx(sample: Sample) {
    sample.status.Some? && sample.status.value >= 500
  }

  predicate AnySample(sample: Sample) { true }

  function OperationOf(sample: Sample): string { sample.operation }

  function StatusOf(sample: Sample): Option<int> { sample.status }

  datatype OperationSummary = OperationSummary(
    count: nat, expected: nat, unexpected: int, statuses: map<Option<int>, nat>, throughput: real,
    p50: Option<real>, p90: Option<real>, p95: Option<real>, p99: Option<real>, max: Option<real>)

  function Durations(samples: seq<Sample>): (d: seq<real>)
    ensures |d| == |samples| && forall k :: 0 <= k < |d| ==> d[k] == samples[k].duration
  {
    seq(|samples|, k requires 0 <= k < |samples| => samples[k].duration)
  }

  function RoundedPercentile(values: seq<real>, percentile: real): Option<real> {
    match NearestRank(values, percentile)
    case Ok(Some(v)) => Some(RoundTo(v, 1000))
    case _ => None
  }

  function Throughput(count: nat, elapsed: real): real {
    if elapsed > 0.0 then RoundTo(count as real / elapsed, 1000) else 0.0
  }

  function InClass<K(==)>(class_: Sample -> K, k: K): Sample -> bool {
    x => class_(x) == k
  }

  /** The samples of one class, in their order. */
  function Of<K(==)>(samples: seq<Sample>, class_: Sample -> K, k: K): seq<Sample> {
    Filter(samples, InClass(class_, k))
  }

  lemma {:induction false} NextOf<K>(samples: seq<Sample>, x: Sample, class_: Sample -> K, k: K)
    ensures Of(samples + [x], class_, k) == Of(samples, class_, k) + if class_(x) == k then [x] else []
  {
    assert (samples + [x])[..|samples|] == samples;
  }

  function SummarizeOperation(samples: seq<Sample>, elapsed: real): OperationSummary {
    var d := Durations(samples);
    OperationSummary(
      |samples|, Count(samples, IsExpected), |samples| - Count(samples, IsExpected),
      map status | status in (set x | x in samples :: StatusOf(x)) :: |Of(samples, StatusOf, status)|,
      Throughput(|samples|, elapsed),
      RoundedPercentile(d, 50.0), RoundedPercentile(d, 90.0), RoundedPercentile(d, 95.0), RoundedPercentile(d, 99.0),
      if d == [] then None else Some(RoundTo(Maximum(d), 1000)))
  }

  function ByOperation(samples: seq<Sample>, elapsed: real): map<string, OperationSummary> {
    map operation | operation in (set x | x in samples :: OperationOf(x))
      :: SummarizeOperation(Of(samples, OperationOf, operation), elapsed)
  }

  /** The percentiles of a summary never cross, and none exceeds the maximum. */
  lemma {:induction false} PercentilesAreOrdered(samples: seq<Sample>, elapsed: real)
    requires samples != []
    ensures var s := SummarizeOperation(samples, elapsed);
            && s.p50.Some? && s.p90.Some? && s.p95.Some? && s.p99.Some? && s.max.Some?
            && s.p50.value <= s.p90.value <= s.p95.value <= s.p99.value <= s.max.value
  {
    var d := Durations(samples);
    NearestRankIsMonotone(d, 50.0, 90.0);
    NearestRankIsMonotone(d, 90.0, 95.0);
    NearestRankIsMonotone(d, 95.0, 99.0);
    NearestRankSplitsTheValues(d, 99.0);
    var a, b, c, e := NearestRank(d, 50.0).value.value, NearestRank(d, 90.0).value.value,
                      NearestRank(d, 95.0).value.value, NearestRank(d, 99.0).value.value;
    RoundingIsMonotone(a, b, 1000);
    RoundingIsMonotone(b, c, 1000);
    RoundingIsMonotone(c, e, 1000);
    RoundingIsMonotone(e, Maximum(d), 1000);
  }

  // ------------------------------------------------------------ counting by class

  /** The counts of the classes in `keys`, added up. */
  ghost function ClassTotal<K>(samples: seq<Sample>, class_: Sample -> K, keys: seq<K>, p: Sample -> bool): nat {
    if keys == [] then 0
    else ClassTotal(samples, class_, keys[..|keys| - 1], p) + Count(Of(samples, class_, keys[|keys| - 1]), p)
  }

  ghost predicate Distinct<K>(keys: seq<K>) {
    forall j, k :: 0 <= j < k < |keys| ==> keys[j] != keys[k]
  }

  lemma {:induction false} OneMoreSample<K>(samples: seq<Sample>, class_: Sample -> K, keys: seq<K>, p: Sample -> bool)
    requires samples != [] && Distinct(keys)
    ensures var last := samples[|samples| - 1];
            ClassTotal(samples, class_, keys, p)
            == ClassTotal(samples[..|samples| - 1], class_, keys, p) + if class_(last) in keys && p(last) then 1 else 0
  {
    if keys != [] {
      var front, key := keys[..|keys| - 1], keys[|keys| - 1];
      OneMoreSample(samples, class_, front, p);
      var before, last := Of(samples[..|samples| - 1], class_, key), samples[|samples| - 1];
      assert keys == front + [key];
      assert (before + [last])[..|before|] == before;
      assert before + [] == before;
    }
  }

  /** Counting class by class loses nothing and counts nothing twice. */
  lemma {:induction false} ClassesPartition<K>(samples: seq<Sample>,
                                               class_: Sample -> K, keys: seq<K>, p: Sample -> bool)
    requires Distinct(keys) && forall x :: x in samples ==> class_(x) in keys
    ensures ClassTotal(samples, class_, keys, p) == Count(samples, p)
  {
    if samples == [] {
      EmptyClasses(class_, keys, p);
    } else {
      ClassesPartition(samples[..|samples| - 1], class_, keys, p);
      OneMoreSample(samples, class_, keys, p);
      assert samples[|samples| - 1] in samples;
    }
  }

  lemma {:induction false} EmptyClasses<K>(class_: Sample -> K, keys: seq<K>, p: Sample -> bool)
    ensures ClassTotal([], class_, keys, p) == 0
  {
    if keys != [] {
      EmptyClasses(class_, keys[..|keys| - 1], p);
    }
  }

  // ------------------------------------------------------------ the timeline

  const SECOND: Time := 1_000_000

  type Positive = n: int | n > 0 witness 1

  datatype Window = Window(index: int, startedAt: Time, count: nat, expected: nat, unexpected5xx: nat,
                           operations: map<string, OperationSummary>)

  function Earliest(samples: seq<Sample>): (t: Time)
    requires samples != []
    ensures exists k :: 0 <= k < |samples| && samples[k].startedAt == t
    ensures forall k :: 0 <= k < |samples| ==> t <= samples[k].startedAt
  {
    var last := |samples| - 1;
    if last == 0 then samples[0].startedAt
    else
      var rest := Earliest(samples[..last]);
      assert exists k :: 0 <= k < last && samples[..last][k].startedAt == rest && samples[k].startedAt == rest;
      assert forall k :: 0 <= k < last ==> samples[..last][k] == samples[k];
      if samples[last].startedAt < rest then samples[last].startedAt else rest
  }

  /** `(timestamp - anchor).total_seconds() // interval` */
  function Bucket(sample: Sample, anchor: Time, interval: Positive): int {
    (sample.startedAt - anchor) / (interval * SECOND)
  }

  function BucketOf(anchor: Time, interval: Positive): Sample -> int {
    x => Bucket(x, anchor, interval)
  }

  function StartOf(anchor: Time, interval: Positive, index: int): Time {
    anchor + index * (interval * SECOND)
  }

  function WindowFor(samples: seq<Sample>, anchor: Time, interval: Positive, index: int): Window {
    var inside := Of(samples, BucketOf(anchor, interval), index);
    Window(index, StartOf(anchor, interval, index), |inside|, Count(inside, IsExpected), Count(inside, Is5xx),
           ByOperation(inside, interval as real))
  }

  ghost predicate HasSample(samples: seq<Sample>, anchor: Time, interval: Positive, index: int) {
    exists n :: 0 <= n < |samples| && Bucket(samples[n], anchor, interval) == index
  }

  ghost predicate HasWindow(windows: seq<Window>, index: int) {
    exists k :: 0 <= k < |windows| && windows[k].index == index
  }

  lemma {:induction false} SampleIn(samples: seq<Sample>, anchor: Time, interval: Positive, index: int) returns (n: nat)
    requires HasSample(samples, anchor, interval, index)
    ensures n < |samples| && Bucket(samples[n], anchor, interval) == index
  {
    n :| 0 <= n < |samples| && Bucket(samples[n], anchor, interval) == index;
  }

  lemma {:induction false} WindowAt(windows: seq<Window>, index: int) returns (k: nat)
    requires HasWindow(windows, index)
    ensures k < |windows| && windows[k].index == index
  {
    k :| 0 <= k < |windows| && windows[k].index == index;
  }

  /** The windows in order, one for every bucket that some sample falls in. */
  ghost predicate IsTimeline(samples: seq<Sample>, interval: Positive, windows: seq<Window>)
    requires samples != []
  {
    var anchor := Earliest(samples);
    && (forall j, k :: 0 <= j < k < |windows| ==> windows[j].index < windows[k].index)
    && (forall k :: 0 <= k < |windows| ==> windows[k] == WindowFor(samples, anchor, interval, windows[k].index))
    && (forall k :: 0 <= k < |windows| ==> HasSample(samples, anchor, interval, windows[k].index))
    && (forall n :: 0 <= n < |samples| ==> HasWindow(windows, Bucket(samples[n], anchor, interval)))
  }

  ghost predicate Increasing(keys: seq<int>) {
    forall j, k :: 0 <= j < k < |keys| ==> keys[j] < keys[k]
  }

  lemma {:induction false} NothingIncreases()
    ensures Increasing([])
  {
  }

  lemma {:induction false} InsertedKeepsIncreasing(order: seq<int>, n: nat, key: int)
    requires Increasing(order) && key !in order && n <= |order|
    requires (forall k :: 0 <= k < n ==> order[k] < key) && (n < |order| ==> key <= order[n])
    ensures Increasing(order[..n] + [key] + order[n..])
  {
    var longer := order[..n] + [key] + order[n..];
    assert forall j :: 0 <= j < |longer| ==>
        longer[j] == if j < n then order[j] else if j == n then key else order[j - 1];
  }

  lemma {:induction false} InsertedHasKeys(order: seq<int>, n: nat, key: int)
    requires n <= |order|
    ensures forall x :: x in order[..n] + [key] + order[n..] <==> x in order || x == key
  {
    assert order == order[..n] + order[n..];
  }

  method InsertKey(order: seq<int>, key: int) returns (longer: seq<int>)
    requires Increasing(order) && key !in order
    ensures Increasing(longer) && forall x :: x in longer <==> x in order || x == key
  {
    var n := 0;
    while n < |order| && order[n] < key
      invariant 0 <= n <= |order|
      invariant forall k :: 0 <= k < n ==> order[k] < key
    {
      n := n + 1;
    }
    longer := order[..n] + [key] + order[n..];
    InsertedKeepsIncreasing(order, n, key);
    InsertedHasKeys(order, n, key);
  }

  /** The keys of a dictionary in increasing order. */
  method SortedKeys(keys: seq<int>) returns (order: seq<int>)
    requires Distinct(keys)
    ensures Increasing(order) && forall x :: x in keys <==> x in order
  {
    hide Increasing;
    order := [];
    NothingIncreases();
    for i := 0 to |keys|
      invariant Increasing(order) && forall x :: x in keys[..i] <==> x in order
    {
      assert keys[i] !in keys[..i];
      order := InsertKey(order, keys[i]);
      assert keys[..i + 1] == keys[..i] + [keys[i]];
    }
    assert keys[..|keys|] == keys;
  }

  /** The samples so far are in the lists of their buckets, and `keys` lists the dictionary's
      keys in the order in which it got them. */
  ghost predicate Grouped(samples: seq<Sample>, anchor: Time, interval: Positive, buckets: map<int, seq<Sample>>,
                          keys: seq<int>)
  {
    && Distinct(keys) && (forall b :: b in buckets <==> b in keys)
    && (forall b {:trigger HasSample(samples, anchor, interval, b)} :: b in buckets ==>
        HasSample(samples, anchor, interval, b))
    && (forall b :: Of(samples, BucketOf(anchor, interval), b) == if b in buckets then buckets[b] else [])
    && (forall k :: 0 <= k < |samples| ==> Bucket(samples[k], anchor, interval) in buckets)
  }

  lemma {:induction false} OneMoreKey(keys: seq<int>, key: int)
    requires Distinct(keys) && key !in keys
    ensures Distinct(keys + [key])
  {
  }

  lemma {:induction false} NothingGrouped(anchor: Time, interval: Positive)
    ensures Grouped([], anchor, interval, map[], [])
  {
  }

  lemma {:induction false} GroupedStep(samples: seq<Sample>, x: Sample, anchor: Time, interval: Positive,
                                       buckets: map<int, seq<Sample>>, keys: seq<int>)
    requires Grouped(samples, anchor, interval, buckets, keys)
    ensures var b := Bucket(x, anchor, interval);
            Grouped(samples + [x], anchor, interval,
                    buckets[b := (if b in buckets then buckets[b] else []) + [x]],
                    if b in buckets then keys else keys + [b])
  {
    hide Of, Bucket, HasSample, Distinct;
    var bucketOf := BucketOf(anchor, interval);
    var own := Bucket(x, anchor, interval);
    var after := buckets[own := (if own in buckets then buckets[own] else []) + [x]];
    if own !in buckets {
      OneMoreKey(keys, own);
    }
    forall b ensures Of(samples + [x], bucketOf, b) == if b in after then after[b] else [] {
      NextOf(samples, x, bucketOf, b);
    }
    forall b | b in after ensures HasSample(samples + [x], anchor, interval, b) {
      MoreSamples(samples, x, anchor, interval, b);
    }
    forall k | 0 <= k < |samples + [x]| ensures Bucket((samples + [x])[k], anchor, interval) in after {
    }
  }

  lemma {:induction false} MoreSamples(samples: seq<Sample>, x: Sample, anchor: Time, interval: Positive, b: int)
    requires HasSample(samples, anchor, interval, b) || b == Bucket(x, anchor, interval)
    ensures HasSample(samples + [x], anchor, interval, b)
  {
    if b == Bucket(x, anchor, interval) {
      assert (samples + [x])[|samples|] == x;
    } else {
      var n := SampleIn(samples, anchor, interval, b);
      assert (samples + [x])[n] == samples[n];
    }
  }

  /** The first loop: each sample goes to the list of its bucket. */
  method GroupByBucket(samples: seq<Sample>, anchor: Time, interval: Positive)
    returns (buckets: map<int, seq<Sample>>, keys: seq<int>)
    ensures Grouped(samples, anchor, interval, buckets, keys)
  {
    hide Grouped, Bucket;
    buckets, keys := map[], [];
    NothingGrouped(anchor, interval);
    var n := 0;
    assert samples[..n] == [];
    while n < |samples|
      invariant 0 <= n <= |samples|
      invariant Grouped(samples[..n], anchor, interval, buckets, keys)
    {
      var bucket := Bucket(samples[n], anchor, interval);
      GroupedStep(samples[..n], samples[n], anchor, interval, buckets, keys);
      assert samples[..n + 1] == samples[..n] + [samples[n]];
      if bucket !in buckets {
        keys := keys + [bucket];
      }
      buckets := buckets[bucket := (if bucket in buckets then buckets[bucket] else []) + [samples[n]]];
      n := n + 1;
    }
    assert samples[..n] == samples;
  }

  /** The second loop: one window for each bucket, in order. */
  method WindowsOf(samples: seq<Sample>, anchor: Time, interval: Positive, buckets: map<int, seq<Sample>>,
                   order: seq<int>)
    returns (windows: seq<Window>)
    requires forall b :: b in order ==> b in buckets && buckets[b] == Of(samples, BucketOf(anchor, interval), b)
    ensures |windows| == |order|
    ensures forall k :: 0 <= k < |order| ==> windows[k] == WindowFor(samples, anchor, interval, order[k])
  {
    hide Bucket, BucketOf, Of, ByOperation, Count, StartOf;
    windows := [];
    var n := 0;
    while n < |order|
      invariant 0 <= n <= |order| && |windows| == n
      invariant forall k :: 0 <= k < n ==> windows[k] == WindowFor(samples, anchor, interval, order[k])
    {
      assert order[n] in order;
      var inside := buckets[order[n]];
      windows := windows + [Window(order[n], StartOf(anchor, interval, order[n]), |inside|, Count(inside, IsExpected),
                                   Count(inside, Is5xx), ByOperation(inside, interval as real))];
      n := n + 1;
    }
  }

  method SummarizeTimeline(samples: seq<Sample>, interval: int) returns (r: Result<seq<Window>>)
    ensures interval <= 0 ==> r == Raised(ValueError)
    ensures interval > 0 && samples == [] ==> r == Ok([])
    ensures interval > 0 && samples != [] ==> r.Ok? && IsTimeline(samples, interval, r.value)
  {
    hide Bucket, BucketOf, Of, Earliest, ByOperation, Count, StartOf, HasSample, HasWindow;
    if interval <= 0 {
      return Raised(ValueError);
    }
    if samples == [] {
      return Ok([]);
    }
    var anchor := Earliest(samples);
    var buckets, keys := GroupByBucket(samples, anchor, interval);
    var order := SortedKeys(keys);
    var windows := WindowsOf(samples, anchor, interval, buckets, order);
    forall k | 0 <= k < |order| ensures HasSample(samples, anchor, interval, order[k]) {
      assert order[k] in order;
    }
    OrderIsTimeline(samples, interval, order, windows);
    return Ok(windows);
  }

  lemma {:induction false} OrderIsTimeline(samples: seq<Sample>, interval: Positive, order: seq<int>,
                                           windows: seq<Window>)
    requires samples != [] && |windows| == |order|
    requires forall k :: 0 <= k < |order| ==> HasSample(samples, Earliest(samples), interval, order[k])
    requires forall n :: 0 <= n < |samples| ==> Bucket(samples[n], Earliest(samples), interval) in order
    requires Increasing(order)
    requires forall k :: 0 <= k < |order| ==> windows[k] == WindowFor(samples, Earliest(samples), interval, order[k])
    ensures IsTimeline(samples, interval, windows)
  {
    hide Bucket, BucketOf, Of, Earliest, ByOperation, Count, StartOf, HasSample;
    forall n | 0 <= n < |samples| ensures HasWindow(windows, Bucket(samples[n], Earliest(samples), interval)) {
      var k :| 0 <= k < |order| && order[k] == Bucket(samples[n], Earliest(samples), interval);
      assert windows[k].index == order[k];
    }
  }

  /** The window that a sample's start time lies in. */
  predicate Covers(window: Window, interval: Positive, t: Time) {
    window.startedAt <= t < window.startedAt + interval * 1_000_000
  }

  lemma {:induction false} BucketCovers(sample: Sample, anchor: Time, interval: Positive, index: int)
    ensures Bucket(sample, anchor, interval) == index <==>
              var start := StartOf(anchor, interval, index);
              start <= sample.startedAt < start + interval * SECOND
    ensures sample.startedAt >= anchor ==> Bucket(sample, anchor, interval) >= 0
    ensures sample.startedAt == anchor ==> Bucket(sample, anchor, interval) == 0
  {
    QuotientIs(sample.startedAt - anchor, interval * SECOND, index);
  }

  lemma {:induction false} QuotientIs(offset: int, width: int, index: int)
    requires width > 0
    ensures offset / width == index <==> index * width <= offset < index * width + width
    ensures offset >= 0 ==> offset / width >= 0
    ensures offset == 0 ==> offset / width == 0
  {
    var q := offset / width;
    assert offset == q * width + offset % width;
    if index < q {
      assert (index + 1) * width <= q * width;
    } else if index > q {
      assert index * width >= (q + 1) * width;
    }
  }

  /** The windows start at index 0, the window of the earliest sample. */
  lemma {:induction false} TimelineStartsAtZero(samples: seq<Sample>, interval: Positive, windows: seq<Window>)
    requires samples != [] && IsTimeline(samples, interval, windows)
    ensures |windows| > 0 && windows[0].index == 0 && windows[0].startedAt == Earliest(samples)
  {
    hide Bucket, ByOperation, Count, Of, Earliest, HasSample, HasWindow;
    var anchor := Earliest(samples);
    var first :| 0 <= first < |samples| && samples[first].startedAt == anchor;
    BucketCovers(samples[first], anchor, interval, 0);
    var z := WindowAt(windows, 0);
    var n := SampleIn(samples, anchor, interval, windows[0].index);
    BucketCovers(samples[n], anchor, interval, windows[0].index);
    assert windows[0] == WindowFor(samples, anchor, interval, windows[0].index);
  }

  /** Every sample lies in exactly one window. */
  lemma {:induction false} WindowsPartitionTime(samples: seq<Sample>, interval: Positive, windows: seq<Window>, n: nat)
    requires samples != [] && IsTimeline(samples, interval, windows) && n < |samples|
    ensures exists k :: 0 <= k < |windows| && Covers(windows[k], interval, samples[n].startedAt)
                        && forall j :: 0 <= j < |windows| && Covers(windows[j], interval, samples[n].startedAt) ==>
                            j == k
  {
    hide Bucket, ByOperation, Count, Of, Earliest, StartOf, HasSample, HasWindow;
    var anchor := Earliest(samples);
    var k := WindowAt(windows, Bucket(samples[n], anchor, interval));
    forall j | 0 <= j < |windows|
      ensures Covers(windows[j], interval, samples[n].startedAt) <==>
                windows[j].index == Bucket(samples[n], anchor, interval)
    {
      BucketCovers(samples[n], anchor, interval, windows[j].index);
      assert windows[j] == WindowFor(samples, anchor, interval, windows[j].index);
    }
  }

  ghost function Sum(windows: seq<Window>, f: Window -> nat): nat {
    if windows == [] then 0 else Sum(windows[..|windows| - 1], f) + f(windows[|windows| - 1])
  }

  lemma {:induction false} SumIsClassTotal(samples: seq<Sample>, class_: Sample -> int, windows: seq<Window>,
                                           keys: seq<int>, p: Sample -> bool, f: Window -> nat)
    requires |keys| == |windows|
    requires forall k :: 0 <= k < |windows| ==> f(windows[k]) == Count(Of(samples, class_, keys[k]), p)
    ensures Sum(windows, f) == ClassTotal(samples, class_, keys, p)
  {
    if windows != [] {
      SumIsClassTotal(samples, class_, windows[..|windows| - 1], keys[..|keys| - 1], p, f);
    }
  }

  lemma {:induction false} CountIsFilterLength(samples: seq<Sample>, p: Sample -> bool)
    ensures |Filter(samples, p)| == Count(samples, p)
    ensures (forall x :: x in samples ==> !p(x)) ==> Count(samples, p) == 0
  {
    if samples != [] {
      CountIsFilterLength(samples[..|samples| - 1], p);
      assert samples[|samples| - 1] in samples;
    }
  }

  lemma {:induction false} CountOfAny(samples: seq<Sample>)
    ensures Count(samples, AnySample) == |samples|
  {
    if samples != [] {
      CountOfAny(samples[..|samples| - 1]);
    }
  }

  /** A count taken window by window adds up to the count of the whole run. */
  lemma {:induction false} WindowCountsAddUp(samples: seq<Sample>, interval: Positive, windows: seq<Window>,
                                             p: Sample -> bool, f: Window -> nat)
    requires samples != [] && IsTimeline(samples, interval, windows)
    requires forall k :: 0 <= k < |windows| ==>
               f(windows[k]) == Count(Of(samples, BucketOf(Earliest(samples), interval), windows[k].index), p)
    ensures Sum(windows, f) == Count(samples, p)
  {
    hide WindowFor, Count, Of, ClassTotal, Sum, Bucket, HasSample, HasWindow, Earliest;
    var bucketOf := BucketOf(Earliest(samples), interval);
    var keys := seq(|windows|, k requires 0 <= k < |windows| => windows[k].index);
    SumIsClassTotal(samples, bucketOf, windows, keys, p, f);
    forall n | 0 <= n < |samples| ensures bucketOf(samples[n]) in keys {
      var k := WindowAt(windows, Bucket(samples[n], Earliest(samples), interval));
      assert keys[k] == bucketOf(samples[n]);
    }
    ClassesPartition(samples, bucketOf, keys, p);
  }

  function CountIn(window: Window, operation: string): nat {
    if operation in window.operations then window.operations[operation].count else 0
  }

  lemma {:induction false} OperationCount(samples: seq<Sample>, elapsed: real, operation: string)
    ensures var summaries := ByOperation(samples, elapsed);
            (if operation in summaries then summaries[operation].count else 0)
                == Count(samples, InClass(OperationOf, operation))
  {
    hide Count, Filter, RoundedPercentile, Throughput, Maximum;
    CountIsFilterLength(samples, InClass(OperationOf, operation));
    if operation in ByOperation(samples, elapsed) {
    } else {
      forall x | x in samples ensures !InClass(OperationOf, operation)(x) {
        assert OperationOf(x) in ByOperation(samples, elapsed);
      }
    }
  }

  /** Conservation: over all windows, the samples, the expected responses, the server errors
      and the samples of each operation add up to those of the whole run. */
  lemma {:induction false} TimelineConserves(samples: seq<Sample>, interval: Positive, windows: seq<Window>,
                                             operation: string)
    requires samples != [] && IsTimeline(samples, interval, windows)
    ensures Sum(windows, (w: Window) => w.count) == |samples|
    ensures Sum(windows, (w: Window) => w.expected) == Count(samples, IsExpected)
    ensures Sum(windows, (w: Window) => w.unexpected5xx) == Count(samples, Is5xx)
    ensures Sum(windows, (w: Window) => CountIn(w, operation)) == |Of(samples, OperationOf, operation)|
  {
    hide Count, Sum, ByOperation, Filter;
    var bucketOf := BucketOf(Earliest(samples), interval);
    forall k | 0 <= k < |windows|
      ensures windows[k].count == Count(Of(samples, bucketOf, windows[k].index), AnySample)
    {
      CountOfAny(Of(samples, bucketOf, windows[k].index));
    }
    CountOfAny(samples);
    WindowCountsAddUp(samples, interval, windows, AnySample, (w: Window) => w.count);
    WindowCountsAddUp(samples, interval, windows, IsExpected, (w: Window) => w.expected);
    WindowCountsAddUp(samples, interval, windows, Is5xx, (w: Window) => w.unexpected5xx);
    forall k | 0 <= k < |windows|
      ensures CountIn(windows[k], operation)
              == Count(Of(samples, bucketOf, windows[k].index), InClass(OperationOf, operation))
    {
      OperationCount(Of(samples, bucketOf, windows[k].index), interval as real, operation);
    }
    WindowCountsAddUp(samples, interval, windows, InClass(OperationOf, operation),
                      (w: Window) => CountIn(w, operation));
    CountIsFilterLength(samples, InClass(OperationOf, operation));
  }

  /** What the entries of a dictionary add up to, its keys listed in any order. */
  ghost function Over<K, V>(entries: map<K, V>, keys: seq<K>, f: V -> nat): nat {
    if keys == [] then 0
    else
      var key := keys[|keys| - 1];
      Over(entries, keys[..|keys| - 1], f) + if key in entries then f(entries[key]) else 0
  }

  ghost predicate Lists<K(!new), V>(keys: seq<K>, entries: map<K, V>) {
    Distinct(keys) && forall key :: key in entries <==> key in keys
  }

  lemma {:induction false} OverIsClassTotal<K, V>(samples: seq<Sample>, class_: Sample -> K, entries: map<K, V>,
                                                  keys: seq<K>, p: Sample -> bool, f: V -> nat)
    requires forall key :: key in keys ==> key in entries && f(entries[key]) == Count(Of(samples, class_, key), p)
    ensures Over(entries, keys, f) == ClassTotal(samples, class_, keys, p)
  {
    if keys != [] {
      OverIsClassTotal(samples, class_, entries, keys[..|keys| - 1], p, f);
      assert keys[|keys| - 1] in keys;
    }
  }

  /** Within one summary, too, nothing is lost: the operations add up to the whole, ... */
  lemma {:induction false} OperationsConserve(samples: seq<Sample>, elapsed: real, operations: seq<string>)
    requires Lists(operations, ByOperation(samples, elapsed))
    ensures Over(ByOperation(samples, elapsed), operations, (o: OperationSummary) => o.count) == |samples|
    ensures Over(ByOperation(samples, elapsed), operations, (o: OperationSummary) => o.expected)
              == Count(samples, IsExpected)
  {
    hide Count, Of, Over, ClassTotal, RoundedPercentile, Throughput, Maximum;
    var summaries := ByOperation(samples, elapsed);
    forall x | x in samples ensures OperationOf(x) in operations {
      assert OperationOf(x) in summaries;
    }
    forall o | o in operations
      ensures o in summaries && summaries[o].count == Count(Of(samples, OperationOf, o), AnySample)
    {
      CountOfAny(Of(samples, OperationOf, o));
    }
    CountOfAny(samples);
    OverIsClassTotal(samples, OperationOf, summaries, operations, AnySample, (o: OperationSummary) => o.count);
    OverIsClassTotal(samples, OperationOf, summaries, operations, IsExpected, (o: OperationSummary) => o.expected);
    ClassesPartition(samples, OperationOf, operations, AnySample);
    ClassesPartition(samples, OperationOf, operations, IsExpected);
  }

  /** ... and the status counts of an operation add up to its count. */
  lemma {:induction false} StatusesConserve(samples: seq<Sample>, elapsed: real, statuses: seq<Option<int>>)
    requires Lists(statuses, SummarizeOperation(samples, elapsed).statuses)
    ensures Over(SummarizeOperation(samples, elapsed).statuses, statuses, (n: nat) => n)
            == SummarizeOperation(samples, elapsed).count
  {
    hide Count, Of, Over, ClassTotal, RoundedPercentile, Throughput, Maximum;
    var counts := SummarizeOperation(samples, elapsed).statuses;
    forall x | x in samples ensures StatusOf(x) in statuses {
      assert StatusOf(x) in counts;
    }
    forall c | c in statuses ensures c in counts && counts[c] == Count(Of(samples, StatusOf, c), AnySample) {
      CountOfAny(Of(samples, StatusOf, c));
    }
    CountOfAny(samples);
    OverIsClassTotal(samples, StatusOf, counts, statuses, AnySample, (n: nat) => n);
    ClassesPartition(samples, StatusOf, statuses, AnySample);
  }

  // ------------------------------------------------------------ what the numbers mean

  /** `x` to the nearest thousandth. */
  ghost predicate ToThousandth(rounded: real, x: real) {
    rounded - 0.0005 <= x <= rounded + 0.0005 && (rounded * 1000.0).Floor as real == rounded * 1000.0
  }

  lemma {:induction false} RoundsToThousandth(x: real)
    ensures ToThousandth(RoundTo(x, 1000), x)
  {
    var n := RoundHalfEven(Scaled(x, 1000));
    assert RoundTo(x, 1000) * 1000.0 == n as real;
  }

  /** A rounded percentile: one of the values splits them at that percentage. */
  ghost predicate SplitsAt(rounded: Option<real>, values: seq<real>, percentage: real) {
    rounded.Some? && exists v :: v in values && ToThousandth(rounded.value, v)
                                 && CountAtMost(values, v) as real * 100.0 >= percentage * |values| as real
                                 && CountBelow(values, v) as real * 100.0 < percentage * |values| as real
  }

  lemma {:induction false} PercentileSplits(values: seq<real>, percentage: real)
    requires values != [] && 0.0 < percentage <= 100.0
    ensures SplitsAt(RoundedPercentile(values, percentage), values, percentage)
  {
    hide RoundTo, ToThousandth, NearestRank, CountAtMost, CountBelow;
    NearestRankSplitsTheValues(values, percentage);
    RoundsToThousandth(NearestRank(values, percentage).value.value);
  }

  lemma {:induction false} NoPercentile(percentage: real)
    ensures RoundedPercentile([], percentage) == None
  {
    PercentileIsRefusedIff([], percentage);
  }

  /** What a summary of samples says: how many there are and how many were as expected, the
      percentiles under their own names, the longest duration, and the rate per second. */
  lemma {:induction false} SummaryMeans(samples: seq<Sample>, elapsed: real)
    ensures var s, d := SummarizeOperation(samples, elapsed), Durations(samples);
            && s.count == |samples| && s.expected + s.unexpected == |samples|
            && s.expected == Count(samples, (x: Sample) =>
                               x.error == None && x.status.Some? && x.status.value in x.expectedStatuses)
            && (if samples == [] then s.p50 == s.p90 == s.p95 == s.p99 == s.max == None
                else
                  && SplitsAt(s.p50, d, 50.0) && SplitsAt(s.p90, d, 90.0) && SplitsAt(s.p95, d, 95.0)
                  && SplitsAt(s.p99, d, 99.0)
                  && s.max.Some?
                  && exists v :: v in d && ToThousandth(s.max.value, v) && forall w :: w in d ==> w <= v)
            && (if elapsed > 0.0 then ToThousandth(s.throughput, |samples| as real / elapsed) else s.throughput == 0.0)
  {
    hide RoundTo, ToThousandth, RoundedPercentile, SplitsAt, Of, Count;
    var d := Durations(samples);
    if samples == [] {
      NoPercentile(50.0);
      NoPercentile(90.0);
      NoPercentile(95.0);
      NoPercentile(99.0);
    } else {
      PercentileSplits(d, 50.0);
      PercentileSplits(d, 90.0);
      PercentileSplits(d, 95.0);
      PercentileSplits(d, 99.0);
      RoundsToThousandth(Maximum(d));
    }
    if elapsed > 0.0 {
      RoundsToThousandth(|samples| as real / elapsed);
    }
    SameCount(samples, IsExpected,
              (x: Sample) => x.error == None && x.status.Some? && x.status.value in x.expectedStatuses);
  }

  lemma {:induction false} SameCount(samples: seq<Sample>, p: Sample -> bool, q: Sample -> bool)
    requires forall x :: p(x) <==> q(x)
    ensures Count(samples, p) == Count(samples, q)
  {
    if samples != [] {
      SameCount(samples[..|samples| - 1], p, q);
    }
  }

  /** The status counts tell how many samples had each status, no answer at all included. */
  lemma {:induction false} StatusCountsMean(samples: seq<Sample>, elapsed: real, status: Option<int>)
    ensures var counts := SummarizeOperation(samples, elapsed).statuses;
            var had := (x: Sample) => x.status == status;
            && (status in counts <==> Count(samples, had) > 0)
            && (status in counts ==> counts[status] == Count(samples, had))
  {
    hide RoundedPercentile, Throughput, Maximum, Count, Filter;
    var had := (x: Sample) => x.status == status;
    SameCount(samples, InClass(StatusOf, status), had);
    CountIsFilterLength(samples, InClass(StatusOf, status));
    if status in SummarizeOperation(samples, elapsed).statuses {
      var x :| x in samples && StatusOf(x) == status;
      FilterKeeps(samples, InClass(StatusOf, status), x);
    }
  }

  /** Each operation is summarised from its own samples, in a window over the window's length. */
  lemma {:induction false} OperationsAreTheirOwn(samples: seq<Sample>, elapsed: real, operation: string)
    requires operation in ByOperation(samples, elapsed)
    ensures var own := Filter(samples, (x: Sample) => x.operation == operation);
            own != [] && ByOperation(samples, elapsed)[operation] == SummarizeOperation(own, elapsed)
  {
    hide SummarizeOperation;
    var p := (x: Sample) => x.operation == operation;
    SameFilter(samples, InClass(OperationOf, operation), p);
    var x :| x in samples && OperationOf(x) == operation;
    FilterKeeps(samples, p, x);
  }

  lemma {:induction false} SameFilter(samples: seq<Sample>, p: Sample -> bool, q: Sample -> bool)
    requires forall x :: p(x) <==> q(x)
    ensures Filter(samples, p) == Filter(samples, q)
  {
    if samples != [] {
      SameFilter(samples[..|samples| - 1], p, q);
    }
  }

  lemma {:induction false} FilterKeeps(samples: seq<Sample>, p: Sample -> bool, x: Sample)
    requires x in samples && p(x)
    ensures x in Filter(samples, p)
  {
    var last := |samples| - 1;
    if samples[last] != x {
      assert x in samples[..last];
      FilterKeeps(samples[..last], p, x);
    }
  }

  /** What a window says: its number and its start, a whole number of intervals after the first;
      how many of its samples there are, were as expected, and met a server error; and its
      operations, at the rate over one interval. */
  lemma {:induction false} WindowMeans(samples: seq<Sample>, interval: Positive, windows: seq<Window>, k: nat)
    requires samples != [] && IsTimeline(samples, interval, windows) && k < |windows|
    ensures var w := windows[k];
            var inside := Filter(samples, (x: Sample) =>
                                   w.startedAt <= x.startedAt < w.startedAt + interval * 1_000_000);
            && inside != [] && w.count == |inside|
            && w.startedAt == Earliest(samples) + w.index * (interval * 1_000_000)
            && w.unexpected5xx == Count(inside, (x: Sample) => x.status.Some? && x.status.value >= 500)
            && w.expected == Count(inside, (x: Sample) =>
                               x.error == None && x.status.Some? && x.status.value in x.expectedStatuses)
            && w.operations == ByOperation(inside, interval as real)
  {
    hide ByOperation, Count, Earliest, Filter, HasWindow, Bucket;
    var w, anchor := windows[k], Earliest(samples);
    var p := (x: Sample) => w.startedAt <= x.startedAt < w.startedAt + interval * 1_000_000;
    forall x: Sample ensures InClass(BucketOf(anchor, interval), w.index)(x) <==> p(x) {
      BucketCovers(x, anchor, interval, w.index);
    }
    SameFilter(samples, InClass(BucketOf(anchor, interval), w.index), p);
    var n := SampleIn(samples, anchor, interval, w.index);
    FilterKeeps(samples, InClass(BucketOf(anchor, interval), w.index), samples[n]);
    var inside := Filter(samples, p);
    SameCount(inside, Is5xx, (x: Sample) => x.status.Some? && x.status.value >= 500);
    SameCount(inside, IsExpected,
              (x: Sample) => x.error == None && x.status.Some? && x.status.value in x.expectedStatuses);
  }

  // ------------------------------------------------------------ the whole run

  datatype RunSummary = RunSummary(
    total: nat, expected: nat, unexpected: int, unexpected5xx: nat, availability: real, unexpected5xxPercent: real,
    throughput: real, operations: map<string, OperationSummary>, timeline: seq<Window>)

  function Percent(numerator: nat, denominator: nat): real {
    if denominator == 0 then 0.0 else RoundTo(numerator as real / denominator as real * 100.0, 1000)
  }

  lemma {:induction false} RoundedBounds()
    ensures RoundTo(0.0, 1000) == 0.0 && RoundTo(100.0, 1000) == 100.0
  {
  }

  lemma {:induction false} PercentInRange(numerator: nat, denominator: nat)
    requires numerator <= denominator
    ensures denominator == 0 ==> Percent(numerator, denominator) == 0.0
    ensures 0.0 <= Percent(numerator, denominator) <= 100.0
  {
    hide RoundTo;
    if denominator > 0 {
      var share := numerator as real / denominator as real;
      PartOfWhole(numerator as real, denominator as real);
      RoundingIsMonotone(0.0, share * 100.0, 1000);
      RoundingIsMonotone(share * 100.0, 100.0, 1000);
      RoundedBounds();
    }
  }

  lemma {:induction false} NumbersMean(samples: seq<Sample>, elapsed: real)
    ensures Count(samples, Is5xx) == Count(samples, (x: Sample) => x.status.Some? && x.status.value >= 500)
    ensures if elapsed > 0.0 then ToThousandth(Throughput(|samples|, elapsed), |samples| as real / elapsed)
            else Throughput(|samples|, elapsed) == 0.0
    ensures forall n: nat {:trigger Percent(n, |samples|)} :: samples != [] ==>
              ToThousandth(Percent(n, |samples|), n as real / |samples| as real * 100.0)
  {
    hide Count, ToThousandth, RoundTo;
    SameCount(samples, Is5xx, (x: Sample) => x.status.Some? && x.status.value >= 500);
    if elapsed > 0.0 {
      RoundsToThousandth(|samples| as real / elapsed);
    }
    forall n: nat {:trigger Percent(n, |samples|)} | samples != []
      ensures ToThousandth(Percent(n, |samples|), n as real / |samples| as real * 100.0)
    {
      RoundsToThousandth(n as real / |samples| as real * 100.0);
    }
  }

  /** The summary of a run. What its timeline shows adds up to its totals, and its
      percentages are percentages. */
  method SummarizeSamples(samples: seq<Sample>, elapsed: real) returns (r: RunSummary)
    ensures r.total == |samples| && r.expected == Count(samples, IsExpected) && r.expected + r.unexpected == r.total
    ensures r.unexpected5xx == Count(samples, Is5xx)
    ensures r.operations == ByOperation(samples, elapsed)
    ensures samples != [] ==> IsTimeline(samples, 60, r.timeline)
    ensures Sum(r.timeline, (w: Window) => w.count) == r.total
    ensures Sum(r.timeline, (w: Window) => w.expected) == r.expected
    ensures Sum(r.timeline, (w: Window) => w.unexpected5xx) == r.unexpected5xx
    ensures r.availability == Percent(r.expected, r.total)
              && r.unexpected5xxPercent == Percent(r.unexpected5xx, r.total)
    ensures r.throughput == Throughput(r.total, elapsed)
    ensures 0.0 <= r.availability <= 100.0 && 0.0 <= r.unexpected5xxPercent <= 100.0
    ensures samples != [] ==>
              && ToThousandth(r.availability, r.expected as real / r.total as real * 100.0)
              && ToThousandth(r.unexpected5xxPercent, r.unexpected5xx as real / r.total as real * 100.0)
    ensures samples == [] ==> r.timeline == [] && r.availability == 0.0 && r.unexpected5xxPercent == 0.0
    ensures r.unexpected5xx == Count(samples, (x: Sample) => x.status.Some? && x.status.value >= 500)
    ensures if elapsed > 0.0 then ToThousandth(r.throughput, r.total as real / elapsed) else r.throughput == 0.0
  {
    hide ByOperation, IsTimeline, Percent, RoundTo, Earliest, ToThousandth;
    NumbersMean(samples, elapsed);
    var expected, errors, total := Count(samples, IsExpected), Count(samples, Is5xx), |samples|;
    var timeline := SummarizeTimeline(samples, 60);
    CountBounds(samples, IsExpected, 0);
    CountBounds(samples, Is5xx, 0);
    PercentInRange(expected, total);
    PercentInRange(errors, total);
    if samples != [] {
      TimelineConserves(samples, 60, timeline.value, "");
    }
    r := RunSummary(total, expected, total - expected, errors, Percent(expected, total), Percent(errors, total),
                    Throughput(total, elapsed), ByOperation(samples, elapsed), timeline.value);
  }
}
