/** The candle chart: buckets of one resolution mapped over the requested span, trades
    assigned to them, and the open, high, low, close, cost and volume series. Times are in
    nanoseconds. */
module Candles {
  import opened Options

  /** A trade; its amount is a decimal string, `None` when it does not parse. */
  datatype Trade = Trade(createdAt: int, price: real, amount: Option<real>)
  datatype Bucket = Bucket(start: int, end: int, trades: seq<Trade>)

  const MILLISECOND := 1_000_000
  const MINUTE := 60_000 * MILLISECOND

  // ---------- the bucket loop ----------

  /** How many buckets of width `width` the loop maps over a span. */
  function BucketCount(span: int, width: int): int
    requires span > 0 && width > 0
  {
    if span <= width then 1 else span / width + 1
  }

  ghost predicate Mapped(buckets: seq<Bucket>, start: int, width: int) {
    forall i :: 0 <= i < |buckets| ==>
      buckets[i].start == start + i * width && buckets[i].end == start + (i + 1) * width
  }

  lemma NextMultiple(a: int, b: int, width: int)
    requires width > 0
    ensures a < b ==> (a + 1) * width <= b * width
    ensures (a + 1) * width == a * width + width
  {
    if a < b {
      var k := b - (a + 1);
      assert b * width == (a + 1) * width + k * width;
    }
  }

  lemma CountUnique(span: int, width: int, n: int)
    requires span > 0 && width > 0 && n >= 1
    requires (n - 1) * width <= span
    requires n * width > span || (n * width == span && n == 1)
    requires n >= 2 ==> span > width
    ensures n == BucketCount(span, width)
  {
    var q, r := span / width, span % width;
    assert span == q * width + r && 0 <= r < width;
    NextMultiple(q, n - 1, width);
    NextMultiple(n - 1, q, width);
    NextMultiple(n - 1, n, width);
    assert n == 1 ==> n * width == width;
  }

  /** The loop that maps the buckets. Its exit test stops on a bucket that ends exactly at
      `end` only when that is the first one. */
  method MapBuckets(first: int, end: int, width: int) returns (buckets: seq<Bucket>)
    requires first < end && width > 0
    ensures |buckets| == BucketCount(end - first, width)
    ensures Mapped(buckets, first, width)
    ensures forall i :: 0 <= i < |buckets| ==> buckets[i].trades == []
  {
    buckets := [];
    var start, endTs := first, end;
    while !(endTs > end || (endTs == end && |buckets| == 1))
      invariant Mapped(buckets, first, width)
      invariant forall i :: 0 <= i < |buckets| ==> buckets[i].trades == []
      invariant start == first + |buckets| * width
      invariant endTs == if |buckets| == 0 then end else start
      invariant |buckets| >= 1 ==> (|buckets| - 1) * width <= end - first
      invariant |buckets| >= 2 ==> end - first > width
      decreases end - start
    {
      if |buckets| == 1 {
        assert |buckets| * width == width;
      }
      endTs := start + width;
      assert (|buckets| + 1) * width == |buckets| * width + width;
      buckets := buckets + [Bucket(start, endTs, [])];
      start := endTs;
    }
    CountUnique(end - first, width, |buckets|);
  }

  /** The buckets are contiguous from the start, each of the same width, and cover the span;
      the last one starts at or before the end, and starts exactly there just when the span
      is two or more whole widths. */
  lemma BucketsCover(buckets: seq<Bucket>, start: int, end: int, width: int)
    requires start < end && width > 0
    requires Mapped(buckets, start, width) && |buckets| == BucketCount(end - start, width)
    ensures buckets[0].start == start
    ensures forall i :: 0 <= i < |buckets| ==> buckets[i].end - buckets[i].start == width
    ensures forall i :: 0 < i < |buckets| ==> buckets[i].start == buckets[i - 1].end
    ensures buckets[|buckets| - 1].end >= end
    ensures buckets[|buckets| - 1].start <= end
    ensures buckets[|buckets| - 1].start == end <==> end - start > width && (end - start) % width == 0
  {
    var n := |buckets|;
    forall i | 0 <= i < n ensures buckets[i].end - buckets[i].start == width {
      NextMultiple(i, i, width);
    }
    assert buckets[0].start == start + 0 * width;
    LastBucket(end - start, width);
  }

  lemma LastBucket(span: int, width: int)
    requires span > 0 && width > 0
    ensures var n := BucketCount(span, width);
      && n >= 1 && n * width >= span && (n - 1) * width <= span
      && ((n - 1) * width == span <==> span > width && span % width == 0)
      && (n > 1 ==> n * width > span)
  {
    var q, r := span / width, span % width;
    assert span == q * width + r && 0 <= r < width;
    NextMultiple(q, q, width);
    if span <= width {
      assert 1 * width == width && 0 * width == 0;
    } else if q < 0 {
      NextMultiple(q, 0, width);
    }
  }

  /** The interiors are disjoint: no trade lies strictly inside two buckets. */
  lemma InteriorsDisjoint(buckets: seq<Bucket>, start: int, width: int, i: nat, j: nat, c: int)
    requires width > 0 && Mapped(buckets, start, width) && i < |buckets| && j < |buckets|
    requires buckets[i].start < c < buckets[i].end && buckets[j].start < c < buckets[j].end
    ensures i == j
  {
    NextMultiple(i, j, width);
    NextMultiple(j, i, width);
  }

  // ---------- sorting and sums ----------

  predicate SortedBy(ts: seq<Trade>, key: Trade -> real) {
    forall i, j :: 0 <= i < j < |ts| ==> key(ts[i]) <= key(ts[j])
  }

  /** A sort by a key, not stable; callers may rely on nothing but this contract. */
  method SortSlice(ts: seq<Trade>, key: Trade -> real) returns (sorted: seq<Trade>)
    ensures SortedBy(sorted, key)
    ensures multiset(sorted) == multiset(ts)
  {
    sorted := [];
    for i := 0 to |ts|
      invariant SortedBy(sorted, key)
      invariant multiset(sorted) == multiset(ts[..i])
    {
      sorted := Insert(sorted, ts[i], key);
      assert ts[..i + 1] == ts[..i] + [ts[i]];
    }
    assert ts[..|ts|] == ts;
  }

  method Insert(sorted: seq<Trade>, t: Trade, key: Trade -> real) returns (r: seq<Trade>)
    requires SortedBy(sorted, key)
    ensures SortedBy(r, key)
    ensures multiset(r) == multiset(sorted) + multiset{t}
  {
    var k := 0;
    while k < |sorted| && key(sorted[k]) <= key(t)
      invariant 0 <= k <= |sorted|
      invariant forall i :: 0 <= i < k ==> key(sorted[i]) <= key(t)
    {
      k := k + 1;
    }
    r := sorted[..k] + [t] + sorted[k..];
    assert multiset(sorted) == multiset(sorted[..k]) + multiset(sorted[k..]) by {
      assert sorted == sorted[..k] + sorted[k..];
    }
  }

  /** What a trade adds to the volume, or to the cost; nothing when its amount does not parse. */
  function Value(t: Trade, cost: bool): real {
    match t.amount
    case None => 0.0
    case Some(a) => if cost then a * t.price else a
  }

  function Total(ts: seq<Trade>, cost: bool): real {
    if ts == [] then 0.0 else Total(ts[..|ts| - 1], cost) + Value(ts[|ts| - 1], cost)
  }

  lemma {:induction false} TotalConcat(a: seq<Trade>, b: seq<Trade>, cost: bool)
    ensures Total(a + b, cost) == Total(a, cost) + Total(b, cost)
    decreases |b|
  {
    if b == [] {
      assert a + b == a;
    } else {
      assert (a + b)[..|a + b| - 1] == a + b[..|b| - 1];
      TotalConcat(a, b[..|b| - 1], cost);
    }
  }

  lemma RemoveOne(b: seq<Trade>, k: nat, cost: bool)
    requires k < |b|
    ensures var rest := b[..k] + b[k + 1..];
      multiset(rest) == multiset(b) - multiset{b[k]} && Total(b, cost) == Total(rest, cost) + Value(b[k], cost)
  {
    var front, back := b[..k], b[k + 1..];
    assert b == (front + [b[k]]) + back;
    TotalConcat(front + [b[k]], back, cost);
    TotalConcat(front, [b[k]], cost);
    TotalConcat(front, back, cost);
    assert [b[k]][..0] == [];
  }

  lemma {:induction false} TotalPermuted(a: seq<Trade>, b: seq<Trade>, cost: bool)
    requires multiset(a) == multiset(b)
    ensures Total(a, cost) == Total(b, cost)
    decreases |a|
  {
    if a == [] {
      assert |multiset(b)| == 0;
    } else {
      var n := |a| - 1;
      assert a[n] in multiset(b);
      var k :| 0 <= k < |b| && b[k] == a[n];
      RemoveOne(a, n, cost);
      RemoveOne(b, k, cost);
      assert a[..n] + a[n + 1..] == a[..n];
      TotalPermuted(a[..n], b[..k] + b[k + 1..], cost);
    }
  }

  // ---------- assignment ----------

  /** The trades strictly inside a bucket. */
  function Inside(trades: seq<Trade>, start: int, end: int): seq<Trade> {
    if trades == [] then []
    else
      var init, last := trades[..|trades| - 1], trades[|trades| - 1];
      if start < last.createdAt < end then Inside(init, start, end) + [last] else Inside(init, start, end)
  }

  function ByTime(t: Trade): real { t.createdAt as real }

  function ByPrice(t: Trade): real { t.price }

  /** A bucket holds the trades strictly inside it, earliest first. */
  ghost predicate Assigned(b: Bucket, trades: seq<Trade>) {
    SortedBy(b.trades, ByTime) && multiset(b.trades) == multiset(Inside(trades, b.start, b.end))
  }

  method AssignTrades(empty: seq<Bucket>, trades: seq<Trade>) returns (buckets: seq<Bucket>)
    requires forall i :: 0 <= i < |empty| ==> empty[i].trades == []
    ensures |buckets| == |empty|
    ensures forall i :: 0 <= i < |empty| ==> buckets[i].start == empty[i].start && buckets[i].end == empty[i].end
    ensures forall i :: 0 <= i < |empty| ==> Assigned(buckets[i], trades)
  {
    buckets := empty;
    for key := 0 to |empty|
      invariant |buckets| == |empty|
      invariant forall i :: 0 <= i < |empty| ==> buckets[i].start == empty[i].start && buckets[i].end == empty[i].end
      invariant forall i :: 0 <= i < key ==> Assigned(buckets[i], trades)
      invariant forall i :: key <= i < |empty| ==> buckets[i] == empty[i]
    {
      var bucket := AssignBucket(buckets[key], trades);
      buckets := buckets[key := bucket];
    }
  }

  /** The inner loop: append each trade strictly inside, and sort again by time. */
  method AssignBucket(empty: Bucket, trades: seq<Trade>) returns (bucket: Bucket)
    requires empty.trades == []
    ensures bucket.start == empty.start && bucket.end == empty.end
    ensures Assigned(bucket, trades)
  {
    bucket := empty;
    for i := 0 to |trades|
      invariant bucket.start == empty.start && bucket.end == empty.end
      invariant Assigned(bucket, trades[..i])
    {
      var created := trades[i].createdAt;
      assert trades[..i + 1][..i] == trades[..i];
      if created > empty.start && created < empty.end {
        var t := bucket.trades + [trades[i]];
        t := SortSlice(t, ByTime);
        bucket := Bucket(empty.start, empty.end, t);
      }
    }
    assert trades[..|trades|] == trades;
  }

  // ---------- the series ----------

  datatype Candle = Candle(open: real, high: real, low: real, close: real, cost: real, volume: real)

  datatype Chart = Chart(ticks: seq<int>, open: seq<real>, high: seq<real>, low: seq<real>,
                         close: seq<real>, cost: seq<real>, volume: seq<real>)

  ghost predicate SameLengths(c: Chart, n: int) {
    |c.ticks| == |c.open| == |c.high| == |c.low| == |c.close| == |c.cost| == |c.volume| == n
  }

  function CandleAt(c: Chart, i: nat): Candle
    requires i < |c.open| && i < |c.high| && i < |c.low| && i < |c.close| && i < |c.cost| && i < |c.volume|
  {
    Candle(c.open[i], c.high[i], c.low[i], c.close[i], c.cost[i], c.volume[i])
  }

  const BEFORE := Candle(0.0, 0.0, 0.0, 0.0, 0.0, 0.0)

  /** The first price, at the earliest time; the last, at the latest; the extremes; the sums. */
  ghost predicate Summarises(c: Candle, inside: seq<Trade>) {
    && (exists t :: t in inside && t.price == c.open && forall u :: u in inside ==> t.createdAt <= u.createdAt)
    && (exists t :: t in inside && t.price == c.close && forall u :: u in inside ==> u.createdAt <= t.createdAt)
    && (exists t :: t in inside && t.price == c.low)
    && (exists t :: t in inside && t.price == c.high)
    && (forall u :: u in inside ==> c.low <= u.price <= c.high)
    && c.cost == Total(inside, true)
    && c.volume == Total(inside, false)
  }

  /** A candle follows from the trades inside its bucket, or from the candle before it. */
  ghost predicate CandleOf(c: Candle, inside: seq<Trade>, previous: Candle) {
    if inside == [] then c == previous.(cost := 0.0, volume := 0.0) else Summarises(c, inside)
  }

  ghost predicate ChartOf(c: Chart, buckets: seq<Bucket>, trades: seq<Trade>) {
    && SameLengths(c, |buckets|)
    && forall i :: 0 <= i < |buckets| ==> ChartAt(c, buckets[i], trades, i)
  }

  ghost predicate ChartAt(c: Chart, bucket: Bucket, trades: seq<Trade>, i: nat)
    requires SameLengths(c, |c.ticks|) && i < |c.ticks|
  {
    && c.ticks[i] == bucket.end / MILLISECOND
    && CandleOf(CandleAt(c, i), Inside(trades, bucket.start, bucket.end),
                if i == 0 then BEFORE else CandleAt(c, i - 1))
  }

  /** A candle shows what the one before shows, the first one zeros. */
  ghost predicate CarriedOver(c: Chart, i: nat)
    requires SameLengths(c, |c.ticks|) && i < |c.ticks|
  {
    && (if i == 0 then c.open[i] == c.high[i] == c.low[i] == c.close[i] == 0.0
        else c.open[i] == c.open[i - 1] && c.high[i] == c.high[i - 1] && c.low[i] == c.low[i - 1] && c.close[i] == c.close[i - 1])
    && c.cost[i] == c.volume[i] == 0.0
  }

  /** The cost and volume of a bucket; an amount that does not parse is skipped. */
  method SumTrades(trades: seq<Trade>) returns (cost: real, volume: real)
    ensures cost == Total(trades, true) && volume == Total(trades, false)
  {
    cost, volume := 0.0, 0.0;
    for i := 0 to |trades|
      invariant cost == Total(trades[..i], true)
      invariant volume == Total(trades[..i], false)
    {
      assert trades[..i + 1][..i] == trades[..i];
      if trades[i].amount.Some? {
        cost := cost + trades[i].amount.value * trades[i].price;
        volume := volume + trades[i].amount.value;
      }
    }
    assert trades[..|trades|] == trades;
  }

  lemma EndsOfSorted(sorted: seq<Trade>, key: Trade -> real, trades: seq<Trade>)
    requires SortedBy(sorted, key) && multiset(sorted) == multiset(trades) && trades != []
    ensures sorted != []
    ensures sorted[0] in trades && sorted[|sorted| - 1] in trades
    ensures forall u :: u in trades ==> key(sorted[0]) <= key(u) <= key(sorted[|sorted| - 1])
  {
    assert |multiset(sorted)| == |multiset(trades)|;
    assert sorted[0] in multiset(trades) && sorted[|sorted| - 1] in multiset(trades);
    forall u | u in trades ensures key(sorted[0]) <= key(u) <= key(sorted[|sorted| - 1]) {
      assert u in multiset(sorted);
      var k :| 0 <= k < |sorted| && sorted[k] == u;
    }
  }

  /** One non-empty bucket. The sort by price is in place, so the sums run over the re-sorted
      trades; open and close were read before it. */
  method Summarise(trades: seq<Trade>) returns (c: Candle)
    requires trades != [] && SortedBy(trades, ByTime)
    ensures Summarises(c, trades)
  {
    var open, close := trades[0], trades[|trades| - 1];
    EndsOfSorted(trades, ByTime, trades);
    forall u | u in trades ensures open.createdAt <= u.createdAt <= close.createdAt {
      assert ByTime(open) <= ByTime(u) <= ByTime(close);
    }
    var sorted := SortSlice(trades, ByPrice);
    EndsOfSorted(sorted, ByPrice, trades);
    var low, high := sorted[0], sorted[|sorted| - 1];
    var cost, volume := SumTrades(sorted);
    TotalPermuted(sorted, trades, true);
    TotalPermuted(sorted, trades, false);
    c := Candle(open.price, high.price, low.price, close.price, cost, volume);
  }

  lemma SummarisesPermuted(c: Candle, a: seq<Trade>, b: seq<Trade>)
    requires multiset(a) == multiset(b) && Summarises(c, a)
    ensures Summarises(c, b)
  {
    assert forall t :: t in a <==> t in multiset(a);
    assert forall t :: t in b <==> t in multiset(b);
    TotalPermuted(a, b, true);
    TotalPermuted(a, b, false);
  }

  method BuildSeries(buckets: seq<Bucket>, ghost trades: seq<Trade>) returns (c: Chart)
    requires forall i :: 0 <= i < |buckets| ==> Assigned(buckets[i], trades)
    ensures ChartOf(c, buckets, trades)
    ensures forall i :: 0 <= i < |buckets| && buckets[i].trades == [] ==> CarriedOver(c, i)
  {
    c := Chart([], [], [], [], [], [], []);
    for i := 0 to |buckets|
      invariant ChartOf(c, buckets[..i], trades)
    {
      var bucket := buckets[i];
      ghost var inside := Inside(trades, bucket.start, bucket.end);
      assert Assigned(bucket, trades);
      var candle;
      if |bucket.trades| == 0 {
        assert |multiset(inside)| == 0;
        var open := if |c.open| > 0 then c.open[|c.open| - 1] else 0.0;
        var close := if |c.close| > 0 then c.close[|c.close| - 1] else 0.0;
        var low := if |c.low| > 0 then c.low[|c.low| - 1] else 0.0;
        var high := if |c.high| > 0 then c.high[|c.high| - 1] else 0.0;
        candle := Candle(open, high, low, close, 0.0, 0.0);
      } else {
        assert |multiset(inside)| > 0;
        candle := Summarise(bucket.trades);
        SummarisesPermuted(candle, bucket.trades, inside);
      }
      ghost var before := c;
      c := Chart(c.ticks + [bucket.end / MILLISECOND], c.open + [candle.open], c.high + [candle.high],
                 c.low + [candle.low], c.close + [candle.close], c.cost + [candle.cost], c.volume + [candle.volume]);
      ChartExtends(before, c, buckets, i, trades, candle);
    }
    assert buckets[..|buckets|] == buckets;
    forall i | 0 <= i < |buckets| && buckets[i].trades == [] ensures CarriedOver(c, i) {
      EmptyCarries(c, buckets, trades, i);
    }
  }

  lemma EmptyCarries(c: Chart, buckets: seq<Bucket>, trades: seq<Trade>, i: nat)
    requires ChartOf(c, buckets, trades) && i < |buckets|
    requires Assigned(buckets[i], trades) && buckets[i].trades == []
    ensures CarriedOver(c, i)
  {
    assert ChartAt(c, buckets[i], trades, i);
    assert |multiset(Inside(trades, buckets[i].start, buckets[i].end))| == 0;
  }

  lemma ChartExtends(c: Chart, c': Chart, buckets: seq<Bucket>, i: nat, trades: seq<Trade>, candle: Candle)
    requires i < |buckets| && ChartOf(c, buckets[..i], trades)
    requires c' == Chart(c.ticks + [buckets[i].end / MILLISECOND], c.open + [candle.open], c.high + [candle.high],
                         c.low + [candle.low], c.close + [candle.close], c.cost + [candle.cost],
                         c.volume + [candle.volume])
    requires CandleOf(candle, Inside(trades, buckets[i].start, buckets[i].end),
                      if i == 0 then BEFORE else CandleAt(c, i - 1))
    ensures ChartOf(c', buckets[..i + 1], trades)
  {
    assert SameLengths(c', i + 1);
    assert CandleAt(c', i) == candle;
    var prefix := buckets[..i + 1];
    forall j | 0 <= j < i + 1 ensures ChartAt(c', prefix[j], trades, j) {
      if j < i {
        assert ChartAt(c, buckets[..i][j], trades, j);
        assert CandleAt(c', j) == CandleAt(c, j);
      }
      if j > 0 {
        assert CandleAt(c', j - 1) == CandleAt(c, j - 1);
      }
    }
  }

  // ---------- the request ----------

  function Minutes(resolution: string): Option<int> {
    match resolution
    case "1" => Some(1)
    case "3" => Some(3)
    case "5" => Some(5)
    case "10" => Some(10)
    case "15" => Some(15)
    case "30" => Some(30)
    case "60" => Some(60)
    case "120" => Some(120)
    case "180" => Some(180)
    case "360" => Some(360)
    case "720" => Some(720)
    case "1D" => Some(1440)
    case _ => None
  }

  const RESOLUTIONS := {"1", "3", "5", "10", "15", "30", "60", "120", "180", "360", "720", "1D"}

  datatype Reply = InvalidParams | NoData | Ok(chart: Chart)

  /** Tick after tick one width apart, in milliseconds, from one width after the start: up to the
      first that is not before the end, or one more when that falls on the end. */
  ghost predicate TicksOf(ticks: seq<int>, startMs: int, endMs: int, step: int) {
    && ticks != [] && ticks[0] == startMs + step
    && (forall i :: 0 < i < |ticks| ==> ticks[i] == ticks[i - 1] + step)
    && (forall i :: 0 <= i < |ticks| - 1 ==> ticks[i] <= endMs)
    && ticks[|ticks| - 1] >= endMs
    && (|ticks| > 1 ==> ticks[|ticks| - 1] > endMs)
  }

  lemma TicksApart(c: Chart, buckets: seq<Bucket>, trades: seq<Trade>, startMs: int, endMs: int, minutes: nat)
    requires startMs < endMs && minutes > 0
    requires Mapped(buckets, startMs * MILLISECOND, minutes * MINUTE) && ChartOf(c, buckets, trades)
    requires |buckets| == BucketCount((endMs - startMs) * MILLISECOND, minutes * MINUTE)
    ensures TicksOf(c.ticks, startMs, endMs, minutes * 60_000)
  {
    var step, n := minutes * 60_000, |buckets|;
    LastBucket((endMs - startMs) * MILLISECOND, step * MILLISECOND);
    InMilliseconds(n, step, endMs - startMs);
    InMilliseconds(n - 1, step, endMs - startMs);
    assert |c.ticks| == n;
    forall i | 0 <= i < n ensures c.ticks[i] == startMs + (i + 1) * step {
      TickAt(c, buckets, trades, startMs, minutes, i);
    }
    hide *;
    hide Mapped, ChartOf, BucketCount;
    EvenTicks(c.ticks, startMs, endMs, step);
  }

  lemma InMilliseconds(k: nat, step: nat, span: nat)
    ensures k * (step * MILLISECOND) > span * MILLISECOND <==> k * step > span
    ensures k * (step * MILLISECOND) >= span * MILLISECOND <==> k * step >= span
  {
    assert k * (step * MILLISECOND) == k * step * MILLISECOND;
  }

  lemma EvenTicks(ticks: seq<int>, startMs: int, endMs: int, step: nat)
    requires |ticks| >= 1 && step > 0 && startMs < endMs
    requires forall i :: 0 <= i < |ticks| ==> ticks[i] == startMs + (i + 1) * step
    requires |ticks| * step >= endMs - startMs && (|ticks| - 1) * step <= endMs - startMs
    requires |ticks| > 1 ==> |ticks| * step > endMs - startMs
    ensures TicksOf(ticks, startMs, endMs, step)
  {
    var n := |ticks|;
    assert ticks[0] == startMs + 1 * step;
    forall i | 0 < i < n ensures ticks[i] == ticks[i - 1] + step {
      NextMultiple(i, i, step);
    }
    forall i | 0 <= i < n - 1 ensures ticks[i] <= endMs {
      NextMultiple(i, n - 1, step);
    }
  }

  lemma TickAt(c: Chart, buckets: seq<Bucket>, trades: seq<Trade>, startMs: int, minutes: nat, i: nat)
    requires Mapped(buckets, startMs * MILLISECOND, minutes * MINUTE) && ChartOf(c, buckets, trades) && i < |buckets|
    ensures c.ticks[i] == startMs + (i + 1) * (minutes * 60_000)
  {
    assert ChartAt(c, buckets[i], trades, i);
    TickIs(startMs, i + 1, minutes * 60_000, minutes * MINUTE);
  }

  lemma TickIs(startMs: int, k: nat, step: nat, width: int)
    requires width == step * MILLISECOND
    ensures (startMs * MILLISECOND + k * width) / MILLISECOND == startMs + k * step
  {
    assert k * width == k * step * MILLISECOND;
    assert startMs * MILLISECOND + k * width == (startMs + k * step) * MILLISECOND;
  }

  method GetTradingViewChartData(resolution: string, startMs: int, endMs: int, trades: seq<Trade>)
    returns (reply: Reply)
    ensures Minutes(resolution).Some? <==> resolution in RESOLUTIONS
    ensures reply == InvalidParams <==> resolution !in RESOLUTIONS || endMs <= startMs
    ensures reply == NoData <==> resolution in RESOLUTIONS && startMs < endMs && trades == []
    ensures reply.Ok? ==>
      var start, width := startMs * MILLISECOND, Minutes(resolution).value * MINUTE;
      exists buckets ::
        && |buckets| == BucketCount((endMs - startMs) * MILLISECOND, width)
        && Mapped(buckets, start, width)
        && ChartOf(reply.chart, buckets, trades)
    ensures reply.Ok? ==> TicksOf(reply.chart.ticks, startMs, endMs, Minutes(resolution).value * 60_000)
  {
    var minutes := Minutes(resolution);
    if minutes == None { return InvalidParams; }
    var start, end, width := startMs * MILLISECOND, endMs * MILLISECOND, minutes.value * MINUTE;
    if end <= start { return InvalidParams; }
    var empty := MapBuckets(start, end, width);
    if |trades| == 0 { return NoData; }
    var buckets := AssignTrades(empty, trades);
    var chart := BuildSeries(buckets, trades);
    assert Mapped(buckets, start, width);
    TicksApart(chart, buckets, trades, startMs, endMs, minutes.value);
    return Ok(chart);
  }
}
