/** What the candle chart promises: every candle is coherent, its average price lies between
    its extremes, and volume and cost are conserved except on bucket boundaries. */
module CandleTheorems {
  import opened Candles
  import opened Options
  import Naming

  // ---------- coherence ----------

  /** Every candle of every chart, the carried-forward ones included, has its open and close
      between its low and its high. */
  lemma {:induction false} Coherent(c: Chart, buckets: seq<Bucket>, trades: seq<Trade>, i: nat)
    requires ChartOf(c, buckets, trades) && i < |buckets|
    ensures c.low[i] <= c.open[i] <= c.high[i]
    ensures c.low[i] <= c.close[i] <= c.high[i]
  {
    assert ChartAt(c, buckets[i], trades, i);
    if i > 0 {
      Coherent(c, buckets, trades, i - 1);
    }
    var candle, inside := CandleAt(c, i), Inside(trades, buckets[i].start, buckets[i].end);
    if inside != [] {
      assert Summarises(candle, inside);
    }
  }

  // ---------- each candle, from the trades themselves ----------

  predicate Within(t: Trade, b: Bucket) {
    b.start < t.createdAt < b.end
  }

  /** Some trade lies strictly inside the bucket. */
  ghost predicate Traded(b: Bucket, trades: seq<Trade>) {
    exists t :: t in trades && Within(t, b)
  }

  /** The amounts, or the amounts at their prices, of the trades strictly inside the bucket; one
      whose amount does not parse adds nothing. */
  function VolumeWithin(trades: seq<Trade>, b: Bucket): real {
    if trades == [] then 0.0
    else
      var t, before := trades[0], VolumeWithin(trades[1..], b);
      if b.start < t.createdAt < b.end && t.amount.Some? then before + t.amount.value else before
  }

  function CostWithin(trades: seq<Trade>, b: Bucket): real {
    if trades == [] then 0.0
    else
      var t, before := trades[0], CostWithin(trades[1..], b);
      if b.start < t.createdAt < b.end && t.amount.Some? then before + t.price * t.amount.value else before
  }

  lemma {:induction false} InsideConcat(a: seq<Trade>, b: seq<Trade>, start: int, end: int)
    ensures Inside(a + b, start, end) == Inside(a, start, end) + Inside(b, start, end)
    decreases |b|
  {
    if b == [] {
      assert a + b == a;
    } else {
      assert (a + b)[..|a + b| - 1] == a + b[..|b| - 1];
      InsideConcat(a, b[..|b| - 1], start, end);
    }
  }

  lemma OneInside(t: Trade, b: Bucket)
    ensures Inside([t], b.start, b.end) == if Within(t, b) then [t] else []
    ensures Total([t], false) == if t.amount.Some? then t.amount.value else 0.0
    ensures Total([t], true) == if t.amount.Some? then t.price * t.amount.value else 0.0
  {
    assert [t][..0] == [] && Inside([], b.start, b.end) == [];
    assert Total([t][..0], false) == 0.0 && Total([t][..0], true) == 0.0;
  }

  lemma {:induction false} TotalsWithin(trades: seq<Trade>, b: Bucket)
    ensures Total(Inside(trades, b.start, b.end), false) == VolumeWithin(trades, b)
    ensures Total(Inside(trades, b.start, b.end), true) == CostWithin(trades, b)
  {
    hide Total, Inside, Within;
    if trades == [] {
      NothingInside(b);
    } else {
      TotalsWithin(trades[1..], b);
      FirstInside(trades, b, false);
      FirstInside(trades, b, true);
      OneInside(trades[0], b);
      WithinIs(trades[0], b);
    }
  }

  lemma WithinIs(t: Trade, b: Bucket)
    ensures Within(t, b) <==> b.start < t.createdAt < b.end
  {
  }

  lemma NothingInside(b: Bucket)
    ensures Total(Inside([], b.start, b.end), false) == Total(Inside([], b.start, b.end), true) == 0.0
  {
  }

  lemma FirstInside(trades: seq<Trade>, b: Bucket, cost: bool)
    requires trades != []
    ensures Total(Inside(trades, b.start, b.end), cost) ==
      (if Within(trades[0], b) then Total([trades[0]], cost) else 0.0) + Total(Inside(trades[1..], b.start, b.end), cost)
  {
    var first, rest := [trades[0]], trades[1..];
    assert trades == first + rest;
    InsideConcat(first, rest, b.start, b.end);
    OneInside(trades[0], b);
    hide Total, Inside;
    TotalConcat(Inside(first, b.start, b.end), Inside(rest, b.start, b.end), cost);
    assert [] + Inside(rest, b.start, b.end) == Inside(rest, b.start, b.end);
  }

  /** The candle of a bucket with trades: it opens at the price of an earliest one, closes at that
      of a latest one, spans the prices between the least and the greatest, both of them traded. */
  ghost predicate Shows(c: Candle, trades: seq<Trade>, b: Bucket) {
    && (exists t :: t in trades && Within(t, b) && t.price == c.open
          && forall u :: u in trades && Within(u, b) ==> t.createdAt <= u.createdAt)
    && (exists t :: t in trades && Within(t, b) && t.price == c.close
          && forall u :: u in trades && Within(u, b) ==> u.createdAt <= t.createdAt)
    && (exists t :: t in trades && Within(t, b) && t.price == c.low)
    && (exists t :: t in trades && Within(t, b) && t.price == c.high)
    && (forall u :: u in trades && Within(u, b) ==> c.low <= u.price <= c.high)
  }

  /** Each candle of the chart's own series: what a bucket with trades strictly inside shows, and,
      for every bucket, its volume and cost. */
  lemma TradedCandle(c: Chart, buckets: seq<Bucket>, trades: seq<Trade>, i: nat)
    requires ChartOf(c, buckets, trades) && i < |buckets|
    ensures Traded(buckets[i], trades) ==> Shows(CandleAt(c, i), trades, buckets[i])
    ensures c.volume[i] == VolumeWithin(trades, buckets[i]) && c.cost[i] == CostWithin(trades, buckets[i])
  {
    var b, candle := buckets[i], CandleAt(c, i);
    assert ChartAt(c, b, trades, i);
    InsideMembers(trades, b.start, b.end);
    TotalsWithin(trades, b);
    var inside := Inside(trades, b.start, b.end);
    InsideNothing(trades, b);
    if inside != [] {
      ShowsInside(candle, trades, b, inside);
    }
  }

  lemma ShowsInside(c: Candle, trades: seq<Trade>, b: Bucket, inside: seq<Trade>)
    requires Summarises(c, inside) && forall t :: t in inside <==> t in trades && Within(t, b)
    ensures Shows(c, trades, b)
  {
    hide Within, Total;
  }

  ghost predicate SamePrices(a: Candle, b: Candle) {
    a.open == b.open && a.high == b.high && a.low == b.low && a.close == b.close
  }

  /** No trade lies strictly inside the buckets from `j` up to but not including `i`. */
  ghost predicate Idle(buckets: seq<Bucket>, trades: seq<Trade>, j: nat, i: nat)
    requires i <= |buckets|
  {
    forall k :: j <= k < i ==> !Traded(buckets[k], trades)
  }

  lemma {:induction false} Carried(c: Chart, buckets: seq<Bucket>, trades: seq<Trade>, j: nat, i: nat)
    requires ChartOf(c, buckets, trades) && j <= i < |buckets| && Idle(buckets, trades, j + 1, i + 1)
    ensures SamePrices(CandleAt(c, i), CandleAt(c, j))
    decreases i
  {
    hide Traded, ChartOf;
    CandlesThere(c, buckets, trades);
    if j < i {
      IdleBucket(c, buckets, trades, i);
      Carried(c, buckets, trades, j, i - 1);
    }
  }

  lemma IdleBucket(c: Chart, buckets: seq<Bucket>, trades: seq<Trade>, i: nat)
    requires ChartOf(c, buckets, trades) && i < |buckets| && !Traded(buckets[i], trades)
    ensures SamePrices(CandleAt(c, i), if i == 0 then BEFORE else CandleAt(c, i - 1))
  {
    assert ChartAt(c, buckets[i], trades, i);
    InsideNothing(trades, buckets[i]);
  }

  lemma InsideNothing(trades: seq<Trade>, b: Bucket)
    ensures Inside(trades, b.start, b.end) == [] <==> !Traded(b, trades)
  {
    InsideMembers(trades, b.start, b.end);
    var inside := Inside(trades, b.start, b.end);
    if inside != [] {
      assert inside[0] in inside;
      assert Traded(b, trades);
    }
  }

  /** A bucket without a trade strictly inside has the open, high, low and close of the nearest
      earlier bucket with one, and zeros if there is none. */
  lemma CarriesForward(c: Chart, buckets: seq<Bucket>, trades: seq<Trade>, i: nat)
    requires ChartOf(c, buckets, trades) && i < |buckets| && !Traded(buckets[i], trades)
    ensures forall j :: 0 <= j < i && Traded(buckets[j], trades) && Idle(buckets, trades, j + 1, i) ==>
      SamePrices(CandleAt(c, i), CandleAt(c, j))
    ensures Idle(buckets, trades, 0, i) ==> SamePrices(CandleAt(c, i), Candle(0.0, 0.0, 0.0, 0.0, 0.0, 0.0))
  {
    hide ChartOf, SamePrices, CandleAt;
    CandlesThere(c, buckets, trades);
    forall j | 0 <= j < i && Traded(buckets[j], trades) && Idle(buckets, trades, j + 1, i)
      ensures SamePrices(CandleAt(c, i), CandleAt(c, j))
    {
      IdleOneMore(buckets, trades, j + 1, i);
      Carried(c, buckets, trades, j, i);
    }
    if Idle(buckets, trades, 0, i) {
      IdleOneMore(buckets, trades, 0, i);
      NothingYet(c, buckets, trades, i);
    }
  }

  lemma CandlesThere(c: Chart, buckets: seq<Bucket>, trades: seq<Trade>)
    requires ChartOf(c, buckets, trades)
    ensures SameLengths(c, |buckets|)
  {
  }

  lemma IdleOneMore(buckets: seq<Bucket>, trades: seq<Trade>, j: nat, i: nat)
    requires j <= i < |buckets| && Idle(buckets, trades, j, i) && !Traded(buckets[i], trades)
    ensures Idle(buckets, trades, j, i + 1)
  {
    hide Traded;
  }

  lemma NothingYet(c: Chart, buckets: seq<Bucket>, trades: seq<Trade>, i: nat)
    requires ChartOf(c, buckets, trades) && i < |buckets| && Idle(buckets, trades, 0, i + 1)
    ensures SamePrices(CandleAt(c, i), BEFORE)
  {
    hide Traded, ChartOf, CandleAt;
    CandlesThere(c, buckets, trades);
    Carried(c, buckets, trades, 0, i);
    IdleBucket(c, buckets, trades, 0);
  }

  // ---------- resolutions ----------

  /** Exactly twelve texts are resolutions: each is the printed number of its minutes, except that
      "1D" is a day. */
  lemma Resolutions(resolution: string)
    ensures Minutes(resolution).Some? <==>
      resolution in {"1", "3", "5", "10", "15", "30", "60", "120", "180", "360", "720", "1D"}
    ensures |RESOLUTIONS| == 12
    ensures Minutes(resolution).Some? && resolution != "1D" ==> resolution == Naming.Decimal(Minutes(resolution).value)
    ensures Minutes("1D") == Some(24 * 60)
  {
    if Minutes(resolution).Some? && resolution != "1D" {
      Printed(Minutes(resolution).value);
    }
  }

  lemma Printed(n: nat)
    requires n < 1000
    ensures Naming.Decimal(n) == (if n >= 100 then [Naming.DigitChar(n / 100)] else [])
      + (if n >= 10 then [Naming.DigitChar(n / 10 % 10)] else []) + [Naming.DigitChar(n % 10)]
  {
  }

  // ---------- the average price ----------

  ghost predicate NonNegative(ts: seq<Trade>) {
    forall t :: t in ts && t.amount.Some? ==> t.amount.value >= 0.0
  }

  /** The cost of a volume traded at prices from `low` to `high`. */
  predicate Priced(low: real, high: real, volume: real, cost: real) {
    volume >= 0.0 && low * volume <= cost <= high * volume
  }

  lemma Times(a: real, x: real, y: real)
    requires a >= 0.0 && x <= y
    ensures a * x <= a * y
  {
  }

  lemma OneTrade(t: Trade, low: real, high: real)
    requires t.amount.Some? ==> t.amount.value >= 0.0
    requires low <= t.price <= high
    ensures Priced(low, high, Value(t, false), Value(t, true))
  {
    if t.amount.Some? {
      Times(t.amount.value, low, t.price);
      Times(t.amount.value, t.price, high);
    } else {
      NothingTraded(low, high);
    }
  }

  lemma PricedTogether(low: real, high: real, volume: real, cost: real, v: real, c: real, volume': real, cost': real)
    requires Priced(low, high, volume, cost) && Priced(low, high, v, c)
    requires volume' == volume + v && cost' == cost + c
    ensures Priced(low, high, volume', cost')
  {
  }

  lemma NothingTraded(low: real, high: real)
    ensures Priced(low, high, 0.0, 0.0)
  {
  }

  lemma {:induction false} AverageBetween(ts: seq<Trade>, low: real, high: real)
    requires NonNegative(ts) && forall t :: t in ts ==> low <= t.price <= high
    ensures Priced(low, high, Total(ts, false), Total(ts, true))
  {
    hide Priced, Value;
    if ts == [] {
      NothingTraded(low, high);
    } else {
      var init, last := ts[..|ts| - 1], ts[|ts| - 1];
      assert last in ts && forall t :: t in init ==> t in ts;
      AverageBetween(init, low, high);
      OneTrade(last, low, high);
      PricedTogether(low, high, Total(init, false), Total(init, true), Value(last, false), Value(last, true),
                     Total(ts, false), Total(ts, true));
    }
  }

  lemma {:induction false} InsideMembers(trades: seq<Trade>, start: int, end: int)
    ensures forall t :: t in Inside(trades, start, end) <==> t in trades && start < t.createdAt < end
  {
    if trades != [] {
      InsideMembers(trades[..|trades| - 1], start, end);
      assert trades == trades[..|trades| - 1] + [trades[|trades| - 1]];
    }
  }

  /** With non-negative amounts the cost lies between low and high times the volume. */
  lemma VolumeWeighted(c: Chart, buckets: seq<Bucket>, trades: seq<Trade>, i: nat)
    requires ChartOf(c, buckets, trades) && i < |buckets| && NonNegative(trades)
    ensures Priced(c.low[i], c.high[i], c.volume[i], c.cost[i])
  {
    assert ChartAt(c, buckets[i], trades, i);
    InsideMembers(trades, buckets[i].start, buckets[i].end);
    CandleAverage(CandleAt(c, i), Inside(trades, buckets[i].start, buckets[i].end),
                  if i == 0 then BEFORE else CandleAt(c, i - 1));
  }

  lemma CandleAverage(c: Candle, inside: seq<Trade>, previous: Candle)
    requires CandleOf(c, inside, previous) && NonNegative(inside)
    ensures Priced(c.low, c.high, c.volume, c.cost)
  {
    hide Priced;
    if inside == [] {
      NothingTraded(c.low, c.high);
    } else {
      AverageBetween(inside, c.low, c.high);
    }
  }

  // ---------- conservation ----------

  function Sum(xs: seq<real>): real {
    if xs == [] then 0.0 else Sum(xs[..|xs| - 1]) + xs[|xs| - 1]
  }

  /** Strictly within the first `n` buckets and on no boundary between them. */
  predicate Counts(t: Trade, start: int, width: int, n: int)
    requires width > 0
  {
    start < t.createdAt < start + n * width && (t.createdAt - start) % width != 0
  }

  function Counted(trades: seq<Trade>, start: int, width: int, n: int): seq<Trade>
    requires width > 0
  {
    if trades == [] then []
    else
      var init, last := trades[..|trades| - 1], trades[|trades| - 1];
      if Counts(last, start, width, n) then Counted(init, start, width, n) + [last] else Counted(init, start, width, n)
  }

  /** The trades made exactly at a bucket boundary. */
  function OnBoundary(trades: seq<Trade>, start: int, width: int): seq<Trade>
    requires width > 0
  {
    if trades == [] then []
    else
      var init, last := trades[..|trades| - 1], trades[|trades| - 1];
      if (last.createdAt - start) % width == 0 then OnBoundary(init, start, width) + [last]
      else OnBoundary(init, start, width)
  }

  lemma CountsOneMore(t: Trade, start: int, width: int, n: nat)
    requires width > 0
    ensures Counts(t, start, width, n + 1) <==>
      Counts(t, start, width, n) || start + n * width < t.createdAt < start + (n + 1) * width
    ensures !(Counts(t, start, width, n) && start + n * width < t.createdAt < start + (n + 1) * width)
  {
    var d := t.createdAt - start;
    var q, r := d / width, d % width;
    assert d == q * width + r && 0 <= r < width;
    NextMultiple(n, n, width);
    NextMultiple(q, n, width);
    NextMultiple(n, q, width);
    NextMultiple(q, 0, width);
  }

  lemma TotalSnoc(ts: seq<Trade>, t: Trade, cost: bool)
    ensures Total(ts + [t], cost) == Total(ts, cost) + Value(t, cost)
  {
    assert (ts + [t])[..|ts|] == ts;
  }

  lemma {:induction false} CountedOneMore(trades: seq<Trade>, start: int, width: int, n: nat, cost: bool)
    requires width > 0
    ensures Total(Counted(trades, start, width, n + 1), cost) ==
      Total(Counted(trades, start, width, n), cost)
      + Total(Inside(trades, start + n * width, start + (n + 1) * width), cost)
  {
    if trades != [] {
      var init, last := trades[..|trades| - 1], trades[|trades| - 1];
      CountedOneMore(init, start, width, n, cost);
      CountsOneMore(last, start, width, n);
      TotalSnoc(Counted(init, start, width, n + 1), last, cost);
      TotalSnoc(Counted(init, start, width, n), last, cost);
      TotalSnoc(Inside(init, start + n * width, start + (n + 1) * width), last, cost);
    }
  }

  function Series(c: Chart, cost: bool): seq<real> {
    if cost then c.cost else c.volume
  }

  lemma {:induction false} SeriesSum(c: Chart, buckets: seq<Bucket>, trades: seq<Trade>, start: int, width: int, n: nat, cost: bool)
    requires width > 0 && Mapped(buckets, start, width) && ChartOf(c, buckets, trades) && n <= |buckets|
    ensures Sum(Series(c, cost)[..n]) == Total(Counted(trades, start, width, n), cost)
    decreases n
  {
    if n == 0 {
      CountedNone(trades, start, width);
    } else {
      var k := n - 1;
      SeriesSum(c, buckets, trades, start, width, k, cost);
      CountedOneMore(trades, start, width, k, cost);
      SeriesAt(c, buckets, trades, start, width, k, cost);
      SumSnoc(Series(c, cost), k);
    }
  }

  lemma SumSnoc(xs: seq<real>, k: nat)
    requires k < |xs|
    ensures Sum(xs[..k + 1]) == Sum(xs[..k]) + xs[k]
  {
    assert xs[..k + 1][..k] == xs[..k];
  }

  lemma SeriesAt(c: Chart, buckets: seq<Bucket>, trades: seq<Trade>, start: int, width: int, k: nat, cost: bool)
    requires width > 0 && Mapped(buckets, start, width) && ChartOf(c, buckets, trades) && k < |buckets|
    ensures k < |Series(c, cost)|
    ensures Series(c, cost)[k] == Total(Inside(trades, start + k * width, start + (k + 1) * width), cost)
  {
    assert ChartAt(c, buckets[k], trades, k);
  }

  lemma {:induction false} CountedNone(trades: seq<Trade>, start: int, width: int)
    requires width > 0
    ensures Counted(trades, start, width, 0) == []
  {
    if trades != [] {
      CountedNone(trades[..|trades| - 1], start, width);
    }
  }

  /** Over the whole chart, volume and cost add up to those of the trades strictly within the
      buckets that fall on no boundary, each counted once; whatever the trades. */
  lemma Conserved(c: Chart, buckets: seq<Bucket>, trades: seq<Trade>, start: int, width: int)
    requires width > 0 && Mapped(buckets, start, width) && ChartOf(c, buckets, trades)
    ensures Sum(c.volume) == Total(Counted(trades, start, width, |buckets|), false)
    ensures Sum(c.cost) == Total(Counted(trades, start, width, |buckets|), true)
  {
    SeriesSum(c, buckets, trades, start, width, |buckets|, false);
    SeriesSum(c, buckets, trades, start, width, |buckets|, true);
    assert c.volume[..|buckets|] == c.volume && c.cost[..|buckets|] == c.cost;
  }

  lemma {:induction false} CountedAndBoundary(trades: seq<Trade>, start: int, width: int, n: int, cost: bool)
    requires width > 0 && forall t :: t in trades ==> start < t.createdAt < start + n * width
    ensures Total(Counted(trades, start, width, n), cost) + Total(OnBoundary(trades, start, width), cost)
      == Total(trades, cost)
  {
    if trades != [] {
      var init, last := trades[..|trades| - 1], trades[|trades| - 1];
      assert last in trades && forall t :: t in init ==> t in trades;
      CountedAndBoundary(init, start, width, n, cost);
      TotalSnoc(Counted(init, start, width, n), last, cost);
      TotalSnoc(OnBoundary(init, start, width), last, cost);
    }
  }

  /** For the trades the query returns, strictly between start and end, the chart loses exactly
      what was traded at bucket boundaries. */
  lemma LosesBoundaries(c: Chart, buckets: seq<Bucket>, trades: seq<Trade>, start: int, end: int, width: int)
    requires start < end && width > 0
    requires Mapped(buckets, start, width) && |buckets| == BucketCount(end - start, width)
    requires ChartOf(c, buckets, trades)
    requires forall t :: t in trades ==> start < t.createdAt < end
    ensures Sum(c.volume) + Total(OnBoundary(trades, start, width), false) == Total(trades, false)
    ensures Sum(c.cost) + Total(OnBoundary(trades, start, width), true) == Total(trades, true)
  {
    Conserved(c, buckets, trades, start, width);
    LastBucket(end - start, width);
    CountedAndBoundary(trades, start, width, |buckets|, false);
    CountedAndBoundary(trades, start, width, |buckets|, true);
  }

  /** A trade made on the boundary of two buckets: the chart the code returns for it shows no
      volume at all. */
  lemma BoundaryTrade(start: int, width: int) returns (c: Chart, buckets: seq<Bucket>, trades: seq<Trade>)
    requires width > 0
    ensures Mapped(buckets, start, width) && |buckets| == BucketCount(2 * width, width) && ChartOf(c, buckets, trades)
    ensures |trades| == 1 && start < trades[0].createdAt < start + 2 * width && trades[0].amount == Some(1.0)
    ensures Total(trades, false) == 1.0 && Sum(c.volume) == 0.0
  {
    trades := [Trade(start + width, 10.0, Some(1.0))];
    NextMultiple(1, 2, width);
    assert 2 * width / width == 2;
    buckets := seq(3, i requires 0 <= i < 3 => Bucket(start + i * width, start + (i + 1) * width, []));
    var zeros := seq(3, i requires 0 <= i < 3 => 0.0);
    c := Chart(seq(3, i requires 0 <= i < 3 => buckets[i].end / MILLISECOND), zeros, zeros, zeros, zeros, zeros, zeros);
    forall i | 0 <= i < 3 ensures Inside(trades, buckets[i].start, buckets[i].end) == [] && ChartAt(c, buckets[i], trades, i) {
      assert trades[..0] == [] && Inside([], buckets[i].start, buckets[i].end) == [];
    }
    assert trades[..0] == [] && Total([], false) == 0.0;
    assert zeros[..2][..1] == zeros[..1] && zeros[..1][..0] == [];
    assert Sum(zeros[..1]) == 0.0 && Sum(zeros[..2]) == 0.0;
  }
}
