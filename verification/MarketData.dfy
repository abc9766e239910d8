/** The FIX market-data rows: merging rows of the same instrument, price and side, and the
    rows built from an order book. */
module MarketData {
  type Price = int
  datatype Side = Buy | Sell

  /** `info` stands for the fields the merge does not look at; the first row's are kept. */
  datatype Row = Row(instrument: string, price: Price, side: Side, amount: real, info: string)

  predicate SameKey(a: Row, b: Row) {
    a.instrument == b.instrument && a.price == b.price && a.side == b.side
  }

  predicate Exists(data: seq<Row>, r: Row) {
    exists i :: 0 <= i < |data| && SameKey(data[i], r)
  }

  ghost predicate DistinctKeys(data: seq<Row>) {
    forall i, j :: 0 <= i < j < |data| ==> !SameKey(data[i], data[j])
  }

  /** The rows that are first with their key, in order. */
  function Firsts(res: seq<Row>): seq<Row> {
    if res == [] then []
    else
      var init, last := res[..|res| - 1], res[|res| - 1];
      if Exists(Firsts(init), last) then Firsts(init) else Firsts(init) + [last]
  }

  /** What all rows with the key of `r` add up to. */
  function KeyTotal(og: seq<Row>, r: Row): real {
    if og == [] then 0.0
    else KeyTotal(og[..|og| - 1], r) + (if SameKey(r, og[|og| - 1]) then og[|og| - 1].amount else 0.0)
  }

  function Summed(data: seq<Row>, og: seq<Row>): seq<Row> {
    if data == [] then []
    else Summed(data[..|data| - 1], og) + [data[|data| - 1].(amount := KeyTotal(og, data[|data| - 1]))]
  }

  /** The last of several rows opens a new key: then the merge returns before it sums. */
  predicate EndsFresh(res: seq<Row>) {
    |res| >= 2 && !Exists(Firsts(res[..|res| - 1]), res[|res| - 1])
  }

  function Merged(res: seq<Row>): seq<Row> {
    if EndsFresh(res) then Firsts(res) else Summed(Firsts(res), res)
  }

  method IsInstrumentExists(data: seq<Row>, r: Row) returns (exist: bool)
    ensures exist == Exists(data, r)
  {
    for i := 0 to |data|
      invariant forall j :: 0 <= j < i ==> !SameKey(data[j], r)
    {
      if SameKey(data[i], r) { return true; }
    }
    return false;
  }

  method SumAmount(data: seq<Row>, og: seq<Row>) returns (res: seq<Row>)
    ensures res == Summed(data, og)
  {
    res := [];
    for i := 0 to |data|
      invariant res == Summed(data[..i], og)
    {
      var r := data[i];
      var amount := 0.0;
      for j := 0 to |og|
        invariant amount == KeyTotal(og[..j], r)
      {
        if SameKey(r, og[j]) {
          amount := amount + og[j].amount;
        }
        assert og[..j + 1][..j] == og[..j];
      }
      assert og[..|og|] == og;
      res := res + [r.(amount := amount)];
      assert data[..i + 1][..i] == data[..i];
    }
    assert data[..|data|] == data;
  }

  method MapMarketDataResponse(res: seq<Row>) returns (out: seq<Row>)
    ensures out == Merged(res)
  {
    var result: seq<Row> := [];
    for i := 0 to |res|
      invariant result == Firsts(res[..i])
      invariant i == |res| ==> !EndsFresh(res)
    {
      var r := res[i];
      assert res[..i + 1][..i] == res[..i];
      assert i == |res| - 1 ==> res[..|res| - 1] == res[..i] && res[..i + 1] == res;
      if |result| == 0 {
        assert i == 0 by { if i > 0 { FirstsNonEmpty(res[..i]); } }
        result := result + [r];
      } else {
        assert i > 0;
        var exist := IsInstrumentExists(result, r);
        if !exist {
          result := result + [r];
          if i == |res| - 1 {
            return result;
          }
        }
      }
    }
    assert res[..|res|] == res;
    out := SumAmount(result, res);
  }

  lemma {:induction false} FirstsNonEmpty(res: seq<Row>)
    requires res != []
    ensures Firsts(res) != []
  {
  }

  // ---------- keys ----------

  lemma ExistsSnoc(data: seq<Row>, last: Row, r: Row)
    ensures Exists(data + [last], r) <==> Exists(data, r) || SameKey(last, r)
  {
    var more := data + [last];
    if Exists(data, r) {
      var i :| 0 <= i < |data| && SameKey(data[i], r);
      assert SameKey(more[i], r);
    }
    assert more[|data|] == last;
  }

  lemma DistinctSnoc(data: seq<Row>, last: Row)
    ensures DistinctKeys(data + [last]) <==> DistinctKeys(data) && !Exists(data, last)
  {
    var more := data + [last];
    if DistinctKeys(more) {
      forall i, j | 0 <= i < j < |data| ensures !SameKey(data[i], data[j]) {
        assert !SameKey(more[i], more[j]);
      }
      forall i | 0 <= i < |data| ensures !SameKey(data[i], last) {
        assert !SameKey(more[i], more[|data|]);
      }
    }
  }

  /** The kept rows have distinct keys, and the same keys as the input; each is an input row. */
  lemma {:induction false} FirstsKeys(res: seq<Row>)
    ensures DistinctKeys(Firsts(res))
    ensures forall r :: Exists(Firsts(res), r) <==> Exists(res, r)
    ensures forall i :: 0 <= i < |Firsts(res)| ==> Firsts(res)[i] in res
  {
    if res != [] {
      var init, last := res[..|res| - 1], res[|res| - 1];
      assert res == init + [last];
      FirstsKeys(init);
      DistinctSnoc(Firsts(init), last);
      forall r ensures Exists(Firsts(res), r) <==> Exists(res, r) {
        ExistsSnoc(init, last, r);
        ExistsSnoc(Firsts(init), last, r);
        if Exists(Firsts(init), last) && SameKey(last, r) {
          var i :| 0 <= i < |Firsts(init)| && SameKey(Firsts(init)[i], last);
          assert SameKey(Firsts(init)[i], r);
        }
      }
    }
  }

  lemma {:induction false} SummedRows(data: seq<Row>, og: seq<Row>)
    ensures |Summed(data, og)| == |data|
    ensures forall i :: 0 <= i < |data| ==> Summed(data, og)[i] == data[i].(amount := KeyTotal(og, data[i]))
  {
    if data != [] {
      SummedRows(data[..|data| - 1], og);
    }
  }

  lemma KeysTransfer(a: seq<Row>, b: seq<Row>)
    requires |a| == |b| && forall i :: 0 <= i < |a| ==> SameKey(a[i], b[i])
    ensures DistinctKeys(a) ==> DistinctKeys(b)
    ensures forall r :: Exists(a, r) <==> Exists(b, r)
  {
    forall r ensures Exists(a, r) <==> Exists(b, r) {
      if Exists(a, r) {
        var i :| 0 <= i < |a| && SameKey(a[i], r);
        assert SameKey(b[i], r);
      }
      if Exists(b, r) {
        var i :| 0 <= i < |b| && SameKey(b[i], r);
        assert SameKey(a[i], r);
      }
    }
    if DistinctKeys(a) {
      forall i, j | 0 <= i < j < |b| ensures !SameKey(b[i], b[j]) {
        assert !SameKey(a[i], a[j]);
      }
    }
  }

  /** The merged rows have distinct keys, the same keys as the input, in the order in which
      each key first occurs. */
  lemma MergedKeys(res: seq<Row>)
    ensures DistinctKeys(Merged(res))
    ensures forall r :: Exists(Merged(res), r) <==> Exists(res, r)
    ensures |Merged(res)| == |Firsts(res)|
    ensures forall i :: 0 <= i < |Merged(res)| ==> SameKey(Firsts(res)[i], Merged(res)[i])
  {
    FirstsKeys(res);
    SummedRows(Firsts(res), res);
    KeysTransfer(Firsts(res), Merged(res));
  }

  // ---------- amounts ----------

  function Total(rows: seq<Row>): real {
    if rows == [] then 0.0 else Total(rows[..|rows| - 1]) + rows[|rows| - 1].amount
  }

  lemma TotalSnoc(rows: seq<Row>, last: Row)
    ensures Total(rows + [last]) == Total(rows) + last.amount
  {
    assert (rows + [last])[..|rows|] == rows;
  }

  lemma SummedSnoc(data: seq<Row>, last: Row, og: seq<Row>)
    ensures Total(Summed(data + [last], og)) == Total(Summed(data, og)) + KeyTotal(og, last)
  {
    assert (data + [last])[..|data|] == data;
    TotalSnoc(Summed(data, og), last.(amount := KeyTotal(og, last)));
  }

  lemma {:induction false} SummedGrows(data: seq<Row>, og: seq<Row>, r: Row)
    requires DistinctKeys(data)
    ensures Total(Summed(data, og + [r])) == Total(Summed(data, og)) + if Exists(data, r) then r.amount else 0.0
  {
    if data != [] {
      var init, last := data[..|data| - 1], data[|data| - 1];
      assert data == init + [last];
      assert (og + [r])[..|og|] == og;
      DistinctSnoc(init, last);
      SummedGrows(init, og, r);
      SummedSnoc(init, last, og);
      SummedSnoc(init, last, og + [r]);
      ExistsSnoc(init, last, r);
      ExistsSame(init, last, r);
    }
  }

  lemma ExistsSame(data: seq<Row>, a: Row, b: Row)
    ensures SameKey(a, b) ==> (Exists(data, a) <==> Exists(data, b))
  {
  }

  lemma {:induction false} NewKeyTotal(og: seq<Row>, r: Row)
    requires !Exists(og, r)
    ensures KeyTotal(og, r) == 0.0
  {
    if og != [] {
      var init, last := og[..|og| - 1], og[|og| - 1];
      assert og == init + [last];
      ExistsSnoc(init, last, r);
      NewKeyTotal(init, r);
    }
  }

  lemma FirstsSnoc(init: seq<Row>, last: Row)
    ensures Firsts(init + [last]) == if Exists(init, last) then Firsts(init) else Firsts(init) + [last]
  {
    assert (init + [last])[..|init|] == init;
    FirstsKeys(init);
  }

  /** Summing per key keeps the grand total. */
  lemma {:induction false} SummedTotal(res: seq<Row>)
    ensures Total(Summed(Firsts(res), res)) == Total(res)
  {
    if res != [] {
      var init, last := res[..|res| - 1], res[|res| - 1];
      assert res == init + [last];
      SummedTotal(init);
      OneMoreTotal(init, last);
    }
  }

  lemma OneMoreTotal(init: seq<Row>, last: Row)
    ensures var res := init + [last];
      Total(Summed(Firsts(res), res)) == Total(Summed(Firsts(init), init)) + last.amount
  {
    var res := init + [last];
    OwnTotal(init, last);
    hide *;
    FirstsKeys(init);
    FirstsSnoc(init, last);
    SummedGrows(Firsts(init), init, last);
    if !Exists(init, last) {
      NewKeyTotal(init, last);
      SummedSnoc(Firsts(init), last, res);
    }
  }

  lemma OwnTotal(init: seq<Row>, last: Row)
    ensures KeyTotal(init + [last], last) == KeyTotal(init, last) + last.amount
  {
    assert (init + [last])[..|init|] == init;
  }

  lemma {:induction false} FirstsTotal(res: seq<Row>)
    requires forall r :: r in res ==> r.amount > 0.0
    ensures Total(Firsts(res)) <= Total(res)
    ensures Total(Firsts(res)) == Total(res) <==> DistinctKeys(res)
  {
    if res != [] {
      var init, last := res[..|res| - 1], res[|res| - 1];
      assert res == init + [last];
      assert last.amount > 0.0;
      FirstsTotal(init);
      FirstsSnoc(init, last);
      TotalSnoc(Firsts(init), last);
      DistinctSnoc(init, last);
    }
  }

  /** For rows of positive amounts, the merge conserves the grand total if and only if the
      last row repeats an earlier key, or no key repeats at all: a fresh last row makes it
      return before summing, and then the amounts of every repeated row are lost. */
  lemma MergedTotal(res: seq<Row>)
    requires forall r :: r in res ==> r.amount > 0.0
    ensures Total(Merged(res)) <= Total(res)
    ensures Total(Merged(res)) == Total(res) <==> !EndsFresh(res) || DistinctKeys(res)
  {
    SummedTotal(res);
    FirstsTotal(res);
  }

  /** Two rows of one key before a fresh row: one of the three is lost. */
  lemma FreshLastRow() returns (res: seq<Row>)
    ensures |res| == 3 && SameKey(res[0], res[1]) && !SameKey(res[0], res[2])
    ensures forall r :: r in res ==> r.amount > 0.0
    ensures Total(res) == 3.0 && Total(Merged(res)) == 2.0
  {
    var a := Row("BTC-30JUN23-20000-C", 100, Buy, 1.0, "");
    var b := Row("BTC-30JUN23-20000-C", 101, Buy, 1.0, "");
    res := [a, a, b];
    assert res[..2] == [a, a] && [a, a][..1] == [a] && [a][..0] == [];
    assert Firsts([a]) == [a] by { assert Firsts([]) == []; }
    assert Exists([a], a) by { assert SameKey([a][0], a); }
    assert Firsts([a, a]) == [a];
    assert Firsts(res) == [a, b] && EndsFresh(res);
    assert [a, b][..1] == [a];
    assert Total([]) == 0.0 && Total([a]) == 1.0 && Total([a, a]) == 2.0;
  }

  /** And when it sums, each merged amount is its key's total. */
  lemma MergedAmounts(res: seq<Row>, i: nat)
    requires i < |Merged(res)|
    ensures !EndsFresh(res) ==> Merged(res)[i].amount == KeyTotal(res, Merged(res)[i])
    ensures EndsFresh(res) ==> Merged(res)[i].amount == Firsts(res)[i].amount
  {
    SummedRows(Firsts(res), res);
    if !EndsFresh(res) {
      SameKeyTotal(res, Firsts(res)[i], Merged(res)[i]);
    }
  }

  lemma {:induction false} SameKeyTotal(og: seq<Row>, a: Row, b: Row)
    requires SameKey(a, b)
    ensures KeyTotal(og, a) == KeyTotal(og, b)
  {
    if og != [] {
      SameKeyTotal(og[..|og| - 1], a, b);
    }
  }

  // ---------- the merge, row by row ----------

  /** No row among the first `k` has the instrument, the price and the side of row `k`. */
  ghost predicate IsFirst(res: seq<Row>, k: nat)
    requires k < |res|
  {
    forall j :: 0 <= j < k ==>
      res[j].instrument != res[k].instrument || res[j].price != res[k].price || res[j].side != res[k].side
  }

  /** The amounts of all rows with the instrument, the price and the side. */
  function AmountOf(res: seq<Row>, instrument: string, price: Price, side: Side): real {
    if res == [] then 0.0
    else
      var last, before := res[|res| - 1], AmountOf(res[..|res| - 1], instrument, price, side);
      if last.instrument == instrument && last.price == price && last.side == side then before + last.amount else before
  }

  lemma {:induction false} KeyTotalIs(og: seq<Row>, r: Row)
    ensures KeyTotal(og, r) == AmountOf(og, r.instrument, r.price, r.side)
  {
    if og != [] {
      KeyTotalIs(og[..|og| - 1], r);
    }
  }

  lemma FirstIff(res: seq<Row>, k: nat)
    requires k < |res|
    ensures IsFirst(res, k) <==> !Exists(res[..k], res[k])
  {
    if !IsFirst(res, k) {
      var j :| 0 <= j < k
        && res[j].instrument == res[k].instrument && res[j].price == res[k].price && res[j].side == res[k].side;
      assert SameKey(res[..k][j], res[k]);
    }
    if Exists(res[..k], res[k]) {
      var j :| 0 <= j < k && SameKey(res[..k][j], res[k]);
      assert SameKey(res[j], res[k]);
    }
  }

  ghost predicate Positions(ks: seq<nat>, res: seq<Row>, rows: seq<Row>) {
    && |ks| == |rows|
    && (forall i, j :: 0 <= i < j < |ks| ==> ks[i] < ks[j])
    && (forall i :: 0 <= i < |ks| ==> ks[i] < |res| && rows[i] == res[ks[i]] && IsFirst(res, ks[i]))
    && forall k :: 0 <= k < |res| && IsFirst(res, k) ==> k in ks
  }

  lemma {:induction false} FirstPositions(res: seq<Row>) returns (ks: seq<nat>)
    ensures Positions(ks, res, Firsts(res))
  {
    if res == [] {
      ks := [];
    } else {
      var n := |res| - 1;
      var init, last := res[..n], res[n];
      assert res == init + [last];
      var before := FirstPositions(init);
      FirstsSnoc(init, last);
      FirstIff(res, n);
      ks := if Exists(init, last) then before else before + [n];
      PositionsGrow(before, init, last, Firsts(init), ks);
    }
  }

  lemma PositionsGrow(before: seq<nat>, init: seq<Row>, last: Row, rows: seq<Row>, ks: seq<nat>)
    requires Positions(before, init, rows)
    requires IsFirst(init + [last], |init|) <==> ks == before + [|init|]
    requires ks == before || ks == before + [|init|]
    ensures Positions(ks, init + [last], if ks == before then rows else rows + [last])
  {
    var res := init + [last];
    forall k | 0 <= k < |init| ensures res[k] == init[k] && (IsFirst(res, k) <==> IsFirst(init, k)) {
      FirstKept(init, last, k);
    }
    hide IsFirst;
    forall k | 0 <= k < |res| && IsFirst(res, k) ensures k in ks {
      if k < |init| {
        assert k in before;
      }
    }
  }

  lemma FirstKept(init: seq<Row>, last: Row, k: nat)
    requires k < |init|
    ensures (init + [last])[k] == init[k] && (IsFirst(init + [last], k) <==> IsFirst(init, k))
  {
    assert forall j :: 0 <= j < k ==> (init + [last])[j] == init[j];
  }

  /** The whole merge, on any input: one row for each row that is the first with its instrument,
      price and side, in the order of the input and with that row's other fields. Its amount is
      the sum over all rows with these three; but if the last of several rows is a first one, it
      is the first row's own amount. */
  lemma MergedRows(res: seq<Row>) returns (ks: seq<nat>)
    ensures |ks| == |Merged(res)|
    ensures forall i, j :: 0 <= i < j < |ks| ==> ks[i] < ks[j]
    ensures forall k: nat :: k in ks <==> k < |res| && IsFirst(res, k)
    ensures forall i :: 0 <= i < |ks| ==> ks[i] < |res| && Merged(res)[i] == MergedRow(res, res[ks[i]])
  {
    ks := FirstPositions(res);
    MergedKeys(res);
    forall i | 0 <= i < |ks| ensures Merged(res)[i] == MergedRow(res, res[ks[i]]) {
      MergedAt(res, i);
    }
    hide Merged, MergedRow, IsFirst, Firsts;
  }

  /** The row that stands for all rows with its instrument, price and side. */
  ghost function MergedRow(res: seq<Row>, first: Row): Row {
    first.(amount :=
      if |res| >= 2 && IsFirst(res, |res| - 1) then first.amount
      else AmountOf(res, first.instrument, first.price, first.side))
  }

  lemma MergedAt(res: seq<Row>, i: nat)
    requires i < |Firsts(res)|
    ensures |Merged(res)| == |Firsts(res)| && Merged(res)[i] == MergedRow(res, Firsts(res)[i])
  {
    hide Firsts, Summed, IsFirst, AmountOf, KeyTotal, Exists, EndsFresh;
    SummedRows(Firsts(res), res);
    KeyTotalIs(res, Firsts(res)[i]);
    FreshIff(res);
  }

  lemma FreshIff(res: seq<Row>)
    ensures EndsFresh(res) <==> |res| >= 2 && IsFirst(res, |res| - 1)
  {
    hide IsFirst, Exists, Firsts;
    if |res| >= 2 {
      FirstIff(res, |res| - 1);
      FirstsKeys(res[..|res| - 1]);
    }
  }

  // ---------- the rows of a book ----------

  datatype Level = Level(price: Price, amount: real)

  function SideRows(instrument: string, side: Side, levels: seq<Level>): seq<Row> {
    if levels == [] then []
    else
      var last := levels[|levels| - 1];
      SideRows(instrument, side, levels[..|levels| - 1])
      + [Row(instrument, last.price, side, last.amount, if side == Buy then "bid" else "ask")]
  }

  method BookRows(instrument: string, bids: seq<Level>, asks: seq<Level>) returns (rows: seq<Row>)
    ensures rows == SideRows(instrument, Buy, bids) + SideRows(instrument, Sell, asks)
  {
    rows := [];
    for i := 0 to |bids|
      invariant rows == SideRows(instrument, Buy, bids[..i])
    {
      rows := rows + [Row(instrument, bids[i].price, Buy, bids[i].amount, "bid")];
      assert bids[..i + 1][..i] == bids[..i];
    }
    assert bids[..|bids|] == bids;
    ghost var bidRows := rows;
    assert rows == bidRows + SideRows(instrument, Sell, asks[..0]);
    for i := 0 to |asks|
      invariant rows == bidRows + SideRows(instrument, Sell, asks[..i])
    {
      rows := rows + [Row(instrument, asks[i].price, Sell, asks[i].amount, "ask")];
      assert asks[..i + 1][..i] == asks[..i];
    }
    assert asks[..|asks|] == asks;
  }

  /** The rows of a side: one for each level, in order, with its price and amount. */
  lemma {:induction false} SideRowsAt(instrument: string, side: Side, levels: seq<Level>)
    ensures |SideRows(instrument, side, levels)| == |levels|
    ensures forall i :: 0 <= i < |levels| ==>
      var r := SideRows(instrument, side, levels)[i];
      r == Row(instrument, levels[i].price, side, levels[i].amount, if side == Buy then "bid" else "ask")
  {
    if levels != [] {
      SideRowsAt(instrument, side, levels[..|levels| - 1]);
    }
  }

  lemma {:induction false} FirstsSame(res: seq<Row>)
    requires DistinctKeys(res)
    ensures Firsts(res) == res
  {
    if res != [] {
      var init, last := res[..|res| - 1], res[|res| - 1];
      assert res == init + [last];
      DistinctSnoc(init, last);
      FirstsSame(init);
      FirstsSnoc(init, last);
    }
  }

  lemma DistinctUntouched(res: seq<Row>)
    requires DistinctKeys(res)
    ensures Merged(res) == res
  {
    FirstsSame(res);
    if |res| >= 2 {
      var init, last := res[..|res| - 1], res[|res| - 1];
      assert res == init + [last];
      DistinctSnoc(init, last);
      FirstsSame(init);
    } else if |res| == 1 {
      assert res[..0] == [];
      SummedRows(res, res);
      assert KeyTotal(res, res[0]) == KeyTotal(res[..0], res[0]) + res[0].amount;
    }
  }

  /** The rows built from a book with distinct prices per side go through the merge unchanged. */
  lemma BookUntouched(instrument: string, bids: seq<Level>, asks: seq<Level>)
    requires forall i, j :: 0 <= i < j < |bids| ==> bids[i].price != bids[j].price
    requires forall i, j :: 0 <= i < j < |asks| ==> asks[i].price != asks[j].price
    ensures var rows := SideRows(instrument, Buy, bids) + SideRows(instrument, Sell, asks);
      Merged(rows) == rows
  {
    SideRowsAt(instrument, Buy, bids);
    SideRowsAt(instrument, Sell, asks);
    DistinctUntouched(SideRows(instrument, Buy, bids) + SideRows(instrument, Sell, asks));
  }
}
