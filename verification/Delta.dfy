/** The incremental form of one side of an order book: the rows a handler emits, what a
    client makes of them, the loop that diffs a fresh snapshot against a stored view, and
    the exact account of how a client that applies the rows can differ from that view. */
module Delta {
  import opened Options

  // A price in ticks of 10^-6: the stored views are keyed by the price printed with "%f".
  type Price = int
  type Amount = real
  type View = map<Price, Amount>

  datatype Level = Level(price: Price, amount: Amount)
  datatype Action = New | Change | Delete
  datatype Row = Row(action: Action, price: Price, amount: Amount)

  function Get(m: View, p: Price): Option<Amount> {
    if p in m then Some(m[p]) else None
  }

  lemma ViewsEqual(a: View, b: View)
    requires forall p :: Get(a, p) == Get(b, p)
    ensures a == b
  {
    forall p ensures p in a <==> p in b {
      assert Get(a, p) == Get(b, p);
    }
    forall p | p in a ensures a[p] == b[p] {
      assert Get(a, p) == Get(b, p);
    }
  }

  // ---------- the client ----------

  function ApplyRow(client: View, row: Row): View {
    if row.action == Delete then client - {row.price} else client[row.price := row.amount]
  }

  /** What a client that started with `client` holds after the rows of a message, in order. */
  function Apply(client: View, rows: seq<Row>): View {
    if rows == [] then client
    else ApplyRow(Apply(client, rows[..|rows| - 1]), rows[|rows| - 1])
  }

  lemma {:induction false} ApplyConcat(client: View, first: seq<Row>, second: seq<Row>)
    ensures Apply(client, first + second) == Apply(Apply(client, first), second)
    decreases |second|
  {
    if second == [] {
      assert first + second == first;
    } else {
      var rows := first + second;
      assert rows[..|rows| - 1] == first + second[..|second| - 1];
      ApplyConcat(client, first, second[..|second| - 1]);
    }
  }

  // ---------- the diff loop ----------

  ghost predicate Distinct(levels: seq<Level>) {
    forall i, j :: 0 <= i < j < |levels| ==> levels[i].price != levels[j].price
  }

  /** The amount the snapshot quotes at a price, if it lists the price at all. */
  function Quote(levels: seq<Level>, p: Price): Option<Amount> {
    if levels == [] then None
    else if levels[|levels| - 1].price == p then Some(levels[|levels| - 1].amount)
    else Quote(levels[..|levels| - 1], p)
  }

  /** The row the loop body appends for one level, if any. */
  function RowFor(stored: View, level: Level): seq<Row> {
    if level.price in stored then
      if stored[level.price] == level.amount then []
      else if level.amount == 0.0 then [Row(Delete, level.price, level.amount)]
      else [Row(Change, level.price, level.amount)]
    else if level.amount == 0.0 then []
    else [Row(New, level.price, level.amount)]
  }

  predicate Kept(stored: View, level: Level) {
    level.amount != 0.0 || Get(stored, level.price) == Some(level.amount)
  }

  function DiffRows(stored: View, levels: seq<Level>): seq<Row> {
    if levels == [] then []
    else DiffRows(stored, levels[..|levels| - 1]) + RowFor(stored, levels[|levels| - 1])
  }

  function DiffView(stored: View, levels: seq<Level>): View {
    if levels == [] then map[]
    else
      var level := levels[|levels| - 1];
      var next := DiffView(stored, levels[..|levels| - 1]);
      if Kept(stored, level) then next[level.price := level.amount] else next
  }

  function Prices(rows: seq<Row>): set<Price> {
    set row | row in rows :: row.price
  }

  lemma DiffNext(stored: View, levels: seq<Level>, i: nat)
    requires i < |levels|
    ensures DiffRows(stored, levels[..i + 1]) == DiffRows(stored, levels[..i]) + RowFor(stored, levels[i])
    ensures DiffView(stored, levels[..i + 1]) ==
      if Kept(stored, levels[i]) then DiffView(stored, levels[..i])[levels[i].price := levels[i].amount]
      else DiffView(stored, levels[..i])
    ensures Prices(DiffRows(stored, levels[..i + 1])) ==
      Prices(DiffRows(stored, levels[..i])) + if RowFor(stored, levels[i]) == [] then {} else {levels[i].price}
  {
    assert levels[..i + 1][..i] == levels[..i];
    PricesConcat(DiffRows(stored, levels[..i]), RowFor(stored, levels[i]));
    RowForEffect(stored, levels[i], map[], levels[i].price);
    assert forall p :: p in Prices(RowFor(stored, levels[i])) ==> p == levels[i].price;
  }

  /** One side of a handler's diff: rows to publish, the view to store, and the prices that
      got a row. */
  method DiffSide(stored: View, levels: seq<Level>)
    returns (rows: seq<Row>, next: View, touched: set<Price>)
    ensures rows == DiffRows(stored, levels)
    ensures next == DiffView(stored, levels)
    ensures touched == Prices(rows)
    ensures forall row :: row in rows ==> Tells(row, stored) && Level(row.price, row.amount) in levels
  {
    rows, next, touched := [], map[], {};
    for i := 0 to |levels|
      invariant rows == DiffRows(stored, levels[..i])
      invariant next == DiffView(stored, levels[..i])
      invariant touched == Prices(DiffRows(stored, levels[..i]))
    {
      var level := levels[i];
      DiffNext(stored, levels, i);
      if level.price in stored {
        if stored[level.price] != level.amount {
          if level.amount == 0.0 {
            rows := rows + [Row(Delete, level.price, level.amount)];
          } else {
            next := next[level.price := level.amount];
            rows := rows + [Row(Change, level.price, level.amount)];
          }
          touched := touched + {level.price};
        } else {
          next := next[level.price := level.amount];
        }
      } else if level.amount != 0.0 {
        rows := rows + [Row(New, level.price, level.amount)];
        touched := touched + {level.price};
        next := next[level.price := level.amount];
      }
    }
    assert levels[..|levels|] == levels;
    forall row | row in rows ensures Tells(row, stored) && Level(row.price, row.amount) in levels {
      DiffActions(stored, levels, row);
    }
  }

  lemma PricesConcat(a: seq<Row>, b: seq<Row>)
    ensures Prices(a + b) == Prices(a) + Prices(b)
  {
    forall p | p in Prices(a) + Prices(b) ensures p in Prices(a + b) {
      var row :| (row in a || row in b) && row.price == p;
      assert row in a + b;
    }
  }

  // ---------- what the diff does, price by price ----------

  /** The loop writes a price: the client is told its new amount. */
  predicate Written(stored: View, levels: seq<Level>, p: Price) {
    var q := Quote(levels, p);
    q.Some? && q.value != 0.0 && Get(stored, p) != q
  }

  /** The loop erases a price: it is still quoted, but with nothing left. */
  predicate Erased(stored: View, levels: seq<Level>, p: Price) {
    var q := Quote(levels, p);
    q == Some(0.0) && p in stored && stored[p] != 0.0
  }

  lemma {:induction false} QuoteSome(levels: seq<Level>, p: Price)
    ensures Quote(levels, p).Some? <==> exists i :: 0 <= i < |levels| && levels[i].price == p
    ensures Distinct(levels) ==>
      forall i :: 0 <= i < |levels| && levels[i].price == p ==> Quote(levels, p) == Some(levels[i].amount)
  {
    if levels != [] {
      var init := levels[..|levels| - 1];
      QuoteSome(init, p);
      assert forall i :: 0 <= i < |init| ==> init[i] == levels[i];
      if levels[|levels| - 1].price != p && Quote(init, p).Some? {
        var i :| 0 <= i < |init| && init[i].price == p;
        assert levels[i].price == p;
      }
    }
  }

  lemma RowForEffect(stored: View, level: Level, client: View, p: Price)
    ensures Get(Apply(client, RowFor(stored, level)), p) ==
      if p == level.price && RowFor(stored, level) != [] then
        if level.amount == 0.0 then None else Some(level.amount)
      else Get(client, p)
    ensures p in Prices(RowFor(stored, level)) <==> p == level.price && RowFor(stored, level) != []
  {
    var rows := RowFor(stored, level);
    if rows != [] {
      assert rows[..0] == [];
      assert Apply(client, rows) == ApplyRow(client, rows[0]);
      assert rows[0] in rows;
    }
  }

  /** Price by price, for any stored view and any client: written prices get the quoted
      amount, erased ones disappear, and every other price is left as the client had it. */
  lemma {:induction false} DiffAt(stored: View, levels: seq<Level>, client: View, p: Price)
    requires Distinct(levels)
    ensures Get(Apply(client, DiffRows(stored, levels)), p) ==
      if Written(stored, levels, p) then Quote(levels, p)
      else if Erased(stored, levels, p) then None
      else Get(client, p)
    ensures p in Prices(DiffRows(stored, levels)) <==> Written(stored, levels, p) || Erased(stored, levels, p)
  {
    if levels != [] {
      var init, level := levels[..|levels| - 1], levels[|levels| - 1];
      DiffAt(stored, init, client, p);
      var mid := Apply(client, DiffRows(stored, init));
      ApplyConcat(client, DiffRows(stored, init), RowFor(stored, level));
      PricesConcat(DiffRows(stored, init), RowFor(stored, level));
      RowForEffect(stored, level, mid, p);
      QuoteSome(init, p);
      assert level.price == p ==> Quote(init, p) == None;
    }
  }

  /** The new view: the quoted amount wherever it is non-zero or was already stored. */
  lemma {:induction false} DiffViewAt(stored: View, levels: seq<Level>, p: Price)
    requires Distinct(levels)
    ensures Get(DiffView(stored, levels), p) ==
      (match Quote(levels, p)
       case Some(a) => if a != 0.0 || Get(stored, p) == Some(a) then Some(a) else None
       case None => None)
  {
    if levels != [] {
      var init, level := levels[..|levels| - 1], levels[|levels| - 1];
      DiffViewAt(stored, init, p);
      QuoteSome(init, p);
      assert level.price == p ==> Quote(init, p) == None;
    }
  }

  /** A row names the right action for someone who holds `client`: `New` exactly for a price that
      is not there, `Change` exactly for one there with another amount unless nothing is left, and
      `Delete` exactly when nothing is left. */
  ghost predicate Tells(row: Row, client: View) {
    && (row.action == New <==> row.price !in client)
    && (row.action == Change <==> row.price in client && client[row.price] != row.amount && row.amount != 0.0)
    && (row.action == Delete <==> row.amount == 0.0)
  }

  /** Every row of the loop names the right action for the stored view, with a quoted amount. */
  lemma {:induction false} DiffActions(stored: View, levels: seq<Level>, row: Row)
    requires row in DiffRows(stored, levels)
    ensures Tells(row, stored) && Level(row.price, row.amount) in levels
  {
    hide Tells, RowFor;
    if levels != [] {
      var init, level := levels[..|levels| - 1], levels[|levels| - 1];
      assert levels == init + [level];
      if row in DiffRows(stored, init) {
        DiffActions(stored, init, row);
      } else {
        assert row in RowFor(stored, level);
        RowForActions(stored, level, row);
      }
    }
  }

  lemma RowForActions(stored: View, level: Level, row: Row)
    requires row in RowFor(stored, level)
    ensures Tells(row, stored) && level == Level(row.price, row.amount)
  {
  }

  /** Rows come in the order of the levels they are for. */
  lemma {:induction false} RowsInOrder(stored: View, levels: seq<Level>, i: nat, j: nat, a: nat, b: nat)
    requires Distinct(levels) && i < j < |DiffRows(stored, levels)| && a < |levels| && b < |levels|
    requires DiffRows(stored, levels)[i].price == levels[a].price && DiffRows(stored, levels)[j].price == levels[b].price
    ensures a < b
  {
    var n := |levels| - 1;
    var init := levels[..n];
    var rows, more := DiffRows(stored, init), RowFor(stored, levels[n]);
    if j < |rows| {
      FromLevel(stored, init, j, b, levels);
      FromLevel(stored, init, i, a, levels);
      RowsInOrder(stored, init, i, j, a, b);
    } else {
      assert more[j - |rows|].price == levels[n].price;
      FromLevel(stored, init, i, a, levels);
    }
  }

  lemma FromLevel(stored: View, init: seq<Level>, i: nat, a: nat, levels: seq<Level>)
    requires Distinct(levels) && |init| < |levels| && init == levels[..|init|]
    requires i < |DiffRows(stored, init)| && a < |levels| && DiffRows(stored, init)[i].price == levels[a].price
    ensures a < |init|
  {
    var row := DiffRows(stored, init)[i];
    DiffActions(stored, init, row);
    var k :| 0 <= k < |init| && init[k] == Level(row.price, row.amount);
    assert levels[k].price == levels[a].price;
  }

  // ---------- inferred deletes ----------

  /** The rows appended after the diff: one delete for each price of `gone`, in some order. */
  ghost predicate Deletes(tail: seq<Row>, gone: set<Price>) {
    && Prices(tail) == gone
    && (forall i, j :: 0 <= i < j < |tail| ==> tail[i].price != tail[j].price)
    && forall i :: 0 <= i < |tail| ==> tail[i] == Row(Delete, tail[i].price, 0.0)
  }

  lemma {:induction false} ApplyDeletes(client: View, tail: seq<Row>)
    requires forall i :: 0 <= i < |tail| ==> tail[i].action == Delete
    ensures Apply(client, tail) == client - Prices(tail)
  {
    if tail != [] {
      var init, last := tail[..|tail| - 1], tail[|tail| - 1];
      assert tail == init + [last];
      ApplyDeletes(client, init);
      PricesConcat(init, [last]);
      assert Prices([last]) == {last.price} by { assert last in [last]; }
    }
  }

  /** One side of one published message, and the view stored with it. */
  ghost predicate SideUpdate(stored: View, levels: seq<Level>, gone: set<Price>, rows: seq<Row>, next: View) {
    && next == DiffView(stored, levels)
    && |DiffRows(stored, levels)| <= |rows|
    && rows[..|DiffRows(stored, levels)|] == DiffRows(stored, levels)
    && Deletes(rows[|DiffRows(stored, levels)|..], gone)
  }

  lemma ApplyUpdate(client: View, stored: View, levels: seq<Level>, gone: set<Price>, rows: seq<Row>, next: View)
    requires SideUpdate(stored, levels, gone, rows, next)
    ensures Apply(client, rows) == Apply(client, DiffRows(stored, levels)) - gone
  {
    var n := |DiffRows(stored, levels)|;
    assert rows == rows[..n] + rows[n..];
    ApplyConcat(client, rows[..n], rows[n..]);
    ApplyDeletes(Apply(client, rows[..n]), rows[n..]);
  }

  // ---------- the account of a follower ----------

  /** How a client's book differs from the stored view: what it shows though the view does not
      list it, the listed prices it lacks, and what it shows instead of the listed amount. */
  datatype Gap = Gap(stale: View, missing: set<Price>, wrong: View)

  const NO_GAP := Gap(map[], {}, map[])

  ghost function GapOf(client: View, view: View): Gap {
    Gap(client - view.Keys, view.Keys - client.Keys,
        map p | p in client && p in view && client[p] != view[p] :: client[p])
  }

  /** What a client with a gap shows at a price it shows. */
  ghost function Showing(gap: Gap, view: View, p: Price): Amount {
    if p in gap.stale then gap.stale[p]
    else if p in gap.wrong then gap.wrong[p]
    else if p in view then view[p]
    else 0.0
  }

  /** The gap after one message. A dropped price goes stale unless its end was announced
      (an erasing row, or an inferred delete); a listed price goes missing when an inferred
      delete names it; and what was missing or wrong stays so until a row writes it. */
  ghost function NextGap(gap: Gap, stored: View, levels: seq<Level>, gone: set<Price>): Gap {
    var next := DiffView(stored, levels);
    Gap(
      map p | p in stored.Keys - gap.missing + gap.stale.Keys && p !in next && !Erased(stored, levels, p) && p !in gone
        :: Showing(gap, stored, p),
      set p | p in next && (p in gone || (p in gap.missing && !Written(stored, levels, p))),
      map p | p in next && p !in gone && p in gap.wrong && !Written(stored, levels, p) :: gap.wrong[p])
  }

  /** The gap after a view that was empty is replaced without a message. */
  ghost function SeededGap(gap: Gap, view: View): Gap {
    Gap(gap.stale - view.Keys, view.Keys - gap.stale.Keys,
        map p | p in gap.stale && p in view && gap.stale[p] != view[p] :: gap.stale[p])
  }

  lemma GapStep(client: View, stored: View, levels: seq<Level>, gone: set<Price>, rows: seq<Row>, next: View)
    requires Distinct(levels)
    requires SideUpdate(stored, levels, gone, rows, next)
    ensures GapOf(Apply(client, rows), next) == NextGap(GapOf(client, stored), stored, levels, gone)
  {
    ApplyUpdate(client, stored, levels, gone, rows, next);
    var left, right := GapOf(Apply(client, rows), next), NextGap(GapOf(client, stored), stored, levels, gone);
    hide *;
    hide GapOf, NextGap, SideUpdate, Distinct;
    forall p ensures SameGapAt(left, right, p) {
      GapAt(client, stored, levels, gone, rows, next, p);
    }
    GapsEqual(left, right);
  }

  ghost predicate SameGapAt(a: Gap, b: Gap, p: Price) {
    Get(a.stale, p) == Get(b.stale, p) && (p in a.missing <==> p in b.missing) && Get(a.wrong, p) == Get(b.wrong, p)
  }

  lemma GapsEqual(a: Gap, b: Gap)
    requires forall p :: SameGapAt(a, b, p)
    ensures a == b
  {
    forall p ensures Get(a.stale, p) == Get(b.stale, p) && Get(a.wrong, p) == Get(b.wrong, p) {
      assert SameGapAt(a, b, p);
    }
    ViewsEqual(a.stale, b.stale);
    ViewsEqual(a.wrong, b.wrong);
    forall p ensures p in a.missing <==> p in b.missing {
      assert SameGapAt(a, b, p);
    }
    assert a.missing == b.missing;
  }

  lemma GapAt(client: View, stored: View, levels: seq<Level>, gone: set<Price>, rows: seq<Row>, next: View, p: Price)
    requires Distinct(levels) && next == DiffView(stored, levels)
    requires Apply(client, rows) == Apply(client, DiffRows(stored, levels)) - gone
    ensures SameGapAt(GapOf(Apply(client, rows), next), NextGap(GapOf(client, stored), stored, levels, gone), p)
  {
    var after, was := Apply(client, rows), GapOf(client, stored);
    DiffAt(stored, levels, client, p);
    DiffViewAt(stored, levels, p);
    var d := Apply(client, DiffRows(stored, levels));
    assert Get(after, p) == if p in gone then None else Get(d, p);
    assert p in was.wrong <==> Get(client, p).Some? && Get(stored, p).Some? && Get(client, p) != Get(stored, p);
    assert p in GapOf(after, next).wrong <==> Get(after, p).Some? && Get(next, p).Some? && Get(after, p) != Get(next, p);
  }

  lemma SeededStep(client: View, view: View)
    ensures GapOf(client, view) == SeededGap(GapOf(client, map[]), view)
  {
    assert GapOf(client, map[]).stale == client;
  }

  lemma FollowsExactly(client: View, view: View)
    ensures client == view <==> GapOf(client, view) == NO_GAP
    ensures GapOf(client, view).missing == {} && GapOf(client, view).wrong == map[] <==>
      forall p :: p in view ==> p in client && client[p] == view[p]
  {
    var gap := GapOf(client, view);
    assert forall p :: p in gap.missing <==> p in view && p !in client;
    assert forall p :: p in gap.wrong <==> p in client && p in view && client[p] != view[p];
    assert forall p :: p in gap.stale <==> p in client && p !in view;
    if gap == NO_GAP {
      forall p ensures Get(client, p) == Get(view, p) {}
      ViewsEqual(client, view);
    }
    if forall p :: p in view ==> p in client && client[p] == view[p] {
      assert gap.missing == {} && gap.wrong == map[];
    }
  }

  /** From an exact follower of a view without zero amounts, a message with no zero quotes
      leaves the follower exact if and only if the inferred deletes are precisely the
      vanished prices. */
  lemma ExactIffAnnounced(stored: View, levels: seq<Level>, gone: set<Price>, rows: seq<Row>, next: View)
    requires Distinct(levels)
    requires forall i :: 0 <= i < |levels| ==> levels[i].amount != 0.0
    requires SideUpdate(stored, levels, gone, rows, next)
    requires gone <= stored.Keys
    ensures forall p :: Get(next, p) == Quote(levels, p)
    ensures Apply(stored, rows) == next <==> gone == stored.Keys - next.Keys
  {
    forall p
      ensures Get(next, p) == Quote(levels, p)
      ensures !Erased(stored, levels, p)
    {
      DiffViewAt(stored, levels, p);
      QuoteSome(levels, p);
    }
    FollowsExactly(stored, stored);
    GapStep(stored, stored, levels, gone, rows, next);
    FollowsExactly(Apply(stored, rows), next);
    var g := NextGap(NO_GAP, stored, levels, gone);
    assert g.missing == gone * next.Keys && g.wrong == map[];
    assert g.stale.Keys == stored.Keys - next.Keys - gone;
  }
}
