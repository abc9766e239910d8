/** When one published delta is right: for each kind of order event, from a stored view that
    agrees with the database, the exact condition under which a client that applies the
    message ends with the new aggregated book. */
module BookEvents {
  import opened Options
  import opened Delta
  import opened Book
  import opened Feed

  function BookViews(db: seq<Order>, cut: int): Views {
    Views(BookOf(db, Buy, cut), BookOf(db, Sell, cut))
  }

  function SideView(v: Views, side: Side): View {
    if side == Buy then v.bids else v.asks
  }

  function SideGone(g: Gone, side: Side): set<Price> {
    if side == Buy then g.bids else g.asks
  }

  /** The view stored at `cut` was the book of `before`; the handler's query at `later` answers
      the book of `after`, whatever happened to the database in between. */
  ghost predicate Queried(before: seq<Order>, after: seq<Order>, later: int, snap: Snapshot) {
    && Sound(before) && Sound(after)
    && Answers(snap.bids, BookOf(after, Buy, later))
    && Answers(snap.asks, BookOf(after, Sell, later))
  }

  ghost predicate Vanished(before: seq<Order>, cut: int, after: seq<Order>, later: int, side: Side, p: Price) {
    LevelSum(before, side, p, cut) > 0.0 && LevelSum(after, side, p, later) == 0.0
  }

  ghost predicate AnnouncedOn(before: seq<Order>, cut: int, after: seq<Order>, later: int, side: Side, gone: set<Price>) {
    forall p :: p in gone <==> Vanished(before, cut, after, later, side, p)
  }

  /** The levels a message infers to be gone are those that vanished between the queries. */
  ghost predicate Announced(before: seq<Order>, cut: int, after: seq<Order>, later: int, snap: Snapshot, cause: Cause) {
    var gone := GoneFor(BookViews(before, cut), snap, cause);
    AnnouncedOn(before, cut, after, later, Buy, gone.bids) && AnnouncedOn(before, cut, after, later, Sell, gone.asks)
  }

  lemma AnswersNonZero(db: seq<Order>, side: Side, cut: int, levels: seq<Level>)
    requires Sound(db) && Answers(levels, BookOf(db, side, cut))
    ensures forall i :: 0 <= i < |levels| ==> levels[i].amount != 0.0
  {
    forall i | 0 <= i < |levels| ensures levels[i].amount != 0.0 {
      QuoteSome(levels, levels[i].price);
      BookAt(db, side, cut, levels[i].price);
      assert Quote(levels, levels[i].price) == Some(levels[i].amount);
    }
  }

  lemma SideVanished(before: seq<Order>, cut: int, after: seq<Order>, later: int, side: Side, p: Price)
    requires Sound(before) && Sound(after)
    ensures p in BookOf(before, side, cut).Keys - BookOf(after, side, later).Keys
      <==> Vanished(before, cut, after, later, side, p)
  {
    BookAt(before, side, cut, p);
    BookAt(after, side, later, p);
  }

  lemma SideExact(before: seq<Order>, cut: int, after: seq<Order>, later: int, side: Side,
                  levels: seq<Level>, gone: set<Price>, rows: seq<Row>, next: View)
    requires Sound(before) && Sound(after)
    requires Answers(levels, BookOf(after, side, later))
    requires SideUpdate(BookOf(before, side, cut), levels, gone, rows, next)
    requires gone <= BookOf(before, side, cut).Keys
    ensures next == BookOf(after, side, later)
    ensures Apply(BookOf(before, side, cut), rows) == next <==> AnnouncedOn(before, cut, after, later, side, gone)
  {
    var view := BookOf(before, side, cut);
    AnswersNonZero(after, side, later, levels);
    ExactIffAnnounced(view, levels, gone, rows, next);
    ViewsEqual(next, BookOf(after, side, later));
    forall p ensures p in view.Keys - next.Keys <==> Vanished(before, cut, after, later, side, p) {
      SideVanished(before, cut, after, later, side, p);
    }
    assert gone == view.Keys - next.Keys <==> AnnouncedOn(before, cut, after, later, side, gone) by {
      if AnnouncedOn(before, cut, after, later, side, gone) {
        assert forall p :: p in gone <==> p in view.Keys - next.Keys;
      }
    }
  }

  /** Whatever happened between two queries, the new view is the new book, and a client that
      held the old book holds the new one after the message if and only if the levels the
      message infers to be gone are the levels that vanished. */
  lemma DeltaExact(before: seq<Order>, cut: int, after: seq<Order>, later: int, snap: Snapshot,
                   cause: Cause, bids: seq<Row>, asks: seq<Row>, next: Views)
    requires Queried(before, after, later, snap)
    requires ViewsUpdate(BookViews(before, cut), snap, cause, bids, asks, next)
    ensures next == BookViews(after, later)
    ensures Views(Apply(BookOf(before, Buy, cut), bids), Apply(BookOf(before, Sell, cut), asks)) == next <==>
      Announced(before, cut, after, later, snap, cause)
  {
    var gone := GoneFor(BookViews(before, cut), snap, cause);
    GoneStored(BookViews(before, cut), snap, cause);
    SideExact(before, cut, after, later, Buy, snap.bids, gone.bids, bids, next.bids);
    SideExact(before, cut, after, later, Sell, snap.asks, gone.asks, asks, next.asks);
  }

  /** The situation of the theorems about one event: `rev` alone happened to the database since
      the view was stored, and both queries see every open order. */
  ghost predicate Observed(db: seq<Order>, cut: int, rev: Revision, later: int,
                           snap: Snapshot) {
    var db' := After(db, rev);
    && Fits(db, rev.rewritten) && cut <= later
    && Sound(db) && Settled(db, cut) && Sound(db') && Settled(db', later)
    && Answers(snap.bids, BookOf(db', Buy, later))
    && Answers(snap.asks, BookOf(db', Sell, later))
  }

  /** The client that held the stored view holds the new book after the message. */
  ghost predicate Exact(db: seq<Order>, cut: int, rev: Revision, later: int,
                        bids: seq<Row>, asks: seq<Row>) {
    var view, book := BookViews(db, cut), BookViews(After(db, rev), later);
    Views(Apply(view.bids, bids), Apply(view.asks, asks)) == book
  }

  /** What is left on a level after a revision. */
  function Left(db: seq<Order>, rev: Revision, later: int, side: Side, p: Price): Amount {
    LevelSum(After(db, rev), side, p, later)
  }

  /** The same, for inferred deletes and vanished levels known price by price. */
  lemma DeltaExactBy(db: seq<Order>, cut: int, rev: Revision, later: int, snap: Snapshot,
                     cause: Cause, bids: seq<Row>, asks: seq<Row>, next: Views,
                     named: (Side, Price) -> bool, emptied: (Side, Price) -> bool)
    requires Observed(db, cut, rev, later, snap)
    requires ViewsUpdate(BookViews(db, cut), snap, cause, bids, asks, next)
    requires forall side, p :: named(side, p) <==> p in SideGone(GoneFor(BookViews(db, cut), snap, cause), side)
    requires forall side, p :: emptied(side, p) <==> Vanished(db, cut, After(db, rev), later, side, p)
    ensures next == BookViews(After(db, rev), later)
    ensures Exact(db, cut, rev, later, bids, asks) <==>
      forall side, p :: named(side, p) <==> emptied(side, p)
  {
    var gone := GoneFor(BookViews(db, cut), snap, cause);
    DeltaExact(db, cut, After(db, rev), later, snap, cause, bids, asks, next);
    forall p ensures named(Buy, p) <==> p in gone.bids {
      assert SideGone(gone, Buy) == gone.bids;
    }
    forall p ensures named(Sell, p) <==> p in gone.asks {
      assert SideGone(gone, Sell) == gone.asks;
    }
    if AnnouncedOn(db, cut, After(db, rev), later, Buy, gone.bids) && AnnouncedOn(db, cut, After(db, rev), later, Sell, gone.asks) {
      forall side, p ensures named(side, p) <==> emptied(side, p) {
        match side
        case Buy => assert p in gone.bids <==> Vanished(db, cut, After(db, rev), later, Buy, p);
        case Sell => assert p in gone.asks <==> Vanished(db, cut, After(db, rev), later, Sell, p);
      }
    }
    if forall side, p :: named(side, p) <==> emptied(side, p) {
      forall p ensures p in gone.bids <==> Vanished(db, cut, After(db, rev), later, Buy, p) {
        assert named(Buy, p) <==> emptied(Buy, p);
      }
      forall p ensures p in gone.asks <==> Vanished(db, cut, After(db, rev), later, Sell, p) {
        assert named(Sell, p) <==> emptied(Sell, p);
      }
    }
  }

  /** Level sums before and after, once both queries see every open order. */
  lemma LevelMoves(db: seq<Order>, cut: int, rev: Revision, later: int, snap: Snapshot, side: Side, p: Price)
    requires Observed(db, cut, rev, later, snap)
    ensures Left(db, rev, later, side, p) ==
      LevelSum(db, side, p, cut) + Shift(rev.rewritten, side, p, later) + LevelSum(rev.added, side, p, later)
    ensures LevelSum(db, side, p, cut) >= 0.0 && Left(db, rev, later, side, p) >= 0.0
    ensures Get(SideView(BookViews(db, cut), side), p) ==
      if LevelSum(db, side, p, cut) == 0.0 then None else Some(LevelSum(db, side, p, cut))
  {
    SettledSum(db, side, p, cut, later);
    AfterSum(db, rev, side, p, later);
    BookAt(db, side, cut, p);
    BookAt(After(db, rev), side, later, p);
  }

  function Only(u: Update): Revision {
    Revision([u], [])
  }

  lemma OneShift(u: Update, side: Side, p: Price, cut: int)
    ensures Shift([u], side, p, cut) == Weight(u.now, side, p, cut) - Weight(u.was, side, p, cut)
  {
    assert [u][1..] == [];
  }

  // ---------- cancel ----------

  function Cancel(o: Order, t: int): Update {
    Update(o, o.(status := Cancelled, updatedAt := t))
  }

  /** Cancelling one order is exact if and only if what remains on its level equals the amount
      it had filled just when nothing remains. So it is exact for every unfilled order, wrong
      for every partly filled order alone on its level (the level is never announced), and
      wrong when the others happen to add up to the filled amount (a live level is deleted). */
  lemma CancelExact(db: seq<Order>, cut: int, o: Order, t: int, later: int, snap: Snapshot,
                    amendments: seq<Amendment>, bids: seq<Row>, asks: seq<Row>, next: Views)
    requires IsOpen(o) && Observed(db, cut, Only(Cancel(o, t)), later, snap)
    requires ViewsUpdate(BookViews(db, cut), snap,
                         Single(OrderEvent(Cancelled, o.side, o.price, o.amount, amendments)), bids, asks, next)
    ensures var left := Left(db, Only(Cancel(o, t)), later, o.side, o.price);
      Exact(db, cut, Only(Cancel(o, t)), later, bids, asks) <==> (left == o.filled <==> left == 0.0)
  {
    var rev, cause := Only(Cancel(o, t)), Single(OrderEvent(Cancelled, o.side, o.price, o.amount, amendments));
    var gone := GoneFor(BookViews(db, cut), snap, cause);
    var left := Left(db, rev, later, o.side, o.price);
    forall side, p
      ensures p in SideGone(gone, side) <==> side == o.side && p == o.price && left == o.filled
      ensures Vanished(db, cut, After(db, rev), later, side, p) <==> side == o.side && p == o.price && left == 0.0
    {
      CancelLevel(db, cut, o, t, later, snap, side, p);
      CancelLevel(db, cut, o, t, later, snap, o.side, o.price);
    }
    var named := (side: Side, p: Price) => side == o.side && p == o.price && left == o.filled;
    var emptied := (side: Side, p: Price) => side == o.side && p == o.price && left == 0.0;
    DeltaExactBy(db, cut, rev, later, snap, cause, bids, asks, next, named, emptied);
    assert named(o.side, o.price) == (left == o.filled) && emptied(o.side, o.price) == (left == 0.0);
  }

  lemma CancelLevel(db: seq<Order>, cut: int, o: Order, t: int, later: int, snap: Snapshot, side: Side, p: Price)
    requires IsOpen(o) && Observed(db, cut, Only(Cancel(o, t)), later, snap)
    ensures var left := Left(db, Only(Cancel(o, t)), later, side, p);
      && (Vanished(db, cut, After(db, Only(Cancel(o, t))), later, side, p) <==> side == o.side && p == o.price && left == 0.0)
      && (side == o.side && p == o.price ==>
          Get(SideView(BookViews(db, cut), side), p) == Some(left + OpenAmount(o)))
  {
    assert [Cancel(o, t)][0] in [Cancel(o, t)];
    assert o in db;
    LevelMoves(db, cut, Only(Cancel(o, t)), later, snap, side, p);
    OneShift(Cancel(o, t), side, p, later);
  }

  // ---------- price edit ----------

  function Edit(o: Order, price: Price, amount: Amount, t: int): Update {
    Update(o, o.(price := price, amount := amount, updatedAt := t))
  }

  /** An amendment records the old price if the price was among the edited fields. */
  predicate Recorded(o: Order, price: Price, amendment: Amendment) {
    amendment.oldPrice == Some(o.price) || (amendment.oldPrice == None && price == o.price)
  }

  /** Editing a resting order, its price, its amount or both, is exact if and only if its price
      did not change or it was alone on the level it left: the old level is deleted whether or
      not others remain there. */
  lemma EditExact(db: seq<Order>, cut: int, o: Order, price: Price, amount: Amount, t: int, later: int, snap: Snapshot,
                  earlier: seq<Amendment>, last: Amendment, bids: seq<Row>, asks: seq<Row>, next: Views)
    requires IsOpen(o) && t < later && Observed(db, cut, Only(Edit(o, price, amount, t)), later, snap)
    requires amount - o.filled > 0.0 && Recorded(o, price, last)
    requires ViewsUpdate(BookViews(db, cut), snap,
                         Single(OrderEvent(o.status, o.side, price, amount, earlier + [last])), bids, asks, next)
    ensures Exact(db, cut, Only(Edit(o, price, amount, t)), later, bids, asks) <==>
      price == o.price || Left(db, Only(Edit(o, price, amount, t)), later, o.side, o.price) == 0.0
  {
    var u := Edit(o, price, amount, t);
    var cause := Single(OrderEvent(o.status, o.side, price, amount, earlier + [last]));
    var gone := GoneFor(BookViews(db, cut), snap, cause);
    var left := Left(db, Only(u), later, o.side, o.price);
    forall side, p
      ensures p in SideGone(gone, side) <==> side == o.side && p == o.price && price != o.price
      ensures Vanished(db, cut, After(db, Only(u)), later, side, p) <==>
        side == o.side && p == o.price && price != o.price && left == 0.0
    {
      EditLevel(db, cut, o, price, amount, t, later, snap, side, p);
      EditLevel(db, cut, o, price, amount, t, later, snap, o.side, o.price);
      EditGone(BookViews(db, cut), snap, o, price, amount, earlier, last, side, p);
    }
    var named := (side: Side, p: Price) => side == o.side && p == o.price && price != o.price;
    var emptied := (side: Side, p: Price) => side == o.side && p == o.price && price != o.price && left == 0.0;
    DeltaExactBy(db, cut, Only(u), later, snap, cause, bids, asks, next, named, emptied);
    assert named(o.side, o.price) == (price != o.price);
    assert emptied(o.side, o.price) == (price != o.price && left == 0.0);
  }

  lemma EditGone(view: Views, snap: Snapshot, o: Order, price: Price, amount: Amount, earlier: seq<Amendment>,
                 last: Amendment, side: Side, p: Price)
    requires IsOpen(o) && Recorded(o, price, last)
    ensures var event := OrderEvent(o.status, o.side, price, amount, earlier + [last]);
      p in SideGone(GoneFor(view, snap, Single(event)), side) <==>
      side == o.side && p == o.price && price != o.price && p in SideView(view, side)
  {
  }

  lemma EditLevel(db: seq<Order>, cut: int, o: Order, price: Price, amount: Amount, t: int, later: int, snap: Snapshot,
                  side: Side, p: Price)
    requires IsOpen(o) && t < later && Observed(db, cut, Only(Edit(o, price, amount, t)), later, snap)
    requires amount - o.filled > 0.0
    ensures p in SideView(BookViews(db, cut), side) <==> LevelSum(db, side, p, cut) > 0.0
    ensures LevelSum(db, o.side, o.price, cut) > 0.0
    ensures Vanished(db, cut, After(db, Only(Edit(o, price, amount, t))), later, side, p) <==>
      side == o.side && p == o.price && price != o.price &&
      Left(db, Only(Edit(o, price, amount, t)), later, o.side, o.price) == 0.0
  {
    EditedOrder(db, cut, o, price, amount, t, later, snap);
    LevelMoves(db, cut, Only(Edit(o, price, amount, t)), later, snap, side, p);
    LevelSumAtLeast(db, o, cut);
    EditShift(o, price, amount, t, later, side, p);
  }

  lemma EditedOrder(db: seq<Order>, cut: int, o: Order, price: Price, amount: Amount, t: int, later: int, snap: Snapshot)
    requires IsOpen(o) && Observed(db, cut, Only(Edit(o, price, amount, t)), later, snap)
    ensures o.updatedAt < cut && OpenAmount(o) > 0.0 && o in db
  {
    assert [Edit(o, price, amount, t)][0] in [Edit(o, price, amount, t)];
    assert o in db;
  }

  lemma EditShift(o: Order, price: Price, amount: Amount, t: int, later: int, side: Side, p: Price)
    requires IsOpen(o) && t < later && o.updatedAt < later
    ensures Shift([Edit(o, price, amount, t)], side, p, later) ==
      (if side == o.side && p == price then amount - o.filled else 0.0)
      - (if side == o.side && p == o.price then o.amount - o.filled else 0.0)
  {
    OneShift(Edit(o, price, amount, t), side, p, later);
  }

  // ---------- fill ----------

  datatype Fill = Fill(maker: Order, quantity: Amount)

  function Filling(f: Fill, t: int): Update {
    var filled := f.maker.filled + f.quantity;
    Update(f.maker, f.maker.(filled := filled, updatedAt := t,
                             status := if filled == f.maker.amount then Filled else PartiallyFilled))
  }

  function Fillings(fills: seq<Fill>, t: int): seq<Update> {
    if fills == [] then [] else [Filling(fills[0], t)] + Fillings(fills[1..], t)
  }

  function FilledTotal(fills: seq<Fill>): Amount {
    if fills == [] then 0.0 else fills[0].quantity + FilledTotal(fills[1..])
  }

  function FilledAt(fills: seq<Fill>, p: Price): Amount {
    if fills == [] then 0.0
    else (if fills[0].maker.price == p then fills[0].quantity else 0.0) + FilledAt(fills[1..], p)
  }

  ghost predicate MakersOn(fills: seq<Fill>, side: Side) {
    forall f :: f in fills ==> IsOpen(f.maker) && f.maker.side == side && 0.0 < f.quantity <= OpenAmount(f.maker)
  }

  lemma {:induction false} FillShift(fills: seq<Fill>, maker: Side, t: int, later: int, side: Side, p: Price)
    requires MakersOn(fills, maker) && t < later
    requires forall f :: f in fills ==> f.maker.updatedAt < later
    ensures Shift(Fillings(fills, t), side, p, later) == if side == maker then -FilledAt(fills, p) else 0.0
  {
    if fills != [] {
      assert fills[0] in fills;
      assert forall f :: f in fills[1..] ==> f in fills;
      FillShift(fills[1..], maker, t, later, side, p);
      assert Fillings(fills, t)[1..] == Fillings(fills[1..], t);
    }
  }

  lemma {:induction false} FillSplit(fills: seq<Fill>, maker: Side, p: Price)
    requires MakersOn(fills, maker)
    ensures FilledTotal(fills) >= FilledAt(fills, p) >= 0.0
    ensures FilledTotal(fills) == FilledAt(fills, p) <==> forall f :: f in fills ==> f.maker.price == p
    ensures (exists f :: f in fills && f.maker.price == p) <==> FilledAt(fills, p) > 0.0
  {
    if fills != [] {
      assert fills[0] in fills;
      assert forall f :: f in fills <==> f == fills[0] || f in fills[1..];
      FillSplit(fills[1..], maker, p);
    }
  }

  lemma {:induction false} FillingsMembers(fills: seq<Fill>, t: int)
    ensures forall f :: f in fills ==> Filling(f, t) in Fillings(fills, t)
  {
    if fills != [] {
      FillingsMembers(fills[1..], t);
      assert forall f :: f in fills <==> f == fills[0] || f in fills[1..];
    }
  }

  function Opposite(side: Side): Side {
    if side == Buy then Sell else Buy
  }

  /** An order arrives, meets some makers, and rests with what is left of it, if anything,
      unless it is cancelled at once, as one that is immediate or cancel is. */
  function Arrival(taker: Order, fills: seq<Fill>, t: int): Revision {
    Revision(Fillings(fills, t), [taker])
  }

  function EventOf(taker: Order): OrderEvent {
    OrderEvent(taker.status, taker.side, taker.price, taker.amount, [])
  }

  ghost predicate Arrived(taker: Order, fills: seq<Fill>) {
    && MakersOn(fills, Opposite(taker.side))
    && taker.filled == FilledTotal(fills) <= taker.amount && taker.amount > 0.0
    && if taker.filled == taker.amount then taker.status == Filled
       else taker.status == Cancelled || taker.status == if fills == [] then Open else PartiallyFilled
  }

  /** An arriving order that keeps resting is published exactly if and only if it emptied no
      level: a new order always is. One filled entirely is published exactly if and only if
      every maker it met was at its limit price, or it emptied no level and the level at its
      limit does not happen to hold just its amount. One cancelled at once is if and only if it
      emptied no level and the level at its price on its own side does not happen to hold just
      its amount. Levels emptied at better prices are never announced, and an untouched level
      can be deleted by coincidence. */
  lemma ArrivalExact(db: seq<Order>, cut: int, taker: Order, fills: seq<Fill>, t: int, later: int, snap: Snapshot,
                     bids: seq<Row>, asks: seq<Row>, next: Views)
    requires Observed(db, cut, Arrival(taker, fills, t), later, snap) && t < later
    requires Arrived(taker, fills)
    requires ViewsUpdate(BookViews(db, cut), snap, Single(EventOf(taker)), bids, asks, next)
    ensures var emptiesNone :=
        forall f :: f in fills ==> Left(db, Arrival(taker, fills, t), later, f.maker.side, f.maker.price) > 0.0;
      Exact(db, cut, Arrival(taker, fills, t), later, bids, asks) <==>
        match taker.status
        case Filled =>
          || (forall f :: f in fills ==> f.maker.price == taker.price)
          || (emptiesNone && LevelSum(db, Opposite(taker.side), taker.price, cut) != taker.amount)
        case Cancelled => emptiesNone && LevelSum(db, taker.side, taker.price, cut) != taker.amount
        case _ => emptiesNone
  {
    var rev, maker, limit := Arrival(taker, fills, t), Opposite(taker.side), taker.price;
    var gone := GoneFor(BookViews(db, cut), snap, Single(EventOf(taker)));
    var at := if taker.status == Filled then maker else taker.side;
    var announced := !IsOpen(taker) && LevelSum(db, at, limit, cut) == taker.amount;
    var named := (side: Side, p: Price) => side == at && p == limit && announced;
    var emptied := (side: Side, p: Price) =>
      side == maker && FilledAt(fills, p) > 0.0 && Left(db, rev, later, maker, p) == 0.0;
    forall side, p
      ensures named(side, p) <==> p in SideGone(gone, side)
      ensures emptied(side, p) <==> Vanished(db, cut, After(db, rev), later, side, p)
      ensures Left(db, rev, later, maker, p) >= 0.0
      ensures Left(db, rev, later, maker, p) == LevelSum(db, maker, p, cut) - FilledAt(fills, p)
    {
      FillLevel(db, cut, taker, fills, t, later, snap, side, p);
      FillLevel(db, cut, taker, fills, t, later, snap, maker, p);
      FillGone(db, cut, taker, fills, t, later, snap, side, p);
    }
    DeltaExactBy(db, cut, rev, later, snap, Single(EventOf(taker)), bids, asks, next, named, emptied);
    FillVanishing(db, cut, rev, fills, later, maker);
    assert forall p :: emptied(maker, p) <==> Vanished(db, cut, After(db, rev), later, maker, p);
    FillSplit(fills, maker, limit);
    if taker.status == Filled {
      FillNames(fills, maker, limit, announced, named, emptied);
    } else {
      NamedElsewhere(maker, taker.side, limit, announced, named, emptied);
    }
  }

  lemma NamedElsewhere(maker: Side, at: Side, limit: Price, announced: bool,
                       named: (Side, Price) -> bool, emptied: (Side, Price) -> bool)
    requires maker != at
    requires forall side, p :: named(side, p) <==> side == at && p == limit && announced
    requires forall side, p :: emptied(side, p) ==> side == maker
    ensures (forall side, p :: named(side, p) <==> emptied(side, p)) <==> !announced && forall p :: !emptied(maker, p)
  {
    if forall side, p :: named(side, p) <==> emptied(side, p) {
      assert !announced by { assert named(at, limit) <==> emptied(at, limit); }
      forall p ensures !emptied(maker, p) {
        assert !named(maker, p);
      }
    }
  }

  lemma MakersSettled(db: seq<Order>, cut: int, taker: Order, fills: seq<Fill>, t: int, later: int, snap: Snapshot)
    requires Arrived(taker, fills) && Observed(db, cut, Arrival(taker, fills, t), later, snap)
    ensures forall f :: f in fills ==> f.maker.updatedAt < later
  {
    FillingsMembers(fills, t);
    forall f | f in fills ensures f.maker.updatedAt < later {
      assert Filling(f, t).was in db;
    }
  }

  lemma FillGone(db: seq<Order>, cut: int, taker: Order, fills: seq<Fill>, t: int, later: int, snap: Snapshot,
                 side: Side, p: Price)
    requires Arrived(taker, fills) && Observed(db, cut, Arrival(taker, fills, t), later, snap)
    ensures var at := if taker.status == Filled then Opposite(taker.side) else taker.side;
      p in SideGone(GoneFor(BookViews(db, cut), snap, Single(EventOf(taker))), side) <==>
      side == at && p == taker.price && !IsOpen(taker) && LevelSum(db, at, taker.price, cut) == taker.amount
  {
    hide Observed, Arrived, Arrival, LevelSum, BookOf, BookViews;
    var at := if taker.status == Filled then Opposite(taker.side) else taker.side;
    LevelMoves(db, cut, Arrival(taker, fills, t), later, snap, at, taker.price);
    ArrivedStatus(taker, fills);
    ArrivalGone(BookViews(db, cut), snap, taker, side, p);
  }

  lemma ArrivedStatus(taker: Order, fills: seq<Fill>)
    requires Arrived(taker, fills)
    ensures taker.amount > 0.0 && (!IsOpen(taker) <==> taker.status == Filled || taker.status == Cancelled)
  {
  }

  lemma ArrivalGone(view: Views, snap: Snapshot, taker: Order, side: Side, p: Price)
    requires !IsOpen(taker) <==> taker.status == Filled || taker.status == Cancelled
    ensures var at := if taker.status == Filled then Opposite(taker.side) else taker.side;
      p in SideGone(GoneFor(view, snap, Single(EventOf(taker))), side) <==>
      side == at && p == taker.price && !IsOpen(taker) && Get(SideView(view, at), taker.price) == Some(taker.amount)
  {
  }

  lemma OneOrder(o: Order, side: Side, p: Price, cut: int)
    ensures LevelSum([o], side, p, cut) == Weight(o, side, p, cut)
  {
    assert [o][1..] == [];
  }

  /** What an arrival does to one level, seen from before and after. */
  lemma FillLevel(db: seq<Order>, cut: int, taker: Order, fills: seq<Fill>, t: int, later: int, snap: Snapshot,
                  side: Side, p: Price)
    requires Arrived(taker, fills) && Observed(db, cut, Arrival(taker, fills, t), later, snap) && t < later
    ensures var left, maker := Left(db, Arrival(taker, fills, t), later, side, p), Opposite(taker.side);
      && left >= 0.0
      && (side == maker ==> left == LevelSum(db, side, p, cut) - FilledAt(fills, p))
      && (Vanished(db, cut, After(db, Arrival(taker, fills, t)), later, side, p) <==>
          side == maker && FilledAt(fills, p) > 0.0 && left == 0.0)
  {
    var maker := Opposite(taker.side);
    MakersSettled(db, cut, taker, fills, t, later, snap);
    LevelMoves(db, cut, Arrival(taker, fills, t), later, snap, side, p);
    FillShift(fills, maker, t, later, side, p);
    FillSplit(fills, maker, p);
    OneOrder(taker, side, p, later);
  }

  /** The levels named and the levels emptied agree in just two cases. */
  lemma FillNames(fills: seq<Fill>, maker: Side, limit: Price, announced: bool,
                  named: (Side, Price) -> bool, emptied: (Side, Price) -> bool)
    requires MakersOn(fills, maker) && FilledTotal(fills) > 0.0
    requires forall side, p :: named(side, p) <==> side == maker && p == limit && announced
    requires forall side, p :: emptied(side, p) ==> side == maker && FilledAt(fills, p) > 0.0
    // the level at the limit held the taker's amount, or more than was filled there
    requires emptied(maker, limit) && announced ==> FilledAt(fills, limit) == FilledTotal(fills)
    requires FilledAt(fills, limit) == FilledTotal(fills) ==> (emptied(maker, limit) <==> announced)
    ensures (forall side, p :: named(side, p) <==> emptied(side, p)) <==>
      || (forall f :: f in fills ==> f.maker.price == limit)
      || ((forall p :: !emptied(maker, p)) && !announced)
  {
    FillSplit(fills, maker, limit);
    if forall f :: f in fills ==> f.maker.price == limit {
      forall p | FilledAt(fills, p) > 0.0 ensures p == limit { FillSplit(fills, maker, p); }
    }
    if forall side, p :: named(side, p) <==> emptied(side, p) {
      assert named(maker, limit) <==> emptied(maker, limit);
      if !announced {
        forall p ensures !emptied(maker, p) { assert !named(maker, p); }
      }
    }
  }

  /** Some filled level is left empty exactly when some level vanished. */
  lemma FillVanishing(db: seq<Order>, cut: int, rev: Revision, fills: seq<Fill>, later: int, maker: Side)
    requires MakersOn(fills, maker)
    requires forall p :: Vanished(db, cut, After(db, rev), later, maker, p) <==>
      FilledAt(fills, p) > 0.0 && Left(db, rev, later, maker, p) == 0.0
    requires forall p :: Left(db, rev, later, maker, p) >= 0.0
    ensures (forall f :: f in fills ==> Left(db, rev, later, f.maker.side, f.maker.price) > 0.0)
      <==> forall p :: !Vanished(db, cut, After(db, rev), later, maker, p)
  {
    if forall f :: f in fills ==> Left(db, rev, later, f.maker.side, f.maker.price) > 0.0 {
      forall p ensures !Vanished(db, cut, After(db, rev), later, maker, p) {
        FillSplit(fills, maker, p);
      }
    }
    if forall p :: !Vanished(db, cut, After(db, rev), later, maker, p) {
      forall f | f in fills ensures Left(db, rev, later, f.maker.side, f.maker.price) > 0.0 {
        FillSplit(fills, maker, f.maker.price);
        assert !Vanished(db, cut, After(db, rev), later, maker, f.maker.price);
      }
    }
  }

  // ---------- batch cancel ----------

  function Cancels(batch: seq<CancelledOrder>, t: int): seq<Update> {
    if batch == [] then [] else [Cancel(batch[0].order, t)] + Cancels(batch[1..], t)
  }

  function CancelAll(batch: seq<CancelledOrder>, t: int): Revision {
    Revision(Cancels(batch, t), [])
  }

  /** Sums over the orders of a batch on one level: their amounts and their filled amounts. */
  function BatchSum(batch: seq<CancelledOrder>, side: Side, p: Price, filled: bool): Amount {
    if batch == [] then 0.0
    else
      var o := batch[0].order;
      (if o.side == side && o.price == p then if filled then o.filled else o.amount else 0.0)
      + BatchSum(batch[1..], side, p, filled)
  }

  predicate OnLevel(batch: seq<CancelledOrder>, side: Side, p: Price) {
    exists c :: c in batch && c.order.side == side && c.order.price == p
  }

  lemma {:induction false} BatchSumSnoc(batch: seq<CancelledOrder>, last: CancelledOrder, side: Side, p: Price, filled: bool)
    ensures BatchSum(batch + [last], side, p, filled) ==
      BatchSum(batch, side, p, filled) +
      if last.order.side == side && last.order.price == p then
        if filled then last.order.filled else last.order.amount
      else 0.0
  {
    if batch == [] {
      assert batch + [last] == [last] && [last][1..] == [];
    } else {
      assert (batch + [last])[1..] == batch[1..] + [last];
      BatchSumSnoc(batch[1..], last, side, p, filled);
    }
  }

  lemma OnLevelSnoc(batch: seq<CancelledOrder>, last: CancelledOrder, side: Side, p: Price)
    ensures OnLevel(batch + [last], side, p) <==>
      OnLevel(batch, side, p) || (last.order.side == side && last.order.price == p)
  {
    if OnLevel(batch, side, p) {
      var c :| c in batch && c.order.side == side && c.order.price == p;
      assert c in batch + [last];
    }
    assert last in batch + [last];
  }

  lemma {:induction false} BatchSumOff(batch: seq<CancelledOrder>, side: Side, p: Price, filled: bool)
    requires !OnLevel(batch, side, p)
    ensures BatchSum(batch, side, p, filled) == 0.0
  {
    if batch != [] {
      assert batch[0] in batch;
      assert forall c :: c in batch[1..] ==> c in batch;
      BatchSumOff(batch[1..], side, p, filled);
    }
  }

  lemma {:induction false} BatchSumConcat(a: seq<CancelledOrder>, b: seq<CancelledOrder>, side: Side, p: Price, filled: bool)
    ensures BatchSum(a + b, side, p, filled) == BatchSum(a, side, p, filled) + BatchSum(b, side, p, filled)
  {
    if a == [] {
      assert a + b == b;
    } else {
      assert (a + b)[1..] == a[1..] + b;
      BatchSumConcat(a[1..], b, side, p, filled);
    }
  }

  predicate Opens(init: seq<CancelledOrder>, last: CancelledOrder, side: Side, p: Price) {
    last.order.side == side && last.order.price == p && last.instrument !in Instruments(init)
  }

  /** The place of the last order that overwrote the entry at a level: the latest one there that
      was the first of its instrument in the batch. */
  function LastReset(batch: seq<CancelledOrder>, side: Side, p: Price): (r: nat)
    ensures r <= |batch|
  {
    if batch == [] then 0
    else if Opens(batch[..|batch| - 1], batch[|batch| - 1], side, p) then |batch| - 1
    else LastReset(batch[..|batch| - 1], side, p)
  }

  lemma EntryNext(init: seq<CancelledOrder>, last: CancelledOrder, side: Side, p: Price)
    ensures var before, o := Get(SideView(SharedSums(init), side), p), last.order;
      Get(SideView(SharedSums(init + [last]), side), p) ==
        if o.side != side || o.price != p then before
        else if Opens(init, last, side, p) || before == None then Some(o.amount)
        else Some(before.value + o.amount)
  {
    hide Instruments;
    var batch, sums := init + [last], SharedSums(init);
    assert batch[..|batch| - 1] == init && batch[|batch| - 1] == last;
    if last.instrument !in Instruments(init) {
      EntrySet(sums, SharedSums(batch), last.order, last.order.amount, side, p);
    } else {
      var own := Get(SideView(sums, last.order.side), last.order.price);
      EntrySet(sums, SharedSums(batch), last.order,
               (if own.Some? then own.value else 0.0) + last.order.amount, side, p);
    }
  }

  lemma EntrySet(sums: Views, sums': Views, o: Order, amount: Amount, side: Side, p: Price)
    requires sums' == if o.side == Buy then sums.(bids := sums.bids[o.price := amount])
                      else sums.(asks := sums.asks[o.price := amount])
    ensures Get(SideView(sums', side), p) ==
      if o.side == side && o.price == p then Some(amount) else Get(SideView(sums, side), p)
  {
  }

  /** The entry the shared maps hold for a level, for any batch over any instruments: what was
      cancelled there since the last overwriting, by orders of whatever instrument. */
  lemma {:induction false} SharedSumsAt(batch: seq<CancelledOrder>, side: Side, p: Price)
    ensures Get(SideView(SharedSums(batch), side), p) ==
      if OnLevel(batch, side, p) then Some(BatchSum(batch[LastReset(batch, side, p)..], side, p, false)) else None
  {
    if batch != [] {
      var init, last := batch[..|batch| - 1], batch[|batch| - 1];
      assert batch == init + [last];
      SharedSumsAt(init, side, p);
      EntryMore(init, last, side, p);
    }
  }

  lemma EntryMore(init: seq<CancelledOrder>, last: CancelledOrder, side: Side, p: Price)
    requires Get(SideView(SharedSums(init), side), p) ==
      if OnLevel(init, side, p) then Some(BatchSum(init[LastReset(init, side, p)..], side, p, false)) else None
    ensures var batch := init + [last];
      Get(SideView(SharedSums(batch), side), p) ==
        if OnLevel(batch, side, p) then Some(BatchSum(batch[LastReset(batch, side, p)..], side, p, false)) else None
  {
    hide SharedSums, OnLevel, BatchSum;
    var batch, r := init + [last], LastReset(init, side, p);
    assert batch[..|init|] == init && batch[|init|..] == [last];
    assert batch[r..] == init[r..] + [last];
    EntryNext(init, last, side, p);
    OnLevelSnoc(init, last, side, p);
    BatchSumSnoc(init[r..], last, side, p, false);
    SumOfNothing(side, p);
    BatchSumSnoc([], last, side, p, false);
    assert [] + [last] == [last];
    if !OnLevel(init, side, p) {
      OffLevelRest(init, r, side, p);
    }
  }

  lemma SumOfNothing(side: Side, p: Price)
    ensures BatchSum([], side, p, false) == 0.0
  {
  }

  lemma OffLevelRest(batch: seq<CancelledOrder>, r: nat, side: Side, p: Price)
    requires r <= |batch| && !OnLevel(batch, side, p)
    ensures BatchSum(batch[r..], side, p, false) == 0.0
  {
    assert forall c :: c in batch[r..] ==> c in batch;
    BatchSumOff(batch[r..], side, p, false);
  }

  /** For a batch on one instrument nothing is overwritten, so the entries are the sums of the
      whole batch. */
  lemma OneInstrumentSums(batch: seq<CancelledOrder>, instrument: string, side: Side, p: Price)
    requires forall c :: c in batch ==> c.instrument == instrument
    ensures Get(SideView(SharedSums(batch), side), p) ==
      if OnLevel(batch, side, p) then Some(BatchSum(batch, side, p, false)) else None
    ensures !OnLevel(batch, side, p) ==> BatchSum(batch, side, p, false) == 0.0
  {
    SharedSumsAt(batch, side, p);
    NoReset(batch, instrument, side, p);
    assert batch[0..] == batch;
    if !OnLevel(batch, side, p) {
      BatchSumOff(batch, side, p, false);
    }
  }

  lemma {:induction false} NoReset(batch: seq<CancelledOrder>, instrument: string, side: Side, p: Price)
    requires forall c :: c in batch ==> c.instrument == instrument
    ensures LastReset(batch, side, p) == 0
  {
    if batch != [] {
      var init, last := batch[..|batch| - 1], batch[|batch| - 1];
      assert last in batch && forall c :: c in init ==> c in batch;
      NoReset(init, instrument, side, p);
      if init != [] {
        assert init[0] in init;
      }
    }
  }

  /** The orders of a batch on one instrument, or on all others. */
  function Of(batch: seq<CancelledOrder>, instrument: string, own: bool): seq<CancelledOrder> {
    if batch == [] then []
    else (if (batch[0].instrument == instrument) == own then [batch[0]] else []) + Of(batch[1..], instrument, own)
  }

  lemma {:induction false} OfSum(batch: seq<CancelledOrder>, instrument: string, side: Side, p: Price)
    ensures BatchSum(batch, side, p, false) ==
      BatchSum(Of(batch, instrument, true), side, p, false) + BatchSum(Of(batch, instrument, false), side, p, false)
  {
    if batch != [] {
      OfSum(batch[1..], instrument, side, p);
      var first, own := [batch[0]], batch[0].instrument == instrument;
      BatchSumConcat(first, Of(batch[1..], instrument, own), side, p, false);
      BatchSumConcat(first, batch[1..], side, p, false);
      assert first + batch[1..] == batch;
      assert [] + Of(batch[1..], instrument, !own) == Of(batch[1..], instrument, !own);
    }
  }

  lemma {:induction false} OfConcat(a: seq<CancelledOrder>, b: seq<CancelledOrder>, instrument: string, own: bool)
    ensures Of(a + b, instrument, own) == Of(a, instrument, own) + Of(b, instrument, own)
  {
    if a == [] {
      assert a + b == b;
    } else {
      assert (a + b)[1..] == a[1..] + b;
      OfConcat(a[1..], b, instrument, own);
    }
  }

  lemma {:induction false} OfMembers(batch: seq<CancelledOrder>, instrument: string, own: bool)
    ensures forall c :: c in Of(batch, instrument, own) ==> c in batch
  {
    if batch != [] {
      OfMembers(batch[1..], instrument, own);
    }
  }

  /** So a level's entry is what one instrument cancelled there if and only if that instrument
      cancelled there, if any did, and what the others cancelled there since the last
      overwriting makes up for what it had cancelled there before. */
  lemma OwnSumsIff(batch: seq<CancelledOrder>, instrument: string, side: Side, p: Price)
    ensures var own, r := Of(batch, instrument, true), LastReset(batch, side, p);
      Get(SideView(SharedSums(batch), side), p) ==
        (if OnLevel(own, side, p) then Some(BatchSum(own, side, p, false)) else None)
      <==>
      && (OnLevel(batch, side, p) ==> OnLevel(own, side, p))
      && BatchSum(Of(batch[r..], instrument, false), side, p, false) ==
           BatchSum(Of(batch[..r], instrument, true), side, p, false)
  {
    hide SharedSums, SideView, OnLevel, BatchSum, Of, LastReset;
    var own, r := Of(batch, instrument, true), LastReset(batch, side, p);
    SharedSumsAt(batch, side, p);
    OfSum(batch[r..], instrument, side, p);
    assert batch[..r] + batch[r..] == batch;
    OfConcat(batch[..r], batch[r..], instrument, true);
    BatchSumConcat(Of(batch[..r], instrument, true), Of(batch[r..], instrument, true), side, p, false);
    if !OnLevel(batch, side, p) {
      assert batch[0..|batch|] == batch;
      OffLevelPart(batch, 0, |batch|, instrument, true, side, p);
      OffLevelPart(batch, 0, r, instrument, true, side, p);
      OffLevelPart(batch, r, |batch|, instrument, false, side, p);
    }
  }

  lemma OffLevelPart(batch: seq<CancelledOrder>, from: nat, to: nat, instrument: string, own: bool, side: Side, p: Price)
    requires from <= to <= |batch| && !OnLevel(batch, side, p)
    ensures !OnLevel(Of(batch[from..to], instrument, own), side, p)
    ensures BatchSum(Of(batch[from..to], instrument, own), side, p, false) == 0.0
  {
    var part := Of(batch[from..to], instrument, own);
    OfMembers(batch[from..to], instrument, own);
    assert forall c :: c in part ==> c in batch;
    BatchSumOff(part, side, p, false);
  }

  /** The orders of a batch on the instruments of a series, which share a book: the call and the
      put of one strike. */
  function Mine(batch: seq<CancelledOrder>, series: set<string>): seq<CancelledOrder> {
    if batch == [] then []
    else (if batch[0].instrument in series then [batch[0]] else []) + Mine(batch[1..], series)
  }

  lemma {:induction false} AllMine(batch: seq<CancelledOrder>, series: set<string>)
    requires forall c :: c in batch ==> c.instrument in series
    ensures Mine(batch, series) == batch
  {
    if batch != [] {
      assert batch[0] in batch && forall c :: c in batch[1..] ==> c in batch;
      AllMine(batch[1..], series);
    }
  }

  ghost predicate OpenBatch(own: seq<CancelledOrder>) {
    forall c :: c in own ==> IsOpen(c.order) && OpenAmount(c.order) > 0.0 && c.order.filled >= 0.0
  }

  lemma {:induction false} CancelShift(batch: seq<CancelledOrder>, t: int, later: int, side: Side, p: Price)
    requires forall c :: c in batch ==> IsOpen(c.order) && c.order.updatedAt < later
    ensures Shift(Cancels(batch, t), side, p, later) ==
      BatchSum(batch, side, p, true) - BatchSum(batch, side, p, false)
  {
    if batch != [] {
      assert batch[0] in batch;
      assert forall c :: c in batch[1..] ==> c in batch;
      CancelShift(batch[1..], t, later, side, p);
      assert Cancels(batch, t)[1..] == Cancels(batch[1..], t);
    }
  }

  lemma {:induction false} BatchSumSigns(batch: seq<CancelledOrder>, side: Side, p: Price)
    requires forall c :: c in batch ==> OpenAmount(c.order) > 0.0 && c.order.filled >= 0.0
    ensures BatchSum(batch, side, p, true) >= 0.0
    ensures BatchSum(batch, side, p, false) >= BatchSum(batch, side, p, true)
    ensures OnLevel(batch, side, p) <==> BatchSum(batch, side, p, false) > BatchSum(batch, side, p, true)
    ensures BatchSum(batch, side, p, true) == 0.0 <==>
      forall c :: c in batch && c.order.side == side && c.order.price == p ==> c.order.filled == 0.0
  {
    if batch != [] {
      assert batch[0] in batch;
      assert forall c :: c in batch <==> c == batch[0] || c in batch[1..];
      BatchSumSigns(batch[1..], side, p);
    }
  }

  lemma {:induction false} CancelsMembers(batch: seq<CancelledOrder>, t: int)
    ensures forall c :: c in batch ==> Cancel(c.order, t) in Cancels(batch, t)
  {
    if batch != [] {
      CancelsMembers(batch[1..], t);
      assert forall c :: c in batch <==> c == batch[0] || c in batch[1..];
    }
  }

  lemma ObservedSide(db: seq<Order>, cut: int, rev: Revision, later: int, snap: Snapshot, side: Side)
    requires Observed(db, cut, rev, later, snap)
    ensures Sound(db) && Sound(After(db, rev))
    ensures var levels := if side == Buy then snap.bids else snap.asks;
      Distinct(levels) && forall p :: Quote(levels, p) == Get(BookOf(After(db, rev), side, later), p)
  {
  }

  lemma BatchVanished(db: seq<Order>, cut: int, own: seq<CancelledOrder>, t: int, later: int,
                      snap: Snapshot, side: Side, p: Price)
    requires OpenBatch(own)
    requires Observed(db, cut, CancelAll(own, t), later, snap)
    ensures var left := Left(db, CancelAll(own, t), later, side, p);
      && left == LevelSum(After(db, CancelAll(own, t)), side, p, later) >= 0.0
      && LevelSum(db, side, p, cut) == left + BatchSum(own, side, p, false) - BatchSum(own, side, p, true)
      && (OnLevel(own, side, p) <==> BatchSum(own, side, p, false) > BatchSum(own, side, p, true))
      && BatchSum(own, side, p, false) >= BatchSum(own, side, p, true)
      && (Vanished(db, cut, After(db, CancelAll(own, t)), later, side, p) <==> OnLevel(own, side, p) && left == 0.0)
  {
    CancelsMembers(own, t);
    forall c | c in own ensures c.order.updatedAt < later {
      assert Cancel(c.order, t).was in db;
    }
    CancelShift(own, t, later, side, p);
    BatchSumSigns(own, side, p);
    LevelMoves(db, cut, CancelAll(own, t), later, snap, side, p);
  }

  /** The shared maps' entry for a level, as `SharedSumsAt` gives it. */
  function Entry(batch: seq<CancelledOrder>, side: Side, p: Price): Option<Amount> {
    if OnLevel(batch, side, p) then Some(BatchSum(batch[LastReset(batch, side, p)..], side, p, false)) else None
  }

  /** What the batch handler infers at one price, and what really happened there. */
  lemma BatchLevel(db: seq<Order>, cut: int, batch: seq<CancelledOrder>, own: seq<CancelledOrder>, t: int, later: int,
                   snap: Snapshot, side: Side, p: Price)
    requires OpenBatch(own)
    requires Observed(db, cut, CancelAll(own, t), later, snap)
    ensures var gone := SideGone(GoneFor(BookViews(db, cut), snap, Batch(SharedSums(batch))), side);
      var sum, left := LevelSum(db, side, p, cut), Left(db, CancelAll(own, t), later, side, p);
      && left >= 0.0 && (OnLevel(own, side, p) ==> sum > 0.0)
      && (Vanished(db, cut, After(db, CancelAll(own, t)), later, side, p) <==> OnLevel(own, side, p) && left == 0.0)
      && (p in gone <==>
          sum > 0.0 && (OnLevel(own, side, p) ==> left == 0.0) && Entry(batch, side, p) == Some(sum))
  {
    hide *;
    var rev, levels := CancelAll(own, t), if side == Buy then snap.bids else snap.asks;
    var view, cancelled := BookOf(db, side, cut), SideView(SharedSums(batch), side);
    BatchVanished(db, cut, own, t, later, snap, side, p);
    EntryAt(batch, side, p);
    ObservedSide(db, cut, rev, later, snap, side);
    BookAt(db, side, cut, p);
    BookAt(After(db, rev), side, later, p);
    BatchGoneSide(db, cut, snap, SharedSums(batch), side);
    BatchGoneAt(view, cancelled, levels, p);
    NamedByEntry(view, cancelled, levels, p, LevelSum(db, side, p, cut), Left(db, rev, later, side, p));
  }

  lemma EntryAt(batch: seq<CancelledOrder>, side: Side, p: Price)
    ensures Get(SideView(SharedSums(batch), side), p) == Entry(batch, side, p)
  {
    SharedSumsAt(batch, side, p);
  }

  lemma BatchGoneSide(db: seq<Order>, cut: int, snap: Snapshot, c: Views, side: Side)
    ensures SideGone(GoneFor(BookViews(db, cut), snap, Batch(c)), side) ==
      BatchGone(BookOf(db, side, cut), SideView(c, side),
                Prices(DiffRows(BookOf(db, side, cut), if side == Buy then snap.bids else snap.asks)))
  {
  }

  lemma NamedByEntry(view: View, cancelled: View, levels: seq<Level>, p: Price, sum: Amount, left: Amount)
    requires sum >= left >= 0.0
    requires Get(view, p) == if sum == 0.0 then None else Some(sum)
    requires Quote(levels, p) == if left == 0.0 then None else Some(left)
    ensures (!Written(view, levels, p) && !Erased(view, levels, p) && Get(view, p).Some? && Get(view, p) == Get(cancelled, p))
      <==> sum > 0.0 && (left < sum ==> left == 0.0) && Get(cancelled, p) == Some(sum)
  {
  }

  lemma BatchGoneAt(view: View, cancelled: View, levels: seq<Level>, p: Price)
    requires Distinct(levels)
    ensures p in BatchGone(view, cancelled, Prices(DiffRows(view, levels))) <==>
      && !Written(view, levels, p) && !Erased(view, levels, p)
      && Get(view, p).Some? && Get(view, p) == Get(cancelled, p)
  {
    DiffAt(view, levels, view, p);
  }

  /** The entry says the right thing of a listed level: if the book's own cancels emptied it, the
      entry is its stored amount; and if they left it alone, the entry is not. */
  ghost predicate EntryRight(db: seq<Order>, cut: int, batch: seq<CancelledOrder>, own: seq<CancelledOrder>,
                             t: int, later: int, side: Side, p: Price) {
    var sum := LevelSum(db, side, p, cut);
    sum > 0.0 ==>
      if OnLevel(own, side, p) then
        Left(db, CancelAll(own, t), later, side, p) == 0.0 ==> Entry(batch, side, p) == Some(sum)
      else Entry(batch, side, p) != Some(sum)
  }

  /** Batch cancel, for every batch over any instruments: applying the rows published for an
      instrument to its old book gives exactly the new one if and only if, on each listed level,
      the shared entry is the stored amount where the batch's orders of that book emptied the
      level, and is not where they left it alone. */
  lemma BatchExact(db: seq<Order>, cut: int, batch: seq<CancelledOrder>, series: set<string>, t: int, later: int,
                   snap: Snapshot, bids: seq<Row>, asks: seq<Row>, next: Views)
    requires OpenBatch(Mine(batch, series))
    requires Observed(db, cut, CancelAll(Mine(batch, series), t), later, snap)
    requires ViewsUpdate(BookViews(db, cut), snap, Batch(SharedSums(batch)), bids, asks, next)
    ensures next == BookViews(After(db, CancelAll(Mine(batch, series), t)), later)
    ensures Exact(db, cut, CancelAll(Mine(batch, series), t), later, bids, asks) <==>
      forall side, p :: EntryRight(db, cut, batch, Mine(batch, series), t, later, side, p)
  {
    var own := Mine(batch, series);
    var rev, cause := CancelAll(own, t), Batch(SharedSums(batch));
    var gone := GoneFor(BookViews(db, cut), snap, cause);
    var emptied := (side: Side, p: Price) =>
      OnLevel(own, side, p) && Left(db, rev, later, side, p) == 0.0;
    var named := (side: Side, p: Price) =>
      var sum := LevelSum(db, side, p, cut);
      sum > 0.0 && (OnLevel(own, side, p) ==> Left(db, rev, later, side, p) == 0.0) && Entry(batch, side, p) == Some(sum);
    forall side, p
      ensures emptied(side, p) <==> Vanished(db, cut, After(db, rev), later, side, p)
      ensures named(side, p) <==> p in SideGone(gone, side)
      ensures (named(side, p) <==> emptied(side, p)) <==> EntryRight(db, cut, batch, own, t, later, side, p)
    {
      BatchLevel(db, cut, batch, own, t, later, snap, side, p);
    }
    DeltaExactBy(db, cut, rev, later, snap, cause, bids, asks, next, named, emptied);
    EachRight(db, cut, batch, own, t, later, named, emptied);
  }

  lemma EachRight(db: seq<Order>, cut: int, batch: seq<CancelledOrder>, own: seq<CancelledOrder>, t: int, later: int,
                  named: (Side, Price) -> bool, emptied: (Side, Price) -> bool)
    requires forall side, p ::
      (named(side, p) <==> emptied(side, p)) <==> EntryRight(db, cut, batch, own, t, later, side, p)
    ensures (forall side, p :: named(side, p) <==> emptied(side, p)) <==>
      forall side, p :: EntryRight(db, cut, batch, own, t, later, side, p)
  {
    hide EntryRight;
    if forall side, p :: EntryRight(db, cut, batch, own, t, later, side, p) {
      forall side, p ensures named(side, p) <==> emptied(side, p) {
        assert EntryRight(db, cut, batch, own, t, later, side, p);
      }
    }
  }

  /** For a batch on one instrument the entries are right if and only if every cancelled order on
      a level the batch emptied had nothing filled; so always when nothing was filled. */
  lemma OneInstrumentRight(db: seq<Order>, cut: int, batch: seq<CancelledOrder>, instrument: string, t: int, later: int,
                           snap: Snapshot)
    requires OpenBatch(batch) && forall c :: c in batch ==> c.instrument == instrument
    requires Observed(db, cut, CancelAll(batch, t), later, snap)
    ensures (forall side, p :: EntryRight(db, cut, batch, batch, t, later, side, p)) <==>
      forall c :: c in batch && Left(db, CancelAll(batch, t), later, c.order.side, c.order.price) == 0.0
        ==> c.order.filled == 0.0
  {
    forall side, p
      ensures EntryRight(db, cut, batch, batch, t, later, side, p) <==>
        (OnLevel(batch, side, p) && Left(db, CancelAll(batch, t), later, side, p) == 0.0 ==> BatchSum(batch, side, p, true) == 0.0)
    {
      OneInstrumentLevel(db, cut, batch, instrument, t, later, snap, side, p);
    }
    BatchUnfilled(db, batch, t, later);
  }

  lemma OneInstrumentLevel(db: seq<Order>, cut: int, batch: seq<CancelledOrder>, instrument: string, t: int, later: int,
                           snap: Snapshot, side: Side, p: Price)
    requires OpenBatch(batch) && forall c :: c in batch ==> c.instrument == instrument
    requires Observed(db, cut, CancelAll(batch, t), later, snap)
    ensures EntryRight(db, cut, batch, batch, t, later, side, p) <==>
      (OnLevel(batch, side, p) && Left(db, CancelAll(batch, t), later, side, p) == 0.0 ==> BatchSum(batch, side, p, true) == 0.0)
  {
    hide OnLevel, Entry, Left, LevelSum, BatchSum, SharedSums, SideView, CancelAll, Observed, Vanished;
    BatchSumSigns(batch, side, p);
    BatchVanished(db, cut, batch, t, later, snap, side, p);
    OneInstrumentSums(batch, instrument, side, p);
    EntryAt(batch, side, p);
  }

  lemma {:induction false} DiffRowsOnce(view: View, levels: seq<Level>)
    requires Distinct(levels)
    ensures forall i, j :: 0 <= i < j < |DiffRows(view, levels)| ==>
      DiffRows(view, levels)[i].price != DiffRows(view, levels)[j].price
  {
    if levels != [] {
      var init, last := levels[..|levels| - 1], levels[|levels| - 1];
      DiffRowsOnce(view, init);
      DiffAt(view, init, view, last.price);
      QuoteSome(init, last.price);
      forall i | 0 <= i < |DiffRows(view, init)| ensures DiffRows(view, init)[i].price != last.price {
        assert DiffRows(view, init)[i] in DiffRows(view, init);
      }
    }
  }

  /** No price appears twice on a side of a batch's message. */
  lemma BatchRowsOnce(view: View, levels: seq<Level>, cancelled: View, rows: seq<Row>, next: View)
    requires Distinct(levels)
    requires SideUpdate(view, levels, BatchGone(view, cancelled, Prices(DiffRows(view, levels))), rows, next)
    ensures forall i, j :: 0 <= i < j < |rows| ==> rows[i].price != rows[j].price
  {
    DiffRowsOnce(view, levels);
    var n := |DiffRows(view, levels)|;
    forall i, j | 0 <= i < j < |rows| ensures rows[i].price != rows[j].price {
      if j < n {
        assert rows[i] == rows[..n][i] && rows[j] == rows[..n][j];
      } else if n <= i {
        assert rows[i] == rows[n..][i - n] && rows[j] == rows[n..][j - n];
      } else {
        assert rows[i] == rows[..n][i] && rows[i] in rows[..n];
        assert rows[j] == rows[n..][j - n] && rows[j] in rows[n..];
        assert rows[i].price in Prices(rows[..n]) && rows[j].price in Prices(rows[n..]);
      }
    }
  }

  lemma BatchUnfilled(db: seq<Order>, batch: seq<CancelledOrder>, t: int, later: int)
    requires forall c :: c in batch ==> OpenAmount(c.order) > 0.0 && c.order.filled >= 0.0
    ensures
      (forall c :: c in batch && Left(db, CancelAll(batch, t), later, c.order.side, c.order.price) == 0.0
                   ==> c.order.filled == 0.0)
      <==>
      (forall side, p :: OnLevel(batch, side, p) && Left(db, CancelAll(batch, t), later, side, p) == 0.0
                         ==> BatchSum(batch, side, p, true) == 0.0)
  {
    var rev := CancelAll(batch, t);
    forall side, p
      ensures BatchSum(batch, side, p, true) == 0.0 <==>
        forall c :: c in batch && c.order.side == side && c.order.price == p ==> c.order.filled == 0.0
    {
      BatchSumSigns(batch, side, p);
    }
    if forall side, p :: OnLevel(batch, side, p) && Left(db, rev, later, side, p) == 0.0
        ==> BatchSum(batch, side, p, true) == 0.0 {
      forall c | c in batch && Left(db, rev, later, c.order.side, c.order.price) == 0.0
        ensures c.order.filled == 0.0
      {
        assert OnLevel(batch, c.order.side, c.order.price);
      }
    }
  }

  // ---------- messages ----------

  lemma DeletesExist(gone: set<Price>) returns (tail: seq<Row>)
    ensures Deletes(tail, gone)
    decreases gone
  {
    if gone == {} {
      tail := [];
    } else {
      SomeMember(gone);
      var p :| p in gone;
      tail := DeletesExist(gone - {p});
      DeletesOne(tail, gone - {p}, p);
      tail := tail + [Row(Delete, p, 0.0)];
      assert gone - {p} + {p} == gone;
    }
  }

  lemma SideExists(view: View, levels: seq<Level>, gone: set<Price>) returns (rows: seq<Row>)
    ensures SideUpdate(view, levels, gone, rows, DiffView(view, levels))
  {
    var tail := DeletesExist(gone);
    rows := DiffRows(view, levels) + tail;
    assert rows[|DiffRows(view, levels)|..] == tail;
  }

  /** Every handler call has a message. */
  lemma MessageExists(view: Views, snap: Snapshot, cause: Cause) returns (bids: seq<Row>, asks: seq<Row>, next: Views)
    ensures ViewsUpdate(view, snap, cause, bids, asks, next)
  {
    var gone := GoneFor(view, snap, cause);
    bids := SideExists(view.bids, snap.bids, gone.bids);
    asks := SideExists(view.asks, snap.asks, gone.asks);
    next := Views(DiffView(view.bids, snap.bids), DiffView(view.asks, snap.asks));
  }

  /** Every book has an answer. */
  lemma SnapshotExists(view: View) returns (levels: seq<Level>)
    ensures Answers(levels, view)
    decreases view.Keys
  {
    if view.Keys == {} {
      levels := [];
      assert view == map[];
    } else {
      SomeMember(view.Keys);
      var p :| p in view.Keys;
      var rest := SnapshotExists(view - {p});
      levels := rest + [Level(p, view[p])];
      assert levels[..|levels| - 1] == rest;
      forall i | 0 <= i < |rest| ensures rest[i].price != p {
        QuoteSome(rest, rest[i].price);
        assert Quote(rest, rest[i].price) == Get(view - {p}, rest[i].price);
      }
    }
  }
}
