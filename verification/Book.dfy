/** Open orders and the aggregated book the database query computes from them: group the
    resting orders of a side by price and sum amount minus filled. */
module Book {
  import opened Options
  import opened Delta

  datatype Side = Buy | Sell
  datatype Status = Open | PartiallyFilled | Filled | Cancelled | Rejected

  /** An order of one series (underlying, expiry and strike); the query does not look at
      the contract, so neither does the model. */
  datatype Order = Order(id: nat, side: Side, price: Price, amount: Amount, filled: Amount,
                         status: Status, updatedAt: int)

  predicate IsOpen(o: Order) {
    o.status == Open || o.status == PartiallyFilled
  }

  /** The orders the query aggregates: open, and last updated strictly before `cut`. */
  predicate Resting(o: Order, side: Side, cut: int) {
    IsOpen(o) && o.side == side && o.updatedAt < cut
  }

  function OpenAmount(o: Order): Amount {
    o.amount - o.filled
  }

  function Weight(o: Order, side: Side, p: Price, cut: int): Amount {
    if Resting(o, side, cut) && o.price == p then OpenAmount(o) else 0.0
  }

  function LevelSum(db: seq<Order>, side: Side, p: Price, cut: int): Amount {
    if db == [] then 0.0 else Weight(db[0], side, p, cut) + LevelSum(db[1..], side, p, cut)
  }

  function BookPrices(db: seq<Order>, side: Side, cut: int): set<Price> {
    set o | o in db && Resting(o, side, cut) :: o.price
  }

  function BookOf(db: seq<Order>, side: Side, cut: int): View {
    map p | p in BookPrices(db, side, cut) :: LevelSum(db, side, p, cut)
  }

  /** A query result: the book's levels, each price once, in an order the query leaves open. */
  ghost predicate Answers(levels: seq<Level>, book: View) {
    Distinct(levels) && forall p :: Quote(levels, p) == Get(book, p)
  }

  /** An order the query counts at a price. */
  predicate CountsAt(o: Order, side: Side, p: Price, cut: int) {
    o.status in {Open, PartiallyFilled} && o.side == side && o.price == p && o.updatedAt < cut
  }

  /** What is open of the orders counted at a price, from the last order back. */
  function OpenSum(db: seq<Order>, side: Side, p: Price, cut: int): Amount {
    if db == [] then 0.0
    else
      var o, sum := db[|db| - 1], OpenSum(db[..|db| - 1], side, p, cut);
      if CountsAt(o, side, p, cut) then sum + o.amount - o.filled else sum
  }

  /** The query, on any database: it lists the prices of the orders it counts, each with what is
      open of them, in whatever order they are stored. */
  lemma BookGroups(db: seq<Order>, side: Side, cut: int, p: Price)
    ensures p in BookOf(db, side, cut) <==> exists o :: o in db && CountsAt(o, side, p, cut)
    ensures p in BookOf(db, side, cut) ==> BookOf(db, side, cut)[p] == OpenSum(db, side, p, cut)
  {
    OpenSumIs(db, side, p, cut);
    assert forall o :: CountsAt(o, side, p, cut) <==> Resting(o, side, cut) && o.price == p;
    if p in BookPrices(db, side, cut) {
      var o :| o in db && Resting(o, side, cut) && o.price == p;
      assert CountsAt(o, side, p, cut);
    }
  }

  lemma {:induction false} OpenSumIs(db: seq<Order>, side: Side, p: Price, cut: int)
    ensures LevelSum(db, side, p, cut) == OpenSum(db, side, p, cut)
  {
    if db != [] {
      var init, last := db[..|db| - 1], db[|db| - 1];
      assert db == init + [last];
      OpenSumIs(init, side, p, cut);
      LevelSumConcat(init, [last], side, p, cut);
      assert [last][1..] == [] && LevelSum([last], side, p, cut) == Weight(last, side, p, cut);
    }
  }

  // ---------- databases ----------

  ghost predicate UniqueIds(db: seq<Order>) {
    forall i, j :: 0 <= i < j < |db| ==> db[i].id != db[j].id
  }

  /** Every open order still has something to trade and was filled by a non-negative amount. */
  ghost predicate Sound(db: seq<Order>) {
    forall o :: o in db && IsOpen(o) ==> OpenAmount(o) > 0.0 && o.filled >= 0.0
  }

  ghost predicate Settled(db: seq<Order>, cut: int) {
    forall o :: o in db && IsOpen(o) ==> o.updatedAt < cut
  }

  lemma {:induction false} LevelSumSign(db: seq<Order>, side: Side, p: Price, cut: int)
    requires Sound(db)
    ensures LevelSum(db, side, p, cut) >= 0.0
    ensures LevelSum(db, side, p, cut) > 0.0 <==> p in BookPrices(db, side, cut)
  {
    if db != [] {
      LevelSumSign(db[1..], side, p, cut);
      assert forall o :: o in db <==> o == db[0] || o in db[1..];
    }
  }

  lemma {:induction false} LevelSumAtLeast(db: seq<Order>, o: Order, cut: int)
    requires Sound(db) && o in db && Resting(o, o.side, cut)
    ensures LevelSum(db, o.side, o.price, cut) >= OpenAmount(o)
  {
    assert forall x :: x in db <==> x == db[0] || x in db[1..];
    if o in db[1..] {
      LevelSumAtLeast(db[1..], o, cut);
    } else {
      LevelSumSign(db[1..], o.side, o.price, cut);
    }
  }

  /** In a sound database a price is in the book exactly when its sum is positive. */
  lemma BookAt(db: seq<Order>, side: Side, cut: int, p: Price)
    requires Sound(db)
    ensures var sum := LevelSum(db, side, p, cut);
      sum >= 0.0 && Get(BookOf(db, side, cut), p) == if sum == 0.0 then None else Some(sum)
  {
    LevelSumSign(db, side, p, cut);
  }

  lemma {:induction false} SettledSum(db: seq<Order>, side: Side, p: Price, cut: int, later: int)
    requires Settled(db, cut) && cut <= later
    ensures LevelSum(db, side, p, cut) == LevelSum(db, side, p, later)
  {
    if db != [] {
      assert db[0] in db;
      assert forall o :: o in db[1..] ==> o in db;
      SettledSum(db[1..], side, p, cut, later);
    }
  }

  // ---------- changes to the database ----------

  /** One record rewritten: a cancel, an edit, or a fill. */
  datatype Update = Update(was: Order, now: Order)

  function Replace(db: seq<Order>, now: Order): (r: seq<Order>)
    ensures |r| == |db|
    ensures forall i :: 0 <= i < |db| ==> r[i] == if db[i].id == now.id then now else db[i]
  {
    if db == [] then []
    else [if db[0].id == now.id then now else db[0]] + Replace(db[1..], now)
  }

  function ReplaceAll(db: seq<Order>, updates: seq<Update>): seq<Order>
    decreases |updates|
  {
    if updates == [] then db else ReplaceAll(Replace(db, updates[0].now), updates[1..])
  }

  ghost predicate Fits(db: seq<Order>, updates: seq<Update>) {
    && UniqueIds(db)
    && (forall u :: u in updates ==> u.was in db && u.was.id == u.now.id)
    && forall i, j :: 0 <= i < j < |updates| ==> updates[i].was.id != updates[j].was.id
  }

  function Shift(updates: seq<Update>, side: Side, p: Price, cut: int): Amount {
    if updates == [] then 0.0
    else Weight(updates[0].now, side, p, cut) - Weight(updates[0].was, side, p, cut)
         + Shift(updates[1..], side, p, cut)
  }

  lemma {:induction false} ReplaceIdle(db: seq<Order>, now: Order)
    requires forall o :: o in db ==> o.id != now.id
    ensures Replace(db, now) == db
  {
  }

  lemma {:induction false} ReplaceSum(db: seq<Order>, u: Update, side: Side, p: Price, cut: int)
    requires UniqueIds(db) && u.was in db && u.was.id == u.now.id
    ensures LevelSum(Replace(db, u.now), side, p, cut) ==
      LevelSum(db, side, p, cut) + Weight(u.now, side, p, cut) - Weight(u.was, side, p, cut)
  {
    var rest := db[1..];
    assert forall o :: o in db <==> o == db[0] || o in rest;
    assert Replace(db, u.now)[1..] == Replace(rest, u.now);
    if db[0].id == u.now.id {
      assert db[0] == u.was by {
        var i :| 0 <= i < |db| && db[i] == u.was;
      }
      ReplaceIdle(rest, u.now);
    } else {
      ReplaceSum(rest, u, side, p, cut);
    }
  }

  lemma FitsRest(db: seq<Order>, updates: seq<Update>)
    requires Fits(db, updates) && updates != []
    ensures Fits(Replace(db, updates[0].now), updates[1..])
  {
    var db' := Replace(db, updates[0].now);
    forall u | u in updates[1..] ensures u.was in db' {
      assert u in updates;
      var i :| 0 <= i < |db| && db[i] == u.was;
      var j :| 1 <= j < |updates| && updates[j] == u;
      assert updates[0] in updates;
      assert db'[i] == u.was;
    }
  }

  /** Rewriting records moves each level's sum by exactly what the rewritten records moved. */
  lemma {:induction false} ReplaceAllSum(db: seq<Order>, updates: seq<Update>, side: Side, p: Price, cut: int)
    requires Fits(db, updates)
    ensures LevelSum(ReplaceAll(db, updates), side, p, cut) ==
      LevelSum(db, side, p, cut) + Shift(updates, side, p, cut)
    decreases |updates|
  {
    if updates != [] {
      assert updates[0] in updates;
      ReplaceSum(db, updates[0], side, p, cut);
      FitsRest(db, updates);
      ReplaceAllSum(Replace(db, updates[0].now), updates[1..], side, p, cut);
    }
  }

  /** What happened to the database between two queries: records rewritten and orders added. */
  datatype Revision = Revision(rewritten: seq<Update>, added: seq<Order>)

  function After(db: seq<Order>, rev: Revision): seq<Order> {
    ReplaceAll(db, rev.rewritten) + rev.added
  }

  lemma {:induction false} LevelSumConcat(a: seq<Order>, b: seq<Order>, side: Side, p: Price, cut: int)
    ensures LevelSum(a + b, side, p, cut) == LevelSum(a, side, p, cut) + LevelSum(b, side, p, cut)
  {
    if a == [] {
      assert a + b == b;
    } else {
      assert (a + b)[1..] == a[1..] + b;
      LevelSumConcat(a[1..], b, side, p, cut);
    }
  }

  /** A revision moves each level's sum by the shifts of the rewritten records and by what the
      added orders bring. */
  lemma AfterSum(db: seq<Order>, rev: Revision, side: Side, p: Price, cut: int)
    requires Fits(db, rev.rewritten)
    ensures LevelSum(After(db, rev), side, p, cut) ==
      LevelSum(db, side, p, cut) + Shift(rev.rewritten, side, p, cut) + LevelSum(rev.added, side, p, cut)
  {
    ReplaceAllSum(db, rev.rewritten, side, p, cut);
    LevelSumConcat(ReplaceAll(db, rev.rewritten), rev.added, side, p, cut);
  }
}
