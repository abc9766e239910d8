/** Runs in which each published event is, in its effect on the levels, the only one since the
    previous query of its channel: then the client is right if and only if the orders of each
    event meet a condition of their own. */
module PromptEvents {
  import opened Options
  import opened Delta
  import opened Book
  import opened Feed
  import opened BookEvents
  import opened MarketRuns

  ghost predicate Plausible(e: Event, later: int) {
    match e.what
    case Arrive(taker, fills) => Arrived(taker, fills) && e.written < later
    case CancelOne(o, _) => IsOpen(o)
    case EditOne(o, price, amount, _, last) =>
      IsOpen(o) && e.written < later && amount - o.filled > 0.0 && Recorded(o, price, last)
    case CancelMany(batch, series) => OpenBatch(Mine(batch, series))
    case Other(_, _) => false
  }

  /** The condition under which the message of an event is right, from the orders alone. */
  ghost predicate Faithful(db: seq<Order>, cut: int, e: Event, later: int) {
    match e.what
    case Arrive(taker, fills) =>
      var emptiesNone := forall f :: f in fills ==> Left(db, RevisionOf(e), later, f.maker.side, f.maker.price) > 0.0;
      (match taker.status
       case Filled =>
         || (forall f :: f in fills ==> f.maker.price == taker.price)
         || (emptiesNone && LevelSum(db, Opposite(taker.side), taker.price, cut) != taker.amount)
       case Cancelled => emptiesNone && LevelSum(db, taker.side, taker.price, cut) != taker.amount
       case _ => emptiesNone)
    case CancelOne(o, _) =>
      var left := Left(db, RevisionOf(e), later, o.side, o.price);
      left == o.filled <==> left == 0.0
    case EditOne(o, price, _, _, _) =>
      price == o.price || Left(db, RevisionOf(e), later, o.side, o.price) == 0.0
    case CancelMany(batch, series) =>
      forall side, p :: EntryRight(db, cut, batch, Mine(batch, series), e.written, later, side, p)
    case Other(_, _) => true
  }

  /** Beside the event, nothing saved between the two queries empties a listed level or refills
      one that the event empties; nor, where a batch's entry is the stored amount, does it bring
      the level to that amount or take it off. The database may have changed otherwise. */
  ghost predicate AloneOn(q: Query, e: Event, db: seq<Order>, ts: int, side: Side, p: Price) {
    var was, alone, now :=
      LevelSum(q.db, side, p, q.at), LevelSum(After(q.db, RevisionOf(e)), side, p, ts), LevelSum(db, side, p, ts);
    was > 0.0 ==>
      && (now == 0.0 <==> alone == 0.0)
      && (e.what.CancelMany? && Entry(e.what.batch, side, p) == Some(was) ==> (now == was <==> alone == was))
  }

  ghost predicate Alone(q: Query, e: Event, db: seq<Order>, ts: int) {
    && Plausible(e, ts) && q.at <= ts
    && Fits(q.db, RevisionOf(e).rewritten) && Settled(q.db, q.at)
    && Sound(After(q.db, RevisionOf(e))) && Settled(After(q.db, RevisionOf(e)), ts)
    && forall side, p :: AloneOn(q, e, db, ts, side, p)
  }

  lemma EventExact(db: seq<Order>, cut: int, e: Event, later: int, snap: Snapshot,
                   bids: seq<Row>, asks: seq<Row>, next: Views)
    requires Plausible(e, later) && Observed(db, cut, RevisionOf(e), later, snap)
    requires ViewsUpdate(BookViews(db, cut), snap, CauseOf(e), bids, asks, next)
    ensures Exact(db, cut, RevisionOf(e), later, bids, asks) <==> Faithful(db, cut, e, later)
  {
    match e.what
    case Arrive(taker, fills) => ArrivalExact(db, cut, taker, fills, e.written, later, snap, bids, asks, next);
    case CancelOne(o, amendments) => CancelExact(db, cut, o, e.written, later, snap, amendments, bids, asks, next);
    case EditOne(o, price, amount, earlier, last) =>
      EditExact(db, cut, o, price, amount, e.written, later, snap, earlier, last, bids, asks, next);
    case CancelMany(batch, series) =>
      BatchExact(db, cut, batch, series, e.written, later, snap, bids, asks, next);
  }

  /** The event seen by itself. */
  lemma ByItself(q: Query, e: Event, db: seq<Order>, ts: int) returns (snap: Snapshot)
    requires Alone(q, e, db, ts) && Sound(q.db)
    ensures Observed(q.db, q.at, RevisionOf(e), ts, snap)
    ensures Queried(q.db, After(q.db, RevisionOf(e)), ts, snap)
    ensures Announced(q.db, q.at, After(q.db, RevisionOf(e)), ts, snap, CauseOf(e)) <==> Faithful(q.db, q.at, e, ts)
  {
    hide Announced, Faithful, ViewsUpdate, Answers, Exact, AloneOn;
    var alone := After(q.db, RevisionOf(e));
    var bids := SnapshotExists(BookOf(alone, Buy, ts));
    var asks := SnapshotExists(BookOf(alone, Sell, ts));
    snap := Snapshot(bids, asks);
    var bidRows, askRows, next := MessageExists(BookViews(q.db, q.at), snap, CauseOf(e));
    DeltaExact(q.db, q.at, alone, ts, snap, CauseOf(e), bidRows, askRows, next);
    EventExact(q.db, q.at, e, ts, snap, bidRows, askRows, next);
    ExactMeans(q.db, q.at, RevisionOf(e), ts, bidRows, askRows);
  }

  lemma ExactMeans(db: seq<Order>, cut: int, rev: Revision, later: int, bids: seq<Row>, asks: seq<Row>)
    ensures Exact(db, cut, rev, later, bids, asks) <==>
      Views(Apply(BookOf(db, Buy, cut), bids), Apply(BookOf(db, Sell, cut), asks)) == BookViews(After(db, rev), later)
  {
  }

  /** What a batch's message deletes at a price depends on the queried book at that price only. */
  lemma SameBatchGone(before: seq<Order>, cut: int, after: seq<Order>, after': seq<Order>, later: int,
                      snap: Snapshot, snap': Snapshot, batch: seq<CancelledOrder>, side: Side, p: Price)
    requires Queried(before, after, later, snap) && Queried(before, after', later, snap')
    requires var was, now, now' :=
        LevelSum(before, side, p, cut), LevelSum(after, side, p, later), LevelSum(after', side, p, later);
      was > 0.0 ==> (now == 0.0 <==> now' == 0.0) && (Entry(batch, side, p) == Some(was) ==> (now == was <==> now' == was))
    ensures p in SideGone(GoneFor(BookViews(before, cut), snap, Batch(SharedSums(batch))), side) <==>
      p in SideGone(GoneFor(BookViews(before, cut), snap', Batch(SharedSums(batch))), side)
  {
    hide SharedSums, Entry, LevelSum, Sound, BookOf;
    var view, cancelled := BookOf(before, side, cut), SideView(SharedSums(batch), side);
    var levels, levels' := SideLevels(snap, side), SideLevels(snap', side);
    BookAt(before, side, cut, p);
    BookAt(after, side, later, p);
    BookAt(after', side, later, p);
    EntryAt(batch, side, p);
    BatchGoneSide(before, cut, snap, SharedSums(batch), side);
    BatchGoneSide(before, cut, snap', SharedSums(batch), side);
    BatchGoneAt(view, cancelled, levels, p);
    BatchGoneAt(view, cancelled, levels', p);
    assert Quote(levels, p) == Get(BookOf(after, side, later), p);
    assert Quote(levels', p) == Get(BookOf(after', side, later), p);
  }

  function SideLevels(snap: Snapshot, side: Side): seq<Level> {
    if side == Buy then snap.bids else snap.asks
  }

  /** The message of an event that was alone is right if and only if the event is faithful. */
  lemma AloneRight(q: Query, e: Event, db: seq<Order>, ts: int, snap: Snapshot)
    requires Alone(q, e, db, ts) && Queried(q.db, db, ts, snap)
    ensures Announced(q.db, q.at, db, ts, snap, CauseOf(e)) <==> Faithful(q.db, q.at, e, ts)
  {
    var snap' := ByItself(q, e, db, ts);
    var alone := After(q.db, RevisionOf(e));
    var gone, gone' := GoneFor(BookViews(q.db, q.at), snap, CauseOf(e)), GoneFor(BookViews(q.db, q.at), snap', CauseOf(e));
    forall side, p
      ensures Vanished(q.db, q.at, db, ts, side, p) <==> Vanished(q.db, q.at, alone, ts, side, p)
      ensures p in SideGone(gone, side) <==> p in SideGone(gone', side)
    {
      assert AloneOn(q, e, db, ts, side, p);
      if e.what.CancelMany? {
        SameBatchGone(q.db, q.at, db, alone, ts, snap, snap', e.what.batch, side, p);
      }
    }
    hide Vanished, GoneFor, Faithful, Alone, Queried, Observed;
    SameAnnounced(q.db, q.at, db, alone, ts, snap, snap', CauseOf(e));
  }

  lemma SameAnnounced(before: seq<Order>, cut: int, after: seq<Order>, after': seq<Order>, later: int,
                      snap: Snapshot, snap': Snapshot, cause: Cause)
    requires forall side, p ::
      Vanished(before, cut, after, later, side, p) <==> Vanished(before, cut, after', later, side, p)
    requires forall side, p :: p in SideGone(GoneFor(BookViews(before, cut), snap, cause), side) <==>
      p in SideGone(GoneFor(BookViews(before, cut), snap', cause), side)
    ensures Announced(before, cut, after, later, snap, cause) <==> Announced(before, cut, after', later, snap', cause)
  {
    hide Vanished, GoneFor, BookViews;
    var gone, gone' := GoneFor(BookViews(before, cut), snap, cause), GoneFor(BookViews(before, cut), snap', cause);
    forall p
      ensures p in gone.bids <==> p in gone'.bids
      ensures p in gone.asks <==> p in gone'.asks
    {
      assert p in SideGone(gone, Buy) <==> p in SideGone(gone', Buy);
      assert p in SideGone(gone, Sell) <==> p in SideGone(gone', Sell);
    }
    assert gone.bids == gone'.bids && gone.asks == gone'.asks;
  }

  // ---------- runs ----------

  /** Each message of the channel is that of an event that was alone. */
  ghost predicate AllAlone(ks: seq<Market>, ms: seq<Move>, es: seq<Event>, ch: Channel, n: nat)
    requires n <= |ms| == |es| && |ks| == |ms| + 1
  {
    forall i :: 0 <= i < n && Publishes(ks[i], ms[i], ch).Some? ==>
      && Publishes(ks[i], ms[i], ch) == Some(CauseOf(es[i]))
      && Alone(QueryOf(ks[i], ch), es[i], ks[i].db, ms[i].ts)
  }

  ghost predicate FaithfulAt(ks: seq<Market>, ms: seq<Move>, es: seq<Event>, ch: Channel, i: nat)
    requires i < |ms| == |es| && |ks| == |ms| + 1
  {
    if Publishes(ks[i], ms[i], ch).Some? then Faithful(QueryOf(ks[i], ch).db, QueryOf(ks[i], ch).at, es[i], ms[i].ts)
    else SeedsBy(ks[i], ms[i], ch) ==> BookViews(ks[i].db, ms[i].ts) == NOTHING
  }

  lemma FaithfulRight(ks: seq<Market>, ms: seq<Move>, es: seq<Event>, ch: Channel, i: nat)
    requires ch != Agg2 && MarketRun(ks, ms) && i < |ms| == |es| && AllAlone(ks, ms, es, ch, i + 1)
    ensures RightAt(ks, ms, ch, i) <==> FaithfulAt(ks, ms, es, ch, i)
  {
    RunStep(ks, ms, i + 1);
    hide MarketRun, MarketStep, Announced, Faithful, Alone, BookViews, SeedsBy;
    if Publishes(ks[i], ms[i], ch).Some? {
      PublishedStep(ks[i], ms[i], ks[i + 1], ch);
      AloneRight(QueryOf(ks[i], ch), es[i], ks[i].db, ms[i].ts, ms[i].snap);
    }
  }

  /** In a run in which each published event was alone in its effect on the levels, the client
      holds the book throughout if and only if every event was faithful, and no subscription
      seeded a book that had levels. */
  lemma HoldsWhenAlone(ks: seq<Market>, ms: seq<Move>, es: seq<Event>, ch: Channel, n: nat)
    requires ch != Agg2 && MarketRun(ks, ms) && n <= |ms| == |es| && AllAlone(ks, ms, es, ch, n)
    ensures AgreesThrough(ks, ch, n) <==> forall i :: 0 <= i < n ==> FaithfulAt(ks, ms, es, ch, i)
  {
    ClientHoldsBook(ks, ms, ch, n);
    forall i | 0 <= i < n ensures RightAt(ks, ms, ch, i) <==> FaithfulAt(ks, ms, es, ch, i) {
      assert AllAlone(ks, ms, es, ch, i + 1);
      FaithfulRight(ks, ms, es, ch, i);
    }
    hide AgreesThrough, RightAt, FaithfulAt, MarketRun, AllAlone;
  }

  /** An event that is the only one saved since the previous query is alone. */
  lemma OnlyEventAlone(ks: seq<Market>, ms: seq<Move>, ch: Channel, n: nat, e: Event, ts: int)
    requires ch != Agg2 && MarketRun(ks, ms) && n <= |ms| && QueryOf(ks[0], ch).db == ks[0].db
    requires Unseen(ks, ms, ch, n) == [e] && QueryOf(ks[n], ch).at <= ts
    requires Plausible(e, ts) && Fits(QueryOf(ks[n], ch).db, RevisionOf(e).rewritten)
    requires Settled(QueryOf(ks[n], ch).db, QueryOf(ks[n], ch).at) && Settled(ks[n].db, ts) && Sound(ks[n].db)
    ensures Alone(QueryOf(ks[n], ch), e, ks[n].db, ts)
  {
    SavedSince(ks, ms, ch, n);
    assert [e][..0] == [];
    assert ks[n].db == After(QueryOf(ks[n], ch).db, RevisionOf(e));
    hide MarketRun, Plausible, Fits, Settled, Sound, After, RevisionOf, LevelSum, Entry;
  }

  // ---------- nothing filled ----------

  /** An event in which nothing is filled, now or before, and nothing is edited. */
  predicate Unfilled(e: Event) {
    match e.what
    case Arrive(taker, fills) => fills == [] && taker.status == Open
    case CancelOne(o, _) => o.filled == 0.0
    case EditOne(_, _, _, _, _) => false
    case CancelMany(batch, series) =>
      forall c :: c in batch ==> c.order.filled == 0.0 && c.instrument == batch[0].instrument && c.instrument in series
    case Other(_, _) => false
  }

  lemma UnfilledFaithful(q: Query, e: Event, db: seq<Order>, ts: int)
    requires Alone(q, e, db, ts) && Sound(q.db) && Unfilled(e)
    ensures Faithful(q.db, q.at, e, ts)
  {
    if e.what.CancelMany? && e.what.batch != [] {
      var batch := e.what.batch;
      var snap := ByItself(q, e, db, ts);
      AllMine(batch, e.what.series);
      OneInstrumentRight(q.db, q.at, batch, batch[0].instrument, e.written, ts, snap);
    } else if e.what.CancelMany? {
      assert Mine(e.what.batch, e.what.series) == [];
    }
  }

  /** So while only such events are published, each alone, and no subscription seeds a book that
      has levels, the client holds the book throughout. */
  lemma HoldsWhileUnfilled(ks: seq<Market>, ms: seq<Move>, es: seq<Event>, ch: Channel, n: nat)
    requires ch != Agg2 && MarketRun(ks, ms) && n <= |ms| == |es| && AllAlone(ks, ms, es, ch, n)
    requires forall i :: 0 <= i < n && Publishes(ks[i], ms[i], ch).Some? ==> Unfilled(es[i])
    requires forall i :: 0 <= i < n && SeedsBy(ks[i], ms[i], ch) ==> BookViews(ks[i].db, ms[i].ts) == NOTHING
    ensures AgreesThrough(ks, ch, n)
  {
    forall i | 0 <= i < n ensures FaithfulAt(ks, ms, es, ch, i) {
      RunStep(ks, ms, i + 1);
      if Publishes(ks[i], ms[i], ch).Some? {
        PublishedStep(ks[i], ms[i], ks[i + 1], ch);
        UnfilledFaithful(QueryOf(ks[i], ch), es[i], ks[i].db, ms[i].ts);
      }
    }
    hide MarketRun, AllAlone, AgreesThrough, FaithfulAt;
    HoldsWhenAlone(ks, ms, es, ch, n);
  }
}
