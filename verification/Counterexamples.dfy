/** Inputs on which the feed's messages are wrong: one for each way an event can fail, and a
    run in which handlers lag behind the database. */
module Counterexamples {
  import opened Options
  import opened Delta
  import opened Book
  import opened Feed
  import opened FeedRuns
  import opened BookEvents
  import opened MarketRuns
  import opened PromptEvents

  const EMPTY := Snapshot([], [])

  // ---------- small databases ----------

  lemma SumOfOne(a: Order, side: Side, p: Price, cut: int)
    ensures LevelSum([a], side, p, cut) == Weight(a, side, p, cut)
  {
    assert [a][1..] == [];
  }

  lemma SumOfTwo(a: Order, b: Order, side: Side, p: Price, cut: int)
    ensures LevelSum([a, b], side, p, cut) == Weight(a, side, p, cut) + Weight(b, side, p, cut)
  {
    assert [a, b][1..] == [b];
    SumOfOne(b, side, p, cut);
  }

  lemma NoBook(db: seq<Order>, cut: int)
    requires forall o :: o in db ==> !IsOpen(o)
    ensures BookViews(db, cut) == NOTHING
    ensures Answers([], BookOf(db, Buy, cut)) && Answers([], BookOf(db, Sell, cut))
    ensures forall side, p :: LevelSum(db, side, p, cut) == 0.0
  {
    forall side ensures BookOf(db, side, cut) == map[] {
      assert BookPrices(db, side, cut) == {};
    }
    forall side, p ensures LevelSum(db, side, p, cut) == 0.0 {
      NoSum(db, side, p, cut);
    }
  }

  lemma {:induction false} NoSum(db: seq<Order>, side: Side, p: Price, cut: int)
    requires forall o :: o in db ==> !IsOpen(o)
    ensures LevelSum(db, side, p, cut) == 0.0
  {
    if db != [] {
      assert db[0] in db && forall o :: o in db[1..] ==> o in db;
      NoSum(db[1..], side, p, cut);
    }
  }

  lemma AfterOne(o: Order, now: Order, added: seq<Order>)
    requires o.id == now.id
    ensures After([o], Revision([Update(o, now)], added)) == [now] + added
    ensures Fits([o], [Update(o, now)])
  {
    assert [Update(o, now)][1..] == [] && [o][1..] == [];
    assert Replace([o], now) == [now];
    assert ReplaceAll([now], []) == [now];
    assert [Update(o, now)][0] in [Update(o, now)];
  }

  // ---------- one event ----------

  const HALF := Order(0, Buy, 100, 2.0, 1.0, PartiallyFilled, 0)

  lemma HalfObserved(now: Order)
    requires now == HALF.(status := Cancelled, updatedAt := 1)
    ensures After([HALF], Revision([Update(HALF, now)], [])) == [now]
    ensures Observed([HALF], 1, Revision([Update(HALF, now)], []), 2, EMPTY)
  {
    AfterOne(HALF, now, []);
    assert [now] + [] == [now];
    NoBook([now], 2);
  }

  /** A partly filled order, alone on its level, is cancelled: the level is not announced. */
  lemma CancelFails() returns (bids: seq<Row>, asks: seq<Row>, next: Views)
    ensures Observed([HALF], 1, Only(Cancel(HALF, 1)), 2, EMPTY)
    ensures ViewsUpdate(BookViews([HALF], 1), EMPTY, Single(OrderEvent(Cancelled, Buy, 100, 2.0, [])), bids, asks, next)
    ensures !Exact([HALF], 1, Only(Cancel(HALF, 1)), 2, bids, asks)
  {
    HalfObserved(Cancel(HALF, 1).now);
    bids, asks, next := MessageExists(BookViews([HALF], 1), EMPTY, Single(OrderEvent(Cancelled, Buy, 100, 2.0, [])));
    NoBook([Cancel(HALF, 1).now], 2);
    assert Left([HALF], Only(Cancel(HALF, 1)), 2, Buy, 100) == 0.0;
    hide Observed, ViewsUpdate, Exact, Left;
    CancelExact([HALF], 1, HALF, 1, 2, EMPTY, [], bids, asks, next);
  }

  const HALF_BATCH := [CancelledOrder("BTC-30JUN23-20000-C", HALF)]
  const SERIES := {"BTC-30JUN23-20000-C", "BTC-30JUN23-20000-P"}

  lemma BatchObserved()
    ensures Mine(HALF_BATCH, SERIES) == HALF_BATCH && OpenBatch(HALF_BATCH)
    ensures Observed([HALF], 1, CancelAll(HALF_BATCH, 1), 2, EMPTY)
    ensures Left([HALF], CancelAll(HALF_BATCH, 1), 2, Buy, 100) == 0.0
  {
    AllMine(HALF_BATCH, SERIES);
    assert HALF_BATCH[1..] == [];
    assert Cancels(HALF_BATCH, 1) == [Cancel(HALF, 1)];
    HalfObserved(Cancel(HALF, 1).now);
    NoBook([Cancel(HALF, 1).now], 2);
  }

  /** The same order cancelled in a batch. */
  lemma BatchFails() returns (bids: seq<Row>, asks: seq<Row>, next: Views)
    ensures Observed([HALF], 1, CancelAll(Mine(HALF_BATCH, SERIES), 1), 2, EMPTY)
    ensures ViewsUpdate(BookViews([HALF], 1), EMPTY, Batch(SharedSums(HALF_BATCH)), bids, asks, next)
    ensures !Exact([HALF], 1, CancelAll(Mine(HALF_BATCH, SERIES), 1), 2, bids, asks)
  {
    BatchObserved();
    assert HALF_BATCH[0] in HALF_BATCH;
    hide Observed, ViewsUpdate, Exact, Left, SharedSums, CancelAll, Mine, EntryRight;
    bids, asks, next := MessageExists(BookViews([HALF], 1), EMPTY, Batch(SharedSums(HALF_BATCH)));
    BatchExact([HALF], 1, HALF_BATCH, SERIES, 1, 2, EMPTY, bids, asks, next);
    OneInstrumentRight([HALF], 1, HALF_BATCH, "BTC-30JUN23-20000-C", 1, 2, EMPTY);
  }

  const MAKER := Order(0, Sell, 100, 1.0, 0.0, Open, 0)
  const TAKER := Order(1, Buy, 101, 1.0, 1.0, Filled, 1)

  /** A buyer at 101 fills the only seller, at 100: the level at 100 is not announced. */
  lemma FillFails() returns (bids: seq<Row>, asks: seq<Row>, next: Views)
    ensures var fills := [Fill(MAKER, 1.0)];
      && Arrived(TAKER, fills) && Observed([MAKER], 1, Arrival(TAKER, fills, 1), 2, EMPTY)
      && ViewsUpdate(BookViews([MAKER], 1), EMPTY, Single(EventOf(TAKER)), bids, asks, next)
      && !Exact([MAKER], 1, Arrival(TAKER, fills, 1), 2, bids, asks)
  {
    var fills, now := [Fill(MAKER, 1.0)], Filling(Fill(MAKER, 1.0), 1).now;
    assert fills[1..] == [] && Fillings(fills, 1) == [Update(MAKER, now)];
    AfterOne(MAKER, now, [TAKER]);
    assert [now] + [TAKER] == [now, TAKER];
    NoBook([now, TAKER], 2);
    bids, asks, next := MessageExists(BookViews([MAKER], 1), EMPTY, Single(EventOf(TAKER)));
    assert fills[0] in fills && fills[0].maker.price != TAKER.price;
    assert Left([MAKER], Arrival(TAKER, fills, 1), 2, Sell, 100) == 0.0;
    assert FilledTotal(fills) == 1.0 by { assert FilledTotal([]) == 0.0; }
    assert forall f :: f in fills ==> f == fills[0];
    assert Arrived(TAKER, fills);
    hide Observed, ViewsUpdate, Exact, Left, Arrived, Arrival;
    ArrivalExact([MAKER], 1, TAKER, fills, 1, 2, EMPTY, bids, asks, next);
  }

  const FIRST := Order(0, Buy, 100, 1.0, 0.0, Open, 0)
  const SECOND := Order(1, Buy, 100, 1.0, 0.0, Open, 0)
  const MOVED := Order(0, Buy, 101, 1.0, 0.0, Open, 1)
  const SPREAD := Snapshot([Level(101, 1.0), Level(100, 1.0)], [])

  lemma SpreadQuotes(p: Price)
    ensures Quote(SPREAD.bids, p) == Get(BookOf([MOVED, SECOND], Buy, 2), p)
  {
    var after := [MOVED, SECOND];
    SumOfTwo(MOVED, SECOND, Buy, p, 2);
    assert SPREAD.bids[..1] == [Level(101, 1.0)] && [Level(101, 1.0)][..0] == [];
    assert Quote([Level(101, 1.0)], p) == if p == 101 then Some(1.0) else None;
    assert MOVED in after && SECOND in after && forall o :: o in after ==> o == MOVED || o == SECOND;
    assert p in BookPrices(after, Buy, 2) <==> p == 101 || p == 100;
  }

  lemma EditAfter()
    ensures After([FIRST, SECOND], Only(Edit(FIRST, 101, 1.0, 1))) == [MOVED, SECOND]
    ensures Fits([FIRST, SECOND], [Edit(FIRST, 101, 1.0, 1)])
  {
    var db, after, u := [FIRST, SECOND], [MOVED, SECOND], Edit(FIRST, 101, 1.0, 1);
    assert u == Update(FIRST, MOVED) && [u][1..] == [];
    assert Replace(db, MOVED) == after;
    assert ReplaceAll(db, [u]) == after by { assert ReplaceAll(after, []) == after; }
    assert after + [] == after;
    assert FIRST in db;
  }

  lemma EditAnswered()
    ensures Answers(SPREAD.bids, BookOf([MOVED, SECOND], Buy, 2))
    ensures Answers(SPREAD.asks, BookOf([MOVED, SECOND], Sell, 2))
  {
    forall p ensures Quote(SPREAD.bids, p) == Get(BookOf([MOVED, SECOND], Buy, 2), p) {
      SpreadQuotes(p);
    }
    assert BookOf([MOVED, SECOND], Sell, 2) == map[] by { assert BookPrices([MOVED, SECOND], Sell, 2) == {}; }
  }

  lemma EditSound()
    ensures Sound([FIRST, SECOND]) && Settled([FIRST, SECOND], 1)
    ensures Sound([MOVED, SECOND]) && Settled([MOVED, SECOND], 2)
  {
  }

  lemma EditObserved()
    ensures After([FIRST, SECOND], Only(Edit(FIRST, 101, 1.0, 1))) == [MOVED, SECOND]
    ensures Observed([FIRST, SECOND], 1, Only(Edit(FIRST, 101, 1.0, 1)), 2, SPREAD)
  {
    EditAfter();
    EditAnswered();
    EditSound();
    hide Fits, Answers, Sound, Settled, After, Edit;
  }

  const MOVE := OrderEvent(Open, Buy, 101, 1.0, [] + [Amendment(Some(100))])

  lemma LeftBehind()
    ensures Left([FIRST, SECOND], Only(Edit(FIRST, 101, 1.0, 1)), 2, Buy, 100) == 1.0
  {
    EditObserved();
    SumOfTwo(MOVED, SECOND, Buy, 100, 2);
  }

  /** An order that shared its level is moved: the old level is deleted with the other on it. */
  lemma EditFails() returns (bids: seq<Row>, asks: seq<Row>, next: Views)
    ensures var db, u := [FIRST, SECOND], Edit(FIRST, 101, 1.0, 1);
      && Observed(db, 1, Only(u), 2, SPREAD)
      && ViewsUpdate(BookViews(db, 1), SPREAD, Single(MOVE), bids, asks, next)
      && !Exact(db, 1, Only(u), 2, bids, asks)
  {
    var db := [FIRST, SECOND];
    EditObserved();
    LeftBehind();
    hide *;
    bids, asks, next := MessageExists(BookViews(db, 1), SPREAD, Single(MOVE));
    EditNotExact(bids, asks, next);
  }

  lemma EditNotExact(bids: seq<Row>, asks: seq<Row>, next: Views)
    requires Observed([FIRST, SECOND], 1, Only(Edit(FIRST, 101, 1.0, 1)), 2, SPREAD)
    requires ViewsUpdate(BookViews([FIRST, SECOND], 1), SPREAD, Single(MOVE), bids, asks, next)
    requires Left([FIRST, SECOND], Only(Edit(FIRST, 101, 1.0, 1)), 2, Buy, 100) == 1.0
    ensures !Exact([FIRST, SECOND], 1, Only(Edit(FIRST, 101, 1.0, 1)), 2, bids, asks)
  {
    assert IsOpen(FIRST) && Recorded(FIRST, 101, Amendment(Some(100)));
    hide Observed, ViewsUpdate, Exact, Left, Edit, BookViews, Only;
    EditExact([FIRST, SECOND], 1, FIRST, 101, 1.0, 1, 2, SPREAD, [], Amendment(Some(100)), bids, asks, next);
  }

  /** A batch over two instruments: two orders of the first add up to 2, and the first order of
      the second resets the entry to 1, so the handler never finds the first one's level. */
  lemma BatchesMix() returns (batch: seq<CancelledOrder>)
    ensures |batch| == 3 && batch[0].instrument == batch[1].instrument != batch[2].instrument
    ensures forall c :: c in batch ==> c.order.side == Buy && c.order.price == 100 && c.order.amount == 1.0
    ensures LastReset(batch, Buy, 100) == 2
    ensures Get(SharedSums(batch).bids, 100) == Some(1.0)
    ensures BatchSum(Of(batch, batch[0].instrument, true), Buy, 100, false) == 2.0
  {
    var call := CancelledOrder("BTC-30JUN23-20000-C", FIRST);
    var put := CancelledOrder("BTC-30JUN23-20000-P", SECOND);
    batch := [call, call, put];
    assert batch[..2] == [call, call] && batch[2..] == [put] && batch[1..] == [call, put] && batch[1..][1..] == [put];
    assert put.instrument !in Instruments([call, call]);
    assert put in batch;
    SharedSumsAt(batch, Buy, 100);
    assert [put][1..] == [] && [call, call][1..] == [call] && [call][1..] == [];
    assert Of([put], call.instrument, true) == [] by { assert Of([], call.instrument, true) == []; }
    assert Of([call, put], call.instrument, true) == [call];
    assert Of(batch, call.instrument, true) == [call, call];
    assert BatchSum([put], Buy, 100, false) == 1.0 && BatchSum([call], Buy, 100, false) == 1.0;
  }

  // ---------- lag ----------

  /** From any state of the feed there is a next one. */
  lemma HandlerRuns(s: State, cause: Cause, ts: int, snap: Snapshot) returns (s': State)
    ensures BookStep(s, cause, ts, snap, s')
  {
    var r := RecordOf(s);
    var bids, asks, next := MessageExists(r.raw, snap, cause);
    var m := Message(r.id + 1, r.id, ts, bids, asks);
    s' := s.(stored := Some(Record(r.id + 1, r.id, ts, r.ts, next, r.ms100, r.agg)),
             latest := Some(Notice(r.id + 1, cause)), raw := s.raw + [m]);
    assert s'.raw[|s.raw|] == m && s'.raw[..|s.raw|] == s.raw;
  }

  lemma TickerRuns(s: State, snap: Snapshot) returns (s': State)
    requires TickPublishes(s)
    ensures TickStep(s, snap, s')
  {
    var r := s.stored.value;
    var bids, asks, next := MessageExists(r.ms100, snap, LatestCause(s.latest));
    var m := Message(r.id, PrevId(s), r.ts, bids, asks);
    s' := s.(stored := Some(r.(ms100 := next)), local := s.latest, ms100 := s.ms100 + [m]);
    assert s'.ms100[|s.ms100|] == m && s'.ms100[..|s.ms100|] == s.ms100;
  }

  const LOW := Order(0, Buy, 1, 1.0, 0.0, Open, 0)
  const HIGH := Order(1, Buy, 2, 1.0, 0.0, Open, 0)
  const LOW_GONE := Order(0, Buy, 1, 1.0, 0.0, Cancelled, 1)
  const HIGH_GONE := Order(1, Buy, 2, 1.0, 0.0, Cancelled, 1)
  const LOW_CANCEL := Event(CancelOne(LOW, []), 1)
  const HIGH_CANCEL := Event(CancelOne(HIGH, []), 1)
  const BOTH := Views(map[1 := 1.0, 2 := 1.0], map[])
  const LOW_ONLY := Views(map[1 := 1.0], map[])
  const HIGH_ONLY := Views(map[2 := 1.0], map[])
  const HIGH_SNAPSHOT := Snapshot([Level(2, 1.0)], [])

  lemma BothLevels()
    ensures BookViews([LOW, HIGH], 1) == BOTH
    ensures forall p :: LevelSum([LOW, HIGH], Buy, p, 1) == if p == 1 || p == 2 then 1.0 else 0.0
    ensures forall p :: LevelSum([LOW, HIGH], Sell, p, 1) == 0.0
  {
    var db := [LOW, HIGH];
    forall p
      ensures LevelSum(db, Buy, p, 1) == if p == 1 || p == 2 then 1.0 else 0.0
      ensures LevelSum(db, Sell, p, 1) == 0.0
    {
      SumOfTwo(LOW, HIGH, Buy, p, 1);
      SumOfTwo(LOW, HIGH, Sell, p, 1);
    }
    assert LOW in db && HIGH in db && forall o :: o in db ==> o == LOW || o == HIGH;
    assert BookPrices(db, Buy, 1) == {1, 2} && BookPrices(db, Sell, 1) == {};
  }

  lemma HighLevel()
    ensures BookViews([LOW_GONE, HIGH], 2) == HIGH_ONLY
    ensures forall p :: LevelSum([LOW_GONE, HIGH], Buy, p, 2) == if p == 2 then 1.0 else 0.0
    ensures forall p :: LevelSum([LOW_GONE, HIGH], Sell, p, 2) == 0.0
    ensures Answers(HIGH_SNAPSHOT.bids, BookOf([LOW_GONE, HIGH], Buy, 2))
    ensures Answers(HIGH_SNAPSHOT.asks, BookOf([LOW_GONE, HIGH], Sell, 2))
  {
    var db := [LOW_GONE, HIGH];
    forall p
      ensures LevelSum(db, Buy, p, 2) == if p == 2 then 1.0 else 0.0
      ensures LevelSum(db, Sell, p, 2) == 0.0
    {
      SumOfTwo(LOW_GONE, HIGH, Buy, p, 2);
      SumOfTwo(LOW_GONE, HIGH, Sell, p, 2);
    }
    assert HIGH in db && forall o :: o in db ==> o == LOW_GONE || o == HIGH;
    assert BookPrices(db, Buy, 2) == {2} && BookPrices(db, Sell, 2) == {};
    assert BookOf(db, Buy, 2) == map[2 := 1.0];
    assert [Level(2, 1.0)][..0] == [];
  }

  lemma BothCancelled()
    ensures After([LOW, HIGH], RevisionOf(LOW_CANCEL)) == [LOW_GONE, HIGH]
    ensures After([LOW_GONE, HIGH], RevisionOf(HIGH_CANCEL)) == [LOW_GONE, HIGH_GONE]
  {
    var u, u' := Cancel(LOW, 1), Cancel(HIGH, 1);
    assert u.now == LOW_GONE && u'.now == HIGH_GONE && [u][1..] == [] == [u'][1..];
    assert Replace([LOW, HIGH], LOW_GONE) == [LOW_GONE, HIGH];
    assert Replace([LOW_GONE, HIGH], HIGH_GONE) == [LOW_GONE, HIGH_GONE];
    assert ReplaceAll([LOW_GONE, HIGH], []) == [LOW_GONE, HIGH];
    assert ReplaceAll([LOW_GONE, HIGH_GONE], []) == [LOW_GONE, HIGH_GONE];
    assert [LOW_GONE, HIGH] + [] == [LOW_GONE, HIGH] && [LOW_GONE, HIGH_GONE] + [] == [LOW_GONE, HIGH_GONE];
  }

  /** With an empty snapshot a message is its inferred deletes. */
  lemma OnlyDeletes(client: View, stored: View, gone: set<Price>, rows: seq<Row>, next: View)
    requires SideUpdate(stored, [], gone, rows, next)
    ensures next == map[] && Apply(client, rows) == client - gone
  {
    ApplyUpdate(client, stored, [], gone, rows, next);
  }

  lemma EmptyMessage(client: Views, view: Views, cause: Cause, bids: seq<Row>, asks: seq<Row>, next: Views)
    requires ViewsUpdate(view, EMPTY, cause, bids, asks, next)
    ensures next == NOTHING
    ensures var gone := GoneFor(view, EMPTY, cause);
      Views(Apply(client.bids, bids), Apply(client.asks, asks)) == Views(client.bids - gone.bids, client.asks - gone.asks)
  {
    var gone := GoneFor(view, EMPTY, cause);
    OnlyDeletes(client.bids, view.bids, gone.bids, bids, next.bids);
    OnlyDeletes(client.asks, view.asks, gone.asks, asks, next.asks);
  }

  lemma EmptyHandled(client: Views, s: State, cause: Cause, ts: int, s': State)
    requires BookStep(s, cause, ts, EMPTY, s')
    ensures Stored(s', RawChannel) == NOTHING
    ensures var gone := GoneFor(Stored(s, RawChannel), EMPTY, cause);
      Deliver(client, s.raw, s'.raw) == Views(client.bids - gone.bids, client.asks - gone.asks)
  {
    var m := s'.raw[|s.raw|];
    EmptyMessage(client, Stored(s, RawChannel), cause, m.bids, m.asks, Stored(s', RawChannel));
  }

  function LagStart(feed: State): Market {
    Market([LOW, HIGH], Query([LOW, HIGH], 1), Query([LOW, HIGH], 1), multiset{}, feed)
  }

  function LagSaved(feed: State): Market {
    Market([LOW_GONE, HIGH_GONE], Query([LOW, HIGH], 1), Query([LOW, HIGH], 1), multiset{LOW_CANCEL, HIGH_CANCEL}, feed)
  }

  lemma LagSaves(feed: State) returns (k: Market)
    ensures k.feed == feed && MarketStep(LagStart(feed), Save(LOW_CANCEL, true), k)
    ensures MarketStep(k, Save(HIGH_CANCEL, true), LagSaved(feed))
  {
    BothCancelled();
    hide After, RevisionOf;
    k := LagStart(feed).(db := [LOW_GONE, HIGH], queue := multiset{LOW_CANCEL});
    assert multiset{LOW_CANCEL} + multiset{HIGH_CANCEL} == multiset{LOW_CANCEL, HIGH_CANCEL};
  }

  lemma SmallSound()
    ensures Sound([LOW, HIGH]) && Sound([LOW_GONE, HIGH]) && Sound([LOW_GONE, HIGH_GONE])
  {
  }

  lemma LagQueried(seen: seq<Order>, ts: int)
    requires Sound(seen)
    ensures Queried(seen, [LOW_GONE, HIGH_GONE], ts, EMPTY)
  {
    SmallSound();
    NoBook([LOW_GONE, HIGH_GONE], ts);
  }

  /** What the two messages do to the client. */
  lemma LagHandled(f0: State) returns (f1: State, f2: State)
    requires Stored(f0, RawChannel) == BOTH
    ensures BookStep(f0, CauseOf(LOW_CANCEL), 2, EMPTY, f1) && BookStep(f1, CauseOf(HIGH_CANCEL), 3, EMPTY, f2)
    ensures Deliver(BOTH, f0.raw, f1.raw) == HIGH_ONLY && Deliver(HIGH_ONLY, f1.raw, f2.raw) == HIGH_ONLY
  {
    f1 := HandlerRuns(f0, CauseOf(LOW_CANCEL), 2, EMPTY);
    f2 := HandlerRuns(f1, CauseOf(HIGH_CANCEL), 3, EMPTY);
    EmptyHandled(BOTH, f0, CauseOf(LOW_CANCEL), 2, f1);
    EmptyHandled(HIGH_ONLY, f1, CauseOf(HIGH_CANCEL), 3, f2);
    hide BookStep, Deliver;
    assert GoneFor(BOTH, EMPTY, CauseOf(LOW_CANCEL)) == Gone({1}, {});
    assert GoneFor(NOTHING, EMPTY, CauseOf(HIGH_CANCEL)) == Gone({}, {});
    assert BOTH.bids - {1} == HIGH_ONLY.bids;
  }

  function LagMid(feed: State): Market {
    Market([LOW_GONE, HIGH_GONE], Query([LOW_GONE, HIGH_GONE], 2), Query([LOW, HIGH], 1), multiset{HIGH_CANCEL}, feed)
  }

  function LagEnd(feed: State): Market {
    Market([LOW_GONE, HIGH_GONE], Query([LOW_GONE, HIGH_GONE], 3), Query([LOW, HIGH], 1), multiset{}, feed)
  }

  lemma LagHandles(f0: State, f1: State, f2: State)
    requires BookStep(f0, CauseOf(LOW_CANCEL), 2, EMPTY, f1) && BookStep(f1, CauseOf(HIGH_CANCEL), 3, EMPTY, f2)
    ensures MarketStep(LagSaved(f0), Handle(LOW_CANCEL, 2, EMPTY), LagMid(f1))
    ensures MarketStep(LagMid(f1), Handle(HIGH_CANCEL, 3, EMPTY), LagEnd(f2))
  {
    SmallSound();
    LagQueried([LOW, HIGH], 2);
    LagQueried([LOW_GONE, HIGH_GONE], 3);
    hide BookStep, Queried, CauseOf;
    assert multiset{LOW_CANCEL, HIGH_CANCEL} - multiset{LOW_CANCEL} == multiset{HIGH_CANCEL};
    assert multiset{HIGH_CANCEL} - multiset{HIGH_CANCEL} == multiset{};
  }

  function LagMoves(): seq<Move> {
    [Save(LOW_CANCEL, true), Save(HIGH_CANCEL, true), Handle(LOW_CANCEL, 2, EMPTY), Handle(HIGH_CANCEL, 3, EMPTY)]
  }

  lemma RunOfFour(k0: Market, k1: Market, k2: Market, k3: Market, k4: Market, ms: seq<Move>)
    requires Stores(k0, RawChannel) && Stores(k0, Every100ms) && |ms| == 4
    requires MarketStep(k0, ms[0], k1) && MarketStep(k1, ms[1], k2)
    requires MarketStep(k2, ms[2], k3) && MarketStep(k3, ms[3], k4)
    ensures MarketRun([k0, k1, k2, k3, k4], ms)
  {
    hide MarketStep, Stores;
  }

  lemma StartStores(f0: State)
    requires Stored(f0, RawChannel) == BOTH == Stored(f0, Every100ms)
    ensures Stores(LagStart(f0), RawChannel) && Stores(LagStart(f0), Every100ms)
  {
    BothLevels();
    hide BookViews;
  }

  lemma LagRun(f0: State, f1: State, f2: State) returns (ks: seq<Market>)
    requires Stored(f0, RawChannel) == BOTH == Stored(f0, Every100ms)
    requires BookStep(f0, CauseOf(LOW_CANCEL), 2, EMPTY, f1) && BookStep(f1, CauseOf(HIGH_CANCEL), 3, EMPTY, f2)
    ensures MarketRun(ks, LagMoves()) && |ks| == 5 && ks[0] == LagStart(f0) && ks[2] == LagSaved(f0)
    ensures ks[1].feed == f0 && ks[3] == LagMid(f1) && ks[4] == LagEnd(f2)
  {
    hide MarketStep, MarketRun, BookStep, CauseOf, Stored, Stores;
    StartStores(f0);
    LagHandles(f0, f1, f2);
    var k1 := LagSaves(f0);
    RunOfFour(LagStart(f0), k1, LagSaved(f0), LagMid(f1), LagEnd(f2), LagMoves());
    ks := [LagStart(f0), k1, LagSaved(f0), LagMid(f1), LagEnd(f2)];
  }

  /** Two unfilled orders on two levels are cancelled, and both cancels are saved before either
      is handled. The first message deletes the one level it can name, and stores the empty
      book; the second then finds nothing stored. The client keeps the other level, until it is
      quoted again. */
  lemma LaggingCancels() returns (ks: seq<Market>)
    ensures MarketRun(ks, LagMoves()) && |ks| == 5 && ks[0].raw.db == ks[0].db
    ensures Unfilled(LOW_CANCEL) && Unfilled(HIGH_CANCEL)
    ensures Client(ks, RawChannel) == HIGH_ONLY && QueryBook(ks[4].raw) == BookViews(ks[4].db, 3) == NOTHING
  {
    NoBook([LOW_GONE, HIGH_GONE], 3);
    var f0 := START.(stored := Some(ZERO.(raw := BOTH, ms100 := BOTH)));
    var f1, f2 := LagHandled(f0);
    ks := LagRun(f0, f1, f2);
    hide MarketRun, Client, BookViews, BookStep, CauseOf, Deliver;
    ClientOfFour(ks, BOTH, HIGH_ONLY);
  }

  lemma ClientOfFour(ks: seq<Market>, view: Views, after: Views)
    requires |ks| == 5 && Stored(ks[0].feed, RawChannel) == view
    requires ks[0].feed == ks[1].feed == ks[2].feed
    requires Deliver(view, ks[2].feed.raw, ks[3].feed.raw) == after
    requires Deliver(after, ks[3].feed.raw, ks[4].feed.raw) == after
    ensures Client(ks, RawChannel) == after
  {
    ClientStep(ks, RawChannel);
    ClientStep(ks[..4], RawChannel);
    ClientStep(ks[..3], RawChannel);
    ClientStep(ks[..2], RawChannel);
    assert ks[..4][..3] == ks[..3] && ks[..3][..2] == ks[..2] && ks[..2][..1] == ks[..1];
    assert Feeds(ks[..1]) == [ks[0].feed];
  }

  // ---------- between two ticks ----------

  /** The same cancels, each handled at once, and both before the 100ms ticker looks. */
  function TickMarket(i: nat, feed: State): Market {
    var both, high, none := Query([LOW, HIGH], 1), Query([LOW_GONE, HIGH], 2), Query([LOW_GONE, HIGH_GONE], 3);
    match i
    case 0 => Market(both.db, both, both, multiset{}, feed)
    case 1 => Market(high.db, both, both, multiset{LOW_CANCEL}, feed)
    case 2 => Market(high.db, high, both, multiset{}, feed)
    case 3 => Market(none.db, high, both, multiset{HIGH_CANCEL}, feed)
    case 4 => Market(none.db, none, both, multiset{}, feed)
    case _ => Market(none.db, none, Query(none.db, 4), multiset{}, feed)
  }

  function TickMoves(): seq<Move> {
    [Save(LOW_CANCEL, true), Handle(LOW_CANCEL, 2, HIGH_SNAPSHOT), Save(HIGH_CANCEL, true),
     Handle(HIGH_CANCEL, 3, EMPTY), Poll(4, EMPTY)]
  }

  lemma TickSaves(f0: State, f1: State)
    ensures MarketStep(TickMarket(0, f0), TickMoves()[0], TickMarket(1, f0))
    ensures MarketStep(TickMarket(2, f1), TickMoves()[2], TickMarket(3, f1))
  {
    BothCancelled();
    hide After, RevisionOf;
  }

  lemma TickHandles(f0: State, f1: State, f2: State)
    requires BookStep(f0, CauseOf(LOW_CANCEL), 2, HIGH_SNAPSHOT, f1) && BookStep(f1, CauseOf(HIGH_CANCEL), 3, EMPTY, f2)
    ensures MarketStep(TickMarket(1, f0), TickMoves()[1], TickMarket(2, f1))
    ensures MarketStep(TickMarket(3, f1), TickMoves()[3], TickMarket(4, f2))
  {
    SmallSound();
    HighLevel();
    LagQueried([LOW_GONE, HIGH], 3);
    assert Queried([LOW, HIGH], [LOW_GONE, HIGH], 2, HIGH_SNAPSHOT);
    hide BookStep, Queried, CauseOf;
  }

  lemma TickPolls(f2: State, f3: State)
    requires TickPublishes(f2) && TickStep(f2, EMPTY, f3)
    ensures MarketStep(TickMarket(4, f2), TickMoves()[4], TickMarket(5, f3))
  {
    SmallSound();
    LagQueried([LOW, HIGH], 4);
    hide TickStep, Queried;
  }

  /** Each raw message announces the one level that vanished. */
  lemma TickRight(f0: State, f1: State)
    ensures RightMove(TickMarket(1, f0), TickMoves()[1], RawChannel)
    ensures RightMove(TickMarket(3, f1), TickMoves()[3], RawChannel)
  {
    BothLevels();
    HighLevel();
    NoBook([LOW_GONE, HIGH_GONE], 3);
    assert SingleGone(BOTH, CauseOf(LOW_CANCEL).order) == Gone({1}, {});
    assert SingleGone(HIGH_ONLY, CauseOf(HIGH_CANCEL).order) == Gone({2}, {});
    hide BookViews, LevelSum;
  }

  lemma RunOfFive(k0: Market, k1: Market, k2: Market, k3: Market, k4: Market, k5: Market, ms: seq<Move>, ch: Channel)
    requires Stores(k0, RawChannel) && Stores(k0, Every100ms) && |ms| == 5
    requires MarketStep(k0, ms[0], k1) && MarketStep(k1, ms[1], k2) && MarketStep(k2, ms[2], k3)
    requires MarketStep(k3, ms[3], k4) && MarketStep(k4, ms[4], k5)
    requires RightMove(k0, ms[0], ch) && RightMove(k1, ms[1], ch) && RightMove(k2, ms[2], ch)
    requires RightMove(k3, ms[3], ch) && RightMove(k4, ms[4], ch)
    ensures MarketRun([k0, k1, k2, k3, k4, k5], ms) && RightThrough([k0, k1, k2, k3, k4, k5], ms, ch, 5)
  {
    hide MarketStep, Stores, RightMove;
  }

  lemma TickQuiet(f0: State, f1: State, f2: State)
    ensures RightMove(TickMarket(0, f0), TickMoves()[0], RawChannel)
    ensures RightMove(TickMarket(2, f1), TickMoves()[2], RawChannel)
    ensures RightMove(TickMarket(4, f2), TickMoves()[4], RawChannel)
  {
  }

  lemma TickRun(f0: State, f1: State, f2: State, f3: State) returns (ks: seq<Market>)
    requires Stored(f0, RawChannel) == BOTH == Stored(f0, Every100ms) && TickPublishes(f2)
    requires BookStep(f0, CauseOf(LOW_CANCEL), 2, HIGH_SNAPSHOT, f1) && BookStep(f1, CauseOf(HIGH_CANCEL), 3, EMPTY, f2)
    requires TickStep(f2, EMPTY, f3)
    ensures MarketRun(ks, TickMoves()) && RightThrough(ks, TickMoves(), RawChannel, 5)
    ensures ks == [TickMarket(0, f0), TickMarket(1, f0), TickMarket(2, f1), TickMarket(3, f1), TickMarket(4, f2), TickMarket(5, f3)]
  {
    assert TickMarket(0, f0) == LagStart(f0) && |TickMoves()| == 5;
    hide *;
    StartStores(f0);
    TickSaves(f0, f1);
    TickHandles(f0, f1, f2);
    TickPolls(f2, f3);
    TickRight(f0, f1);
    TickQuiet(f0, f1, f2);
    RunOfFive(TickMarket(0, f0), TickMarket(1, f0), TickMarket(2, f1), TickMarket(3, f1), TickMarket(4, f2), TickMarket(5, f3),
              TickMoves(), RawChannel);
    ks := [TickMarket(0, f0), TickMarket(1, f0), TickMarket(2, f1), TickMarket(3, f1), TickMarket(4, f2), TickMarket(5, f3)];
  }

  lemma TickStates() returns (f0: State, f1: State, f2: State, f3: State)
    ensures Stored(f0, RawChannel) == BOTH == Stored(f0, Every100ms) && TickPublishes(f2)
    ensures BookStep(f0, CauseOf(LOW_CANCEL), 2, HIGH_SNAPSHOT, f1) && BookStep(f1, CauseOf(HIGH_CANCEL), 3, EMPTY, f2)
    ensures TickStep(f2, EMPTY, f3)
    ensures f0.ms100 == f1.ms100 == f2.ms100 == [] && Deliver(BOTH, f2.ms100, f3.ms100) == LOW_ONLY
  {
    f0 := START.(stored := Some(ZERO.(raw := BOTH, ms100 := BOTH)));
    f1 := HandlerRuns(f0, CauseOf(LOW_CANCEL), 2, HIGH_SNAPSHOT);
    f2 := HandlerRuns(f1, CauseOf(HIGH_CANCEL), 3, EMPTY);
    hide ViewsUpdate, Deliver, CauseOf;
    f3 := TickerRuns(f2, EMPTY);
    TickTold(f2, f3);
  }

  lemma TickEnd(f3: State)
    ensures QueryBook(QueryOf(TickMarket(5, f3), Every100ms)) == NOTHING
  {
    NoBook([LOW_GONE, HIGH_GONE], 4);
  }

  lemma TickClient(f0: State, f1: State, f2: State, f3: State)
    requires Stored(f0, Every100ms) == BOTH && f0.ms100 == f1.ms100 == f2.ms100 == []
    requires Deliver(BOTH, f2.ms100, f3.ms100) == LOW_ONLY
    ensures Client([TickMarket(0, f0), TickMarket(1, f0), TickMarket(2, f1), TickMarket(3, f1), TickMarket(4, f2),
                    TickMarket(5, f3)], Every100ms) == LOW_ONLY
  {
    hide Client, Deliver, Stored;
    ClientOfFive([TickMarket(0, f0), TickMarket(1, f0), TickMarket(2, f1), TickMarket(3, f1), TickMarket(4, f2),
                  TickMarket(5, f3)], BOTH, LOW_ONLY);
  }

  /** The two cancels handled promptly between two ticks: the raw client holds the book
      throughout, and the 100ms client is left with the level of the first cancel, because the
      ticker only has the second one as the cause. */
  lemma CancelsBetweenTicks() returns (ks: seq<Market>)
    ensures |TickMoves()| == 5 && |ks| == 6 && MarketRun(ks, TickMoves()) && AgreesThrough(ks, RawChannel, 5)
    ensures Client(ks, Every100ms) == LOW_ONLY && QueryBook(QueryOf(ks[5], Every100ms)) == NOTHING
  {
    assert |TickMoves()| == 5;
    hide *;
    var f0, f1, f2, f3 := TickStates();
    ks := TickRun(f0, f1, f2, f3);
    TickClient(f0, f1, f2, f3);
    TickEnd(f3);
    ClientHoldsBook(ks, TickMoves(), RawChannel, 5);
  }

  lemma TickTold(f2: State, f3: State)
    requires TickPublishes(f2) && TickStep(f2, EMPTY, f3) && Stored(f2, Every100ms) == BOTH
    requires LatestCause(f2.latest) == CauseOf(HIGH_CANCEL)
    ensures Deliver(BOTH, f2.ms100, f3.ms100) == LOW_ONLY
  {
    var m := f3.ms100[|f2.ms100|];
    EmptyMessage(BOTH, BOTH, CauseOf(HIGH_CANCEL), m.bids, m.asks, Stored(f3, Every100ms));
    assert GoneFor(BOTH, EMPTY, CauseOf(HIGH_CANCEL)) == Gone({2}, {});
    assert BOTH.bids - {2} == LOW_ONLY.bids;
  }

  lemma ClientOfFive(ks: seq<Market>, view: Views, after: Views)
    requires |ks| == 6 && Stored(ks[0].feed, Every100ms) == view
    requires forall i :: 0 <= i < 5 ==> ks[i].feed.ms100 == []
    requires Deliver(view, ks[4].feed.ms100, ks[5].feed.ms100) == after
    ensures Client(ks, Every100ms) == after
  {
    ClientStep(ks, Every100ms);
    ClientStep(ks[..5], Every100ms);
    ClientStep(ks[..4], Every100ms);
    ClientStep(ks[..3], Every100ms);
    ClientStep(ks[..2], Every100ms);
    assert ks[..5][..4] == ks[..4] && ks[..4][..3] == ks[..3] && ks[..3][..2] == ks[..2] && ks[..2][..1] == ks[..1];
    assert Feeds(ks[..1]) == [ks[0].feed];
  }

  // ---------- a second subscriber ----------

  const ONE := Snapshot([Level(100, 1.0)], [])

  /** A client subscribes to the 100ms channel of an empty book; an order arrives; a second client
      subscribes before the next tick. That seeds the stored view behind the first one's back. */
  lemma SecondSubscriber(cause: Cause) returns (states: seq<State>, inputs: seq<Input>)
    ensures Run(states, inputs) && states[0] == START && |inputs| == 3
    ensures inputs[0] == Subscribe(Every100ms, 1, EMPTY) && inputs[2] == Subscribe(Every100ms, 2, ONE)
    ensures inputs[1] == Input.Book(cause, 2, ONE) && Seeds(states[2], Every100ms)
    ensures Replica(NOTHING, Every100ms, states) == NOTHING
    ensures Stored(states[3], Every100ms) == Views(map[100 := 1.0], map[])
  {
    var s1 := SubscribeStep(START, Every100ms, 1, EMPTY);
    var s2 := HandlerRuns(s1, cause, 2, ONE);
    var s3 := SubscribeStep(s2, Every100ms, 2, ONE);
    states := [START, s1, s2, s3];
    inputs := [Subscribe(Every100ms, 1, EMPTY), Input.Book(cause, 2, ONE), Subscribe(Every100ms, 2, ONE)];
    assert Stored(s2, Every100ms) == NOTHING;
    assert [Level(100, 1.0)][..0] == [];
    assert ViewOf(ONE.bids) == map[100 := 1.0];
    hide BookStep;
    assert Step(START, inputs[0], s1) && Step(s1, inputs[1], s2) && Step(s2, inputs[2], s3);
    hide Step, Stored, Deliver;
    ReplicaUnfold(NOTHING, Every100ms, states);
    ReplicaUnfold(NOTHING, Every100ms, states[..3]);
    ReplicaUnfold(NOTHING, Every100ms, states[..2]);
    SilentDeliveries(states);
  }

  lemma SilentDeliveries(states: seq<State>)
    requires |states| == 4 && forall i :: 0 <= i < 4 ==> Log(states[i], Every100ms) == []
    ensures Replica(NOTHING, Every100ms, states) == NOTHING
  {
    ReplicaUnfold(NOTHING, Every100ms, states);
    ReplicaUnfold(NOTHING, Every100ms, states[..3]);
    ReplicaUnfold(NOTHING, Every100ms, states[..2]);
    assert states[..3][..2] == states[..2] && states[..2][..1] == states[..1];
  }
}
