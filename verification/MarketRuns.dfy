/** The raw and the 100ms channel over whole runs of the market. The engine saves events to the
    database and announces them; handlers run later, in any order, and query the database as it
    then is; the 100ms ticker queries it when it finds a new id. A client that applies every
    message of a channel should hold the book. */
module MarketRuns {
  import opened Options
  import opened Delta
  import opened Book
  import opened Feed
  import opened FeedRuns
  import opened FeedLogs
  import opened BookEvents

  datatype Happening =
    | Arrive(taker: Order, fills: seq<Fill>)
    | CancelOne(order: Order, amendments: seq<Amendment>)
    | EditOne(order: Order, price: Price, amount: Amount, earlier: seq<Amendment>, last: Amendment)
    | CancelMany(batch: seq<CancelledOrder>, series: set<string>)
    | Other(revision: Revision, cause: Cause)

  /** What happened, and when the records were written. */
  datatype Event = Event(what: Happening, written: int)

  /** A save announces its event to this feed if it is `ours`: events of the other contract of
      the strike change the same book but go to another feed. */
  datatype Move =
    | Save(event: Event, ours: bool)
    | Handle(event: Event, ts: int, snap: Snapshot)
    | Poll(ts: int, snap: Snapshot)                    // a tick of the 100ms ticker
    | Join(channel: Channel, ts: int, snap: Snapshot)  // a subscription
    | Group(cause: Cause, snap: Snapshot)              // the agg2 handler

  function RevisionOf(e: Event): Revision {
    match e.what
    case Arrive(taker, fills) => Arrival(taker, fills, e.written)
    case CancelOne(o, _) => Only(Cancel(o, e.written))
    case EditOne(o, price, amount, _, _) => Only(Edit(o, price, amount, e.written))
    case CancelMany(batch, series) => CancelAll(Mine(batch, series), e.written)
    case Other(rev, _) => rev
  }

  function CauseOf(e: Event): Cause {
    match e.what
    case Arrive(taker, _) => Single(EventOf(taker))
    case CancelOne(o, amendments) => Single(OrderEvent(Cancelled, o.side, o.price, o.amount, amendments))
    case EditOne(o, price, amount, earlier, last) =>
      Single(OrderEvent(o.status, o.side, price, amount, earlier + [last]))
    case CancelMany(batch, _) => Batch(SharedSums(batch))
    case Other(_, cause) => cause
  }

  // ---------- runs ----------

  /** What a query saw, and when it was made. */
  datatype Query = Query(db: seq<Order>, at: int)

  /** The database; the last query of each channel; the events announced and not yet handled;
      and the feed. */
  datatype Market = Market(db: seq<Order>, raw: Query, ms100: Query, queue: multiset<Event>, feed: State)

  /** The last query of a channel other than agg2, whose book is grouped. */
  function QueryOf(k: Market, ch: Channel): Query {
    if ch == RawChannel then k.raw else k.ms100
  }

  function QueryBook(q: Query): Views {
    BookViews(q.db, q.at)
  }

  /** The snapshot a move works with is the answer of the database as it is. */
  ghost predicate Sees(k: Market, ch: Channel, ts: int, snap: Snapshot) {
    QueryOf(k, ch).at <= ts && Queried(QueryOf(k, ch).db, k.db, ts, snap)
  }

  ghost predicate MarketStep(k: Market, m: Move, k': Market) {
    match m
    case Save(e, ours) =>
      k' == k.(db := After(k.db, RevisionOf(e)), queue := if ours then k.queue + multiset{e} else k.queue)
    case Handle(e, ts, snap) =>
      && e in k.queue && Sees(k, RawChannel, ts, snap)
      && k' == k.(raw := Query(k.db, ts), queue := k.queue - multiset{e}, feed := k'.feed)
      && BookStep(k.feed, CauseOf(e), ts, snap, k'.feed)
    case Poll(ts, snap) =>
      && TickStep(k.feed, snap, k'.feed)
      && (TickPublishes(k.feed) ==> Sees(k, Every100ms, ts, snap))
      && k' == k.(ms100 := if TickPublishes(k.feed) then Query(k.db, ts) else k.ms100, feed := k'.feed)
    case Join(ch, ts, snap) =>
      && k'.feed == SubscribeStep(k.feed, ch, ts, snap)
      && (ch != Agg2 && Seeds(k.feed, ch) ==> Sees(k, ch, ts, snap))
      && k' == k.(raw := if ch == RawChannel && Seeds(k.feed, ch) then Query(k.db, ts) else k.raw,
                  ms100 := if ch == Every100ms && Seeds(k.feed, ch) then Query(k.db, ts) else k.ms100,
                  feed := k'.feed)
    case Group(cause, snap) =>
      k' == k.(feed := k'.feed) && GroupedStep(k.feed, cause, snap, k'.feed)
  }

  /** The stored views are the books of the last queries. */
  ghost predicate Stores(k: Market, ch: Channel) {
    Stored(k.feed, ch) == QueryBook(QueryOf(k, ch))
  }

  ghost predicate MarketRun(ks: seq<Market>, ms: seq<Move>) {
    && |ks| == |ms| + 1
    && Stores(ks[0], RawChannel) && Stores(ks[0], Every100ms)
    && forall i :: 0 <= i < |ms| ==> MarketStep(ks[i], ms[i], ks[i + 1])
  }

  /** The cause of the message a move publishes on a channel, if it does. */
  function Publishes(k: Market, m: Move, ch: Channel): Option<Cause> {
    match m
    case Handle(e, _, _) => if ch == RawChannel then Some(CauseOf(e)) else None
    case Poll(_, _) => if ch == Every100ms && TickPublishes(k.feed) then Some(LatestCause(k.feed.latest)) else None
    case _ => None
  }

  predicate SeedsBy(k: Market, m: Move, ch: Channel) {
    m.Join? && m.channel == ch && Seeds(k.feed, ch)
  }

  function Feeds(ks: seq<Market>): seq<State> {
    seq(|ks|, i requires 0 <= i < |ks| => ks[i].feed)
  }

  /** The book of a client that held the first view and applied every message of its channel. */
  function Client(ks: seq<Market>, ch: Channel): Views
    requires ks != []
  {
    Replica(Stored(ks[0].feed, ch), ch, Feeds(ks))
  }

  /** The client holds the book of the last query. */
  ghost predicate Agrees(ks: seq<Market>, ch: Channel)
    requires ks != []
  {
    Client(ks, ch) == QueryBook(QueryOf(ks[|ks| - 1], ch))
  }

  ghost predicate AgreesAt(ks: seq<Market>, ch: Channel, i: nat)
    requires i < |ks|
  {
    Agrees(ks[..i + 1], ch)
  }

  /** The message of a move infers exactly the levels that vanished since the previous query of
      its channel; and a subscription that seeds finds the book empty. */
  ghost predicate RightMove(k: Market, m: Move, ch: Channel) {
    match Publishes(k, m, ch)
    case Some(cause) => Announced(QueryOf(k, ch).db, QueryOf(k, ch).at, k.db, m.ts, m.snap, cause)
    case None => SeedsBy(k, m, ch) ==> BookViews(k.db, m.ts) == NOTHING
  }

  ghost predicate RightAt(ks: seq<Market>, ms: seq<Move>, ch: Channel, i: nat)
    requires i < |ms| && i < |ks|
  {
    RightMove(ks[i], ms[i], ch)
  }

  ghost predicate AgreesThrough(ks: seq<Market>, ch: Channel, n: nat)
    requires n < |ks|
  {
    forall i :: 0 <= i <= n ==> AgreesAt(ks, ch, i)
  }

  ghost predicate RightThrough(ks: seq<Market>, ms: seq<Move>, ch: Channel, n: nat)
    requires n <= |ms| && n < |ks|
  {
    forall i :: 0 <= i < n ==> RightAt(ks, ms, ch, i)
  }

  lemma ClientStep(ks: seq<Market>, ch: Channel)
    requires |ks| >= 2
    ensures Client(ks, ch) ==
      Deliver(Client(ks[..|ks| - 1], ch), Log(ks[|ks| - 2].feed, ch), Log(ks[|ks| - 1].feed, ch))
  {
    var n := |ks|;
    assert Feeds(ks)[..n - 1] == Feeds(ks[..n - 1]);
    ReplicaUnfold(Stored(ks[0].feed, ch), ch, Feeds(ks));
  }

  /** What the step of a publishing move is, on its channel. */
  lemma PublishedStep(k: Market, m: Move, k': Market, ch: Channel)
    requires Publishes(k, m, ch).Some? && MarketStep(k, m, k')
    ensures Sees(k, ch, m.ts, m.snap) && QueryOf(k', ch) == Query(k.db, m.ts)
    ensures |Log(k'.feed, ch)| == |Log(k.feed, ch)| + 1
    ensures var message := Log(k'.feed, ch)[|Log(k.feed, ch)|];
      ViewsUpdate(Stored(k.feed, ch), m.snap, Publishes(k, m, ch).value, message.bids, message.asks, Stored(k'.feed, ch))
  {
    hide ViewsUpdate, Queried, CauseOf;
  }

  lemma MessageStep(k: Market, m: Move, k': Market, ch: Channel)
    requires Publishes(k, m, ch).Some? && MarketStep(k, m, k') && Stores(k, ch)
    ensures Stores(k', ch) && |Log(k'.feed, ch)| == |Log(k.feed, ch)| + 1
    ensures ApplyMessage(QueryBook(QueryOf(k, ch)), Log(k'.feed, ch)[|Log(k.feed, ch)|]) == QueryBook(QueryOf(k', ch))
      <==> RightMove(k, m, ch)
  {
    hide MarketStep, ViewsUpdate, Announced, Queried;
    PublishedStep(k, m, k', ch);
    var message, q := Log(k'.feed, ch)[|Log(k.feed, ch)|], QueryOf(k, ch);
    DeltaExact(q.db, q.at, k.db, m.ts, m.snap, Publishes(k, m, ch).value, message.bids, message.asks,
               Stored(k'.feed, ch));
  }

  lemma SeedingStep(k: Market, m: Move, k': Market, ch: Channel)
    requires SeedsBy(k, m, ch) && ch != Agg2 && MarketStep(k, m, k') && Stores(k, ch)
    ensures Stores(k', ch) && Log(k'.feed, ch) == Log(k.feed, ch)
    ensures QueryBook(QueryOf(k, ch)) == NOTHING && QueryOf(k', ch) == Query(k.db, m.ts)
    ensures RightMove(k, m, ch) <==> QueryBook(QueryOf(k', ch)) == NOTHING
  {
    SnapshotStored(k.db, m.ts, m.snap);
    assert Stored(k'.feed, ch) == SnapshotViews(m.snap);
    hide Queried, BookViews, SnapshotViews;
  }

  lemma SnapshotStored(db: seq<Order>, ts: int, snap: Snapshot)
    ensures Answers(snap.bids, BookOf(db, Buy, ts)) && Answers(snap.asks, BookOf(db, Sell, ts)) ==>
      SnapshotViews(snap) == BookViews(db, ts)
  {
    if Answers(snap.bids, BookOf(db, Buy, ts)) && Answers(snap.asks, BookOf(db, Sell, ts)) {
      forall p
        ensures Get(ViewOf(snap.bids), p) == Get(BookOf(db, Buy, ts), p)
        ensures Get(ViewOf(snap.asks), p) == Get(BookOf(db, Sell, ts), p)
      {
        ViewOfAt(snap.bids, p);
        ViewOfAt(snap.asks, p);
      }
      ViewsEqual(ViewOf(snap.bids), BookOf(db, Buy, ts));
      ViewsEqual(ViewOf(snap.asks), BookOf(db, Sell, ts));
    }
  }

  lemma SilentStep(k: Market, m: Move, k': Market, ch: Channel)
    requires ch != Agg2 && Publishes(k, m, ch) == None && !SeedsBy(k, m, ch) && MarketStep(k, m, k')
    ensures Log(k'.feed, ch) == Log(k.feed, ch) && Stored(k'.feed, ch) == Stored(k.feed, ch)
    ensures QueryOf(k', ch) == QueryOf(k, ch) && RightMove(k, m, ch)
  {
    hide ViewsUpdate, Queried, BookViews, SnapshotViews, After, RevisionOf, CauseOf;
  }

  /** One step seen by a client that holds the book of the last query: the stored view stays that
      book, and the client still holds it if and only if the move was right. */
  lemma ClientMoves(client: Views, k: Market, m: Move, k': Market, ch: Channel)
    requires ch != Agg2 && MarketStep(k, m, k') && Stores(k, ch)
    ensures Stores(k', ch)
    ensures client == QueryBook(QueryOf(k, ch)) ==>
      (Deliver(client, Log(k.feed, ch), Log(k'.feed, ch)) == QueryBook(QueryOf(k', ch)) <==> RightMove(k, m, ch))
  {
    hide MarketStep, RightMove, QueryBook, Publishes, SeedsBy, QueryOf, Log, ApplyMessage;
    if Publishes(k, m, ch).Some? {
      hide Stores;
      MessageStep(k, m, k', ch);
    } else if SeedsBy(k, m, ch) {
      hide Stores;
      SeedingStep(k, m, k', ch);
    } else {
      SilentStep(k, m, k', ch);
    }
  }

  lemma OneStep(ks: seq<Market>, ch: Channel, k: Market, m: Move, k': Market)
    requires ch != Agg2 && |ks| >= 2 && ks[|ks| - 2] == k && ks[|ks| - 1] == k'
    requires MarketStep(k, m, k') && Stores(k, ch)
    ensures Stores(k', ch)
    ensures Agrees(ks[..|ks| - 1], ch) ==> (Agrees(ks, ch) <==> RightMove(k, m, ch))
  {
    hide MarketStep, RightMove, QueryBook, Client, Stores, QueryOf, Log, Deliver;
    ClientStep(ks, ch);
    ClientMoves(Client(ks[..|ks| - 1], ch), k, m, k', ch);
  }

  lemma RunStep(ks: seq<Market>, ms: seq<Move>, n: nat)
    requires MarketRun(ks, ms) && 0 < n <= |ms|
    ensures |ks| == |ms| + 1 && MarketStep(ks[n - 1], ms[n - 1], ks[n])
  {
    hide MarketStep, Stores;
    assert MarketStep(ks[n - 1], ms[n - 1], ks[n - 1 + 1]);
  }

  lemma StepAt(ks: seq<Market>, ms: seq<Move>, ch: Channel, n: nat)
    requires ch != Agg2 && MarketRun(ks, ms) && 0 < n <= |ms| && Stores(ks[n - 1], ch)
    ensures Stores(ks[n], ch)
    ensures AgreesAt(ks, ch, n - 1) ==> (AgreesAt(ks, ch, n) <==> RightAt(ks, ms, ch, n - 1))
  {
    hide MarketStep, RightMove, Stores, Client, QueryBook;
    assert MarketStep(ks[n - 1], ms[n - 1], ks[n - 1 + 1]);
    OneStep(ks[..n + 1], ch, ks[n - 1], ms[n - 1], ks[n]);
    assert ks[..n + 1][..n] == ks[..n];
  }

  /** In every run of the market, however late and in whatever order events are handled, and
      whatever else changes the database: on the raw and on the 100ms channel the stored view is
      the book of the channel's last query at every point, and a client that applies every
      message holds that book throughout if and only if each message infers exactly the levels
      that vanished since the query before, and no subscription seeds a book that has levels. */
  lemma {:induction false} ClientHoldsBook(ks: seq<Market>, ms: seq<Move>, ch: Channel, n: nat)
    requires ch != Agg2 && MarketRun(ks, ms) && n <= |ms|
    ensures Stores(ks[n], ch)
    ensures AgreesThrough(ks, ch, n) <==> RightThrough(ks, ms, ch, n)
    decreases n
  {
    hide MarketStep, AgreesThrough, RightThrough, RightAt, Stores, AgreesAt;
    if n == 0 {
      AgreesAtFirst(ks, ms, ch);
    } else {
      ClientHoldsBook(ks, ms, ch, n - 1);
      StepAt(ks, ms, ch, n);
      ThroughOneMore(ks, ms, ch, n);
    }
  }

  lemma AgreesAtFirst(ks: seq<Market>, ms: seq<Move>, ch: Channel)
    requires ch != Agg2 && MarketRun(ks, ms)
    ensures Stores(ks[0], ch) && AgreesThrough(ks, ch, 0) && RightThrough(ks, ms, ch, 0)
  {
    assert Feeds(ks[..1]) == [ks[0].feed];
    assert AgreesAt(ks, ch, 0);
  }

  lemma ThroughOneMore(ks: seq<Market>, ms: seq<Move>, ch: Channel, n: nat)
    requires 0 < n <= |ms| && n < |ks|
    ensures AgreesThrough(ks, ch, n) <==> AgreesThrough(ks, ch, n - 1) && AgreesAt(ks, ch, n)
    ensures AgreesThrough(ks, ch, n - 1) ==> AgreesAt(ks, ch, n - 1)
    ensures RightThrough(ks, ms, ch, n) <==> RightThrough(ks, ms, ch, n - 1) && RightAt(ks, ms, ch, n - 1)
  {
    hide RightAt, AgreesAt;
  }

  // ---------- when a view is the present book ----------

  /** The feed's part of a move: one of its steps, or none for a save. */
  lemma FeedStep(k: Market, m: Move, k': Market) returns (input: Input)
    requires MarketStep(k, m, k')
    ensures if m.Save? then k'.feed == k.feed else Step(k.feed, input, k'.feed) && input.snap == m.snap
    ensures m.Poll? ==> input.Tick?
    ensures m.Handle? ==> input.Book? && input.ts == m.ts
  {
    hide BookStep, GroupedStep, TickStep, SubscribeStep, After, RevisionOf, CauseOf, Queried;
    match m
    case Save(_, _) => input := Tick(Snapshot([], []));
    case Handle(e, ts, snap) => input := Book(CauseOf(e), ts, snap);
    case Poll(_, snap) => input := Tick(snap);
    case Join(ch, ts, snap) => input := Subscribe(ch, ts, snap);
    case Group(cause, snap) => input := Grouped(cause, snap);
  }

  lemma {:induction false} MarketChained(ks: seq<Market>, ms: seq<Move>, n: nat)
    requires MarketRun(ks, ms) && n <= |ms| && Chained(ks[0].feed)
    ensures Chained(ks[n].feed)
    decreases n
  {
    hide Chained, MarketStep;
    if n > 0 {
      MarketChained(ks, ms, n - 1);
      RunStep(ks, ms, n);
      var input := FeedStep(ks[n - 1], ms[n - 1], ks[n]);
      if !ms[n - 1].Save? {
        StepChained(ks[n - 1].feed, input, ks[n].feed);
      }
    }
  }

  /** In every run of the market a tick publishes if and only if the 100ms channel is behind the
      raw one; the stored 100ms view is then the book the database holds at the tick, and else
      what it was. After a tick the channel has the id of the last raw message. Handling an event
      publishes one raw message, and the raw view is then the book the database holds. */
  lemma ViewIsPresent(ks: seq<Market>, ms: seq<Move>, i: nat)
    requires MarketRun(ks, ms) && i < |ms| && Chained(ks[0].feed)
    ensures var k, m, k' := ks[i], ms[i], ks[i + 1];
      && (m.Poll? && Behind(k.feed) ==>
        && Appended(k.feed.ms100, k'.feed.ms100)
        && Last(k'.feed.ms100).id == Last(k.feed.raw).id
        && Stored(k'.feed, Every100ms) == BookViews(k.db, m.ts))
      && (m.Poll? && !Behind(k.feed) ==> k'.feed.ms100 == k.feed.ms100 && Stored(k'.feed, Every100ms) == Stored(k.feed, Every100ms))
      && (m.Poll? ==> k'.feed.raw == k.feed.raw && !Behind(k'.feed))
      && (m.Handle? ==>
        && Appended(k.feed.raw, k'.feed.raw) && Last(k'.feed.raw).ts == m.ts
        && Stored(k'.feed, RawChannel) == BookViews(k.db, m.ts))
  {
    MarketChained(ks, ms, i);
    MarketChained(ks, ms, i + 1);
    RunStep(ks, ms, i + 1);
    if ms[i].Poll? {
      ClientHoldsBook(ks, ms, Every100ms, i + 1);
      hide MarketRun;
      PollStep(ks[i], ms[i], ks[i + 1]);
    } else if ms[i].Handle? {
      ClientHoldsBook(ks, ms, RawChannel, i + 1);
      hide MarketRun;
      HandleStep(ks[i], ms[i], ks[i + 1]);
    }
  }

  lemma PollStep(k: Market, m: Move, k': Market)
    requires MarketStep(k, m, k') && m.Poll? && Chained(k.feed) && Chained(k'.feed) && Stores(k', Every100ms)
    ensures Behind(k.feed) ==>
      && Appended(k.feed.ms100, k'.feed.ms100) && Last(k'.feed.ms100).id == Last(k.feed.raw).id
      && Stored(k'.feed, Every100ms) == BookViews(k.db, m.ts)
    ensures !Behind(k.feed) ==> k'.feed.ms100 == k.feed.ms100 && Stored(k'.feed, Every100ms) == Stored(k.feed, Every100ms)
    ensures k'.feed.raw == k.feed.raw && !Behind(k'.feed)
  {
    BehindPublishes(k.feed);
    BehindPublishes(k'.feed);
    hide ViewsUpdate, RawChain, Every100msChain, Published, BookViews, Queried;
  }

  lemma HandleStep(k: Market, m: Move, k': Market)
    requires MarketStep(k, m, k') && m.Handle? && Stores(k', RawChannel)
    ensures Appended(k.feed.raw, k'.feed.raw) && Last(k'.feed.raw).ts == m.ts
    ensures Stored(k'.feed, RawChannel) == BookViews(k.db, m.ts)
  {
    hide ViewsUpdate, BookViews, Queried;
  }

  // ---------- lag ----------

  /** The message of an order event names at most one level, so when two levels vanished since
      the previous query it is wrong, whatever the event. */
  lemma TwoLevelsVanish(before: seq<Order>, cut: int, after: seq<Order>, later: int, snap: Snapshot,
                        order: OrderEvent, side: Side, p: Price, side': Side, p': Price)
    requires (side, p) != (side', p')
    requires Vanished(before, cut, after, later, side, p) && Vanished(before, cut, after, later, side', p')
    ensures !Announced(before, cut, after, later, snap, Single(order))
  {
    if Announced(before, cut, after, later, snap, Single(order)) {
      hide Vanished, BookViews;
      var gone := SingleGone(BookViews(before, cut), order);
      assert p in SideGone(gone, side) && p' in SideGone(gone, side');
      NamesOne(BookViews(before, cut), order, side, p, side', p');
    }
  }

  lemma NamesOne(view: Views, order: OrderEvent, side: Side, p: Price, side': Side, p': Price)
    requires p in SideGone(SingleGone(view, order), side) && p' in SideGone(SingleGone(view, order), side')
    ensures side == side' && p == p'
  {
  }

  /** The events saved since the last query of a channel, in order. */
  function Unseen(ks: seq<Market>, ms: seq<Move>, ch: Channel, n: nat): seq<Event>
    requires n <= |ms| && n <= |ks|
  {
    if n == 0 then []
    else if ms[n - 1].Save? then Unseen(ks, ms, ch, n - 1) + [ms[n - 1].event]
    else if Publishes(ks[n - 1], ms[n - 1], ch).Some? || SeedsBy(ks[n - 1], ms[n - 1], ch) then []
    else Unseen(ks, ms, ch, n - 1)
  }

  function AfterAll(db: seq<Order>, events: seq<Event>): seq<Order> {
    if events == [] then db
    else After(AfterAll(db, events[..|events| - 1]), RevisionOf(events[|events| - 1]))
  }

  lemma DatabaseStep(k: Market, m: Move, k': Market, ch: Channel)
    requires ch != Agg2 && MarketStep(k, m, k')
    ensures k'.db == if m.Save? then After(k.db, RevisionOf(m.event)) else k.db
    ensures QueryOf(k', ch) ==
      if Publishes(k, m, ch).Some? || SeedsBy(k, m, ch) then Query(k.db, m.ts) else QueryOf(k, ch)
    ensures m.Save? ==> Publishes(k, m, ch) == None && !SeedsBy(k, m, ch)
  {
    hide After, RevisionOf, CauseOf, Queried, BookStep, TickStep, GroupedStep, SubscribeStep;
  }

  /** What separates the database from what the last query saw is what was saved since. */
  lemma {:induction false} SavedSince(ks: seq<Market>, ms: seq<Move>, ch: Channel, n: nat)
    requires ch != Agg2 && MarketRun(ks, ms) && n <= |ms| && QueryOf(ks[0], ch).db == ks[0].db
    ensures ks[n].db == AfterAll(QueryOf(ks[n], ch).db, Unseen(ks, ms, ch, n))
    decreases n
  {
    if n > 0 {
      SavedSince(ks, ms, ch, n - 1);
      RunStep(ks, ms, n);
      DatabaseStep(ks[n - 1], ms[n - 1], ks[n], ch);
      hide MarketRun, MarketStep, After, RevisionOf, Publishes, SeedsBy, QueryOf;
      if ms[n - 1].Save? {
        var events := Unseen(ks, ms, ch, n - 1);
        assert (events + [ms[n - 1].event])[..|events|] == events;
      }
    }
  }
}
