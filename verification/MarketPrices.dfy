/** Price by price, what a client of the raw or the 100ms channel holds after a run of the market,
    and when it is what the book lists there. */
module MarketPrices {
  import opened Options
  import opened Delta
  import opened Book
  import opened Feed
  import opened FeedRuns
  import opened BookEvents
  import opened MarketRuns

  /** What the book of the channel's last query lists at a price. */
  function Listed(k: Market, ch: Channel, side: Side, p: Price): Option<Amount> {
    Get(SideView(QueryBook(QueryOf(k, ch)), side), p)
  }

  /** The message of a move deletes a price: it infers that the level is gone. */
  predicate Deletes(k: Market, m: Move, ch: Channel, side: Side, p: Price) {
    match Publishes(k, m, ch)
    case Some(cause) => p in SideGone(GoneFor(QueryBook(QueryOf(k, ch)), m.snap, cause), side)
    case None => false
  }

  /** The message of a move writes a price: what the book lists there is new. */
  predicate Writes(k: Market, m: Move, k': Market, ch: Channel, side: Side, p: Price) {
    Publishes(k, m, ch).Some? && Listed(k', ch, side, p).Some? && Listed(k', ch, side, p) != Listed(k, ch, side, p)
  }

  /** What the messages have told the client about a price: the last thing written there, unless
      it was deleted since, in the same message or a later one. */
  function Told(ks: seq<Market>, ms: seq<Move>, ch: Channel, n: nat, side: Side, p: Price): Option<Amount>
    requires n <= |ms| && |ks| == |ms| + 1
  {
    if n == 0 then Listed(ks[0], ch, side, p)
    else if Deletes(ks[n - 1], ms[n - 1], ch, side, p) then None
    else if Writes(ks[n - 1], ms[n - 1], ks[n], ch, side, p) then Listed(ks[n], ch, side, p)
    else Told(ks, ms, ch, n - 1, side, p)
  }

  lemma SideTold(client: View, before: seq<Order>, cut: int, after: seq<Order>, later: int, side: Side,
                 levels: seq<Level>, gone: set<Price>, rows: seq<Row>, next: View, p: Price)
    requires Sound(before) && Sound(after) && Answers(levels, BookOf(after, side, later))
    requires SideUpdate(BookOf(before, side, cut), levels, gone, rows, next)
    ensures var was, now := Get(BookOf(before, side, cut), p), Get(BookOf(after, side, later), p);
      Get(Apply(client, rows), p) ==
        if p in gone then None else if now.Some? && now != was then now else Get(client, p)
  {
    var view := BookOf(before, side, cut);
    ApplyUpdate(client, view, levels, gone, rows, next);
    DiffAt(view, levels, client, p);
    BookAt(after, side, later, p);
    assert Quote(levels, p) == Get(BookOf(after, side, later), p);
  }

  /** What one message does to a client at one price. */
  lemma MessageTold(client: Views, k: Market, m: Move, k': Market, ch: Channel, side: Side, p: Price)
    requires Publishes(k, m, ch).Some? && MarketStep(k, m, k') && Stores(k, ch)
    ensures Get(SideView(Deliver(client, Log(k.feed, ch), Log(k'.feed, ch)), side), p) ==
      if Deletes(k, m, ch, side, p) then None
      else if Writes(k, m, k', ch, side, p) then Listed(k', ch, side, p)
      else Get(SideView(client, side), p)
  {
    hide MarketStep;
    PublishedStep(k, m, k', ch);
    var message, q, next := Log(k'.feed, ch)[|Log(k.feed, ch)|], QueryOf(k, ch), Stored(k'.feed, ch);
    hide ViewsUpdate, Queried, BookViews, Publishes, Log, QueryOf, GoneFor;
    ViewsTold(client, q, k.db, m.ts, m.snap, Publishes(k, m, ch).value, message.bids, message.asks, next, side, p);
  }

  lemma ViewsTold(client: Views, q: Query, after: seq<Order>, later: int, snap: Snapshot, cause: Cause,
                  bids: seq<Row>, asks: seq<Row>, next: Views, side: Side, p: Price)
    requires Queried(q.db, after, later, snap)
    requires ViewsUpdate(QueryBook(q), snap, cause, bids, asks, next)
    ensures var was, now := Get(SideView(QueryBook(q), side), p), Get(SideView(BookViews(after, later), side), p);
      Get(SideView(Views(Apply(client.bids, bids), Apply(client.asks, asks)), side), p) ==
        if p in SideGone(GoneFor(QueryBook(q), snap, cause), side) then None
        else if now.Some? && now != was then now
        else Get(SideView(client, side), p)
  {
    var gone := GoneFor(QueryBook(q), snap, cause);
    hide SideUpdate, Answers, Sound, BookOf, GoneFor;
    match side
    case Buy => SideTold(client.bids, q.db, q.at, after, later, Buy, snap.bids, gone.bids, bids, next.bids, p);
    case Sell => SideTold(client.asks, q.db, q.at, after, later, Sell, snap.asks, gone.asks, asks, next.asks, p);
  }

  lemma OtherTold(client: Views, k: Market, m: Move, k': Market, ch: Channel, side: Side, p: Price)
    requires ch != Agg2 && Publishes(k, m, ch) == None && MarketStep(k, m, k') && Stores(k, ch)
    ensures Deliver(client, Log(k.feed, ch), Log(k'.feed, ch)) == client
    ensures !Deletes(k, m, ch, side, p) && !Writes(k, m, k', ch, side, p)
    ensures !SeedsBy(k, m, ch) ==> Listed(k', ch, side, p) == Listed(k, ch, side, p)
  {
    hide MarketStep, Stores, BookViews, Publishes, SeedsBy;
    if SeedsBy(k, m, ch) {
      SeedingStep(k, m, k', ch);
    } else {
      SilentStep(k, m, k', ch);
    }
  }

  lemma ClientNext(ks: seq<Market>, ch: Channel, n: nat)
    requires 0 < n < |ks|
    ensures Client(ks[..n + 1], ch) == Deliver(Client(ks[..n], ch), Log(ks[n - 1].feed, ch), Log(ks[n].feed, ch))
  {
    hide Client, Deliver, Log;
    ClientStep(ks[..n + 1], ch);
    assert ks[..n + 1][..n] == ks[..n];
  }

  lemma ToldStep(ks: seq<Market>, ms: seq<Move>, ch: Channel, n: nat, side: Side, p: Price)
    requires ch != Agg2 && MarketRun(ks, ms) && 0 < n <= |ms|
    requires Get(SideView(Client(ks[..n], ch), side), p) == Told(ks, ms, ch, n - 1, side, p)
    ensures Get(SideView(Client(ks[..n + 1], ch), side), p) == Told(ks, ms, ch, n, side, p)
  {
    hide *;
    RunStep(ks, ms, n);
    var k, m, k' := ks[n - 1], ms[n - 1], ks[n];
    ClientHoldsBook(ks, ms, ch, n - 1);
    ClientNext(ks, ch, n);
    ToldNext(ks, ms, ch, n, side, p);
    if Publishes(k, m, ch).Some? {
      MessageTold(Client(ks[..n], ch), k, m, k', ch, side, p);
    } else {
      OtherTold(Client(ks[..n], ch), k, m, k', ch, side, p);
    }
  }

  lemma ToldFirst(ks: seq<Market>, ms: seq<Move>, ch: Channel, side: Side, p: Price)
    requires ch != Agg2 && MarketRun(ks, ms)
    ensures Get(SideView(Client(ks[..1], ch), side), p) == Told(ks, ms, ch, 0, side, p)
  {
    assert Feeds(ks[..1]) == [ks[0].feed];
    assert Stores(ks[0], ch);
  }

  /** After any run the client holds, at every price, exactly what it was last told. */
  lemma {:induction false} ToldExact(ks: seq<Market>, ms: seq<Move>, ch: Channel, n: nat, side: Side, p: Price)
    requires ch != Agg2 && MarketRun(ks, ms) && n <= |ms|
    ensures Get(SideView(Client(ks[..n + 1], ch), side), p) == Told(ks, ms, ch, n, side, p)
    decreases n
  {
    hide *;
    if n == 0 {
      ToldFirst(ks, ms, ch, side, p);
    } else {
      ToldExact(ks, ms, ch, n - 1, side, p);
      ToldStep(ks, ms, ch, n, side, p);
    }
  }

  // ---------- when that is what the book lists ----------

  ghost predicate Unseeded(ks: seq<Market>, ms: seq<Move>, ch: Channel, n: nat)
    requires n <= |ms| && |ks| == |ms| + 1
  {
    forall i :: 0 <= i < n ==> !SeedsBy(ks[i], ms[i], ch)
  }

  ghost predicate NoWrite(ks: seq<Market>, ms: seq<Move>, ch: Channel, lo: nat, n: nat, side: Side, p: Price)
    requires n <= |ms| && |ks| == |ms| + 1
  {
    forall j :: lo <= j < n ==> !Writes(ks[j], ms[j], ks[j + 1], ch, side, p)
  }

  ghost predicate NotListed(ks: seq<Market>, ch: Channel, lo: nat, n: nat, side: Side, p: Price)
    requires n < |ks|
  {
    forall j :: lo <= j <= n ==> Listed(ks[j], ch, side, p) == None
  }

  /** A false delete stands: a message deleted a level that its query still listed, and none has
      written the price since. */
  ghost predicate FalseDelete(ks: seq<Market>, ms: seq<Move>, ch: Channel, n: nat, side: Side, p: Price)
    requires n <= |ms| && |ks| == |ms| + 1
  {
    exists i :: 0 <= i < n && Deletes(ks[i], ms[i], ch, side, p) && Listed(ks[i + 1], ch, side, p).Some?
      && NoWrite(ks, ms, ch, i + 1, n, side, p)
  }

  /** A vanishing went unannounced: when the price was last listed, no false delete hid it, and
      the message that found it gone did not delete it. */
  ghost predicate Unannounced(ks: seq<Market>, ms: seq<Move>, ch: Channel, n: nat, side: Side, p: Price)
    requires n <= |ms| && |ks| == |ms| + 1
  {
    exists i :: 0 <= i < n && Listed(ks[i], ch, side, p).Some? && !Deletes(ks[i], ms[i], ch, side, p)
      && !FalseDelete(ks, ms, ch, i, side, p) && NotListed(ks, ch, i + 1, n, side, p)
  }

  lemma NoWriteNext(ks: seq<Market>, ms: seq<Move>, ch: Channel, lo: nat, n: nat, side: Side, p: Price)
    requires lo < n <= |ms| && |ks| == |ms| + 1
    ensures NoWrite(ks, ms, ch, lo, n, side, p) <==>
      NoWrite(ks, ms, ch, lo, n - 1, side, p) && !Writes(ks[n - 1], ms[n - 1], ks[n], ch, side, p)
    ensures NoWrite(ks, ms, ch, n, n, side, p)
  {
    hide Writes;
    assert ks[n] == ks[n - 1 + 1];
  }

  lemma FalseDeleteNext(ks: seq<Market>, ms: seq<Move>, ch: Channel, n: nat, side: Side, p: Price)
    requires 0 < n <= |ms| && |ks| == |ms| + 1
    ensures FalseDelete(ks, ms, ch, n, side, p) <==>
      || (Deletes(ks[n - 1], ms[n - 1], ch, side, p) && Listed(ks[n], ch, side, p).Some?)
      || (FalseDelete(ks, ms, ch, n - 1, side, p) && !Writes(ks[n - 1], ms[n - 1], ks[n], ch, side, p))
  {
    hide Deletes, Writes, Listed, NoWrite;
    assert ks[n] == ks[n - 1 + 1];
    NoWriteNext(ks, ms, ch, n - 1, n, side, p);
    if FalseDelete(ks, ms, ch, n - 1, side, p) {
      var i :| 0 <= i < n - 1 && Deletes(ks[i], ms[i], ch, side, p) && Listed(ks[i + 1], ch, side, p).Some?
        && NoWrite(ks, ms, ch, i + 1, n - 1, side, p);
      NoWriteNext(ks, ms, ch, i + 1, n, side, p);
    }
    if FalseDelete(ks, ms, ch, n, side, p) {
      var i :| 0 <= i < n && Deletes(ks[i], ms[i], ch, side, p) && Listed(ks[i + 1], ch, side, p).Some?
        && NoWrite(ks, ms, ch, i + 1, n, side, p);
      if i < n - 1 {
        NoWriteNext(ks, ms, ch, i + 1, n, side, p);
      }
    }
  }

  lemma UnannouncedNext(ks: seq<Market>, ms: seq<Move>, ch: Channel, n: nat, side: Side, p: Price)
    requires 0 < n <= |ms| && |ks| == |ms| + 1 && Listed(ks[n], ch, side, p) == None
    ensures Unannounced(ks, ms, ch, n, side, p) <==>
      if Listed(ks[n - 1], ch, side, p).Some? then
        !Deletes(ks[n - 1], ms[n - 1], ch, side, p) && !FalseDelete(ks, ms, ch, n - 1, side, p)
      else Unannounced(ks, ms, ch, n - 1, side, p)
  {
    hide Deletes, FalseDelete, Listed;
    if Listed(ks[n - 1], ch, side, p).Some? {
      if !Deletes(ks[n - 1], ms[n - 1], ch, side, p) && !FalseDelete(ks, ms, ch, n - 1, side, p) {
        assert NotListed(ks, ch, n - 1 + 1, n, side, p);
      }
    } else if Unannounced(ks, ms, ch, n - 1, side, p) {
      var i :| 0 <= i < n - 1 && Listed(ks[i], ch, side, p).Some? && !Deletes(ks[i], ms[i], ch, side, p)
        && !FalseDelete(ks, ms, ch, i, side, p) && NotListed(ks, ch, i + 1, n - 1, side, p);
      assert NotListed(ks, ch, i + 1, n, side, p);
    }
    if Unannounced(ks, ms, ch, n, side, p) {
      var i :| 0 <= i < n && Listed(ks[i], ch, side, p).Some? && !Deletes(ks[i], ms[i], ch, side, p)
        && !FalseDelete(ks, ms, ch, i, side, p) && NotListed(ks, ch, i + 1, n, side, p);
      if i < n - 1 {
        assert NotListed(ks, ch, i + 1, n - 1, side, p);
        assert Listed(ks[n - 1], ch, side, p) == None;
      }
    }
  }

  /** What a deleted price was: listed before. */
  lemma DeletesListed(k: Market, m: Move, ch: Channel, side: Side, p: Price)
    ensures Deletes(k, m, ch, side, p) ==> Listed(k, ch, side, p).Some?
  {
    if Deletes(k, m, ch, side, p) {
      GoneStored(QueryBook(QueryOf(k, ch)), m.snap, Publishes(k, m, ch).value);
    }
  }

  /** A price that no message touches stays as it was listed, or ceases to be. */
  lemma UntouchedListing(k: Market, m: Move, k': Market, ch: Channel, side: Side, p: Price)
    requires ch != Agg2 && MarketStep(k, m, k') && Stores(k, ch) && !SeedsBy(k, m, ch)
    requires !Writes(k, m, k', ch, side, p) && Listed(k', ch, side, p).Some?
    ensures Listed(k', ch, side, p) == Listed(k, ch, side, p)
  {
    if Publishes(k, m, ch) == None {
      hide MarketStep, Stores, Publishes, Listed, Writes;
      OtherTold(NOTHING, k, m, k', ch, side, p);
    }
  }

  /** What the client was told about a price, from the listings and the deletes alone. */
  lemma {:induction false} ToldListing(ks: seq<Market>, ms: seq<Move>, ch: Channel, n: nat, side: Side, p: Price)
    requires ch != Agg2 && MarketRun(ks, ms) && n <= |ms| && Unseeded(ks, ms, ch, n)
    ensures Listed(ks[n], ch, side, p).Some? ==>
      Told(ks, ms, ch, n, side, p) ==
        if FalseDelete(ks, ms, ch, n, side, p) then None else Listed(ks[n], ch, side, p)
    ensures Listed(ks[n], ch, side, p) == None ==>
      (Told(ks, ms, ch, n, side, p).Some? <==> Unannounced(ks, ms, ch, n, side, p))
    decreases n
  {
    if n > 0 {
      var k, m, k' := ks[n - 1], ms[n - 1], ks[n];
      RunStep(ks, ms, n);
      assert !SeedsBy(k, m, ch);
      ClientHoldsBook(ks, ms, ch, n - 1);
      ToldListing(ks, ms, ch, n - 1, side, p);
      hide MarketRun, MarketStep, Stores, FalseDelete, Unannounced, AgreesThrough, RightThrough;
      ToldNext(ks, ms, ch, n, side, p);
      FalseDeleteNext(ks, ms, ch, n, side, p);
      DeletesListed(k, m, ch, side, p);
      if Listed(k', ch, side, p).Some? {
        WritesListed(k, m, k', ch, side, p);
        if !Writes(k, m, k', ch, side, p) {
          UntouchedListing(k, m, k', ch, side, p);
        }
      } else {
        WritesListed(k, m, k', ch, side, p);
        UnannouncedNext(ks, ms, ch, n, side, p);
      }
    }
  }

  lemma WritesListed(k: Market, m: Move, k': Market, ch: Channel, side: Side, p: Price)
    ensures Writes(k, m, k', ch, side, p) ==> Listed(k', ch, side, p).Some?
  {
  }

  lemma ToldNext(ks: seq<Market>, ms: seq<Move>, ch: Channel, n: nat, side: Side, p: Price)
    requires 0 < n <= |ms| && |ks| == |ms| + 1
    ensures Told(ks, ms, ch, n, side, p) ==
      if Deletes(ks[n - 1], ms[n - 1], ch, side, p) then None
      else if Writes(ks[n - 1], ms[n - 1], ks[n], ch, side, p) then Listed(ks[n], ch, side, p)
      else Told(ks, ms, ch, n - 1, side, p)
  {
  }

  /** A client is right at a price: no false delete stands there while it is listed, and when it
      is not, its last vanishing did not go unannounced. */
  ghost predicate PriceRight(ks: seq<Market>, ms: seq<Move>, ch: Channel, n: nat, side: Side, p: Price)
    requires n <= |ms| && |ks| == |ms| + 1
  {
    if Listed(ks[n], ch, side, p).Some? then !FalseDelete(ks, ms, ch, n, side, p)
    else !Unannounced(ks, ms, ch, n, side, p)
  }

  /** After any run the client holds the book of the last query if and only if it was last told
      of each price what the book lists there. */
  lemma HoldsAsTold(ks: seq<Market>, ms: seq<Move>, ch: Channel, n: nat)
    requires ch != Agg2 && MarketRun(ks, ms) && n <= |ms|
    ensures AgreesAt(ks, ch, n) <==> forall side, p :: Told(ks, ms, ch, n, side, p) == Listed(ks[n], ch, side, p)
  {
    var client, book := Client(ks[..n + 1], ch), QueryBook(QueryOf(ks[n], ch));
    forall side, p ensures Get(SideView(client, side), p) == Told(ks, ms, ch, n, side, p) {
      ToldExact(ks, ms, ch, n, side, p);
    }
    hide Client, QueryBook, MarketRun, Told;
    assert AgreesAt(ks, ch, n) <==> client == book;
    SameViews(client, book);
    if forall side, p :: Told(ks, ms, ch, n, side, p) == Listed(ks[n], ch, side, p) {
      forall side, p ensures Get(SideView(client, side), p) == Get(SideView(book, side), p) {
        assert Told(ks, ms, ch, n, side, p) == Listed(ks[n], ch, side, p);
      }
    }
  }

  /** After any run in which no subscription seeds the channel, whatever went wrong on the way,
      the client holds the book of the last query if and only if, price by price, no false delete
      stands and no vanishing has gone unannounced since the price was last listed. */
  lemma HoldsPriceByPrice(ks: seq<Market>, ms: seq<Move>, ch: Channel, n: nat)
    requires ch != Agg2 && MarketRun(ks, ms) && n <= |ms| && Unseeded(ks, ms, ch, n)
    ensures AgreesAt(ks, ch, n) <==> forall side, p :: PriceRight(ks, ms, ch, n, side, p)
  {
    forall side, p
      ensures Told(ks, ms, ch, n, side, p) == Listed(ks[n], ch, side, p) <==> PriceRight(ks, ms, ch, n, side, p)
    {
      ToldListing(ks, ms, ch, n, side, p);
    }
    HoldsAsTold(ks, ms, ch, n);
    hide PriceRight, Told, Listed, AgreesAt, MarketRun;
    if forall side, p :: PriceRight(ks, ms, ch, n, side, p) {
      forall side, p ensures Told(ks, ms, ch, n, side, p) == Listed(ks[n], ch, side, p) {
        assert PriceRight(ks, ms, ch, n, side, p);
      }
    }
  }

  lemma SameViews(a: Views, b: Views)
    ensures a == b <==> forall side, p :: Get(SideView(a, side), p) == Get(SideView(b, side), p)
  {
    if forall side, p :: Get(SideView(a, side), p) == Get(SideView(b, side), p) {
      forall p
        ensures Get(a.bids, p) == Get(b.bids, p)
        ensures Get(a.asks, p) == Get(b.asks, p)
      {
        assert Get(SideView(a, Buy), p) == Get(SideView(b, Buy), p);
        assert Get(SideView(a, Sell), p) == Get(SideView(b, Sell), p);
      }
      ViewsEqual(a.bids, b.bids);
      ViewsEqual(a.asks, b.asks);
    }
  }
}
