/** The incremental order-book feed of one instrument: the stored change record with its
    three views, the handlers that publish deltas, and the snapshot sent on subscription.
    One handler call is one step; the store and the published messages are fields. */
module Feed {
  import opened Options
  import opened Delta
  import opened Book

  datatype Views = Views(bids: View, asks: View)
  datatype Snapshot = Snapshot(bids: seq<Level>, asks: seq<Level>)
  datatype Channel = RawChannel | Every100ms | Agg2

  const NOTHING := Views(map[], map[])

  /** The record stored for an instrument. */
  datatype Record = Record(id: int, prev: int, ts: int, tsPrev: int,
                           raw: Views, ms100: Views, agg: Views)

  const ZERO := Record(0, 0, 0, 0, NOTHING, NOTHING, NOTHING)

  datatype Amendment = Amendment(oldPrice: Option<Price>)
  datatype OrderEvent = OrderEvent(status: Status, side: Side, price: Price, amount: Amount,
                                   amendments: seq<Amendment>)

  /** What a handler infers deletes from: one order, or the summed amounts of a cancelled batch. */
  datatype Cause = Single(order: OrderEvent) | Batch(cancelled: Views)

  datatype Message = Message(id: int, prev: int, ts: int, bids: seq<Row>, asks: seq<Row>)
  datatype Notice = Notice(id: int, cause: Cause)

  // ---------- inferred deletes ----------

  datatype Gone = Gone(bids: set<Price>, asks: set<Price>)

  function At(view: View, p: Price, amount: Amount): set<Price> {
    if p in view && view[p] - amount == 0.0 then {p} else {}
  }

  /** A cancel names its own level; a fill names the level opposite at its limit price; an
      edit names the level it left. Nothing is inferred otherwise. */
  function SingleGone(view: Views, o: OrderEvent): Gone {
    if o.status == Cancelled then
      if o.side == Buy then Gone(At(view.bids, o.price, o.amount), {})
      else Gone({}, At(view.asks, o.price, o.amount))
    else if o.status == Filled then
      if o.side == Buy then Gone({}, At(view.asks, o.price, o.amount))
      else Gone(At(view.bids, o.price, o.amount), {})
    else if |o.amendments| > 0 && o.amendments[|o.amendments| - 1].oldPrice.Some? then
      var p := o.amendments[|o.amendments| - 1].oldPrice.value;
      if o.side == Buy then Gone(if p in view.bids && p != o.price then {p} else {}, {})
      else Gone({}, if p in view.asks && p != o.price then {p} else {})
    else Gone({}, {})
  }

  /** A batch names each level it cancelled from whose whole stored amount it cancelled,
      unless the diff already published a row for it. */
  function BatchGone(view: View, cancelled: View, touched: set<Price>): set<Price> {
    set p | p in cancelled && p !in touched && p in view && view[p] - cancelled[p] == 0.0
  }

  function GoneFor(view: Views, snap: Snapshot, cause: Cause): Gone {
    match cause
    case Single(o) => SingleGone(view, o)
    case Batch(c) =>
      Gone(BatchGone(view.bids, c.bids, Prices(DiffRows(view.bids, snap.bids))),
           BatchGone(view.asks, c.asks, Prices(DiffRows(view.asks, snap.asks))))
  }

  /** Only stored levels are inferred gone. */
  lemma GoneStored(view: Views, snap: Snapshot, cause: Cause)
    ensures GoneFor(view, snap, cause).bids <= view.bids.Keys
    ensures GoneFor(view, snap, cause).asks <= view.asks.Keys
  {
  }

  method InferSingle(view: Views, o: OrderEvent) returns (bids: seq<Row>, asks: seq<Row>)
    ensures Deletes(bids, SingleGone(view, o).bids)
    ensures Deletes(asks, SingleGone(view, o).asks)
  {
    bids, asks := [], [];
    if o.status == Cancelled {
      match o.side
      case Buy =>
        if o.price in view.bids && view.bids[o.price] - o.amount == 0.0 {
          bids := bids + [Row(Delete, o.price, 0.0)];
        }
      case Sell =>
        if o.price in view.asks && view.asks[o.price] - o.amount == 0.0 {
          asks := asks + [Row(Delete, o.price, 0.0)];
        }
    } else if o.status == Filled {
      match o.side
      case Buy =>
        if o.price in view.asks && view.asks[o.price] - o.amount == 0.0 {
          asks := asks + [Row(Delete, o.price, 0.0)];
        }
      case Sell =>
        if o.price in view.bids && view.bids[o.price] - o.amount == 0.0 {
          bids := bids + [Row(Delete, o.price, 0.0)];
        }
    } else if |o.amendments| > 0 {
      var updated := o.amendments[|o.amendments| - 1];
      if updated.oldPrice.Some? {
        var p := updated.oldPrice.value;
        match o.side
        case Buy =>
          if p in view.bids && p != o.price {
            bids := bids + [Row(Delete, p, 0.0)];
          }
        case Sell =>
          if p in view.asks && p != o.price {
            asks := asks + [Row(Delete, p, 0.0)];
          }
      }
    }
  }

  lemma DeletesOne(rows: seq<Row>, gone: set<Price>, p: Price)
    requires Deletes(rows, gone) && p !in gone
    ensures Deletes(rows + [Row(Delete, p, 0.0)], gone + {p})
  {
    var last := [Row(Delete, p, 0.0)];
    PricesConcat(rows, last);
    assert Prices(last) == {p} by { assert last[0] in last; }
    forall i | 0 <= i < |rows| ensures rows[i].price != p {
      assert rows[i] in rows && rows[i].price in Prices(rows);
    }
  }

  lemma SomeMember(todo: set<Price>)
    ensures todo == {} || exists p :: p in todo
  {
    if forall p :: p !in todo {
      assert todo == {};
    }
  }

  lemma OneMore(all: set<Price>, todo: set<Price>, p: Price)
    requires p in todo
    ensures all - (todo - {p}) == if p in all then (all - todo) + {p} else all - todo
  {
  }

  /** The loop over a cancelled side; the map's keys come in no particular order. */
  method InferBatch(view: View, cancelled: View, touched: set<Price>) returns (rows: seq<Row>)
    ensures Deletes(rows, BatchGone(view, cancelled, touched))
  {
    rows := [];
    var todo, named := cancelled.Keys, touched;
    ghost var all := BatchGone(view, cancelled, touched);
    assert all - todo == {};
    while todo != {}
      invariant todo <= cancelled.Keys
      invariant named == touched + (all - todo)
      invariant Deletes(rows, all - todo)
      decreases todo
    {
      SomeMember(todo);
      var p :| p in todo;
      OneMore(all, todo, p);
      if p !in named {
        if p in view && view[p] - cancelled[p] == 0.0 {
          assert p in all;
          DeletesOne(rows, all - todo, p);
          rows := rows + [Row(Delete, p, 0.0)];
          named := named + {p};
        }
      }
      todo := todo - {p};
    }
    assert all - todo == all;
  }

  // ---------- one delta ----------

  ghost predicate ViewsUpdate(view: Views, snap: Snapshot, cause: Cause,
                              bids: seq<Row>, asks: seq<Row>, next: Views) {
    var gone := GoneFor(view, snap, cause);
    && SideUpdate(view.bids, snap.bids, gone.bids, bids, next.bids)
    && SideUpdate(view.asks, snap.asks, gone.asks, asks, next.asks)
  }

  /** The part the four handlers share: diff both sides, append the inferred deletes. */
  method ComputeDelta(view: Views, snap: Snapshot, cause: Cause)
    returns (bids: seq<Row>, asks: seq<Row>, next: Views)
    ensures ViewsUpdate(view, snap, cause, bids, asks, next)
  {
    var asks0, nextAsks, askKeys := DiffSide(view.asks, snap.asks);
    var bids0, nextBids, bidKeys := DiffSide(view.bids, snap.bids);
    var bids1, asks1;
    match cause {
      case Single(o) =>
        bids1, asks1 := InferSingle(view, o);
      case Batch(c) =>
        asks1 := InferBatch(view.asks, c.asks, askKeys);
        bids1 := InferBatch(view.bids, c.bids, bidKeys);
    }
    bids, asks, next := bids0 + bids1, asks0 + asks1, Views(nextBids, nextAsks);
    assert bids[|bids0|..] == bids1 && asks[|asks0|..] == asks1;
    assert bids[..|bids0|] == bids0 && asks[..|asks0|] == asks0;
  }

  // ---------- the cancelled sums ----------

  datatype CancelledOrder = CancelledOrder(instrument: string, order: Order)

  function AddTo(sums: View, p: Price, amount: Amount): View {
    sums[p := (if p in sums then sums[p] else 0.0) + amount]
  }

  function Instruments(batch: seq<CancelledOrder>): set<string> {
    set c | c in batch :: c.instrument
  }

  /** The first loop of the batch handler. The two maps are shared by every instrument of
      the batch, and the first order of an instrument overwrites whatever is at its price. */
  function SharedSums(batch: seq<CancelledOrder>): Views {
    if batch == [] then NOTHING
    else
      var init, last := batch[..|batch| - 1], batch[|batch| - 1];
      var o, sums := last.order, SharedSums(init);
      if last.instrument in Instruments(init) then
        if o.side == Buy then sums.(bids := AddTo(sums.bids, o.price, o.amount))
        else sums.(asks := AddTo(sums.asks, o.price, o.amount))
      else
        if o.side == Buy then sums.(bids := sums.bids[o.price := o.amount])
        else sums.(asks := sums.asks[o.price := o.amount])
  }

  lemma InstrumentsNext(batch: seq<CancelledOrder>, i: nat)
    requires i < |batch|
    ensures Instruments(batch[..i + 1]) == Instruments(batch[..i]) + {batch[i].instrument}
  {
    assert batch[..i + 1] == batch[..i] + [batch[i]];
    assert batch[i] in batch[..i + 1];
    forall c | c in batch[..i] ensures c in batch[..i + 1] {}
  }

  method CollectCancelled(batch: seq<CancelledOrder>) returns (sums: Views)
    ensures sums == SharedSums(batch)
  {
    var bids: View, asks: View := map[], map[];
    var books: set<string> := {};
    for i := 0 to |batch|
      invariant books == Instruments(batch[..i])
      invariant Views(bids, asks) == SharedSums(batch[..i])
    {
      var o := batch[i].order;
      if batch[i].instrument !in books {
        match o.side {
          case Buy => bids := bids[o.price := o.amount];
          case Sell => asks := asks[o.price := o.amount];
        }
      } else {
        match o.side {
          case Buy =>
            if o.price !in bids {
              bids := bids[o.price := o.amount];
            } else {
              bids := bids[o.price := bids[o.price] + o.amount];
            }
          case Sell =>
            if o.price !in asks {
              asks := asks[o.price := o.amount];
            } else {
              asks := asks[o.price := asks[o.price] + o.amount];
            }
        }
      }
      books := books + {batch[i].instrument};
      assert batch[..i + 1][..i] == batch[..i];
      InstrumentsNext(batch, i);
    }
    assert batch[..|batch|] == batch;
    sums := Views(bids, asks);
  }

  // ---------- the state and its steps ----------

  datatype State = State(stored: Option<Record>, snapshotId: Option<int>,
                         latest: Option<Notice>, local: Option<Notice>,
                         raw: seq<Message>, ms100: seq<Message>, agg: seq<Message>)

  const START := State(None, None, None, None, [], [], [])

  datatype Input =
    | Book(cause: Cause, ts: int, snap: Snapshot)          // an order event or a cancelled batch
    | Grouped(cause: Cause, snap: Snapshot)                // the agg2 handler started by the former
    | Tick(snap: Snapshot)                                 // the 100ms ticker
    | Subscribe(channel: Channel, ts: int, snap: Snapshot) // a client's snapshot

  function NoticeId(n: Option<Notice>): int {
    if n.Some? then n.value.id else 0
  }

  /** The cause in the ticker's entry; an absent entry names no order and infers nothing. */
  function LatestCause(n: Option<Notice>): Cause {
    if n.Some? then n.value.cause else Batch(NOTHING)
  }

  function RecordOf(s: State): Record {
    if s.stored.Some? then s.stored.value else ZERO
  }

  function ViewOf(levels: seq<Level>): View {
    if levels == [] then map[]
    else ViewOf(levels[..|levels| - 1])[levels[|levels| - 1].price := levels[|levels| - 1].amount]
  }

  function SnapshotViews(snap: Snapshot): Views {
    Views(ViewOf(snap.bids), ViewOf(snap.asks))
  }

  function ChannelViews(r: Record, channel: Channel): Views {
    match channel
    case RawChannel => r.raw
    case Every100ms => r.ms100
    case Agg2 => r.agg
  }

  function WithViews(r: Record, channel: Channel, v: Views): Record {
    match channel
    case RawChannel => r.(raw := v)
    case Every100ms => r.(ms100 := v)
    case Agg2 => r.(agg := v)
  }

  ghost predicate BookStep(s: State, cause: Cause, ts: int, snap: Snapshot, s': State) {
    var r := RecordOf(s);
    && |s'.raw| == |s.raw| + 1 && s'.raw[..|s.raw|] == s.raw
    && s'.stored.Some?
    && var m, r' := s'.raw[|s.raw|], s'.stored.value;
    && r' == Record(r.id + 1, r.id, ts, r.ts, r'.raw, r.ms100, r.agg)
    && m == Message(r.id + 1, r.id, ts, m.bids, m.asks)
    && ViewsUpdate(r.raw, snap, cause, m.bids, m.asks, r'.raw)
    && s' == s.(stored := Some(r'), latest := Some(Notice(r.id + 1, cause)), raw := s'.raw)
  }

  ghost predicate GroupedStep(s: State, cause: Cause, snap: Snapshot, s': State) {
    if s.stored == None then s' == s
    else
      var r := s.stored.value;
      && |s'.agg| == |s.agg| + 1 && s'.agg[..|s.agg|] == s.agg
      && s'.stored.Some?
      && var m, r' := s'.agg[|s.agg|], s'.stored.value;
      && r' == r.(agg := r'.agg)
      && m == Message(r.id, r.prev, r.ts, m.bids, m.asks)
      && ViewsUpdate(r.agg, snap, cause, m.bids, m.asks, r'.agg)
      && s' == s.(stored := Some(r'), agg := s'.agg)
  }

  predicate TickPublishes(s: State) {
    NoticeId(s.local) != NoticeId(s.latest) && s.stored.Some?
  }

  /** The id a 100ms message names as its predecessor. */
  function PrevId(s: State): int {
    if NoticeId(s.local) != 0 then NoticeId(s.local)
    else if s.snapshotId.Some? then s.snapshotId.value
    else 0
  }

  ghost predicate TickStep(s: State, snap: Snapshot, s': State) {
    if NoticeId(s.local) == NoticeId(s.latest) then s' == s
    else if s.stored == None then s' == s.(local := s.latest)
    else
      var r := s.stored.value;
      && |s'.ms100| == |s.ms100| + 1 && s'.ms100[..|s.ms100|] == s.ms100
      && s'.stored.Some?
      && var m, r' := s'.ms100[|s.ms100|], s'.stored.value;
      && r' == r.(ms100 := r'.ms100)
      && m == Message(r.id, PrevId(s), r.ts, m.bids, m.asks)
      && ViewsUpdate(r.ms100, snap, LatestCause(s.latest), m.bids, m.asks, r'.ms100)
      && s' == s.(stored := Some(r'), local := s.latest, ms100 := s'.ms100)
  }

  /** A subscription stores its snapshot as the channel's view when nothing is stored, or,
      off the raw channel, when that view is empty on both sides. */
  predicate Seeds(s: State, channel: Channel) {
    s.stored == None ||
    (channel != RawChannel && ChannelViews(s.stored.value, channel) == NOTHING)
  }

  function SubscribeStep(s: State, channel: Channel, ts: int, snap: Snapshot): State {
    var r :=
      if s.stored == None then WithViews(Record(1, 0, ts, ts, NOTHING, NOTHING, NOTHING), channel, SnapshotViews(snap))
      else if Seeds(s, channel) then WithViews(s.stored.value, channel, SnapshotViews(snap))
      else s.stored.value;
    s.(stored := Some(r), snapshotId := if channel == Every100ms then Some(r.id) else s.snapshotId)
  }

  ghost predicate Step(s: State, input: Input, s': State) {
    match input
    case Book(cause, ts, snap) => BookStep(s, cause, ts, snap, s')
    case Grouped(cause, snap) => GroupedStep(s, cause, snap, s')
    case Tick(snap) => TickStep(s, snap, s')
    case Subscribe(channel, ts, snap) => s' == SubscribeStep(s, channel, ts, snap)
  }

  // ---------- the handlers ----------

  class InstrumentFeed {
    var stored: Option<Record>      // the stored record
    var snapshotId: Option<int>     // the id stored with the last 100ms snapshot
    var latest: Option<Notice>      // the shared entry the ticker polls
    var local: Option<Notice>       // the ticker's own copy
    var raw: seq<Message>           // what each channel was sent
    var ms100: seq<Message>
    var agg: seq<Message>

    ghost function Model(): State
      reads this
    {
      State(stored, snapshotId, latest, local, raw, ms100, agg)
    }

    constructor ()
      ensures Model() == START
    {
      stored, snapshotId, latest, local := None, None, None, None;
      raw, ms100, agg := [], [], [];
    }

    /** The order-event handler; for each instrument of a batch the batch handler does the same
        with the batch as the cause. */
    method HandleConsumeBook(cause: Cause, ts: int, snap: Snapshot)
      modifies this
      ensures BookStep(old(Model()), cause, ts, snap, Model())
    {
      var r := if stored.Some? then stored.value else ZERO;
      var bids, asks, next := ComputeDelta(r.raw, snap, cause);
      var id := r.id + 1;
      stored := Some(Record(id, r.id, ts, r.ts, next, r.ms100, r.agg));
      latest := Some(Notice(id, cause));
      raw := raw + [Message(id, r.id, ts, bids, asks)];
    }

    /** The batch handler, as far as it concerns the instrument `name`. */
    method HandleConsumeBookCancel(name: string, batch: seq<CancelledOrder>, ts: int, snap: Snapshot)
      modifies this
      ensures if name in Instruments(batch)
        then BookStep(old(Model()), Batch(SharedSums(batch)), ts, snap, Model())
        else Model() == old(Model())
    {
      var sums := CollectCancelled(batch);
      for i := 0 to |batch|
        invariant Model() == old(Model())
        invariant forall j :: 0 <= j < i ==> batch[j].instrument != name
      {
        if batch[i].instrument == name {
          assert batch[i] in batch;
          HandleConsumeBook(Batch(sums), ts, snap);
          return;
        }
      }
    }

    method HandleConsumeBookAgg(cause: Cause, snap: Snapshot)
      modifies this
      ensures GroupedStep(old(Model()), cause, snap, Model())
    {
      if stored == None { return; }
      var r := stored.value;
      var bids, asks, next := ComputeDelta(r.agg, snap, cause);
      stored := Some(r.(agg := next));
      agg := agg + [Message(r.id, r.prev, r.ts, bids, asks)];
    }

    method Handle100msTick(snap: Snapshot)
      modifies this
      ensures TickStep(old(Model()), snap, Model())
      ensures var was, published := old(ms100), old(stored).Some? && NoticeId(old(local)) != NoticeId(old(latest));
        if published then
          && |ms100| == |was| + 1 && ms100[..|was|] == was && local == latest
          && ms100[|was|].id == old(stored).value.id && ms100[|was|].ts == old(stored).value.ts
        else ms100 == was && stored == old(stored)
    {
      var localId := if local.Some? then local.value.id else 0;
      var latestId := if latest.Some? then latest.value.id else 0;
      if localId == latestId { return; }
      var prevId := localId;
      if localId == 0 {
        prevId := if snapshotId.Some? then snapshotId.value else 0;
      }
      local := latest;
      if stored == None { return; }
      var r := stored.value;
      var bids, asks, next := ComputeDelta(r.ms100, snap, LatestCause(latest));
      stored := Some(r.(ms100 := next));
      ms100 := ms100 + [Message(r.id, prevId, r.ts, bids, asks)];
    }

    /** Sends a client its snapshot: a `new` row for every level of the book. */
    method SubscribeBook(channel: Channel, ts: int, snap: Snapshot) returns (m: Message)
      modifies this
      ensures Model() == SubscribeStep(old(Model()), channel, ts, snap)
      ensures m.id == stored.value.id && m.prev == 0
      ensures m.ts == if old(stored).Some? then old(stored).value.ts else ts
      ensures |m.bids| == |snap.bids| && |m.asks| == |snap.asks|
      ensures forall i :: 0 <= i < |m.bids| ==> m.bids[i] == Row(New, snap.bids[i].price, snap.bids[i].amount)
      ensures forall i :: 0 <= i < |m.asks| ==> m.asks[i] == Row(New, snap.asks[i].price, snap.asks[i].amount)
    {
      var asks, askView := SnapshotRows(snap.asks);
      var bids, bidView := SnapshotRows(snap.bids);
      var seed := Views(bidView, askView);
      var r := if stored.Some? then stored.value else ZERO;
      if stored == None {
        r := Record(1, 0, ts, ts, NOTHING, NOTHING, NOTHING);
        stored := Some(WithViews(r, channel, seed));
      } else {
        match channel
        case Agg2 =>
          if |r.agg.asks| == 0 && |r.agg.bids| == 0 { stored := Some(r.(agg := seed)); }
        case Every100ms =>
          if |r.ms100.asks| == 0 && |r.ms100.bids| == 0 { stored := Some(r.(ms100 := seed)); }
        case RawChannel =>
      }
      if channel == Every100ms { snapshotId := Some(r.id); }
      m := Message(r.id, 0, r.ts, bids, asks);
    }
  }

  method SnapshotRows(levels: seq<Level>) returns (rows: seq<Row>, view: View)
    ensures view == ViewOf(levels)
    ensures |rows| == |levels|
    ensures forall i :: 0 <= i < |rows| ==> rows[i] == Row(New, levels[i].price, levels[i].amount)
  {
    rows, view := [], map[];
    for i := 0 to |levels|
      invariant |rows| == i
      invariant forall j :: 0 <= j < i ==> rows[j] == Row(New, levels[j].price, levels[j].amount)
      invariant view == ViewOf(levels[..i])
    {
      rows := rows + [Row(New, levels[i].price, levels[i].amount)];
      view := view[levels[i].price := levels[i].amount];
      assert levels[..i + 1][..i] == levels[..i];
    }
    assert levels[..|levels|] == levels;
  }
}
