/** Whole runs of the feed: the chain of change ids, what each handler leaves alone, and
    the exact difference between a client that applies every message and the stored view. */
module FeedRuns {
  import opened Options
  import opened Delta
  import opened Feed

  ghost predicate Run(states: seq<State>, inputs: seq<Input>) {
    && |states| == |inputs| + 1
    && forall i :: 0 <= i < |inputs| ==> Step(states[i], inputs[i], states[i + 1])
  }

  // ---------- change ids ----------

  ghost predicate RawChain(log: seq<Message>) {
    && (forall i :: 0 <= i < |log| ==> log[i].prev == log[i].id - 1)
    && forall i :: 0 < i < |log| ==> log[i].prev == log[i - 1].id
  }

  ghost predicate Every100msChain(log: seq<Message>) {
    forall i :: 0 < i < |log| ==> log[i].prev == log[i - 1].id < log[i].id
  }

  ghost predicate Published(log: seq<Message>, id: int) {
    exists i :: 0 <= i < |log| && log[i].id == id
  }

  ghost predicate Chained(s: State) {
    && RawChain(s.raw)
    && Every100msChain(s.ms100)
    && (s.raw != [] ==> s.stored.Some? && s.stored.value.id == s.raw[|s.raw| - 1].id)
    && (s.stored.Some? ==> s.stored.value.id >= 1 && s.stored.value.prev == s.stored.value.id - 1)
    && (s.latest.Some? <==> s.raw != [])
    && (s.latest.Some? ==> s.stored.Some? && s.latest.value.id == s.stored.value.id)
    && (s.local.Some? <==> s.ms100 != [])
    && (s.local.Some? ==> s.local.value.id == s.ms100[|s.ms100| - 1].id && s.latest.Some?
                          && 1 <= s.local.value.id <= s.latest.value.id)
    && (forall i :: 0 <= i < |s.ms100| ==> Published(s.raw, s.ms100[i].id))
    && (s.snapshotId.Some? ==> s.stored.Some? && 1 <= s.snapshotId.value <= s.stored.value.id)
    && (s.ms100 != [] ==> 0 <= s.ms100[0].prev <= s.ms100[0].id)
    && (s.agg != [] ==> s.stored.Some?)
    && (forall i :: 0 <= i < |s.agg| ==> s.agg[i].prev == s.agg[i].id - 1 && s.agg[i].id <= s.stored.value.id)
  }

  lemma StepChained(s: State, input: Input, s': State)
    requires Chained(s) && Step(s, input, s')
    ensures Chained(s')
  {
    hide Chained, BookStep, GroupedStep, TickStep, SubscribeStep;
    match input
    case Book(cause, ts, snap) => BookChained(s, cause, ts, snap, s');
    case Grouped(cause, snap) => GroupedChained(s, cause, snap, s');
    case Tick(snap) => TickChained(s, snap, s');
    case Subscribe(channel, ts, snap) => SubscribeChained(s, channel, ts, snap);
  }

  lemma SubscribeChained(s: State, channel: Channel, ts: int, snap: Snapshot)
    requires Chained(s)
    ensures Chained(SubscribeStep(s, channel, ts, snap))
  {
  }

  lemma RawChainGrows(log: seq<Message>, log': seq<Message>, ms100: seq<Message>)
    requires |log'| == |log| + 1 && log'[..|log|] == log && RawChain(log)
    requires log'[|log|].prev == log'[|log|].id - 1
    requires log != [] ==> log'[|log|].prev == log[|log| - 1].id
    requires forall i :: 0 <= i < |ms100| ==> Published(log, ms100[i].id)
    ensures RawChain(log')
    ensures forall i :: 0 <= i < |ms100| ==> Published(log', ms100[i].id)
  {
    forall i | 0 <= i < |log| ensures log'[i] == log[i] {
      assert log'[i] == log'[..|log|][i];
    }
    forall i | 0 <= i < |ms100| ensures Published(log', ms100[i].id) {
      assert Published(log, ms100[i].id);
      var j :| 0 <= j < |log| && log[j].id == ms100[i].id;
      assert log'[j].id == ms100[i].id;
    }
  }

  lemma BookChained(s: State, cause: Cause, ts: int, snap: Snapshot, s': State)
    requires Chained(s) && BookStep(s, cause, ts, snap, s')
    ensures Chained(s')
  {
    RawChainGrows(s.raw, s'.raw, s.ms100);
    assert s'.ms100 == s.ms100 && s'.agg == s.agg;
    assert s'.raw[|s'.raw| - 1].id == s'.stored.value.id;
  }

  lemma GroupedChained(s: State, cause: Cause, snap: Snapshot, s': State)
    requires Chained(s) && GroupedStep(s, cause, snap, s')
    ensures Chained(s')
  {
    if s.stored.Some? {
      forall i | 0 <= i < |s.agg| ensures s'.agg[i] == s.agg[i] {
        assert s'.agg[i] == s'.agg[..|s.agg|][i];
      }
    }
  }

  lemma Every100msGrows(log: seq<Message>, log': seq<Message>, raw: seq<Message>)
    requires |log'| == |log| + 1 && log'[..|log|] == log && Every100msChain(log)
    requires log != [] ==> log'[|log|].prev == log[|log| - 1].id < log'[|log|].id
    requires Published(raw, log'[|log|].id)
    requires forall i :: 0 <= i < |log| ==> Published(raw, log[i].id)
    ensures Every100msChain(log')
    ensures forall i :: 0 <= i < |log'| ==> Published(raw, log'[i].id)
    ensures log'[0] == if log == [] then log'[|log|] else log[0]
  {
    forall i | 0 <= i < |log| ensures log'[i] == log[i] {
      assert log'[i] == log'[..|log|][i];
    }
  }

  lemma TickChained(s: State, snap: Snapshot, s': State)
    requires Chained(s) && TickStep(s, snap, s')
    ensures Chained(s')
  {
    hide ViewsUpdate, RawChain, Every100msChain, Published;
    if TickPublishes(s) {
      LastPublished(s.raw, s'.ms100[|s.ms100|].id);
      Every100msGrows(s.ms100, s'.ms100, s.raw);
    }
  }

  lemma LastPublished(log: seq<Message>, id: int)
    requires log != [] && log[|log| - 1].id == id
    ensures Published(log, id)
  {
  }

  /** In every run from an empty store: raw messages carry consecutive ids and each names its
      predecessor; each 100ms message after the first names the 100ms message before it, the
      first names no later id than its own, and the id of each is that of a raw message. */
  lemma {:induction false} RunChained(states: seq<State>, inputs: seq<Input>)
    requires Run(states, inputs) && states[0] == START
    ensures Chained(states[|inputs|])
    decreases |inputs|
  {
    var n := |inputs|;
    if n > 0 {
      assert Run(states[..n], inputs[..n - 1]);
      RunChained(states[..n], inputs[..n - 1]);
      assert states[..n][n - 1] == states[n - 1];
      StepChained(states[n - 1], inputs[n - 1], states[n]);
    }
  }

  // ---------- frames ----------

  predicate OnChannel(input: Input, channel: Channel) {
    match input
    case Book(_, _, _) => channel == RawChannel
    case Grouped(_, _) => channel == Agg2
    case Tick(_) => channel == Every100ms
    case Subscribe(c, _, _) => c == channel
  }

  function Log(s: State, channel: Channel): seq<Message> {
    match channel
    case RawChannel => s.raw
    case Every100ms => s.ms100
    case Agg2 => s.agg
  }

  function Stored(s: State, channel: Channel): Views {
    ChannelViews(RecordOf(s), channel)
  }

  /** A handler changes the view and the log of its own channel only; a subscription sends
      nothing to the clients already there; and once a record exists only the raw handlers
      change its ids. */
  lemma StepFrame(s: State, input: Input, s': State, channel: Channel)
    requires Step(s, input, s')
    ensures !OnChannel(input, channel) ==>
      Stored(s', channel) == Stored(s, channel) && Log(s', channel) == Log(s, channel)
    ensures input.Subscribe? ==> Log(s', channel) == Log(s, channel)
    ensures s.stored.Some? && !input.Book? ==>
      s'.stored.Some? && s'.stored.value.id == s.stored.value.id && s'.stored.value.prev == s.stored.value.prev
    ensures |Log(s, channel)| <= |Log(s', channel)|
  {
  }

  // ---------- followers ----------

  function ApplyMessage(client: Views, m: Message): Views {
    Views(Apply(client.bids, m.bids), Apply(client.asks, m.asks))
  }

  /** A client that saw `before` receives the last message of `after`, if there is a new one. */
  function Deliver(client: Views, before: seq<Message>, after: seq<Message>): Views {
    if |before| < |after| then ApplyMessage(client, after[|after| - 1]) else client
  }

  /** A client's book after a run: it starts with `start` and applies what its channel sends. */
  function Replica(start: Views, channel: Channel, states: seq<State>): Views
    requires states != []
  {
    var n := |states|;
    if n == 1 then start
    else Deliver(Replica(start, channel, states[..n - 1]), Log(states[n - 2], channel), Log(states[n - 1], channel))
  }

  datatype Gaps = Gaps(bids: Gap, asks: Gap)

  const EXACT := Gaps(NO_GAP, NO_GAP)

  /** The cause and snapshot of the message a step publishes on a channel, if it does. */
  function Delivery(s: State, input: Input, channel: Channel): Option<(Snapshot, Cause)> {
    match input
    case Book(cause, ts, snap) => if channel == RawChannel then Some((snap, cause)) else None
    case Grouped(cause, snap) => if channel == Agg2 && s.stored.Some? then Some((snap, cause)) else None
    case Tick(snap) =>
      if channel == Every100ms && TickPublishes(s) then Some((snap, LatestCause(s.latest))) else None
    case Subscribe(_, _, _) => None
  }

  ghost function NextGaps(gaps: Gaps, view: Views, snap: Snapshot, cause: Cause): Gaps {
    var gone := GoneFor(view, snap, cause);
    Gaps(NextGap(gaps.bids, view.bids, snap.bids, gone.bids),
         NextGap(gaps.asks, view.asks, snap.asks, gone.asks))
  }

  ghost function LedgerStep(gaps: Gaps, s: State, input: Input, channel: Channel): Gaps {
    match Delivery(s, input, channel)
    case None =>
      if input.Subscribe? && input.channel == channel && Seeds(s, channel) then
        Gaps(SeededGap(gaps.bids, ViewOf(input.snap.bids)), SeededGap(gaps.asks, ViewOf(input.snap.asks)))
      else gaps
    case Some((snap, cause)) => NextGaps(gaps, Stored(s, channel), snap, cause)
  }

  /** The account of a client over a run: its first gaps, then what the events alone make of them. */
  ghost function Ledger(first: Gaps, channel: Channel, states: seq<State>, inputs: seq<Input>): Gaps
    requires |states| == |inputs| + 1
  {
    var n := |inputs|;
    if n == 0 then first
    else LedgerStep(Ledger(first, channel, states[..n], inputs[..n - 1]), states[n - 1], inputs[n - 1], channel)
  }

  ghost predicate DistinctSnapshots(inputs: seq<Input>) {
    forall i :: 0 <= i < |inputs| ==> Distinct(inputs[i].snap.bids) && Distinct(inputs[i].snap.asks)
  }

  ghost function GapsOf(client: Views, view: Views): Gaps {
    Gaps(GapOf(client.bids, view.bids), GapOf(client.asks, view.asks))
  }

  lemma FollowerStep(client: Views, s: State, input: Input, s': State, channel: Channel)
    requires Step(s, input, s')
    requires Distinct(input.snap.bids) && Distinct(input.snap.asks)
    ensures GapsOf(Deliver(client, Log(s, channel), Log(s', channel)), Stored(s', channel)) ==
      LedgerStep(GapsOf(client, Stored(s, channel)), s, input, channel)
  {
    match Delivery(s, input, channel)
    case None =>
      StepFrame(s, input, s', channel);
      if input.Subscribe? && input.channel == channel && Seeds(s, channel) {
        SeededStep(client.bids, ViewOf(input.snap.bids));
        SeededStep(client.asks, ViewOf(input.snap.asks));
      }
    case Some((snap, cause)) =>
      var m, view, next := Log(s', channel)[|Log(s, channel)|], Stored(s, channel), Stored(s', channel);
      var gone := GoneFor(view, snap, cause);
      assert ViewsUpdate(view, snap, cause, m.bids, m.asks, next);
      GapStep(client.bids, view.bids, snap.bids, gone.bids, m.bids, next.bids);
      GapStep(client.asks, view.asks, snap.asks, gone.asks, m.asks, next.asks);
  }

  /** In every run, on every channel: a client that starts with any book and applies every
      message differs from the stored view exactly as the ledger says. */
  lemma {:induction false} FollowerLedger(start: Views, channel: Channel, states: seq<State>, inputs: seq<Input>)
    requires Run(states, inputs) && DistinctSnapshots(inputs)
    ensures GapsOf(Replica(start, channel, states), Stored(states[|inputs|], channel)) ==
      Ledger(GapsOf(start, Stored(states[0], channel)), channel, states, inputs)
    decreases |inputs|
  {
    hide Run, DistinctSnapshots, Step, GapsOf, LedgerStep, Deliver, Log, Stored;
    var n := |inputs|;
    RunLengths(states, inputs);
    if n > 0 {
      var states0, inputs0 := states[..n], inputs[..n - 1];
      RunPrefix(states, inputs);
      FollowerLedger(start, channel, states0, inputs0);
      FollowerStep(Replica(start, channel, states0), states[n - 1], inputs[n - 1], states[n], channel);
      ReplicaUnfold(start, channel, states);
    }
  }

  lemma RunLengths(states: seq<State>, inputs: seq<Input>)
    requires Run(states, inputs)
    ensures |states| == |inputs| + 1
  {
    hide Step;
  }

  lemma RunPrefix(states: seq<State>, inputs: seq<Input>)
    requires Run(states, inputs) && DistinctSnapshots(inputs)
    requires inputs != []
    ensures var n := |inputs|;
      && Run(states[..n], inputs[..n - 1]) && DistinctSnapshots(inputs[..n - 1])
      && Step(states[n - 1], inputs[n - 1], states[n])
      && Distinct(inputs[n - 1].snap.bids) && Distinct(inputs[n - 1].snap.asks)
  {
    hide Step, Distinct;
  }

  lemma ReplicaUnfold(start: Views, channel: Channel, states: seq<State>)
    requires |states| >= 2
    ensures var n := |states|;
      Replica(start, channel, states) ==
        Deliver(Replica(start, channel, states[..n - 1]), Log(states[n - 2], channel), Log(states[n - 1], channel))
  {
  }

  /** So at the end of any run the client equals the stored view if and only if nothing is
      stale, missing or wrong; and it holds every stored level, with the stored amount, if and
      only if nothing is missing or wrong. */
  lemma ReplicaExact(start: Views, channel: Channel, states: seq<State>, inputs: seq<Input>)
    requires Run(states, inputs) && DistinctSnapshots(inputs)
    ensures var client, view := Replica(start, channel, states), Stored(states[|inputs|], channel);
      var gaps := Ledger(GapsOf(start, Stored(states[0], channel)), channel, states, inputs);
      && (client == view <==> gaps == EXACT)
      && (Contains(client, view) <==> Whole(gaps))
  {
    FollowerLedger(start, channel, states, inputs);
    var client, view := Replica(start, channel, states), Stored(states[|inputs|], channel);
    FollowsExactly(client.bids, view.bids);
    FollowsExactly(client.asks, view.asks);
  }

  ghost predicate Contains(client: Views, view: Views) {
    && (forall p :: p in view.bids ==> p in client.bids && client.bids[p] == view.bids[p])
    && (forall p :: p in view.asks ==> p in client.asks && client.asks[p] == view.asks[p])
  }

  ghost predicate Whole(gaps: Gaps) {
    gaps.bids.missing == gaps.asks.missing == {} && gaps.bids.wrong == gaps.asks.wrong == map[]
  }

  /** No message of the run names, in an inferred delete, a level its snapshot still lists, and
      no subscription seeds a level without a message. */
  ghost predicate NothingHidden(channel: Channel, states: seq<State>, inputs: seq<Input>)
    requires |states| == |inputs| + 1
  {
    forall i :: 0 <= i < |inputs| ==>
      match Delivery(states[i], inputs[i], channel)
      case None =>
        inputs[i].Subscribe? && inputs[i].channel == channel && Seeds(states[i], channel) ==> inputs[i].snap == Snapshot([], [])
      case Some((snap, cause)) =>
        var view := Stored(states[i], channel);
        var gone := GoneFor(view, snap, cause);
        gone.bids !! DiffView(view.bids, snap.bids).Keys && gone.asks !! DiffView(view.asks, snap.asks).Keys
  }

  lemma {:induction false} LedgerMissesNothing(first: Gaps, channel: Channel, states: seq<State>, inputs: seq<Input>)
    requires |states| == |inputs| + 1 && NothingHidden(channel, states, inputs) && Whole(first)
    ensures Whole(Ledger(first, channel, states, inputs))
    decreases |inputs|
  {
    var n := |inputs|;
    if n > 0 {
      assert NothingHidden(channel, states[..n], inputs[..n - 1]);
      LedgerMissesNothing(first, channel, states[..n], inputs[..n - 1]);
    }
  }

  /** Containment: in a run that hides nothing a client that holds every stored level with its
      amount goes on to do so. */
  lemma ReplicaContains(start: Views, channel: Channel, states: seq<State>, inputs: seq<Input>)
    requires Run(states, inputs) && DistinctSnapshots(inputs)
    requires NothingHidden(channel, states, inputs) && Contains(start, Stored(states[0], channel))
    ensures Contains(Replica(start, channel, states), Stored(states[|inputs|], channel))
  {
    FollowsExactly(start.bids, Stored(states[0], channel).bids);
    FollowsExactly(start.asks, Stored(states[0], channel).asks);
    ReplicaExact(start, channel, states, inputs);
    LedgerMissesNothing(GapsOf(start, Stored(states[0], channel)), channel, states, inputs);
  }

  // ---------- subscriptions ----------

  lemma {:induction false} ViewOfAt(levels: seq<Level>, p: Price)
    ensures Get(ViewOf(levels), p) == Quote(levels, p)
  {
    if levels != [] {
      ViewOfAt(levels[..|levels| - 1], p);
    }
  }

  lemma {:induction false} ApplyNewRows(levels: seq<Level>, rows: seq<Row>)
    requires |rows| == |levels|
    requires forall i :: 0 <= i < |rows| ==> rows[i] == Row(New, levels[i].price, levels[i].amount)
    ensures Apply(map[], rows) == ViewOf(levels)
  {
    if levels != [] {
      ApplyNewRows(levels[..|levels| - 1], rows[..|rows| - 1]);
    }
  }

  /** A subscription that seeds leaves its own client with exactly the stored view, but a
      client that was already exact stays exact if and only if the snapshot is empty: the
      seeded levels are never published to it. */
  lemma SeedingFollowers(s: State, channel: Channel, ts: int, snap: Snapshot, bids: seq<Row>, asks: seq<Row>)
    requires Seeds(s, channel)
    requires |bids| == |snap.bids| && |asks| == |snap.asks|
    requires forall i :: 0 <= i < |bids| ==> bids[i] == Row(New, snap.bids[i].price, snap.bids[i].amount)
    requires forall i :: 0 <= i < |asks| ==> asks[i] == Row(New, snap.asks[i].price, snap.asks[i].amount)
    ensures var s' := SubscribeStep(s, channel, ts, snap);
      && Views(Apply(map[], bids), Apply(map[], asks)) == Stored(s', channel)
      && Log(s', channel) == Log(s, channel)
      && (Stored(s, channel) == Stored(s', channel) <==> snap == Snapshot([], []))
  {
    ApplyNewRows(snap.bids, bids);
    ApplyNewRows(snap.asks, asks);
    var s' := SubscribeStep(s, channel, ts, snap);
    assert Stored(s', channel) == SnapshotViews(snap);
    assert Stored(s, channel) == NOTHING;
    if snap.bids != [] {
      ViewOfAt(snap.bids, snap.bids[|snap.bids| - 1].price);
    }
    if snap.asks != [] {
      ViewOfAt(snap.asks, snap.asks[|snap.asks| - 1].price);
    }
  }

  /** A subscription that does not seed, as the second one on a channel, starts its client from
      a snapshot the stored view need not agree with: its first gap is where they differ, price
      by price, so it joins exactly if and only if every quote is the stored amount. */
  lemma JoiningFollower(s: State, channel: Channel, ts: int, snap: Snapshot, bids: seq<Row>, asks: seq<Row>)
    requires !Seeds(s, channel)
    requires |bids| == |snap.bids| && |asks| == |snap.asks|
    requires forall i :: 0 <= i < |bids| ==> bids[i] == Row(New, snap.bids[i].price, snap.bids[i].amount)
    requires forall i :: 0 <= i < |asks| ==> asks[i] == Row(New, snap.asks[i].price, snap.asks[i].amount)
    ensures var view := Stored(SubscribeStep(s, channel, ts, snap), channel);
      var joiner := Views(Apply(map[], bids), Apply(map[], asks));
      var gaps := GapsOf(joiner, view);
      && view == Stored(s, channel)
      && (forall p :: FirstGap(gaps.bids, Quote(snap.bids, p), Get(view.bids, p), p))
      && (forall p :: FirstGap(gaps.asks, Quote(snap.asks, p), Get(view.asks, p), p))
      && (joiner == view <==>
          (forall p :: Quote(snap.bids, p) == Get(view.bids, p)) && forall p :: Quote(snap.asks, p) == Get(view.asks, p))
  {
    ApplyNewRows(snap.bids, bids);
    ApplyNewRows(snap.asks, asks);
    var view := Stored(s, channel);
    forall p
      ensures Get(ViewOf(snap.bids), p) == Quote(snap.bids, p) && Get(ViewOf(snap.asks), p) == Quote(snap.asks, p)
    {
      ViewOfAt(snap.bids, p);
      ViewOfAt(snap.asks, p);
    }
    SameQuotes(ViewOf(snap.bids), view.bids, snap.bids);
    SameQuotes(ViewOf(snap.asks), view.asks, snap.asks);
  }

  /** Where one price stands in a gap, from what the client was quoted and what is stored. */
  ghost predicate FirstGap(gap: Gap, quoted: Option<Amount>, stored: Option<Amount>, p: Price) {
    && (p in gap.stale <==> quoted.Some? && stored == None)
    && (p in gap.missing <==> quoted == None && stored.Some?)
    && (p in gap.wrong <==> quoted.Some? && stored.Some? && quoted != stored)
  }

  lemma SameQuotes(client: View, view: View, levels: seq<Level>)
    requires forall p :: Get(client, p) == Quote(levels, p)
    ensures client == view <==> forall p :: Quote(levels, p) == Get(view, p)
    ensures forall p :: FirstGap(GapOf(client, view), Quote(levels, p), Get(view, p), p)
  {
    forall p ensures FirstGap(GapOf(client, view), Quote(levels, p), Get(view, p), p) {
      assert Get(client, p) == Quote(levels, p);
    }
    if forall p :: Quote(levels, p) == Get(view, p) {
      ViewsEqual(client, view);
    }
    if client == view {
      forall p ensures Quote(levels, p) == Get(view, p) {
        assert Get(client, p) == Quote(levels, p);
      }
    }
  }
}
