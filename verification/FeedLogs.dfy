/** The logs of whole runs, told from the inputs alone: which ids and times the messages of each
    channel carry, when the ticker publishes, and which action each row names. */
module FeedLogs {
  import opened Options
  import opened Delta
  import opened Book
  import opened Feed
  import opened FeedRuns

  function Last(log: seq<Message>): Message
    requires log != []
  {
    log[|log| - 1]
  }

  /** One message was added at the end. */
  ghost predicate Appended(log: seq<Message>, log': seq<Message>) {
    |log'| == |log| + 1 && log'[..|log|] == log
  }

  // ---------- what the inputs say ----------

  /** The input that created the record: the first order event or subscription. */
  function Creator(inputs: seq<Input>, n: nat): Option<Input>
    requires n <= |inputs|
    ensures Creator(inputs, n).Some? ==> Creator(inputs, n).value.Book? || Creator(inputs, n).value.Subscribe?
  {
    if n == 0 then None
    else if Creator(inputs, n - 1).Some? then Creator(inputs, n - 1)
    else if inputs[n - 1].Book? || inputs[n - 1].Subscribe? then Some(inputs[n - 1])
    else None
  }

  /** The times of the order events. */
  function BookTimes(inputs: seq<Input>, n: nat): seq<int>
    requires n <= |inputs|
  {
    if n == 0 then []
    else if inputs[n - 1].Book? then BookTimes(inputs, n - 1) + [inputs[n - 1].ts]
    else BookTimes(inputs, n - 1)
  }

  /** The number of the last change: a record created by a subscription starts at one. */
  function ChangeId(inputs: seq<Input>, n: nat): int
    requires n <= |inputs|
  {
    |BookTimes(inputs, n)| + (if Creator(inputs, n).Some? && Creator(inputs, n).value.Subscribe? then 1 else 0)
  }

  /** The cause of the last order event. */
  function LastCause(inputs: seq<Input>, n: nat): Cause
    requires n <= |inputs|
  {
    if n == 0 then Batch(NOTHING)
    else if inputs[n - 1].Book? then inputs[n - 1].cause
    else LastCause(inputs, n - 1)
  }

  /** The time of the change before the last one: the record's first time if a subscription created
      it, and nothing before that. */
  function TimeBefore(inputs: seq<Input>, n: nat): int
    requires n <= |inputs|
  {
    var times := BookTimes(inputs, n);
    if |times| >= 2 then times[|times| - 2]
    else if Creator(inputs, n).Some? && Creator(inputs, n).value.Subscribe? then Creator(inputs, n).value.ts
    else 0
  }

  /** The id answered to the last 100ms subscription, if there was one. */
  function Answered(inputs: seq<Input>, n: nat): int
    requires n <= |inputs|
  {
    if n == 0 then 0
    else if inputs[n - 1].Subscribe? && inputs[n - 1].channel == Every100ms then ChangeId(inputs, n)
    else Answered(inputs, n - 1)
  }

  ghost predicate RawLogged(log: seq<Message>, inputs: seq<Input>, n: nat)
    requires n <= |inputs|
  {
    var times := BookTimes(inputs, n);
    && |log| == |times|
    && forall i :: 0 <= i < |log| ==>
      log[i].ts == times[i] && log[i].id == ChangeId(inputs, n) - |log| + i + 1 && log[i].prev == log[i].id - 1
  }

  ghost predicate RecordLogged(s: State, inputs: seq<Input>, n: nat)
    requires n <= |inputs|
  {
    && (s.stored.Some? <==> Creator(inputs, n).Some?)
    && (s.stored.Some? ==>
      && s.stored.value.id == ChangeId(inputs, n) && s.stored.value.prev == ChangeId(inputs, n) - 1
      && s.stored.value.tsPrev == TimeBefore(inputs, n)
      && s.stored.value.ts == if s.raw == [] then Creator(inputs, n).value.ts else Last(s.raw).ts)
    && s.latest == (if s.raw == [] then None else Some(Notice(ChangeId(inputs, n), LastCause(inputs, n))))
    && (if s.snapshotId.Some? then s.snapshotId.value else 0) == Answered(inputs, n)
  }

  /** The last 100ms message carries the time of the raw message of its id. */
  ghost predicate SameTime(s: State) {
    s.ms100 != [] && s.raw != [] && Last(s.ms100).id == Last(s.raw).id ==> Last(s.ms100).ts == Last(s.raw).ts
  }

  ghost predicate Logged(s: State, inputs: seq<Input>, n: nat)
    requires n <= |inputs|
  {
    Chained(s) && RawLogged(s.raw, inputs, n) && RecordLogged(s, inputs, n) && SameTime(s)
  }

  lemma NoneCreated(inputs: seq<Input>, n: nat)
    requires n <= |inputs| && Creator(inputs, n) == None
    ensures BookTimes(inputs, n) == []
  {
  }

  lemma LoggedStep(s: State, inputs: seq<Input>, n: nat, s': State)
    requires n < |inputs| && Logged(s, inputs, n) && Step(s, inputs[n], s')
    ensures Logged(s', inputs, n + 1)
  {
    StepChained(s, inputs[n], s');
    hide Chained, RawLogged, RecordLogged, SameTime, BookStep, GroupedStep, TickStep, SubscribeStep;
    match inputs[n]
    case Book(_, _, _) => BookLogged(s, inputs, n, s');
    case Grouped(_, _) => GroupedLogged(s, inputs, n, s');
    case Tick(_) => TickLogged(s, inputs, n, s');
    case Subscribe(_, _, _) => SubscribeLogged(s, inputs, n, s');
  }

  lemma BookLogged(s: State, inputs: seq<Input>, n: nat, s': State)
    requires n < |inputs| && Logged(s, inputs, n) && inputs[n].Book?
    requires BookStep(s, inputs[n].cause, inputs[n].ts, inputs[n].snap, s')
    ensures RawLogged(s'.raw, inputs, n + 1) && RecordLogged(s', inputs, n + 1) && SameTime(s')
  {
    hide ViewsUpdate, RawChain, Every100msChain, Published;
    if s.stored == None {
      NoneCreated(inputs, n);
    }
    var m := s'.raw[|s.raw|];
    RawGrows(s.raw, s'.raw, inputs, n);
  }

  lemma RawGrows(log: seq<Message>, log': seq<Message>, inputs: seq<Input>, n: nat)
    requires n < |inputs| && inputs[n].Book? && RawLogged(log, inputs, n)
    requires |log'| == |log| + 1 && log'[..|log|] == log
    requires log'[|log|].ts == inputs[n].ts && log'[|log|].id == ChangeId(inputs, n) + 1 && log'[|log|].prev == log'[|log|].id - 1
    requires ChangeId(inputs, n + 1) == ChangeId(inputs, n) + 1
    ensures RawLogged(log', inputs, n + 1)
  {
    hide ChangeId;
    forall i | 0 <= i < |log| ensures log'[i] == log[i] {
      assert log'[i] == log'[..|log|][i];
    }
  }

  lemma TickLogged(s: State, inputs: seq<Input>, n: nat, s': State)
    requires n < |inputs| && Logged(s, inputs, n) && inputs[n].Tick?
    requires TickStep(s, inputs[n].snap, s')
    ensures RawLogged(s'.raw, inputs, n + 1) && RecordLogged(s', inputs, n + 1) && SameTime(s')
  {
    hide ViewsUpdate, RawChain, Every100msChain, Published;
  }

  lemma GroupedLogged(s: State, inputs: seq<Input>, n: nat, s': State)
    requires n < |inputs| && Logged(s, inputs, n) && inputs[n].Grouped?
    requires GroupedStep(s, inputs[n].cause, inputs[n].snap, s')
    ensures RawLogged(s'.raw, inputs, n + 1) && RecordLogged(s', inputs, n + 1) && SameTime(s')
  {
    hide ViewsUpdate, RawChain, Every100msChain, Published;
  }

  lemma SubscribeLogged(s: State, inputs: seq<Input>, n: nat, s': State)
    requires n < |inputs| && Logged(s, inputs, n) && inputs[n].Subscribe?
    requires s' == SubscribeStep(s, inputs[n].channel, inputs[n].ts, inputs[n].snap)
    ensures RawLogged(s'.raw, inputs, n + 1) && RecordLogged(s', inputs, n + 1) && SameTime(s')
  {
    var input := inputs[n];
    SubscribeKeeps(s, input.channel, input.ts, input.snap);
    hide Chained, SubscribeStep;
    if s.stored == None {
      NoneCreated(inputs, n);
    }
  }

  lemma SubscribeKeeps(s: State, channel: Channel, ts: int, snap: Snapshot)
    ensures var s' := SubscribeStep(s, channel, ts, snap);
      && s'.raw == s.raw && s'.ms100 == s.ms100 && s'.latest == s.latest && s'.stored.Some?
      && s'.stored.value.id == (if s.stored == None then 1 else s.stored.value.id)
      && s'.stored.value.prev == (if s.stored == None then 0 else s.stored.value.prev)
      && s'.stored.value.ts == (if s.stored == None then ts else s.stored.value.ts)
      && s'.stored.value.tsPrev == (if s.stored == None then ts else s.stored.value.tsPrev)
      && s'.snapshotId == (if channel == Every100ms then Some(s'.stored.value.id) else s.snapshotId)
  {
    hide SnapshotViews;
  }

  lemma RunAt(states: seq<State>, inputs: seq<Input>, n: nat)
    requires Run(states, inputs) && n < |inputs|
    ensures n + 1 < |states| && Step(states[n], inputs[n], states[n + 1])
  {
    hide Step;
  }

  lemma StartLogged(inputs: seq<Input>)
    ensures Logged(START, inputs, 0)
  {
  }

  /** In every run the raw log has one message for each order event, with the time of the event
      and the next id; the record carries the id and time of the last change. */
  lemma {:induction false} RunLogged(states: seq<State>, inputs: seq<Input>, n: nat)
    requires Run(states, inputs) && states[0] == START && n <= |inputs|
    ensures Logged(states[n], inputs, n)
    decreases n
  {
    hide Logged, Step, Run;
    if n == 0 {
      StartLogged(inputs);
    } else {
      RunLogged(states, inputs, n - 1);
      RunAt(states, inputs, n - 1);
      LoggedStep(states[n - 1], inputs, n - 1, states[n]);
    }
  }

  // ---------- when the ticker publishes ----------

  /** The 100ms channel has not been told of the last raw message. */
  predicate Behind(s: State) {
    s.raw != [] && (s.ms100 == [] || Last(s.ms100).id != Last(s.raw).id)
  }

  lemma BehindPublishes(s: State)
    requires Chained(s)
    ensures TickPublishes(s) <==> Behind(s)
  {
    hide RawChain, Every100msChain, Published;
  }

  /** In every run a tick publishes if and only if the 100ms channel is behind: one message, with
      the id and time of the last raw message, that names the 100ms message before it, or the
      first time the last snapshot answered on the channel. After a tick the channel is not
      behind. Other inputs leave its log alone. */
  lemma TickCatchesUp(states: seq<State>, inputs: seq<Input>, i: nat)
    requires Run(states, inputs) && states[0] == START && i < |inputs|
    ensures var s, s' := states[i], states[i + 1];
      && (inputs[i].Tick? && Behind(s) ==>
        && Appended(s.ms100, s'.ms100)
        && Last(s'.ms100).id == Last(s.raw).id && Last(s'.ms100).ts == Last(s.raw).ts
        && Last(s'.ms100).prev == if s.ms100 != [] then Last(s.ms100).id else Answered(inputs, i))
      && (!(inputs[i].Tick? && Behind(s)) ==> s'.ms100 == s.ms100)
      && (inputs[i].Tick? ==> s'.raw == s.raw && !Behind(s'))
      && (inputs[i].Tick? && s'.raw != [] ==> Last(s'.ms100).ts == Last(s'.raw).ts)
  {
    RunLogged(states, inputs, i);
    RunLogged(states, inputs, i + 1);
    RunAt(states, inputs, i);
    BehindPublishes(states[i]);
    if inputs[i].Tick? {
      TickAppends(states[i], inputs, i, states[i + 1]);
    } else {
      StepFrame(states[i], inputs[i], states[i + 1], Every100ms);
    }
  }

  lemma TickAppends(s: State, inputs: seq<Input>, n: nat, s': State)
    requires n < |inputs| && Logged(s, inputs, n) && inputs[n].Tick? && TickStep(s, inputs[n].snap, s')
    ensures s'.raw == s.raw
    ensures !TickPublishes(s) ==> s'.ms100 == s.ms100
    ensures TickPublishes(s) ==>
        && s.raw != [] && Appended(s.ms100, s'.ms100)
        && Last(s'.ms100).id == Last(s.raw).id && Last(s'.ms100).ts == Last(s.raw).ts
        && Last(s'.ms100).prev == if s.ms100 != [] then Last(s.ms100).id else Answered(inputs, n)
  {
    hide ViewsUpdate, RawChain, Every100msChain, Published;
  }

  // ---------- the other two channels ----------

  /** In every run an order event adds one raw message with its time and the next id, and the agg2
      handler, once there is a record, one agg2 message with the id and time of the last change;
      nothing else adds to these logs. */
  lemma RawAndGrouped(states: seq<State>, inputs: seq<Input>, i: nat)
    requires Run(states, inputs) && states[0] == START && i < |inputs|
    ensures var s, s' := states[i], states[i + 1];
      && (if inputs[i].Book? then
            && Appended(s.raw, s'.raw) && Last(s'.raw).ts == inputs[i].ts
            && Last(s'.raw).id == ChangeId(inputs, i) + 1 && Last(s'.raw).prev == ChangeId(inputs, i)
          else s'.raw == s.raw)
      && (if inputs[i].Grouped? && Creator(inputs, i).Some? then
            && Appended(s.agg, s'.agg)
            && Last(s'.agg).id == ChangeId(inputs, i) && Last(s'.agg).prev == ChangeId(inputs, i) - 1
            && Last(s'.agg).ts == if s.raw != [] then Last(s.raw).ts else Creator(inputs, i).value.ts
          else s'.agg == s.agg)
  {
    RunLogged(states, inputs, i);
    RunAt(states, inputs, i);
    hide Run;
    StepLogs(states[i], inputs, i, states[i + 1]);
  }

  lemma StepLogs(s: State, inputs: seq<Input>, i: nat, s': State)
    requires i < |inputs| && Logged(s, inputs, i) && Step(s, inputs[i], s')
    ensures if inputs[i].Book? then
        && Appended(s.raw, s'.raw) && Last(s'.raw).ts == inputs[i].ts
        && Last(s'.raw).id == ChangeId(inputs, i) + 1 && Last(s'.raw).prev == ChangeId(inputs, i)
      else s'.raw == s.raw
    ensures if inputs[i].Grouped? && Creator(inputs, i).Some? then
        && Appended(s.agg, s'.agg)
        && Last(s'.agg).id == ChangeId(inputs, i) && Last(s'.agg).prev == ChangeId(inputs, i) - 1
        && Last(s'.agg).ts == if s.raw != [] then Last(s.raw).ts else Creator(inputs, i).value.ts
      else s'.agg == s.agg
  {
    hide ViewsUpdate, Chained, RawLogged, SameTime, ChangeId;
    if inputs[i].Book? && s.stored == None {
      CreatesOne(inputs, i);
    }
  }

  lemma CreatesOne(inputs: seq<Input>, n: nat)
    requires n < |inputs| && Creator(inputs, n) == None
    ensures ChangeId(inputs, n) == 0
  {
    NoneCreated(inputs, n);
  }

  // ---------- subscriptions ----------

  /** The view lists the levels of a snapshot, price by price. */
  ghost predicate Lists(view: Views, snap: Snapshot) {
    forall p :: Get(view.bids, p) == Quote(snap.bids, p) && Get(view.asks, p) == Quote(snap.asks, p)
  }

  lemma SnapshotListed(snap: Snapshot)
    ensures Lists(SnapshotViews(snap), snap)
  {
    forall p
      ensures Get(ViewOf(snap.bids), p) == Quote(snap.bids, p) && Get(ViewOf(snap.asks), p) == Quote(snap.asks, p)
    {
      ViewOfAt(snap.bids, p);
      ViewOfAt(snap.asks, p);
    }
  }

  /** In every run a subscription makes its snapshot the stored view of its channel if and only
      if there is no record yet, or, off the raw channel, that view is empty on both sides; it
      changes no other view, and the record it finds keeps its id and time. */
  lemma SubscriptionStores(states: seq<State>, inputs: seq<Input>, i: nat, channel: Channel)
    requires Run(states, inputs) && states[0] == START && i < |inputs| && inputs[i].Subscribe?
    ensures var s, s' := states[i], states[i + 1];
      var view := Stored(s, channel);
      && (if channel == inputs[i].channel
             && (Creator(inputs, i) == None || (channel != RawChannel && view.bids == map[] && view.asks == map[]))
          then Lists(Stored(s', channel), inputs[i].snap)
          else Stored(s', channel) == view)
      && s'.stored.Some? && s'.stored.value.id == ChangeId(inputs, i + 1)
      && s'.stored.value.ts == if s.raw != [] then Last(s.raw).ts else Creator(inputs, i + 1).value.ts
  {
    var s, s' := states[i], states[i + 1];
    RunLogged(states, inputs, i);
    RunLogged(states, inputs, i + 1);
    RunAt(states, inputs, i);
    SnapshotListed(inputs[i].snap);
    hide Run, Chained, RawLogged, SameTime, ChangeId, Lists, SnapshotViews, Creator;
    assert s' == SubscribeStep(s, inputs[i].channel, inputs[i].ts, inputs[i].snap);
    SubscribedView(s, inputs[i].channel, inputs[i].ts, inputs[i].snap, channel);
  }

  lemma SubscribedView(s: State, channel: Channel, ts: int, snap: Snapshot, other: Channel)
    ensures Stored(SubscribeStep(s, channel, ts, snap), other) ==
      if other == channel && (s.stored == None || (channel != RawChannel && Stored(s, channel) == NOTHING))
      then SnapshotViews(snap) else Stored(s, other)
    ensures SubscribeStep(s, channel, ts, snap).raw == s.raw
  {
    hide SnapshotViews;
  }

  // ---------- the action of each row ----------

  lemma SideTells(stored: View, levels: seq<Level>, gone: set<Price>, rows: seq<Row>, next: View, row: Row)
    requires SideUpdate(stored, levels, gone, rows, next) && gone <= stored.Keys && row in rows
    ensures Tells(row, stored)
  {
    var n := |DiffRows(stored, levels)|;
    var i :| 0 <= i < |rows| && rows[i] == row;
    if i < n {
      assert rows[..n][i] == row;
      DiffActions(stored, levels, row);
    } else {
      assert rows[n..][i - n] == row;
      assert row.price in Prices(rows[n..]);
    }
  }

  /** In every run, on every channel: a client that equals the stored view before a step hears
      from what the step publishes `New` exactly for the prices it lacks, `Change` for prices it
      shows with another amount, and `Delete` for prices it shows. */
  lemma RowsTell(states: seq<State>, inputs: seq<Input>, channel: Channel, i: nat, client: Views, row: Row)
    requires Run(states, inputs) && i < |inputs| && client == Stored(states[i], channel)
    requires |Log(states[i], channel)| < |Log(states[i + 1], channel)|
    ensures var m := Last(Log(states[i + 1], channel));
      (row in m.bids ==> Tells(row, client.bids)) && (row in m.asks ==> Tells(row, client.asks))
  {
    RunAt(states, inputs, i);
    var s, s' := states[i], states[i + 1];
    var snap, cause := PublishedUpdate(s, inputs[i], s', channel);
    var next, m := Stored(s', channel), Last(Log(s', channel));
    hide *;
    hide Step, Run;
    MessageTells(client, snap, cause, m, next, row);
  }

  lemma MessageTells(view: Views, snap: Snapshot, cause: Cause, m: Message, next: Views, row: Row)
    requires ViewsUpdate(view, snap, cause, m.bids, m.asks, next)
    ensures (row in m.bids ==> Tells(row, view.bids)) && (row in m.asks ==> Tells(row, view.asks))
  {
    hide SideUpdate, Tells;
    GoneStored(view, snap, cause);
    var gone := GoneFor(view, snap, cause);
    if row in m.bids {
      SideTells(view.bids, snap.bids, gone.bids, m.bids, next.bids, row);
    }
    if row in m.asks {
      SideTells(view.asks, snap.asks, gone.asks, m.asks, next.asks, row);
    }
  }

  lemma PublishedUpdate(s: State, input: Input, s': State, channel: Channel) returns (snap: Snapshot, cause: Cause)
    requires Step(s, input, s') && |Log(s, channel)| < |Log(s', channel)|
    ensures ViewsUpdate(Stored(s, channel), snap, cause, Last(Log(s', channel)).bids, Last(Log(s', channel)).asks, Stored(s', channel))
    ensures snap == input.snap && !input.Subscribe?
    ensures cause == if input.Tick? then LatestCause(s.latest) else input.cause
  {
    hide ViewsUpdate;
    snap := input.snap;
    cause := if input.Tick? then LatestCause(s.latest) else input.cause;
  }

  /** In every run, on every channel: a published message and the view stored with it come from the
      stored view, the snapshot of the step, and its cause; a tick's is that of the last order
      event. */
  lemma MessageCause(states: seq<State>, inputs: seq<Input>, channel: Channel, i: nat)
    requires Run(states, inputs) && states[0] == START && i < |inputs|
    requires |Log(states[i], channel)| < |Log(states[i + 1], channel)|
    ensures !inputs[i].Subscribe?
    ensures var m := Last(Log(states[i + 1], channel));
      var cause := if inputs[i].Tick? then LastCause(inputs, i) else inputs[i].cause;
      ViewsUpdate(Stored(states[i], channel), inputs[i].snap, cause, m.bids, m.asks, Stored(states[i + 1], channel))
  {
    RunAt(states, inputs, i);
    RunLogged(states, inputs, i);
    var snap, cause := PublishedUpdate(states[i], inputs[i], states[i + 1], channel);
    if inputs[i].Tick? {
      hide ViewsUpdate, Run, RawLogged, ChangeId;
      BehindPublishes(states[i]);
      StepFrame(states[i], inputs[i], states[i + 1], channel);
    }
  }
}
