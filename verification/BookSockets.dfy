/** Book subscriptions: the index from channels to clients, each client's list of channels,
    and the handlers a closing connection runs. */
module BookSockets {
  import opened Options

  type Client = nat
  type Channel = string
  type Index = map<Channel, set<Client>>

  function Subscribers(index: Index, ch: Channel): set<Client> {
    if ch in index then index[ch] else {}
  }

  function ListOf(lists: map<Client, seq<Channel>>, c: Client): seq<Channel> {
    if c in lists then lists[c] else []
  }

  function Added(index: Index, ch: Channel, c: Client): Index {
    index[ch := Subscribers(index, ch) + {c}]
  }

  function Removed(index: Index, ch: Channel, c: Client): Index {
    if c in Subscribers(index, ch) then index[ch := index[ch] - {c}] else index
  }

  function RemovedAll(index: Index, channels: seq<Channel>, c: Client): Index {
    if channels == [] then index
    else Removed(RemovedAll(index, channels[..|channels| - 1], c), channels[|channels| - 1], c)
  }

  /** Removing a client channel by channel takes it out of exactly those channels, whatever
      their order, and touches no other client. */
  lemma {:induction false} RemovedAllAt(index: Index, channels: seq<Channel>, c: Client, ch: Channel)
    ensures Subscribers(RemovedAll(index, channels, c), ch) ==
      if ch in channels then Subscribers(index, ch) - {c} else Subscribers(index, ch)
  {
    if channels != [] {
      var init := channels[..|channels| - 1];
      assert channels == init + [channels[|channels| - 1]];
      RemovedAllAt(index, init, c, ch);
      RemovedAllAt(index, init, c, channels[|channels| - 1]);
    }
  }

  // ---------- the socket ----------

  class BookSocket {
    var subscriptions: Index
    var subscriptionsList: map<Client, seq<Channel>>

    constructor ()
      ensures subscriptions == map[] && subscriptionsList == map[]
    {
      subscriptions, subscriptionsList := map[], map[];
    }

    method Subscribe(channelID: Channel, c: Option<Client>) returns (ok: bool)
      modifies this
      ensures ok == c.Some?
      ensures subscriptions == if ok then Added(old(subscriptions), channelID, c.value) else old(subscriptions)
      ensures ok ==> channelID in subscriptions
      ensures ok ==> subscriptions[channelID] == (if channelID in old(subscriptions) then old(subscriptions)[channelID] else {}) + {c.value}
      ensures forall ch :: ch != channelID ==> Subscribers(subscriptions, ch) == Subscribers(old(subscriptions), ch)
      ensures subscriptionsList ==
        if ok then old(subscriptionsList)[c.value := ListOf(old(subscriptionsList), c.value) + [channelID]]
        else old(subscriptionsList)
    {
      if c == None { return false; }
      if channelID !in subscriptions {
        subscriptions := subscriptions[channelID := {}];
      }
      subscriptions := subscriptions[channelID := subscriptions[channelID] + {c.value}];
      if c.value !in subscriptionsList {
        subscriptionsList := subscriptionsList[c.value := []];
      }
      subscriptionsList := subscriptionsList[c.value := subscriptionsList[c.value] + [channelID]];
      return true;
    }

    /** Sends to each client of the channel once, in no particular order. */
    method BroadcastMessage(channelID: Channel) returns (sent: seq<Client>)
      ensures forall c :: c in sent <==> channelID in subscriptions && c in subscriptions[channelID]
      ensures forall i, j :: 0 <= i < j < |sent| ==> sent[i] != sent[j]
    {
      sent := [];
      var todo := if channelID in subscriptions then subscriptions[channelID] else {};
      while todo != {}
        invariant forall c :: c in sent || c in todo <==> channelID in subscriptions && c in subscriptions[channelID]
        invariant forall c :: c in sent ==> c !in todo
        invariant forall i, j :: 0 <= i < j < |sent| ==> sent[i] != sent[j]
        decreases todo
      {
        var c :| c in todo;
        sent, todo := sent + [c], todo - {c};
      }
    }

    method UnsubscribeChannel(channelID: Channel, c: Client)
      modifies this`subscriptions
      ensures subscriptions == Removed(old(subscriptions), channelID, c)
    {
      if channelID in subscriptions && c in subscriptions[channelID] {
        subscriptions := subscriptions[channelID := subscriptions[channelID] - {c}];
      }
    }

    /** Walks the client's own list; the list itself is kept. */
    method Unsubscribe(c: Client)
      modifies this`subscriptions
      ensures subscriptions == RemovedAll(old(subscriptions), ListOf(subscriptionsList, c), c)
    {
      if c !in subscriptionsList { return; }
      var channelIDs := subscriptionsList[c];
      for i := 0 to |channelIDs|
        invariant subscriptions == RemovedAll(old(subscriptions), channelIDs[..i], c)
      {
        var id := channelIDs[i];
        if id in subscriptions && c in subscriptions[id] {
          subscriptions := subscriptions[id := subscriptions[id] - {c}];
        }
        assert channelIDs[..i + 1][..i] == channelIDs[..i];
      }
      assert channelIDs[..|channelIDs|] == channelIDs;
    }
  }

  // ---------- runs ----------

  /** `pending` holds the subscriptions whose close handler is not registered yet; `running`
      the handlers that a close has started. */
  datatype State = State(index: Index, lists: map<Client, seq<Channel>>, handlers: map<Client, seq<Channel>>,
                         pending: multiset<(Client, Channel)>, running: multiset<(Client, Channel)>)

  const START := State(map[], map[], map[], multiset{}, multiset{})

  datatype Action =
    | Subscribe(c: Client, ch: Channel)
    | Register(c: Client, ch: Channel)
    | UnsubscribeAll(c: Client)
    | Close(c: Client)                    // starts every registered handler of the client
    | RunHandler(c: Client, ch: Channel)

  predicate Enabled(s: State, a: Action) {
    match a
    case Register(c, ch) => (c, ch) in s.pending
    case RunHandler(c, ch) => (c, ch) in s.running
    case _ => true
  }

  /** One run for each handler in a list: a channel subscribed to twice has two. */
  function Started(c: Client, channels: seq<Channel>): multiset<(Client, Channel)> {
    if channels == [] then multiset{} else Started(c, channels[..|channels| - 1]) + multiset{(c, channels[|channels| - 1])}
  }

  lemma {:induction false} StartedMembers(c: Client, channels: seq<Channel>, x: Client, ch: Channel)
    ensures (x, ch) in Started(c, channels) <==> x == c && ch in channels
  {
    if channels != [] {
      StartedMembers(c, channels[..|channels| - 1], x, ch);
      assert channels == channels[..|channels| - 1] + [channels[|channels| - 1]];
    }
  }

  function Next(s: State, a: Action): State {
    match a
    case Subscribe(c, ch) =>
      s.(index := Added(s.index, ch, c), lists := s.lists[c := ListOf(s.lists, c) + [ch]], pending := s.pending + multiset{(c, ch)})
    case Register(c, ch) =>
      s.(handlers := s.handlers[c := ListOf(s.handlers, c) + [ch]], pending := s.pending - multiset{(c, ch)})
    case UnsubscribeAll(c) => s.(index := RemovedAll(s.index, ListOf(s.lists, c), c))
    case Close(c) => s.(running := s.running + Started(c, ListOf(s.handlers, c)))
    case RunHandler(c, ch) => s.(index := Removed(s.index, ch, c), running := s.running - multiset{(c, ch)})
  }

  ghost predicate Covered(s: State) {
    && (forall c, ch :: c in Subscribers(s.index, ch) ==> ch in ListOf(s.lists, c))
    && (forall c, ch :: c in Subscribers(s.index, ch) ==> ch in ListOf(s.handlers, c) || (c, ch) in s.pending)
  }

  lemma NextCovered(s: State, a: Action)
    requires Covered(s) && Enabled(s, a)
    ensures Covered(Next(s, a))
  {
    var s' := Next(s, a);
    forall c, ch | c in Subscribers(s'.index, ch)
      ensures ch in ListOf(s'.lists, c)
      ensures ch in ListOf(s'.handlers, c) || (c, ch) in s'.pending
    {
      if a.UnsubscribeAll? {
        RemovedAllAt(s.index, ListOf(s.lists, a.c), a.c, ch);
      }
      assert c in Subscribers(s.index, ch) || a == Subscribe(c, ch);
      StillListed(s.lists, c, ch, a.c, if a.Subscribe? then [a.ch] else []);
      StillListed(s.handlers, c, ch, a.c, if a.Register? then [a.ch] else []);
    }
  }

  lemma StillListed(lists: map<Client, seq<Channel>>, c: Client, ch: Channel, x: Client, more: seq<Channel>)
    ensures ch in ListOf(lists, c) || (c == x && ch in more) ==>
      ch in ListOf(lists[x := ListOf(lists, x) + more], c)
  {
  }

  ghost predicate Run(states: seq<State>, actions: seq<Action>) {
    && |states| == |actions| + 1
    && forall i :: 0 <= i < |actions| ==> Enabled(states[i], actions[i]) && states[i + 1] == Next(states[i], actions[i])
  }

  lemma RunEnd(states: seq<State>, actions: seq<Action>)
    requires Run(states, actions) && actions != []
    ensures var n := |actions|;
      && Run(states[..n], actions[..n - 1]) && states[..n][n - 1] == states[n - 1] && states[..n][0] == states[0]
      && Enabled(states[n - 1], actions[n - 1]) && states[n] == Next(states[n - 1], actions[n - 1])
  {
    hide Next, Enabled;
    assert states[|actions|] == states[|actions| - 1 + 1];
  }

  /** In every run the reverse list, and the handlers registered or about to be, cover the
      forward index. */
  lemma {:induction false} RunCovered(states: seq<State>, actions: seq<Action>)
    requires Run(states, actions) && states[0] == START
    ensures Covered(states[|actions|])
    decreases |actions|
  {
    var n := |actions|;
    if n > 0 {
      assert Run(states[..n], actions[..n - 1]);
      RunCovered(states[..n], actions[..n - 1]);
      assert states[..n][n - 1] == states[n - 1];
      NextCovered(states[n - 1], actions[n - 1]);
    }
  }

  /** After any run, unsubscribing a client leaves it in no channel and every other client
      where it was. */
  lemma UnsubscribeErases(states: seq<State>, actions: seq<Action>, c: Client, ch: Channel)
    requires Run(states, actions) && states[0] == START
    ensures var s := states[|actions|];
      Subscribers(Next(s, UnsubscribeAll(c)).index, ch) == Subscribers(s.index, ch) - {c}
  {
    RunCovered(states, actions);
    var s := states[|actions|];
    RemovedAllAt(s.index, ListOf(s.lists, c), c, ch);
    assert c in Subscribers(s.index, ch) ==> ch in ListOf(s.lists, c);
  }

  /** The client subscribes to nothing in this stretch of a run. */
  predicate Quiet(actions: seq<Action>, c: Client) {
    forall i :: 0 <= i < |actions| ==> !(actions[i].Subscribe? && actions[i].c == c)
  }

  /** A step that takes a client off a channel. */
  predicate TakesOff(a: Action, c: Client, ch: Channel) {
    a == RunHandler(c, ch) || a == UnsubscribeAll(c)
  }

  predicate NoneTakesOff(actions: seq<Action>, c: Client, ch: Channel) {
    forall i :: 0 <= i < |actions| ==> !TakesOff(actions[i], c, ch)
  }

  lemma NoneMore(actions: seq<Action>, c: Client, ch: Channel)
    requires actions != []
    ensures var n := |actions| - 1;
      NoneTakesOff(actions, c, ch) <==> NoneTakesOff(actions[..n], c, ch) && !TakesOff(actions[n], c, ch)
  {
    hide TakesOff;
  }

  lemma QuietBefore(actions: seq<Action>, c: Client)
    requires actions != [] && Quiet(actions, c)
    ensures Quiet(actions[..|actions| - 1], c)
    ensures !(actions[|actions| - 1].Subscribe? && actions[|actions| - 1].c == c)
  {
  }

  /** In a stretch in which a client subscribes to nothing, it is on a channel at the end if and
      only if it was at the start and neither the channel's handler ran for it nor it
      unsubscribed. */
  lemma {:induction false} StaysOn(states: seq<State>, actions: seq<Action>, c: Client, ch: Channel)
    requires Run(states, actions) && Covered(states[0]) && Quiet(actions, c)
    ensures Covered(states[|actions|])
    ensures c in Subscribers(states[|actions|].index, ch) <==>
      c in Subscribers(states[0].index, ch) && NoneTakesOff(actions, c, ch)
    decreases |actions|
  {
    var n := |actions|;
    if n > 0 {
      RunEnd(states, actions);
      QuietBefore(actions, c);
      NoneMore(actions, c, ch);
      hide *;
      StaysOn(states[..n], actions[..n - 1], c, ch);
      NextCovered(states[n - 1], actions[n - 1]);
      StepOff(states[n - 1], actions[n - 1], c, ch);
    }
  }

  lemma StepOff(s: State, a: Action, c: Client, ch: Channel)
    requires Covered(s) && Enabled(s, a) && !(a.Subscribe? && a.c == c)
    ensures c in Subscribers(Next(s, a).index, ch) <==> c in Subscribers(s.index, ch) && !TakesOff(a, c, ch)
  {
    hide Started, RemovedAll;
    match a
    case Subscribe(x, h) => OthersAdded(s.index, h, x, c, ch);
    case Register(_, _) =>
    case UnsubscribeAll(x) => RemovedAllAt(s.index, ListOf(s.lists, x), x, ch);
    case Close(_) =>
    case RunHandler(x, h) => OnlyRemoved(s.index, h, x, c, ch);
  }

  lemma OthersAdded(index: Index, h: Channel, x: Client, c: Client, ch: Channel)
    requires x != c
    ensures c in Subscribers(Added(index, h, x), ch) <==> c in Subscribers(index, ch)
  {
  }

  lemma OnlyRemoved(index: Index, h: Channel, x: Client, c: Client, ch: Channel)
    ensures c in Subscribers(Removed(index, h, x), ch) <==> c in Subscribers(index, ch) && (x, h) != (c, ch)
  {
  }

  // ---------- who is on a channel ----------

  /** The client subscribed to the channel at some step, and no later step ran its handler for the
      channel or unsubscribed it. */
  ghost predicate Joined(actions: seq<Action>, c: Client, ch: Channel) {
    exists i :: 0 <= i < |actions| && actions[i] == Subscribe(c, ch) && NotLeftAfter(actions, i, c, ch)
  }

  predicate NotLeftAfter(actions: seq<Action>, i: nat, c: Client, ch: Channel) {
    forall j :: i < j < |actions| ==> actions[j] != RunHandler(c, ch) && actions[j] != UnsubscribeAll(c)
  }

  lemma JoinedNext(actions: seq<Action>, c: Client, ch: Channel)
    requires actions != []
    ensures var n := |actions| - 1;
      Joined(actions, c, ch) <==>
        actions[n] == Subscribe(c, ch)
        || (Joined(actions[..n], c, ch) && actions[n] != RunHandler(c, ch) && actions[n] != UnsubscribeAll(c))
  {
    var n := |actions| - 1;
    if actions[n] == Subscribe(c, ch) {
      assert NotLeftAfter(actions, n, c, ch);
    }
    if Joined(actions, c, ch) && actions[n] != Subscribe(c, ch) {
      var i :| 0 <= i < |actions| && actions[i] == Subscribe(c, ch) && NotLeftAfter(actions, i, c, ch);
      assert actions[..n][i] == Subscribe(c, ch) && NotLeftAfter(actions[..n], i, c, ch);
    }
    if Joined(actions[..n], c, ch) && actions[n] != RunHandler(c, ch) && actions[n] != UnsubscribeAll(c) {
      var i :| 0 <= i < n && actions[..n][i] == Subscribe(c, ch) && NotLeftAfter(actions[..n], i, c, ch);
      forall j | i < j < |actions| ensures actions[j] != RunHandler(c, ch) && actions[j] != UnsubscribeAll(c) {
        assert j < n ==> actions[..n][j] == actions[j];
      }
      assert NotLeftAfter(actions, i, c, ch);
    }
  }

  /** In every run a client is on a channel if and only if it subscribed there and has neither
      been unsubscribed nor had the channel's handler run for it since; whoever else is there. */
  lemma {:induction false} OnExactly(states: seq<State>, actions: seq<Action>, c: Client, ch: Channel)
    requires Run(states, actions) && states[0] == START
    ensures var index := states[|actions|].index;
      (ch in index && c in index[ch]) <==> Joined(actions, c, ch)
    decreases |actions|
  {
    var n := |actions|;
    if n > 0 {
      RunEnd(states, actions);
      JoinedNext(actions, c, ch);
      hide Joined, Next, Run, Enabled;
      OnExactly(states[..n], actions[..n - 1], c, ch);
      RunCovered(states[..n], actions[..n - 1]);
      OnNext(states[n - 1], actions[n - 1], c, ch);
    }
  }

  lemma OnNext(s: State, a: Action, c: Client, ch: Channel)
    requires Covered(s) && Enabled(s, a)
    ensures var index, index' := s.index, Next(s, a).index;
      (ch in index' && c in index'[ch]) <==>
        a == Subscribe(c, ch) || (ch in index && c in index[ch] && a != RunHandler(c, ch) && a != UnsubscribeAll(c))
  {
    if a != Subscribe(c, ch) && !(a.Subscribe? && a.c == c) {
      StepOff(s, a, c, ch);
    }
  }

  // ---------- what a close starts ----------

  /** The channels a client subscribed to, and those its handlers were registered for, in order. */
  function SubscribedTo(actions: seq<Action>, c: Client): seq<Channel> {
    if actions == [] then []
    else
      var a := actions[|actions| - 1];
      SubscribedTo(actions[..|actions| - 1], c) + if a.Subscribe? && a.c == c then [a.ch] else []
  }

  function RegisteredFor(actions: seq<Action>, c: Client): seq<Channel> {
    if actions == [] then []
    else
      var a := actions[|actions| - 1];
      RegisteredFor(actions[..|actions| - 1], c) + if a.Register? && a.c == c then [a.ch] else []
  }

  /** In every run a client's list holds every channel it subscribed to, and its handlers every
      channel registered for it, each as often and in that order. */
  lemma {:induction false} ListsKept(states: seq<State>, actions: seq<Action>, c: Client)
    requires Run(states, actions) && states[0] == START
    ensures ListOf(states[|actions|].lists, c) == SubscribedTo(actions, c)
    ensures ListOf(states[|actions|].handlers, c) == RegisteredFor(actions, c)
    decreases |actions|
  {
    var n := |actions|;
    if n > 0 {
      RunEnd(states, actions);
      hide Run, Enabled, Next, ListOf;
      ListsKept(states[..n], actions[..n - 1], c);
      ListsNext(states[n - 1], actions[n - 1], c);
    } else {
      assert states[|actions|] == START;
    }
  }

  lemma ListsNext(s: State, a: Action, c: Client)
    ensures ListOf(Next(s, a).lists, c) == ListOf(s.lists, c) + if a.Subscribe? && a.c == c then [a.ch] else []
    ensures ListOf(Next(s, a).handlers, c) == ListOf(s.handlers, c) + if a.Register? && a.c == c then [a.ch] else []
  {
    hide Added, Removed, RemovedAll, Started;
  }

  lemma {:induction false} StartedCount(c: Client, channels: seq<Channel>, x: Client, ch: Channel)
    ensures Started(c, channels)[(x, ch)] == if x == c then multiset(channels)[ch] else 0
  {
    if channels != [] {
      StartedCount(c, channels[..|channels| - 1], x, ch);
      assert channels == channels[..|channels| - 1] + [channels[|channels| - 1]];
    }
  }

  /** Closing a client starts, for each channel, one run for each handler ever registered for it
      there, none for another client, and takes nobody off a channel by itself. */
  lemma CloseStarts(states: seq<State>, actions: seq<Action>, c: Client, x: Client, ch: Channel)
    requires Run(states, actions) && states[0] == START
    ensures var s, s' := states[|actions|], Next(states[|actions|], Close(c));
      && s'.running[(x, ch)] == s.running[(x, ch)] + (if x == c then multiset(RegisteredFor(actions, c))[ch] else 0)
      && (Enabled(s', RunHandler(x, ch)) <==> (x, ch) in s.running || (x == c && ch in RegisteredFor(actions, c)))
      && s'.index == s.index
  {
    ListsKept(states, actions, c);
    StartedCount(c, RegisteredFor(actions, c), x, ch);
    StartedMembers(c, RegisteredFor(actions, c), x, ch);
  }

  /** Handlers are never forgotten, and only registered handlers are started. */
  ghost predicate OnlyRegistered(s: State) {
    forall c, ch :: (c, ch) in s.running ==> ch in ListOf(s.handlers, c)
  }

  lemma {:induction false} RunRegistered(states: seq<State>, actions: seq<Action>)
    requires Run(states, actions) && states[0] == START
    ensures OnlyRegistered(states[|actions|])
    decreases |actions|
  {
    var n := |actions|;
    if n > 0 {
      assert Run(states[..n], actions[..n - 1]);
      RunRegistered(states[..n], actions[..n - 1]);
      assert states[..n][n - 1] == states[n - 1];
      NextRegistered(states[n - 1], actions[n - 1]);
    }
  }

  lemma NextRegistered(s: State, a: Action)
    requires OnlyRegistered(s) && Enabled(s, a)
    ensures OnlyRegistered(Next(s, a))
  {
    forall c, ch | (c, ch) in Next(s, a).running ensures ch in ListOf(Next(s, a).handlers, c) {
      StartedMembers(a.c, ListOf(s.handlers, a.c), c, ch);
      assert (c, ch) in s.running || (a == Close(c) && ch in ListOf(s.handlers, c));
      StillListed(s.handlers, c, ch, a.c, if a.Register? then [a.ch] else []);
    }
  }

  /** The client is not closed again in this stretch, nor does it unsubscribe. */
  predicate LeftAlone(actions: seq<Action>, c: Client) {
    forall i :: 0 <= i < |actions| ==> actions[i] != Close(c) && actions[i] != UnsubscribeAll(c)
  }

  /** A handler that is not running is not run in a stretch without a close. */
  lemma {:induction false} NotRun(states: seq<State>, actions: seq<Action>, c: Client, ch: Channel)
    requires Run(states, actions) && LeftAlone(actions, c) && (c, ch) !in states[0].running
    ensures (c, ch) !in states[|actions|].running
    ensures forall i :: 0 <= i < |actions| ==> actions[i] != RunHandler(c, ch)
    decreases |actions|
  {
    var n := |actions|;
    if n > 0 {
      RunEnd(states, actions);
      hide Next, Enabled, Run;
      NotRun(states[..n], actions[..n - 1], c, ch);
      StaysIdle(states[n - 1], actions[n - 1], c, ch);
      forall i | 0 <= i < n - 1 ensures actions[..n - 1][i] == actions[i] {}
    }
  }

  lemma StaysIdle(s: State, a: Action, c: Client, ch: Channel)
    requires Enabled(s, a) && a != Close(c) && (c, ch) !in s.running
    ensures (c, ch) !in Next(s, a).running && a != RunHandler(c, ch)
  {
    hide RemovedAll, Started;
    StartedMembers(a.c, ListOf(s.handlers, a.c), c, ch);
  }

  /** What a close erases, in every interleaving: take any run, close a client in its last
      state, and let any further steps follow, by anyone, in which the client subscribes to
      nothing new and each handler the close started runs. Then the client is on a channel at
      the end if and only if it was when it was closed and nothing took it off since; only
      channels whose handler was not yet registered at the close can be left; and if the client
      is left alone after the close, exactly the channels without a handler are left. */
  lemma CloseErases(before: seq<State>, earlier: seq<Action>, after: seq<State>, later: seq<Action>, c: Client, ch: Channel)
    requires Run(before, earlier) && before[0] == START
    requires Run(after, later) && after[0] == Next(before[|earlier|], Close(c))
    requires Quiet(later, c)
    requires forall h :: h in ListOf(before[|earlier|].handlers, c) ==> exists i :: 0 <= i < |later| && later[i] == RunHandler(c, h)
    ensures var s, end := before[|earlier|], after[|later|];
      && (c in Subscribers(end.index, ch) <==>
          c in Subscribers(s.index, ch) && NoneTakesOff(later, c, ch))
      && (c in Subscribers(end.index, ch) ==> (c, ch) in s.pending)
      && (LeftAlone(later, c) ==>
          (c in Subscribers(end.index, ch) <==> c in Subscribers(s.index, ch) && ch !in ListOf(s.handlers, c)))
  {
    RunCovered(before, earlier);
    RunRegistered(before, earlier);
    var s := before[|earlier|];
    NextCovered(s, Close(c));
    StaysOn(after, later, c, ch);
    if ch in ListOf(s.handlers, c) {
      var i :| 0 <= i < |later| && later[i] == RunHandler(c, ch);
      assert TakesOff(later[i], c, ch);
    } else if LeftAlone(later, c) {
      StartedMembers(c, ListOf(s.handlers, c), c, ch);
      assert (c, ch) !in after[0].running;
      NotRun(after, later, c, ch);
    }
  }

  /** The outstanding registration matters: a client closed between its subscription and the
      registration of its handler stays subscribed while it is left alone. */
  lemma ClosedTooEarly(c: Client, ch: Channel)
    ensures var s1 := Next(START, Subscribe(c, ch));
      var s2 := Next(s1, Close(c));
      var s3 := Next(s2, Register(c, ch));
      Enabled(s2, Register(c, ch)) && s3.running == multiset{} && s3.pending == multiset{} && c in Subscribers(s3.index, ch)
  {
    var s1 := Next(START, Subscribe(c, ch));
    assert ListOf(s1.handlers, c) == [];
    assert Next(s1, Close(c)).running == multiset{};
  }
}
