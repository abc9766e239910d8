/** The 100ms batching of user orders and trades, at lock granularity: producers look the key
    up, then create or append under the lock; a drainer reads the buffer, broadcasts what it
    read, and only then resets the buffer under the lock. */
module Batching {
  import opened Options

  datatype Drainer<T> = Idle | HasRead(batch: seq<T>) | HasSent(batch: seq<T>)

  /** What a run leaves on record: everything appended, and, as places in that history: what
      was emitted, where each drainer's batch starts, what left the buffer unread, and what was
      read again; and how much of the buffer some drainer has read. */
  datatype Record<T> = Record(history: seq<T>, places: seq<nat>, froms: seq<nat>,
                              seen: nat, lost: seq<nat>, again: seq<nat>)

  /** The buffer of one key, what each producer saw when it looked the key up, the drainers
      started, and what was emitted. */
  datatype State<T> = State(buffer: Option<seq<T>>, saw: map<nat, bool>, drainers: seq<Drainer<T>>,
                            emitted: seq<T>, record: Record<T>)

  function Start<T>(): State<T> {
    State(None, map[], [], [], Record([], [], [], 0, [], []))
  }

  datatype Action<T> =
    | Look(producer: nat)                  // the unlocked lookup
    | Put(producer: nat, items: seq<T>)    // create or append, under the lock
    | Read(drainer: nat)
    | Send(drainer: nat)
    | Reset(drainer: nat)

  predicate Enabled<T>(s: State<T>, a: Action<T>) {
    match a
    case Look(p) => true
    case Put(p, _) => p in s.saw
    case Read(d) => d < |s.drainers| && s.drainers[d].Idle?
    case Send(d) => d < |s.drainers| && s.drainers[d].HasRead?
    case Reset(d) => d < |s.drainers| && s.drainers[d].HasSent?
  }

  function Contents<T>(s: State<T>): seq<T> {
    if s.buffer.Some? then s.buffer.value else []
  }

  /** The part of the buffer some drainer has read, and the rest. */
  function AlreadyRead<T>(s: State<T>): seq<T> {
    if s.record.seen <= |Contents(s)| then Contents(s)[..s.record.seen] else []
  }

  function Unread<T>(s: State<T>): seq<T> {
    if s.record.seen <= |Contents(s)| then Contents(s)[s.record.seen..] else []
  }

  predicate Creates<T>(s: State<T>, a: Action<T>) {
    a.Put? && a.producer in s.saw && !s.saw[a.producer]
  }

  /** Where the buffer starts in the history, of which it is always the end. */
  function Base<T>(s: State<T>): nat {
    if |Contents(s)| <= |s.record.history| then |s.record.history| - |Contents(s)| else 0
  }

  function FromOf<T>(s: State<T>, d: nat): nat {
    if d < |s.record.froms| then s.record.froms[d] else 0
  }

  function Places(from: nat, n: nat): (places: seq<nat>)
    ensures |places| == n && forall i :: 0 <= i < n ==> places[i] == from + i
  {
    if n == 0 then [] else Places(from, n - 1) + [from + n - 1]
  }

  /** The places of the buffer's elements that no drainer has read. */
  function UnreadPlaces<T>(s: State<T>): seq<nat> {
    Places(Base(s) + s.record.seen, |Unread(s)|)
  }

  function NextRecord<T>(s: State<T>, a: Action<T>): Record<T>
    requires Enabled(s, a)
  {
    var r := s.record;
    match a
    case Look(_) => r
    case Put(p, items) =>
      if s.saw[p] then r.(history := r.history + items)
      else r.(history := r.history + items, froms := r.froms + [0], lost := r.lost + UnreadPlaces(s), seen := 0)
    case Read(d) =>
      if Contents(s) == [] || d >= |r.froms| then r
      else r.(froms := r.froms[d := Base(s)], again := r.again + Places(Base(s), |AlreadyRead(s)|), seen := |Contents(s)|)
    case Send(d) =>
      r.(places := r.places + Places(FromOf(s, d), |s.drainers[d].batch|))
    case Reset(_) => r.(lost := r.lost + UnreadPlaces(s), seen := 0)
  }

  function Next<T>(s: State<T>, a: Action<T>): State<T>
    requires Enabled(s, a)
  {
    var s' := s.(record := NextRecord(s, a));
    match a
    case Look(p) => s'.(saw := s.saw[p := s.buffer.Some?])
    case Put(p, items) =>
      if s.saw[p] then s'.(saw := s.saw - {p}, buffer := Some(Contents(s) + items))
      else s'.(saw := s.saw - {p}, buffer := Some(items), drainers := s.drainers + [Idle])
    case Read(d) => if Contents(s) == [] then s' else s'.(drainers := s.drainers[d := HasRead(Contents(s))])
    case Send(d) =>
      var batch := s.drainers[d].batch;
      s'.(emitted := s.emitted + batch, drainers := s.drainers[d := HasSent(batch)])
    case Reset(d) => s'.(buffer := Some([]), drainers := s.drainers[d := Idle])
  }

  /** The shared buffer as the service holds it; each method is one critical section, or the
      unlocked lookup, or the broadcast. */
  class Buffer<T> {
    var buffer: Option<seq<T>>
    var saw: map<nat, bool>
    var drainers: seq<Drainer<T>>
    var emitted: seq<T>
    ghost var record: Record<T>

    ghost function Model(): State<T>
      reads this
    {
      State(buffer, saw, drainers, emitted, record)
    }

    constructor ()
      ensures Model() == Start()
    {
      buffer, saw, drainers, emitted := None, map[], [], [];
      record := Record([], [], [], 0, [], []);
    }

    method LookUp(producer: nat) returns (present: bool)
      modifies this
      ensures Model() == Next(old(Model()), Look(producer))
      ensures present == old(buffer).Some?
    {
      present := buffer.Some?;
      saw := saw[producer := present];
    }

    method PutItems(producer: nat, items: seq<T>)
      requires Enabled(Model(), Put(producer, items))
      modifies this
      ensures Model() == Next(old(Model()), Put(producer, items))
    {
      hide NextRecord;
      record := NextRecord(Model(), Put(producer, items));
      if !saw[producer] {
        buffer := Some(items);
        drainers := drainers + [Idle];
      } else {
        buffer := Some((if buffer.Some? then buffer.value else []) + items);
      }
      saw := saw - {producer};
    }

    method ReadBuffer(d: nat)
      requires Enabled(Model(), Read(d))
      modifies this
      ensures Model() == Next(old(Model()), Read(d))
    {
      hide NextRecord;
      record := NextRecord(Model(), Read(d));
      if buffer.Some? && |buffer.value| > 0 {
        drainers := drainers[d := HasRead(buffer.value)];
      }
    }

    method Broadcast(d: nat)
      requires Enabled(Model(), Send(d))
      modifies this
      ensures Model() == Next(old(Model()), Send(d))
    {
      hide NextRecord;
      record := NextRecord(Model(), Send(d));
      emitted := emitted + drainers[d].batch;
      drainers := drainers[d := HasSent(drainers[d].batch)];
    }

    method ResetBuffer(d: nat)
      requires Enabled(Model(), Reset(d))
      modifies this
      ensures Model() == Next(old(Model()), Reset(d))
    {
      hide NextRecord;
      record := NextRecord(Model(), Reset(d));
      buffer := Some([]);
      drainers := drainers[d := Idle];
    }
  }

  ghost predicate Run<T>(states: seq<State<T>>, actions: seq<Action<T>>) {
    && |states| == |actions| + 1 && states[0] == Start()
    && forall i :: 0 <= i < |actions| ==> Enabled(states[i], actions[i]) && states[i + 1] == Next(states[i], actions[i])
  }

  // ---------- the ledger, with any number of drainers ----------

  ghost function Count(s: seq<nat>, x: nat): nat {
    multiset(s)[x]
  }

  function In(x: nat, lo: nat, hi: nat): nat {
    if lo <= x < hi then 1 else 0
  }

  lemma CountConcat(a: seq<nat>, b: seq<nat>, x: nat)
    ensures Count(a + b, x) == Count(a, x) + Count(b, x)
  {
  }

  lemma CountOne(y: nat, x: nat)
    ensures Count([y], x) == In(x, y, y + 1) && Count([], x) == 0
  {
  }

  lemma {:induction false} CountPlaces(from: nat, n: nat, x: nat)
    ensures Count(Places(from, n), x) == In(x, from, from + n)
  {
    hide Count;
    CountOne(if n > 0 then from + n - 1 else 0, x);
    if n > 0 {
      CountPlaces(from, n - 1, x);
      CountConcat(Places(from, n - 1), [from + n - 1], x);
    }
  }

  lemma CountAdds(s: seq<nat>, from: nat, n: nat, x: nat)
    ensures Count(s + Places(from, n), x) == Count(s, x) + In(x, from, from + n)
  {
    CountConcat(s, Places(from, n), x);
    CountPlaces(from, n, x);
  }

  /** Whether a drainer has read a place and not yet sent it. */
  function InHand<T>(d: Drainer<T>, from: nat, x: nat): nat {
    if d.HasRead? then In(x, from, from + |d.batch|) else 0
  }

  /** How many drainers have it in hand. */
  function Held<T>(drainers: seq<Drainer<T>>, froms: seq<nat>, x: nat): nat
    requires |drainers| == |froms|
  {
    if drainers == [] then 0
    else
      var n := |drainers| - 1;
      Held(drainers[..n], froms[..n], x) + InHand(drainers[n], froms[n], x)
  }

  lemma {:induction false} HeldUpdate<T>(drainers: seq<Drainer<T>>, froms: seq<nat>, d: nat, now: Drainer<T>, from: nat, x: nat)
    requires d < |drainers| == |froms|
    ensures Held(drainers[d := now], froms[d := from], x) + InHand(drainers[d], froms[d], x) ==
      Held(drainers, froms, x) + InHand(now, from, x)
  {
    hide InHand;
    var n := |drainers| - 1;
    if d < n {
      assert drainers[d := now][..n] == drainers[..n][d := now] && froms[d := from][..n] == froms[..n][d := from];
      HeldUpdate(drainers[..n], froms[..n], d, now, from, x);
    } else {
      assert drainers[d := now][..n] == drainers[..n] && froms[d := from][..n] == froms[..n];
    }
  }

  /** Every drainer was started by a creation; a key that was seen exists; and the buffer is no
      longer than the history. */
  ghost predicate Tracked<T>(s: State<T>) {
    && (s.buffer.Some? <==> s.drainers != [])
    && (forall p :: p in s.saw && s.saw[p] ==> s.buffer.Some?)
    && |s.record.froms| == |s.drainers| && s.record.seen <= |Contents(s)| <= |s.record.history|
  }

  /** Appended plus read again is emitted, in hand, unread and lost, place by place. */
  ghost predicate BalancedAt<T>(s: State<T>, x: nat)
    requires Tracked(s)
  {
    var r := s.record;
    In(x, 0, |r.history|) + Count(r.again, x) ==
      Count(r.places, x) + Held(s.drainers, r.froms, x) + In(x, Base(s) + r.seen, |r.history|) + Count(r.lost, x)
  }

  lemma NextTracked<T>(s: State<T>, a: Action<T>)
    requires Tracked(s) && Enabled(s, a)
    ensures Tracked(Next(s, a))
  {
    hide Places;
  }

  lemma NextBalanced<T>(s: State<T>, a: Action<T>, x: nat)
    requires Tracked(s) && Enabled(s, a) && BalancedAt(s, x)
    requires Tracked(Next(s, a))
    ensures BalancedAt(Next(s, a), x)
  {
    hide Count, Held, Places;
    match a
    case Look(p) =>
    case Put(p, items) => PutBalanced(s, p, items, x);
    case Read(d) => ReadBalanced(s, d, x);
    case Send(d) => SendBalanced(s, d, x);
    case Reset(d) => ResetBalanced(s, d, x);
  }

  lemma PutBalanced<T>(s: State<T>, p: nat, items: seq<T>, x: nat)
    requires Tracked(s) && Enabled(s, Put(p, items)) && BalancedAt(s, x)
    requires Tracked(Next(s, Put(p, items)))
    ensures BalancedAt(Next(s, Put(p, items)), x)
  {
    if s.saw[p] {
      AppendBalanced(s, p, items, x);
    } else {
      CreateBalanced(s, p, items, x);
    }
  }

  lemma AppendBalanced<T>(s: State<T>, p: nat, items: seq<T>, x: nat)
    requires Tracked(s) && Enabled(s, Put(p, items)) && BalancedAt(s, x) && s.saw[p]
    requires Tracked(Next(s, Put(p, items)))
    ensures BalancedAt(Next(s, Put(p, items)), x)
  {
    hide Count, Places, Held;
    assert s.buffer.Some?;
  }

  lemma CreateBalanced<T>(s: State<T>, p: nat, items: seq<T>, x: nat)
    requires Tracked(s) && Enabled(s, Put(p, items)) && BalancedAt(s, x) && !s.saw[p]
    requires Tracked(Next(s, Put(p, items)))
    ensures BalancedAt(Next(s, Put(p, items)), x)
  {
    hide Next, Enabled, Unread, Places, Count, Held, Base, BalancedAt, Contents, In, NextRecord;
    CreatedState(s, p, items);
    CountAdds(s.record.lost, Base(s) + s.record.seen, |Unread(s)|, x);
    HeldMore(s.drainers, s.record.froms, x);
    AllLost(s, Next(s, Put(p, items)), x);
  }

  /** The balance after a step that takes everything unread for lost. */
  lemma AllLost<T>(s: State<T>, s': State<T>, x: nat)
    requires Tracked(s) && Tracked(s') && BalancedAt(s, x)
    requires s'.record.places == s.record.places && s'.record.again == s.record.again
    requires |s'.record.history| >= |s.record.history| && Base(s') == |s.record.history| && s'.record.seen == 0
    requires Held(s'.drainers, s'.record.froms, x) == Held(s.drainers, s.record.froms, x)
    requires Count(s'.record.lost, x) == Count(s.record.lost, x) + In(x, Base(s) + s.record.seen, |s.record.history|)
    ensures BalancedAt(s', x)
  {
    hide Count, Held, Base;
  }

  /** The state after a creation. */
  lemma CreatedState<T>(s: State<T>, p: nat, items: seq<T>)
    requires Tracked(s) && Enabled(s, Put(p, items)) && !s.saw[p]
    ensures var s', r := Next(s, Put(p, items)), s.record;
      && Base(s) + r.seen + |Unread(s)| == |r.history| && Base(s') == |r.history|
      && s'.drainers == s.drainers + [Idle]
      && s'.record == Record(r.history + items, r.places, r.froms + [0], 0,
                             r.lost + Places(Base(s) + r.seen, |Unread(s)|), r.again)
  {
    hide Places;
  }

  lemma HeldMore<T>(drainers: seq<Drainer<T>>, froms: seq<nat>, x: nat)
    requires |drainers| == |froms|
    ensures Held(drainers + [Idle], froms + [0], x) == Held(drainers, froms, x)
  {
    assert (drainers + [Idle])[..|drainers|] == drainers && (froms + [0])[..|drainers|] == froms;
  }

  lemma ReadBalanced<T>(s: State<T>, d: nat, x: nat)
    requires Tracked(s) && Enabled(s, Read(d)) && BalancedAt(s, x)
    requires Tracked(Next(s, Read(d)))
    ensures BalancedAt(Next(s, Read(d)), x)
  {
    hide Count, Held, Places;
    if Contents(s) != [] {
      HeldUpdate(s.drainers, s.record.froms, d, HasRead(Contents(s)), Base(s), x);
      CountAdds(s.record.again, Base(s), |AlreadyRead(s)|, x);
    }
  }

  lemma SendBalanced<T>(s: State<T>, d: nat, x: nat)
    requires Tracked(s) && Enabled(s, Send(d)) && BalancedAt(s, x)
    requires Tracked(Next(s, Send(d)))
    ensures BalancedAt(Next(s, Send(d)), x)
  {
    hide Count, Held, Places;
    var from := s.record.froms[d];
    HeldUpdate(s.drainers, s.record.froms, d, HasSent(s.drainers[d].batch), from, x);
    assert s.record.froms[d := from] == s.record.froms;
    CountAdds(s.record.places, from, |s.drainers[d].batch|, x);
  }

  lemma ResetBalanced<T>(s: State<T>, d: nat, x: nat)
    requires Tracked(s) && Enabled(s, Reset(d)) && BalancedAt(s, x)
    requires Tracked(Next(s, Reset(d)))
    ensures BalancedAt(Next(s, Reset(d)), x)
  {
    hide Count, Held, Places;
    var from := s.record.froms[d];
    HeldUpdate(s.drainers, s.record.froms, d, Idle, from, x);
    assert s.record.froms[d := from] == s.record.froms;
    CountAdds(s.record.lost, Base(s) + s.record.seen, |Unread(s)|, x);
  }

  /** In every run, however many drainers were started: each place of the history was appended
      and read again as often as it was emitted, is in hand, lies unread in the buffer, and left
      the buffer unread. */
  lemma {:induction false} RunLedger<T>(states: seq<State<T>>, actions: seq<Action<T>>, x: nat)
    requires Run(states, actions)
    ensures Tracked(states[|actions|]) && BalancedAt(states[|actions|], x)
    decreases |actions|
  {
    var n := |actions|;
    if n > 0 {
      hide BalancedAt, Tracked, Next, Enabled;
      RunEnd(states, actions);
      RunLedger(states[..n], actions[..n - 1], x);
      NextTracked(states[n - 1], actions[n - 1]);
      NextBalanced(states[n - 1], actions[n - 1], x);
    }
  }

  lemma RunEnd<T>(states: seq<State<T>>, actions: seq<Action<T>>)
    requires Run(states, actions) && actions != []
    ensures var n := |actions|;
      && Run(states[..n], actions[..n - 1]) && states[..n][n - 1] == states[n - 1]
      && Enabled(states[n - 1], actions[n - 1]) && states[n] == Next(states[n - 1], actions[n - 1])
  {
    hide Next, Enabled;
    var n := |actions|;
    assert states[n] == states[n - 1 + 1];
  }

  // ---------- each element once ----------

  /** A read that finds elements some drainer has already read. */
  predicate Repeats<T>(s: State<T>, a: Action<T>) {
    a.Read? && |AlreadyRead(s)| > 0
  }

  /** A reset, or a creation over an existing buffer, that finds elements no drainer has read. */
  predicate Loses<T>(s: State<T>, a: Action<T>) {
    (a.Reset? || Creates(s, a)) && |Unread(s)| > 0
  }

  ghost predicate NoneRepeats<T>(states: seq<State<T>>, actions: seq<Action<T>>)
    requires |states| == |actions| + 1
  {
    forall i :: 0 <= i < |actions| ==> !Repeats(states[i], actions[i])
  }

  ghost predicate NoneLoses<T>(states: seq<State<T>>, actions: seq<Action<T>>)
    requires |states| == |actions| + 1
  {
    forall i :: 0 <= i < |actions| ==> !Loses(states[i], actions[i])
  }

  lemma {:induction false} RecordExact<T>(states: seq<State<T>>, actions: seq<Action<T>>)
    requires Run(states, actions)
    ensures Tracked(states[|actions|])
    ensures states[|actions|].record.again == [] <==> NoneRepeats(states, actions)
    ensures states[|actions|].record.lost == [] <==> NoneLoses(states, actions)
    decreases |actions|
  {
    hide *;
    var n := |actions|;
    if n == 0 {
      NothingRecorded(states, actions);
    } else {
      RunLengths(states, actions);
      var states0, actions0, s, a := states[..n], actions[..n - 1], states[n - 1], actions[n - 1];
      RunEnd(states, actions);
      RecordExact(states0, actions0);
      NextTracked(s, a);
      NextExact(s, a);
      NoneSplit(states, actions);
    }
  }

  lemma RunLengths<T>(states: seq<State<T>>, actions: seq<Action<T>>)
    requires Run(states, actions)
    ensures |states| == |actions| + 1
  {
    hide Next, Enabled;
  }

  lemma NothingRecorded<T>(states: seq<State<T>>, actions: seq<Action<T>>)
    requires Run(states, actions) && actions == []
    ensures |states| == 1 && Tracked(states[0])
    ensures states[0].record.again == [] && NoneRepeats(states, actions)
    ensures states[0].record.lost == [] && NoneLoses(states, actions)
  {
    hide Next, Enabled;
  }

  lemma NoneSplit<T>(states: seq<State<T>>, actions: seq<Action<T>>)
    requires |states| == |actions| + 1 && actions != []
    ensures var n := |actions|;
      && (NoneRepeats(states, actions) <==>
          NoneRepeats(states[..n], actions[..n - 1]) && !Repeats(states[n - 1], actions[n - 1]))
      && (NoneLoses(states, actions) <==>
          NoneLoses(states[..n], actions[..n - 1]) && !Loses(states[n - 1], actions[n - 1]))
  {
    hide Repeats, Loses;
  }

  lemma NextExact<T>(s: State<T>, a: Action<T>)
    requires Tracked(s) && Enabled(s, a)
    ensures Next(s, a).record.again == [] <==> s.record.again == [] && !Repeats(s, a)
    ensures Next(s, a).record.lost == [] <==> s.record.lost == [] && !Loses(s, a)
  {
    var r := s.record;
    assert |r.again + Places(Base(s), |AlreadyRead(s)|)| == |r.again| + |AlreadyRead(s)|;
    assert |r.lost + UnreadPlaces(s)| == |r.lost| + |Unread(s)|;
  }

  /** What was read again was read before and is not lost; and what was lost is gone. */
  ghost predicate Apart<T>(s: State<T>) {
    && (forall x :: x in s.record.again ==> x !in s.record.lost && x < Base(s) + s.record.seen)
    && (forall x :: x in s.record.lost ==> x < Base(s))
  }

  lemma NextApart<T>(s: State<T>, a: Action<T>)
    requires Tracked(s) && Enabled(s, a) && Apart(s)
    ensures Apart(Next(s, a))
  {
    InPlaces(Base(s) + s.record.seen, |Unread(s)|);
    InPlaces(Base(s), |AlreadyRead(s)|);
    hide Places;
  }

  lemma InPlaces(from: nat, n: nat)
    ensures forall x :: x in Places(from, n) ==> from <= x < from + n
  {
  }

  lemma {:induction false} RunApart<T>(states: seq<State<T>>, actions: seq<Action<T>>)
    requires Run(states, actions)
    ensures Tracked(states[|actions|]) && Apart(states[|actions|])
    decreases |actions|
  {
    var n := |actions|;
    if n > 0 {
      hide Tracked, Apart, Next, Enabled;
      RunEnd(states, actions);
      RunApart(states[..n], actions[..n - 1]);
      NextTracked(states[n - 1], actions[n - 1]);
      NextApart(states[n - 1], actions[n - 1]);
    }
  }

  /** Each emitted element is the one at its place, and each batch in hand is from its place on. */
  ghost predicate Located<T>(s: State<T>) {
    var r := s.record;
    && Tracked(s) && |r.places| == |s.emitted|
    && (forall i :: 0 <= i < |r.places| ==> r.places[i] < |r.history| && r.history[r.places[i]] == s.emitted[i])
    && (forall i :: 0 <= i < |Contents(s)| ==> Contents(s)[i] == r.history[Base(s) + i])
    && (forall d :: 0 <= d < |s.drainers| && s.drainers[d].HasRead? ==> Taken(s, d))
  }

  ghost predicate Taken<T>(s: State<T>, d: nat)
    requires d < |s.drainers| == |s.record.froms| && !s.drainers[d].Idle?
  {
    var from, batch := s.record.froms[d], s.drainers[d].batch;
    from + |batch| <= |s.record.history| && forall i :: 0 <= i < |batch| ==> s.record.history[from + i] == batch[i]
  }

  lemma NextLocated<T>(s: State<T>, a: Action<T>)
    requires Located(s) && Enabled(s, a)
    ensures Located(Next(s, a))
  {
    NextTracked(s, a);
    hide Located, Tracked, Next;
    match a
    case Look(p) => OtherLocated(s, a);
    case Put(p, items) => PutLocated(s, p, items);
    case Read(d) => ReadLocated(s, d);
    case Send(d) => SendLocated(s, d);
    case Reset(d) => OtherLocated(s, a);
  }

  lemma PutLocated<T>(s: State<T>, p: nat, items: seq<T>)
    requires Located(s) && Enabled(s, Put(p, items)) && Tracked(Next(s, Put(p, items)))
    ensures Located(Next(s, Put(p, items)))
  {
    hide Places, Unread, Taken;
    KeptTaken(s, Next(s, Put(p, items)));
  }

  lemma OtherLocated<T>(s: State<T>, a: Action<T>)
    requires Located(s) && Enabled(s, a) && (a.Look? || a.Reset?) && Tracked(Next(s, a))
    ensures Located(Next(s, a))
  {
    hide Places, Unread, Taken;
    KeptTaken(s, Next(s, a));
  }

  /** A batch stays where it is while the history only grows. */
  lemma KeptTaken<T>(s: State<T>, s': State<T>)
    requires Located(s) && Tracked(s') && s.record.history <= s'.record.history
    requires forall d :: 0 <= d < |s'.drainers| && s'.drainers[d].HasRead? ==>
      d < |s.drainers| && s.drainers[d] == s'.drainers[d] && s.record.froms[d] == s'.record.froms[d]
    ensures forall d :: 0 <= d < |s'.drainers| && s'.drainers[d].HasRead? ==> Taken(s', d)
  {
    forall d | 0 <= d < |s'.drainers| && s'.drainers[d].HasRead? ensures Taken(s', d) {
      assert Taken(s, d);
    }
  }

  lemma ReadLocated<T>(s: State<T>, d: nat)
    requires Located(s) && Enabled(s, Read(d)) && Tracked(Next(s, Read(d)))
    ensures Located(Next(s, Read(d)))
  {
    hide Places, AlreadyRead;
    if Contents(s) != [] {
      JustTaken(s, d);
      OthersTaken(s, d);
      hide Taken;
    }
  }

  lemma JustTaken<T>(s: State<T>, d: nat)
    requires Located(s) && Enabled(s, Read(d)) && Contents(s) != []
    ensures |Next(s, Read(d)).record.froms| == |s.drainers| && Taken(Next(s, Read(d)), d)
  {
    hide Places, AlreadyRead;
  }

  lemma OthersTaken<T>(s: State<T>, d: nat)
    requires Located(s) && Enabled(s, Read(d)) && Contents(s) != []
    ensures var s' := Next(s, Read(d));
      |s'.record.froms| == |s'.drainers| == |s.drainers| &&
      forall e :: 0 <= e < |s.drainers| && e != d && s'.drainers[e].HasRead? ==> Taken(s', e)
  {
    hide Places, AlreadyRead;
    var s' := Next(s, Read(d));
    forall e | 0 <= e < |s.drainers| && e != d && s'.drainers[e].HasRead? ensures Taken(s', e) {
      assert Taken(s, e);
    }
  }

  lemma SendLocated<T>(s: State<T>, d: nat)
    requires Located(s) && Enabled(s, Send(d)) && Tracked(Next(s, Send(d)))
    ensures Located(Next(s, Send(d)))
  {
    assert Taken(s, d);
    KeptTaken(s, Next(s, Send(d)));
  }

  lemma {:induction false} RunLocated<T>(states: seq<State<T>>, actions: seq<Action<T>>)
    requires Run(states, actions)
    ensures Located(states[|actions|])
    decreases |actions|
  {
    var n := |actions|;
    if n > 0 {
      hide Located, Next, Enabled;
      RunEnd(states, actions);
      RunLocated(states[..n], actions[..n - 1]);
      NextLocated(states[n - 1], actions[n - 1]);
    }
  }

  lemma {:induction false} HeldNone<T>(drainers: seq<Drainer<T>>, froms: seq<nat>, x: nat)
    requires |drainers| == |froms| && forall d :: 0 <= d < |drainers| ==> !drainers[d].HasRead?
    ensures Held(drainers, froms, x) == 0
  {
    if drainers != [] {
      HeldNone(drainers[..|drainers| - 1], froms[..|drainers| - 1], x);
    }
  }

  lemma CountMember(s: seq<nat>, x: nat)
    ensures Count(s, x) > 0 <==> x in s
  {
  }

  lemma CountEmpty(s: seq<nat>)
    ensures s == [] <==> forall x :: Count(s, x) == 0
  {
    if s != [] {
      assert Count(s, s[0]) > 0;
    }
  }

  /** Once no drainer holds an unsent batch and the buffer has nothing unread, every place of the
      history was emitted exactly once if and only if no read found elements already read and no
      reset or creation found elements not yet read; with any number of producers and drainers.
      What was emitted is at each time the element at its place. */
  lemma OnceEach<T>(states: seq<State<T>>, actions: seq<Action<T>>)
    requires Run(states, actions)
    requires forall d :: 0 <= d < |states[|actions|].drainers| ==> !states[|actions|].drainers[d].HasRead?
    requires Unread(states[|actions|]) == []
    ensures var s := states[|actions|];
      && |s.record.places| == |s.emitted|
      && (forall i :: 0 <= i < |s.emitted| ==>
          s.record.places[i] < |s.record.history| && s.emitted[i] == s.record.history[s.record.places[i]])
      && ((forall x :: 0 <= x < |s.record.history| ==> Count(s.record.places, x) == 1) <==>
          NoneRepeats(states, actions) && NoneLoses(states, actions))
  {
    var s := states[|actions|];
    var r := s.record;
    RunLocated(states, actions);
    RunApart(states, actions);
    RecordExact(states, actions);
    forall x ensures In(x, 0, |r.history|) + Count(r.again, x) == Count(r.places, x) + Count(r.lost, x) {
      RunLedger(states, actions, x);
      HeldNone(s.drainers, r.froms, x);
    }
    hide Run, NoneRepeats, NoneLoses, Located, Tracked;
    OnceBy(s);
  }

  lemma OnceBy<T>(s: State<T>)
    requires Apart(s) && |Contents(s)| <= |s.record.history| && s.record.seen <= |Contents(s)|
    requires forall x :: In(x, 0, |s.record.history|) + Count(s.record.again, x) == Count(s.record.places, x) + Count(s.record.lost, x)
    ensures (forall x :: 0 <= x < |s.record.history| ==> Count(s.record.places, x) == 1) <==>
      s.record.again == [] && s.record.lost == []
  {
    hide Count;
    var r := s.record;
    CountEmpty(r.again);
    CountEmpty(r.lost);
    forall x: nat
      ensures Count(r.again, x) > 0 ==> Count(r.lost, x) == 0 && x < |r.history|
      ensures Count(r.lost, x) > 0 ==> x < |r.history|
    {
      CountMember(r.again, x);
      CountMember(r.lost, x);
    }
    if forall x :: 0 <= x < |r.history| ==> Count(r.places, x) == 1 {
      forall x ensures Count(r.again, x) == 0 && Count(r.lost, x) == 0 {
        assert In(x, 0, |r.history|) + Count(r.again, x) == Count(r.places, x) + Count(r.lost, x);
      }
    }
  }

  // ---------- one drainer ----------

  ghost predicate NoDup<T>(s: seq<T>) {
    forall i, j :: 0 <= i < j < |s| ==> s[i] != s[j]
  }

  /** `places` embeds `sub` into `whole` in order. */
  ghost predicate Embeds<T>(sub: seq<T>, whole: seq<T>, places: seq<nat>) {
    && |places| == |sub|
    && (forall i :: 0 <= i < |places| ==> places[i] < |whole| && whole[places[i]] == sub[i])
    && forall i, j :: 0 <= i < j < |places| ==> places[i] < places[j]
  }

  ghost predicate Below(places: seq<nat>, limit: nat) {
    forall i :: 0 <= i < |places| ==> places[i] < limit
  }

  ghost predicate OneDrainer<T>(s: State<T>) {
    var r := s.record;
    && Located(s) && |s.drainers| <= 1 && r.again == []
    && Embeds(s.emitted, r.history, r.places)
    && (s.drainers == [] ==> r.history == [] && s.emitted == [] && r.lost == [])
    && (s.drainers != [] ==>
        match s.drainers[0]
        case Idle => r.seen == 0 && Below(r.places, Base(s))
        case HasRead(batch) => batch == AlreadyRead(s) && r.froms[0] == Base(s) && Below(r.places, Base(s))
        case HasSent(batch) => batch == AlreadyRead(s) && Below(r.places, Base(s) + r.seen))
  }

  lemma EmbedMore<T>(sub: seq<T>, whole: seq<T>, places: seq<nat>, from: nat, batch: seq<T>)
    requires Embeds(sub, whole, places) && Below(places, from)
    requires from + |batch| <= |whole| && forall i :: 0 <= i < |batch| ==> whole[from + i] == batch[i]
    ensures Embeds(sub + batch, whole, places + Places(from, |batch|))
    ensures Below(places + Places(from, |batch|), from + |batch|)
  {
  }

  lemma NextOneDrainer<T>(s: State<T>, a: Action<T>)
    requires OneDrainer(s) && Enabled(s, a)
    requires Creates(s, a) ==> s.drainers == []
    ensures OneDrainer(Next(s, a))
  {
    NextLocated(s, a);
    match a
    case Look(p) =>
    case Put(p, items) => PutOneDrainer(s, p, items);
    case Read(d) => ReadOneDrainer(s, d);
    case Send(d) => SendOneDrainer(s, d);
    case Reset(d) =>
  }

  lemma PutOneDrainer<T>(s: State<T>, p: nat, items: seq<T>)
    requires OneDrainer(s) && Enabled(s, Put(p, items))
    requires !s.saw[p] ==> s.drainers == []
    requires Located(Next(s, Put(p, items)))
    ensures OneDrainer(Next(s, Put(p, items)))
  {
    var s' := Next(s, Put(p, items));
    assert s.saw[p] ==> AlreadyRead(s') == AlreadyRead(s) && Base(s') == Base(s);
    assert !s.saw[p] ==> Unread(s) == [];
    hide Located, AlreadyRead, Unread;
  }

  lemma ReadOneDrainer<T>(s: State<T>, d: nat)
    requires OneDrainer(s) && Enabled(s, Read(d))
    requires Located(Next(s, Read(d)))
    ensures OneDrainer(Next(s, Read(d)))
  {
    hide Located, Embeds, Places, Below;
    if Contents(s) != [] {
      FirstRead(s, d);
      hide NextRecord, Next;
    }
  }

  /** A read by the one drainer finds nothing already read. */
  lemma FirstRead<T>(s: State<T>, d: nat)
    requires OneDrainer(s) && Enabled(s, Read(d)) && Contents(s) != []
    ensures var s' := Next(s, Read(d));
      && s'.drainers == [HasRead(Contents(s))] && s'.record.froms == [Base(s)] && s'.record.again == []
      && AlreadyRead(s') == Contents(s) && Base(s') == Base(s)
      && s'.emitted == s.emitted && s'.record.history == s.record.history && s'.record.places == s.record.places
  {
    hide Embeds, Below, Located;
    LocatedTracked(s);
    assert AlreadyRead(s) == [];
    assert Places(Base(s), 0) == [];
  }

  lemma SendOneDrainer<T>(s: State<T>, d: nat)
    requires OneDrainer(s) && Enabled(s, Send(d))
    requires Located(Next(s, Send(d)))
    ensures OneDrainer(Next(s, Send(d)))
  {
    hide Located, Embeds, Below, NextRecord, Next, Places, AlreadyRead, Base, Contents;
    BatchPlaced(s);
    EmbedMore(s.emitted, s.record.history, s.record.places, Base(s), s.drainers[0].batch);
    FirstSend(s, d);
  }

  lemma BatchPlaced<T>(s: State<T>)
    requires OneDrainer(s) && s.drainers != [] && s.drainers[0].HasRead?
    ensures var batch := s.drainers[0].batch;
      && |batch| == s.record.seen && Base(s) + |batch| <= |s.record.history|
      && forall i :: 0 <= i < |batch| ==> s.record.history[Base(s) + i] == batch[i]
  {
    hide Embeds, Below, Taken;
  }

  lemma FirstSend<T>(s: State<T>, d: nat)
    requires OneDrainer(s) && Enabled(s, Send(d))
    ensures var s', batch := Next(s, Send(d)), s.drainers[0].batch;
      && s'.drainers == [HasSent(batch)] && s'.emitted == s.emitted + batch
      && s'.record == s.record.(places := s.record.places + Places(Base(s), |batch|))
      && s'.buffer == s.buffer && AlreadyRead(s') == batch && Base(s') == Base(s) && |batch| == s.record.seen
  {
    hide Embeds, Below, Located;
    LocatedTracked(s);
  }

  lemma LocatedTracked<T>(s: State<T>)
    requires Located(s)
    ensures Tracked(s)
  {
    hide Tracked;
  }

  /** At most one producer found the key missing, so one drainer was started. */
  ghost predicate SoleCreator<T>(states: seq<State<T>>, actions: seq<Action<T>>)
    requires |states| == |actions| + 1
  {
    forall i, j :: 0 <= i < j < |actions| ==> !(Creates(states[i], actions[i]) && Creates(states[j], actions[j]))
  }

  lemma {:induction false} Started<T>(states: seq<State<T>>, actions: seq<Action<T>>)
    requires Run(states, actions)
    ensures states[|actions|].drainers != [] ==> exists i :: 0 <= i < |actions| && Creates(states[i], actions[i])
    decreases |actions|
  {
    var n := |actions|;
    if n > 0 {
      RunEnd(states, actions);
      Started(states[..n], actions[..n - 1]);
      if states[n - 1].drainers != [] {
        var i :| 0 <= i < n - 1 && Creates(states[..n][i], actions[..n - 1][i]);
        assert Creates(states[i], actions[i]);
      } else if states[n].drainers != [] {
        assert Creates(states[n - 1], actions[n - 1]);
      }
    }
  }

  lemma SoleEnd<T>(states: seq<State<T>>, actions: seq<Action<T>>)
    requires Run(states, actions) && SoleCreator(states, actions) && actions != []
    ensures var n := |actions|;
      && SoleCreator(states[..n], actions[..n - 1])
      && (Creates(states[n - 1], actions[n - 1]) ==> states[n - 1].drainers == [])
  {
    hide Next, Enabled, Creates;
    var n := |actions|;
    var states0, actions0 := states[..n], actions[..n - 1];
    RunEnd(states, actions);
    if states[n - 1].drainers != [] {
      Started(states0, actions0);
      var i :| 0 <= i < n - 1 && Creates(states0[i], actions0[i]);
      assert !(Creates(states[i], actions[i]) && Creates(states[n - 1], actions[n - 1]));
    }
  }

  lemma {:induction false} RunOneDrainer<T>(states: seq<State<T>>, actions: seq<Action<T>>)
    requires Run(states, actions) && SoleCreator(states, actions)
    ensures OneDrainer(states[|actions|])
    decreases |actions|
  {
    var n := |actions|;
    if n > 0 {
      RunEnd(states, actions);
      SoleEnd(states, actions);
      hide *;
      RunOneDrainer(states[..n], actions[..n - 1]);
      NextOneDrainer(states[n - 1], actions[n - 1]);
    }
  }

  /** In every run with one drainer, nothing is read again, and what was emitted is, in order, a
      subsequence of what was appended, so nothing appended once is emitted twice. */
  lemma BatchLedger<T>(states: seq<State<T>>, actions: seq<Action<T>>)
    requires Run(states, actions) && SoleCreator(states, actions)
    ensures var s := states[|actions|];
      && NoneRepeats(states, actions)
      && Embeds(s.emitted, s.record.history, s.record.places)
      && (NoDup(s.record.history) ==> NoDup(s.emitted))
  {
    RunOneDrainer(states, actions);
    RecordExact(states, actions);
    var s := states[|actions|];
    var places := s.record.places;
    forall i, j | 0 <= i < j < |s.emitted|
      ensures s.emitted[i] == s.record.history[places[i]] && s.emitted[j] == s.record.history[places[j]]
        && places[i] < places[j] {}
  }

  lemma {:induction false} PlacesAtLeast(places: seq<nat>, i: nat)
    requires (forall i, j :: 0 <= i < j < |places| ==> places[i] < places[j]) && i < |places|
    ensures places[i] >= i
  {
    if i > 0 {
      PlacesAtLeast(places, i - 1);
      assert places[i - 1] < places[i];
    }
  }

  lemma {:induction false} PlacesAtMost(places: seq<nat>, i: nat, limit: nat)
    requires (forall i, j :: 0 <= i < j < |places| ==> places[i] < places[j]) && i < |places|
    requires Below(places, limit)
    ensures places[i] + |places| - i <= limit
    decreases |places| - i
  {
    if i + 1 < |places| {
      PlacesAtMost(places, i + 1, limit);
      assert places[i] < places[i + 1];
    }
  }

  lemma FullEmbedding<T>(sub: seq<T>, whole: seq<T>, places: seq<nat>)
    requires Embeds(sub, whole, places) && |sub| == |whole|
    ensures sub == whole && places == Places(0, |whole|)
  {
    forall i | 0 <= i < |sub| ensures places[i] == i {
      PlacesAtLeast(places, i);
      PlacesAtMost(places, i, |whole|);
    }
  }

  /** In ascending places that hold every number up to `x`, that number stands at `x` or later. */
  lemma {:induction false} ReachedAt(places: seq<nat>, x: nat) returns (i: nat)
    requires forall i, j :: 0 <= i < j < |places| ==> places[i] < places[j]
    requires forall y :: 0 <= y <= x ==> y in places
    ensures x <= i < |places| && places[i] == x
  {
    assert x in places;
    i :| 0 <= i < |places| && places[i] == x;
    if x > 0 {
      var j := ReachedAt(places, x - 1);
    }
  }

  lemma EveryPlace<T>(sub: seq<T>, whole: seq<T>, places: seq<nat>)
    requires Embeds(sub, whole, places) && forall x :: 0 <= x < |whole| ==> x in places
    ensures |sub| == |whole|
  {
    if |places| > 0 {
      PlacesAtMost(places, 0, |whole|);
    }
    if |whole| > 0 {
      var i := ReachedAt(places, |whole| - 1);
    }
  }

  /** With one drainer and an empty buffer, what was emitted is what was appended if and only if
      no reset found elements appended since the drainer's read. */
  lemma AllEmitted<T>(states: seq<State<T>>, actions: seq<Action<T>>)
    requires Run(states, actions) && SoleCreator(states, actions)
    requires Contents(states[|actions|]) == []
    ensures states[|actions|].emitted == states[|actions|].record.history <==> NoneLoses(states, actions)
  {
    var s := states[|actions|];
    var r := s.record;
    RunOneDrainer(states, actions);
    RecordExact(states, actions);
    forall x ensures In(x, 0, |r.history|) == Count(r.places, x) + Count(r.lost, x) {
      RunLedger(states, actions, x);
      EmptyBalance(s, x);
    }
    hide Run, SoleCreator, Count, Located, NoneLoses, Tracked;
    FullWhenKept(s.emitted, r.history, r.places, r.lost);
  }

  lemma FullWhenKept<T>(sub: seq<T>, whole: seq<T>, places: seq<nat>, lost: seq<nat>)
    requires Embeds(sub, whole, places)
    requires forall x :: In(x, 0, |whole|) == Count(places, x) + Count(lost, x)
    ensures sub == whole <==> lost == []
  {
    hide Count;
    CountEmpty(lost);
    if lost == [] {
      forall x | 0 <= x < |whole| ensures x in places { CountMember(places, x); }
      hide In;
      EveryPlace(sub, whole, places);
      FullEmbedding(sub, whole, places);
    }
    if sub == whole {
      FullEmbedding(sub, whole, places);
      forall x: nat ensures Count(lost, x) == 0 { CountPlaces(0, |whole|, x); }
    }
  }

  lemma EmptyBalance<T>(s: State<T>, x: nat)
    requires OneDrainer(s) && Contents(s) == [] && BalancedAt(s, x)
    ensures In(x, 0, |s.record.history|) == Count(s.record.places, x) + Count(s.record.lost, x)
  {
    EmptyHanded(s, x);
    CountEmpty(s.record.again);
    hide Count, Held, Located, Embeds;
  }

  lemma EmptyHanded<T>(s: State<T>, x: nat)
    requires OneDrainer(s) && Contents(s) == []
    ensures Held(s.drainers, s.record.froms, x) == 0 && Base(s) == |s.record.history|
  {
    if s.drainers != [] {
      assert s.drainers[..0] == [];
      assert s.drainers[|s.drainers| - 1] == s.drainers[0];
    }
  }

  // ---------- two creators ----------

  /** A run in which two producers both find the key missing. */
  function CreatorState<T>(a: T, b: T, i: nat): State<T> {
    match i
    case 0 => Start()
    case 1 => State(None, map[0 := false], [], [], Record([], [], [], 0, [], []))
    case 2 => State(None, map[0 := false, 1 := false], [], [], Record([], [], [], 0, [], []))
    case 3 => State(Some([a]), map[1 := false], [Idle], [], Record([a], [], [0], 0, [], []))
    case 4 => State(Some([b]), map[], [Idle, Idle], [], Record([a, b], [], [0, 0], 0, [0], []))
    case 5 => State(Some([b]), map[], [HasRead([b]), Idle], [], Record([a, b], [], [1, 0], 1, [0], []))
    case 6 => State(Some([b]), map[], [HasRead([b]), HasRead([b])], [], Record([a, b], [], [1, 1], 1, [0], [1]))
    case 7 => State(Some([b]), map[], [HasSent([b]), HasRead([b])], [b], Record([a, b], [1], [1, 1], 1, [0], [1]))
    case _ => State(Some([b]), map[], [HasSent([b]), HasSent([b])], [b, b], Record([a, b], [1, 1], [1, 1], 1, [0], [1]))
  }

  function CreatorAction<T>(a: T, b: T, i: nat): Action<T> {
    match i
    case 0 => Look(0)
    case 1 => Look(1)
    case 2 => Put(0, [a])
    case 3 => Put(1, [b])
    case 4 => Read(0)
    case 5 => Read(1)
    case 6 => Send(0)
    case _ => Send(1)
  }

  lemma CreatorStep<T>(a: T, b: T, i: nat)
    requires i < 4
    ensures Steps(CreatorState(a, b, i), CreatorAction(a, b, i), CreatorState(a, b, i + 1))
  {
  }

  lemma CreatorReads<T>(a: T, b: T, i: nat)
    requires 4 <= i < 8
    ensures Steps(CreatorState(a, b, i), CreatorAction(a, b, i), CreatorState(a, b, i + 1))
  {
    assert i >= 6 ==> Places(1, 1) == [1];
  }

  /** Two producers can both find the key missing: the lookup is not under the lock. Then the
      second overwrites the first one's element, which is never emitted, and two drainers run,
      which can both emit the other element. */
  lemma TwoCreators<T>(a: T, b: T) returns (states: seq<State<T>>, actions: seq<Action<T>>)
    ensures Run(states, actions) && !NoneLoses(states, actions) && !NoneRepeats(states, actions)
    ensures states[|actions|].record.history == [a, b] && states[|actions|].emitted == [b, b]
    ensures Unread(states[|actions|]) == []
  {
    states := seq(9, i requires 0 <= i < 9 => CreatorState(a, b, i));
    actions := seq(8, i requires 0 <= i < 8 => CreatorAction(a, b, i));
    forall i | 0 <= i < 8 ensures Steps(states[i], actions[i], states[i + 1]) {
      if i < 4 { CreatorStep(a, b, i); } else { CreatorReads(a, b, i); }
    }
    RunOfSteps(states, actions);
    assert Loses(states[3], actions[3]) && Repeats(states[5], actions[5]);
  }

  predicate Steps<T(==)>(s: State<T>, a: Action<T>, s': State<T>) {
    Enabled(s, a) && s' == Next(s, a)
  }

  lemma RunOfSteps<T>(states: seq<State<T>>, actions: seq<Action<T>>)
    requires |states| == |actions| + 1 && states[0] == Start()
    requires forall i :: 0 <= i < |actions| ==> Steps(states[i], actions[i], states[i + 1])
    ensures Run(states, actions)
  {
    forall i | 0 <= i < |actions| ensures Enabled(states[i], actions[i]) && states[i + 1] == Next(states[i], actions[i]) {
      assert Steps(states[i], actions[i], states[i + 1]);
    }
  }

  /** Even one drainer loses what is appended between its read and its reset. */
  lemma LateAppend<T>(a: T, b: T) returns (states: seq<State<T>>, actions: seq<Action<T>>)
    ensures Run(states, actions) && SoleCreator(states, actions) && !NoneLoses(states, actions)
    ensures states[|actions|].record.history == [a, b] && states[|actions|].emitted == [a]
    ensures Contents(states[|actions|]) == []
  {
    var s0: State<T> := Start();
    var s1 := State(None, map[0 := false], [], [], Record([], [], [], 0, [], []));
    var s2 := State(Some([a]), map[], [Idle], [], Record([a], [], [0], 0, [], []));
    var s3 := State(Some([a]), map[], [HasRead([a])], [], Record([a], [], [0], 1, [], []));
    var s4 := State(Some([a]), map[0 := true], [HasRead([a])], [], Record([a], [], [0], 1, [], []));
    var s5 := State(Some([a, b]), map[], [HasRead([a])], [], Record([a, b], [], [0], 1, [], []));
    var s6 := Next(s5, Send(0));
    var s7 := Next(s6, Reset(0));
    states := [s0, s1, s2, s3, s4, s5, s6, s7];
    actions := [Look(0), Put(0, [a]), Read(0), Look(0), Put(0, [b]), Send(0), Reset(0)];
    assert Steps(s0, Look(0), s1);
    assert Steps(s1, Put(0, [a]), s2) by { assert Unread(s1) == []; }
    assert Steps(s2, Read(0), s3) by { assert AlreadyRead(s2) == []; }
    assert Steps(s3, Look(0), s4);
    assert Steps(s4, Put(0, [b]), s5) by { assert [a] + [b] == [a, b]; }
    assert Steps(s5, Send(0), s6) && Steps(s6, Reset(0), s7);
    assert Loses(states[6], actions[6]);
    assert s7.emitted == [a];
    assert SoleCreator(states, actions) by {
      assert forall i :: 0 <= i < 7 && Creates(states[i], actions[i]) ==> i == 1;
    }
    hide Next, Enabled, Steps, Creates;
    assert forall i :: 0 <= i < 7 ==> Steps(states[i], actions[i], states[i + 1]);
    RunOfSteps(states, actions);
  }
}
