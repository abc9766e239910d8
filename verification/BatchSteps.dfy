/** What the steps of a batching run say by themselves: who finds the key missing, what is in the
    buffer, and what is emitted. In every run the state is what they say. */
module BatchSteps {
  import opened Options
  import opened Batching

  /** Everything the producers put, in order. */
  function Produced<T>(actions: seq<Action<T>>, n: nat): seq<T>
    requires n <= |actions|
  {
    if n == 0 then []
    else Produced(actions, n - 1) + if actions[n - 1].Put? then actions[n - 1].items else []
  }

  predicate PutBefore<T>(actions: seq<Action<T>>, n: nat)
    requires n <= |actions|
  {
    exists i :: 0 <= i < n && actions[i].Put?
  }

  /** What a producer found when it last looked the key up, if it has not put anything since: the
      key exists once somebody has put something. */
  function Found<T>(actions: seq<Action<T>>, n: nat, p: nat): Option<bool>
    requires n <= |actions|
  {
    if n == 0 then None
    else
      match actions[n - 1]
      case Look(q) => if q == p then Some(PutBefore(actions, n - 1)) else Found(actions, n - 1, p)
      case Put(q, _) => if q == p then None else Found(actions, n - 1, p)
      case _ => Found(actions, n - 1, p)
  }

  /** What was put since the last reset, or since the last creation by a producer that had found
      the key missing. */
  function Since<T>(actions: seq<Action<T>>, n: nat): seq<T>
    requires n <= |actions|
  {
    if n == 0 then []
    else
      match actions[n - 1]
      case Put(p, items) => if Found(actions, n - 1, p) == Some(false) then items else Since(actions, n - 1) + items
      case Reset(_) => []
      case _ => Since(actions, n - 1)
  }

  /** What a drainer found when it last read something. */
  function LastRead<T>(actions: seq<Action<T>>, n: nat, d: nat): seq<T>
    requires n <= |actions|
  {
    if n == 0 then []
    else if actions[n - 1] == Read(d) && Since(actions, n - 1) != [] then Since(actions, n - 1)
    else LastRead(actions, n - 1, d)
  }

  function Emitted<T>(actions: seq<Action<T>>, n: nat): seq<T>
    requires n <= |actions|
  {
    if n == 0 then []
    else if actions[n - 1].Send? then Emitted(actions, n - 1) + LastRead(actions, n - 1, actions[n - 1].drainer)
    else Emitted(actions, n - 1)
  }

  ghost predicate Told<T>(s: State<T>, actions: seq<Action<T>>, n: nat)
    requires n <= |actions|
  {
    && s.record.history == Produced(actions, n)
    && (s.buffer.Some? <==> PutBefore(actions, n))
    && (forall p :: (if p in s.saw then Some(s.saw[p]) else None) == Found(actions, n, p))
    && Contents(s) == Since(actions, n)
    && (forall d :: 0 <= d < |s.drainers| && s.drainers[d].HasRead? ==> s.drainers[d].batch == LastRead(actions, n, d))
    && s.emitted == Emitted(actions, n)
  }

  lemma PutBeforeNext<T>(actions: seq<Action<T>>, n: nat)
    requires n < |actions|
    ensures PutBefore(actions, n + 1) <==> PutBefore(actions, n) || actions[n].Put?
  {
  }

  lemma NothingPut<T>(s: State<T>)
    requires s.buffer == None
    ensures Contents(s) == []
  {
  }

  lemma HistoryNext<T>(s: State<T>, a: Action<T>)
    requires Enabled(s, a)
    ensures NextRecord(s, a).history == s.record.history + if a.Put? then a.items else []
  {
    hide Places;
  }

  lemma ToldNext<T>(s: State<T>, actions: seq<Action<T>>, n: nat)
    requires n < |actions| && Told(s, actions, n) && Tracked(s) && Enabled(s, actions[n])
    ensures Told(Next(s, actions[n]), actions, n + 1)
  {
    hide Told, Tracked, Next, Enabled;
    match actions[n]
    case Look(_) => LookTold(s, actions, n);
    case Put(_, _) => PutTold(s, actions, n);
    case Read(_) => ReadTold(s, actions, n);
    case Send(_) => SendTold(s, actions, n);
    case Reset(_) => ResetTold(s, actions, n);
  }

  lemma LookTold<T>(s: State<T>, actions: seq<Action<T>>, n: nat)
    requires n < |actions| && Told(s, actions, n) && Tracked(s) && Enabled(s, actions[n]) && actions[n].Look?
    ensures Told(Next(s, actions[n]), actions, n + 1)
  {
    PutBeforeNext(actions, n);
    hide PutBefore, Places, Tracked, NextRecord;
    HistoryNext(s, actions[n]);
  }

  lemma PutTold<T>(s: State<T>, actions: seq<Action<T>>, n: nat)
    requires n < |actions| && Told(s, actions, n) && Tracked(s) && Enabled(s, actions[n]) && actions[n].Put?
    ensures Told(Next(s, actions[n]), actions, n + 1)
  {
    PutBeforeNext(actions, n);
    hide PutBefore, Places, Tracked, NextRecord;
    assert Found(actions, n, actions[n].producer) == Some(s.saw[actions[n].producer]);
    HistoryNext(s, actions[n]);
  }

  lemma ReadTold<T>(s: State<T>, actions: seq<Action<T>>, n: nat)
    requires n < |actions| && Told(s, actions, n) && Tracked(s) && Enabled(s, actions[n]) && actions[n].Read?
    ensures Told(Next(s, actions[n]), actions, n + 1)
  {
    PutBeforeNext(actions, n);
    hide PutBefore, Places, Tracked, NextRecord;
    HistoryNext(s, actions[n]);
  }

  lemma SendTold<T>(s: State<T>, actions: seq<Action<T>>, n: nat)
    requires n < |actions| && Told(s, actions, n) && Tracked(s) && Enabled(s, actions[n]) && actions[n].Send?
    ensures Told(Next(s, actions[n]), actions, n + 1)
  {
    PutBeforeNext(actions, n);
    hide PutBefore, Places, Tracked, NextRecord;
    HistoryNext(s, actions[n]);
  }

  lemma ResetTold<T>(s: State<T>, actions: seq<Action<T>>, n: nat)
    requires n < |actions| && Told(s, actions, n) && Tracked(s) && Enabled(s, actions[n]) && actions[n].Reset?
    ensures Told(Next(s, actions[n]), actions, n + 1)
  {
    PutBeforeNext(actions, n);
    assert s.drainers != [] && s.buffer.Some?;
    hide PutBefore, Places, Tracked, NextRecord;
    HistoryNext(s, actions[n]);
  }

  /** In every run: the history, what each producer found, the buffer, each drainer's batch and
      what was emitted are what the steps say. */
  lemma {:induction false} RunTold<T>(states: seq<State<T>>, actions: seq<Action<T>>, n: nat)
    requires Run(states, actions) && n <= |actions|
    ensures Told(states[n], actions, n) && Tracked(states[n])
    decreases n
  {
    hide Told, Tracked, Next, Enabled;
    if n == 0 {
      StartTold(actions);
    } else {
      RunTold(states, actions, n - 1);
      assert states[n] == states[n - 1 + 1];
      ToldNext(states[n - 1], actions, n - 1);
      NextTracked(states[n - 1], actions[n - 1]);
    }
  }

  lemma StartTold<T>(actions: seq<Action<T>>)
    ensures Told(Start(), actions, 0) && Tracked(Start<T>())
  {
  }

  /** A put starts a drainer if and only if its producer had found the key missing. */
  lemma DrainerStarted<T>(states: seq<State<T>>, actions: seq<Action<T>>, i: nat)
    requires Run(states, actions) && i < |actions|
    ensures |states[i + 1].drainers| == |states[i].drainers| +
      if actions[i].Put? && Found(actions, i, actions[i].producer) == Some(false) then 1 else 0
  {
    RunTold(states, actions, i);
    assert Enabled(states[i], actions[i]) && states[i + 1] == Next(states[i], actions[i]);
  }

  /** A drainer that waits can always make its round: if the buffer has elements, its read, send
      and reset emit exactly these and leave the buffer empty; else the read changes nothing. */
  lemma Round<T>(s: State<T>, d: nat)
    requires d < |s.drainers| && s.drainers[d] == Idle
    ensures Enabled(s, Read(d))
    ensures var s1 := Next(s, Read(d));
      if Contents(s) == [] then s1 == s
      else
        && Enabled(s1, Send(d)) && Enabled(Next(s1, Send(d)), Reset(d))
        && var s3 := Next(Next(s1, Send(d)), Reset(d));
           s3.emitted == s.emitted + Contents(s) && s3.buffer == Some([]) && s3.drainers == s.drainers && s3.saw == s.saw
  {
    hide NextRecord;
    if Contents(s) == [] {
      SameRecord(s, d);
    } else {
      assert s.drainers[d := HasRead(Contents(s))][d := HasSent(Contents(s))][d := Idle] == s.drainers;
    }
  }

  lemma SameRecord<T>(s: State<T>, d: nat)
    requires Enabled(s, Read(d)) && Contents(s) == []
    ensures NextRecord(s, Read(d)) == s.record
  {
  }
}
