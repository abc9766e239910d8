/** The 100ms ticker: the drainer clears the dirty mark first and reads the book afterwards. */
module TickerFlag {
  datatype Drainer = Idle | Noticed | Cleared | Holding(snapshot: nat)

  /** The book's version counts the saves. `saved` holds the saves not yet marked; `marked` is
      the newest save whose mark was set. */
  datatype State = State(version: nat, saved: map<nat, nat>, dirty: bool, marked: nat,
                         drainers: seq<Drainer>, published: seq<nat>)

  const START := State(0, map[], false, 0, [], [])

  datatype Action =
    | Save(producer: nat)
    | Mark(producer: nat)
    | StartDrainer
    | Notice(drainer: nat)
    | Clear(drainer: nat)
    | ReadBook(drainer: nat)
    | Publish(drainer: nat)

  predicate Enabled(s: State, a: Action) {
    match a
    case Save(p) => p !in s.saved
    case Mark(p) => p in s.saved
    case StartDrainer => true
    case Notice(d) => d < |s.drainers| && s.drainers[d] == Idle && s.dirty
    case Clear(d) => d < |s.drainers| && s.drainers[d] == Noticed
    case ReadBook(d) => d < |s.drainers| && s.drainers[d] == Cleared
    case Publish(d) => d < |s.drainers| && s.drainers[d].Holding?
  }

  function Next(s: State, a: Action): State
    requires Enabled(s, a)
  {
    match a
    case Save(p) => s.(version := s.version + 1, saved := s.saved[p := s.version + 1])
    case Mark(p) =>
      s.(dirty := true, saved := s.saved - {p}, marked := if s.saved[p] > s.marked then s.saved[p] else s.marked)
    case StartDrainer => s.(drainers := s.drainers + [Idle])
    case Notice(d) => s.(drainers := s.drainers[d := Noticed])
    case Clear(d) => s.(dirty := false, drainers := s.drainers[d := Cleared])
    case ReadBook(d) => s.(drainers := s.drainers[d := Holding(s.version)])
    case Publish(d) =>
      s.(published := s.published + [s.drainers[d].snapshot], drainers := s.drainers[d := Idle])
  }

  /** Every marked save is on its way out: the mark is still set, or a drainer has cleared it
      and not read yet, or a drainer holds a snapshot that new, or one was published. */
  ghost predicate Covered(s: State) {
    || s.marked == 0
    || s.dirty
    || (exists d :: 0 <= d < |s.drainers| && s.drainers[d] == Cleared)
    || (exists d :: 0 <= d < |s.drainers| && s.drainers[d].Holding? && s.drainers[d].snapshot >= s.marked)
    || (exists i :: 0 <= i < |s.published| && s.published[i] >= s.marked)
  }

  ghost predicate Inv(s: State) {
    && s.marked <= s.version
    && (forall p :: p in s.saved ==> s.saved[p] <= s.version)
    && Covered(s)
  }

  lemma NextInv(s: State, a: Action)
    requires Inv(s) && Enabled(s, a)
    ensures Inv(Next(s, a))
  {
    var s' := Next(s, a);
    match a
    case Save(p) => KeepsCover(s, s');
    case Mark(p) =>
    case StartDrainer => KeepsCover(s, s');
    case Notice(d) =>
    case Clear(d) => assert s'.drainers[d] == Cleared;
    case ReadBook(d) => assert s'.drainers[d].Holding? && s'.drainers[d].snapshot >= s'.marked;
    case Publish(d) => PublishCovers(s, d);
  }

  lemma KeepsCover(s: State, s': State)
    requires Covered(s) && s'.marked == s.marked && s'.dirty == s.dirty && s'.published == s.published
    requires |s.drainers| <= |s'.drainers| && s'.drainers[..|s.drainers|] == s.drainers
    ensures Covered(s')
  {
    assert forall d :: 0 <= d < |s.drainers| ==> s'.drainers[d] == s.drainers[d] by {
      forall d | 0 <= d < |s.drainers| ensures s'.drainers[d] == s.drainers[d] {
        assert s'.drainers[..|s.drainers|][d] == s'.drainers[d];
      }
    }
  }

  lemma PublishCovers(s: State, d: nat)
    requires Covered(s) && d < |s.drainers| && s.drainers[d].Holding?
    ensures Covered(Next(s, Publish(d)))
  {
    var s' := Next(s, Publish(d));
    assert s'.published[|s.published|] == s.drainers[d].snapshot;
    assert forall i :: 0 <= i < |s.published| ==> s'.published[i] == s.published[i];
    assert forall e :: 0 <= e < |s.drainers| && e != d ==> s'.drainers[e] == s.drainers[e];
  }

  ghost predicate Run(states: seq<State>, actions: seq<Action>) {
    && |states| == |actions| + 1 && states[0] == START
    && forall i :: 0 <= i < |actions| ==> Enabled(states[i], actions[i]) && states[i + 1] == Next(states[i], actions[i])
  }

  /** In every interleaving of any number of producers and drainers: whenever the mark is
      clear and every drainer is waiting for it, some published snapshot reflects every
      marked save. */
  lemma {:induction false} NoMarkedSaveForgotten(states: seq<State>, actions: seq<Action>)
    requires Run(states, actions)
    ensures Inv(states[|actions|])
    ensures var s := states[|actions|];
      s.marked > 0 && !s.dirty && (forall d :: 0 <= d < |s.drainers| ==> s.drainers[d] == Idle) ==>
      exists i :: 0 <= i < |s.published| && s.published[i] >= s.marked
    decreases |actions|
  {
    var n := |actions|;
    if n > 0 {
      assert Run(states[..n], actions[..n - 1]);
      NoMarkedSaveForgotten(states[..n], actions[..n - 1]);
      assert states[..n][n - 1] == states[n - 1];
      NextInv(states[n - 1], actions[n - 1]);
    }
  }

  ghost predicate Ascending(s: State) {
    && |s.drainers| <= 1
    && (forall i, j :: 0 <= i < j < |s.published| ==> s.published[i] <= s.published[j])
    && (forall i :: 0 <= i < |s.published| ==> s.published[i] <= s.version)
    && (s.drainers != [] && s.drainers[0].Holding? ==>
        s.drainers[0].snapshot <= s.version &&
        forall i :: 0 <= i < |s.published| ==> s.published[i] <= s.drainers[0].snapshot)
  }

  lemma {:induction false} OneDrainerAscending(states: seq<State>, actions: seq<Action>)
    requires Run(states, actions) && |states[|actions|].drainers| <= 1
    ensures Ascending(states[|actions|])
    decreases |actions|
  {
    var n := |actions|;
    if n > 0 {
      assert Run(states[..n], actions[..n - 1]);
      assert states[..n][n - 1] == states[n - 1];
      OneDrainerAscending(states[..n], actions[..n - 1]);
    }
  }

  /** With one drainer the published snapshots only get newer, so it is the last one that
      reflects every marked save. */
  lemma LastSnapshotCurrent(states: seq<State>, actions: seq<Action>)
    requires Run(states, actions) && |states[|actions|].drainers| <= 1
    ensures var s := states[|actions|];
      s.marked > 0 && !s.dirty && (forall d :: 0 <= d < |s.drainers| ==> s.drainers[d] == Idle) ==>
      s.published != [] && s.published[|s.published| - 1] >= s.marked
  {
    NoMarkedSaveForgotten(states, actions);
    OneDrainerAscending(states, actions);
  }

  // ---------- told from the steps ----------

  /** How many saves there were. */
  function Saves(actions: seq<Action>, n: nat): nat
    requires n <= |actions|
  {
    if n == 0 then 0 else Saves(actions, n - 1) + if actions[n - 1].Save? then 1 else 0
  }

  /** The number of a producer's last save. */
  function LastSave(actions: seq<Action>, n: nat, p: nat): nat
    requires n <= |actions|
  {
    if n == 0 then 0
    else if actions[n - 1] == Save(p) then Saves(actions, n)
    else LastSave(actions, n - 1, p)
  }

  /** How many saves there were when a drainer last read the book. */
  function SavesRead(actions: seq<Action>, n: nat, d: nat): nat
    requires n <= |actions|
  {
    if n == 0 then 0
    else if actions[n - 1] == ReadBook(d) then Saves(actions, n)
    else SavesRead(actions, n - 1, d)
  }

  /** For each publication, how many saves its snapshot reflects. */
  function Reflected(actions: seq<Action>, n: nat): seq<nat>
    requires n <= |actions|
  {
    if n == 0 then []
    else if actions[n - 1].Publish? then Reflected(actions, n - 1) + [SavesRead(actions, n - 1, actions[n - 1].drainer)]
    else Reflected(actions, n - 1)
  }

  /** The mark is set, and no drainer has cleared it since. */
  predicate Dirty(actions: seq<Action>, n: nat)
    requires n <= |actions|
  {
    n > 0 && (actions[n - 1].Mark? || (!actions[n - 1].Clear? && Dirty(actions, n - 1)))
  }

  ghost predicate Told(s: State, actions: seq<Action>, n: nat)
    requires n <= |actions|
  {
    && s.version == Saves(actions, n)
    && (forall p :: p in s.saved ==> s.saved[p] == LastSave(actions, n, p))
    && (s.dirty <==> Dirty(actions, n))
    && (forall d :: 0 <= d < |s.drainers| && s.drainers[d].Holding? ==> s.drainers[d].snapshot == SavesRead(actions, n, d))
    && s.published == Reflected(actions, n)
  }

  lemma ToldNext(s: State, actions: seq<Action>, n: nat)
    requires n < |actions| && Told(s, actions, n) && Enabled(s, actions[n])
    ensures Told(Next(s, actions[n]), actions, n + 1)
  {
  }

  lemma {:induction false} RunTold(states: seq<State>, actions: seq<Action>, n: nat)
    requires Run(states, actions) && n <= |actions|
    ensures Told(states[n], actions, n)
    decreases n
  {
    hide Told, Next, Enabled;
    if n == 0 {
      StartTold(actions);
    } else {
      RunTold(states, actions, n - 1);
      assert states[n] == states[n - 1 + 1];
      ToldNext(states[n - 1], actions, n - 1);
    }
  }

  lemma StartTold(actions: seq<Action>)
    ensures Told(START, actions, 0)
  {
  }

  lemma {:induction false} MarkedStays(states: seq<State>, actions: seq<Action>, j: nat, n: nat)
    requires Run(states, actions) && j < n <= |actions| && actions[j].Mark?
    ensures states[n].marked >= LastSave(actions, j, actions[j].producer)
    decreases n
  {
    RunTold(states, actions, j);
    assert states[n] == Next(states[n - 1], actions[n - 1]) && Enabled(states[n - 1], actions[n - 1]) by {
      assert states[n] == states[n - 1 + 1];
    }
    if j < n - 1 {
      MarkedStays(states, actions, j, n - 1);
    }
  }

  ghost predicate Reaches(snapshots: seq<nat>, save: nat) {
    exists i :: 0 <= i < |snapshots| && snapshots[i] >= save
  }

  /** Told from the steps alone: once a save was marked, and whenever the mark is clear and every
      drainer waits for it, some publication reflects that save and all before it. */
  lemma MarkedSaveReflected(states: seq<State>, actions: seq<Action>, j: nat)
    requires Run(states, actions) && j < |actions| && actions[j].Mark?
    requires !Dirty(actions, |actions|) && forall d :: 0 <= d < |states[|actions|].drainers| ==> states[|actions|].drainers[d] == Idle
    ensures LastSave(actions, j, actions[j].producer) >= 1
    ensures Reaches(Reflected(actions, |actions|), LastSave(actions, j, actions[j].producer))
  {
    var n := |actions|;
    RunTold(states, actions, j);
    RunTold(states, actions, n);
    assert Enabled(states[j], actions[j]);
    SavedPositive(states, actions, j);
    MarkedStays(states, actions, j, n);
    NoMarkedSaveForgotten(states, actions);
    var i :| 0 <= i < |states[n].published| && states[n].published[i] >= states[n].marked;
    assert Reflected(actions, n) == states[n].published;
  }

  lemma {:induction false} SavedPositive(states: seq<State>, actions: seq<Action>, n: nat)
    requires Run(states, actions) && n <= |actions|
    ensures forall p :: p in states[n].saved ==> states[n].saved[p] >= 1
    decreases n
  {
    if n > 0 {
      SavedPositive(states, actions, n - 1);
      assert states[n] == states[n - 1 + 1];
      assert Enabled(states[n - 1], actions[n - 1]);
    }
  }

  /** A waiting drainer that finds the mark can always make its round: it publishes the book as it
      is, and the mark is clear. */
  lemma Round(s: State, d: nat)
    requires d < |s.drainers| && s.drainers[d] == Idle && s.dirty
    ensures Enabled(s, Notice(d))
    ensures var s1 := Next(s, Notice(d));
      && Enabled(s1, Clear(d)) && Enabled(Next(s1, Clear(d)), ReadBook(d))
      && var s3 := Next(Next(s1, Clear(d)), ReadBook(d));
      && Enabled(s3, Publish(d)) && Next(s3, Publish(d)) == s.(dirty := false, published := s.published + [s.version])
  {
    assert s.drainers[d := Noticed][d := Cleared][d := Holding(s.version)][d := Idle] == s.drainers;
  }
}
