/** The registry of pending requests: a request is registered under a key, may be moved to
    the key of its user, and is answered by the one send that finds it. One call is one step. */
module Registry {
  import opened Naming
  import opened Options

  datatype Protocol = Websocket | HTTP | GRPC | Channel
  datatype Request = Request(protocol: Protocol, connection: nat, method_: string)

  /** What is stored under a key: a registration, named by its serial number, or the empty
      record that moving an absent key leaves behind. */
  datatype Entry = Registered(serial: nat, request: Request) | Empty

  datatype Response = Response(serial: nat, connection: nat, id: nat)

  /** What became of a registration. `Silent` is a send over a protocol with no response;
      `Dropped` a move of a key onto itself, which deletes it. */
  datatype Fate = Pending(key: string) | Answered | Silent | Overwritten | Unregistered | Dropped

  datatype State = State(conns: map<string, Entry>, requests: seq<Request>, fates: seq<Fate>,
                         responses: seq<Response>, crashed: bool)

  const START := State(map[], [], [], [], false)

  datatype Action =
    | Register(key: string, request: Request)
    | Upgrade(oldKey: string, newKey: string)
    | Unregister(key: string)
    | Send(key: string)

  /** The entry under a key loses its registration, with the given fate. */
  function Lose(s: State, key: string, fate: Fate): seq<Fate> {
    if key in s.conns && s.conns[key].Registered? && s.conns[key].serial < |s.fates|
    then s.fates[s.conns[key].serial := fate] else s.fates
  }

  function Next(s: State, a: Action): State {
    match a
    case Register(key, request) =>
      s.(conns := s.conns[key := Registered(|s.requests|, request)],
         requests := s.requests + [request],
         fates := Lose(s, key, Overwritten) + [Pending(key)])
    case Upgrade(oldKey, newKey) =>
      var entry := if oldKey in s.conns then s.conns[oldKey] else Empty;
      if oldKey == newKey then s.(conns := s.conns - {oldKey}, fates := Lose(s, oldKey, Dropped))
      else
        var s1 := s.(fates := Lose(s, newKey, Overwritten));
        s.(conns := s.conns[newKey := entry] - {oldKey}, fates := Lose(s1, oldKey, Pending(newKey)))
    case Unregister(key) => s.(conns := s.conns - {key}, fates := Lose(s, key, Unregistered))
    case Send(key) =>
      if key !in s.conns then s
      else
        match s.conns[key]
        case Empty => s.(crashed := true)  // a websocket response with no websocket
        case Registered(serial, request) =>
          var s1 := s.(conns := s.conns - {key});
          if request.protocol == GRPC then s1.(fates := Lose(s, key, Silent))
          else s1.(fates := Lose(s, key, Answered),
                   responses := s.responses + [Response(serial, request.connection, GetIdUserIDFromKey(key).0)])
  }

  // ---------- the calls ----------

  class Protocols {
    var conns: map<string, Entry>
    ghost var requests: seq<Request>
    ghost var fates: seq<Fate>
    var serials: nat
    var responses: seq<Response>
    var crashed: bool

    ghost predicate Valid()
      reads this
    {
      serials == |requests|
    }

    ghost function Model(): State
      reads this
    {
      State(conns, requests, fates, responses, crashed)
    }

    constructor ()
      ensures Valid() && Model() == START
    {
      conns, serials, responses, crashed := map[], 0, [], false;
      requests, fates := [], [];
    }

    method RegisterProtocolRequest(key: string, request: Request) returns (duplicate: bool)
      requires Valid()
      modifies this
      ensures Valid() && Model() == Next(old(Model()), Register(key, request))
      ensures duplicate == (key in old(conns))
    {
      duplicate := key in conns;
      ghost var was := Model();
      fates := Lose(was, key, Overwritten) + [Pending(key)];
      requests := requests + [request];
      conns := conns[key := Registered(serials, request)];
      serials := serials + 1;
    }

    method UpgradeProtocol(oldKey: string, newKey: string) returns (duplicate: bool)
      requires Valid()
      modifies this
      ensures Valid() && Model() == Next(old(Model()), Upgrade(oldKey, newKey))
      ensures duplicate == (newKey in old(conns))
    {
      ghost var was := Model();
      var conn := if oldKey in conns then conns[oldKey] else Empty;
      duplicate := newKey in conns;
      conns := conns[newKey := conn];
      conns := conns - {oldKey};
      fates := Next(was, Upgrade(oldKey, newKey)).fates;
      assert oldKey == newKey ==> conns == was.conns - {oldKey};
    }

    method UnregisterProtocol(key: string)
      requires Valid()
      modifies this
      ensures Valid() && Model() == Next(old(Model()), Unregister(key))
    {
      fates := Lose(Model(), key, Unregistered);
      conns := conns - {key};
    }

    method DoSend(key: string) returns (found: bool)
      requires Valid()
      modifies this
      ensures Valid() && Model() == Next(old(Model()), Send(key))
      ensures found == (key in old(conns))
    {
      ghost var was := Model();
      if key !in conns { return false; }
      match conns[key] {
        case Empty =>
          crashed := true;
        case Registered(serial, request) =>
          var (id, _) := GetIdUserIDFromKey(key);
          match request.protocol {
            case GRPC =>
            case _ => responses := responses + [Response(serial, request.connection, id)];
          }
          fates := Next(was, Send(key)).fates;
          conns := conns - {key};
      }
      return true;
    }

    /** How a request enters: registered under its id alone, then, once its user is known,
        moved to the key of id and user. `user` is `None` without an access token and
        `Some(None)` when the token is refused. */
    method RequestHelper(id: nat, request: Request, user: Option<Option<string>>)
      returns (connKey: string, duplicate: bool)
      requires Valid() && id < UINT64_LIMIT
      modifies this
      ensures Valid()
      ensures var key := GetKeyFromIdUserID(id, "");
        var s1 := Next(old(Model()), Register(key, request));
        if key in old(conns) then duplicate && connKey == "" && Model() == s1
        else if user == None || user.value == None then !duplicate && connKey == key && Model() == s1
        else
          var newKey := GetKeyFromIdUserID(id, user.value.value);
          && connKey == newKey
          && duplicate == (newKey in s1.conns)
          && Model() == Next(s1, Upgrade(key, newKey))
    {
      connKey := "";
      var key := GetKeyFromIdUserID(id, "");
      duplicate := RegisterProtocolRequest(key, request);
      if duplicate { return; }
      connKey := key;
      if user == None { return; }
      if user.value == None { return; }
      connKey := GetKeyFromIdUserID(id, user.value.value);
      duplicate := UpgradeProtocol(key, connKey);
    }
  }

  // ---------- the ledger ----------

  /** Each entry is pending under its own key, and each pending registration has its entry. */
  ghost predicate Keyed(conns: map<string, Entry>, requests: seq<Request>, fates: seq<Fate>) {
    && |fates| == |requests|
    && (forall k :: k in conns && conns[k].Registered? ==>
        conns[k].serial < |requests| && conns[k].request == requests[conns[k].serial]
        && fates[conns[k].serial] == Pending(k))
    && (forall t :: 0 <= t < |fates| && fates[t].Pending? ==>
        fates[t].key in conns && conns[fates[t].key] == Registered(t, requests[t]))
  }

  /** The answered registrations are those with a response, one each, to their own connection. */
  ghost predicate Replied(requests: seq<Request>, fates: seq<Fate>, responses: seq<Response>) {
    && |fates| == |requests|
    && (forall i :: 0 <= i < |responses| ==>
        var r := responses[i];
        r.serial < |requests| && fates[r.serial] == Answered && r.connection == requests[r.serial].connection)
    && (forall t :: 0 <= t < |fates| && fates[t] == Answered ==> exists i :: 0 <= i < |responses| && responses[i].serial == t)
    && (forall i, j :: 0 <= i < j < |responses| ==> responses[i].serial != responses[j].serial)
  }

  ghost predicate Matched(s: State) {
    Keyed(s.conns, s.requests, s.fates) && Replied(s.requests, s.fates, s.responses)
  }

  lemma NextMatched(s: State, a: Action)
    requires Matched(s)
    ensures Matched(Next(s, a))
  {
    match a
    case Register(key, request) => RegisterMatched(s, key, request);
    case Upgrade(oldKey, newKey) => UpgradeMatched(s, oldKey, newKey);
    case Unregister(key) => LoseMatched(s, key, Unregistered);
    case Send(key) =>
      if key in s.conns && s.conns[key].Registered? {
        if s.conns[key].request.protocol == GRPC {
          LoseMatched(s, key, Silent);
        } else {
          SendMatched(s, key);
        }
      }
  }

  lemma RepliedKept(s: State, fates: seq<Fate>)
    requires Matched(s) && |fates| == |s.fates|
    requires forall t :: 0 <= t < |fates| ==> (fates[t] == Answered <==> s.fates[t] == Answered)
    ensures Replied(s.requests, fates, s.responses)
  {
  }

  lemma LoseMatched(s: State, key: string, fate: Fate)
    requires Matched(s) && !fate.Pending? && fate != Answered
    ensures Matched(s.(conns := s.conns - {key}, fates := Lose(s, key, fate)))
  {
    RepliedKept(s, Lose(s, key, fate));
  }

  lemma RegisterMatched(s: State, key: string, request: Request)
    requires Matched(s)
    ensures Matched(Next(s, Register(key, request)))
  {
    LoseMatched(s, key, Overwritten);
    AppendMatched(s.(conns := s.conns - {key}, fates := Lose(s, key, Overwritten)), key, request);
    assert (s.conns - {key})[key := Registered(|s.requests|, request)] == s.conns[key := Registered(|s.requests|, request)];
  }

  lemma AppendMatched(s: State, key: string, request: Request)
    requires Matched(s) && key !in s.conns
    ensures Matched(s.(conns := s.conns[key := Registered(|s.requests|, request)],
                       requests := s.requests + [request], fates := s.fates + [Pending(key)]))
  {
    var conns, fates := s.conns[key := Registered(|s.requests|, request)], s.fates + [Pending(key)];
    var requests := s.requests + [request];
    assert forall k :: k in conns && k != key ==> k in s.conns && s.conns[k] == conns[k];
    assert Keyed(conns, requests, fates);
    assert Replied(requests, fates, s.responses);
  }

  lemma MoveMatched(s: State, oldKey: string, newKey: string)
    requires Matched(s) && oldKey != newKey && newKey !in s.conns
    ensures var entry := if oldKey in s.conns then s.conns[oldKey] else Empty;
      Matched(s.(conns := s.conns[newKey := entry] - {oldKey}, fates := Lose(s, oldKey, Pending(newKey))))
  {
    var entry := if oldKey in s.conns then s.conns[oldKey] else Empty;
    var conns := s.conns[newKey := entry] - {oldKey};
    assert forall k :: k in conns && k != newKey ==> k in s.conns && s.conns[k] == conns[k];
    RepliedKept(s, Lose(s, oldKey, Pending(newKey)));
  }

  lemma UpgradeMatched(s: State, oldKey: string, newKey: string)
    requires Matched(s)
    ensures Matched(Next(s, Upgrade(oldKey, newKey)))
  {
    if oldKey == newKey {
      LoseMatched(s, oldKey, Dropped);
    } else {
      var s0 := s.(conns := s.conns - {newKey}, fates := Lose(s, newKey, Overwritten));
      LoseMatched(s, newKey, Overwritten);
      MoveMatched(s0, oldKey, newKey);
      var entry := if oldKey in s.conns then s.conns[oldKey] else Empty;
      assert s0.conns[newKey := entry] - {oldKey} == s.conns[newKey := entry] - {oldKey};
      assert Lose(s.(fates := s0.fates), oldKey, Pending(newKey)) == Lose(s0, oldKey, Pending(newKey));
    }
  }

  lemma SendMatched(s: State, key: string)
    requires Matched(s) && key in s.conns && s.conns[key].Registered? && s.conns[key].request.protocol != GRPC
    ensures Matched(Next(s, Send(key)))
  {
    var serial := s.conns[key].serial;
    var fates := Lose(s, key, Answered);
    assert fates == s.fates[serial := Answered];
    assert Keyed(s.conns - {key}, s.requests, fates);
    SendReplied(s, serial, Response(serial, s.conns[key].request.connection, GetIdUserIDFromKey(key).0));
  }

  lemma SendReplied(s: State, serial: nat, r: Response)
    requires Replied(s.requests, s.fates, s.responses)
    requires serial < |s.requests| && s.fates[serial] != Answered
    requires r.serial == serial && r.connection == s.requests[serial].connection
    ensures Replied(s.requests, s.fates[serial := Answered], s.responses + [r])
  {
    var fates, responses := s.fates[serial := Answered], s.responses + [r];
    assert responses[|s.responses|] == r;
    assert forall i :: 0 <= i < |s.responses| ==> responses[i] == s.responses[i] && responses[i].serial != serial;
    forall t | 0 <= t < |fates| && fates[t] == Answered
      ensures exists i :: 0 <= i < |responses| && responses[i].serial == t
    {
      if t != serial {
        var i :| 0 <= i < |s.responses| && s.responses[i].serial == t;
        assert responses[i].serial == t;
      }
    }
  }

  // ---------- counting ----------

  datatype Kind = IsPending | IsAnswered | IsSilent | IsOverwritten | IsUnregistered | IsDropped

  function KindOf(f: Fate): Kind {
    match f
    case Pending(_) => IsPending
    case Answered => IsAnswered
    case Silent => IsSilent
    case Overwritten => IsOverwritten
    case Unregistered => IsUnregistered
    case Dropped => IsDropped
  }

  /** The serials with a fate of one kind, below `n`. */
  ghost function OfKind(fates: seq<Fate>, kind: Kind): set<int> {
    set t | 0 <= t < |fates| && KindOf(fates[t]) == kind
  }

  lemma {:induction false} KindsPartition(fates: seq<Fate>)
    ensures |fates| == |OfKind(fates, IsPending)| + |OfKind(fates, IsAnswered)| + |OfKind(fates, IsSilent)|
      + |OfKind(fates, IsOverwritten)| + |OfKind(fates, IsUnregistered)| + |OfKind(fates, IsDropped)|
  {
    if fates != [] {
      var init := fates[..|fates| - 1];
      KindsPartition(init);
      OneMoreOfKind(fates, IsPending);
      OneMoreOfKind(fates, IsAnswered);
      OneMoreOfKind(fates, IsSilent);
      OneMoreOfKind(fates, IsOverwritten);
      OneMoreOfKind(fates, IsUnregistered);
      OneMoreOfKind(fates, IsDropped);
    }
  }

  lemma OneMoreOfKind(fates: seq<Fate>, kind: Kind)
    requires fates != []
    ensures var n := |fates| - 1;
      |OfKind(fates, kind)| == |OfKind(fates[..n], kind)| + if KindOf(fates[n]) == kind then 1 else 0
  {
    var n := |fates| - 1;
    assert forall t :: 0 <= t < n ==> fates[..n][t] == fates[t];
    assert OfKind(fates, kind) == OfKind(fates[..n], kind) + if KindOf(fates[n]) == kind then {n} else {};
  }

  function Serials(responses: seq<Response>): set<int> {
    set r | r in responses :: r.serial
  }

  lemma {:induction false} SerialsSize(responses: seq<Response>)
    requires forall i, j :: 0 <= i < j < |responses| ==> responses[i].serial != responses[j].serial
    ensures |Serials(responses)| == |responses|
  {
    if responses != [] {
      var init, last := responses[..|responses| - 1], responses[|responses| - 1];
      assert responses == init + [last];
      SerialsSize(init);
      forall r | r in init ensures r.serial != last.serial {
        var i :| 0 <= i < |init| && init[i] == r;
        assert responses[i].serial != responses[|responses| - 1].serial;
      }
      assert Serials(responses) == Serials(init) + {last.serial};
    }
  }

  // ---------- runs ----------

  ghost predicate Run(states: seq<State>, actions: seq<Action>) {
    && |states| == |actions| + 1 && states[0] == START
    && forall i :: 0 <= i < |actions| ==> !states[i].crashed && states[i + 1] == Next(states[i], actions[i])
  }

  lemma {:induction false} RunMatched(states: seq<State>, actions: seq<Action>)
    requires Run(states, actions)
    ensures Matched(states[|actions|])
    decreases |actions|
  {
    var n := |actions|;
    if n > 0 {
      assert Run(states[..n], actions[..n - 1]);
      RunMatched(states[..n], actions[..n - 1]);
      assert states[..n][n - 1] == states[n - 1];
      NextMatched(states[n - 1], actions[n - 1]);
    }
  }

  /** In every run: the registrations are exactly the responses sent plus those pending,
      silent, overwritten, unregistered and dropped; no registration is answered twice; and
      every response goes to the connection that made the registration it answers. */
  lemma ResponseLedger(states: seq<State>, actions: seq<Action>)
    requires Run(states, actions)
    ensures var s := states[|actions|];
      && |s.requests| == |s.responses| + |OfKind(s.fates, IsPending)| + |OfKind(s.fates, IsSilent)|
           + |OfKind(s.fates, IsOverwritten)| + |OfKind(s.fates, IsUnregistered)| + |OfKind(s.fates, IsDropped)|
      && (forall i, j :: 0 <= i < j < |s.responses| ==> s.responses[i].serial != s.responses[j].serial)
      && (forall i :: 0 <= i < |s.responses| ==>
          s.responses[i].serial < |s.requests| && s.responses[i].connection == s.requests[s.responses[i].serial].connection)
  {
    RunMatched(states, actions);
    var s := states[|actions|];
    KindsPartition(s.fates);
    SerialsSize(s.responses);
    assert Serials(s.responses) == OfKind(s.fates, IsAnswered) by {
      forall t | t in OfKind(s.fates, IsAnswered) ensures t in Serials(s.responses) {
        assert s.fates[t] == Answered;
        var i :| 0 <= i < |s.responses| && s.responses[i].serial == t;
        assert s.responses[i] in s.responses;
      }
      forall t | t in Serials(s.responses) ensures t in OfKind(s.fates, IsAnswered) {
        var r :| r in s.responses && r.serial == t;
        var i :| 0 <= i < |s.responses| && s.responses[i] == r;
      }
    }
  }

  lemma {:induction false} RunMatchedAt(states: seq<State>, actions: seq<Action>, n: nat)
    requires Run(states, actions) && n <= |actions|
    ensures Matched(states[n])
    decreases n
  {
    if n > 0 {
      hide Matched, Next;
      RunMatchedAt(states, actions, n - 1);
      NextMatched(states[n - 1], actions[n - 1]);
      assert states[n] == states[n - 1 + 1];
    } else {
      assert states[0] == START;
    }
  }

  // ---------- one request on its way ----------

  predicate Touches(a: Action, key: string) {
    match a
    case Register(k, _) => k == key
    case Upgrade(oldKey, newKey) => oldKey == key || newKey == key
    case Unregister(k) => k == key
    case Send(k) => k == key
  }

  /** The key a pending request stands under after a call: another key moves it, and any other
      call that touches its key is the end of it. */
  function Follow(at: Option<string>, a: Action): Option<string> {
    if at == None || !Touches(a, at.value) then at
    else if a.Upgrade? && a.oldKey == at.value && a.newKey != at.value then Some(a.newKey)
    else None
  }

  /** The same over the calls from `lo` up to `hi`. */
  function Track(at: Option<string>, actions: seq<Action>, lo: nat, hi: nat): Option<string>
    requires lo <= hi <= |actions|
    decreases hi
  {
    if lo == hi then at else Follow(Track(at, actions, lo, hi - 1), actions[hi - 1])
  }

  function KeyOf(s: State, serial: nat): Option<string> {
    if serial < |s.fates| && s.fates[serial].Pending? then Some(s.fates[serial].key) else None
  }

  lemma NextKey(s: State, a: Action, serial: nat)
    requires Matched(s) && serial < |s.requests|
    ensures serial < |Next(s, a).requests| && Next(s, a).requests[serial] == s.requests[serial]
    ensures KeyOf(Next(s, a), serial) == Follow(KeyOf(s, serial), a)
  {
    NextFate(s, a, serial);
    hide Matched;
  }

  lemma LostKey(s: State, key: string, fate: Fate, serial: nat)
    requires Matched(s) && serial < |s.requests| && |s.fates| == |s.requests|
    ensures |Lose(s, key, fate)| == |s.fates|
    ensures Lose(s, key, fate)[serial] == if KeyOf(s, serial) == Some(key) then fate else s.fates[serial]
  {
  }

  /** In every run, where a registration stands is told by the calls since it was made. */
  lemma {:induction false} TrackExact(states: seq<State>, actions: seq<Action>, i: nat, key: string, request: Request, j: nat)
    requires Run(states, actions) && i < j <= |actions| && actions[i] == Register(key, request)
    ensures |states[i].requests| < |states[j].requests| && states[j].requests[|states[i].requests|] == request
    ensures KeyOf(states[j], |states[i].requests|) == Track(Some(key), actions, i + 1, j)
    decreases j
  {
    hide *;
    RunMatchedAt(states, actions, j - 1);
    StepOf(states, actions, j - 1);
    TrackLast(Some(key), actions, i + 1, j);
    if j > i + 1 {
      TrackExact(states, actions, i, key, request, j - 1);
      NextKey(states[j - 1], actions[j - 1], |states[i].requests|);
    } else {
      FirstKey(states[i], key, request);
    }
  }

  /** What a call makes of a registration that stands under a key. */
  function FateAfter(a: Action, key: string, request: Request): Fate {
    if !Touches(a, key) then Pending(key)
    else
      match a
      case Register(_, _) => Overwritten
      case Upgrade(oldKey, newKey) =>
        if oldKey != key then Overwritten else if newKey != key then Pending(newKey) else Dropped
      case Unregister(_) => Unregistered
      case Send(_) => if request.protocol == GRPC then Silent else Answered
  }

  /** In every run a call gives a registration that still stands under a key the fate the call has
      for it there; and one that does not stand anywhere keeps its fate. */
  lemma FateExact(states: seq<State>, actions: seq<Action>, n: nat, serial: nat)
    requires Run(states, actions) && n < |actions| && serial < |states[n].requests|
    ensures |states[n].fates| == |states[n].requests| && serial < |states[n + 1].fates|
    ensures var was, now := states[n].fates[serial], states[n + 1].fates[serial];
      now == if was.Pending? then FateAfter(actions[n], was.key, states[n].requests[serial]) else was
  {
    RunMatchedAt(states, actions, n);
    StepOf(states, actions, n);
    NextFate(states[n], actions[n], serial);
  }

  lemma NextFate(s: State, a: Action, serial: nat)
    requires Matched(s) && serial < |s.requests|
    ensures |s.fates| == |s.requests| && serial < |Next(s, a).fates|
    ensures Next(s, a).fates[serial] ==
      if s.fates[serial].Pending? then FateAfter(a, s.fates[serial].key, s.requests[serial]) else s.fates[serial]
  {
    match a
    case Register(key, _) => LostKey(s, key, Overwritten, serial);
    case Upgrade(oldKey, newKey) =>
      if oldKey == newKey {
        LostKey(s, oldKey, Dropped, serial);
      } else {
        LostKey(s, newKey, Overwritten, serial);
        LoseMatched(s, newKey, Overwritten);
        var s0 := s.(conns := s.conns - {newKey}, fates := Lose(s, newKey, Overwritten));
        assert Lose(s.(fates := s0.fates), oldKey, Pending(newKey)) == Lose(s0, oldKey, Pending(newKey));
        LostKey(s0, oldKey, Pending(newKey), serial);
      }
    case Unregister(key) => LostKey(s, key, Unregistered, serial);
    case Send(key) =>
      LostKey(s, key, Silent, serial);
      LostKey(s, key, Answered, serial);
  }

  lemma StepOf(states: seq<State>, actions: seq<Action>, n: nat)
    requires Run(states, actions) && n < |actions|
    ensures |states| == |actions| + 1 && !states[n].crashed && states[n + 1] == Next(states[n], actions[n])
  {
    hide Next;
  }

  lemma TrackLast(at: Option<string>, actions: seq<Action>, lo: nat, hi: nat)
    requires lo <= hi <= |actions|
    ensures Track(at, actions, lo, hi) == if lo == hi then at else Follow(Track(at, actions, lo, hi - 1), actions[hi - 1])
  {
    hide Follow;
  }

  lemma FirstKey(s: State, key: string, request: Request)
    requires Matched(s)
    ensures var s' := Next(s, Register(key, request));
      && |s.requests| < |s'.requests| && s'.requests[|s.requests|] == request
      && KeyOf(s', |s.requests|) == Some(key)
  {
  }

  /** The step from `s` to `s'` sends the response of a registration. */
  ghost predicate Answers(s: State, s': State, serial: nat, connection: nat, id: nat) {
    s'.responses == s.responses + [Response(serial, connection, id)]
  }

  /** In every run: a registration is answered by a send, on its own connection and with the id
      of the send's key, if and only if the calls since it was made brought it to that key, and
      its protocol has responses. */
  lemma AnsweredIff(states: seq<State>, actions: seq<Action>, i: nat, key: string, request: Request, v: nat, at: string)
    requires Run(states, actions) && i < v < |actions|
    requires actions[i] == Register(key, request) && actions[v] == Send(at)
    ensures Answers(states[v], states[v + 1], |states[i].requests|, request.connection, GetIdUserIDFromKey(at).0) <==>
      Track(Some(key), actions, i + 1, v) == Some(at) && request.protocol != GRPC
  {
    var t, s := |states[i].requests|, states[v];
    TrackExact(states, actions, i, key, request, v);
    RunMatchedAt(states, actions, v);
    assert states[v + 1] == Next(s, Send(at));
    assert KeyOf(s, t) == Some(at) <==> at in s.conns && s.conns[at] == Registered(t, request);
    var r := Response(t, request.connection, GetIdUserIDFromKey(at).0);
    assert (s.responses + [r])[|s.responses|] == r;
    if at in s.conns && s.conns[at].Registered? {
      var r' := Response(s.conns[at].serial, s.conns[at].request.connection, GetIdUserIDFromKey(at).0);
      assert (s.responses + [r'])[|s.responses|] == r';
    }
  }

  predicate Untouched(actions: seq<Action>, lo: nat, hi: nat, key: string)
    requires lo <= hi <= |actions|
  {
    forall m :: lo <= m < hi ==> !Touches(actions[m], key)
  }

  /** Requests are moved as `RequestHelper` moves them: from the key of an id to that of the
      same id and a user. */
  ghost predicate MovedByHelper(a: Action) {
    a.Upgrade? ==>
      exists id: nat, user: string :: a.oldKey == GetKeyFromIdUserID(id, "") && a.newKey == GetKeyFromIdUserID(id, user)
  }

  lemma {:induction false} LostForGood(actions: seq<Action>, lo: nat, hi: nat)
    requires lo <= hi <= |actions|
    ensures Track(None, actions, lo, hi) == None
    decreases hi
  {
    if lo < hi { LostForGood(actions, lo, hi - 1); }
  }

  lemma {:induction false} TrackSplit(at: Option<string>, actions: seq<Action>, lo: nat, mid: nat, hi: nat)
    requires lo <= mid <= hi <= |actions|
    ensures Track(at, actions, lo, hi) == Track(Track(at, actions, lo, mid), actions, mid, hi)
    decreases hi
  {
    if mid < hi { TrackSplit(at, actions, lo, mid, hi - 1); }
  }

  /** Under the key of a user a request stays until a call touches it, and is then gone. */
  lemma {:induction false} StaysWithUser(actions: seq<Action>, lo: nat, hi: nat, id: nat, user: string)
    requires lo <= hi <= |actions| && user != "" && forall m :: lo <= m < hi ==> MovedByHelper(actions[m])
    ensures var key := GetKeyFromIdUserID(id, user);
      Track(Some(key), actions, lo, hi) == if Untouched(actions, lo, hi, key) then Some(key) else None
    decreases hi
  {
    if lo < hi {
      var key, a := GetKeyFromIdUserID(id, user), actions[hi - 1];
      StaysWithUser(actions, lo, hi - 1, id, user);
      assert a.Upgrade? ==> a.oldKey != key by {
        if a.Upgrade? && a.oldKey == key {
          assert MovedByHelper(a);
          var id', user' :| a.oldKey == GetKeyFromIdUserID(id', "") && a.newKey == GetKeyFromIdUserID(id', user');
          KeyInjective(id, user, id', "");
        }
      }
    }
  }

  /** Before its move a request stays until a call touches its key; then it is gone, or was
      moved to the key of some user. */
  lemma {:induction false} StaysWithId(actions: seq<Action>, lo: nat, hi: nat, id: nat)
    requires lo <= hi <= |actions| && forall m :: lo <= m < hi ==> MovedByHelper(actions[m])
    ensures var key := GetKeyFromIdUserID(id, "");
      if Untouched(actions, lo, hi, key) then Track(Some(key), actions, lo, hi) == Some(key)
      else Track(Some(key), actions, lo, hi) == None ||
           exists user :: user != "" && Track(Some(key), actions, lo, hi) == Some(GetKeyFromIdUserID(id, user))
    decreases hi
  {
    if lo < hi {
      var key, a := GetKeyFromIdUserID(id, ""), actions[hi - 1];
      StaysWithId(actions, lo, hi - 1, id);
      if Untouched(actions, lo, hi - 1, key) {
        if Touches(a, key) && a.Upgrade? {
          assert MovedByHelper(a);
          var id', user :| a.oldKey == GetKeyFromIdUserID(id', "") && a.newKey == GetKeyFromIdUserID(id', user);
          if a.oldKey == key {
            KeyInjective(id, "", id', "");
            assert Follow(Some(key), a) == if user == "" then None else Some(GetKeyFromIdUserID(id, user));
          }
        }
      } else if Track(Some(key), actions, lo, hi - 1).Some? {
        var user :| user != "" && Track(Some(key), actions, lo, hi - 1) == Some(GetKeyFromIdUserID(id, user));
        StaysWithUser(actions, hi - 1, hi, id, user);
        assert Track(Some(GetKeyFromIdUserID(id, user)), actions, hi - 1, hi) == Follow(Some(GetKeyFromIdUserID(id, user)), a);
      }
    }
  }

  lemma JourneyTracked(actions: seq<Action>, i: nat, u: nat, v: nat, id: nat, user: string)
    requires i <= u < v <= |actions| && forall m :: 0 <= m < |actions| ==> MovedByHelper(actions[m])
    requires actions[u] == Upgrade(GetKeyFromIdUserID(id, ""), GetKeyFromIdUserID(id, user))
    ensures Track(Some(GetKeyFromIdUserID(id, "")), actions, i, v) == Some(GetKeyFromIdUserID(id, user)) <==>
      && user != ""
      && Untouched(actions, i, u, GetKeyFromIdUserID(id, ""))
      && Untouched(actions, u + 1, v, GetKeyFromIdUserID(id, user))
  {
    var key := GetKeyFromIdUserID(id, "");
    var before := Track(Some(key), actions, i, u);
    StaysWithId(actions, i, u, id);
    TrackSplit(Some(key), actions, i, u, v);
    TrackSplit(before, actions, u, u + 1, v);
    assert Track(before, actions, u, u + 1) == Follow(before, actions[u]);
    hide Track, Follow, Untouched, MovedByHelper, GetKeyFromIdUserID;
    if before == Some(key) {
      UserUntouched(actions, i, u, id);
      MovedOn(actions, u, v, id, user);
    } else if before.Some? {
      var other :| other != "" && before == Some(GetKeyFromIdUserID(id, other));
      MovedAway(actions, u, v, id, user, other);
    } else {
      LostMeanwhile(actions, u, v);
    }
  }

  lemma LostMeanwhile(actions: seq<Action>, u: nat, v: nat)
    requires u < v <= |actions|
    ensures Track(Follow(None, actions[u]), actions, u + 1, v) == None
  {
    LostForGood(actions, u + 1, v);
  }

  /** Still under its id, a request was not touched. */
  lemma UserUntouched(actions: seq<Action>, lo: nat, hi: nat, id: nat)
    requires lo <= hi <= |actions| && forall m :: lo <= m < hi ==> MovedByHelper(actions[m])
    requires Track(Some(GetKeyFromIdUserID(id, "")), actions, lo, hi) == Some(GetKeyFromIdUserID(id, ""))
    ensures Untouched(actions, lo, hi, GetKeyFromIdUserID(id, ""))
  {
    StaysWithId(actions, lo, hi, id);
    forall user | user != "" ensures GetKeyFromIdUserID(id, "") != GetKeyFromIdUserID(id, user) {
      UserKeyDiffers(id, user);
    }
  }

  lemma UserKeyDiffers(id: nat, user: string)
    ensures GetKeyFromIdUserID(id, "") == GetKeyFromIdUserID(id, user) <==> user == ""
  {
    if GetKeyFromIdUserID(id, "") == GetKeyFromIdUserID(id, user) {
      KeyInjective(id, "", id, user);
    }
  }

  /** A request in any run: registered under its id by step `i`, moved to its user's key by step
      `u`, and sent to by step `v` under the key recomputed from its printed order id. It is
      answered by that send, on its own connection and with its own id, if and only if its user
      id is not empty and no other call touched its key, before the move or after it. */
  lemma RequestAnswered(states: seq<State>, actions: seq<Action>, i: nat, u: nat, v: nat,
                        id: nat, user: string, request: Request)
    requires Run(states, actions) && i < u < v < |actions| && forall m :: 0 <= m < |actions| ==> MovedByHelper(actions[m])
    requires id < UINT64_LIMIT && request.protocol != GRPC
    requires actions[i] == Register(GetKeyFromIdUserID(id, ""), request)
    requires actions[u] == Upgrade(GetKeyFromIdUserID(id, ""), GetKeyFromIdUserID(id, user))
    requires actions[v] == Send(ReplyKey(Decimal(id), user))
    ensures Answers(states[v], states[v + 1], |states[i].requests|, request.connection, id) <==>
      && user != ""
      && Untouched(actions, i + 1, u, GetKeyFromIdUserID(id, ""))
      && Untouched(actions, u + 1, v, GetKeyFromIdUserID(id, user))
  {
    hide *;
    ReplyCorrelates(id, user);
    AnsweredIff(states, actions, i, GetKeyFromIdUserID(id, ""), request, v, GetKeyFromIdUserID(id, user));
    JourneyTracked(actions, i + 1, u, v, id, user);
  }

  lemma MovedOn(actions: seq<Action>, u: nat, v: nat, id: nat, user: string)
    requires u < v <= |actions| && forall m :: 0 <= m < |actions| ==> MovedByHelper(actions[m])
    requires actions[u] == Upgrade(GetKeyFromIdUserID(id, ""), GetKeyFromIdUserID(id, user))
    ensures var key, newKey := GetKeyFromIdUserID(id, ""), GetKeyFromIdUserID(id, user);
      Track(Follow(Some(key), actions[u]), actions, u + 1, v) == Some(newKey) <==>
      user != "" && Untouched(actions, u + 1, v, newKey)
  {
    var key, newKey := GetKeyFromIdUserID(id, ""), GetKeyFromIdUserID(id, user);
    LostForGood(actions, u + 1, v);
    if user != "" {
      if newKey == key { KeyInjective(id, user, id, ""); }
      StaysWithUser(actions, u + 1, v, id, user);
    }
  }

  lemma MovedAway(actions: seq<Action>, u: nat, v: nat, id: nat, user: string, other: string)
    requires u < v <= |actions| && forall m :: 0 <= m < |actions| ==> MovedByHelper(actions[m])
    requires actions[u] == Upgrade(GetKeyFromIdUserID(id, ""), GetKeyFromIdUserID(id, user)) && other != ""
    ensures Track(Follow(Some(GetKeyFromIdUserID(id, other)), actions[u]), actions, u + 1, v) !=
      Some(GetKeyFromIdUserID(id, user))
  {
    var at := GetKeyFromIdUserID(id, other);
    LostForGood(actions, u + 1, v);
    StaysWithUser(actions, u + 1, v, id, other);
    if at == GetKeyFromIdUserID(id, "") { KeyInjective(id, other, id, ""); }
    if other != user && at == GetKeyFromIdUserID(id, user) { KeyInjective(id, other, id, user); }
  }

  /** Two clients may use the same id at once, because the first key holds the id alone. The
      second registration takes the entry over, the first client's move then carries it to the
      first client's key, and the reply to the first client's order goes to the second. */
  lemma SharedId(id: nat, user: string, first: nat, second: nat)
    requires id < UINT64_LIMIT && user != ""
    ensures var key, newKey := GetKeyFromIdUserID(id, ""), GetKeyFromIdUserID(id, user);
      var s1 := Next(START, Register(key, Request(Websocket, first, "private/buy")));
      var s2 := Next(s1, Register(key, Request(Websocket, second, "public/subscribe")));
      var s3 := Next(s2, Upgrade(key, newKey));
      var s4 := Next(s3, Send(ReplyKey(Decimal(id), user)));
      s4.responses == [Response(1, second, id)] && s4.fates == [Overwritten, Answered]
  {
    ReplyCorrelates(id, user);
    var key, newKey := GetKeyFromIdUserID(id, ""), GetKeyFromIdUserID(id, user);
    assert |key| == |Decimal(id)| + 1 && |newKey| == |Decimal(id)| + 1 + |user|;
  }

  // ---------- crashes ----------

  /** The call leaves an empty record under a key: it moves there a key that holds no request. */
  ghost predicate Empties(s: State, a: Action, key: string) {
    && a.Upgrade? && a.newKey == key && a.oldKey != key
    && (a.oldKey !in s.conns || s.conns[a.oldKey] == Empty)
  }

  /** Some call left an empty record under the key and none has touched the key since. */
  ghost predicate EmptiedSince(states: seq<State>, actions: seq<Action>, n: nat, key: string)
    requires n <= |actions| && |states| == |actions| + 1
  {
    exists u :: 0 <= u < n && Empties(states[u], actions[u], key) && Untouched(actions, u + 1, n, key)
  }

  lemma NextEmpty(s: State, a: Action, key: string)
    requires !Next(s, a).crashed
    ensures (key in Next(s, a).conns && Next(s, a).conns[key] == Empty) <==>
      if Touches(a, key) then Empties(s, a, key) else key in s.conns && s.conns[key] == Empty
  {
  }

  lemma EmptiedNext(states: seq<State>, actions: seq<Action>, n: nat, key: string)
    requires |states| == |actions| + 1 && 0 < n <= |actions|
    ensures EmptiedSince(states, actions, n, key) <==>
      if Touches(actions[n - 1], key) then Empties(states[n - 1], actions[n - 1], key)
      else EmptiedSince(states, actions, n - 1, key)
  {
    if Touches(actions[n - 1], key) {
      if Empties(states[n - 1], actions[n - 1], key) {
        assert Untouched(actions, n - 1 + 1, n, key);
      }
    } else if EmptiedSince(states, actions, n - 1, key) {
      var u :| 0 <= u < n - 1 && Empties(states[u], actions[u], key) && Untouched(actions, u + 1, n - 1, key);
      assert Untouched(actions, u + 1, n, key);
    }
    if EmptiedSince(states, actions, n, key) {
      var u :| 0 <= u < n && Empties(states[u], actions[u], key) && Untouched(actions, u + 1, n, key);
      if u < n - 1 {
        assert Untouched(actions, u + 1, n - 1, key);
      }
    }
  }

  lemma {:induction false} EmptyExact(states: seq<State>, actions: seq<Action>, n: nat, key: string)
    requires Run(states, actions) && n <= |actions| && !states[n].crashed
    ensures (key in states[n].conns && states[n].conns[key] == Empty) <==> EmptiedSince(states, actions, n, key)
    decreases n
  {
    if n > 0 {
      StepOf(states, actions, n - 1);
      hide Next, Empties, Touches, Run, EmptiedSince;
      NextEmpty(states[n - 1], actions[n - 1], key);
      EmptiedNext(states, actions, n, key);
      EmptyExact(states, actions, n - 1, key);
    }
  }

  /** A step crashes if and only if it sends to a key under which an earlier move left an empty
      record, of a key that held no request, and which no call has touched since. */
  lemma CrashExact(states: seq<State>, actions: seq<Action>, n: nat)
    requires Run(states, actions) && n < |actions|
    ensures states[n + 1].crashed <==> actions[n].Send? && EmptiedSince(states, actions, n, actions[n].key)
  {
    assert !states[n].crashed && states[n + 1] == Next(states[n], actions[n]);
    if actions[n].Send? {
      EmptyExact(states, actions, n, actions[n].key);
    }
  }

  /** A request that times out before its user is known: the timeout answers it and removes it,
      the move then leaves an empty record under the user's key, and the next send there crashes. */
  lemma LateMove(id: nat, user: string, request: Request) returns (states: seq<State>, actions: seq<Action>)
    requires id < UINT64_LIMIT && user != "" && request.protocol != GRPC
    ensures var key, newKey := GetKeyFromIdUserID(id, ""), GetKeyFromIdUserID(id, user);
      actions == [Register(key, request), Send(key), Upgrade(key, newKey), Send(newKey)]
    ensures Run(states, actions) && states[4].crashed
  {
    var key, newKey := GetKeyFromIdUserID(id, ""), GetKeyFromIdUserID(id, user);
    UserKeyDiffers(id, user);
    actions := [Register(key, request), Send(key), Upgrade(key, newKey), Send(newKey)];
    var s1 := Next(START, actions[0]);
    var s2 := Next(s1, actions[1]);
    assert s2.conns == map[] && !s1.crashed && !s2.crashed;
    var s3 := Next(s2, actions[2]);
    assert newKey in s3.conns && s3.conns[newKey] == Empty && !s3.crashed;
    var s4 := Next(s3, actions[3]);
    states := [START, s1, s2, s3, s4];
    assert s4.crashed;
    hide Next;
  }
}
