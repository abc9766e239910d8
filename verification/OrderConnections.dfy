/** Order connections: per order key a slice of clients. A closing client's handler reads the
    slice in one critical section and, in a later one, splices the client out of it in place
    and stores it back; handlers of several clients run side by side. */
module OrderConnections {
  import opened Options

  type Client = nat

  // ---------- lists ----------

  ghost predicate NoDup(s: seq<Client>) {
    forall i, j :: 0 <= i < j < |s| ==> s[i] != s[j]
  }

  function Enrolled(s: seq<Client>, c: Client): seq<Client> {
    if c in s then s else s + [c]
  }

  /** The list without a client, the others in order. */
  function Without(s: seq<Client>, c: Client): seq<Client> {
    if s == [] then [] else (if s[0] == c then [] else [s[0]]) + Without(s[1..], c)
  }

  function Times(s: seq<Client>, c: Client): nat {
    if s == [] then 0 else Times(s[..|s| - 1], c) + if s[|s| - 1] == c then 1 else 0
  }

  lemma {:induction false} WithoutConcat(a: seq<Client>, b: seq<Client>, c: Client)
    ensures Without(a + b, c) == Without(a, c) + Without(b, c)
  {
    if a == [] {
      assert a + b == b;
    } else {
      assert (a + b)[1..] == a[1..] + b;
      WithoutConcat(a[1..], b, c);
    }
  }

  lemma {:induction false} WithoutSize(s: seq<Client>, c: Client)
    ensures |Without(s, c)| == |s| - Times(s, c)
    ensures Times(s, c) == 0 <==> c !in s
  {
    if s != [] {
      var init, last := s[..|s| - 1], s[|s| - 1];
      assert s == init + [last];
      WithoutSize(init, c);
      WithoutConcat(init, [last], c);
      assert Without([last], c) == if last == c then [] else [last];
    }
  }

  lemma {:induction false} WithoutAbsent(s: seq<Client>, c: Client)
    requires c !in s
    ensures Without(s, c) == s
  {
    if s != [] {
      WithoutAbsent(s[1..], c);
      assert s == [s[0]] + s[1..];
    }
  }

  lemma {:induction false} WithoutKeeps(s: seq<Client>, c: Client)
    requires NoDup(s)
    ensures NoDup(Without(s, c))
    ensures forall x :: x in Without(s, c) <==> x in s && x != c
  {
    if s != [] {
      var rest := s[1..];
      assert s == [s[0]] + rest;
      assert s[0] !in rest;
      assert forall i, j :: 0 <= i < j < |rest| ==> rest[i] == s[i + 1] && rest[j] == s[j + 1];
      WithoutKeeps(rest, c);
    }
  }

  /** Registration puts a client behind the others, keeps a list duplicate-free, and is undone by
      removal. */
  lemma EnrolledKeeps(s: seq<Client>, c: Client)
    requires NoDup(s)
    ensures NoDup(Enrolled(s, c)) && c in Enrolled(s, c)
    ensures s <= Enrolled(s, c) && forall x :: x in Enrolled(s, c) ==> x in s || x == c
    ensures Without(Enrolled(s, c), c) == Without(s, c)
  {
    if c !in s {
      WithoutConcat(s, [c], c);
      assert Without([c], c) == [];
    }
  }

  lemma {:induction false} OnceAtMost(s: seq<Client>, c: Client)
    requires NoDup(s)
    ensures Times(s, c) <= 1
  {
    if s != [] {
      var init := s[..|s| - 1];
      assert forall i, j :: 0 <= i < j < |init| ==> init[i] == s[i] && init[j] == s[j];
      OnceAtMost(init, c);
      WithoutSize(init, c);
    }
  }

  lemma {:induction false} TimesGrow(s: seq<Client>, k: nat, c: Client)
    requires k <= |s|
    ensures Times(s[..k], c) <= Times(s, c)
    ensures k < |s| ==> Times(s[..k + 1], c) == Times(s[..k], c) + if s[k] == c then 1 else 0
    decreases |s|
  {
    if k < |s| {
      assert s[..k + 1][..k] == s[..k];
      assert s[..|s| - 1][..k] == s[..k];
      TimesGrow(s[..|s| - 1], k, c);
    } else {
      assert s[..k] == s;
    }
  }

  // ---------- what the removal loop does to a slice ----------

  /** What the handler's loop leaves of a slice: it skips the element that moves down into the
      place of a removed one, so of neighbouring occurrences every second one stays. */
  function Skimmed(s: seq<Client>, c: Client): (r: seq<Client>)
    ensures |r| <= |s|
  {
    if s == [] then []
    else if s[0] != c then [s[0]] + Skimmed(s[1..], c)
    else if |s| == 1 then []
    else [s[1]] + Skimmed(s[2..], c)
  }

  /** The loop ranges over the old length; past the shortened slice it meets copies of the last
      element, and to cut one out there is out of bounds. */
  predicate Panics(s: seq<Client>, c: Client) {
    Times(s, c) >= 2 && s != [] && s[|s| - 1] == c
  }

  predicate Neighbours(s: seq<Client>, c: Client) {
    exists i :: 0 <= i < |s| - 1 && s[i] == c == s[i + 1]
  }

  lemma {:induction false} NeighboursNext(s: seq<Client>, c: Client, k: nat)
    requires 1 <= k <= |s| && forall i :: 0 <= i < k && i < |s| - 1 ==> !(s[i] == c == s[i + 1])
    ensures Neighbours(s, c) <==> Neighbours(s[k..], c)
  {
    if Neighbours(s[k..], c) {
      var i :| 0 <= i < |s[k..]| - 1 && s[k..][i] == c == s[k..][i + 1];
      assert s[k + i] == c == s[k + i + 1];
    }
    if Neighbours(s, c) {
      var i :| 0 <= i < |s| - 1 && s[i] == c == s[i + 1];
      assert s[k..][i - k] == c == s[k..][i - k + 1];
    }
  }

  lemma {:induction false} SkimmedLeaves(s: seq<Client>, c: Client)
    ensures c in Skimmed(s, c) <==> Neighbours(s, c)
  {
    if s == [] {
    } else if s[0] != c {
      SkimmedLeaves(s[1..], c);
      NeighboursNext(s, c, 1);
    } else if |s| >= 2 {
      SkimmedLeaves(s[2..], c);
      if s[1] == c {
        assert s[0] == c == s[0 + 1];
      } else {
        NeighboursNext(s, c, 2);
      }
    }
  }

  lemma {:induction false} SkimmedApart(s: seq<Client>, c: Client)
    requires !Neighbours(s, c)
    ensures Skimmed(s, c) == Without(s, c)
  {
    if s == [] {
    } else if s[0] != c {
      NeighboursNext(s, c, 1);
      SkimmedApart(s[1..], c);
    } else if |s| >= 2 {
      assert !(s[0] == c == s[0 + 1]);
      NeighboursNext(s, c, 2);
      SkimmedApart(s[2..], c);
      assert s[1..][1..] == s[2..];
    }
  }

  lemma {:induction false} WithoutOut(s: seq<Client>, c: Client)
    ensures c !in Without(s, c)
  {
    if s != [] {
      WithoutOut(s[1..], c);
    }
  }

  /** The loop takes a client out if and only if it never stands twice in a row. */
  lemma SkimmedIsWithout(s: seq<Client>, c: Client)
    ensures Skimmed(s, c) == Without(s, c) <==> !Neighbours(s, c)
    ensures c in Skimmed(s, c) <==> Neighbours(s, c)
  {
    SkimmedLeaves(s, c);
    WithoutOut(s, c);
    if !Neighbours(s, c) {
      SkimmedApart(s, c);
    }
  }

  /** The slice shows the client in a way the loop can deal with. */
  predicate Clean(s: seq<Client>, c: Client) {
    !Neighbours(s, c) && !Panics(s, c)
  }

  lemma NoDupClean(s: seq<Client>, c: Client)
    requires NoDup(s)
    ensures Clean(s, c)
  {
    OnceAtMost(s, c);
    forall i | 0 <= i < |s| - 1 ensures !(s[i] == c == s[i + 1]) {
      assert s[i] != s[i + 1];
    }
  }

  /** The backing array after the loop ran over its first `n` elements without panicking. */
  function Spliced(arr: seq<Client>, n: nat, c: Client): (r: seq<Client>)
    requires n <= |arr|
    ensures |r| == |arr|
  {
    var kept := Skimmed(arr[..n], c);
    kept + seq(n - |kept|, i requires 0 <= i < n - |kept| => arr[n - 1]) + arr[n..]
  }

  /** `append(s[:i], s[i+1:]...)` on a slice of length `len`: the elements after the i-th move
      one place down in the backing array. In bounds only if `i + 1 <= len`. */
  method Splice(a: array<Client>, len: nat, i: nat)
    requires i + 1 <= len <= a.Length
    modifies a
    ensures ShiftedDown(old(a[..]), a[..], len, i)
  {
    forall j | i <= j < len - 1 {
      a[j] := a[j + 1];
    }
  }

  ghost predicate ShiftedDown(was: seq<Client>, now: seq<Client>, len: nat, i: nat) {
    && i < len <= |was| == |now|
    && (forall k :: 0 <= k < i ==> now[k] == was[k])
    && (forall k :: i <= k < len - 1 ==> now[k] == was[k + 1])
    && (forall k :: len - 1 <= k < |was| ==> now[k] == was[k])
  }

  /** The handler's loop, for any slice. The range keeps the header of `n` elements it started
      with but reads the backing array as it is, and each removal shifts the rest of the slice,
      of current length `len`, one place down in that array. */
  method RemoveInPlace(a: array<Client>, n: nat, client: Client) returns (len: nat, panicked: bool)
    requires n <= a.Length
    modifies a
    ensures panicked == Panics(old(a[..])[..n], client)
    ensures !panicked ==> a[..] == Spliced(old(a[..]), n, client) && len == |Skimmed(old(a[..])[..n], client)|
  {
    hide *;
    len, panicked := n, false;
    LoopStarts(a[..], n, client);
    for i := 0 to n
      invariant len <= n && ArrayState(old(a[..]), a[..], n, client, i, len)
    {
      label L:
      LoopRound(old(a[..]), a[..], n, client, i, len);
      if client == a[i] {
        if i + 1 > len { return len, true; }
        Splice(a, len, i);
        assert ShiftedDown(old@L(a[..]), a[..], len, i);
        len := len - 1;
      }
    }
    LoopEnds(old(a[..]), a[..], n, client, len);
  }

  /** The state of the loop seen on the whole backing array. */
  ghost predicate ArrayState(was: seq<Client>, now: seq<Client>, n: nat, c: Client, i: nat, len: nat) {
    && n <= |was| == |now| && (forall k :: n <= k < |was| ==> now[k] == was[k])
    && LoopState(was[..n], now[..n], c, i, len)
  }

  lemma LoopStarts(was: seq<Client>, n: nat, c: Client)
    requires n <= |was|
    ensures ArrayState(was, was, n, c, 0, n)
  {
    var s := was[..n];
    assert s[0..] == s && s[..0] == [] && s[0..|s|] == s;
  }

  lemma LoopReads(was: seq<Client>, now: seq<Client>, n: nat, c: Client, i: nat, len: nat)
    requires ArrayState(was, now, n, c, i, len) && i < n
    ensures i >= len && now[i] == c ==> Panics(was[..n], c)
  {
    SliceReads(was[..n], now[..n], c, i, len);
  }

  lemma LoopPasses(was: seq<Client>, now: seq<Client>, n: nat, c: Client, i: nat, len: nat)
    requires ArrayState(was, now, n, c, i, len) && i < n && now[i] != c
    ensures ArrayState(was, now, n, c, i + 1, len)
  {
    hide LoopState;
    SlicePasses(was[..n], now[..n], c, i, len);
  }

  lemma LoopSplices(was: seq<Client>, now: seq<Client>, after: seq<Client>, n: nat, c: Client, i: nat, len: nat)
    requires ArrayState(was, now, n, c, i, len) && i < len <= n && now[i] == c && ShiftedDown(now, after, len, i)
    ensures ArrayState(was, after, n, c, i + 1, len - 1)
  {
    hide LoopState;
    ShiftedSlice(now[..n], after[..n], i, len);
    SliceSplices(was[..n], now[..n], after[..n], c, i, len);
  }

  /** One round of the loop: it panics, cuts the element out, or passes on. */
  lemma LoopRound(was: seq<Client>, now: seq<Client>, n: nat, c: Client, i: nat, len: nat)
    requires ArrayState(was, now, n, c, i, len) && i < n <= |now| && len <= n
    ensures now[i] != c ==> ArrayState(was, now, n, c, i + 1, len)
    ensures now[i] == c && i >= len ==> Panics(was[..n], c)
    ensures now[i] == c && i < len ==>
      forall after :: ShiftedDown(now, after, len, i) ==> ArrayState(was, after, n, c, i + 1, len - 1)
  {
    hide *;
    if now[i] != c {
      LoopPasses(was, now, n, c, i, len);
    } else if i >= len {
      LoopReads(was, now, n, c, i, len);
    } else {
      forall after | ShiftedDown(now, after, len, i) ensures ArrayState(was, after, n, c, i + 1, len - 1) {
        LoopSplices(was, now, after, n, c, i, len);
      }
    }
  }

  lemma ShiftedSlice(now: seq<Client>, after: seq<Client>, i: nat, len: nat)
    requires ShiftedDown(now, after, len, i)
    ensures Shifted(now, after, i, len)
  {
  }

  lemma LoopEnds(was: seq<Client>, now: seq<Client>, n: nat, c: Client, len: nat)
    requires ArrayState(was, now, n, c, n, len) && len <= n
    ensures !Panics(was[..n], c)
    ensures now == Spliced(was, n, c) && len == |Skimmed(was[..n], c)|
  {
    SliceEnds(was[..n], now[..n], c, len);
    var spliced := Spliced(was, n, c);
    forall k | 0 <= k < |was| ensures now[k] == spliced[k] {
      if k < len {
        assert now[k] == now[..n][..len][k];
      } else if k < n {
        assert now[k] == now[..n][k];
      }
    }
  }

  /** After `i` rounds: the front is what the loop keeps of what it has seen; the rest of the
      slice is still to be seen; and behind the slice stand copies of the last element. */
  ghost predicate LoopState(was: seq<Client>, now: seq<Client>, c: Client, i: nat, len: nat) {
    var n := |was|;
    var removed := n - len;
    && |now| == n && i <= n && len <= n
    && (i <= len ==>
        && i + removed <= n
        && Skimmed(was, c) == now[..i] + Skimmed(was[i + removed..], c)
        && now[i..len] == was[i + removed..]
        && (removed == 0 ==> Times(was[..i], c) == 0)
        && (removed > 0 ==> i > 0 && Times(was[..i + removed - 1], c) >= removed))
    && (i > len ==>
        && Skimmed(was, c) == now[..len]
        && Times(was, c) >= removed
        && (removed == 1 && was[n - 1] == c ==> i == n))
    && (forall k :: len <= k < n ==> now[k] == was[n - 1])
    && (i == n && n > 0 ==> !Panics(was, c))
  }

  /** What a round reads, and when it must panic. */
  lemma SliceReads(was: seq<Client>, now: seq<Client>, c: Client, i: nat, len: nat)
    requires LoopState(was, now, c, i, len) && i < |was|
    ensures i < len ==> now[i] == was[i + |was| - len]
    ensures i >= len && now[i] == c ==> Panics(was, c)
  {
    var n := |was|;
    if i < len {
      assert now[i..len][0] == was[i + n - len..][0];
    } else {
      TimesGrow(was, n - 1, c);
      assert was[..n] == was;
    }
  }

  lemma SlicePasses(was: seq<Client>, now: seq<Client>, c: Client, i: nat, len: nat)
    requires LoopState(was, now, c, i, len) && i < |was| && now[i] != c
    ensures LoopState(was, now, c, i + 1, len)
  {
    var n := |was|;
    SliceReads(was, now, c, i, len);
    if i < len {
      PassKeeps(was, now, c, i, len);
      PassCounts(was, now, c, i, len);
    } else {
      assert was[n - 1] == now[i] != c;
      if i == len {
        assert was[i + n - len..] == [];
        assert now[..i] + [] == now[..i];
        TimesGrow(was, n - 1, c);
        assert was[..n] == was;
      }
    }
  }

  lemma PassKeeps(was: seq<Client>, now: seq<Client>, c: Client, i: nat, len: nat)
    requires LoopState(was, now, c, i, len) && i < len && was[i + |was| - len] != c
    ensures var removed := |was| - len;
      && Skimmed(was, c) == now[..i + 1] + Skimmed(was[i + removed + 1..], c)
      && now[i + 1..len] == was[i + removed + 1..]
  {
    var rest := was[i + |was| - len..];
    assert rest[1..] == was[i + |was| - len + 1..];
    assert now[i] == now[i..len][0] == rest[0];
    assert now[..i + 1] == now[..i] + [rest[0]];
    AppendOne(now[..i], rest[0], Skimmed(rest[1..], c));
    assert now[i + 1..len] == now[i..len][1..];
  }

  lemma PassCounts(was: seq<Client>, now: seq<Client>, c: Client, i: nat, len: nat)
    requires LoopState(was, now, c, i, len) && i < len && was[i + |was| - len] != c
    ensures var removed := |was| - len;
      && (removed == 0 ==> Times(was[..i + 1], c) == 0)
      && (removed > 0 ==> Times(was[..i + removed], c) >= removed)
      && (i + 1 == |was| ==> !Panics(was, c))
  {
    var removed := |was| - len;
    TimesGrow(was, i, c);
    if removed > 0 {
      TimesGrow(was[..i + removed], i + removed - 1, c);
      assert was[..i + removed][..i + removed - 1] == was[..i + removed - 1];
    }
    if i + 1 == |was| {
      assert was[..i] == was[..|was| - 1];
      LastOnce(was, c);
    }
  }

  lemma LastOnce(was: seq<Client>, c: Client)
    requires was != [] && (Times(was[..|was| - 1], c) == 0 || was[|was| - 1] != c)
    ensures !Panics(was, c)
  {
  }

  /** The array after the shift, from which element on and up to where. */
  ghost predicate Shifted(now: seq<Client>, after: seq<Client>, i: nat, len: nat) {
    && i < len <= |now| == |after|
    && after[..len - 1] == now[..i] + now[i + 1..len]
    && after[len - 1..] == now[len - 1..]
  }

  lemma SliceSplices(was: seq<Client>, now: seq<Client>, after: seq<Client>, c: Client, i: nat, len: nat)
    requires LoopState(was, now, c, i, len) && i < len && now[i] == c && Shifted(now, after, i, len)
    ensures LoopState(was, after, c, i + 1, len - 1)
  {
    SliceReads(was, now, c, i, len);
    SpliceCopies(was, now, after, c, i, len);
    SpliceCounts(was, now, c, i, len);
    SpliceKeeps(was, now, after, c, i, len);
    var n := |was|;
    if i + 1 == n {
      assert n - len == 0 && was[..n - 1] == was[..i];
      LastOnce(was, c);
    }
  }

  lemma SpliceCopies(was: seq<Client>, now: seq<Client>, after: seq<Client>, c: Client, i: nat, len: nat)
    requires LoopState(was, now, c, i, len) && Shifted(now, after, i, len)
    ensures forall k :: len - 1 <= k < |was| ==> after[k] == was[|was| - 1]
  {
    var n := |was|;
    assert now[len - 1] == now[i..len][len - 1 - i] == was[i + n - len..][len - 1 - i];
    forall k | len - 1 <= k < n ensures after[k] == was[n - 1] {
      assert after[k] == after[len - 1..][k - (len - 1)] == now[len - 1..][k - (len - 1)] == now[k];
    }
  }

  lemma SpliceCounts(was: seq<Client>, now: seq<Client>, c: Client, i: nat, len: nat)
    requires LoopState(was, now, c, i, len) && i < len && was[i + |was| - len] == c
    ensures var removed := |was| - len; Times(was[..i + removed + 1], c) >= removed + 1
  {
    var removed := |was| - len;
    TimesGrow(was, i + removed, c);
    if removed > 0 {
      TimesGrow(was[..i + removed], i + removed - 1, c);
      assert was[..i + removed][..i + removed - 1] == was[..i + removed - 1];
    }
  }

  lemma SpliceKeeps(was: seq<Client>, now: seq<Client>, after: seq<Client>, c: Client, i: nat, len: nat)
    requires LoopState(was, now, c, i, len) && Shifted(now, after, i, len) && was[i + |was| - len] == c
    ensures var removed := |was| - len;
      if i + 1 <= len - 1 then
        && Skimmed(was, c) == after[..i + 1] + Skimmed(was[i + removed + 2..], c)
        && after[i + 1..len - 1] == was[i + removed + 2..]
      else
        Skimmed(was, c) == after[..len - 1] && was[..i + removed + 1] == was
  {
    var removed := |was| - len;
    var rest := was[i + removed..];
    assert now[i..len] == rest && rest[0] == c;
    if i + 1 <= len - 1 {
      assert rest[2..] == was[i + removed + 2..];
      assert after[i] == after[..len - 1][i] == now[i + 1..len][0] == now[i..len][1] == rest[1];
      assert after[..i + 1] == now[..i] + [rest[1]] by { assert after[..i] == after[..len - 1][..i] == now[..i]; }
      AppendOne(now[..i], rest[1], Skimmed(rest[2..], c));
      assert after[i + 1..len - 1] == after[..len - 1][i + 1..] == now[i + 2..len] == now[i..len][2..];
    } else {
      assert |rest| == 1 && Skimmed(rest, c) == [];
      assert now[..i] + [] == now[..i];
      assert now[i + 1..len] == [];
    }
  }

  lemma AppendOne(a: seq<Client>, x: Client, b: seq<Client>)
    ensures a + ([x] + b) == a + [x] + b
  {
  }

  lemma SliceEnds(was: seq<Client>, now: seq<Client>, c: Client, len: nat)
    requires LoopState(was, now, c, |was|, len)
    ensures !Panics(was, c)
    ensures len == |Skimmed(was, c)| && now[..len] == Skimmed(was, c)
  {
    if len == |was| {
      assert was[|was|..] == [];
      assert now[..len] + [] == now[..len];
    }
  }

  // ---------- the connections of one order key ----------

  /** The stored slice: a backing array and a length, or nothing before the first client. */
  class ConnectionList {
    var connections: array?<Client>
    var length: nat

    ghost predicate Valid()
      reads this
    {
      length <= if connections == null then 0 else connections.Length
    }

    ghost function Contents(): seq<Client>
      reads this, connections
      requires Valid()
    {
      if connections == null then [] else connections[..length]
    }

    constructor ()
      ensures Valid() && connections == null
    {
      connections, length := null, 0;
    }

    method IsClientConnected(client: Client) returns (connected: bool)
      requires Valid()
      ensures connected <==> client in Contents()
    {
      if connections == null { return false; }
      for i := 0 to length
        invariant client !in connections[..i]
      {
        if connections[i] == client { return true; }
      }
      return false;
    }

    /** Says whether the client was added, and so whether its close handler was registered. A
        full slice is copied into a larger array, with some room; otherwise the append is in
        place. */
    method RegisterOrderConnection(c: Client, room: nat) returns (registered: bool)
      requires Valid()
      modifies this, connections
      ensures Valid() && (connections == old(connections) || fresh(connections))
      ensures Contents() == Enrolled(old(Contents()), c)
      ensures registered == (c !in old(Contents()))
      ensures registered && old(connections) != null && old(length) < old(connections.Length) ==>
        connections == old(connections) && connections[..] == old(connections[..])[old(length) := c]
      ensures old(connections) != null && connections != old(connections) ==>
        old(connections)[..] == old(connections[..])
    {
      if connections == null {
        connections, length := new Client[][c], 1;
        return true;
      }
      ghost var was := Contents();
      var connected := IsClientConnected(c);
      if connected { return false; }
      var a: array<Client> := connections;
      if length == a.Length {
        a := new Client[length + 1 + room];
        forall i | 0 <= i < length { a[i] := connections[i]; }
        assert a[..length] == was;
      }
      a[length] := c;
      assert a[..length + 1] == was + [c];
      connections, length := a, length + 1;
      return true;
    }

    /** The first critical section of the unsubscribe handler. */
    method FetchConnections() returns (a: array?<Client>, n: nat)
      ensures a == connections && n == length
    {
      a, n := connections, length;
    }

    /** The second one: it works on the slice as fetched, and stores what it made of it. */
    method WriteBack(a: array<Client>, n: nat, client: Client) returns (panicked: bool)
      requires n <= a.Length
      modifies this, a
      ensures panicked == Panics(old(a[..])[..n], client)
      ensures !panicked ==> Valid() && connections == a && length == |Skimmed(old(a[..])[..n], client)|
      ensures !panicked ==> a[..] == Spliced(old(a[..]), n, client)
    {
      var len;
      len, panicked := RemoveInPlace(a, n, client);
      if panicked { return; }
      connections, length := a, len;
    }
  }

  // ---------- runs ----------

  datatype Slice = Slice(backing: nat, len: nat)
  datatype Handler = Handler(client: Client, slice: Slice)

  /** The backing arrays allocated so far, the stored slice, the handlers that have fetched, and
      the clients with a handler. `live` holds the registrations without the closed clients. */
  datatype State = State(arrays: seq<seq<Client>>, list: Option<Slice>, fetched: map<nat, Handler>,
                         handlers: set<Client>, crashed: bool, live: seq<Client>)

  const START := State([], None, map[], {}, false, [])

  datatype Action =
    | Register(c: Client, room: nat)
    | Fetch(handler: nat, c: Client)
    | WriteBack(handler: nat)

  predicate InBounds(s: State, sl: Slice) {
    sl.backing < |s.arrays| && sl.len <= |s.arrays[sl.backing]|
  }

  function Window(s: State, sl: Slice): seq<Client> {
    if InBounds(s, sl) then s.arrays[sl.backing][..sl.len] else []
  }

  function Contents(s: State): seq<Client> {
    if s.list.Some? then Window(s, s.list.value) else []
  }

  /** The free places of a new array, which no slice shows. */
  function Room(n: nat): (r: seq<Client>)
    ensures |r| == n && forall i :: 0 <= i < n ==> r[i] == 0
  {
    if n == 0 then [] else [0] + Room(n - 1)
  }

  predicate Enabled(s: State, a: Action) {
    !s.crashed &&
    match a
    case Register(_, _) => true
    case Fetch(h, c) => c in s.handlers && h !in s.fetched
    case WriteBack(h) => h in s.fetched
  }

  function Next(s: State, a: Action): State
    requires Enabled(s, a)
  {
    match a
    case Register(c, room) =>
      var s' := s.(live := Enrolled(s.live, c));
      if c in Contents(s) then s'
      else if s.list == None || !InBounds(s, s.list.value) then
        s'.(arrays := s.arrays + [[c]], list := Some(Slice(|s.arrays|, 1)), handlers := s.handlers + {c})
      else
        var Slice(backing, len) := s.list.value;
        if len < |s.arrays[backing]| then
          var array': seq<Client> := s.arrays[backing][len := c];
          s'.(arrays := s.arrays[backing := array'], list := Some(Slice(backing, len + 1)),
              handlers := s.handlers + {c})
        else
          s'.(arrays := s.arrays + [Contents(s) + [c] + Room(room)], list := Some(Slice(|s.arrays|, len + 1)),
              handlers := s.handlers + {c})
    case Fetch(h, c) =>
      if s.list == None then s else s.(fetched := s.fetched[h := Handler(c, s.list.value)])
    case WriteBack(h) =>
      var Handler(c, sl) := s.fetched[h];
      var s' := s.(fetched := s.fetched - {h}, live := Without(s.live, c));
      if !InBounds(s, sl) || Panics(Window(s, sl), c) then s'.(crashed := true)
      else s'.(arrays := s.arrays[sl.backing := Spliced(s.arrays[sl.backing], sl.len, c)],
               list := Some(Slice(sl.backing, |Skimmed(Window(s, sl), c)|)))
  }

  /** Slices stay within their arrays, and a handler exists only once the list does. */
  ghost predicate Bounded(s: State) {
    && (s.list.Some? ==> InBounds(s, s.list.value))
    && (s.handlers != {} ==> s.list.Some?)
    && forall h :: h in s.fetched ==> InBounds(s, s.fetched[h].slice)
  }

  lemma NextBounded(s: State, a: Action)
    requires Bounded(s) && Enabled(s, a)
    ensures Bounded(Next(s, a))
  {
    hide Spliced, Skimmed, Panics, Without, Enrolled;
    var s' := Next(s, a);
    assert forall i :: 0 <= i < |s.arrays| ==> i < |s'.arrays| && |s'.arrays[i]| == |s.arrays[i]|;
  }

  ghost predicate Run(states: seq<State>, actions: seq<Action>) {
    && |states| == |actions| + 1 && states[0] == START
    && forall i :: 0 <= i < |actions| ==> Enabled(states[i], actions[i]) && states[i + 1] == Next(states[i], actions[i])
  }

  lemma {:induction false} RunBounded(states: seq<State>, actions: seq<Action>, n: nat)
    requires Run(states, actions) && n <= |actions|
    ensures Bounded(states[n])
    decreases n
  {
    hide Next, Bounded;
    if n > 0 {
      RunBounded(states, actions, n - 1);
      NextBounded(states[n - 1], actions[n - 1]);
      assert states[n] == states[n - 1 + 1];
    } else {
      StartRight();
    }
  }

  // ---------- when the list is right ----------

  /** The list holds the registered clients that have not closed, each once. */
  ghost predicate Right(s: State) {
    !s.crashed && Contents(s) == s.live && NoDup(s.live)
  }

  /** The slice a handler fetched still shows, apart from its client, the list as it is, and
      shows the client in a way the loop can deal with. */
  ghost predicate Fresh(s: State, h: nat) {
    h in s.fetched ==>
      var Handler(c, sl) := s.fetched[h];
      Clean(Window(s, sl), c) && Without(Window(s, sl), c) == Without(Contents(s), c)
  }

  lemma StartRight()
    ensures Right(START) && Bounded(START)
  {
  }

  lemma SplicedFront(arr: seq<Client>, n: nat, c: Client)
    requires n <= |arr|
    ensures |Skimmed(arr[..n], c)| <= |arr|
    ensures Spliced(arr, n, c)[..|Skimmed(arr[..n], c)|] == Skimmed(arr[..n], c)
  {
  }

  lemma WrittenBack(s: State, h: nat)
    requires Bounded(s) && Enabled(s, WriteBack(h))
    ensures var s', Handler(c, sl) := Next(s, WriteBack(h)), s.fetched[h];
      if Panics(Window(s, sl), c) then s'.crashed else !s'.crashed && Contents(s') == Skimmed(Window(s, sl), c)
  {
    var Handler(c, sl) := s.fetched[h];
    SplicedFront(s.arrays[sl.backing], sl.len, c);
    hide Spliced, Skimmed, Panics;
  }

  lemma Registered(s: State, c: Client, room: nat)
    requires Bounded(s) && Enabled(s, Register(c, room))
    ensures Contents(Next(s, Register(c, room))) == Enrolled(Contents(s), c)
  {
    if c !in Contents(s) && s.list.Some? {
      var Slice(backing, len) := s.list.value;
      if len < |s.arrays[backing]| {
        assert s.arrays[backing][len := c][..len + 1] == s.arrays[backing][..len] + [c];
      }
    }
  }

  /** From a right list, a step leaves it right if and only if it is not the write-back of a
      handler whose slice is stale. */
  lemma StepRight(s: State, a: Action)
    requires Bounded(s) && Enabled(s, a) && Right(s)
    ensures Right(Next(s, a)) <==> (a.WriteBack? ==> Fresh(s, a.handler))
  {
    hide Skimmed, Spliced, Panics, Neighbours, Without, NoDup;
    match a
    case Register(c, room) =>
      Registered(s, c, room);
      EnrolledKeeps(s.live, c);
    case Fetch(h, c) => assert Contents(Next(s, a)) == Contents(s);
    case WriteBack(h) =>
      var c, w := s.fetched[h].client, Window(s, s.fetched[h].slice);
      WrittenBack(s, h);
      SkimmedIsWithout(w, c);
      WithoutOut(s.live, c);
      WithoutKeeps(s.live, c);
  }

  ghost predicate RightThrough(states: seq<State>, n: nat)
    requires n < |states|
  {
    forall i :: 0 <= i <= n ==> Right(states[i])
  }

  ghost predicate FreshAt(states: seq<State>, actions: seq<Action>, i: nat)
    requires i < |actions| && i < |states|
  {
    actions[i].WriteBack? ==> Fresh(states[i], actions[i].handler)
  }

  ghost predicate FreshThrough(states: seq<State>, actions: seq<Action>, n: nat)
    requires n <= |actions| && n < |states|
  {
    forall i :: 0 <= i < n ==> FreshAt(states, actions, i)
  }

  /** In every run of registrations and handlers, side by side in any order: the list is, at
      every step, the registrations without the closed clients, free of duplicates and without
      a panic, if and only if every handler wrote back from a slice that was not stale. */
  lemma {:induction false} ListRight(states: seq<State>, actions: seq<Action>, n: nat)
    requires Run(states, actions) && n <= |actions|
    ensures RightThrough(states, n) <==> FreshThrough(states, actions, n)
    decreases n
  {
    hide Next, Enabled, Right, Fresh, Bounded;
    if n == 0 {
      StartRight();
    } else {
      var s, a := states[n - 1], actions[n - 1];
      ListRight(states, actions, n - 1);
      RunBounded(states, actions, n - 1);
      assert Enabled(s, a) && states[n - 1 + 1] == Next(s, a);
      if Right(s) { StepRight(s, a); }
      assert RightThrough(states, n) <==> RightThrough(states, n - 1) && Right(states[n]);
      assert FreshThrough(states, actions, n) <==> FreshThrough(states, actions, n - 1) && FreshAt(states, actions, n - 1);
    }
  }

  // ---------- who is registered and has not closed ----------

  /** The client a handler fetched the list for, if it has not written back since. */
  function FetchedFor(actions: seq<Action>, n: nat, h: nat): Option<Client>
    requires n <= |actions|
  {
    if n == 0 then None
    else
      match actions[n - 1]
      case Fetch(h', c) => if h' == h then Some(c) else FetchedFor(actions, n - 1, h)
      case WriteBack(h') => if h' == h then None else FetchedFor(actions, n - 1, h)
      case Register(_, _) => FetchedFor(actions, n - 1, h)
  }

  function HandlerClient(s: State, h: nat): Option<Client> {
    if h in s.fetched then Some(s.fetched[h].client) else None
  }

  lemma {:induction false} FetchedIs(states: seq<State>, actions: seq<Action>, n: nat, h: nat)
    requires Run(states, actions) && n <= |actions|
    ensures HandlerClient(states[n], h) == FetchedFor(actions, n, h)
    decreases n
  {
    if n > 0 {
      FetchedIs(states, actions, n - 1, h);
      RunBounded(states, actions, n - 1);
      assert Enabled(states[n - 1], actions[n - 1]) && states[n - 1 + 1] == Next(states[n - 1], actions[n - 1]);
      FetchedNext(states[n - 1], actions[n - 1], h);
    }
  }

  lemma FetchedNext(s: State, a: Action, h: nat)
    requires Bounded(s) && Enabled(s, a)
    ensures HandlerClient(Next(s, a), h) ==
      match a
      case Fetch(h', c) => if h' == h then Some(c) else HandlerClient(s, h)
      case WriteBack(h') => if h' == h then None else HandlerClient(s, h)
      case Register(_, _) => HandlerClient(s, h)
  {
    hide Spliced, Skimmed, Panics, Without, Enrolled, Window;
  }

  predicate ClosesFor(actions: seq<Action>, j: nat, c: Client)
    requires j < |actions|
  {
    actions[j].WriteBack? && FetchedFor(actions, j, actions[j].handler) == Some(c)
  }

  predicate OpenSince(actions: seq<Action>, n: nat, i: nat, c: Client)
    requires n <= |actions|
  {
    forall j :: i < j < n ==> !ClosesFor(actions, j, c)
  }

  /** The client registered at some step, and no handler has written back for it since. */
  ghost predicate Opened(actions: seq<Action>, n: nat, c: Client)
    requires n <= |actions|
  {
    exists i :: 0 <= i < n && actions[i].Register? && actions[i].c == c && OpenSince(actions, n, i, c)
  }

  lemma OpenedNext(actions: seq<Action>, n: nat, c: Client)
    requires n < |actions|
    ensures Opened(actions, n + 1, c) <==>
      (actions[n].Register? && actions[n].c == c) || (Opened(actions, n, c) && !ClosesFor(actions, n, c))
  {
    hide ClosesFor;
    if actions[n].Register? && actions[n].c == c {
      assert OpenSince(actions, n + 1, n, c);
    }
    if Opened(actions, n + 1, c) && !(actions[n].Register? && actions[n].c == c) {
      var i :| 0 <= i < n + 1 && actions[i].Register? && actions[i].c == c && OpenSince(actions, n + 1, i, c);
      assert OpenSince(actions, n, i, c);
    }
    if Opened(actions, n, c) && !ClosesFor(actions, n, c) {
      var i :| 0 <= i < n && actions[i].Register? && actions[i].c == c && OpenSince(actions, n, i, c);
      assert OpenSince(actions, n + 1, i, c);
    }
  }

  lemma LiveNext(s: State, a: Action, c: Client)
    requires Enabled(s, a)
    ensures c in Next(s, a).live <==>
      (a.Register? && a.c == c) || (c in s.live && !(a.WriteBack? && HandlerClient(s, a.handler) == Some(c)))
  {
    hide Spliced, Skimmed, Panics;
    if a.WriteBack? {
      WithoutMembers(s.live, s.fetched[a.handler].client, c);
    }
  }

  lemma {:induction false} WithoutMembers(s: seq<Client>, c: Client, x: Client)
    ensures x in Without(s, c) <==> x in s && x != c
  {
    if s != [] {
      WithoutMembers(s[1..], c, x);
      assert s == [s[0]] + s[1..];
    }
  }

  /** Who should be on the list, in every run: exactly the clients that registered and for which no
      handler has written back since. While `ListRight` holds, these are the clients on it. */
  lemma {:induction false} LiveExactly(states: seq<State>, actions: seq<Action>, n: nat, c: Client)
    requires Run(states, actions) && n <= |actions|
    ensures c in states[n].live <==> Opened(actions, n, c)
    decreases n
  {
    hide Next, Enabled, Opened, HandlerClient;
    if n == 0 {
      assert states[0] == START;
      assert !Opened(actions, 0, c) by { NoneOpened(actions, c); }
    } else {
      var a := actions[n - 1];
      LiveExactly(states, actions, n - 1, c);
      assert Enabled(states[n - 1], a) && states[n - 1 + 1] == Next(states[n - 1], a);
      LiveNext(states[n - 1], a, c);
      OpenedNext(actions, n - 1, c);
      if a.WriteBack? {
        FetchedIs(states, actions, n - 1, a.handler);
      }
    }
  }

  lemma NoneOpened(actions: seq<Action>, c: Client)
    ensures !Opened(actions, 0, c)
  {
  }

  // ---------- overlapping handlers ----------

  /** A step that changes the list: a write-back, or the registration of a new client. */
  predicate Changes(s: State, a: Action) {
    a.WriteBack? || (a.Register? && a.c !in Contents(s))
  }

  /** Nothing changes the list between the fetch and the write-back of any handler. */
  ghost predicate NoOverlap(states: seq<State>, actions: seq<Action>)
    requires |states| == |actions| + 1
  {
    forall j :: 0 <= j < |actions| && actions[j].WriteBack? ==>
      exists i :: 0 <= i < j && actions[i].Fetch? && actions[i].handler == actions[j].handler
        && forall k :: i < k < j ==> !Changes(states[k], actions[k])
  }

  lemma {:induction false} ListKept(states: seq<State>, actions: seq<Action>, i: nat, j: nat, h: nat)
    requires Run(states, actions) && i < j <= |actions| && actions[i].Fetch? && actions[i].handler == h
    requires forall k :: i < k < j ==> !Changes(states[k], actions[k])
    ensures states[i].list.Some? && h in states[j].fetched
    ensures states[j].list == Some(states[j].fetched[h].slice)
    decreases j
  {
    RunBounded(states, actions, i);
    if j == i + 1 {
      assert states[i + 1] == Next(states[i], actions[i]);
    } else {
      ListKept(states, actions, i, j - 1, h);
      assert Enabled(states[j - 1], actions[j - 1]) && states[j - 1 + 1] == Next(states[j - 1], actions[j - 1]);
      assert !Changes(states[j - 1], actions[j - 1]);
      hide Spliced, Skimmed, Panics, Bounded;
    }
  }

  lemma AloneFresh(states: seq<State>, actions: seq<Action>, j: nat)
    requires Run(states, actions) && NoOverlap(states, actions) && j < |actions| && Right(states[j])
    ensures FreshAt(states, actions, j)
  {
    hide Next, Enabled, Bounded, Changes, Clean, Without;
    if actions[j].WriteBack? {
      var s, h := states[j], actions[j].handler;
      var i :| 0 <= i < j && actions[i].Fetch? && actions[i].handler == h
        && forall k :: i < k < j ==> !Changes(states[k], actions[k]);
      ListKept(states, actions, i, j, h);
      NoDupClean(Contents(s), s.fetched[h].client);
    }
  }

  lemma RunLengths(states: seq<State>, actions: seq<Action>)
    requires Run(states, actions)
    ensures |states| == |actions| + 1
  {
    hide Next, Enabled;
  }

  lemma NothingWritten(states: seq<State>, actions: seq<Action>)
    requires |states| == |actions| + 1
    ensures FreshThrough(states, actions, 0)
  {
  }

  lemma RightAtEnd(states: seq<State>, n: nat)
    requires n < |states| && RightThrough(states, n)
    ensures Right(states[n])
  {
    hide Right;
  }

  lemma FreshOneMore(states: seq<State>, actions: seq<Action>, n: nat)
    requires 0 < n <= |actions| && n < |states|
    ensures FreshThrough(states, actions, n) <==> FreshThrough(states, actions, n - 1) && FreshAt(states, actions, n - 1)
  {
    hide FreshAt;
  }

  /** When no fetch and write-back overlap with a change, the list is right throughout. */
  lemma {:induction false} AloneRight(states: seq<State>, actions: seq<Action>, n: nat)
    requires Run(states, actions) && NoOverlap(states, actions) && n <= |actions|
    ensures RightThrough(states, n)
    decreases n
  {
    hide Run, NoOverlap, Right, Fresh, RightThrough, FreshThrough, FreshAt;
    ListRight(states, actions, n);
    RunLengths(states, actions);
    if n == 0 {
      NothingWritten(states, actions);
    } else {
      AloneRight(states, actions, n - 1);
      RightAtEnd(states, n - 1);
      AloneFresh(states, actions, n - 1);
      ListRight(states, actions, n - 1);
      FreshOneMore(states, actions, n);
    }
  }

  /** What a handler that fetched a list sees after another client was cut out of it in place. */
  lemma StaleWindow(was: seq<Client>, first: Client, second: Client)
    requires NoDup(was) && first in was && second in was && first != second
    ensures Clean(was, first) && |Skimmed(was, first)| == |was| - 1
    ensures var w := Skimmed(was, first) + [was[|was| - 1]];
      !(Clean(w, second) && Without(w, second) == Without(Skimmed(was, first), second))
  {
    NoDupClean(was, first);
    SkimmedIsWithout(was, first);
    WithoutSize(was, first);
    OnceAtMost(was, first);
    WithoutKeeps(was, first);
    StaleOnce(Without(was, first), was[|was| - 1], second);
  }

  /** And one change in between is enough: of two handlers that hold the list as it is, for two
      of its clients, the second to write back finds its slice stale. */
  lemma SecondStale(s: State, h: nat, h': nat)
    requires Bounded(s) && Right(s) && h in s.fetched && h' in s.fetched
    requires s.list == Some(s.fetched[h].slice) == Some(s.fetched[h'].slice)
    requires s.fetched[h].client != s.fetched[h'].client
    requires s.fetched[h].client in Contents(s) && s.fetched[h'].client in Contents(s)
    ensures Right(Next(s, WriteBack(h))) && !Fresh(Next(s, WriteBack(h)), h')
  {
    StaleWindow(Contents(s), s.fetched[h].client, s.fetched[h'].client);
    StepRight(s, WriteBack(h));
    WindowLeft(s, h);
    hide Spliced, Skimmed, Clean, Without, Panics, NoDup, Next, Bounded, Window;
    assert Next(s, WriteBack(h)).fetched[h'] == s.fetched[h'];
  }

  /** What the slice a handler wrote back from shows afterwards. */
  lemma WindowLeft(s: State, h: nat)
    requires Bounded(s) && Enabled(s, WriteBack(h))
    requires var Handler(c, sl) := s.fetched[h];
      !Panics(Window(s, sl), c) && |Window(s, sl)| > 0 && |Skimmed(Window(s, sl), c)| == |Window(s, sl)| - 1
    ensures var s', Handler(c, sl) := Next(s, WriteBack(h)), s.fetched[h];
      var w := Window(s, sl);
      && !s'.crashed && Contents(s') == Skimmed(w, c)
      && Window(s', sl) == Skimmed(w, c) + [w[|w| - 1]]
      && forall h' :: h' in s.fetched && h' != h ==> h' in s'.fetched && s'.fetched[h'] == s.fetched[h']
  {
    var Handler(c, sl) := s.fetched[h];
    WrittenBack(s, h);
    SplicedWindow(s.arrays[sl.backing], sl.len, c);
    hide Spliced, Skimmed, Panics, Without;
  }

  lemma SplicedWindow(arr: seq<Client>, n: nat, c: Client)
    requires 0 < n <= |arr| && |Skimmed(arr[..n], c)| == n - 1
    ensures Spliced(arr, n, c)[..n] == Skimmed(arr[..n], c) + [arr[n - 1]]
  {
  }

  /** A slice that is the current list with one more element behind it is stale for a client of
      the list. */
  lemma StaleOnce(list: seq<Client>, last: Client, c: Client)
    requires NoDup(list) && c in list
    ensures !(Clean(list + [last], c) && Without(list + [last], c) == Without(list, c))
  {
    WithoutConcat(list, [last], c);
    assert Without([last], c) == if last == c then [] else [last];
    if last == c {
      WithoutSize(list, c);
      assert (list + [last])[..|list|] == list;
      assert Panics(list + [last], c);
    } else {
      assert |Without(list + [last], c)| == |Without(list, c)| + 1;
    }
  }

  /** Likewise a client registered after a handler fetched is lost when it writes back. */
  lemma RegistrationLost(s: State, h: nat, c: Client, room: nat)
    requires Bounded(s) && Right(s) && h in s.fetched && s.list == Some(s.fetched[h].slice)
    requires c !in Contents(s) && s.fetched[h].client != c
    ensures Right(Next(s, Register(c, room))) && !Fresh(Next(s, Register(c, room)), h)
  {
    var s', x := Next(s, Register(c, room)), s.fetched[h].client;
    StepRight(s, Register(c, room));
    Registered(s, c, room);
    var Slice(backing, len) := s.fetched[h].slice;
    assert Window(s', s.fetched[h].slice) == Contents(s) by {
      if len < |s.arrays[backing]| {
        assert s.arrays[backing][len := c][..len] == s.arrays[backing][..len];
      }
    }
    WithoutConcat(Contents(s), [c], x);
    assert Without([c], x) == [c];
    assert |Without(Contents(s'), x)| == |Without(Contents(s), x)| + 1;
  }

  // ---------- clients that close together ----------

  /** Three clients; the first two close together and leave the third twice in the list, and
      its own close then panics. */
  function TogetherState(i: nat): State {
    match i
    case 0 => START
    case 1 => State([[0]], Some(Slice(0, 1)), map[], {0}, false, [0])
    case 2 => State([[0], [0, 1, 0]], Some(Slice(1, 2)), map[], {0, 1}, false, [0, 1])
    case 3 => State([[0], [0, 1, 2]], Some(Slice(1, 3)), map[], {0, 1, 2}, false, [0, 1, 2])
    case 4 => TogetherState(3).(fetched := map[0 := Handler(0, Slice(1, 3))])
    case 5 => TogetherState(3).(fetched := map[0 := Handler(0, Slice(1, 3)), 1 := Handler(1, Slice(1, 3))])
    case 6 => State([[0], [1, 2, 2]], Some(Slice(1, 2)), map[1 := Handler(1, Slice(1, 3))], {0, 1, 2}, false, [1, 2])
    case 7 => State([[0], [2, 2, 2]], Some(Slice(1, 2)), map[], {0, 1, 2}, false, [2])
    case 8 => TogetherState(7).(fetched := map[2 := Handler(2, Slice(1, 2))])
    case _ => TogetherState(7).(live := [], crashed := true)
  }

  function TogetherAction(i: nat): Action {
    match i
    case 0 => Register(0, 0)
    case 1 => Register(1, 1)
    case 2 => Register(2, 0)
    case 3 => Fetch(0, 0)
    case 4 => Fetch(1, 1)
    case 5 => WriteBack(0)
    case 6 => WriteBack(1)
    case 7 => Fetch(2, 2)
    case _ => WriteBack(2)
  }

  predicate Steps(s: State, a: Action, s': State) {
    Enabled(s, a) && s' == Next(s, a)
  }

  lemma TogetherStep(i: nat)
    requires i < 9
    ensures Steps(TogetherState(i), TogetherAction(i), TogetherState(i + 1))
  {
    if i == 5 {
      TogetherBack(TogetherState(5), 0, 0, 1, 2);
    } else if i == 6 {
      TogetherBack(TogetherState(6), 1, 1, 2, 2);
      assert Without([1, 2], 1) == [2] by { assert [1, 2][1..] == [2] && [2][1..] == []; }
    } else if i == 8 {
      TogetherPanics(TogetherState(8));
    } else {
      TogetherOpens(i);
    }
  }

  lemma TogetherPanics(s: State)
    requires s == TogetherState(8)
    ensures Steps(s, WriteBack(2), TogetherState(9))
  {
    assert Window(s, Slice(1, 2)) == [2, 2] by { assert [2, 2, 2][..2] == [2, 2]; }
    assert Times([2, 2], 2) == 2 by { assert [2, 2][..1] == [2]; }
    assert Without([2], 2) == [];
    hide Times, Without;
  }

  lemma TogetherOpens(i: nat)
    requires i < 5 || i == 7
    ensures Steps(TogetherState(i), TogetherAction(i), TogetherState(i + 1))
  {
    hide Spliced, Skimmed, Panics, Times, Without;
    match i
    case 0 =>
    case 1 =>
      var s := TogetherState(1);
      assert Contents(s) == [0] && [0] + [1] + Room(1) == [0, 1, 0];
      assert s.arrays + [Contents(s) + [1] + Room(1)] == [[0], [0, 1, 0]];
      assert Enrolled([0], 1) == [0, 1] && {0} + {1} == {0, 1};
    case 2 => assert [0, 1, 0][2 := 2] == [0, 1, 2];
    case 3 =>
    case 4 =>
    case _ =>
  }

  lemma TogetherBack(s: State, h: nat, x: Client, y: Client, z: Client)
    requires x != y && x != z && !s.crashed && s.arrays == [[0], [x, y, z]]
    requires h in s.fetched && s.fetched[h] == Handler(x, Slice(1, 3))
    ensures Steps(s, WriteBack(h), s.(arrays := [[0], [y, z, z]], list := Some(Slice(1, 2)),
                                      fetched := s.fetched - {h}, live := Without(s.live, x)))
    ensures Without([x, y, z], x) == [y, z]
  {
    SplicedExample(x, y, z);
    hide Spliced, Skimmed, Panics, Without;
    assert Window(s, Slice(1, 3)) == [x, y, z];
    assert s.arrays[1 := [y, z, z]] == [[0], [y, z, z]];
  }

  lemma SplicedExample(x: Client, y: Client, z: Client)
    requires x != y && x != z
    ensures Skimmed([x, y, z], x) == [y, z] && Spliced([x, y, z], 3, x) == [y, z, z]
    ensures !Panics([x, y, z], x) && Without([x, y, z], x) == [y, z]
  {
    var s := [x, y, z];
    assert s[..3] == s && s[2..] == [z] && s[1..] == [y, z] && [y, z][1..] == [z] && [z][1..] == [];
    assert Without([z], x) == [z] && Without([y, z], x) == [y] + [z];
    assert s[..2] == [x, y] && [x, y][..1] == [x];
  }

  lemma TogetherRun(states: seq<State>, actions: seq<Action>)
    requires |states| == 10 && |actions| == 9
    requires forall i :: 0 <= i < 10 ==> states[i] == TogetherState(i)
    requires forall i :: 0 <= i < 9 ==> actions[i] == TogetherAction(i)
    ensures Run(states, actions)
  {
    assert states[0] == START;
    hide Next, Enabled, TogetherState, TogetherAction;
    forall i | 0 <= i < 9 ensures Enabled(states[i], actions[i]) && states[i + 1] == Next(states[i], actions[i]) {
      TogetherStep(i);
      assert Steps(states[i], actions[i], states[i + 1]);
    }
  }

  lemma NotRightThrough(states: seq<State>, i: nat, n: nat)
    requires i <= n < |states| && !Right(states[i])
    ensures !RightThrough(states, n)
  {
  }

  lemma TogetherFacts()
    ensures Contents(TogetherState(7)) == [2, 2] && TogetherState(7).live == [2] && !Right(TogetherState(7))
    ensures TogetherState(9).crashed
    ensures TogetherAction(5) == WriteBack(0) && TogetherAction(6) == WriteBack(1) && TogetherAction(8) == WriteBack(2)
  {
    assert [2, 2, 2][..2] == [2, 2];
  }

  lemma ClosingTogether() returns (states: seq<State>, actions: seq<Action>)
    ensures Run(states, actions) && !FreshThrough(states, actions, |actions|)
    ensures |actions| == 9 && actions[5] == WriteBack(0) && actions[6] == WriteBack(1) && actions[8] == WriteBack(2)
    ensures Contents(states[7]) == [2, 2] && states[7].live == [2]
    ensures states[9].crashed
  {
    states := seq(10, i requires 0 <= i < 10 => TogetherState(i));
    actions := seq(9, i requires 0 <= i < 9 => TogetherAction(i));
    hide *;
    TogetherRun(states, actions);
    TogetherFacts();
    ListRight(states, actions, 9);
    NotRightThrough(states, 7, 9);
  }
}
