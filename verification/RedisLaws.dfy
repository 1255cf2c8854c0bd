/** Laws of the Redis subscriber table over one sweep and over whole runs. */
module RedisLaws {
  import opened Slices
  import opened RedisTable

  // ---------------------------------------------------------------- the reverse sweep

  function Kept(list: seq<Sub>, fired: set<Signal>): seq<Sub> {
    if list == [] then [] else
      Kept(list[..|list| - 1], fired)
      + (if list[|list| - 1].signal in fired then [] else [list[|list| - 1]])
  }

  /** Sweeping positions below n, after any sweep of those above, leaves what was above and the
      unsignalled ones of what was below. */
  lemma {:induction false} SweepBelow(list: seq<Sub>, n: nat, fired: set<Signal>)
    requires n <= |list|
    ensures multiset(SweepList(list, n, fired)) == multiset(list[n..]) + multiset(Kept(list[..n], fired))
    decreases n
  {
    if n == 0 {
      assert list[0..] == list;
    } else {
      var left := LeftBy(list, n - 1, fired);
      SweepBelow(left, n - 1, fired);
      VisitLeavesPrefix(list, n - 1, fired);
      VisitTail(list, n - 1, fired);
      KeptSnoc(list, n - 1, fired);
    }
  }

  function KeptOne(sub: Sub, fired: set<Signal>): multiset<Sub> {
    if sub.signal in fired then multiset{} else multiset{sub}
  }

  lemma {:induction false} VisitLeavesPrefix(list: seq<Sub>, i: nat, fired: set<Signal>)
    requires i < |list|
    ensures i <= |LeftBy(list, i, fired)| && LeftBy(list, i, fired)[..i] == list[..i]
  {
  }

  lemma {:induction false} VisitTail(list: seq<Sub>, i: nat, fired: set<Signal>)
    requires i < |list|
    ensures i <= |LeftBy(list, i, fired)|
    ensures multiset(LeftBy(list, i, fired)[i..]) == multiset(list[i + 1..]) + KeptOne(list[i], fired)
  {
    if list[i].signal in fired {
      SwapTail(list, i);
    } else {
      assert list[i..] == [list[i]] + list[i + 1..];
    }
  }

  lemma {:induction false} KeptSnoc(list: seq<Sub>, i: nat, fired: set<Signal>)
    requires i < |list|
    ensures multiset(Kept(list[..i + 1], fired)) == multiset(Kept(list[..i], fired)) + KeptOne(list[i], fired)
  {
    assert list[..i + 1][..i] == list[..i];
  }

  lemma {:induction false} SwapTail(list: seq<Sub>, i: nat)
    requires i < |list|
    ensures multiset(SwapRemove(list, i)[i..]) == multiset(list[i + 1..])
  {
    if i == |list| - 1 {
      assert SwapRemove(list, i)[i..] == [] == list[i + 1..];
    } else {
      var rest := list[i + 1..|list| - 1];
      assert SwapRemove(list, i)[i..] == [list[|list| - 1]] + rest;
      assert list[i + 1..] == rest + [list[|list| - 1]];
    }
  }

  /** The sweep removes exactly the signalled subscribers of the key and keeps all others as a
      multiset; the key goes, upstream too, exactly when none is kept; other keys are untouched. */
  lemma {:induction false} SweepRemovesExactlyFired(t: Table, k: Key, fired: set<Signal>, payload: string)
    ensures var r := Swept(t, k, fired, payload);
      && multiset(ListOf(r.subs, k)) == multiset(Kept(ListOf(t.subs, k), fired))
      && (forall j | j != k :: j in r.subs <==> j in t.subs)
      && (forall j | j != k :: ListOf(r.subs, j) == ListOf(t.subs, j))
      && (ListOf(t.subs, k) != [] ==> (k in r.subs <==> Kept(ListOf(t.subs, k), fired) != []))
  {
    var list := ListOf(t.subs, k);
    SweepListKeepsUnfired(list, fired);
    if list != [] {
      PutEffect(t.(pipes := VisitDown(t.pipes, list, |list|, fired, payload)), k, SweepList(list, |list|, fired));
    }
  }

  lemma {:induction false} PutEffect(t: Table, k: Key, list: seq<Sub>)
    ensures var r := Put(t, k, list);
      && ListOf(r.subs, k) == list
      && (k in r.subs <==> list != [])
      && (forall j | j != k :: (j in r.subs <==> j in t.subs) && ListOf(r.subs, j) == ListOf(t.subs, j))
  {
  }

  lemma {:induction false} SweepListKeepsUnfired(list: seq<Sub>, fired: set<Signal>)
    ensures multiset(SweepList(list, |list|, fired)) == multiset(Kept(list, fired))
    ensures SweepList(list, |list|, fired) == [] <==> Kept(list, fired) == []
  {
    SweepBelow(list, |list|, fired);
    assert list[..|list|] == list;
    SameSize(SweepList(list, |list|, fired), Kept(list, fired));
  }

  lemma {:induction false} SameSize<T>(a: seq<T>, b: seq<T>)
    requires multiset(a) == multiset(b)
    ensures |a| == |b|
  {
    assert |multiset(a)| == |a| && |multiset(b)| == |b|;
  }

  lemma {:induction false} KeptMembers(list: seq<Sub>, fired: set<Signal>)
    ensures forall s :: s in Kept(list, fired) <==> s in list && s.signal !in fired
  {
    if list != [] {
      KeptMembers(list[..|list| - 1], fired);
      assert list == list[..|list| - 1] + [list[|list| - 1]];
    }
  }

  /** One channel by itself. */
  datatype Pipe = Pipe(buffer: seq<string>, closed: bool)

  function PipeOf(pipes: Pipes, ch: Chan): Pipe {
    Pipe(Buffer(pipes, ch), ch in pipes.closings)
  }

  function Seen(p: Pipe, capacity: nat, signalled: bool, payload: string): Pipe {
    if signalled then
      if p.buffer != [] then p.(buffer := p.buffer[1..]) else p.(closed := true)
    else if !p.closed && |p.buffer| < capacity then p.(buffer := p.buffer + [payload])
    else p
  }

  /** The walk from n down, as one channel sees it. */
  function SeenDown(p: Pipe, list: seq<Sub>, n: nat, fired: set<Signal>, payload: string, ch: Chan): Pipe
    requires n <= |list|
    decreases n
  {
    if n == 0 then p
    else if list[n - 1].ch != ch then SeenDown(p, list, n - 1, fired, payload, ch)
    else SeenDown(Seen(p, ch.capacity, list[n - 1].signal in fired, payload), list, n - 1, fired, payload, ch)
  }

  lemma {:induction false} OneVisit(pipes: Pipes, sub: Sub, fired: set<Signal>, payload: string, ch: Chan)
    ensures PipeOf(Visit(pipes, sub, fired, payload), ch)
      == if sub.ch == ch then Seen(PipeOf(pipes, ch), ch.capacity, sub.signal in fired, payload) else PipeOf(pipes, ch)
  {
  }

  /** What a sweep does to a channel depends on that channel's own content and registrations alone,
      whatever their signals. */
  lemma {:induction false} VisitsOfOwn(pipes: Pipes, list: seq<Sub>, n: nat, fired: set<Signal>, payload: string,
                                       ch: Chan)
    requires n <= |list|
    ensures PipeOf(VisitDown(pipes, list, n, fired, payload), ch)
         == SeenDown(PipeOf(pipes, ch), list, n, fired, payload, ch)
    decreases n
  {
    if n > 0 {
      OneVisit(pipes, list[n - 1], fired, payload, ch);
      VisitsOfOwn(Visit(pipes, list[n - 1], fired, payload), list, n - 1, fired, payload, ch);
    }
  }

  /** How often a channel is registered among the first n. */
  function Registrations(list: seq<Sub>, n: nat, ch: Chan): nat
    requires n <= |list|
  {
    if n == 0 then 0 else Registrations(list, n - 1, ch) + (if list[n - 1].ch == ch then 1 else 0)
  }

  function Min(a: nat, b: nat): nat {
    if a < b then a else b
  }

  function Copies(payload: string, k: nat): (r: seq<string>)
    ensures |r| == k
  {
    seq(k, i => payload)
  }

  /** The free places of a buffer. */
  function Room(capacity: nat, buffer: seq<string>): nat {
    if |buffer| < capacity then capacity - |buffer| else 0
  }

  lemma {:induction false} SignalledVisits(p: Pipe, list: seq<Sub>, n: nat, fired: set<Signal>, payload: string,
                                           ch: Chan)
    requires n <= |list| && forall j | 0 <= j < n && list[j].ch == ch :: list[j].signal in fired
    ensures var m := Registrations(list, n, ch);
      SeenDown(p, list, n, fired, payload, ch) == Pipe(p.buffer[Min(m, |p.buffer|)..], p.closed || m > |p.buffer|)
    decreases n
  {
    if n > 0 {
      var next := if list[n - 1].ch == ch then Seen(p, ch.capacity, true, payload) else p;
      SignalledVisits(next, list, n - 1, fired, payload, ch);
    }
  }

  lemma {:induction false} UnsignalledVisits(p: Pipe, list: seq<Sub>, n: nat, fired: set<Signal>, payload: string,
                                             ch: Chan)
    requires n <= |list| && forall j | 0 <= j < n && list[j].ch == ch :: list[j].signal !in fired
    requires !p.closed
    ensures SeenDown(p, list, n, fired, payload, ch)
      == Pipe(p.buffer + Copies(payload, Min(Registrations(list, n, ch), Room(ch.capacity, p.buffer))), false)
    decreases n
  {
    if n > 0 {
      if list[n - 1].ch == ch {
        var next := Seen(p, ch.capacity, false, payload);
        UnsignalledVisits(next, list, n - 1, fired, payload, ch);
        MoreCopies(p.buffer, payload, Min(Registrations(list, n - 1, ch), Room(ch.capacity, next.buffer)));
      } else {
        UnsignalledVisits(p, list, n - 1, fired, payload, ch);
      }
    } else {
      assert p.buffer + Copies(payload, 0) == p.buffer;
    }
  }

  lemma {:induction false} MoreCopies(buffer: seq<string>, payload: string, k: nat)
    ensures buffer + [payload] + Copies(payload, k) == buffer + Copies(payload, k + 1)
  {
  }

  /** The walk from n down reads the first n positions only. */
  lemma {:induction false} VisitPrefix(pipes: Pipes, a: seq<Sub>, b: seq<Sub>, n: nat, fired: set<Signal>,
                                       payload: string)
    requires n <= |a| && n <= |b| && forall j | 0 <= j < n :: a[j] == b[j]
    ensures VisitDown(pipes, a, n, fired, payload) == VisitDown(pipes, b, n, fired, payload)
    decreases n
  {
    if n > 0 {
      VisitPrefix(Visit(pipes, a[n - 1], fired, payload), a, b, n - 1, fired, payload);
    }
  }

  /** A message for a closed channel without a signal crashes the program. */
  lemma {:induction false} ClosedVisits(pipes: Pipes, list: seq<Sub>, n: nat, fired: set<Signal>, payload: string,
                                        i: nat)
    requires i < n <= |list| && list[i].ch in pipes.closings && list[i].signal !in fired
    ensures VisitDown(pipes, list, n, fired, payload).crashed
    decreases n
  {
    var next := Visit(pipes, list[n - 1], fired, payload);
    if i == n - 1 {
      CrashStays(next, list, n - 1, fired, payload);
    } else {
      ClosedVisits(next, list, n - 1, fired, payload, i);
    }
  }

  lemma {:induction false} CrashStays(pipes: Pipes, list: seq<Sub>, n: nat, fired: set<Signal>, payload: string)
    requires n <= |list| && pipes.crashed
    ensures VisitDown(pipes, list, n, fired, payload).crashed
    decreases n
  {
    if n > 0 {
      CrashStays(Visit(pipes, list[n - 1], fired, payload), list, n - 1, fired, payload);
    }
  }

  lemma {:induction false} ListSwept(pipes: Pipes, list: seq<Sub>, fired: set<Signal>, payload: string, ch: Chan,
                                     signal: Signal)
    requires forall j | 0 <= j < |list| && list[j].ch == ch :: list[j].signal == signal
    ensures var r := VisitDown(pipes, list, |list|, fired, payload);
      var m := Registrations(list, |list|, ch); var p := PipeOf(pipes, ch);
      && (signal in fired ==> PipeOf(r, ch) == Pipe(p.buffer[Min(m, |p.buffer|)..], p.closed || m > |p.buffer|))
      && (signal !in fired && !p.closed ==>
            PipeOf(r, ch) == Pipe(p.buffer + Copies(payload, Min(m, Room(ch.capacity, p.buffer))), false))
      && (signal !in fired && p.closed && m > 0 ==> r.crashed)
  {
    VisitsOfOwn(pipes, list, |list|, fired, payload, ch);
    if signal in fired {
      SignalledVisits(PipeOf(pipes, ch), list, |list|, fired, payload, ch);
    } else if ch !in pipes.closings {
      UnsignalledVisits(PipeOf(pipes, ch), list, |list|, fired, payload, ch);
    } else if Registrations(list, |list|, ch) > 0 {
      var i := SomeRegistration(list, |list|, ch);
      ClosedVisits(pipes, list, |list|, fired, payload, i);
    }
  }

  /** What a sweep does to a channel that is registered any number of times under the key, always
      with the same signal. Signalled, it loses a message per registration, and it is closed if
      and only if it has more registrations than it held messages, or was closed before. Open and
      unsignalled, it gets a copy of the payload per registration while there is room, and stays
      open. Closed and unsignalled, it crashes the program. */
  lemma {:induction false} ChannelSwept(t: Table, k: Key, fired: set<Signal>, payload: string, ch: Chan, signal: Signal)
    requires forall s | s in ListOf(t.subs, k) && s.ch == ch :: s.signal == signal
    ensures var r := Swept(t, k, fired, payload).pipes; var list := ListOf(t.subs, k);
      var m := Registrations(list, |list|, ch); var waiting := Buffer(t.pipes, ch);
      && (signal in fired ==>
            && Buffer(r, ch) == waiting[Min(m, |waiting|)..]
            && (ch in r.closings <==> ch in t.pipes.closings || m > |waiting|))
      && (signal !in fired && ch !in t.pipes.closings ==>
            && Buffer(r, ch) == waiting + Copies(payload, Min(m, Room(ch.capacity, waiting)))
            && ch !in r.closings)
      && (signal !in fired && ch in t.pipes.closings && m > 0 ==> r.crashed)
  {
    var list := ListOf(t.subs, k);
    forall j | 0 <= j < |list| && list[j].ch == ch
      ensures list[j].signal == signal
    {
      assert list[j] in list;
    }
    ListSwept(t.pipes, list, fired, payload, ch, signal);
  }

  lemma {:induction false} SomeRegistration(list: seq<Sub>, n: nat, ch: Chan) returns (i: nat)
    requires n <= |list| && Registrations(list, n, ch) > 0
    ensures i < n && list[i].ch == ch
  {
    if list[n - 1].ch == ch {
      i := n - 1;
    } else {
      i := SomeRegistration(list, n - 1, ch);
    }
  }

  /** A signalled channel that holds one message and is registered twice loses it to the first visit
      and is closed by the second. */
  lemma {:induction false} DrainedThenClosed(k: Key, ch: Chan, signal: Signal, waiting: string, payload: string)
    ensures var t := Registered(EMPTY_TABLE, ch, signal, [k, k]);
      var r := Swept(t.(pipes := t.pipes.(buffers := map[ch := [waiting]])), k, {signal}, payload).pipes;
      ch in r.closings && Buffer(r, ch) == []
  {
    var t := RegisteredTwice(k, ch, signal);
    var list := t.subs[k];
    assert Registrations(list, 1, ch) == 1;
    assert Registrations(list, 2, ch) == 2;
    ChannelSwept(t.(pipes := t.pipes.(buffers := map[ch := [waiting]])), k, {signal}, payload, ch, signal);
  }

  lemma {:induction false} RegisteredTwice(k: Key, ch: Chan, signal: Signal) returns (t: Table)
    ensures t == Registered(EMPTY_TABLE, ch, signal, [k, k])
    ensures t.subs == map[k := [Sub(0, ch, signal), Sub(1, ch, signal)]] && t.pipes == EMPTY_TABLE.pipes
  {
    t := Registered(EMPTY_TABLE, ch, signal, [k, k]);
    assert [k, k][1..] == [k];
    var once := Registered(EMPTY_TABLE, ch, signal, [k]);
    RegisterOne(EMPTY_TABLE, ch, signal, k);
    RegisterOne(once, ch, signal, k);
    assert t == Registered(once, ch, signal, [k]);
    assert [] + [Sub(0, ch, signal)] + [Sub(1, ch, signal)] == [Sub(0, ch, signal), Sub(1, ch, signal)];
  }

  // ---------------------------------------------------------------- RemoveChannel

  predicate Mentions(list: seq<Sub>, ch: Chan) {
    exists i :: 0 <= i < |list| && list[i].ch == ch
  }

  predicate MentionsTwice(list: seq<Sub>, ch: Chan) {
    exists i, j :: 0 <= i < j < |list| && list[i].ch == ch && list[j].ch == ch
  }

  lemma {:induction false} WithoutFirstMentions(list: seq<Sub>, ch: Chan)
    ensures Mentions(WithoutFirst(list, ch), ch) <==> MentionsTwice(list, ch)
  {
    var i := FirstOf(list, ch);
    if i < |list| {
      var r := SwapRemove(list, i);
      var n := |list| - 1;
      if MentionsTwice(list, ch) {
        var a, b :| 0 <= a < b < |list| && list[a].ch == ch && list[b].ch == ch;
        assert i < b;
        assert r[if b == n then i else b].ch == ch;
      }
      if Mentions(r, ch) {
        var j :| 0 <= j < |r| && r[j].ch == ch;
        assert list[if j == i then n else j].ch == ch;
      }
    }
  }

  /** `RemoveChannel` is documented to remove all subscriptions with the channel. It does exactly
      when no key holds the channel twice, since it drops one registration per key. */
  lemma {:induction false} RemoveChannelRemovesAllIff(t: Table, ch: Chan)
    requires Upstream(t)
    ensures (forall k | k in ChannelRemoved(t, ch).subs :: !Mentions(ChannelRemoved(t, ch).subs[k], ch))
      <==> (forall k | k in t.subs :: !MentionsTwice(t.subs[k], ch))
  {
    var r := ChannelRemoved(t, ch);
    forall k | k in t.subs
      ensures k in r.subs && Mentions(r.subs[k], ch) <==> MentionsTwice(t.subs[k], ch)
    {
      WithoutFirstMentions(t.subs[k], ch);
    }
  }

  /** A channel registered twice under one key survives its removal. */
  lemma {:induction false} RegisteredTwiceStays(k: Key, ch: Chan, signal: Signal)
    ensures var t := Registered(EMPTY_TABLE, ch, signal, [k, k]);
      Upstream(t) && exists j :: j in ChannelRemoved(t, ch).subs && Mentions(ChannelRemoved(t, ch).subs[j], ch)
  {
    var t := RegisteredTwice(k, ch, signal);
    assert t.subs[k][0].ch == ch && t.subs[k][1].ch == ch;
    RegisterKeeps(EMPTY_TABLE, ch, signal, [k, k]);
    RemoveChannelRemovesAllIff(t, ch);
  }

  // ---------------------------------------------------------------- what every call keeps

  /** Held upstream is exactly what is stored, and every stored list is nonempty. */
  ghost predicate Upstream(t: Table) {
    && t.upstream == t.subs.Keys
    && forall k | k in t.subs :: t.subs[k] != []
  }

  lemma {:induction false} PutKeeps(t: Table, k: Key, list: seq<Sub>)
    requires Pointers(t) && k in t.subs
    requires Distinct(list) && forall s | s in list :: s in t.subs[k]
    ensures Pointers(Put(t, k, list))
    ensures Upstream(t) ==> Upstream(Put(t, k, list))
    ensures forall j, s | j in Put(t, k, list).subs && s in Put(t, k, list).subs[j] :: j in t.subs && s in t.subs[j]
  {
  }

  /** Nothing is registered in r that was not in t, but for this channel with this signal. */
  ghost predicate OnlyAdds(t: Table, r: Table, ch: Chan, signal: Signal) {
    forall k, s | k in r.subs && s in r.subs[k] :: (k in t.subs && s in t.subs[k]) || (s.ch == ch && s.signal == signal)
  }

  lemma {:induction false} RegisterKeeps(t: Table, ch: Chan, signal: Signal, keys: seq<Key>)
    requires Pointers(t)
    ensures var r := Registered(t, ch, signal, keys);
      && Pointers(r)
      && (Upstream(t) ==> Upstream(r))
      && r.pipes == t.pipes
      && OnlyAdds(t, r, ch, signal)
    decreases |keys|
  {
    if keys != [] {
      var next := RegisteredOne(t, ch, signal, keys[0]);
      RegisterOneKeeps(t, ch, signal, keys[0]);
      RegisterKeeps(next, ch, signal, keys[1..]);
    }
  }

  lemma {:induction false} RegisterOneKeeps(t: Table, ch: Chan, signal: Signal, k: Key)
    requires Pointers(t)
    ensures var r := RegisteredOne(t, ch, signal, k);
      && Pointers(r)
      && (Upstream(t) ==> Upstream(r))
      && OnlyAdds(t, r, ch, signal)
  {
    var list := ListOf(t.subs, k) + [Sub(t.next, ch, signal)];
    assert Distinct(list);
    assert forall s | s in list :: s in ListOf(t.subs, k) || s == Sub(t.next, ch, signal);
  }

  lemma {:induction false} UnregisterKeeps(t: Table, ch: Chan, keys: seq<Key>)
    requires Pointers(t)
    ensures var r := Unregistered(t, ch, keys);
      && Pointers(r)
      && (Upstream(t) ==> Upstream(r))
      && r.pipes == t.pipes
      && (forall k, s | k in r.subs && s in r.subs[k] :: k in t.subs && s in t.subs[k])
    decreases |keys|
  {
    if keys != [] {
      var list := ListOf(t.subs, keys[0]);
      if FirstOf(list, ch) < |list| {
        SwapRemoveDistinct(list, FirstOf(list, ch));
        PutKeeps(t, keys[0], WithoutFirst(list, ch));
        UnregisterKeeps(Put(t, keys[0], WithoutFirst(list, ch)), ch, keys[1..]);
      } else {
        UnregisterKeeps(t, ch, keys[1..]);
      }
    }
  }

  lemma {:induction false} RemoveKeeps(t: Table, ch: Chan)
    requires Pointers(t) && Upstream(t)
    ensures var r := ChannelRemoved(t, ch);
      && Pointers(r) && Upstream(r)
      && (forall k, s | k in r.subs && s in r.subs[k] :: k in t.subs && s in t.subs[k])
  {
    forall k | k in t.subs
      ensures Distinct(WithoutFirst(t.subs[k], ch))
      ensures forall s | s in WithoutFirst(t.subs[k], ch) :: s in t.subs[k]
    {
      var i := FirstOf(t.subs[k], ch);
      if i < |t.subs[k]| {
        SwapRemoveDistinct(t.subs[k], i);
      }
    }
  }

  lemma {:induction false} VisitedKeeps(t: Table, k: Key, i: nat, fired: set<Signal>, payload: string)
    requires Pointers(t) && Upstream(t) && i < |ListOf(t.subs, k)|
    ensures var r := VisitedAt(t, k, i, fired, payload);
      && Pointers(r) && Upstream(r)
      && (forall j, s | j in r.subs && s in r.subs[j] :: j in t.subs && s in t.subs[j])
  {
    var list := ListOf(t.subs, k);
    SwapRemoveDistinct(list, i);
    PutKeeps(t.(pipes := Visit(t.pipes, list[i], fired, payload)), k, LeftBy(list, i, fired));
  }

  lemma {:induction false} RegisterOne(t: Table, ch: Chan, signal: Signal, k: Key)
    ensures Registered(t, ch, signal, [k]) == RegisteredOne(t, ch, signal, k)
  {
    assert [k][1..] == [];
  }

  // ---------------------------------------------------------------- what each call adds and removes

  /** Registering appends one subscriber per mention of the key, with this channel and signal and a
      pointer never used before. */
  lemma {:induction false} RegisterAppends(t: Table, ch: Chan, signal: Signal, keys: seq<Key>, k: Key)
    ensures var a, b := ListOf(t.subs, k), ListOf(Registered(t, ch, signal, keys).subs, k);
      && a <= b && |b| == |a| + multiset(keys)[k]
      && forall j | |a| <= j < |b| :: b[j].ch == ch && b[j].signal == signal && b[j].id >= t.next
    decreases |keys|
  {
    if keys != [] {
      RegisterAppends(RegisteredOne(t, ch, signal, keys[0]), ch, signal, keys[1..], k);
      assert keys == [keys[0]] + keys[1..];
    }
  }

  function Chans(list: seq<Sub>): (r: seq<Chan>)
    ensures |r| == |list|
  {
    seq(|list|, i requires 0 <= i < |list| => list[i].ch)
  }

  /** How often a list names the channel. */
  function Names(list: seq<Sub>, ch: Chan): nat {
    multiset(Chans(list))[ch]
  }

  /** The first registration of the channel goes and nothing else. */
  lemma {:induction false} WithoutFirstEffect(list: seq<Sub>, ch: Chan)
    ensures var r := WithoutFirst(list, ch);
      && (ch !in Chans(list) ==> r == list)
      && (ch in Chans(list) ==>
            var i := FirstOf(list, ch);
            i < |list| && multiset(r) == multiset(list) - multiset{list[i]} && Names(r, ch) == Names(list, ch) - 1)
  {
    var i := FirstOf(list, ch);
    var r := WithoutFirst(list, ch);
    if i < |list| {
      assert Chans(list)[i] == ch;
      SwapRemoveMultiset(list, i);
      SwapRemoveMultiset(Chans(list), i);
      assert Chans(r) == SwapRemove(Chans(list), i);
    }
  }

  /** What one removal leaves of a list: no other channel loses a subscriber. */
  ghost predicate OnlyLoses(a: seq<Sub>, b: seq<Sub>, ch: Chan) {
    multiset(b) <= multiset(a) && forall s: Sub | s.ch != ch :: multiset(b)[s] == multiset(a)[s]
  }

  lemma {:induction false} FirstCounts(keys: seq<Key>, k: Key)
    requires keys != []
    ensures multiset(keys)[k] == multiset(keys[1..])[k] + if keys[0] == k then 1 else 0
  {
    assert keys == [keys[0]] + keys[1..];
  }

  lemma {:induction false} UnregisterOneTakes(t: Table, ch: Chan, key: Key, k: Key)
    ensures var a, b := ListOf(t.subs, k), ListOf(UnregisteredOne(t, ch, key).subs, k);
      && OnlyLoses(a, b, ch)
      && Names(b, ch) == if k == key && Names(a, ch) > 0 then Names(a, ch) - 1 else Names(a, ch)
  {
    var list := ListOf(t.subs, key);
    WithoutFirstEffect(list, ch);
    PutEffect(t, key, WithoutFirst(list, ch));
    if k == key {
      assert ListOf(UnregisteredOne(t, ch, key).subs, k) == WithoutFirst(list, ch);
    }
  }

  /** `Unsubscribe` takes one registration of the channel per mention of the key, as long as there
      are any, and no other channel's. */
  lemma {:induction false} UnregisterTakes(t: Table, ch: Chan, keys: seq<Key>, k: Key)
    ensures var a, b := ListOf(t.subs, k), ListOf(Unregistered(t, ch, keys).subs, k);
      && OnlyLoses(a, b, ch)
      && Names(b, ch) == Names(a, ch) - Min(Names(a, ch), multiset(keys)[k])
    decreases |keys|
  {
    if keys != [] {
      UnregisterOneTakes(t, ch, keys[0], k);
      UnregisterTakes(UnregisteredOne(t, ch, keys[0]), ch, keys[1..], k);
      FirstCounts(keys, k);
    }
  }

  /** `RemoveChannel` takes the first registration of the channel from every key and no other
      channel's. */
  lemma {:induction false} RemoveChannelTakes(t: Table, ch: Chan, k: Key)
    ensures var a, b := ListOf(t.subs, k), ListOf(ChannelRemoved(t, ch).subs, k);
      && OnlyLoses(a, b, ch)
      && Names(b, ch) == Names(a, ch) - Min(Names(a, ch), 1)
  {
    WithoutFirstEffect(ListOf(t.subs, k), ch);
    assert ListOf(ChannelRemoved(t, ch).subs, k) == WithoutFirst(ListOf(t.subs, k), ch);
  }

  lemma {:induction false} OnePointerTakes(t: Table, rsub: Sub, key: Key, k: Key)
    requires Pointers(t)
    ensures Pointers(WithoutPointer(t, rsub, key))
    ensures var a, b := ListOf(t.subs, k), ListOf(WithoutPointer(t, rsub, key).subs, k);
      multiset(b) == if k == key then multiset(a)[rsub := 0] else multiset(a)
  {
    var list := ListOf(t.subs, key);
    DistinctMultiplicity(list, rsub);
    if rsub in list {
      var left := SwapRemove(list, Find(list, rsub));
      SwapRemoveMultiset(list, Find(list, rsub));
      SwapRemoveDistinct(list, Find(list, rsub));
      PutKeeps(t, key, left);
      PutEffect(t, key, left);
    }
  }

  /** Removing a pointer takes it from each named key and takes nothing else. */
  lemma {:induction false} RemovePointerTakes(t: Table, rsub: Sub, keys: seq<Key>, k: Key)
    requires Pointers(t)
    ensures var a, b := ListOf(t.subs, k), ListOf(WithoutPointers(t, rsub, keys).subs, k);
      multiset(b) == if k in keys then multiset(a)[rsub := 0] else multiset(a)
    decreases |keys|
  {
    if keys != [] {
      OnePointerTakes(t, rsub, keys[0], k);
      RemovePointerTakes(WithoutPointer(t, rsub, keys[0]), rsub, keys[1..], k);
      assert k in keys <==> k == keys[0] || k in keys[1..];
    }
  }
}
