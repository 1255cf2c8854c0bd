/** The Redis subscriber table: a reverse sweep that removes while iterating, above an upstream
    subscription held once per key.

    Message passing is modelled on buffered channels: a send or receive is ready by the buffer,
    a closed channel is always ready to receive, and sending on one crashes. */
module RedisTable {
  import opened Slices

  type Key = string
  type Signal = nat
  datatype Chan = Chan(id: nat, capacity: nat)

  /** A `*redisSub`; `id` is the pointer's identity, a fresh one per registration. */
  datatype Sub = Sub(id: nat, ch: Chan, signal: Signal)

  /** The channels: what waits in each, which were closed and in what order, and whether a send
      hit a closed one. */
  datatype Pipes = Pipes(buffers: map<Chan, seq<string>>, closings: seq<Chan>, crashed: bool)

  datatype Table = Table(subs: map<Key, seq<Sub>>, upstream: set<Key>, next: nat, pipes: Pipes)

  const EMPTY_TABLE := Table(map[], {}, 0, Pipes(map[], [], false))

  function ListOf(subs: map<Key, seq<Sub>>, k: Key): seq<Sub> {
    if k in subs then subs[k] else []
  }

  function Buffer(pipes: Pipes, ch: Chan): seq<string> {
    if ch in pipes.buffers then pipes.buffers[ch] else []
  }

  // ---------------------------------------------------------------- specification

  /** A non-blocking receive that discards what it gets. */
  function Drain(pipes: Pipes, ch: Chan): Pipes {
    if Buffer(pipes, ch) == [] then pipes else pipes.(buffers := pipes.buffers[ch := Buffer(pipes, ch)[1..]])
  }

  /** One visit of the sweep: a signalled subscriber's channel is closed unless it is ready to
      receive, in which case one message is taken off; any other is offered the payload. */
  function Visit(pipes: Pipes, sub: Sub, fired: set<Signal>, payload: string): Pipes {
    if sub.signal in fired then
      if sub.ch in pipes.closings || Buffer(pipes, sub.ch) != [] then Drain(pipes, sub.ch)
      else pipes.(closings := pipes.closings + [sub.ch])
    else if sub.ch in pipes.closings then pipes.(crashed := true)
    else if |Buffer(pipes, sub.ch)| < sub.ch.capacity then
      pipes.(buffers := pipes.buffers[sub.ch := Buffer(pipes, sub.ch) + [payload]])
    else pipes
  }

  /** Visits the subscribers at positions n - 1 down to 0, each once. */
  function VisitDown(pipes: Pipes, list: seq<Sub>, n: nat, fired: set<Signal>, payload: string): Pipes
    requires n <= |list|
    decreases n
  {
    if n == 0 then pipes else VisitDown(Visit(pipes, list[n - 1], fired, payload), list, n - 1, fired, payload)
  }

  /** The list after position i is visited. */
  function LeftBy(list: seq<Sub>, i: nat, fired: set<Signal>): seq<Sub>
    requires i < |list|
  {
    if list[i].signal in fired then SwapRemove(list, i) else list
  }

  /** The list after positions n - 1 down to 0 are visited. */
  function SweepList(list: seq<Sub>, n: nat, fired: set<Signal>): seq<Sub>
    requires n <= |list|
    decreases n
  {
    if n == 0 then list
    else SweepList(LeftBy(list, n - 1, fired), n - 1, fired)
  }

  /** Stores a list, or deletes the key and cancels it upstream when nothing is left. */
  function Put(t: Table, k: Key, list: seq<Sub>): Table {
    if list == [] then t.(subs := t.subs - {k}, upstream := t.upstream - {k}) else t.(subs := t.subs[k := list])
  }

  function Swept(t: Table, k: Key, fired: set<Signal>, payload: string): Table {
    var list := ListOf(t.subs, k);
    var t' := t.(pipes := VisitDown(t.pipes, list, |list|, fired, payload));
    if list == [] then t' else Put(t', k, SweepList(list, |list|, fired))
  }

  /** The subscriber at position i is visited: removed if signalled, its channel seen to. */
  function VisitedAt(t: Table, k: Key, i: nat, fired: set<Signal>, payload: string): Table
    requires i < |ListOf(t.subs, k)|
  {
    var list := ListOf(t.subs, k);
    Put(t.(pipes := Visit(t.pipes, list[i], fired, payload)), k, LeftBy(list, i, fired))
  }

  function WithoutPointer(t: Table, rsub: Sub, k: Key): Table {
    var list := ListOf(t.subs, k);
    if rsub in list then Put(t, k, SwapRemove(list, Find(list, rsub))) else t
  }

  function WithoutPointers(t: Table, rsub: Sub, keys: seq<Key>): Table
    decreases |keys|
  {
    if keys == [] then t else WithoutPointers(WithoutPointer(t, rsub, keys[0]), rsub, keys[1..])
  }

  function RegisteredOne(t: Table, ch: Chan, signal: Signal, k: Key): Table {
    t.(subs := t.subs[k := ListOf(t.subs, k) + [Sub(t.next, ch, signal)]],
       upstream := if k in t.subs then t.upstream else t.upstream + {k},
       next := t.next + 1)
  }

  function Registered(t: Table, ch: Chan, signal: Signal, keys: seq<Key>): Table
    decreases |keys|
  {
    if keys == [] then t else Registered(RegisteredOne(t, ch, signal, keys[0]), ch, signal, keys[1..])
  }

  /** The first registration of a channel in a list, or the list's length. */
  function FirstOf(list: seq<Sub>, ch: Chan): (i: nat)
    ensures i <= |list|
    ensures forall j | 0 <= j < i :: list[j].ch != ch
    ensures i < |list| ==> list[i].ch == ch
  {
    if list == [] || list[0].ch == ch then 0 else 1 + FirstOf(list[1..], ch)
  }

  function WithoutFirst(list: seq<Sub>, ch: Chan): seq<Sub> {
    var i := FirstOf(list, ch);
    if i < |list| then SwapRemove(list, i) else list
  }

  function UnregisteredOne(t: Table, ch: Chan, k: Key): Table {
    var list := ListOf(t.subs, k);
    if FirstOf(list, ch) < |list| then Put(t, k, WithoutFirst(list, ch)) else t
  }

  function Unregistered(t: Table, ch: Chan, keys: seq<Key>): Table
    decreases |keys|
  {
    if keys == [] then t else Unregistered(UnregisteredOne(t, ch, keys[0]), ch, keys[1..])
  }

  predicate EmptiedBy(list: seq<Sub>, ch: Chan) {
    list != [] && WithoutFirst(list, ch) == []
  }

  /** The channel removed from some keys; told key by key, without an order of visits. */
  function RemovedFrom(t: Table, ch: Chan, done: set<Key>): Table {
    var emptied := set k | k in t.subs && k in done && EmptiedBy(t.subs[k], ch);
    t.(subs := map k | k in t.subs && k !in emptied :: if k in done then WithoutFirst(t.subs[k], ch) else t.subs[k],
       upstream := t.upstream - emptied)
  }

  function ChannelRemoved(t: Table, ch: Chan): Table {
    RemovedFrom(t, ch, t.subs.Keys)
  }

  // ---------------------------------------------------------------- the table object

  class RedisInst {
    var subs: map<Key, seq<Sub>>
    var upstream: set<Key>
    var next: nat
    var pipes: Pipes

    constructor ()
      ensures View() == EMPTY_TABLE
    {
      subs, upstream, next, pipes := map[], {}, 0, EMPTY_TABLE.pipes;
    }

    function View(): Table
      reads this
    {
      Table(subs, upstream, next, pipes)
    }

    /** Lists under a key hold different pointers. */
    ghost predicate Valid()
      reads this
    {
      Pointers(View())
    }

    method EventsSubscribe(ch: Chan, signal: Signal, subscribeTo: seq<Key>)
      modifies this
      ensures View() == Registered(old(View()), ch, signal, subscribeTo)
    {
      for j := 0 to |subscribeTo|
        invariant Registered(View(), ch, signal, subscribeTo[j..]) == Registered(old(View()), ch, signal, subscribeTo)
      {
        var e := subscribeTo[j];
        assert subscribeTo[j..][1..] == subscribeTo[j + 1..];
        if e !in subs {
          upstream := upstream + {e};
        }
        subs := subs[e := (if e in subs then subs[e] else []) + [Sub(next, ch, signal)]];
        next := next + 1;
      }
    }

    method EventsUnsubscribe(rsub: Sub, subscribeTo: seq<Key>)
      modifies this`subs, this`upstream
      ensures View() == WithoutPointers(old(View()), rsub, subscribeTo)
    {
      for j := 0 to |subscribeTo|
        invariant WithoutPointers(View(), rsub, subscribeTo[j..]) == WithoutPointers(old(View()), rsub, subscribeTo)
      {
        assert subscribeTo[j..][1..] == subscribeTo[j + 1..];
        RemovePointer(rsub, subscribeTo[j]);
      }
    }

    /** The body of the loop: finds the pointer in the key's list and removes it. */
    method RemovePointer(rsub: Sub, key: Key)
      modifies this`subs, this`upstream
      ensures View() == WithoutPointer(old(View()), rsub, key)
    {
      var list := if key in subs then subs[key] else [];
      for i := 0 to |list|
        invariant View() == old(View())
        invariant forall j | 0 <= j < i :: list[j] != rsub
      {
        if list[i] != rsub {
          continue;
        }
        assert Find(list, rsub) == i;
        subs := subs[key := SwapRemove(list, i)];
        if |subs[key]| == 0 {
          subs := subs - {key};
          upstream := upstream - {key};
        }
        return;
      }
    }

    method Unsubscribe(ch: Chan, subscribeTo: seq<Key>)
      modifies this`subs, this`upstream
      ensures View() == Unregistered(old(View()), ch, subscribeTo)
    {
      for j := 0 to |subscribeTo|
        invariant Unregistered(View(), ch, subscribeTo[j..]) == Unregistered(old(View()), ch, subscribeTo)
      {
        assert subscribeTo[j..][1..] == subscribeTo[j + 1..];
        RemoveFirst(ch, subscribeTo[j]);
      }
    }

    /** The loop body shared by `Unsubscribe` and `RemoveChannel`. */
    method RemoveFirst(ch: Chan, key: Key)
      modifies this`subs, this`upstream
      ensures View() == UnregisteredOne(old(View()), ch, key)
    {
      var list := if key in subs then subs[key] else [];
      for i := 0 to |list|
        invariant View() == old(View())
        invariant forall j | 0 <= j < i :: list[j].ch != ch
      {
        if list[i].ch != ch {
          continue;
        }
        assert FirstOf(list, ch) == i;
        subs := subs[key := SwapRemove(list, i)];
        if |subs[key]| == 0 {
          subs := subs - {key};
          upstream := upstream - {key};
        }
        return;
      }
    }

    method RemoveChannel(ch: Chan)
      modifies this`subs, this`upstream
      ensures View() == ChannelRemoved(old(View()), ch)
    {
      var keys := subs.Keys;
      ghost var t0 := View();
      NoneRemoved(t0, ch);
      while keys != {}
        invariant keys <= t0.subs.Keys
        invariant View() == RemovedFrom(t0, ch, t0.subs.Keys - keys)
        decreases keys
      {
        var key :| key in keys;
        RemovedStep(t0, ch, t0.subs.Keys - keys, key);
        assert t0.subs.Keys - keys + {key} == t0.subs.Keys - (keys - {key});
        keys := keys - {key};
        RemoveFirst(ch, key);
      }
      assert t0.subs.Keys - keys == t0.subs.Keys;
    }

    /** One turn of the reverse walk: remove the subscriber if it is signalled, then see to its
        channel. */
    method VisitAt(key: Key, i: nat, fired: set<Signal>, payload: string)
      requires key in subs && i < |subs[key]| && Distinct(subs[key])
      modifies this`subs, this`upstream, this`pipes
      ensures View() == VisitedAt(old(View()), key, i, fired, payload)
    {
      var sub := subs[key][i];
      if sub.signal in fired {
        SweepIteration(subs[key], i);
        OnePointer(View(), sub, key);
        EventsUnsubscribe(sub, [key]);
      }
      pipes := Visit(pipes, sub, fired, payload);
    }

    /** The body of the loop in `WrapRedis` for one message: a reverse walk that removes the
        signalled subscribers as it goes. */
    method Sweep(key: Key, fired: set<Signal>, payload: string)
      requires Valid()
      modifies this`subs, this`upstream, this`pipes
      ensures View() == Swept(old(View()), key, fired, payload)
    {
      var i := |if key in subs then subs[key] else []| - 1;
      ghost var t0 := View();
      while i >= 0
        invariant Walking(t0, View(), key, i + 1, fired, payload)
      {
        WalkStep(t0, View(), key, i, fired, payload);
        VisitAt(key, i, fired, payload);
        i := i - 1;
      }
    }
  }

  /** Where the walk of a sweep that began in t0 stands, with positions below n still to be visited. */
  ghost predicate Walking(t0: Table, t: Table, key: Key, n: int, fired: set<Signal>, payload: string) {
    var list0, list := ListOf(t0.subs, key), ListOf(t.subs, key);
    && 0 <= n <= |list0| && n <= |list|
    && Distinct(list) && (forall j | 0 <= j < n :: list[j] == list0[j])
    && SweepList(list, n, fired) == SweepList(list0, |list0|, fired)
    && VisitDown(t.pipes, list0, n, fired, payload) == VisitDown(t0.pipes, list0, |list0|, fired, payload)
    && t.(pipes := t0.pipes) == if list0 == [] then t0 else Put(t0, key, list)
  }

  lemma {:induction false} WalkStep(t0: Table, t: Table, key: Key, i: nat, fired: set<Signal>, payload: string)
    requires Walking(t0, t, key, i + 1, fired, payload)
    ensures Walking(t0, VisitedAt(t, key, i, fired, payload), key, i, fired, payload)
  {
    var list := ListOf(t.subs, key);
    SweepIteration(list, i);
    PutAgain(t0, key, list, LeftBy(list, i, fired));
    assert ListOf(VisitedAt(t, key, i, fired, payload).subs, key) == LeftBy(list, i, fired);
  }

  /** One visit of the reverse walk leaves the positions still to be visited untouched. */
  lemma {:induction false} SweepIteration(list: seq<Sub>, i: nat)
    requires i < |list| && Distinct(list)
    ensures Distinct(SwapRemove(list, i)) && i <= |SwapRemove(list, i)|
    ensures forall j | 0 <= j < i :: SwapRemove(list, i)[j] == list[j]
    ensures Find(list, list[i]) == i
  {
    SwapRemoveDistinct(list, i);
  }

  lemma {:induction false} OnePointer(t: Table, rsub: Sub, k: Key)
    ensures WithoutPointers(t, rsub, [k]) == WithoutPointer(t, rsub, k)
  {
    assert [k][1..] == [];
    assert WithoutPointers(WithoutPointer(t, rsub, k), rsub, []) == WithoutPointer(t, rsub, k);
  }

  lemma {:induction false} NoneRemoved(t: Table, ch: Chan)
    ensures RemovedFrom(t, ch, t.subs.Keys - t.subs.Keys) == t
  {
    assert RemovedFrom(t, ch, t.subs.Keys - t.subs.Keys).subs == t.subs;
  }

  lemma {:induction false} RemovedStep(t: Table, ch: Chan, done: set<Key>, key: Key)
    requires key in t.subs && key !in done
    ensures var now := RemovedFrom(t, ch, done);
      && ListOf(now.subs, key) == t.subs[key]
      && RemovedFrom(t, ch, done + {key})
         == (if FirstOf(t.subs[key], ch) < |t.subs[key]| then Put(now, key, WithoutFirst(t.subs[key], ch)) else now)
  {
    var now, list := RemovedFrom(t, ch, done), t.subs[key];
    var r := if FirstOf(list, ch) < |list| then Put(now, key, WithoutFirst(list, ch)) else now;
    assert RemovedFrom(t, ch, done + {key}).subs == r.subs;
    assert RemovedFrom(t, ch, done + {key}).upstream == r.upstream;
  }

  lemma {:induction false} PutAgain(t: Table, k: Key, list: seq<Sub>, list': seq<Sub>)
    requires list != []
    ensures Put(Put(t, k, list), k, list') == Put(t, k, list')
  {
  }

  /** Pointers are fresh and no list holds one twice. */
  ghost predicate Pointers(t: Table) {
    forall k | k in t.subs :: Distinct(t.subs[k]) && forall s | s in t.subs[k] :: s.id < t.next
  }
}
