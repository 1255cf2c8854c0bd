/** The Redis subscriber table over whole runs, in which close signals fire and receivers take
    messages at any moment, also in the middle of a sweep. */
module RedisRuns {
  import opened Options
  import opened Slices
  import opened RedisTable
  import opened RedisLaws

  /** A sweep that holds the mutex, with the positions below n still to be visited. */
  datatype Walk = Walk(key: Key, n: nat, payload: string)

  datatype World = World(table: Table, fired: set<Signal>, walk: Option<Walk>)

  const START := World(EMPTY_TABLE, {}, None)

  datatype Op =
    | Register(ch: Chan, signal: Signal, keys: seq<Key>)
    | Unregister(ch: Chan, keys: seq<Key>)
    | Remove(ch: Chan)
    | Message(key: Key, payload: string)
    | VisitNext
    | Fire(signal: Signal)
    | Take(ch: Chan)

  /** What the sweep does next. None stands for an index out of range. */
  function VisitStep(w: World, walk: Walk): Option<World> {
    if walk.n == 0 || walk.n > |ListOf(w.table.subs, walk.key)| then None
    else Some(World(VisitedAt(w.table, walk.key, walk.n - 1, w.fired, walk.payload), w.fired,
                    if walk.n == 1 then None else Some(walk.(n := walk.n - 1))))
  }

  /** Calls and the next message wait while a sweep holds the mutex; signals and receivers do not. */
  function Step(w: World, op: Op): World {
    match op
    case Fire(signal) => w.(fired := w.fired + {signal})
    case Take(ch) => w.(table := w.table.(pipes := Drain(w.table.pipes, ch)))
    case VisitNext =>
      if w.walk == None || VisitStep(w, w.walk.value) == None then w else VisitStep(w, w.walk.value).value
    case _ => if w.walk != None then w else Call(w, op)
  }

  function Call(w: World, op: Op): World
    requires op.Register? || op.Unregister? || op.Remove? || op.Message?
  {
    match op
    case Register(ch, signal, keys) => w.(table := Registered(w.table, ch, signal, keys))
    case Unregister(ch, keys) => w.(table := Unregistered(w.table, ch, keys))
    case Remove(ch) => w.(table := ChannelRemoved(w.table, ch))
    case Message(key, payload) =>
      var n := |ListOf(w.table.subs, key)|;
      if n == 0 then w else w.(walk := Some(Walk(key, n, payload)))
  }

  function RunFrom(w: World, ops: seq<Op>): World {
    if ops == [] then w else Step(RunFrom(w, ops[..|ops| - 1]), ops[|ops| - 1])
  }

  function Run(ops: seq<Op>): World {
    RunFrom(START, ops)
  }

  /** At any moment, also amid a sweep, a signal may fire, once and for all, and a receiver takes
      the message at the front of its channel, if there is one. */
  lemma {:induction false} OthersMove(w: World, signal: Signal, ch: Chan)
    ensures Step(w, Fire(signal)) == World(w.table, w.fired + {signal}, w.walk)
    ensures var r := Step(w, Take(ch)); var waiting := Buffer(w.table.pipes, ch);
      && Buffer(r.table.pipes, ch) == (if waiting == [] then [] else waiting[1..])
      && (forall other | other != ch :: Buffer(r.table.pipes, other) == Buffer(w.table.pipes, other))
      && r.table.pipes.closings == w.table.pipes.closings && r.table.pipes.crashed == w.table.pipes.crashed
      && r.table.(pipes := w.table.pipes) == w.table && r.fired == w.fired && r.walk == w.walk
  {
  }

  // ---------------------------------------------------------------- what every run keeps

  /** A sweep under way is in bounds. */
  ghost predicate InBounds(w: World) {
    w.walk.Some? ==> VisitStep(w, w.walk.value).Some?
  }

  ghost predicate Sound(w: World) {
    && Pointers(w.table) && Upstream(w.table) && InBounds(w)
    && Distinct(w.table.pipes.closings)
  }

  lemma {:induction false} StepKeeps(w: World, op: Op)
    requires Sound(w)
    ensures Sound(Step(w, op))
  {
    if op.VisitNext? {
      if w.walk.Some? {
        VisitKeeps(w);
      }
    } else if !op.Fire? && !op.Take? && w.walk == None {
      CallKeeps(w, op);
    }
  }

  lemma {:induction false} VisitKeeps(w: World)
    requires Sound(w) && w.walk.Some?
    ensures Sound(Step(w, VisitNext))
  {
    var walk := w.walk.value;
    VisitedKeeps(w.table, walk.key, walk.n - 1, w.fired, walk.payload);
    VisitLeaves(w, walk);
  }

  lemma {:induction false} CallKeeps(w: World, op: Op)
    requires Sound(w) && w.walk == None && (op.Register? || op.Unregister? || op.Remove? || op.Message?)
    ensures Sound(Call(w, op))
    ensures forall k, s | k in Call(w, op).table.subs && s in Call(w, op).table.subs[k] ::
      (k in w.table.subs && s in w.table.subs[k]) || (op.Register? && s.ch == op.ch && s.signal == op.signal)
    ensures Call(w, op).table.pipes == w.table.pipes && Call(w, op).fired == w.fired
  {
    match op
    case Register(ch, signal, keys) => RegisterKeeps(w.table, ch, signal, keys);
    case Unregister(ch, keys) => UnregisterKeeps(w.table, ch, keys);
    case Remove(ch) => RemoveKeeps(w.table, ch);
    case Message(_, _) =>
  }

  /** What a visit leaves under the key. */
  lemma {:induction false} VisitLeaves(w: World, walk: Walk)
    requires VisitStep(w, walk).Some?
    ensures var list := ListOf(w.table.subs, walk.key);
      ListOf(VisitStep(w, walk).value.table.subs, walk.key) == LeftBy(list, walk.n - 1, w.fired)
  {
    var list := ListOf(w.table.subs, walk.key);
    PutEffect(w.table.(pipes := Visit(w.table.pipes, list[walk.n - 1], w.fired, walk.payload)), walk.key,
              LeftBy(list, walk.n - 1, w.fired));
  }

  /** In every state of every run, also amid a sweep: the keys held upstream are exactly the stored
      ones, no stored list is empty or holds a pointer twice, the sweep is in bounds, and no
      channel was closed twice. */
  lemma {:induction false} RunKeepsUpstream(ops: seq<Op>)
    ensures Sound(Run(ops))
  {
    if ops != [] {
      RunKeepsUpstream(ops[..|ops| - 1]);
      StepKeeps(Run(ops[..|ops| - 1]), ops[|ops| - 1]);
    }
  }

  // ---------------------------------------------------------------- one sweep

  function VisitTimes(w: World, n: nat): World
    decreases n
  {
    if n == 0 then w else VisitTimes(Step(w, VisitNext), n - 1)
  }

  /** A message and its visits, when nothing comes between them, are the sweep of the loop. */
  lemma {:induction false} UndisturbedSweep(w: World, key: Key, payload: string)
    requires w.walk == None && Pointers(w.table)
    ensures var n := |ListOf(w.table.subs, key)|;
      VisitTimes(Step(w, Message(key, payload)), n) == w.(table := Swept(w.table, key, w.fired, payload))
  {
    var n := |ListOf(w.table.subs, key)|;
    if n > 0 {
      VisitsSweep(w.(walk := Some(Walk(key, n, payload))), key, n, payload);
    }
  }

  /** The table once the positions below n are visited without a pause. */
  function Finished(t: Table, key: Key, n: nat, fired: set<Signal>, payload: string): Table
    requires n <= |ListOf(t.subs, key)|
  {
    var list := ListOf(t.subs, key);
    Put(t.(pipes := VisitDown(t.pipes, list, n, fired, payload)), key, SweepList(list, n, fired))
  }

  lemma {:induction false} FinishAfterVisit(t: Table, key: Key, n: nat, fired: set<Signal>, payload: string)
    requires 1 < n <= |ListOf(t.subs, key)|
    ensures var next := VisitedAt(t, key, n - 1, fired, payload);
      && n - 1 <= |ListOf(next.subs, key)|
      && Finished(next, key, n - 1, fired, payload) == Finished(t, key, n, fired, payload)
  {
    var list := ListOf(t.subs, key);
    var left := LeftBy(list, n - 1, fired);
    var seen := Visit(t.pipes, list[n - 1], fired, payload);
    PutEffect(t.(pipes := seen), key, left);
    VisitPrefix(seen, left, list, n - 1, fired, payload);
    PutAgain(t.(pipes := VisitDown(t.pipes, list, n, fired, payload)), key, left, SweepList(left, n - 1, fired));
  }

  lemma {:induction false} VisitsSweep(w: World, key: Key, n: nat, payload: string)
    requires 0 < n <= |ListOf(w.table.subs, key)| && w.walk == Some(Walk(key, n, payload))
    ensures VisitTimes(w, n) == World(Finished(w.table, key, n, w.fired, payload), w.fired, None)
    decreases n
  {
    var next := Step(w, VisitNext);
    if n > 1 {
      FinishAfterVisit(w.table, key, n, w.fired, payload);
      VisitsSweep(next, key, n - 1, payload);
    } else {
      LastVisit(w.table, key, w.fired, payload);
      assert VisitTimes(next, 0) == next;
    }
  }

  lemma {:induction false} LastVisit(t: Table, key: Key, fired: set<Signal>, payload: string)
    requires ListOf(t.subs, key) != []
    ensures VisitedAt(t, key, 0, fired, payload) == Finished(t, key, 1, fired, payload)
  {
    var list := ListOf(t.subs, key);
    var seen := Visit(t.pipes, list[0], fired, payload);
    assert VisitDown(seen, list, 0, fired, payload) == seen;
    assert SweepList(LeftBy(list, 0, fired), 0, fired) == LeftBy(list, 0, fired);
  }

  /** Counting from a message for a key with subscribers, the sweep is not over before the last op. */
  ghost predicate Underway(w: World, ops: seq<Op>) {
    ops == [] || (Underway(w, ops[..|ops| - 1]) && RunFrom(w, ops[..|ops| - 1]).walk.Some?)
  }

  /** How many positions are still to be visited. */
  function ToVisit(w: World): nat {
    if w.walk.Some? then w.walk.value.n else 0
  }

  /** Where a sweep stands that found `list` under the key and the signals `before` fired. */
  ghost predicate Progress(w: World, key: Key, list: seq<Sub>, before: set<Signal>) {
    var now := ListOf(w.table.subs, key);
    && before <= w.fired
    && (w.walk.Some? ==> w.walk.value.key == key)
    && ToVisit(w) <= |list| && ToVisit(w) <= |now|
    && Distinct(now)
    && (forall j | 0 <= j < ToVisit(w) :: now[j] == list[j])
    && (forall s | s in now :: s in list)
    && (forall j | ToVisit(w) <= j < |list| && list[j].signal in before :: list[j] !in now)
    && (forall j | 0 <= j < |list| && list[j].signal !in w.fired :: list[j] in now)
  }

  /** A sweep disturbed in any way by signals, receivers and waiting calls: once it is over, of the
      subscribers it found it has kept all whose signal has not fired and none whose signal had
      fired when it began, and nobody else is under the key. */
  lemma {:induction false} DisturbedSweep(w: World, key: Key, payload: string, ops: seq<Op>)
    requires Sound(w) && w.walk == None && ListOf(w.table.subs, key) != []
    requires Underway(Step(w, Message(key, payload)), ops)
    ensures Progress(RunFrom(Step(w, Message(key, payload)), ops), key, ListOf(w.table.subs, key), w.fired)
    ensures Sound(RunFrom(Step(w, Message(key, payload)), ops))
  {
    var list := ListOf(w.table.subs, key);
    var start := Step(w, Message(key, payload));
    if ops == [] {
      assert forall j | 0 <= j < |list| :: list[j] in list;
    } else {
      DisturbedSweep(w, key, payload, ops[..|ops| - 1]);
      StepKeeps(RunFrom(start, ops[..|ops| - 1]), ops[|ops| - 1]);
      StepProgress(RunFrom(start, ops[..|ops| - 1]), ops[|ops| - 1], key, list, w.fired);
    }
  }

  lemma {:induction false} StepProgress(w: World, op: Op, key: Key, list: seq<Sub>, before: set<Signal>)
    requires InBounds(w) && w.walk.Some? && Distinct(list) && Progress(w, key, list, before)
    ensures Progress(Step(w, op), key, list, before)
  {
    if op.VisitNext? {
      VisitProgress(w, key, list, before);
    }
  }

  lemma {:induction false} VisitProgress(w: World, key: Key, list: seq<Sub>, before: set<Signal>)
    requires InBounds(w) && w.walk.Some? && Distinct(list) && Progress(w, key, list, before)
    ensures Progress(Step(w, VisitNext), key, list, before)
  {
    var now := ListOf(w.table.subs, key);
    var i := w.walk.value.n - 1;
    VisitLeaves(w, w.walk.value);
    SwapRemoveDistinct(now, i);
    assert now[i] == list[i];
  }

  // ---------------------------------------------------------------- sends on closed channels

  /** Nothing crashed, and a closed channel's signal has fired, where the signal of a channel is the
      one every registration gives it. */
  ghost predicate Safe(w: World, signalOf: Chan -> Signal) {
    && !w.table.pipes.crashed
    && (forall k, s | k in w.table.subs && s in w.table.subs[k] :: s.signal == signalOf(s.ch))
    && (forall ch | ch in w.table.pipes.closings :: signalOf(ch) in w.fired)
  }

  /** When every registration of a channel names the same close signal, no run sends on a closed
      channel, even with one channel under many keys or many times under one. */
  lemma {:induction false} RunIsSafe(ops: seq<Op>, signalOf: Chan -> Signal)
    requires forall op | op in ops && op.Register? :: op.signal == signalOf(op.ch)
    ensures Safe(Run(ops), signalOf)
  {
    if ops != [] {
      var before := ops[..|ops| - 1];
      assert forall op | op in before :: op in ops;
      assert ops[|ops| - 1] in ops;
      RunIsSafe(before, signalOf);
      RunKeepsUpstream(before);
      StepIsSafe(Run(before), ops[|ops| - 1], signalOf);
    }
  }

  lemma {:induction false} StepIsSafe(w: World, op: Op, signalOf: Chan -> Signal)
    requires Safe(w, signalOf) && Sound(w)
    requires op.Register? ==> op.signal == signalOf(op.ch)
    ensures Safe(Step(w, op), signalOf)
  {
    if op.VisitNext? {
      if w.walk.Some? {
        VisitIsSafe(w, signalOf);
      }
    } else if !op.Fire? && !op.Take? && w.walk == None {
      CallKeeps(w, op);
    }
  }

  lemma {:induction false} VisitIsSafe(w: World, signalOf: Chan -> Signal)
    requires Safe(w, signalOf) && Sound(w) && w.walk.Some?
    ensures Safe(Step(w, VisitNext), signalOf)
  {
    var walk := w.walk.value;
    var list := ListOf(w.table.subs, walk.key);
    assert list[walk.n - 1] in list;
    VisitedKeeps(w.table, walk.key, walk.n - 1, w.fired, walk.payload);
  }

  /** One channel under two keys with different signals, of which the first fires: the sweep of the
      one closes the channel and the sweep of the other sends on it. */
  function MixedSignals(a: Key, b: Key, ch: Chan, s1: Signal, s2: Signal): seq<Op> {
    [Register(ch, s1, [a]), Register(ch, s2, [b]), Fire(s1), Message(a, "x"), VisitNext, Message(b, "y"), VisitNext]
  }

  lemma {:induction false} MixedSignalsCrash(a: Key, b: Key, ch: Chan, s1: Signal, s2: Signal)
    requires a != b && s1 != s2
    ensures Run(MixedSignals(a, b, ch, s1, s2)).table.pipes.crashed
  {
    var ops := MixedSignals(a, b, ch, s1, s2);
    var r1, r2 := Sub(0, ch, s1), Sub(1, ch, s2);
    var t := Table(map[a := [r1], b := [r2]], {a, b}, 2, EMPTY_TABLE.pipes);
    MixedStart(a, b, ch, s1, s2);
    var closed := Pipes(map[], [ch], false);
    OneStep(ops, 3);
    OneStep(ops, 4);
    assert Run(ops[..4]) == World(t, {s1}, Some(Walk(a, 1, "x")));
    assert Run(ops[..5]) == World(Table(map[b := [r2]], {b}, 2, closed), {s1}, None);
    OneStep(ops, 5);
    OneStep(ops, 6);
    assert Run(ops[..6]) == World(Table(map[b := [r2]], {b}, 2, closed), {s1}, Some(Walk(b, 1, "y")));
    assert ops[..7] == ops;
  }

  lemma {:induction false} MixedStart(a: Key, b: Key, ch: Chan, s1: Signal, s2: Signal)
    requires a != b
    ensures Run(MixedSignals(a, b, ch, s1, s2)[..3])
      == World(Table(map[a := [Sub(0, ch, s1)], b := [Sub(1, ch, s2)]], {a, b}, 2, EMPTY_TABLE.pipes), {s1}, None)
  {
    var ops := MixedSignals(a, b, ch, s1, s2);
    assert [] + [Sub(0, ch, s1)] == [Sub(0, ch, s1)] && [] + [Sub(1, ch, s2)] == [Sub(1, ch, s2)];
    assert ops[..0] == [];
    OneStep(ops, 0);
    RegisterOne(EMPTY_TABLE, ch, s1, a);
    assert Run(ops[..1]) == World(Table(map[a := [Sub(0, ch, s1)]], {a}, 1, EMPTY_TABLE.pipes), {}, None);
    OneStep(ops, 1);
    RegisterOne(Run(ops[..1]).table, ch, s2, b);
    OneStep(ops, 2);
  }

  lemma {:induction false} OneStep(ops: seq<Op>, n: nat)
    requires n < |ops|
    ensures Run(ops[..n + 1]) == Step(Run(ops[..n]), ops[n])
  {
    assert ops[..n + 1][..n] == ops[..n];
  }

  /** All registrations of the run are allowed ones. */
  ghost predicate Allowed(ops: seq<Op>, may: (Chan, Signal) -> bool) {
    forall op | op in ops && op.Register? :: may(op.ch, op.signal)
  }

  /** No run of allowed registrations sends on a closed channel, however signals, receivers and
      visits interleave, if and only if each channel is allowed at most one signal. */
  lemma {:induction false} SafeIffOneSignal(may: (Chan, Signal) -> bool)
    ensures (forall ops | Allowed(ops, may) :: !Run(ops).table.pipes.crashed)
      <==> (forall ch, s1, s2 | may(ch, s1) && may(ch, s2) :: s1 == s2)
  {
    if ch, s1, s2 :| may(ch, s1) && may(ch, s2) && s1 != s2 {
      var ops := MixedSignals("a", "b", ch, s1, s2);
      assert Allowed(ops, may);
      MixedSignalsCrash("a", "b", ch, s1, s2);
    } else {
      var signalOf := OnlySignal(may);
      forall ops | Allowed(ops, may)
        ensures !Run(ops).table.pipes.crashed
      {
        RunIsSafe(ops, signalOf);
      }
    }
  }

  ghost function OnlySignal(may: (Chan, Signal) -> bool): (signalOf: Chan -> Signal)
    requires forall ch, s1, s2 | may(ch, s1) && may(ch, s2) :: s1 == s2
    ensures forall ch, s | may(ch, s) :: signalOf(ch) == s
  {
    ch => if exists s: Signal :: may(ch, s) then (var s: Signal :| may(ch, s); s) else 0
  }
}
