/** Any number of sessions, interleaved step by step: subscriptions, routing, dispatch. */
module Server {
  import opened Options
  import opened Slices
  import opened RoutingIndex
  import opened RoutingLaws
  import opened EventMaps
  import opened EventMapLaws
  import opened Dispatch

  datatype State = State(ix: Index, queues: map<SessionId, seq<Wire>>, conns: map<SessionId, Conn>)

  const START := State(EMPTY_INDEX, map[], map[])

  function NewConn(publicId: string): Conn {
    Conn(NEW_EVENT_STATE, {}, publicId, true, false, [], [])
  }

  /** One atomic step: a whole event-map call (it holds its lock across the index call), a
      fan-out, or a dequeued dispatch. Random ids, the map order met by a scan and the order of
      collected matches are chosen by the step. */
  datatype Op =
    | Open(sid: SessionId, publicId: string)
    | Subscribe(sid: SessionId, typ: EventType, condition: Condition, properties: Properties, id: SubId)
    | Unsubscribe(sid: SessionId, typ: EventType, condition: Condition)
    | UnsubscribeWithID(sid: SessionId, ids: seq<SubId>, at: EventType)
    | UnsubscribeWithIDStored(sid: SessionId, ids: seq<SubId>, at: EventType)
    | Destroy(sid: SessionId)
    | Deliver(sid: SessionId, matches: seq<SubId>, ids: seq<SubId>)
    | Shut(sid: SessionId)
    | Attach(sid: SessionId)
    | Publish(subject: Subject, wire: Wire)

  function Pad(ids: seq<SubId>, n: nat): (r: seq<SubId>)
    ensures |r| == n
    ensures forall i | 0 <= i < n && i < |ids| :: r[i] == ids[i]
  {
    seq(n, i => if 0 <= i < |ids| then ids[i] else 0)
  }

  function Head(queue: seq<Wire>): Wire {
    if queue == [] then Garbled else queue[0]
  }

  /** What a step of session sid does to its connection and to the index; w is the message at
      the head of its channel. */
  function TurnStep(lib: Library, sid: SessionId, turn: Turn, w: Wire, op: Op): Turn {
    var c := turn.conn;
    var l := Layer(c.ev, turn.ix);
    match op
    case Subscribe(_, t, cond, props, id) => WithLayer(c, Subscribed(lib, sid, l, t, cond, props, id))
    case Unsubscribe(_, t, cond) => WithLayer(c, Unsubscribed(lib, sid, l, t, cond))
    case UnsubscribeWithID(_, ids, at) => WithLayer(c, WithoutID(lib, sid, l, ids, at))
    case UnsubscribeWithIDStored(_, ids, at) => WithLayer(c, WithoutIDStored(lib, sid, l, ids, at))
    case Destroy(_) => WithLayer(c, Destroyed(sid, l))
    case Deliver(_, matches, ids) =>
      if w.Garbled? then turn else Dispatched(lib, sid, turn, w.payload, matches, Pad(ids, |Added(w.payload)|))
    case Shut(_) => Turn(c.(writable := false), turn.ix)
    case Attach(_) => Turn(c.(buffered := true), turn.ix)
    case Open(_, _) => turn
    case Publish(_, _) => turn
  }

  function WithLayer(c: Conn, l: Layer): Turn {
    Turn(c.(ev := l.ev), l.ix)
  }

  function SessionStep(lib: Library, s: State, sid: SessionId, op: Op): State
    requires sid in s.conns
  {
    var queue := Queue(s.queues, sid);
    var turn := TurnStep(lib, sid, Turn(s.conns[sid], s.ix), Head(queue), op);
    State(turn.ix,
          if op.Deliver? && queue != [] then s.queues[sid := queue[1..]] else s.queues,
          s.conns[sid := turn.conn])
  }

  function Step(lib: Library, s: State, op: Op): State {
    if op.Publish? then s.(queues := RoutingIndex.Deliver(s.queues, Subscribers(s.ix, op.subject), op.wire))
    else if op.Open? then
      if op.sid in s.conns then s else s.(conns := s.conns[op.sid := NewConn(op.publicId)])
    else if op.sid in s.conns then SessionStep(lib, s, op.sid, op) else s
  }

  function RunFrom(lib: Library, s: State, ops: seq<Op>): State {
    if ops == [] then s else Step(lib, RunFrom(lib, s, ops[..|ops| - 1]), ops[|ops| - 1])
  }

  function Run(lib: Library, ops: seq<Op>): State {
    RunFrom(lib, START, ops)
  }

  // ---------------------------------------------------------------- invariants

  function LayerOf(s: State, sid: SessionId): Layer
    requires sid in s.conns
  {
    Layer(s.conns[sid].ev, s.ix)
  }

  ghost predicate StateOk(lib: Library, s: State) {
    && Bijective(s.ix)
    && (forall sid | sid in s.conns :: MapOk(lib, s.conns[sid].ev))
  }

  ghost predicate NoStrangers(s: State) {
    forall sid | sid !in s.conns :: Subjects(s.ix, sid) == []
  }

  // ---------------------------------------------------------------- one step

  /** A session's own step keeps the index and its map sound and leaves the others' routes alone. */
  lemma {:induction false} TurnStepKeeps(lib: Library, sid: SessionId, s: State, op: Op)
    requires lib.Lawful() && StateOk(lib, s) && sid in s.conns
    requires !op.Open? && !op.Publish? && op.sid == sid
    ensures var w := Head(Queue(s.queues, sid));
      var turn := TurnStep(lib, sid, Turn(s.conns[sid], s.ix), w, op);
      && Sound(lib, Layer(turn.conn.ev, turn.ix))
      && OnlyTouches(sid, s.ix, turn.ix)
  {
    var w := Head(Queue(s.queues, sid));
    var l := LayerOf(s, sid);
    match op
    case Subscribe(_, t, cond, props, id) => SubscribeKeeps(lib, sid, l, t, cond, props, id);
    case Unsubscribe(_, t, cond) => UnsubscribeKeeps(lib, sid, l, t, cond);
    case UnsubscribeWithID(_, ids, at) => WithoutIDKeepsIff(lib, sid, l, ids, at);
    case UnsubscribeWithIDStored(_, ids, at) => WithoutIDStoredKeeps(lib, sid, l, ids, at);
    case Destroy(_) => DestroyKeeps(lib, sid, l);
    case Deliver(_, matches, ids) =>
      if w.Encoded? {
        DispatchKeeps(lib, sid, Turn(s.conns[sid], s.ix), w.payload, matches, Pad(ids, |Added(w.payload)|));
      }
    case Shut(_) =>
    case Attach(_) =>
  }

  /** Every step keeps the state sound and forgets no session. A session it is not a step of keeps
      its connection and its routes. */
  lemma {:induction false} StepKeeps(lib: Library, s: State, op: Op)
    requires lib.Lawful() && StateOk(lib, s)
    ensures var r := Step(lib, s, op);
      && StateOk(lib, r)
      && (forall sid | sid in s.conns :: sid in r.conns)
      && (NoStrangers(s) ==> NoStrangers(r))
      && (forall sid | op.Publish? || op.sid != sid :: Subjects(r.ix, sid) == Subjects(s.ix, sid))
      && (forall sid | sid in s.conns && (op.Publish? || op.sid != sid) :: r.conns[sid] == s.conns[sid])
  {
    if !op.Publish? && !op.Open? && op.sid in s.conns {
      SessionStepKeeps(lib, s, op.sid, op);
    }
  }

  lemma {:induction false} SessionStepKeeps(lib: Library, s: State, sid: SessionId, op: Op)
    requires lib.Lawful() && StateOk(lib, s) && sid in s.conns
    requires !op.Open? && !op.Publish? && op.sid == sid
    ensures var r := SessionStep(lib, s, sid, op);
      && StateOk(lib, r)
      && r.conns.Keys == s.conns.Keys
      && OnlyTouches(sid, s.ix, r.ix)
      && (forall other | other in s.conns && other != sid :: r.conns[other] == s.conns[other])
  {
    TurnStepKeeps(lib, sid, s, op);
  }

  // ---------------------------------------------------------------- whole runs: soundness

  /** After any run the index is bijective and every channel of every session is nonempty,
      aligned and free of earlier conditions matching later ones. */
  lemma {:induction false} RunKeepsState(lib: Library, ops: seq<Op>)
    requires lib.Lawful()
    ensures StateOk(lib, Run(lib, ops)) && NoStrangers(Run(lib, ops))
  {
    if ops != [] {
      RunKeepsState(lib, ops[..|ops| - 1]);
      StepKeeps(lib, Run(lib, ops[..|ops| - 1]), ops[|ops| - 1]);
    }
  }

  lemma {:induction false} RunSnoc(lib: Library, ops: seq<Op>, op: Op)
    ensures Run(lib, ops + [op]) == Step(lib, Run(lib, ops), op)
  {
    assert (ops + [op])[..|ops|] == ops;
  }

  // ---------------------------------------------------------------- whole runs: queues

  /** What the session should be offered, told by scanning every session's subject list at each
      publication. */
  function Offered(lib: Library, ops: seq<Op>, sid: SessionId): seq<Wire> {
    if ops == [] then [] else
      var before, op := ops[..|ops| - 1], ops[|ops| - 1];
      Offered(lib, before, sid)
      + (if op.Publish? && sid in NaiveScan(Run(lib, before).ix, op.subject) then [op.wire] else [])
  }

  /** What the session's read loop took from its channel. */
  function Received(lib: Library, ops: seq<Op>, sid: SessionId): seq<Wire> {
    if ops == [] then [] else
      var before, op := ops[..|ops| - 1], ops[|ops| - 1];
      var s := Run(lib, before);
      Received(lib, before, sid)
      + (if op.Deliver? && op.sid == sid && sid in s.conns && Queue(s.queues, sid) != [] then [Queue(s.queues, sid)[0]]
         else [])
  }

  /** How many of its messages found the channel full. */
  function Dropped(lib: Library, ops: seq<Op>, sid: SessionId): nat {
    if ops == [] then 0 else
      var before, op := ops[..|ops| - 1], ops[|ops| - 1];
      var s := Run(lib, before);
      Dropped(lib, before, sid)
      + (if op.Publish? && sid in NaiveScan(s.ix, op.subject) && |Queue(s.queues, sid)| == 10 then 1 else 0)
  }

  /** a is b with some elements left out, order kept. */
  predicate Subsequence<T(==)>(a: seq<T>, b: seq<T>)
    decreases |b|
  {
    || a == []
    || (b != [] && (Subsequence(a, b[..|b| - 1])
                    || (a[|a| - 1] == b[|b| - 1] && Subsequence(a[..|a| - 1], b[..|b| - 1]))))
  }

  lemma {:induction false} SubsequenceGrows<T>(a: seq<T>, b: seq<T>, x: T)
    requires Subsequence(a, b)
    ensures Subsequence(a, b + [x]) && Subsequence(a + [x], b + [x])
  {
    assert (b + [x])[..|b|] == b && (a + [x])[..|a|] == a;
  }

  lemma {:induction false} StepQueue(lib: Library, s: State, op: Op, sid: SessionId)
    requires lib.Lawful() && StateOk(lib, s)
    ensures var q, q' := Queue(s.queues, sid), Queue(Step(lib, s, op).queues, sid);
      q' == if op.Publish? then (if sid in NaiveScan(s.ix, op.subject) && |q| < CAPACITY then q + [op.wire] else q)
            else if op.Deliver? && op.sid == sid && sid in s.conns && q != [] then q[1..] else q
  {
    if op.Publish? {
      FanoutIsNaiveScan(s.ix, op.subject);
      DeliverPointwise(s.queues, Subscribers(s.ix, op.subject), op.wire, sid);
      assert sid in Subscribers(s.ix, op.subject) <==> sid in Elements(Subscribers(s.ix, op.subject));
    }
  }

  predicate Conserved(q: seq<Wire>, received: seq<Wire>, offered: seq<Wire>, dropped: nat) {
    && |q| <= 10
    && Subsequence(received + q, offered)
    && |offered| == |received| + |q| + dropped
  }

  lemma {:induction false} OfferConserves(q: seq<Wire>, received: seq<Wire>, offered: seq<Wire>, dropped: nat, w: Wire)
    requires Conserved(q, received, offered, dropped)
    ensures if |q| < 10 then Conserved(q + [w], received, offered + [w], dropped)
            else Conserved(q, received, offered + [w], dropped + 1)
  {
    SubsequenceGrows(received + q, offered, w);
    assert received + (q + [w]) == received + q + [w];
  }

  lemma {:induction false} TakeConserves(q: seq<Wire>, received: seq<Wire>, offered: seq<Wire>, dropped: nat)
    requires Conserved(q, received, offered, dropped) && q != []
    ensures Conserved(q[1..], received + [q[0]], offered, dropped)
  {
    assert received + [q[0]] + q[1..] == received + q;
  }

  /** Over every run: at most ten messages wait, what was received followed by what waits is an
      in-order part of what was offered, and every offered message was received, waits or was
      dropped. */
  lemma {:induction false} QueuesConserve(lib: Library, ops: seq<Op>, sid: SessionId)
    requires lib.Lawful()
    ensures Conserved(Queue(Run(lib, ops).queues, sid), Received(lib, ops, sid), Offered(lib, ops, sid),
                      Dropped(lib, ops, sid))
  {
    if ops != [] {
      var before, op := ops[..|ops| - 1], ops[|ops| - 1];
      var s := Run(lib, before);
      var q, r := Queue(s.queues, sid), Received(lib, before, sid);
      var o, d := Offered(lib, before, sid), Dropped(lib, before, sid);
      QueuesConserve(lib, before, sid);
      RunKeepsState(lib, before);
      StepQueue(lib, s, op, sid);
      if op.Publish? && sid in NaiveScan(s.ix, op.subject) {
        OfferConserves(q, r, o, d, op.wire);
        assert Received(lib, ops, sid) == r + [] == r;
      } else if op.Deliver? && op.sid == sid && sid in s.conns && q != [] {
        TakeConserves(q, r, o, d);
        assert Offered(lib, ops, sid) == o + [] == o;
      } else {
        assert Offered(lib, ops, sid) == o + [] == o;
        assert Received(lib, ops, sid) == r + [] == r;
      }
    }
  }

  // ---------------------------------------------------------------- whole runs: dedupe

  /** Step n of the run takes p from the session's channel. */
  predicate Takes(lib: Library, ops: seq<Op>, n: nat, sid: SessionId, p: Payload)
    requires n < |ops|
  {
    var s := Run(lib, ops[..n]);
    && ops[n].Deliver? && ops[n].sid == sid && sid in s.conns
    && Head(Queue(s.queues, sid)) == Encoded(p)
  }

  /** Step n writes a frame for a dispatch carrying hash h. */
  ghost predicate WritesHash(lib: Library, ops: seq<Op>, n: nat, sid: SessionId, h: Hash)
    requires n < |ops|
  {
    var s, s' := Run(lib, ops[..n]), Run(lib, ops[..n + 1]);
    && sid in s.conns && sid in s'.conns
    && |s'.conns[sid].frames| > |s.conns[sid].frames|
    && exists p :: Takes(lib, ops, n, sid, p) && p.hash == Some(h)
  }

  /** Step n applies an effect that expires hash h. */
  ghost predicate ExpiresHash(lib: Library, ops: seq<Op>, n: nat, sid: SessionId, h: Hash)
    requires n < |ops|
  {
    var s := Run(lib, ops[..n]);
    sid in s.conns && exists p ::
      && Takes(lib, ops, n, sid, p) && p.effect.Some? && h in p.effect.value.removeHashes
      && Admits(lib, s.conns[sid], p) && (p.hash == None || p.hash.value !in s.conns[sid].seen)
  }

  function Seen(s: State, sid: SessionId): set<Hash> {
    if sid in s.conns then s.conns[sid].seen else {}
  }

  lemma {:induction false} PrefixStep(lib: Library, ops: seq<Op>, n: nat)
    requires n < |ops|
    ensures Run(lib, ops[..n + 1]) == Step(lib, Run(lib, ops[..n]), ops[n])
  {
    assert ops[..n + 1][..n] == ops[..n];
  }

  /** A hash in the seen set stays there until an applied effect expires it. */
  lemma {:induction false} SeenStep(lib: Library, ops: seq<Op>, n: nat, sid: SessionId, h: Hash)
    requires n < |ops| && h in Seen(Run(lib, ops[..n]), sid) && !ExpiresHash(lib, ops, n, sid, h)
    ensures h in Seen(Run(lib, ops[..n + 1]), sid)
  {
    PrefixStep(lib, ops, n);
    var s := Run(lib, ops[..n]);
    var op := ops[n];
    if op.Deliver? && op.sid == sid {
      var w := Head(Queue(s.queues, sid));
      if w.Encoded? {
        assert Takes(lib, ops, n, sid, w.payload);
      }
    }
  }

  lemma {:induction false} SeenPersists(lib: Library, ops: seq<Op>, n: nat, m: nat, sid: SessionId, h: Hash)
    requires n <= m <= |ops| && h in Seen(Run(lib, ops[..n]), sid)
    requires forall k | n <= k < m :: !ExpiresHash(lib, ops, k, sid, h)
    ensures h in Seen(Run(lib, ops[..m]), sid)
    decreases m - n
  {
    if n < m {
      SeenStep(lib, ops, n, sid, h);
      SeenPersists(lib, ops, n + 1, m, sid, h);
    }
  }

  /** A frame goes out for a hashed dispatch only if the hash was not in the seen set, and
      unless the dispatch itself expires the hash it is there afterwards. */
  lemma {:induction false} WriteMarksHash(lib: Library, ops: seq<Op>, n: nat, sid: SessionId, h: Hash)
    requires n < |ops| && WritesHash(lib, ops, n, sid, h)
    ensures h !in Seen(Run(lib, ops[..n]), sid)
    ensures !ExpiresHash(lib, ops, n, sid, h) ==> h in Seen(Run(lib, ops[..n + 1]), sid)
  {
    PrefixStep(lib, ops, n);
    var s := Run(lib, ops[..n]);
    var p :| Takes(lib, ops, n, sid, p) && p.hash == Some(h);
    DispatchOutcome(lib, sid, Turn(s.conns[sid], s.ix), p, ops[n].matches, Pad(ops[n].ids, |Added(p)|));
  }

  /** Between two frames for dispatches carrying the same hash, some applied effect of that
      session expired the hash: the first dispatch's own, or one in between. */
  lemma {:induction false} NoDuplicateWrites(lib: Library, ops: seq<Op>, i: nat, j: nat, sid: SessionId, h: Hash)
    requires i < j < |ops| && WritesHash(lib, ops, i, sid, h) && WritesHash(lib, ops, j, sid, h)
    ensures exists k :: i <= k < j && ExpiresHash(lib, ops, k, sid, h)
  {
    if forall k | i <= k < j :: !ExpiresHash(lib, ops, k, sid, h) {
      WriteMarksHash(lib, ops, i, sid, h);
      WriteMarksHash(lib, ops, j, sid, h);
      SeenPersists(lib, ops, i + 1, j, sid, h);
      assert false;
    }
  }

  /** Step n takes a dispatch carrying hash h. */
  ghost predicate TakesHash(lib: Library, ops: seq<Op>, n: nat, sid: SessionId, h: Hash)
    requires n < |ops|
  {
    exists p :: Takes(lib, ops, n, sid, p) && p.hash == Some(h)
  }

  /** A hash comes to be seen only by taking a dispatch that carries it. */
  lemma {:induction false} UnseenStep(lib: Library, ops: seq<Op>, n: nat, sid: SessionId, h: Hash)
    requires n < |ops| && h !in Seen(Run(lib, ops[..n]), sid) && !TakesHash(lib, ops, n, sid, h)
    ensures h !in Seen(Run(lib, ops[..n + 1]), sid)
  {
    PrefixStep(lib, ops, n);
    var s := Run(lib, ops[..n]);
    var op := ops[n];
    if op.Deliver? && op.sid == sid && sid in s.conns {
      var w := Head(Queue(s.queues, sid));
      if w.Encoded? {
        assert Takes(lib, ops, n, sid, w.payload);
        DispatchOutcome(lib, sid, Turn(s.conns[sid], s.ix), w.payload, op.matches, Pad(op.ids, |Added(w.payload)|));
      }
    }
  }

  lemma {:induction false} UnseenPersists(lib: Library, ops: seq<Op>, n: nat, m: nat, sid: SessionId, h: Hash)
    requires n <= m <= |ops| && h !in Seen(Run(lib, ops[..n]), sid)
    requires forall k | n <= k < m :: !TakesHash(lib, ops, k, sid, h)
    ensures h !in Seen(Run(lib, ops[..m]), sid)
    decreases m - n
  {
    if n < m {
      UnseenStep(lib, ops, n, sid, h);
      UnseenPersists(lib, ops, n + 1, m, sid, h);
    }
  }

  /** A seen hash was carried by a dispatch the session took. */
  lemma {:induction false} SeenWasTaken(lib: Library, ops: seq<Op>, m: nat, sid: SessionId, h: Hash)
    requires m <= |ops| && h in Seen(Run(lib, ops[..m]), sid)
    ensures exists k :: 0 <= k < m && TakesHash(lib, ops, k, sid, h)
  {
    if forall k | 0 <= k < m :: !TakesHash(lib, ops, k, sid, h) {
      assert ops[..0] == [];
      UnseenPersists(lib, ops, 0, m, sid, h);
      assert false;
    }
  }

  lemma {:induction false} ExpiryStep(lib: Library, s: State, op: Op, sid: SessionId, p: Payload, h: Hash)
    requires op.Deliver? && op.sid == sid && sid in s.conns && Head(Queue(s.queues, sid)) == Encoded(p)
    requires p.effect.Some? && h in p.effect.value.removeHashes
    requires Admits(lib, s.conns[sid], p) && (p.hash == None || p.hash.value !in s.conns[sid].seen)
    ensures h !in Seen(Step(lib, s, op), sid)
  {
    var ids := Pad(op.ids, |Added(p)|);
    Applied(lib, sid, Turn(s.conns[sid], s.ix), p, op.matches, ids);
    assert Seen(Step(lib, s, op), sid) == Dispatched(lib, sid, Turn(s.conns[sid], s.ix), p, op.matches, ids).conn.seen;
  }

  lemma {:induction false} ExpiryForgets(lib: Library, ops: seq<Op>, n: nat, sid: SessionId, h: Hash)
    requires n < |ops| && ExpiresHash(lib, ops, n, sid, h)
    ensures h !in Seen(Run(lib, ops[..n + 1]), sid)
  {
    PrefixStep(lib, ops, n);
    var s := Run(lib, ops[..n]);
    var p :| Takes(lib, ops, n, sid, p) && p.effect.Some? && h in p.effect.value.removeHashes
      && Admits(lib, s.conns[sid], p) && (p.hash == None || p.hash.value !in s.conns[sid].seen);
    ExpiryStep(lib, s, ops[n], sid, p, h);
  }

  /** A hash that an applied effect names is unseen from then on, until the session takes another
      dispatch that carries it. */
  lemma {:induction false} ExpiredIsUnseen(lib: Library, ops: seq<Op>, n: nat, m: nat, sid: SessionId, h: Hash)
    requires n < m <= |ops| && ExpiresHash(lib, ops, n, sid, h)
    requires forall k | n < k < m :: !TakesHash(lib, ops, k, sid, h)
    ensures h !in Seen(Run(lib, ops[..m]), sid)
  {
    ExpiryForgets(lib, ops, n, sid, h);
    UnseenPersists(lib, ops, n + 1, m, sid, h);
  }

  // ---------------------------------------------------------------- whole runs: what a connection is

  /** A session starts without entries, hashes and frames, writable and without a buffer. */
  lemma {:induction false} OpensFresh(lib: Library, s: State, sid: SessionId, publicId: string)
    requires sid !in s.conns
    ensures var r := Step(lib, s, Open(sid, publicId));
      && r.ix == s.ix && r.queues == s.queues
      && r.conns == s.conns[sid := Conn(EventState(map[], false), {}, publicId, true, false, [], [])]
  {
  }

  /** Frames once written stay, the id a session goes by never changes, and a session that was shut
      or got a buffer writes no further frame. */
  lemma {:induction false} ConnStep(lib: Library, s: State, op: Op, sid: SessionId)
    requires sid in s.conns
    ensures var c := s.conns[sid]; var r := Step(lib, s, op);
      && sid in r.conns
      && c.frames <= r.conns[sid].frames
      && r.conns[sid].publicId == c.publicId
      && (!c.writable || c.buffered ==>
            r.conns[sid].frames == c.frames && (!r.conns[sid].writable || r.conns[sid].buffered))
  {
  }

  lemma {:induction false} Silent(lib: Library, s: State, ops: seq<Op>, sid: SessionId)
    requires sid in s.conns && (!s.conns[sid].writable || s.conns[sid].buffered)
    ensures var r := RunFrom(lib, s, ops);
      && sid in r.conns && r.conns[sid].frames == s.conns[sid].frames
      && (!r.conns[sid].writable || r.conns[sid].buffered)
  {
    if ops != [] {
      Silent(lib, s, ops[..|ops| - 1], sid);
      ConnStep(lib, RunFrom(lib, s, ops[..|ops| - 1]), ops[|ops| - 1], sid);
    }
  }

  /** Once its connection is shut, or has a buffer, a session's frames stay as they are for good. */
  lemma {:induction false} SilentAfterShut(lib: Library, s: State, op: Op, ops: seq<Op>, sid: SessionId)
    requires sid in s.conns && (op == Shut(sid) || op == Attach(sid))
    ensures var r := RunFrom(lib, Step(lib, s, op), ops); sid in r.conns && r.conns[sid].frames == s.conns[sid].frames
  {
    Silent(lib, Step(lib, s, op), ops, sid);
  }
}
