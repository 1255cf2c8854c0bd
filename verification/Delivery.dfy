/** End-to-end delivery: from publication under a live entry's key to the frame written. */
module Delivery {
  import opened Options
  import opened Slices
  import opened RoutingIndex
  import opened RoutingLaws
  import opened EventMaps
  import opened EventMapLaws
  import opened EventMapEffects
  import opened Dispatch
  import opened Server
  import opened ServerRoutes

  predicate Taking(op: Op, sid: SessionId) {
    op.Deliver? && op.sid == sid
  }

  /** How many messages the session takes in these steps. */
  function Takings(ops: seq<Op>, sid: SessionId): nat {
    if ops == [] then 0 else Takings(ops[..|ops| - 1], sid) + (if Taking(ops[|ops| - 1], sid) then 1 else 0)
  }

  /** w waits at position p of the session's channel. */
  ghost predicate Waits(lib: Library, s: State, sid: SessionId, p: nat, w: Wire) {
    StateOk(lib, s) && sid in s.conns && p < |Queue(s.queues, sid)| && Queue(s.queues, sid)[p] == w
  }

  lemma {:induction false} FifoStep(lib: Library, s: State, op: Op, sid: SessionId, p: nat, w: Wire)
    requires lib.Lawful() && Waits(lib, s, sid, p, w) && (Taking(op, sid) ==> p > 0)
    ensures Waits(lib, Step(lib, s, op), sid, if Taking(op, sid) then p - 1 else p, w)
  {
    StepKeeps(lib, s, op);
    StepQueue(lib, s, op, sid);
  }

  /** A message at position p of a channel moves up by one with each message taken. */
  lemma {:induction false} Fifo(lib: Library, s: State, ops: seq<Op>, sid: SessionId, p: nat, w: Wire)
    requires lib.Lawful() && Waits(lib, s, sid, p, w) && Takings(ops, sid) <= p
    ensures Waits(lib, RunFrom(lib, s, ops), sid, p - Takings(ops, sid), w)
  {
    if ops != [] {
      var before, op := ops[..|ops| - 1], ops[|ops| - 1];
      var q := p - Takings(before, sid);
      Fifo(lib, s, before, sid, p, w);
      FifoStep(lib, RunFrom(lib, s, before), op, sid, q, w);
    }
  }

  /** A message published under the key of a live entry joins the session's queue, given room, if
      and only if the entry is not stranded. */
  lemma {:induction false} PublishReaches(lib: Library, past: seq<Op>, sid: SessionId, t: EventType, c: Condition,
                                          w: Wire)
    requires lib.Lawful() && LiveIn(Run(lib, past), sid, t, c) && |Queue(Run(lib, past).queues, sid)| < CAPACITY
    ensures var s := Run(lib, past);
      Queue(Step(lib, s, Publish(lib.Key(t, c), w)).queues, sid)
        == Queue(s.queues, sid) + if Stranded(lib, past, sid, t, c) then [] else [w]
  {
    var s := Run(lib, past);
    RunKeepsState(lib, past);
    StepQueue(lib, s, Publish(lib.Key(t, c), w), sid);
    LiveEntriesAreRouted(lib, past, sid, t, c);
    assert sid in NaiveScan(s.ix, lib.Key(t, c)) <==> lib.Key(t, c) in Subjects(s.ix, sid);
    assert Queue(s.queues, sid) + [] == Queue(s.queues, sid);
  }

  /** The session would write p: it holds the i-th entry of p's type for one of p's conditions, has
      not seen the hash, is writable and has no buffer; `matches` is what `Match` collects. */
  ghost predicate WouldWrite(lib: Library, conn: Conn, p: Payload, i: nat, matches: seq<SubId>) {
    && MapOk(lib, conn.ev)
    && p.typ in conn.ev.m && i < |conn.ev.m[p.typ].ids| && i < |conn.ev.m[p.typ].conditions|
    && conn.ev.m[p.typ].conditions[i] in p.conditions
    && (p.hash == None || p.hash.value !in conn.seen)
    && conn.writable && !conn.buffered
    && Elements(matches) == SelectedBy(lib, conn.ev, p.typ, p.conditions)
  }

  lemma {:induction false} WouldWriteAdmits(lib: Library, conn: Conn, p: Payload, i: nat, matches: seq<SubId>)
    requires lib.Lawful() && MapOk(lib, conn.ev) && p.whisper == "" && WouldWrite(lib, conn, p, i, matches)
    ensures Admits(lib, conn, p) && conn.ev.m[p.typ].ids[i] in matches
  {
    LiveEntryMatches(lib, conn.ev, p.typ, i, p.conditions);
    WantedSelects(lib, conn.ev, p);
    assert conn.ev.m[p.typ].ids[i] in Elements(matches);
  }

  /** Taking a message that a live entry answers for writes one frame naming the entry. */
  lemma {:induction false} DeliverWrites(lib: Library, s: State, sid: SessionId, p: Payload, i: nat,
                                         matches: seq<SubId>,
                                         ids: seq<SubId>)
    requires lib.Lawful() && Waits(lib, s, sid, 0, Encoded(p)) && p.whisper == ""
    requires WouldWrite(lib, s.conns[sid], p, i, matches)
    ensures var s' := Step(lib, s, Deliver(sid, matches, ids));
      && s'.conns[sid].frames == s.conns[sid].frames + [Written(p, matches)]
      && s.conns[sid].ev.m[p.typ].ids[i] in matches
  {
    WouldWriteAdmits(lib, s.conns[sid], p, i, matches);
    DispatchOutcome(lib, sid, Turn(s.conns[sid], s.ix), p, matches, Pad(ids, |Added(p)|));
  }

  /** The state in which the message is about to be taken: any steps after its publication. */
  function AtDelivery(lib: Library, past: seq<Op>, t: EventType, c: Condition, p: Payload, ops: seq<Op>): State {
    RunFrom(lib, Step(lib, Run(lib, past), Publish(lib.Key(t, c), Encoded(p))), ops)
  }

  /** It waits behind the messages that were there. */
  lemma {:induction false} PublishedWaits(lib: Library, past: seq<Op>, sid: SessionId, t: EventType, c: Condition,
                                          w: Wire)
    requires lib.Lawful() && LiveIn(Run(lib, past), sid, t, c) && !Stranded(lib, past, sid, t, c)
    requires |Queue(Run(lib, past).queues, sid)| < CAPACITY
    ensures var s := Run(lib, past);
      Waits(lib, Step(lib, s, Publish(lib.Key(t, c), w)), sid, |Queue(s.queues, sid)|, w)
  {
    RunKeepsState(lib, past);
    PublishReaches(lib, past, sid, t, c, w);
    StepKeeps(lib, Run(lib, past), Publish(lib.Key(t, c), w));
  }

  /** A message published under the key of a live entry reaches the head of the session's channel
      when the messages ahead of it are taken. */
  lemma {:induction false} ReachesHead(lib: Library, past: seq<Op>, sid: SessionId, t: EventType, c: Condition,
                                       p: Payload,
                                       ops: seq<Op>)
    requires lib.Lawful() && LiveIn(Run(lib, past), sid, t, c) && !Stranded(lib, past, sid, t, c)
    requires |Queue(Run(lib, past).queues, sid)| < CAPACITY
    requires Takings(ops, sid) == |Queue(Run(lib, past).queues, sid)|
    ensures Waits(lib, AtDelivery(lib, past, t, c, p, ops), sid, 0, Encoded(p))
  {
    var s := Run(lib, past);
    PublishedWaits(lib, past, sid, t, c, Encoded(p));
    Fifo(lib, Step(lib, s, Publish(lib.Key(t, c), Encoded(p))), ops, sid, |Queue(s.queues, sid)|, Encoded(p));
  }

  /** End to end. After any run, publish a message of type t under the key of a live entry (t, c)
      that is not stranded, with room in the session's queue; let anything happen while the
      messages ahead of it are taken. If the session then still holds an entry (t, c), c being one
      of the message's conditions, and would write, then taking the message writes exactly one
      frame, and the matches on it contain the entry's id. */
  lemma {:induction false} EndToEnd(lib: Library, past: seq<Op>, sid: SessionId, t: EventType, c: Condition, p: Payload,
                                    ops: seq<Op>, i: nat, matches: seq<SubId>, ids: seq<SubId>)
    requires lib.Lawful() && LiveIn(Run(lib, past), sid, t, c) && !Stranded(lib, past, sid, t, c)
    requires |Queue(Run(lib, past).queues, sid)| < CAPACITY
    requires p.typ == t && p.whisper == "" && c in p.conditions
    requires Takings(ops, sid) == |Queue(Run(lib, past).queues, sid)|
    requires var s := AtDelivery(lib, past, t, c, p, ops);
      sid in s.conns && WouldWrite(lib, s.conns[sid], p, i, matches) && s.conns[sid].ev.m[t].conditions[i] == c
    ensures var s := AtDelivery(lib, past, t, c, p, ops);
      var s' := Step(lib, s, Deliver(sid, matches, ids));
      && sid in s'.conns
      && |s'.conns[sid].frames| == |s.conns[sid].frames| + 1
      && s.conns[sid].frames <= s'.conns[sid].frames
      && s'.conns[sid].frames[|s.conns[sid].frames|] == Payload(t, [], "", None, None, p.body, matches)
      && s.conns[sid].ev.m[t].ids[i] in matches
  {
    ReachesHead(lib, past, sid, t, c, p, ops);
    DeliverWrites(lib, AtDelivery(lib, past, t, c, p, ops), sid, p, i, matches, ids);
  }

  lemma {:induction false} WhisperWrites(lib: Library, s: State, sid: SessionId, p: Payload, ids: seq<SubId>)
    requires Waits(lib, s, sid, 0, Encoded(p)) && p.whisper != "" && p.whisper == s.conns[sid].publicId
    requires p.hash == None || p.hash.value !in s.conns[sid].seen
    requires s.conns[sid].writable && !s.conns[sid].buffered
    ensures var s' := Step(lib, s, Deliver(sid, [], ids));
      && sid in s'.conns
      && s'.conns[sid].frames == s.conns[sid].frames + [Payload(p.typ, [], "", None, None, p.body, [])]
  {
    DispatchOutcome(lib, sid, Turn(s.conns[sid], s.ix), p, [], Pad(ids, |Added(p)|));
  }

  /** The same for a whisper to this session. It may come under the key of any entry of the session
      that is not stranded, such as the whisper subscription made at start-up, and asks for no
      matching condition. Its frame carries no matches. */
  lemma {:induction false} WhisperEndToEnd(lib: Library, past: seq<Op>, sid: SessionId, t: EventType, c: Condition,
                                           p: Payload,
                                           ops: seq<Op>, ids: seq<SubId>)
    requires lib.Lawful() && LiveIn(Run(lib, past), sid, t, c) && !Stranded(lib, past, sid, t, c)
    requires |Queue(Run(lib, past).queues, sid)| < CAPACITY
    requires Takings(ops, sid) == |Queue(Run(lib, past).queues, sid)|
    requires var s := AtDelivery(lib, past, t, c, p, ops);
      && sid in s.conns && p.whisper != "" && p.whisper == s.conns[sid].publicId
      && (p.hash == None || p.hash.value !in s.conns[sid].seen)
      && s.conns[sid].writable && !s.conns[sid].buffered
    ensures var s := AtDelivery(lib, past, t, c, p, ops);
      var s' := Step(lib, s, Deliver(sid, [], ids));
      && sid in s'.conns
      && s'.conns[sid].frames == s.conns[sid].frames + [Payload(p.typ, [], "", None, None, p.body, [])]
  {
    ReachesHead(lib, past, sid, t, c, p, ops);
    WhisperWrites(lib, AtDelivery(lib, past, t, c, p, ops), sid, p, ids);
  }

  // ---------------------------------------------------------------- nothing but what was published

  /** What the client sees of a dispatch, apart from the matches. */
  datatype Text = Text(typ: EventType, body: string)

  /** The dispatches among some messages. */
  function Decoded(ws: seq<Wire>): seq<Text> {
    if ws == [] then [] else Decoded(ws[..|ws| - 1]) + DecodedOne(ws[|ws| - 1])
  }

  function DecodedOne(w: Wire): seq<Text> {
    if w.Encoded? then [Text(w.payload.typ, w.payload.body)] else []
  }

  function Shown(frames: seq<Payload>): (r: seq<Text>)
    ensures |r| == |frames|
  {
    seq(|frames|, i requires 0 <= i < |frames| => Text(frames[i].typ, frames[i].body))
  }

  function FramesOf(s: State, sid: SessionId): seq<Payload> {
    if sid in s.conns then s.conns[sid].frames else []
  }

  /** A step writes at most one frame, and that for the message it takes. */
  lemma {:induction false} FrameStep(lib: Library, s: State, op: Op, sid: SessionId)
    ensures var fs, fs' := FramesOf(s, sid), FramesOf(Step(lib, s, op), sid); var q := Queue(s.queues, sid);
      || fs' == fs
      || (op.Deliver? && op.sid == sid && sid in s.conns && q != [] && q[0].Encoded?
          && Shown(fs') == Shown(fs) + DecodedOne(q[0]))
  {
    if op.Deliver? && op.sid == sid && sid in s.conns {
      var w := Head(Queue(s.queues, sid));
      if w.Encoded? {
        var p := w.payload;
        DispatchOutcome(lib, sid, Turn(s.conns[sid], s.ix), p, op.matches, Pad(op.ids, |Added(p)|));
      }
    }
  }

  /** Over every run the frames of a session show, in order and each at most once, dispatches that
      the session received. */
  lemma {:induction false} FramesAreReceived(lib: Library, ops: seq<Op>, sid: SessionId)
    ensures Subsequence(Shown(FramesOf(Run(lib, ops), sid)), Decoded(Received(lib, ops, sid)))
  {
    if ops != [] {
      var before, op := ops[..|ops| - 1], ops[|ops| - 1];
      var s := Run(lib, before);
      var shown, r := Shown(FramesOf(s, sid)), Received(lib, before, sid);
      FramesAreReceived(lib, before, sid);
      FrameStep(lib, s, op, sid);
      if op.Deliver? && op.sid == sid && sid in s.conns && Queue(s.queues, sid) != [] {
        var w := Queue(s.queues, sid)[0];
        DecodedSnoc(r, w);
        if w.Encoded? {
          SubsequenceGrows(shown, Decoded(r), DecodedOne(w)[0]);
        } else {
          assert Decoded(r) + [] == Decoded(r);
        }
      } else {
        assert Received(lib, ops, sid) == r + [] == r;
      }
    }
  }

  lemma {:induction false} DecodedSnoc(ws: seq<Wire>, w: Wire)
    ensures Decoded(ws + [w]) == Decoded(ws) + DecodedOne(w)
  {
    assert (ws + [w])[..|ws|] == ws;
  }

  lemma {:induction false} DecodedSubsequence(a: seq<Wire>, b: seq<Wire>)
    requires Subsequence(a, b)
    ensures Subsequence(Decoded(a), Decoded(b))
    decreases |b|
  {
    if a != [] {
      var before, w := b[..|b| - 1], b[|b| - 1];
      if Subsequence(a, before) {
        DecodedSubsequence(a, before);
        SubsequenceOf(Decoded(a), Decoded(before), DecodedOne(w));
      } else {
        DecodedSubsequence(a[..|a| - 1], before);
        if w.Encoded? {
          SubsequenceGrows(Decoded(a[..|a| - 1]), Decoded(before), DecodedOne(w)[0]);
        } else {
          SubsequenceOf(Decoded(a[..|a| - 1]), Decoded(before), []);
          assert Decoded(a) == Decoded(a[..|a| - 1]) + [] == Decoded(a[..|a| - 1]);
        }
      }
    }
  }

  lemma {:induction false} SubsequenceOf<T>(a: seq<T>, b: seq<T>, more: seq<T>)
    requires Subsequence(a, b) && |more| <= 1
    ensures Subsequence(a, b + more)
  {
    if more == [] {
      assert b + more == b;
    } else {
      assert more == [more[0]];
      SubsequenceGrows(a, b, more[0]);
    }
  }

  lemma {:induction false} SubsequenceTransitive<T>(a: seq<T>, b: seq<T>, c: seq<T>)
    requires Subsequence(a, b) && Subsequence(b, c)
    ensures Subsequence(a, c)
    decreases |c|
  {
    if a != [] {
      var before := c[..|c| - 1];
      if Subsequence(b, before) {
        SubsequenceTransitive(a, b, before);
      } else if Subsequence(a, b[..|b| - 1]) {
        SubsequenceTransitive(a, b[..|b| - 1], before);
      } else {
        SubsequenceTransitive(a[..|a| - 1], b[..|b| - 1], before);
      }
    }
  }

  lemma {:induction false} PrefixSubsequence<T>(a: seq<T>, q: seq<T>)
    ensures Subsequence(a, a + q)
    decreases |q|
  {
    if q == [] {
      assert a + q == a;
      SubsequenceSelf(a);
    } else {
      PrefixSubsequence(a, q[..|q| - 1]);
      SubsequenceGrows(a, a + q[..|q| - 1], q[|q| - 1]);
      assert a + q[..|q| - 1] + [q[|q| - 1]] == a + q;
    }
  }

  lemma {:induction false} SubsequenceSelf<T>(a: seq<T>)
    ensures Subsequence(a, a)
  {
    if a != [] {
      SubsequenceSelf(a[..|a| - 1]);
    }
  }

  /** Over every run the frames of a session show, in order and each at most once, dispatches that
      were published on subjects the session was then subscribed to, as a scan of all session
      lists tells. */
  lemma {:induction false} FramesWereOffered(lib: Library, ops: seq<Op>, sid: SessionId)
    requires lib.Lawful()
    ensures Subsequence(Shown(FramesOf(Run(lib, ops), sid)), Decoded(Offered(lib, ops, sid)))
  {
    var q, r, o := Queue(Run(lib, ops).queues, sid), Received(lib, ops, sid), Offered(lib, ops, sid);
    FramesAreReceived(lib, ops, sid);
    QueuesConserve(lib, ops, sid);
    PrefixSubsequence(r, q);
    SubsequenceTransitive(r, r + q, o);
    DecodedSubsequence(r, o);
    SubsequenceTransitive(Shown(FramesOf(Run(lib, ops), sid)), Decoded(r), Decoded(o));
  }
}
