/** A session's handling of one dispatch: filter, dedupe, effects, write. */
module Dispatch {
  import opened Options
  import opened Slices
  import opened RoutingIndex
  import opened EventMaps
  import opened EventMapLaws
  import opened EventMapEffects

  type Hash = nat

  datatype Effect = Effect(addSubscriptions: seq<Grant>, removeSubscriptions: seq<Grant>, removeHashes: seq<Hash>)

  datatype Payload = Payload(
    typ: EventType,
    conditions: seq<Condition>,
    whisper: string,
    hash: Option<Hash>,
    effect: Option<Effect>,
    body: string,
    matches: seq<SubId>)

  /** Bytes taken from a channel: either they decode to a dispatch or they are skipped. */
  datatype Wire = Garbled | Encoded(payload: Payload)

  /** A connection. `publicId` is the hex form of the id its subscription uses; `writable` says
      whether `Write` puts a frame on the wire; `buffered` whether a resume buffer is attached. */
  datatype Conn = Conn(
    ev: EventState,
    seen: set<Hash>,
    publicId: string,
    writable: bool,
    buffered: bool,
    saved: seq<Payload>,
    frames: seq<Payload>)

  datatype Turn = Turn(conn: Conn, ix: Index)

  // ---------------------------------------------------------------- specification

  /** The ids `matches` is made of. */
  function Wanted(lib: Library, ev: EventState, p: Payload): set<SubId> {
    if p.whisper != "" then {} else
      match Lookup(lib, ev, p.typ)
      case None => {}
      case Some(ec) => if ec.conditions == [] then Elements(ec.ids) else MatchSet(lib, ec, p.conditions)
  }

  /** The type, condition and whisper filter. */
  predicate Admits(lib: Library, c: Conn, p: Payload) {
    if p.whisper == "" then Wanted(lib, c.ev, p) != {} else p.whisper == c.publicId
  }

  /** Not seen before, or without a hash. */
  predicate Fresh(c: Conn, p: Payload) {
    p.hash.Some? ==> p.hash.value !in c.seen
  }

  /** The filter lets the dispatch through and its hash was not seen, so its effect is applied. */
  predicate Applies(lib: Library, c: Conn, p: Payload) {
    Admits(lib, c, p) && Fresh(c, p)
  }

  /** The payload as written, with the routing fields cleared. */
  function Written(p: Payload, matches: seq<SubId>): Payload {
    p.(conditions := [], effect := None, hash := None, whisper := "", matches := matches)
  }

  function Added(p: Payload): seq<Grant> {
    if p.effect.Some? then p.effect.value.addSubscriptions else []
  }

  function Removed(p: Payload): seq<Grant> {
    if p.effect.Some? then p.effect.value.removeSubscriptions else []
  }

  function Expired(p: Payload): set<Hash> {
    if p.effect.Some? then Elements(p.effect.value.removeHashes) else {}
  }

  function AfterEffect(lib: Library, sid: SessionId, l: Layer, p: Payload, ids: seq<SubId>): Layer
    requires |ids| == |Added(p)|
  {
    RemoveAll(lib, sid, AddAll(lib, sid, l, Added(p), ids), Removed(p))
  }

  function SeenAfter(c: Conn, p: Payload): set<Hash> {
    c.seen + (if p.hash.Some? then {p.hash.value} else {}) - Expired(p)
  }

  function Sent(c: Conn, p: Payload, matches: seq<SubId>): Conn {
    if c.buffered then c.(saved := c.saved + [p])
    else if c.writable then c.(frames := c.frames + [Written(p, matches)])
    else c
  }

  function Dispatched(lib: Library, sid: SessionId, turn: Turn, p: Payload, matches: seq<SubId>, ids: seq<SubId>): Turn
    requires |ids| == |Added(p)|
  {
    var c := turn.conn;
    if !Applies(lib, c, p) then turn
    else
      var l := AfterEffect(lib, sid, Layer(c.ev, turn.ix), p, ids);
      Turn(Sent(c.(ev := l.ev, seen := SeenAfter(c, p)), p, matches), l.ix)
  }

  // ---------------------------------------------------------------- objects

  class Cache {
    var dispatch: set<Hash>

    constructor ()
      ensures dispatch == {}
    {
      dispatch := {};
    }

    method AddDispatch(h: Hash) returns (added: bool)
      modifies this
      ensures added <==> h !in old(dispatch)
      ensures dispatch == old(dispatch) + {h}
    {
      var had := HasDispatch(h);
      dispatch := dispatch + {h};
      return !had;
    }

    method ExpireDispatch(h: Hash)
      modifies this
      ensures dispatch == old(dispatch) - {h}
    {
      dispatch := dispatch - {h};
    }

    method HasDispatch(h: Hash) returns (has: bool)
      ensures has <==> h in dispatch
    {
      return h in dispatch;
    }
  }

  class Session {
    const events: EventMap<Wire>
    const cache: Cache
    const publicId: string
    var writable: bool
    var buffered: bool
    var saved: seq<Payload>
    var frames: seq<Payload>

    constructor (events: EventMap<Wire>, cache: Cache, publicId: string)
      ensures this.events == events && this.cache == cache && this.publicId == publicId
      ensures writable && !buffered && saved == [] && frames == []
    {
      this.events, this.cache, this.publicId := events, cache, publicId;
      writable, buffered, saved, frames := true, false, [], [];
    }

    function View(): Turn
      reads this, events, cache, events.hub
    {
      Turn(Conn(events.Events(), cache.dispatch, publicId, writable, buffered, saved, frames), events.hub.View())
    }

    method Write(p: Payload)
      modifies this`frames
      ensures frames == if writable then old(frames) + [p] else old(frames)
    {
      if writable {
        frames := frames + [p];
      }
    }

    method Filter(p: Payload) returns (admitted: bool, matches: seq<SubId>)
      requires events.Valid()
      ensures admitted <==> Admits(events.lib, View().conn, p)
      ensures Elements(matches) == Wanted(events.lib, events.Events(), p)
    {
      if p.whisper != "" {
        return p.whisper == publicId, [];
      }
      var ev := events.Get(p.typ);
      if ev == None {
        return false, [];
      }
      var found := Match(events.lib, ev.value, p.conditions);
      matches := found.value;
      admitted := |matches| != 0;
      if admitted {
        assert matches[0] in Elements(matches);
      }
    }

    /** `ids` are the random numbers drawn by the event map, in call order. */
    method OnDispatch(p: Payload, ids: seq<SubId>) returns (matches: seq<SubId>)
      requires events.Valid()
      requires |ids| == |Added(p)|
      modifies this`frames, this`saved, cache, events`m, events.hub`subjects, events.hub`sessions
      ensures View() == Dispatched(events.lib, events.sid, old(View()), p, matches, ids)
      ensures Elements(matches) == Wanted(events.lib, old(events.Events()), p)
    {
      var admitted;
      admitted, matches := Filter(p);
      if !admitted {
        return;
      }
      if p.hash.Some? {
        var added := cache.AddDispatch(p.hash.value);
        if !added {
          assert cache.dispatch == old(cache.dispatch);
          return;
        }
      }
      if p.effect.Some? {
        ApplyEffect(p, ids);
      }
      assert cache.dispatch == SeenAfter(old(View()).conn, p);
      assert events.View() == AfterEffect(events.lib, events.sid, old(events.View()), p, ids);
      if buffered {
        saved := saved + [p];
        return;
      }
      Write(Written(p, matches));
    }

    method ApplyEffect(p: Payload, ids: seq<SubId>)
      requires events.Valid() && p.effect.Some?
      requires |ids| == |Added(p)|
      modifies cache, events`m, events.hub`subjects, events.hub`sessions
      ensures events.Valid()
      ensures events.View() == AfterEffect(events.lib, events.sid, old(events.View()), p, ids)
      ensures cache.dispatch == old(cache.dispatch) - Expired(p)
    {
      AddSubscriptions(p.effect.value.addSubscriptions, ids);
      RemoveSubscriptions(p.effect.value.removeSubscriptions);
      RemoveHashes(p.effect.value.removeHashes);
    }

    method AddSubscriptions(add: seq<Grant>, ids: seq<SubId>)
      requires events.Valid() && |ids| == |add|
      modifies events`m, events.hub`subjects, events.hub`sessions
      ensures events.Valid()
      ensures events.View() == AddAll(events.lib, events.sid, old(events.View()), add, ids)
    {
      for j := 0 to |add|
        invariant events.Valid()
        invariant AddAll(events.lib, events.sid, events.View(), add[j..], ids[j..])
               == AddAll(events.lib, events.sid, old(events.View()), add, ids)
      {
        assert add[j..][1..] == add[j + 1..] && ids[j..][1..] == ids[j + 1..];
        var status := events.Subscribe(add[j].typ, add[j].condition, Properties(add[j].ttl, true), ids[j]);
      }
    }

    method RemoveSubscriptions(remove: seq<Grant>)
      requires events.Valid()
      modifies events`m, events.hub`subjects, events.hub`sessions
      ensures events.Valid()
      ensures events.View() == RemoveAll(events.lib, events.sid, old(events.View()), remove)
    {
      for j := 0 to |remove|
        invariant events.Valid()
        invariant RemoveAll(events.lib, events.sid, events.View(), remove[j..])
               == RemoveAll(events.lib, events.sid, old(events.View()), remove)
      {
        assert remove[j..][1..] == remove[j + 1..];
        var id, status := events.Unsubscribe(remove[j].typ, remove[j].condition);
      }
    }

    method RemoveHashes(hashes: seq<Hash>)
      modifies cache
      ensures cache.dispatch == old(cache.dispatch) - Elements(hashes)
    {
      for j := 0 to |hashes|
        invariant cache.dispatch == old(cache.dispatch) - Elements(hashes[..j])
      {
        assert hashes[..j + 1] == hashes[..j] + [hashes[j]];
        cache.ExpireDispatch(hashes[j]);
      }
      assert hashes[..|hashes|] == hashes;
    }
  }

  // ---------------------------------------------------------------- laws

  /** A dispatch touches only its own session and keeps live entries routed. It keeps the routes
      exact if and only if it does not apply or its effect removes no type, as a whole, that the
      session holds by then. */
  lemma {:induction false} DispatchKeeps(lib: Library, sid: SessionId, turn: Turn, p: Payload, matches: seq<SubId>,
                                         ids: seq<SubId>)
    requires |ids| == |Added(p)| && lib.Lawful()
    requires Sound(lib, Layer(turn.conn.ev, turn.ix))
    ensures var r := Dispatched(lib, sid, turn, p, matches, ids);
      var l, l' := Layer(turn.conn.ev, turn.ix), Layer(r.conn.ev, r.ix);
      && Sound(lib, l')
      && OnlyTouches(sid, turn.ix, r.ix)
      && (Covered(lib, sid, l) ==> Covered(lib, sid, l'))
      && (Exact(lib, sid, l) ==>
            (Exact(lib, sid, l') <==>
              !(Applies(lib, turn.conn, p) && ForgetsType(lib, sid, AddAll(lib, sid, l, Added(p), ids), Removed(p)))))
  {
    var l := Layer(turn.conn.ev, turn.ix);
    AddAllAnswers(lib, sid, l, Added(p), ids);
    RemoveAllKeeps(lib, sid, AddAll(lib, sid, l, Added(p), ids), Removed(p));
  }

  /** What an applied dispatch does to one entry and its route: it routes the entry if it adds it,
      and takes the route if it removes the entry other than with its whole type. */
  lemma {:induction false} DispatchRoutes(lib: Library, sid: SessionId, turn: Turn, p: Payload, matches: seq<SubId>,
                                          ids: seq<SubId>,
                                          u: EventType, d: Condition)
    requires |ids| == |Added(p)| && lib.Lawful() && Applies(lib, turn.conn, p)
    requires Sound(lib, Layer(turn.conn.ev, turn.ix))
    ensures var r := Dispatched(lib, sid, turn, p, matches, ids);
      var l, l' := Layer(turn.conn.ev, turn.ix), Layer(r.conn.ev, r.ix);
      var mid := AddAll(lib, sid, l, Added(p), ids);
      var forgotten := Forgets(lib, sid, mid, Removed(p), u, d);
      && (Live(l.ev, u, d) || Live(l'.ev, u, d) || forgotten ==> Live(mid.ev, u, d))
      && !(Live(l'.ev, u, d) && forgotten)
      && (Routed(lib, sid, l', u, d) <==>
            if Live(mid.ev, u, d) then
              (Live(l.ev, u, d) ==> Routed(lib, sid, l, u, d)) && (Live(l'.ev, u, d) || forgotten)
            else Routed(lib, sid, l, u, d))
      && (KeysOnly(lib, sid, turn.ix) ==> KeysOnly(lib, sid, r.ix))
  {
    var l := Layer(turn.conn.ev, turn.ix);
    AddAllAnswers(lib, sid, l, Added(p), ids);
    AddAllRoutes(lib, sid, l, Added(p), ids, u, d);
    RemoveAllRoutes(lib, sid, AddAll(lib, sid, l, Added(p), ids), Removed(p), u, d);
  }

  /** What `matches` is made of: for a whisper nothing, else the ids of the entries under the type or
      its object wildcard that match some of the dispatch's conditions. */
  lemma {:induction false} WantedSelects(lib: Library, ev: EventState, p: Payload)
    requires MapOk(lib, ev)
    ensures Wanted(lib, ev, p) == if p.whisper != "" then {} else SelectedBy(lib, ev, p.typ, p.conditions)
  {
    LookupSelects(lib, ev, p.typ, p.conditions);
  }

  /** An entry under the type or its object wildcard matches some of the dispatch's conditions. */
  ghost predicate Listens(lib: Library, ev: EventState, p: Payload) {
    exists t, d, c ::
      (t == p.typ || t == lib.objectName(p.typ) + ".*") && Live(ev, t, d) && c in p.conditions && lib.matches(d, c)
  }

  /** The filter, told from the entries: a whisper must name this session, anything else must find
      an entry that matches. */
  lemma {:induction false} AdmitsIff(lib: Library, c: Conn, p: Payload)
    requires MapOk(lib, c.ev)
    ensures Admits(lib, c, p) <==> if p.whisper != "" then p.whisper == c.publicId else Listens(lib, c.ev, p)
  {
    WantedSelects(lib, c.ev, p);
    if p.whisper == "" {
      SelectedIffListens(lib, c.ev, p);
    }
  }

  lemma {:induction false} SelectedIffListens(lib: Library, ev: EventState, p: Payload)
    requires MapOk(lib, ev)
    ensures SelectedBy(lib, ev, p.typ, p.conditions) != {} <==> Listens(lib, ev, p)
  {
    var w := lib.objectName(p.typ) + ".*";
    SomethingSelected(lib, ev, p.typ, p.conditions);
    SomethingSelected(lib, ev, w, p.conditions);
  }

  lemma {:induction false} SomethingSelected(lib: Library, ev: EventState, t: EventType, cs: seq<Condition>)
    requires MapOk(lib, ev)
    ensures Selected(lib, Held(ev, t), cs) != {} <==> exists d, c :: Live(ev, t, d) && c in cs && lib.matches(d, c)
  {
    var held := Held(ev, t);
    if x :| x in Selected(lib, held, cs) {
      var i, c :| 0 <= i < |held| && c in cs && lib.matches(held[i].condition, c) && held[i].id == x;
      assert Live(ev, t, held[i].condition);
    }
    if d, c :| Live(ev, t, d) && c in cs && lib.matches(d, c) {
      var i :| 0 <= i < |ev.m[t].conditions| && ev.m[t].conditions[i] == d;
      assert held[i].id in Selected(lib, held, cs);
    }
  }

  /** A dispatch that the filter turns away, or whose hash was seen, changes nothing at all. */
  lemma {:induction false} TurnedAway(lib: Library, sid: SessionId, turn: Turn, p: Payload, matches: seq<SubId>,
                                      ids: seq<SubId>)
    requires |ids| == |Added(p)| && (!Admits(lib, turn.conn, p) || (p.hash.Some? && p.hash.value in turn.conn.seen))
    ensures Dispatched(lib, sid, turn, p, matches, ids) == turn
  {
  }

  /** Any other is applied: its effect adds, then removes, then expires; its own hash counts as seen
      unless the effect expires it; one cleared frame goes out, or, when there is a buffer, the
      dispatch is saved as it came. */
  lemma {:induction false} Applied(lib: Library, sid: SessionId, turn: Turn, p: Payload, matches: seq<SubId>,
                                   ids: seq<SubId>)
    requires |ids| == |Added(p)| && Admits(lib, turn.conn, p)
    requires p.hash == None || p.hash.value !in turn.conn.seen
    ensures var r := Dispatched(lib, sid, turn, p, matches, ids); var c := turn.conn; var l := Layer(c.ev, turn.ix);
      && (match p.effect
          case None => r.conn.ev == c.ev && r.ix == turn.ix
          case Some(e) =>
            && |ids| == |e.addSubscriptions|
            && Layer(r.conn.ev, r.ix)
               == RemoveAll(lib, sid, AddAll(lib, sid, l, e.addSubscriptions, ids), e.removeSubscriptions))
      && (forall h :: h in r.conn.seen
            <==> (h in c.seen || p.hash == Some(h)) && !(p.effect.Some? && h in p.effect.value.removeHashes))
      && r.conn.frames
         == c.frames + (if c.writable && !c.buffered then [Payload(p.typ, [], "", None, None, p.body, matches)] else [])
      && r.conn.saved == c.saved + (if c.buffered then [p] else [])
      && r.conn.publicId == c.publicId && r.conn.writable == c.writable && r.conn.buffered == c.buffered
  {
  }

  /** What an effect leaves behind: nothing it removes is held, and what it adds is answered for,
      unless it is taken again. */
  lemma {:induction false} EffectHolds(lib: Library, sid: SessionId, turn: Turn, p: Payload, matches: seq<SubId>,
                                       ids: seq<SubId>)
    requires |ids| == |Added(p)| && lib.Lawful() && Sound(lib, Layer(turn.conn.ev, turn.ix))
    requires Admits(lib, turn.conn, p) && p.effect.Some?
    requires p.hash == None || p.hash.value !in turn.conn.seen
    ensures var r := Dispatched(lib, sid, turn, p, matches, ids).conn.ev; var e := p.effect.value;
      && (forall g | g in e.removeSubscriptions ::
            !Live(r, g.typ, g.condition) && (|g.condition| == 0 ==> forall d :: !Live(r, g.typ, d)))
      && (e.removeSubscriptions == [] ==> forall g | g in e.addSubscriptions :: Answered(lib, r, g))
  {
    var l := Layer(turn.conn.ev, turn.ix);
    var e := p.effect.value;
    var mid := AddAll(lib, sid, l, e.addSubscriptions, ids);
    Applied(lib, sid, turn, p, matches, ids);
    AddAllAnswers(lib, sid, l, e.addSubscriptions, ids);
    forall g | g in e.removeSubscriptions
      ensures var r := RemoveAll(lib, sid, mid, e.removeSubscriptions).ev;
        !Live(r, g.typ, g.condition) && (|g.condition| == 0 ==> forall d :: !Live(r, g.typ, d))
    {
      RemoveAllRemoves(lib, sid, mid, e.removeSubscriptions, g);
    }
  }

  /** A dispatch turned away by the filter or as a duplicate changes nothing at all; the seen set
      grows by at most the dispatch's own hash and shrinks by what its effect names; and at most
      one frame goes out, which happens exactly when the dispatch is admitted and fresh on a
      writable connection without a buffer. */
  lemma {:induction false} DispatchOutcome(lib: Library, sid: SessionId, turn: Turn, p: Payload, matches: seq<SubId>,
                                           ids: seq<SubId>)
    requires |ids| == |Added(p)|
    ensures var c := turn.conn; var r := Dispatched(lib, sid, turn, p, matches, ids).conn;
      && (!Admits(lib, c, p) || !Fresh(c, p) ==> Dispatched(lib, sid, turn, p, matches, ids) == turn)
      && (forall h | h in r.seen && h !in c.seen :: p.hash == Some(h) && Admits(lib, c, p))
      && (forall h | h in c.seen && h !in r.seen :: h in Expired(p) && Admits(lib, c, p) && Fresh(c, p))
      && (|r.frames| == |c.frames| || r.frames == c.frames + [Written(p, matches)])
      && (|r.frames| == |c.frames| + 1 <==> Admits(lib, c, p) && Fresh(c, p) && c.writable && !c.buffered)
  {
  }
}
