/** The connection counters, over any number of connections. */
module Tracking {
  import opened Options
  import opened Handshake

  type ConnId = nat

  /** The atomic counters of the server, as unbounded integers. */
  datatype Server = Server(conns: map<ConnId, Conn>, active: int, streams: int, sockets: int)

  datatype Event = Accept(id: ConnId, transport: Transport) | Turn(id: ConnId, move: Move)

  function Count(s: Server, c: Conn): Server {
    match c.tracker
    case IncActive => s.(active := s.active + 1)
    case DecActive => s.(active := s.active - 1)
    case IncTransport => Adjust(s, c.transport, 1)
    case DecTransport => Adjust(s, c.transport, -1)
    case _ => s
  }

  function Adjust(s: Server, transport: Transport, delta: int): Server {
    if transport.EventStream? then s.(streams := s.streams + delta) else s.(sockets := s.sockets + delta)
  }

  function Next(s: Server, e: Event): Server {
    match e
    case Accept(id, transport) => if id in s.conns then s else s.(conns := s.conns[id := NewConn(transport)])
    case Turn(id, m) =>
      if id !in s.conns then s else
        var s' := if m.who.Tracker? then Count(s, s.conns[id]) else s;
        s'.(conns := s.conns[id := Step(CancelFirst, s.conns[id], m)])
  }

  function History(events: seq<Event>): Server {
    if events == [] then Server(map[], 0, 0, 0) else Next(History(events[..|events| - 1]), events[|events| - 1])
  }

  /** Between the increment and the decrement of the active counter. */
  predicate CountsActive(c: Conn) {
    c.tracker.IncTransport? || c.tracker.Spawn? || c.tracker.AwaitClose? || c.tracker.DecActive?
  }

  /** Between the increment and the deferred decrement of a transport's counter. */
  predicate CountsAs(c: Conn, transport: Transport) {
    && c.transport == transport
    && (c.tracker.Spawn? || c.tracker.AwaitClose? || c.tracker.DecActive? || c.tracker.DecTransport?)
  }

  function ActiveIds(s: Server): set<ConnId> {
    set id | id in s.conns && CountsActive(s.conns[id])
  }

  function TransportIds(s: Server, transport: Transport): set<ConnId> {
    set id | id in s.conns && CountsAs(s.conns[id], transport)
  }

  /** In every interleaving of every number of connections, each counter is the number of
      instances between its increment and its decrement. */
  lemma {:induction false} CountersCount(events: seq<Event>)
    ensures var s := History(events);
      && s.active == |ActiveIds(s)|
      && s.streams == |TransportIds(s, EventStream)|
      && s.sockets == |TransportIds(s, WebSocket)|
  {
    if events != [] {
      var s, e := History(events[..|events| - 1]), events[|events| - 1];
      CountersCount(events[..|events| - 1]);
      CounterMoves(s, e);
    } else {
      assert ActiveIds(History(events)) == {};
    }
  }

  /** When only one connection changed, each set gains or loses at most that one. */
  lemma {:induction false} OneMoves(s: Server, r: Server, id: ConnId)
    requires forall other | other != id :: (other in s.conns <==> other in r.conns)
    requires forall other | other != id && other in s.conns :: s.conns[other] == r.conns[other]
    ensures |ActiveIds(r)| - |ActiveIds(s)|
         == (if id in ActiveIds(r) then 1 else 0) - (if id in ActiveIds(s) then 1 else 0)
    ensures forall t ::
      (|TransportIds(r, t)| - |TransportIds(s, t)|
       == (if id in TransportIds(r, t) then 1 else 0) - (if id in TransportIds(s, t) then 1 else 0))
  {
    SameBut(ActiveIds(s), ActiveIds(r), id);
    forall t {
      SameBut(TransportIds(s, t), TransportIds(r, t), id);
    }
  }

  lemma {:induction false} CounterMoves(s: Server, e: Event)
    ensures var r := Next(s, e);
      && r.active - s.active == |ActiveIds(r)| - |ActiveIds(s)|
      && r.streams - s.streams == |TransportIds(r, EventStream)| - |TransportIds(s, EventStream)|
      && r.sockets - s.sockets == |TransportIds(r, WebSocket)| - |TransportIds(s, WebSocket)|
  {
    OneMoves(s, Next(s, e), e.id);
    match e
    case Accept(_, _) =>
    case Turn(id, m) =>
      if id in s.conns {
        TurnMoves(s.conns[id], m);
      }
  }

  function One(b: bool): int {
    if b then 1 else 0
  }

  /** What a step does to a connection's place in the counts, and what the tracker adds for it. */
  lemma {:induction false} TurnMoves(c: Conn, m: Move)
    ensures var r := Step(CancelFirst, c, m);
      && r.transport == c.transport
      && One(CountsActive(r)) - One(CountsActive(c))
         == (if !m.who.Tracker? then 0 else if c.tracker.IncActive? then 1 else if c.tracker.DecActive? then -1 else 0)
      && forall t :: (One(CountsAs(r, t)) - One(CountsAs(c, t))
         == (if !m.who.Tracker? || c.transport != t then 0
             else if c.tracker.IncTransport? then 1 else if c.tracker.DecTransport? then -1 else 0))
  {
    if !m.who.Tracker? {
      WritersDoNotTrack(c, m);
    }
  }

  lemma {:induction false} WritersDoNotTrack(c: Conn, m: Move)
    requires !m.who.Tracker?
    ensures Step(CancelFirst, c, m).tracker == c.tracker && Step(CancelFirst, c, m).transport == c.transport
  {
    PcsOfOthers(CancelFirst, c, m.who, m.choice);
  }

  lemma {:induction false} SameBut<T>(a: set<T>, b: set<T>, x: T)
    requires a - {x} == b - {x}
    ensures |b| - |a| == (if x in b then 1 else 0) - (if x in a then 1 else 0)
  {
    var rest := a - {x};
    assert a == if x in a then rest + {x} else rest;
    assert b == if x in b then rest + {x} else rest;
  }

  /** No counter is ever negative, and once every instance has finished all are back to zero. */
  lemma {:induction false} CountersReturn(events: seq<Event>)
    ensures var s := History(events);
      && s.active >= 0 && s.streams >= 0 && s.sockets >= 0
      && ((forall id | id in s.conns :: s.conns[id].tracker.Exited?) ==> s.active == s.streams == s.sockets == 0)
  {
    var s := History(events);
    CountersCount(events);
    if forall id | id in s.conns :: s.conns[id].tracker.Exited? {
      assert ActiveIds(s) == {} && TransportIds(s, EventStream) == {} && TransportIds(s, WebSocket) == {};
    }
  }

  /** The transport a connection was first accepted with. */
  function Accepted(events: seq<Event>, id: ConnId): Option<Transport> {
    if events == [] then None else
      var before, e := events[..|events| - 1], events[|events| - 1];
      if Accepted(before, id).Some? then Accepted(before, id)
      else if e.Accept? && e.id == id then Some(e.transport)
      else None
  }

  /** The connection's own moves since it was accepted. */
  function MovesOf(events: seq<Event>, id: ConnId): seq<Move> {
    if events == [] then [] else
      var before, e := events[..|events| - 1], events[|events| - 1];
      MovesOf(before, id) + (if e.Turn? && e.id == id && Accepted(before, id).Some? then [e.move] else [])
  }

  /** Every connection goes through its own handshake as if it were alone, so all that holds of
      single connections holds of each. */
  lemma {:induction false} ConnectionsAreApart(events: seq<Event>, id: ConnId)
    ensures var s := History(events);
      match Accepted(events, id)
      case None => id !in s.conns
      case Some(transport) => id in s.conns && s.conns[id] == Run(CancelFirst, transport, MovesOf(events, id))
  {
    if events != [] {
      var before, e := events[..|events| - 1], events[|events| - 1];
      ConnectionsAreApart(before, id);
      var moves := MovesOf(before, id);
      if e.Turn? && e.id == id {
        match Accepted(before, id)
        case None =>
        case Some(transport) => RunSnoc(CancelFirst, transport, moves, e.move);
      } else {
        assert moves + [] == moves;
        if Accepted(before, id) == None {
          NoMovesBefore(before, id);
        }
      }
    }
  }

  lemma {:induction false} NoMovesBefore(events: seq<Event>, id: ConnId)
    requires Accepted(events, id) == None
    ensures MovesOf(events, id) == []
  {
    if events != [] {
      NoMovesBefore(events[..|events| - 1], id);
    }
  }
}
