/** The ready/cancel handshake between the goroutines of one connection, and the connection
    counters kept over any number of connections. Every channel operation, context check, write
    and counter update is one step; the actors interleave freely. */
module Handshake {

  datatype Transport = WebSocket | EventStream

  datatype Frame = Hello | Reply | EndOfStream

  datatype Actor = Main | Reader | Watcher | Tracker

  /** The next action of a writing goroutine. */
  datatype Pc =
    | Greet       // WebSocket: Write looks at the context; EventStream: straight on
    | GreetWrite  // the Hello frame
    | Mark        // SetReady after a greeting
    | Await       // reader: wait for ready
    | Gate        // reader: look at the context once ready
    | Unborn      // watcher: not started yet
    | Watch       // watcher: wait for shutdown or for the context
    | Live        // main loop, or the reader's command loop
    | SendGate    // Write of any other frame: WebSocket looks at the context
    | Sending
    | CloseCheck  // SendClose looks at the context
    | CloseGate   // its Write does, on a WebSocket
    | CloseWrite  // the End of Stream frame
    | CloseFirst  // its deferred ForceClose or Destroy
    | CloseSecond
    | DestroyFirst
    | DestroySecond
    | Finished

  /** The next action of `TrackConnection`. */
  datatype TrackPc = AwaitReady | IncActive | IncTransport | Spawn | AwaitClose | DecActive | DecTransport | Exited

  /** What a goroutine is free to do next, or how its write turns out: `Fail` is an error its caller
      acts on, as after a heartbeat, `Lose` one that is only logged, as after a dispatch. */
  datatype Choice = Proceed | Fail | Lose | Send | Close | Leave
  {
    predicate Errs() {
      Fail? || Lose?
    }
  }

  /** The order of the two actions in `Destroy`. The program cancels first. */
  datatype Order = CancelFirst | ReadyFirst

  datatype Conn = Conn(
    transport: Transport,
    main: Pc,
    reader: Pc,
    watcher: Pc,
    tracker: TrackPc,
    cancelled: bool,
    ready: bool,
    frames: seq<Frame>)

  function NewConn(transport: Transport): Conn {
    Conn(transport, Greet, Await, Unborn, AwaitReady, false, false, [])
  }

  // ---------------------------------------------------------------- one step

  function First(o: Order, c: Conn): Conn {
    if o.CancelFirst? then c.(cancelled := true) else c.(ready := true)
  }

  function Second(o: Order, c: Conn): Conn {
    if o.CancelFirst? then c.(ready := true) else c.(cancelled := true)
  }

  /** Where an actor goes on when its `SendClose` returns. */
  function Back(who: Actor): Pc {
    match who
    case Main => DestroyFirst
    case Reader => Live
    case _ => Finished
  }

  /** Where the main loop or the reader goes when it ends. */
  function Out(c: Conn, who: Actor): Pc {
    if who.Main? || c.transport.WebSocket? then DestroyFirst else Finished
  }

  function WithPc(c: Conn, who: Actor, pc: Pc): Conn {
    match who
    case Main => c.(main := pc)
    case Reader => c.(reader := pc)
    case Watcher => c.(watcher := pc)
    case Tracker => c
  }

  function PcOf(c: Conn, who: Actor): Pc {
    match who
    case Main => c.main
    case Reader => c.reader
    case Watcher => c.watcher
    case Tracker => Finished
  }

  /** What an action does to the flags and the stream. */
  function Effect(o: Order, c: Conn, pc: Pc, choice: Choice): Conn {
    match pc
    case GreetWrite => if choice.Errs() then c else c.(frames := c.frames + [Hello])
    case Sending => if choice.Errs() then c else c.(frames := c.frames + [Reply])
    case CloseWrite => if choice.Errs() then c else c.(frames := c.frames + [EndOfStream])
    case Mark => c.(ready := true)
    case CloseFirst => if c.transport.WebSocket? then c.(cancelled := true) else First(o, c)
    case CloseSecond => Second(o, c)
    case DestroyFirst => First(o, c)
    case DestroySecond => Second(o, c)
    case _ => c
  }

  /** Where the actor stands next. An action that is not enabled leaves it where it is. */
  function NextPc(c: Conn, who: Actor, pc: Pc, choice: Choice): Pc {
    var gated := c.transport.WebSocket? && c.cancelled;
    match pc
    case Greet => if gated then Mark else GreetWrite
    case GreetWrite => if choice.Errs() then DestroyFirst else Mark
    case Mark => Live
    case Await => if c.ready then Gate else Await
    case Gate => if c.cancelled then Finished else Live
    case Unborn => Unborn
    case Watch => if choice.Close? then CloseCheck else if c.cancelled then Finished else Watch
    case Live =>
      if choice.Send? then SendGate
      else if choice.Close? then CloseCheck
      else if choice.Leave? then Out(c, who)
      else Live
    case SendGate => if gated then Live else Sending
    case Sending => if choice.Fail? && who.Main? then DestroyFirst else Live
    case CloseCheck => if c.cancelled then Back(who) else CloseGate
    case CloseGate => if gated then CloseFirst else CloseWrite
    case CloseWrite => CloseFirst
    case CloseFirst => if c.transport.WebSocket? then Back(who) else CloseSecond
    case CloseSecond => Back(who)
    case DestroyFirst => DestroySecond
    case DestroySecond => Finished
    case Finished => Finished
  }

  /** A step of main, reader or watcher. */
  function WriterStep(o: Order, c: Conn, who: Actor, choice: Choice): Conn {
    WithPc(Effect(o, c, PcOf(c, who), choice), who, NextPc(c, who, PcOf(c, who), choice))
  }

  function TrackerStep(c: Conn): Conn {
    match c.tracker
    case AwaitReady => if c.ready then c.(tracker := IncActive) else c
    case IncActive => c.(tracker := IncTransport)
    case IncTransport => c.(tracker := Spawn)
    case Spawn => c.(tracker := AwaitClose, watcher := Watch)
    case AwaitClose => if c.cancelled then c.(tracker := DecActive) else c
    case DecActive => c.(tracker := DecTransport)
    case DecTransport => c.(tracker := Exited)
    case Exited => c
  }

  datatype Move = Move(who: Actor, choice: Choice)

  function Step(o: Order, c: Conn, m: Move): Conn {
    if m.who.Tracker? then TrackerStep(c) else WriterStep(o, c, m.who, m.choice)
  }

  function Run(o: Order, transport: Transport, moves: seq<Move>): Conn {
    if moves == [] then NewConn(transport) else Step(o, Run(o, transport, moves[..|moves| - 1]), moves[|moves| - 1])
  }

  // ---------------------------------------------------------------- the first frame

  predicate Greeted(c: Conn) {
    c.frames != [] && c.frames[0] == Hello
  }

  predicate GreetedPc(pc: Pc) {
    pc.Live? || pc.SendGate? || pc.Sending? || pc.CloseGate? || pc.CloseWrite?
  }

  predicate CancelledPc(pc: Pc) {
    pc.CloseSecond? || pc.DestroySecond?
  }

  ghost predicate SharedOk(c: Conn) {
    && (c.frames != [] ==> Greeted(c))
    && (c.ready ==> Greeted(c) || c.cancelled)
    && (!c.ready ==> c.reader.Await? && c.watcher.Unborn? && c.tracker.AwaitReady?)
  }

  ghost predicate MainOk(c: Conn) {
    && !c.main.Await? && !c.main.Gate? && !c.main.Unborn? && !c.main.Watch?
    && (c.main.Greet? || c.main.GreetWrite? ==> !c.ready && !c.cancelled && c.frames == [])
    && (c.main.Mark? ==> !c.ready && Greeted(c))
    && (GreetedPc(c.main) || c.main.CloseCheck? ==> Greeted(c))
    && (CancelledPc(c.main) ==> c.cancelled)
    && (c.main.Finished? ==> c.cancelled && c.ready)
  }

  ghost predicate ReaderOk(c: Conn) {
    && !c.reader.Greet? && !c.reader.GreetWrite? && !c.reader.Mark? && !c.reader.Unborn? && !c.reader.Watch?
    && (GreetedPc(c.reader) || c.reader.CloseCheck? || c.reader.CloseFirst? || c.reader.CloseSecond? ==> Greeted(c))
    && (CancelledPc(c.reader) ==> c.cancelled)
  }

  ghost predicate WatcherOk(c: Conn) {
    && (c.watcher.Unborn? || c.watcher.Watch? || c.watcher.CloseCheck? || c.watcher.CloseGate? || c.watcher.CloseWrite?
        || c.watcher.CloseFirst? || c.watcher.CloseSecond? || c.watcher.Finished?)
    && (GreetedPc(c.watcher) ==> Greeted(c))
    && (CancelledPc(c.watcher) ==> c.cancelled)
  }

  /** What every interleaving keeps when `Destroy` cancels first. */
  ghost predicate Safe(c: Conn) {
    SharedOk(c) && MainOk(c) && ReaderOk(c) && WatcherOk(c)
  }

  /** Flags are never taken back and frames are only appended. */
  ghost predicate Grows(c: Conn, r: Conn) {
    (c.cancelled ==> r.cancelled) && (c.ready ==> r.ready) && (Greeted(c) ==> Greeted(r))
  }

  lemma {:induction false} WriterGrows(o: Order, c: Conn, who: Actor, choice: Choice)
    ensures Grows(c, WriterStep(o, c, who, choice))
  {
    EffectGrows(o, c, PcOf(c, who), choice);
  }

  lemma {:induction false} EffectGrows(o: Order, c: Conn, pc: Pc, choice: Choice)
    ensures Grows(c, Effect(o, c, pc, choice))
    ensures var r := Effect(o, c, pc, choice);
      && r.main == c.main && r.reader == c.reader && r.watcher == c.watcher
      && r.tracker == c.tracker && r.transport == c.transport
  {
  }

  lemma {:induction false} MainKeeps(c: Conn, choice: Choice)
    requires SharedOk(c) && MainOk(c)
    ensures SharedOk(WriterStep(CancelFirst, c, Main, choice)) && MainOk(WriterStep(CancelFirst, c, Main, choice))
  {
  }

  lemma {:induction false} ReaderKeeps(c: Conn, choice: Choice)
    requires SharedOk(c) && ReaderOk(c)
    ensures SharedOk(WriterStep(CancelFirst, c, Reader, choice)) && ReaderOk(WriterStep(CancelFirst, c, Reader, choice))
    ensures !c.ready ==> WriterStep(CancelFirst, c, Reader, choice) == c
  {
  }

  lemma {:induction false} WatcherKeeps(c: Conn, choice: Choice)
    requires SharedOk(c) && WatcherOk(c)
    ensures SharedOk(WriterStep(CancelFirst, c, Watcher, choice))
    ensures WatcherOk(WriterStep(CancelFirst, c, Watcher, choice))
    ensures !c.ready ==> WriterStep(CancelFirst, c, Watcher, choice) == c
  {
  }

  /** What an actor relies on survives the steps of the others. */
  lemma {:induction false} OthersKeep(c: Conn, r: Conn)
    requires Grows(c, r)
    ensures MainOk(c) && c.main == r.main && (c.ready || r == c) ==> MainOk(r)
    ensures ReaderOk(c) && c.reader == r.reader ==> ReaderOk(r)
    ensures WatcherOk(c) && c.watcher == r.watcher ==> WatcherOk(r)
  {
  }

  lemma {:induction false} PcsOfOthers(o: Order, c: Conn, who: Actor, choice: Choice)
    ensures var r := WriterStep(o, c, who, choice);
      && (!who.Main? ==> r.main == c.main)
      && (!who.Reader? ==> r.reader == c.reader)
      && (!who.Watcher? ==> r.watcher == c.watcher)
      && r.tracker == c.tracker && r.transport == c.transport
  {
    EffectGrows(o, c, PcOf(c, who), choice);
  }

  lemma {:induction false} StepKeepsSafe(c: Conn, m: Move)
    requires Safe(c)
    ensures Safe(Step(CancelFirst, c, m))
  {
    if !m.who.Tracker? {
      WriterGrows(CancelFirst, c, m.who, m.choice);
      PcsOfOthers(CancelFirst, c, m.who, m.choice);
    }
    OthersKeep(c, Step(CancelFirst, c, m));
    match m.who
    case Main => MainKeeps(c, m.choice);
    case Reader => ReaderKeeps(c, m.choice);
    case Watcher => WatcherKeeps(c, m.choice);
    case Tracker =>
  }

  /** In every interleaving, ready means that Hello was written or the context is cancelled, and
      the first frame of the connection is Hello. */
  lemma {:induction false} FirstFrameIsHello(transport: Transport, moves: seq<Move>)
    ensures var c := Run(CancelFirst, transport, moves);
      && Safe(c)
      && (c.ready ==> Greeted(c) || c.cancelled)
      && (c.frames != [] ==> c.frames[0] == Hello)
  {
    if moves != [] {
      FirstFrameIsHello(transport, moves[..|moves| - 1]);
      StepKeepsSafe(Run(CancelFirst, transport, moves[..|moves| - 1]), moves[|moves| - 1]);
    }
  }

  /** It rests on the order inside `Destroy`: were ready signalled before the context is
      cancelled, a failed greeting followed by a shutdown could send End of Stream first. */
  lemma {:induction false} ReadyFirstBreaks(transport: Transport)
    ensures exists moves :: Run(ReadyFirst, transport, moves).frames == [EndOfStream]
  {
    var watch := Move(Watcher, Close);
    var moves := UngreetedClose(transport);
    RunSnoc(ReadyFirst, transport, moves, watch);
    assert Run(ReadyFirst, transport, moves + [watch]).frames == [EndOfStream];
  }

  /** After the failed greeting a shutdown makes the watcher close the stream. */
  lemma {:induction false} UngreetedClose(transport: Transport) returns (moves: seq<Move>)
    ensures Run(ReadyFirst, transport, moves)
         == Conn(transport, DestroySecond, Await, CloseWrite, AwaitClose, false, true, [])
  {
    var watch := Move(Watcher, Close);
    var m0 := FailedGreeting(transport);
    var m1 := m0 + [watch];
    var m2 := m1 + [watch];
    moves := m2 + [watch];
    RunSnoc(ReadyFirst, transport, m0, watch);
    assert Run(ReadyFirst, transport, m1).watcher == CloseCheck;  // shutdown
    RunSnoc(ReadyFirst, transport, m1, watch);
    assert Run(ReadyFirst, transport, m2).watcher == CloseGate;   // not cancelled
    RunSnoc(ReadyFirst, transport, m2, watch);
  }

  /** The greeting fails, ready is signalled, the tracker starts the watcher, and only then would
      the context be cancelled. */
  lemma {:induction false} FailedGreeting(transport: Transport) returns (moves: seq<Move>)
    ensures Run(ReadyFirst, transport, moves)
         == Conn(transport, DestroySecond, Await, Watch, AwaitClose, false, true, [])
  {
    var track := Move(Tracker, Proceed);
    var m0 := ReadyTooEarly(transport);
    var m1 := m0 + [track];
    var m2 := m1 + [track];
    var m3 := m2 + [track];
    moves := m3 + [track];
    RunSnoc(ReadyFirst, transport, m0, track);
    assert Run(ReadyFirst, transport, m1).tracker == IncActive;
    RunSnoc(ReadyFirst, transport, m1, track);
    assert Run(ReadyFirst, transport, m2).tracker == IncTransport;
    RunSnoc(ReadyFirst, transport, m2, track);
    assert Run(ReadyFirst, transport, m3).tracker == Spawn;
    RunSnoc(ReadyFirst, transport, m3, track);
  }

  lemma {:induction false} ReadyTooEarly(transport: Transport) returns (moves: seq<Move>)
    ensures Run(ReadyFirst, transport, moves)
         == Conn(transport, DestroySecond, Await, Unborn, AwaitReady, false, true, [])
  {
    var main := Move(Main, Proceed);
    var m0: seq<Move> := [];
    var m1 := m0 + [main];
    var m2 := m1 + [Move(Main, Fail)];
    moves := m2 + [main];
    RunSnoc(ReadyFirst, transport, m0, main);
    assert Run(ReadyFirst, transport, m1).main == GreetWrite;
    RunSnoc(ReadyFirst, transport, m1, Move(Main, Fail));
    assert Run(ReadyFirst, transport, m2).main == DestroyFirst;
    RunSnoc(ReadyFirst, transport, m2, main);
  }

  lemma {:induction false} RunSnoc(o: Order, transport: Transport, moves: seq<Move>, m: Move)
    ensures Run(o, transport, moves + [m]) == Step(o, Run(o, transport, moves), m)
  {
    assert (moves + [m])[..|moves|] == moves;
  }

  // ---------------------------------------------------------------- nobody is stuck, everybody ends cancelled

  /** Inside `SendClose`, from its look at the context to its last action. */
  predicate Closing(pc: Pc) {
    pc.CloseCheck? || pc.CloseGate? || pc.CloseWrite? || pc.CloseFirst? || pc.CloseSecond?
  }

  /** The step by which the main loop, the reader or the watcher leaves `SendClose`, on either
      transport, leaves the context cancelled. The main loop goes on to `Destroy`, the reader to its
      loop, and the watcher ends. */
  lemma {:induction false} SendCloseCancels(c: Conn, m: Move)
    requires Safe(c) && Closing(PcOf(c, m.who)) && !Closing(PcOf(Step(CancelFirst, c, m), m.who))
    ensures var r := Step(CancelFirst, c, m);
      && r.cancelled
      && (m.who.Main? ==> r.main.DestroyFirst?)
      && (m.who.Reader? ==> r.reader.Live?)
      && (m.who.Watcher? ==> r.watcher.Finished?)
  {
    assert m.who.Main? || m.who.Reader? || m.who.Watcher?;
  }

  /** Who has finished leaves the context cancelled; only the subscriber goroutine of an EventStream
      may end before that, and never destroys the connection. The main loop gets past its greeting
      ready, and the tracker gets past its wait for the end cancelled. */
  ghost predicate Ended(c: Conn) {
    && (c.watcher.Finished? ==> c.cancelled)
    && (c.main.Finished? ==> c.cancelled)
    && (c.reader.Finished? && c.transport.WebSocket? ==> c.cancelled)
    && (c.main.Live? || c.main.SendGate? || c.main.Sending? || Closing(c.main) ==> c.ready)
    && (c.transport.EventStream? ==> !c.reader.DestroyFirst? && !c.reader.DestroySecond?)
    && (Remaining(c.tracker) < Remaining(AwaitClose) ==> c.cancelled)
  }

  lemma {:induction false} StepKeepsEnded(c: Conn, m: Move)
    requires Safe(c) && Ended(c)
    ensures Ended(Step(CancelFirst, c, m))
  {
    if !m.who.Tracker? {
      WriterGrows(CancelFirst, c, m.who, m.choice);
      PcsOfOthers(CancelFirst, c, m.who, m.choice);
    }
    match m.who
    case Main => MainEnds(c, m.choice);
    case Reader => ReaderEnds(c, m.choice);
    case Watcher => WatcherEnds(c, m.choice);
    case Tracker =>
  }

  lemma {:induction false} MainEnds(c: Conn, choice: Choice)
    requires Safe(c) && Ended(c)
    ensures var r := WriterStep(CancelFirst, c, Main, choice);
      && (r.main.Finished? ==> r.cancelled)
      && (r.main.Live? || r.main.SendGate? || r.main.Sending? || Closing(r.main) ==> r.ready)
  {
  }

  lemma {:induction false} ReaderEnds(c: Conn, choice: Choice)
    requires Safe(c) && Ended(c)
    ensures var r := WriterStep(CancelFirst, c, Reader, choice);
      && (r.reader.Finished? && c.transport.WebSocket? ==> r.cancelled)
      && (c.transport.EventStream? ==> !r.reader.DestroyFirst? && !r.reader.DestroySecond?)
  {
  }

  lemma {:induction false} WatcherEnds(c: Conn, choice: Choice)
    requires Safe(c) && Ended(c)
    ensures var r := WriterStep(CancelFirst, c, Watcher, choice); r.watcher.Finished? ==> r.cancelled
  {
  }

  /** In every interleaving. */
  lemma {:induction false} FinishedIsCancelled(transport: Transport, moves: seq<Move>)
    ensures Ended(Run(CancelFirst, transport, moves))
  {
    if moves != [] {
      var before := moves[..|moves| - 1];
      FinishedIsCancelled(transport, before);
      FirstFrameIsHello(transport, before);
      StepKeepsEnded(Run(CancelFirst, transport, before), moves[|moves| - 1]);
    }
  }

  /** The actor waits for something that is not there, has nothing to do, or has ended. */
  predicate Waits(c: Conn, pc: Pc, choice: Choice) {
    || pc.Finished? || pc.Unborn?
    || (pc.Await? && !c.ready)
    || (pc.Watch? && !c.cancelled && !choice.Close?)
    || (pc.Live? && !choice.Send? && !choice.Close? && !choice.Leave?)
  }

  /** Every other step takes its actor further. */
  lemma {:induction false} NobodyIsStuck(c: Conn, m: Move)
    requires !m.who.Tracker?
    ensures PcOf(Step(CancelFirst, c, m), m.who) == PcOf(c, m.who) <==> Waits(c, PcOf(c, m.who), m.choice)
  {
  }

  /** A write of the main loop that fails ends the connection in two more of its moves; one whose
      error is only logged sends nothing and leaves it in its loop. */
  lemma {:induction false} FailedWrite(c: Conn)
    requires c.main.Sending?
    ensures var failed := Step(CancelFirst, c, Move(Main, Fail));
      var r := Step(CancelFirst, Step(CancelFirst, failed, Move(Main, Proceed)), Move(Main, Proceed));
      r == c.(main := Finished, cancelled := true, ready := true)
    ensures Step(CancelFirst, c, Move(Main, Lose)) == c.(main := Live)
  {
    var failed := Step(CancelFirst, c, Move(Main, Fail));
    assert failed == c.(main := DestroyFirst);
    assert Step(CancelFirst, failed, Move(Main, Proceed)) == c.(main := DestroySecond, cancelled := true);
  }

  function Turns(c: Conn, who: Actor, choice: Choice, n: nat): Conn {
    if n == 0 then c else Step(CancelFirst, Turns(c, who, choice, n - 1), Move(who, choice))
  }

  /** The main loop or the reader, told to close a connection that is still open, sends End of Stream
      and cancels the context before it goes on. */
  lemma {:induction false} LoopCloses(c: Conn, who: Actor)
    requires (who.Main? || who.Reader?) && PcOf(c, who).Live? && c.ready && !c.cancelled
    ensures var closed := c.(cancelled := true, frames := c.frames + [EndOfStream]);
      Turns(c, who, Close, if c.transport.WebSocket? then 5 else 6)
      == if who.Main? then closed.(main := DestroyFirst) else closed
  {
    var c3 := CloseGates(c, who);
    var c4 := Step(CancelFirst, c3, Move(who, Close));
    assert c4 == WithPc(c.(frames := c.frames + [EndOfStream]), who, CloseFirst);
    var c5 := Step(CancelFirst, c4, Move(who, Close));
    assert Turns(c, who, Close, 4) == c4;
    assert Turns(c, who, Close, 5) == c5;
    assert Turns(c, who, Close, 6) == Step(CancelFirst, c5, Move(who, Close));
  }

  lemma {:induction false} CloseGates(c: Conn, who: Actor) returns (r: Conn)
    requires (who.Main? || who.Reader?) && PcOf(c, who).Live? && !c.cancelled
    ensures r == Turns(c, who, Close, 3) == WithPc(c, who, CloseWrite)
  {
    var c1 := Step(CancelFirst, c, Move(who, Close));
    var c2 := Step(CancelFirst, c1, Move(who, Close));
    r := Step(CancelFirst, c2, Move(who, Close));
    assert Turns(c, who, Close, 0) == c;
    assert c1 == WithPc(c, who, CloseCheck) == Turns(c, who, Close, 1);
    assert c2 == WithPc(c, who, CloseGate) == Turns(c, who, Close, 2);
  }

  /** The moves an actor in `SendClose` needs at most to get out of it. */
  function ToClose(pc: Pc): nat {
    match pc
    case CloseCheck => 5 case CloseGate => 4 case CloseWrite => 3 case CloseFirst => 2 case CloseSecond => 1 case _ => 0
  }

  function WatcherMoves(moves: seq<Move>): nat {
    if moves == [] then 0
    else WatcherMoves(moves[..|moves| - 1]) + (if moves[|moves| - 1].who.Watcher? then 1 else 0)
  }

  lemma {:induction false} WatcherGoesOn(transport: Transport, moves: seq<Move>, later: seq<Move>)
    requires Closing(Run(CancelFirst, transport, moves).watcher)
    ensures var w := Run(CancelFirst, transport, moves).watcher;
      var r := Run(CancelFirst, transport, moves + later).watcher;
      r.Finished? || (Closing(r) && ToClose(r) + WatcherMoves(later) <= ToClose(w))
    decreases |later|
  {
    if later == [] {
      assert moves + later == moves;
    } else {
      var before, m := later[..|later| - 1], later[|later| - 1];
      WatcherGoesOn(transport, moves, before);
      assert moves + later == (moves + before) + [m];
      RunSnoc(CancelFirst, transport, moves + before, m);
      WatcherStaysClosing(transport, moves + before);
      WatcherNears(Run(CancelFirst, transport, moves + before), m);
    }
  }

  /** A move of the watcher brings it nearer the end of `SendClose`, a move of another leaves it. */
  lemma {:induction false} WatcherNears(c: Conn, m: Move)
    requires Closing(c.watcher) || c.watcher.Finished?
    requires c.watcher.Unborn? <==> Remaining(c.tracker) >= Remaining(Spawn)
    ensures var r := Step(CancelFirst, c, m);
      && (c.watcher.Finished? ==> r.watcher.Finished?)
      && (r.watcher.Finished?
          || (Closing(r.watcher)
              && ToClose(r.watcher) + (if m.who.Watcher? then 1 else 0) <= ToClose(c.watcher)))
  {
    if !m.who.Tracker? {
      PcsOfOthers(CancelFirst, c, m.who, m.choice);
    }
  }

  /** The tracker starts the watcher once only. */
  lemma {:induction false} WatcherStaysClosing(transport: Transport, moves: seq<Move>)
    ensures var c := Run(CancelFirst, transport, moves);
      c.watcher.Unborn? <==> Remaining(c.tracker) >= Remaining(Spawn)
  {
    if moves != [] {
      var before, m := moves[..|moves| - 1], moves[|moves| - 1];
      WatcherStaysClosing(transport, before);
      FirstFrameIsHello(transport, before);
      if !m.who.Tracker? {
        PcsOfOthers(CancelFirst, Run(CancelFirst, transport, before), m.who, m.choice);
      }
    }
  }

  /** A shutdown seen by the watcher ends the connection: in any interleaving, after five more moves
      of the watcher the context is cancelled, and the tracker's wait for the end is enabled. */
  lemma {:induction false} ShutdownCancels(transport: Transport, moves: seq<Move>, later: seq<Move>)
    requires Run(CancelFirst, transport, moves).watcher.Watch? && WatcherMoves(later) >= 5
    ensures var r := Run(CancelFirst, transport, moves + [Move(Watcher, Close)] + later);
      && r.watcher.Finished? && r.cancelled
      && (r.tracker.AwaitClose? ==> Step(CancelFirst, r, Move(Tracker, Proceed)).tracker.DecActive?)
  {
    RunSnoc(CancelFirst, transport, moves, Move(Watcher, Close));
    WatcherGoesOn(transport, moves + [Move(Watcher, Close)], later);
    FinishedIsCancelled(transport, moves + [Move(Watcher, Close)] + later);
  }

  // ---------------------------------------------------------------- a connection from start to end

  /** On either transport: greeting, tracking, a reply to a command, a shutdown. The client reads
      Hello, the reply and End of Stream, and everybody who has to end does. */
  lemma {:induction false} GracefulRun(transport: Transport) returns (moves: seq<Move>)
    ensures Run(CancelFirst, transport, moves)
         == Conn(transport, Finished, Live, Finished, Exited, true, true, [Hello, Reply, EndOfStream])
  {
    var m0 := Untracked(transport);
    var m1 := m0 + [Move(Main, Leave)];
    var m2 := m1 + [Move(Main, Proceed)];
    moves := m2 + [Move(Main, Proceed)];
    RunSnoc(CancelFirst, transport, m0, Move(Main, Leave));
    assert Run(CancelFirst, transport, m1).main == DestroyFirst;
    RunSnoc(CancelFirst, transport, m1, Move(Main, Proceed));
    assert Run(CancelFirst, transport, m2).main == DestroySecond;
    RunSnoc(CancelFirst, transport, m2, Move(Main, Proceed));
  }

  lemma {:induction false} Untracked(transport: Transport) returns (moves: seq<Move>)
    ensures Run(CancelFirst, transport, moves)
         == Conn(transport, Live, Live, Finished, Exited, true, true, [Hello, Reply, EndOfStream])
  {
    var track := Move(Tracker, Proceed);
    var m0 := Closed(transport);
    var m1 := m0 + [track];
    var m2 := m1 + [track];
    moves := m2 + [track];
    RunSnoc(CancelFirst, transport, m0, track);
    assert Run(CancelFirst, transport, m1).tracker == DecActive;
    RunSnoc(CancelFirst, transport, m1, track);
    assert Run(CancelFirst, transport, m2).tracker == DecTransport;
    RunSnoc(CancelFirst, transport, m2, track);
  }

  lemma {:induction false} HelloSent(transport: Transport) returns (moves: seq<Move>)
    ensures Run(CancelFirst, transport, moves) == Conn(transport, Live, Await, Unborn, AwaitReady, false, true, [Hello])
  {
    var main := Move(Main, Proceed);
    var m0: seq<Move> := [];
    var m1 := m0 + [main];
    var m2 := m1 + [main];
    moves := m2 + [main];
    RunSnoc(CancelFirst, transport, m0, main);
    assert Run(CancelFirst, transport, m1).main == GreetWrite;
    RunSnoc(CancelFirst, transport, m1, main);
    assert Run(CancelFirst, transport, m2) == Conn(transport, Mark, Await, Unborn, AwaitReady, false, false, [Hello]);
    RunSnoc(CancelFirst, transport, m2, main);
  }

  lemma {:induction false} Tracked(transport: Transport) returns (moves: seq<Move>)
    ensures Run(CancelFirst, transport, moves) == Conn(transport, Live, Await, Watch, AwaitClose, false, true, [Hello])
  {
    var track := Move(Tracker, Proceed);
    var m0 := HelloSent(transport);
    var m1 := m0 + [track];
    var m2 := m1 + [track];
    var m3 := m2 + [track];
    moves := m3 + [track];
    RunSnoc(CancelFirst, transport, m0, track);
    assert Run(CancelFirst, transport, m1).tracker == IncActive;
    RunSnoc(CancelFirst, transport, m1, track);
    assert Run(CancelFirst, transport, m2).tracker == IncTransport;
    RunSnoc(CancelFirst, transport, m2, track);
    assert Run(CancelFirst, transport, m3).tracker == Spawn;
    RunSnoc(CancelFirst, transport, m3, track);
  }

  lemma {:induction false} ReaderLive(transport: Transport) returns (moves: seq<Move>)
    ensures Run(CancelFirst, transport, moves) == Conn(transport, Live, Live, Watch, AwaitClose, false, true, [Hello])
  {
    var reader := Move(Reader, Proceed);
    var m0 := Tracked(transport);
    var m1 := m0 + [reader];
    moves := m1 + [reader];
    RunSnoc(CancelFirst, transport, m0, reader);
    assert Run(CancelFirst, transport, m1).reader == Gate;
    RunSnoc(CancelFirst, transport, m1, reader);
  }

  lemma {:induction false} Replied(transport: Transport) returns (moves: seq<Move>)
    ensures Run(CancelFirst, transport, moves)
         == Conn(transport, Live, Live, Watch, AwaitClose, false, true, [Hello, Reply])
  {
    var reader := Move(Reader, Proceed);
    var m0 := ReaderLive(transport);
    var m1 := m0 + [Move(Reader, Send)];
    var m2 := m1 + [reader];
    moves := m2 + [reader];
    RunSnoc(CancelFirst, transport, m0, Move(Reader, Send));
    assert Run(CancelFirst, transport, m1).reader == SendGate;
    RunSnoc(CancelFirst, transport, m1, reader);
    assert Run(CancelFirst, transport, m2) == Conn(transport, Live, Sending, Watch, AwaitClose, false, true, [Hello]);
    RunSnoc(CancelFirst, transport, m2, reader);
    assert [Hello] + [Reply] == [Hello, Reply];
  }

  lemma {:induction false} Closed(transport: Transport) returns (moves: seq<Move>)
    ensures Run(CancelFirst, transport, moves)
         == Conn(transport, Live, Live, Finished, AwaitClose, true, true, [Hello, Reply, EndOfStream])
  {
    var watch := Move(Watcher, Close);
    var m0 := AboutToClose(transport);
    var m1 := m0 + [watch];
    var m2 := m1 + [watch];
    moves := m2 + [watch];
    RunSnoc(CancelFirst, transport, m0, watch);
    assert [Hello, Reply] + [EndOfStream] == [Hello, Reply, EndOfStream];
    assert Run(CancelFirst, transport, m1)
        == Conn(transport, Live, Live, CloseFirst, AwaitClose, false, true, [Hello, Reply, EndOfStream]);
    RunSnoc(CancelFirst, transport, m1, watch);
    assert Run(CancelFirst, transport, m2).cancelled;
    RunSnoc(CancelFirst, transport, m2, watch);
  }

  lemma {:induction false} AboutToClose(transport: Transport) returns (moves: seq<Move>)
    ensures Run(CancelFirst, transport, moves)
         == Conn(transport, Live, Live, CloseWrite, AwaitClose, false, true, [Hello, Reply])
  {
    var watch := Move(Watcher, Close);
    var m0 := Replied(transport);
    var m1 := m0 + [watch];
    var m2 := m1 + [watch];
    moves := m2 + [watch];
    RunSnoc(CancelFirst, transport, m0, watch);
    assert Run(CancelFirst, transport, m1).watcher == CloseCheck;
    RunSnoc(CancelFirst, transport, m1, watch);
    assert Run(CancelFirst, transport, m2).watcher == CloseGate;
    RunSnoc(CancelFirst, transport, m2, watch);
  }

  // ---------------------------------------------------------------- no writing after the end

  /** How many actors are past their look at the context and about to write. */
  function Writers(c: Conn): nat {
    AboutToWrite(c.main) + AboutToWrite(c.reader) + AboutToWrite(c.watcher)
  }

  function AboutToWrite(pc: Pc): nat {
    if pc.GreetWrite? || pc.Sending? || pc.CloseWrite? then 1 else 0
  }

  /** Frames are never taken back. On a WebSocket whose context is cancelled, only those already
      about to write still can. */
  lemma {:induction false} LastFrames(transport: Transport, moves: seq<Move>, later: seq<Move>)
    ensures var c, r := Run(CancelFirst, transport, moves), Run(CancelFirst, transport, moves + later);
      && c.frames <= r.frames
      && (transport.WebSocket? && c.cancelled ==> r.cancelled && |r.frames| + Writers(r) <= |c.frames| + Writers(c))
    decreases |later|
  {
    if later == [] {
      assert moves + later == moves;
    } else {
      var before, m := later[..|later| - 1], later[|later| - 1];
      LastFrames(transport, moves, before);
      assert moves + later == (moves + before) + [m];
      RunSnoc(CancelFirst, transport, moves + before, m);
      TransportStays(transport, moves + before);
      var c := Run(CancelFirst, transport, moves + before);
      OneFrame(c, m);
      if c.transport.WebSocket? && c.cancelled {
        WriteGate(c, m);
      }
    }
  }

  lemma {:induction false} TransportStays(transport: Transport, moves: seq<Move>)
    ensures Run(CancelFirst, transport, moves).transport == transport
  {
    if moves != [] {
      var before, m := moves[..|moves| - 1], moves[|moves| - 1];
      TransportStays(transport, before);
      if !m.who.Tracker? {
        PcsOfOthers(CancelFirst, Run(CancelFirst, transport, before), m.who, m.choice);
      }
    }
  }

  /** The frame an actor writes at this point. */
  function Written(pc: Pc, choice: Choice): seq<Frame> {
    if choice.Errs() then []
    else if pc.GreetWrite? then [Hello]
    else if pc.Sending? then [Reply]
    else if pc.CloseWrite? then [EndOfStream]
    else []
  }

  /** A step writes a frame exactly when its actor is about to write and the write does not fail. */
  lemma {:induction false} OneFrame(c: Conn, m: Move)
    ensures var r := Step(CancelFirst, c, m);
      && r.frames == c.frames + Written(PcOf(c, m.who), m.choice)
      && (c.cancelled ==> r.cancelled)
  {
    if !m.who.Tracker? {
      EffectFrames(c, PcOf(c, m.who), m.choice);
    }
  }

  lemma {:induction false} EffectFrames(c: Conn, pc: Pc, choice: Choice)
    ensures var r := Effect(CancelFirst, c, pc, choice);
      r.frames == c.frames + Written(pc, choice) && (c.cancelled ==> r.cancelled)
  {
  }

  /** Past the cancelled context of a WebSocket nobody comes to be about to write. */
  lemma {:induction false} WriteGate(c: Conn, m: Move)
    requires c.transport.WebSocket? && c.cancelled
    ensures |Written(PcOf(c, m.who), m.choice)| + Writers(Step(CancelFirst, c, m)) <= Writers(c)
  {
    if m.who.Tracker? {
      assert Writers(TrackerStep(c)) <= Writers(c);
    } else {
      PcsOfOthers(CancelFirst, c, m.who, m.choice);
      NextGate(c, m.who, PcOf(c, m.who), m.choice);
    }
  }

  lemma {:induction false} NextGate(c: Conn, who: Actor, pc: Pc, choice: Choice)
    requires c.transport.WebSocket? && c.cancelled
    ensures |Written(pc, choice)| + AboutToWrite(NextPc(c, who, pc, choice)) <= AboutToWrite(pc)
  {
  }

  // ---------------------------------------------------------------- tracking ends

  function Remaining(pc: TrackPc): nat {
    match pc
    case AwaitReady => 7 case IncActive => 6 case IncTransport => 5 case Spawn => 4
    case AwaitClose => 3 case DecActive => 2 case DecTransport => 1 case Exited => 0
  }

  function TrackerMoves(moves: seq<Move>): nat {
    if moves == [] then 0
    else TrackerMoves(moves[..|moves| - 1]) + (if moves[|moves| - 1].who.Tracker? then 1 else 0)
  }

  lemma {:induction false} FlagsStay(transport: Transport, moves: seq<Move>, later: seq<Move>)
    requires var c := Run(CancelFirst, transport, moves); c.ready && c.cancelled
    ensures var c := Run(CancelFirst, transport, moves + later); c.ready && c.cancelled
    decreases |later|
  {
    if later == [] {
      assert moves + later == moves;
    } else {
      var before, m := later[..|later| - 1], later[|later| - 1];
      FlagsStay(transport, moves, before);
      var c := Run(CancelFirst, transport, moves + before);
      assert moves + later == (moves + before) + [m];
      RunSnoc(CancelFirst, transport, moves + before, m);
      if !m.who.Tracker? {
        WriterGrows(CancelFirst, c, m.who, m.choice);
      }
    }
  }

  /** With both flags set, each move of the tracker brings it one step nearer its end, whoever moves
      in between. */
  lemma {:induction false} TrackerGoesOn(transport: Transport, moves: seq<Move>, later: seq<Move>)
    requires var c := Run(CancelFirst, transport, moves); c.ready && c.cancelled
    ensures var left := Remaining(Run(CancelFirst, transport, moves).tracker); var n := TrackerMoves(later);
      Remaining(Run(CancelFirst, transport, moves + later).tracker) == if n < left then left - n else 0
    decreases |later|
  {
    if later == [] {
      assert moves + later == moves;
    } else {
      var before, m := later[..|later| - 1], later[|later| - 1];
      var c := Run(CancelFirst, transport, moves + before);
      TrackerGoesOn(transport, moves, before);
      FlagsStay(transport, moves, before);
      assert moves + later == (moves + before) + [m];
      RunSnoc(CancelFirst, transport, moves + before, m);
      if !m.who.Tracker? {
        PcsOfOthers(CancelFirst, c, m.who, m.choice);
      }
    }
  }

  /** Once any goroutine has been through the two actions of `Destroy`, both waits of the
      connection's tracker are enabled for good. In any interleaving that follows, the steps the
      tracker still has to take drop by one with each move of its own; it has ended after seven. */
  lemma {:induction false} DestroyEndsTracking(transport: Transport, moves: seq<Move>, m: Move, later: seq<Move>)
    requires var pc := PcOf(Run(CancelFirst, transport, moves), m.who); pc.DestroySecond? || pc.CloseSecond?
    ensures var c, r := Run(CancelFirst, transport, moves + [m]), Run(CancelFirst, transport, moves + [m] + later);
      var n := TrackerMoves(later);
      && r.ready && r.cancelled
      && Remaining(r.tracker) == (if n < Remaining(c.tracker) then Remaining(c.tracker) - n else 0)
      && (n >= 7 ==> r.tracker.Exited?)
  {
    FirstFrameIsHello(transport, moves);
    RunSnoc(CancelFirst, transport, moves, m);
    FlagsStay(transport, moves + [m], later);
    TrackerGoesOn(transport, moves + [m], later);
  }
}
