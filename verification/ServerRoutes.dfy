/** Which entries are routed after a run, told from the event maps alone. */
module ServerRoutes {
  import opened Slices
  import opened RoutingIndex
  import opened RoutingLaws
  import opened EventMaps
  import opened EventMapLaws
  import opened EventMapEffects
  import opened Dispatch
  import opened Server

  /** The session holds the entry. */
  predicate LiveIn(s: State, sid: SessionId, t: EventType, c: Condition) {
    sid in s.conns && Live(s.conns[sid].ev, t, c)
  }

  predicate RoutedIn(lib: Library, s: State, sid: SessionId, t: EventType, c: Condition) {
    lib.Key(t, c) in Subjects(s.ix, sid)
  }

  // ---------------------------------------------------------------- what a step means for one session

  predicate StepOf(op: Op, sid: SessionId) {
    !op.Publish? && op.sid == sid
  }

  /** A call of `UnsubscribeWithID`, as written, that finds an id. */
  predicate Loses(s: State, op: Op, sid: SessionId) {
    op.UnsubscribeWithID? && op.sid == sid && sid in s.conns && Hits(s.conns[sid].ev, op.at, op.ids)
  }

  /** It finds the entry (t, c). */
  predicate StrikesIn(s: State, op: Op, sid: SessionId, t: EventType, c: Condition) {
    op.UnsubscribeWithID? && op.sid == sid && sid in s.conns && Strikes(s.conns[sid].ev, op.at, op.ids, t, c)
  }

  /** The first `Destroy`. */
  predicate Closes(s: State, op: Op, sid: SessionId) {
    op.Destroy? && op.sid == sid && sid in s.conns && !s.conns[sid].ev.destroyed
  }

  predicate AppliesIn(lib: Library, s: State, op: Op, sid: SessionId) {
    op.Deliver? && op.sid == sid && sid in s.conns &&
    var w := Head(Queue(s.queues, sid)); w.Encoded? && Applies(lib, s.conns[sid], w.payload)
  }

  /** The session's layer once the step's additions are done and before its removals. */
  function Midway(lib: Library, s: State, op: Op, sid: SessionId): Layer
    requires sid in s.conns
  {
    if AppliesIn(lib, s, op, sid) then
      var grants := Added(Head(Queue(s.queues, sid)).payload);
      AddAll(lib, sid, LayerOf(s, sid), grants, Pad(op.ids, |grants|))
    else LayerOf(s, sid)
  }

  function Removals(lib: Library, s: State, op: Op, sid: SessionId): seq<Grant> {
    if AppliesIn(lib, s, op, sid) then Removed(Head(Queue(s.queues, sid)).payload)
    else if op.Unsubscribe? && op.sid == sid then [Grant(op.typ, op.condition, 0)]
    else []
  }

  /** The session holds the entry before the step or comes to hold it during the step. */
  predicate HeldIn(lib: Library, s: State, op: Op, sid: SessionId, t: EventType, c: Condition) {
    sid in s.conns && Live(Midway(lib, s, op, sid).ev, t, c)
  }

  /** The step removes the entry with its whole type. */
  predicate ForgetsIn(lib: Library, s: State, op: Op, sid: SessionId, t: EventType, c: Condition) {
    sid in s.conns && Forgets(lib, sid, Midway(lib, s, op, sid), Removals(lib, s, op, sid), t, c)
  }

  /** The step removes some whole type that the session holds. */
  predicate ForgetsTypeIn(lib: Library, s: State, op: Op, sid: SessionId) {
    sid in s.conns && ForgetsType(lib, sid, Midway(lib, s, op, sid), Removals(lib, s, op, sid))
  }

  // ---------------------------------------------------------------- one step

  lemma {:induction false} OneRemoval(lib: Library, sid: SessionId, l: Layer, g: Grant)
    ensures RemoveAll(lib, sid, l, [g]) == Unsubscribed(lib, sid, l, g.typ, g.condition)
  {
    assert [g][1..] == [];
    var next := Unsubscribed(lib, sid, l, g.typ, g.condition);
    assert RemoveAll(lib, sid, next, []) == next;
  }

  /** How a step from s to r treats the route of (t, c). An entry held afterwards is routed unless
      its id was found or it was held without a route; an entry held at some time but not
      afterwards keeps its route only if its whole type went; any other route stays until the
      session is destroyed. */
  predicate RouteLaw(lib: Library, s: State, op: Op, r: State, sid: SessionId, t: EventType, c: Condition) {
    RoutedIn(lib, r, sid, t, c) <==>
      if LiveIn(r, sid, t, c) then
        !StrikesIn(s, op, sid, t, c) && (LiveIn(s, sid, t, c) ==> RoutedIn(lib, s, sid, t, c))
      else if HeldIn(lib, s, op, sid, t, c) then
        ForgetsIn(lib, s, op, sid, t, c) && (LiveIn(s, sid, t, c) ==> RoutedIn(lib, s, sid, t, c))
      else RoutedIn(lib, s, sid, t, c) && !Closes(s, op, sid)
  }

  lemma {:induction false} DeliverRoutes(lib: Library, s: State, op: Op, sid: SessionId, t: EventType, c: Condition)
    requires lib.Lawful() && StateOk(lib, s) && sid in s.conns && op.Deliver? && op.sid == sid
    ensures var r := Step(lib, s, op);
      && (LiveIn(s, sid, t, c) ==> HeldIn(lib, s, op, sid, t, c))
      && RouteLaw(lib, s, op, r, sid, t, c)
      && (KeysOnly(lib, sid, s.ix) ==> KeysOnly(lib, sid, r.ix))
  {
    if AppliesIn(lib, s, op, sid) {
      var p := Head(Queue(s.queues, sid)).payload;
      AppliedDeliver(lib, s, op, sid);
      DispatchRoutes(lib, sid, Turn(s.conns[sid], s.ix), p, op.matches, Pad(op.ids, |Added(p)|), t, c);
    } else {
      SkippedDeliver(lib, s, op, sid);
    }
  }

  /** A message that applies changes them as the dispatch does. */
  lemma {:induction false} AppliedDeliver(lib: Library, s: State, op: Op, sid: SessionId)
    requires AppliesIn(lib, s, op, sid)
    ensures var p := Head(Queue(s.queues, sid)).payload;
      var turn := Dispatched(lib, sid, Turn(s.conns[sid], s.ix), p, op.matches, Pad(op.ids, |Added(p)|));
      var r := Step(lib, s, op);
      r.ix == turn.ix && sid in r.conns && r.conns[sid] == turn.conn
  {
  }

  /** A message that does not apply changes neither entries nor routes. */
  lemma {:induction false} SkippedDeliver(lib: Library, s: State, op: Op, sid: SessionId)
    requires sid in s.conns && op.Deliver? && op.sid == sid && !AppliesIn(lib, s, op, sid)
    ensures var r := Step(lib, s, op); r.ix == s.ix && r.conns == s.conns
  {
  }

  lemma {:induction false} UnsubscribeTurnRoutes(lib: Library, s: State, op: Op, sid: SessionId, t: EventType,
                                                 c: Condition)
    requires lib.Lawful() && StateOk(lib, s) && sid in s.conns && op.Unsubscribe? && op.sid == sid
    ensures var r := Step(lib, s, op);
      && RouteLaw(lib, s, op, r, sid, t, c)
      && (KeysOnly(lib, sid, s.ix) ==> KeysOnly(lib, sid, r.ix))
  {
    var g := Grant(op.typ, op.condition, 0);
    OneRemoval(lib, sid, LayerOf(s, sid), g);
    RemoveAllRoutes(lib, sid, LayerOf(s, sid), [g], t, c);
  }

  lemma {:induction false} IdRemovalRoutes(lib: Library, s: State, op: Op, sid: SessionId, t: EventType, c: Condition)
    requires lib.Lawful() && StateOk(lib, s) && sid in s.conns
    requires (op.UnsubscribeWithID? || op.UnsubscribeWithIDStored?) && op.sid == sid
    ensures var r := Step(lib, s, op);
      && RouteLaw(lib, s, op, r, sid, t, c)
      && (KeysOnly(lib, sid, s.ix) ==> KeysOnly(lib, sid, r.ix))
  {
    var l := LayerOf(s, sid);
    if op.UnsubscribeWithID? {
      WithoutIDRoutes(lib, sid, l, op.ids, op.at, t, c);
    } else {
      WithoutIDStoredRoutes(lib, sid, l, op.ids, op.at, t, c);
    }
  }

  /** A session's own step. */
  lemma {:induction false} TurnRoutes(lib: Library, s: State, op: Op, sid: SessionId, t: EventType, c: Condition)
    requires lib.Lawful() && StateOk(lib, s) && sid in s.conns && StepOf(op, sid)
    ensures var r := Step(lib, s, op);
      && (LiveIn(s, sid, t, c) ==> HeldIn(lib, s, op, sid, t, c))
      && RouteLaw(lib, s, op, r, sid, t, c)
      && (KeysOnly(lib, sid, s.ix) ==> KeysOnly(lib, sid, r.ix))
  {
    match op
    case Subscribe(_, _, _, _, _) => SubscribeTurnRoutes(lib, s, op, sid, t, c);
    case Unsubscribe(_, _, _) => UnsubscribeTurnRoutes(lib, s, op, sid, t, c);
    case UnsubscribeWithID(_, _, _) => IdRemovalRoutes(lib, s, op, sid, t, c);
    case UnsubscribeWithIDStored(_, _, _) => IdRemovalRoutes(lib, s, op, sid, t, c);
    case Destroy(_) => DestroyKeeps(lib, sid, LayerOf(s, sid));
    case Deliver(_, _, _) => DeliverRoutes(lib, s, op, sid, t, c);
    case Shut(_) =>
    case Attach(_) =>
    case Open(_, _) =>
  }

  lemma {:induction false} SubscribeTurnRoutes(lib: Library, s: State, op: Op, sid: SessionId, t: EventType,
                                               c: Condition)
    requires lib.Lawful() && StateOk(lib, s) && sid in s.conns && op.Subscribe? && op.sid == sid
    ensures var r := Step(lib, s, op);
      && RouteLaw(lib, s, op, r, sid, t, c)
      && (KeysOnly(lib, sid, s.ix) ==> KeysOnly(lib, sid, r.ix))
  {
    var l := LayerOf(s, sid);
    SubscribeRoutes(lib, sid, l, op.typ, op.condition, op.properties, op.id, t, c);
  }

  /** Steps of others leave a session's entries and routes alone. */
  lemma {:induction false} OthersRoutes(lib: Library, s: State, op: Op, sid: SessionId)
    requires lib.Lawful() && StateOk(lib, s) && !(StepOf(op, sid) && sid in s.conns)
    ensures var r := Step(lib, s, op);
      && Subjects(r.ix, sid) == Subjects(s.ix, sid)
      && (sid in s.conns ==> sid in r.conns && r.conns[sid] == s.conns[sid])
      && (sid !in s.conns && sid in r.conns ==> r.conns[sid].ev == NEW_EVENT_STATE)
  {
    StepKeeps(lib, s, op);
  }

  /** Any step, of this session or of another. */
  lemma {:induction false} StepRoutes(lib: Library, s: State, op: Op, sid: SessionId, t: EventType, c: Condition)
    requires lib.Lawful() && StateOk(lib, s) && NoStrangers(s)
    ensures LiveIn(s, sid, t, c) ==> HeldIn(lib, s, op, sid, t, c)
    ensures RouteLaw(lib, s, op, Step(lib, s, op), sid, t, c)
  {
    if StepOf(op, sid) && sid in s.conns {
      TurnRoutes(lib, s, op, sid, t, c);
    } else {
      OthersRoutes(lib, s, op, sid);
    }
  }

  // ---------------------------------------------------------------- which entries a step leaves

  /** The entries a session holds after one of its own steps, told by what the step asks for. */
  ghost predicate LiveLaw(lib: Library, s: State, op: Op, r: State, sid: SessionId, t: EventType, c: Condition)
    requires sid in s.conns && sid in r.conns
  {
    var ev := s.conns[sid].ev;
    LiveIn(r, sid, t, c) <==>
      match op
      case Subscribe(_, u, cond, _, _) =>
        Live(ev, t, c) || (t == u && c == cond && !exists d :: Live(ev, u, d) && lib.matches(d, cond))
      case Unsubscribe(_, u, cond) => Live(ev, t, c) && !EventMapEffects.Takes(lib, ev, Grant(u, cond, 0), t, c)
      case UnsubscribeWithIDStored(_, ids, at) =>
        Live(ev, t, c) && !(HasId(ev, at, ids) && Strikes(ev, at, ids, t, c))
      case Destroy(_) => Live(ev, t, c) && ev.destroyed
      case Deliver(_, _, _) =>
        if AppliesIn(lib, s, op, sid) then
          HeldIn(lib, s, op, sid, t, c)
          && !Taken(lib, sid, Midway(lib, s, op, sid), Removals(lib, s, op, sid), t, c)
        else Live(ev, t, c)
      case _ => Live(ev, t, c)
  }

  lemma {:induction false} TurnLives(lib: Library, s: State, op: Op, sid: SessionId, t: EventType, c: Condition)
    requires lib.Lawful() && StateOk(lib, s) && sid in s.conns && StepOf(op, sid)
    ensures sid in Step(lib, s, op).conns && LiveLaw(lib, s, op, Step(lib, s, op), sid, t, c)
  {
    var l := LayerOf(s, sid);
    match op
    case Subscribe(_, u, cond, props, id) =>
      SubscribeAdds(lib, sid, l, u, cond, props, id);
      RefusesIff(lib, l.ev, u, cond);
    case Unsubscribe(_, u, cond) => OneTaken(lib, sid, l, Grant(u, cond, 0), t, c);
    case UnsubscribeWithID(_, ids, at) =>
    case UnsubscribeWithIDStored(_, ids, at) => StoredRemovesHit(lib, sid, l, ids, at);
    case Destroy(_) => DestroyKeeps(lib, sid, l);
    case Deliver(_, _, _) => DeliverLives(lib, s, op, sid, t, c);
    case Shut(_) =>
    case Attach(_) =>
    case Open(_, _) =>
  }

  lemma {:induction false} DeliverLives(lib: Library, s: State, op: Op, sid: SessionId, t: EventType, c: Condition)
    requires lib.Lawful() && StateOk(lib, s) && sid in s.conns && op.Deliver? && op.sid == sid
    ensures sid in Step(lib, s, op).conns && LiveLaw(lib, s, op, Step(lib, s, op), sid, t, c)
  {
    if AppliesIn(lib, s, op, sid) {
      AppliedDeliver(lib, s, op, sid);
      MidwaySound(lib, s, op, sid);
      RemoveAllTakes(lib, sid, Midway(lib, s, op, sid), Removals(lib, s, op, sid), t, c);
    } else {
      SkippedDeliver(lib, s, op, sid);
    }
  }

  /** A step keeps all live entries of a session routed if and only if it is no lossy
      `UnsubscribeWithID` of that session. */
  lemma {:induction false} StepKeepsCovered(lib: Library, s: State, op: Op, sid: SessionId)
    requires lib.Lawful() && StateOk(lib, s) && NoStrangers(s)
    requires sid in s.conns && Covered(lib, sid, LayerOf(s, sid))
    ensures sid in Step(lib, s, op).conns
    ensures Covered(lib, sid, LayerOf(Step(lib, s, op), sid)) <==> !Loses(s, op, sid)
  {
    var r := Step(lib, s, op);
    StepKeeps(lib, s, op);
    if Loses(s, op, sid) {
      var c := StruckEntry(lib, s, op, sid);
      StepRoutes(lib, s, op, sid, op.at, c);
      assert Live(LayerOf(r, sid).ev, op.at, c) && !RoutedIn(lib, r, sid, op.at, c);
    } else {
      forall t, c | Live(LayerOf(r, sid).ev, t, c)
        ensures lib.Key(t, c) in Subjects(r.ix, sid)
      {
        StepRoutes(lib, s, op, sid, t, c);
        assert LiveIn(s, sid, t, c) ==> RoutedIn(lib, s, sid, t, c);
      }
    }
  }

  lemma {:induction false} StruckEntry(lib: Library, s: State, op: Op, sid: SessionId) returns (c: Condition)
    requires StateOk(lib, s) && Loses(s, op, sid)
    ensures StrikesIn(s, op, sid, op.at, c)
    ensures LiveIn(Step(lib, s, op), sid, op.at, c)
  {
    var ec := s.conns[sid].ev.m[op.at];
    assert ChannelOk(lib, ec);
    c := ec.conditions[HitPosition(ec, op.ids)];
  }

  /** A step keeps a session's routes equal to its live keys if and only if it is, of that session,
      neither a lossy `UnsubscribeWithID` nor the removal of a whole type it holds. */
  lemma {:induction false} StepKeepsExact(lib: Library, s: State, op: Op, sid: SessionId)
    requires lib.Lawful() && StateOk(lib, s) && NoStrangers(s)
    requires sid in s.conns && Exact(lib, sid, LayerOf(s, sid))
    ensures sid in Step(lib, s, op).conns
    ensures Exact(lib, sid, LayerOf(Step(lib, s, op), sid)) <==> !Loses(s, op, sid) && !ForgetsTypeIn(lib, s, op, sid)
  {
    var r := Step(lib, s, op);
    StepKeeps(lib, s, op);
    StepKeepsCovered(lib, s, op, sid);
    if ForgetsTypeIn(lib, s, op, sid) {
      MidwaySound(lib, s, op, sid);
      var t, c := ForgetsSomeEntry(lib, sid, Midway(lib, s, op, sid), Removals(lib, s, op, sid));
      ForgottenStays(lib, s, op, sid, t, c);
      ExactEntryByEntry(lib, sid, LayerOf(r, sid));
    } else if !Loses(s, op, sid) {
      NothingLeftOver(lib, s, op, sid);
    }
  }

  lemma {:induction false} MidwaySound(lib: Library, s: State, op: Op, sid: SessionId)
    requires lib.Lawful() && StateOk(lib, s) && sid in s.conns
    ensures Sound(lib, Midway(lib, s, op, sid))
  {
    if AppliesIn(lib, s, op, sid) {
      var grants := Added(Head(Queue(s.queues, sid)).payload);
      AddAllAnswers(lib, sid, LayerOf(s, sid), grants, Pad(op.ids, |grants|));
    }
  }

  /** Steps with removals end with them. */
  lemma {:induction false} MidwayThenRemovals(lib: Library, s: State, op: Op, sid: SessionId)
    requires sid in s.conns && Removals(lib, s, op, sid) != []
    ensures sid in Step(lib, s, op).conns
    ensures LayerOf(Step(lib, s, op), sid) == RemoveAll(lib, sid, Midway(lib, s, op, sid), Removals(lib, s, op, sid))
  {
    if op.Unsubscribe? {
      OneRemoval(lib, sid, LayerOf(s, sid), Grant(op.typ, op.condition, 0));
    }
  }

  lemma {:induction false} ForgottenStays(lib: Library, s: State, op: Op, sid: SessionId, t: EventType, c: Condition)
    requires lib.Lawful() && StateOk(lib, s) && NoStrangers(s)
    requires ForgetsIn(lib, s, op, sid, t, c) && (LiveIn(s, sid, t, c) ==> RoutedIn(lib, s, sid, t, c))
    ensures var r := Step(lib, s, op); !LiveIn(r, sid, t, c) && RoutedIn(lib, r, sid, t, c)
  {
    MidwaySound(lib, s, op, sid);
    RemoveAllRoutes(lib, sid, Midway(lib, s, op, sid), Removals(lib, s, op, sid), t, c);
    MidwayThenRemovals(lib, s, op, sid);
    StepRoutes(lib, s, op, sid, t, c);
  }

  lemma {:induction false} NothingLeftOver(lib: Library, s: State, op: Op, sid: SessionId)
    requires lib.Lawful() && StateOk(lib, s) && NoStrangers(s)
    requires sid in s.conns && Exact(lib, sid, LayerOf(s, sid))
    requires !Loses(s, op, sid) && !ForgetsTypeIn(lib, s, op, sid)
    ensures sid in Step(lib, s, op).conns
    ensures Exact(lib, sid, LayerOf(Step(lib, s, op), sid))
  {
    var r := Step(lib, s, op);
    StepKeeps(lib, s, op);
    ExactEntryByEntry(lib, sid, LayerOf(s, sid));
    ExactEntryByEntry(lib, sid, LayerOf(r, sid));
    StepKeepsKeys(lib, s, op, sid);
    forall t, c
      ensures Routed(lib, sid, LayerOf(r, sid), t, c) <==> Live(LayerOf(r, sid).ev, t, c)
    {
      StepRoutes(lib, s, op, sid, t, c);
      if ForgetsIn(lib, s, op, sid, t, c) {
        ForgetsItsType(lib, sid, Midway(lib, s, op, sid), Removals(lib, s, op, sid), t, c);
      }
      assert Routed(lib, sid, LayerOf(s, sid), t, c) <==> Live(LayerOf(s, sid).ev, t, c);
    }
  }

  lemma {:induction false} StepKeepsKeys(lib: Library, s: State, op: Op, sid: SessionId)
    requires lib.Lawful() && StateOk(lib, s) && NoStrangers(s) && KeysOnly(lib, sid, s.ix)
    ensures KeysOnly(lib, sid, Step(lib, s, op).ix)
  {
    if StepOf(op, sid) && sid in s.conns {
      TurnRoutes(lib, s, op, sid, "", map[]);
    } else {
      StepKeeps(lib, s, op);
    }
  }

  // ---------------------------------------------------------------- whole runs

  /** The session holds the entry, and since some `UnsubscribeWithID` found it has held it all along. */
  predicate Stranded(lib: Library, ops: seq<Op>, sid: SessionId, t: EventType, c: Condition) {
    ops != [] && LiveIn(Run(lib, ops), sid, t, c) &&
    var before, op := ops[..|ops| - 1], ops[|ops| - 1];
    StrikesIn(Run(lib, before), op, sid, t, c) || Stranded(lib, before, sid, t, c)
  }

  /** The session does not hold the entry, and when it last did a type-wide removal forgot the entry
      while it was routed; the session was not destroyed since. */
  predicate Leftover(lib: Library, ops: seq<Op>, sid: SessionId, t: EventType, c: Condition) {
    ops != [] && !LiveIn(Run(lib, ops), sid, t, c) &&
    var before, op := ops[..|ops| - 1], ops[|ops| - 1];
    var s := Run(lib, before);
    if HeldIn(lib, s, op, sid, t, c) then ForgetsIn(lib, s, op, sid, t, c) && !Stranded(lib, before, sid, t, c)
    else Leftover(lib, before, sid, t, c) && !Closes(s, op, sid)
  }

  /** After every run, whatever happened in it, a session is subscribed to the key of (t, c) if and
      only if it holds the entry and no `UnsubscribeWithID` has found it since it was last added, or
      the entry was forgotten with its whole type. */
  lemma {:induction false} RoutesExplained(lib: Library, ops: seq<Op>, sid: SessionId, t: EventType, c: Condition)
    requires lib.Lawful()
    ensures RoutedIn(lib, Run(lib, ops), sid, t, c)
      <==> (LiveIn(Run(lib, ops), sid, t, c) && !Stranded(lib, ops, sid, t, c)) || Leftover(lib, ops, sid, t, c)
  {
    if ops != [] {
      var before := ops[..|ops| - 1];
      RunKeepsState(lib, before);
      RoutesExplained(lib, before, sid, t, c);
      StepRoutes(lib, Run(lib, before), ops[|ops| - 1], sid, t, c);
    }
  }

  /** A live entry's key lists the session exactly once, in both maps, if and only if the entry is
      not stranded; and if it is, nowhere. */
  lemma {:induction false} LiveEntriesAreRouted(lib: Library, ops: seq<Op>, sid: SessionId, t: EventType, c: Condition)
    requires lib.Lawful() && LiveIn(Run(lib, ops), sid, t, c)
    ensures var s := Run(lib, ops);
      && (lib.Key(t, c) in Subjects(s.ix, sid) <==> !Stranded(lib, ops, sid, t, c))
      && multiset(Subjects(s.ix, sid))[lib.Key(t, c)] == (if Stranded(lib, ops, sid, t, c) then 0 else 1)
      && multiset(Subscribers(s.ix, lib.Key(t, c)))[sid] == (if Stranded(lib, ops, sid, t, c) then 0 else 1)
  {
    var s := Run(lib, ops);
    RunKeepsState(lib, ops);
    RoutesExplained(lib, ops, sid, t, c);
    assert RoutedIn(lib, s, sid, t, c) <==> sid in Subscribers(s.ix, lib.Key(t, c));
    DistinctMultiplicity(Subscribers(s.ix, lib.Key(t, c)), sid);
    DistinctMultiplicity(Subjects(s.ix, sid), lib.Key(t, c));
  }

  /** The dispatch keys of a session's live entries. */
  function LiveKeys(lib: Library, ev: EventState): set<Subject> {
    set t, c | t in ev.m && c in ev.m[t].conditions :: lib.Key(t, c)
  }

  lemma {:induction false} ExactIsLiveKeys(lib: Library, s: State, sid: SessionId)
    requires lib.Lawful() && sid in s.conns
    ensures Exact(lib, sid, LayerOf(s, sid)) <==> Elements(Subjects(s.ix, sid)) == LiveKeys(lib, s.conns[sid].ev)
  {
    var l, ev := LayerOf(s, sid), s.conns[sid].ev;
    forall t, c | Live(ev, t, c)
      ensures lib.Key(t, c) in LiveKeys(lib, ev)
    {
    }
    if Exact(lib, sid, l) {
      forall k
        ensures k in Elements(Subjects(s.ix, sid)) <==> k in LiveKeys(lib, ev)
      {
        if k in Subjects(s.ix, sid) {
          var t, c :| Live(ev, t, c) && lib.Key(t, c) == k;
        }
        if k in LiveKeys(lib, ev) {
          var t, c :| t in ev.m && c in ev.m[t].conditions && lib.Key(t, c) == k;
          assert Live(ev, t, c);
        }
      }
    }
    if Elements(Subjects(s.ix, sid)) == LiveKeys(lib, ev) {
      forall t, c | Live(ev, t, c)
        ensures lib.Key(t, c) in Subjects(s.ix, sid)
      {
        assert lib.Key(t, c) in Elements(Subjects(s.ix, sid));
      }
      forall k | k in Subjects(s.ix, sid)
        ensures exists t, c :: Live(ev, t, c) && lib.Key(t, c) == k
      {
        assert k in Elements(Subjects(s.ix, sid));
        var t, c :| t in ev.m && c in ev.m[t].conditions && lib.Key(t, c) == k;
        assert Live(ev, t, c);
      }
    }
  }

  lemma {:induction false} RunKeepsKeys(lib: Library, ops: seq<Op>, sid: SessionId)
    requires lib.Lawful()
    ensures KeysOnly(lib, sid, Run(lib, ops).ix)
  {
    if ops != [] {
      RunKeepsState(lib, ops[..|ops| - 1]);
      RunKeepsKeys(lib, ops[..|ops| - 1], sid);
      StepKeepsKeys(lib, Run(lib, ops[..|ops| - 1]), ops[|ops| - 1], sid);
    }
  }

  predicate Settled(lib: Library, ops: seq<Op>, sid: SessionId, t: EventType, c: Condition) {
    !Stranded(lib, ops, sid, t, c) && !Leftover(lib, ops, sid, t, c)
  }

  /** After any run a session's subjects are each listed once, and they are its live keys, no more
      and no fewer, if and only if no entry of it is stranded or left over. */
  lemma {:induction false} RoutesAreLiveKeysIff(lib: Library, ops: seq<Op>, sid: SessionId)
    requires lib.Lawful() && sid in Run(lib, ops).conns
    ensures var s := Run(lib, ops);
      && Distinct(Subjects(s.ix, sid))
      && (Elements(Subjects(s.ix, sid)) == LiveKeys(lib, s.conns[sid].ev)
          <==> (forall t, c :: Settled(lib, ops, sid, t, c)))
  {
    var s := Run(lib, ops);
    var l := LayerOf(s, sid);
    RunKeepsState(lib, ops);
    RunKeepsKeys(lib, ops, sid);
    ExactIsLiveKeys(lib, s, sid);
    ExactEntryByEntry(lib, sid, l);
    forall t, c
      ensures (Routed(lib, sid, l, t, c) <==> Live(l.ev, t, c))
        <==> Settled(lib, ops, sid, t, c)
    {
      RoutesExplained(lib, ops, sid, t, c);
      assert RoutedIn(lib, s, sid, t, c) <==> Routed(lib, sid, l, t, c);
    }
  }

  /** No `UnsubscribeWithID` of this session found an id. */
  predicate NeverLoses(lib: Library, ops: seq<Op>, sid: SessionId) {
    ops == [] ||
    (NeverLoses(lib, ops[..|ops| - 1], sid) && !Loses(Run(lib, ops[..|ops| - 1]), ops[|ops| - 1], sid))
  }

  /** No step removed a whole type that this session held. */
  predicate NeverForgets(lib: Library, ops: seq<Op>, sid: SessionId) {
    ops == [] ||
    (NeverForgets(lib, ops[..|ops| - 1], sid) && !ForgetsTypeIn(lib, Run(lib, ops[..|ops| - 1]), ops[|ops| - 1], sid))
  }

  /** In a session that never lost or forgot a route, whatever other sessions do, each live entry is
      routed and its subjects are its live keys. */
  lemma {:induction false} RoutesAreLiveKeys(lib: Library, ops: seq<Op>, sid: SessionId)
    requires lib.Lawful() && NeverLoses(lib, ops, sid) && sid in Run(lib, ops).conns
    ensures var s := Run(lib, ops);
      && LiveKeys(lib, s.conns[sid].ev) <= Elements(Subjects(s.ix, sid))
      && (NeverForgets(lib, ops, sid) ==> Elements(Subjects(s.ix, sid)) == LiveKeys(lib, s.conns[sid].ev))
  {
    var s := Run(lib, ops);
    var ev := s.conns[sid].ev;
    forall k | k in LiveKeys(lib, ev)
      ensures k in Elements(Subjects(s.ix, sid))
    {
      var t, c :| t in ev.m && c in ev.m[t].conditions && lib.Key(t, c) == k;
      NeverStranded(lib, ops, sid, t, c);
      RoutesExplained(lib, ops, sid, t, c);
    }
    if NeverForgets(lib, ops, sid) {
      RoutesAreLiveKeysIff(lib, ops, sid);
      forall t, c
        ensures Settled(lib, ops, sid, t, c)
      {
        NeverStranded(lib, ops, sid, t, c);
        NeverLeftover(lib, ops, sid, t, c);
      }
    }
  }

  lemma {:induction false} NeverStranded(lib: Library, ops: seq<Op>, sid: SessionId, t: EventType, c: Condition)
    requires NeverLoses(lib, ops, sid)
    ensures !Stranded(lib, ops, sid, t, c)
  {
    if ops != [] {
      NeverStranded(lib, ops[..|ops| - 1], sid, t, c);
    }
  }

  lemma {:induction false} NeverLeftover(lib: Library, ops: seq<Op>, sid: SessionId, t: EventType, c: Condition)
    requires NeverForgets(lib, ops, sid)
    ensures !Leftover(lib, ops, sid, t, c)
  {
    if ops != [] {
      var before, op := ops[..|ops| - 1], ops[|ops| - 1];
      var s := Run(lib, before);
      NeverLeftover(lib, before, sid, t, c);
      if ForgetsIn(lib, s, op, sid, t, c) {
        ForgetsItsType(lib, sid, Midway(lib, s, op, sid), Removals(lib, s, op, sid), t, c);
      }
    }
  }

  // ---------------------------------------------------------------- concrete runs

  /** A subscription removed by its id, as written: the session still holds the entry, its channel
      is no longer subscribed to the entry's subject, and asking again is refused. */
  lemma {:induction false} ExpiredEntryStays(lib: Library, sid: SessionId, publicId: string, t: EventType, c: Condition,
                                             props: Properties, id: SubId)
    requires lib.Lawful()
    ensures var s := Run(lib, OneEntry(sid, publicId, t, c, props, id) + [UnsubscribeWithID(sid, [id], t)]);
      && LiveIn(s, sid, t, c)
      && !RoutedIn(lib, s, sid, t, c)
      && Refuses(lib, s.conns[sid].ev, t, c)
  {
    var ops := OneEntry(sid, publicId, t, c, props, id);
    RunSnoc(lib, ops, UnsubscribeWithID(sid, [id], t));
    OneEntryState(lib, sid, publicId, t, c, props, id);
    ExpiryForgetsRoute(lib, Run(lib, ops), sid, t, c, props, id);
  }

  /** A type unsubscribed as a whole: the session holds nothing of it, but its channel is still
      subscribed to the entry's subject. */
  lemma {:induction false} ForgottenTypeStays(lib: Library, sid: SessionId, publicId: string, t: EventType,
                                              c: Condition,
                                              props: Properties, id: SubId)
    requires lib.Lawful()
    ensures var s := Run(lib, OneEntry(sid, publicId, t, c, props, id) + [Unsubscribe(sid, t, map[])]);
      && sid in s.conns && s.conns[sid].ev.m == map[]
      && RoutedIn(lib, s, sid, t, c)
  {
    var ops := OneEntry(sid, publicId, t, c, props, id);
    var s := Run(lib, ops);
    RunSnoc(lib, ops, Unsubscribe(sid, t, map[]));
    OneEntryState(lib, sid, publicId, t, c, props, id);
    assert LiveIn(s, sid, t, c);
    var r := Step(lib, s, Unsubscribe(sid, t, map[]));
    assert r.ix == s.ix && r.conns[sid].ev.m == map[];
  }

  function OneEntry(sid: SessionId, publicId: string, t: EventType, c: Condition, props: Properties,
                    id: SubId): seq<Op> {
    [Open(sid, publicId)] + [Subscribe(sid, t, c, props, id)]
  }

  lemma {:induction false} OneEntryState(lib: Library, sid: SessionId, publicId: string, t: EventType, c: Condition,
                                         props: Properties, id: SubId)
    requires lib.Lawful()
    ensures var s := Run(lib, OneEntry(sid, publicId, t, c, props, id));
      && StateOk(lib, s) && sid in s.conns && s.conns[sid].ev.m == map[t := Channel([id], [c], [props])]
      && RoutedIn(lib, s, sid, t, c)
  {
    var ops1 := [Open(sid, publicId)];
    RunSnoc(lib, [], Open(sid, publicId));
    RunSnoc(lib, ops1, Subscribe(sid, t, c, props, id));
    assert [] + [Open(sid, publicId)] == ops1;
    assert [] + [id] == [id] && [] + [c] == [c] && [] + [props] == [props];
    assert !Refuses(lib, NEW_EVENT_STATE, t, c);
    RunKeepsState(lib, OneEntry(sid, publicId, t, c, props, id));
    StepRoutes(lib, Run(lib, ops1), Subscribe(sid, t, c, props, id), sid, t, c);
  }

  lemma {:induction false} ExpiryForgetsRoute(lib: Library, s: State, sid: SessionId, t: EventType, c: Condition,
                                              props: Properties, id: SubId)
    requires lib.Lawful() && StateOk(lib, s)
    requires sid in s.conns && s.conns[sid].ev.m == map[t := Channel([id], [c], [props])]
    ensures var r := Step(lib, s, UnsubscribeWithID(sid, [id], t));
      && sid in r.conns && Live(r.conns[sid].ev, t, c)
      && lib.Key(t, c) !in Subjects(r.ix, sid)
      && Refuses(lib, r.conns[sid].ev, t, c)
  {
    var r := Step(lib, s, UnsubscribeWithID(sid, [id], t));
    UnsubscribeOneEffect(s.ix, sid, lib.Key(t, c));
    assert HitPosition(s.conns[sid].ev.m[t], [id]) == 0;
    assert r.conns[sid].ev == s.conns[sid].ev;
    assert lib.Matches(c, c);
  }
}
