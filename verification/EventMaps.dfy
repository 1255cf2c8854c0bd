/** The per-session event map: channels of three parallel slices above the routing index. */
module EventMaps {
  import opened Options
  import opened Slices
  import opened RoutingIndex

  type EventType = string
  type Condition = map<string, string>
  /** The random `uint32` given to a subscription. It is only ever compared. */
  type SubId = nat

  /** The three functions of the shared `events` package that the event map calls. */
  datatype Library = Library(
    matches: (Condition, Condition) -> bool,
    dispatchKey: (EventType, Condition) -> Subject,
    objectName: EventType -> string)
  {
    predicate Matches(a: Condition, b: Condition) {
      matches(a, b)
    }

    function Key(t: EventType, c: Condition): Subject {
      dispatchKey(t, c)
    }

    function Wildcard(t: EventType): EventType {
      objectName(t) + ".*"
    }

    /** All that is assumed of them: matching is reflexive, dispatch keys are injective. */
    ghost predicate Lawful() {
      && (forall c :: Matches(c, c))
      && (forall t, c, t', c' {:trigger Key(t, c), Key(t', c')} :: Key(t, c) == Key(t', c') ==> t == t' && c == c')
    }
  }

  datatype Properties = Properties(ttl: nat, auto: bool)

  datatype Channel = Channel(ids: seq<SubId>, conditions: seq<Condition>, properties: seq<Properties>)

  const EMPTY_CHANNEL := Channel([], [], [])

  datatype EventState = EventState(m: map<EventType, Channel>, destroyed: bool)

  const NEW_EVENT_STATE := EventState(map[], false)

  /** A session's event map together with the index it writes to under its own lock. */
  datatype Layer = Layer(ev: EventState, ix: Index)

  datatype Status = Ok | AlreadySubscribed | NotSubscribed

  // ---------------------------------------------------------------- specification

  function ChannelOf(ev: EventState, t: EventType): Channel {
    if t in ev.m then ev.m[t] else EMPTY_CHANNEL
  }

  /** The first stored condition that matches c, or the number of conditions. */
  function FirstMatch(lib: Library, conditions: seq<Condition>, c: Condition): (i: nat)
    ensures i <= |conditions|
    ensures forall j | 0 <= j < i :: !lib.Matches(conditions[j], c)
    ensures i < |conditions| ==> lib.Matches(conditions[i], c)
  {
    if conditions == [] || lib.Matches(conditions[0], c) then 0 else 1 + FirstMatch(lib, conditions[1..], c)
  }

  function Append(ec: Channel, id: SubId, c: Condition, props: Properties): Channel {
    Channel(ec.ids + [id], ec.conditions + [c], ec.properties + [props])
  }

  function RemoveAt(ec: Channel, i: nat): Channel {
    Channel(SliceRemove(ec.ids, i), SliceRemove(ec.conditions, i), SliceRemove(ec.properties, i))
  }

  /** Stores a shortened channel, or deletes it once no id is left. */
  function StoreOrDelete(m: map<EventType, Channel>, t: EventType, ec: Channel): map<EventType, Channel> {
    if ec.ids == [] then m - {t} else m[t := ec]
  }

  predicate Refuses(lib: Library, ev: EventState, t: EventType, c: Condition) {
    var ec := ChannelOf(ev, t);
    || (t in ev.m && ec.conditions == [] && |c| == 0)
    || FirstMatch(lib, ec.conditions, c) < |ec.conditions|
  }

  function Subscribed(lib: Library, sid: SessionId, l: Layer, t: EventType, c: Condition, props: Properties, id: SubId)
    : Layer
  {
    if Refuses(lib, l.ev, t, c) then l
    else Layer(l.ev.(m := l.ev.m[t := Append(ChannelOf(l.ev, t), id, c, props)]),
               SubscribeAll(l.ix, sid, [lib.Key(t, c)]))
  }

  function Unsubscribed(lib: Library, sid: SessionId, l: Layer, t: EventType, c: Condition): Layer {
    if |c| == 0 then Layer(l.ev.(m := l.ev.m - {t}), l.ix)
    else
      var ec := ChannelOf(l.ev, t);
      var i := FirstMatch(lib, ec.conditions, c);
      if t !in l.ev.m || i == |ec.conditions| then l
      else Layer(l.ev.(m := StoreOrDelete(l.ev.m, t, RemoveAt(ec, i))),
                 UnsubscribeAll(l.ix, sid, [lib.Key(t, ec.conditions[i])]))
  }

  /** Where the id loops stop inside one channel: the first listed id that occurs. */
  function HitPosition(ec: Channel, ids: seq<SubId>): (i: nat)
    ensures i <= |ec.ids|
    ensures i < |ec.ids| ==> ec.ids[i] in ids
    ensures i == |ec.ids| ==> forall id | id in ids :: id !in ec.ids
  {
    if ids == [] then |ec.ids| else
      var i := Find(ec.ids, ids[0]);
      if i < |ec.ids| then i else HitPosition(ec, ids[1..])
  }

  predicate Hits(ev: EventState, t: EventType, ids: seq<SubId>) {
    t in ev.m && HitPosition(ev.m[t], ids) < |ev.m[t].ids|
  }

  function HitKey(lib: Library, ev: EventState, t: EventType, ids: seq<SubId>): Subject
    requires Hits(ev, t, ids)
  {
    var i := HitPosition(ev.m[t], ids);
    lib.Key(t, if i < |ev.m[t].conditions| then ev.m[t].conditions[i] else map[])
  }

  /** As written: Go visits the types in no particular order and stops at the first one with a
      hit, here `at`. The index loses the entry, the event map keeps it, because only the loop's
      copy of the channel is shortened. */
  function WithoutID(lib: Library, sid: SessionId, l: Layer, ids: seq<SubId>, at: EventType): Layer {
    if Hits(l.ev, at, ids) then l.(ix := UnsubscribeAll(l.ix, sid, [HitKey(lib, l.ev, at, ids)])) else l
  }

  /** The same call with the shortened channel stored back, as `Unsubscribe` does. */
  function WithoutIDStored(lib: Library, sid: SessionId, l: Layer, ids: seq<SubId>, at: EventType): Layer {
    if !Hits(l.ev, at, ids) then l
    else Layer(l.ev.(m := StoreOrDelete(l.ev.m, at, RemoveAt(l.ev.m[at], HitPosition(l.ev.m[at], ids)))),
               UnsubscribeAll(l.ix, sid, [HitKey(lib, l.ev, at, ids)]))
  }

  /** `Destroy` runs once; a later call finds the once-flag set. */
  function Destroyed(sid: SessionId, l: Layer): Layer {
    if l.ev.destroyed then l else Layer(EventState(map[], true), CloseSession(l.ix, sid))
  }

  /** The entries of the exact type followed by those of the object wildcard. */
  function Lookup(lib: Library, ev: EventState, t: EventType): Option<Channel> {
    var w := lib.Wildcard(t);
    if t !in ev.m && w !in ev.m then None else
      var a, b := ChannelOf(ev, t), ChannelOf(ev, w);
      Some(Channel(a.ids + b.ids, a.conditions + b.conditions, a.properties + b.properties))
  }

  /** The ids `Match` collects when the slices are as long as each other. */
  function MatchSet(lib: Library, ec: Channel, cs: seq<Condition>): set<SubId> {
    set i, c | 0 <= i < |ec.ids| && i < |ec.conditions| && c in cs && lib.Matches(ec.conditions[i], c) :: ec.ids[i]
  }

  // ---------------------------------------------------------------- invariants

  predicate Aligned(ec: Channel) {
    |ec.ids| == |ec.conditions| == |ec.properties|
  }

  /** A stored channel: nonempty, aligned, and no earlier condition matches a later one. */
  ghost predicate ChannelOk(lib: Library, ec: Channel) {
    && Aligned(ec)
    && ec.ids != []
    && (forall i, j | 0 <= i < j < |ec.conditions| :: !lib.Matches(ec.conditions[i], ec.conditions[j]))
  }

  ghost predicate MapOk(lib: Library, ev: EventState) {
    forall t | t in ev.m :: ChannelOk(lib, ev.m[t])
  }

  /** The session holds a subscription to type t with condition c. */
  predicate Live(ev: EventState, t: EventType, c: Condition) {
    t in ev.m && c in ev.m[t].conditions
  }

  /** Every live entry is routed to the session. */
  ghost predicate Covered(lib: Library, sid: SessionId, l: Layer) {
    forall t, c | Live(l.ev, t, c) :: lib.Key(t, c) in Subjects(l.ix, sid)
  }

  /** And nothing else is. */
  ghost predicate Exact(lib: Library, sid: SessionId, l: Layer) {
    && Covered(lib, sid, l)
    && forall k | k in Subjects(l.ix, sid) :: exists t, c :: Live(l.ev, t, c) && lib.Key(t, c) == k
  }

  datatype Entry = Entry(id: SubId, condition: Condition, properties: Properties)

  /** The channel read as a list of subscriptions. */
  function Entries(ec: Channel): seq<Entry>
    requires Aligned(ec)
  {
    seq(|ec.ids|, i requires 0 <= i < |ec.ids| => Entry(ec.ids[i], ec.conditions[i], ec.properties[i]))
  }

  // ---------------------------------------------------------------- the event map object

  class EventMap<Message> {
    const lib: Library
    const sid: SessionId
    const hub: Hub<Message>
    var m: map<EventType, Channel>
    var destroyed: bool

    constructor (lib: Library, sid: SessionId, hub: Hub<Message>)
      ensures this.lib == lib && this.sid == sid && this.hub == hub
      ensures Events() == NEW_EVENT_STATE
    {
      this.lib, this.sid, this.hub := lib, sid, hub;
      m, destroyed := map[], false;
    }

    function Events(): EventState
      reads this
    {
      EventState(m, destroyed)
    }

    function View(): Layer
      reads this, hub
    {
      Layer(Events(), hub.View())
    }

    /** The slices of every stored channel have one length. */
    ghost predicate Valid()
      reads this
    {
      forall t | t in m :: Aligned(m[t])
    }

    method Subscribe(t: EventType, cond: Condition, props: Properties, id: SubId) returns (status: Status)
      requires Valid()
      modifies this`m, hub`subjects, hub`sessions
      ensures Valid()
      ensures View() == Subscribed(lib, sid, old(View()), t, cond, props, id)
      ensures status == Ok <==>
        (!Refuses(lib, old(Events()), t, cond)
          || (var ec := ChannelOf(old(Events()), t); var i := FirstMatch(lib, ec.conditions, cond);
              i < |ec.properties| && ec.properties[i].auto))
      ensures status == Ok || status == AlreadySubscribed
    {
      var ec := if t in m then m[t] else EMPTY_CHANNEL;
      if t in m && |ec.conditions| == 0 && |cond| == 0 {
        return AlreadySubscribed;
      }
      for i := 0 to |ec.conditions|
        invariant m == old(m) && hub.View() == old(hub.View())
        invariant forall j | 0 <= j < i :: !lib.Matches(ec.conditions[j], cond)
      {
        if lib.Matches(ec.conditions[i], cond) {
          assert FirstMatch(lib, ec.conditions, cond) == i;
          return if ec.properties[i].auto then Ok else AlreadySubscribed;
        }
      }
      ec := Channel(ec.ids + [id], ec.conditions + [cond], ec.properties + [props]);
      m := m[t := ec];
      hub.Subscribe(sid, [lib.Key(t, cond)]);
      return Ok;
    }

    method Unsubscribe(t: EventType, cond: Condition) returns (id: SubId, status: Status)
      requires Valid()
      modifies this`m, hub`subjects, hub`sessions
      ensures Valid()
      ensures View() == Unsubscribed(lib, sid, old(View()), t, cond)
      ensures status == Ok <==>
        (t in old(m) && (|cond| == 0 || FirstMatch(lib, old(m)[t].conditions, cond) < |old(m)[t].conditions|))
      ensures status == Ok || status == NotSubscribed
      ensures status == Ok && |cond| > 0 ==> id == old(m)[t].ids[FirstMatch(lib, old(m)[t].conditions, cond)]
    {
      id := 0;
      if |cond| == 0 {
        status := if t in m then Ok else NotSubscribed;
        m := m - {t};
        return;
      }
      if t !in m {
        return 0, NotSubscribed;
      }
      var conditions := m[t].conditions;
      for i := 0 to |conditions|
        invariant m == old(m) && hub.View() == old(hub.View())
        invariant forall j | 0 <= j < i :: !lib.Matches(conditions[j], cond)
      {
        if lib.Matches(conditions[i], cond) {
          assert FirstMatch(lib, conditions, cond) == i;
          id := m[t].ids[i];
          RemoveEntry(t, i);
          return id, Ok;
        }
      }
      return 0, NotSubscribed;
    }

    /** What the matching turn of the loop does: shorten the three slices, leave the subject, store
        the channel back or delete it. */
    method RemoveEntry(t: EventType, i: nat)
      requires Valid() && t in m && i < |m[t].conditions|
      modifies this`m, hub`subjects, hub`sessions
      ensures Valid()
      ensures m == StoreOrDelete(old(m), t, RemoveAt(old(m)[t], i))
      ensures hub.View() == UnsubscribeAll(old(hub.View()), sid, [lib.Key(t, old(m)[t].conditions[i])])
    {
      var ec := m[t];
      var c := ec.conditions[i];
      ec := Channel(SliceRemove(ec.ids, i), SliceRemove(ec.conditions, i), SliceRemove(ec.properties, i));
      hub.Unsubscribe(sid, [lib.Key(t, c)]);
      if |ec.ids| == 0 {
        m := m - {t};
      } else {
        m := m[t := ec];
      }
    }

    method UnsubscribeWithID(ids: seq<SubId>) returns (status: Status)
      requires Valid()
      modifies hub`subjects, hub`sessions
      ensures status == Ok ==>
        exists at :: Hits(Events(), at, ids) && View() == WithoutID(lib, sid, old(View()), ids, at)
      ensures status != Ok ==>
        status == NotSubscribed && View() == old(View()) && forall at :: !Hits(Events(), at, ids)
    {
      var types := m.Keys;
      while types != {}
        invariant types <= m.Keys
        invariant hub.View() == old(hub.View())
        invariant forall t | t in m && t !in types :: !Hits(Events(), t, ids)
        decreases types
      {
        var t :| t in types;
        types := types - {t};
        var value := m[t];
        var j := 0;
        while j < |ids|
          invariant 0 <= j <= |ids|
          invariant hub.View() == old(hub.View())
          invariant HitPosition(value, ids[j..]) == HitPosition(value, ids)
        {
          assert ids[j..][1..] == ids[j + 1..];
          for i := 0 to |value.ids|
            invariant hub.View() == old(hub.View())
            invariant forall o | 0 <= o < i :: value.ids[o] != ids[j]
          {
            if value.ids[i] == ids[j] {
              assert Find(value.ids, ids[j]) == i == HitPosition(value, ids);
              assert HitKey(lib, Events(), t, ids) == lib.Key(t, value.conditions[i]);
              hub.Unsubscribe(sid, [lib.Key(t, value.conditions[i])]);
              value := RemoveAt(value, i);  // a copy: m[t] stays as it was
              assert Hits(Events(), t, ids);
              return Ok;
            }
          }
          assert Find(value.ids, ids[j]) == |value.ids|;
          j := j + 1;
        }
        assert ids[j..] == [];
      }
      return NotSubscribed;
    }

    method Get(t: EventType) returns (r: Option<Channel>)
      ensures r == Lookup(lib, Events(), t)
    {
      r := None;
      if t in m {
        r := Some(m[t]);
      }
      var w := lib.Wildcard(t);
      if w in m {
        if r == None {
          r := Some(EMPTY_CHANNEL);
        }
        r := Some(Channel(r.value.ids + m[w].ids, r.value.conditions + m[w].conditions,
                          r.value.properties + m[w].properties));
      }
      if t !in m && w in m {
        assert [] + m[w].ids == m[w].ids;
      } else if t in m && w !in m {
        assert m[t].ids + [] == m[t].ids;
        assert m[t].conditions + [] == m[t].conditions;
        assert m[t].properties + [] == m[t].properties;
      }
    }

    method Destroy()
      modifies this, hub`subjects, hub`sessions
      ensures View() == Destroyed(sid, old(View()))
    {
      if destroyed {
        return;
      }
      destroyed := true;
      m := map[];
      hub.Close(sid);
    }
  }

  /** `EventChannel.Match`. None stands for the run-time panic of an index out of range: the
      guard lets position |ids| through. */
  method Match(lib: Library, ec: Channel, cs: seq<Condition>) returns (r: Option<seq<SubId>>)
    ensures r.None? <==> exists i, c :: i == |ec.ids| < |ec.conditions| && c in cs && lib.Matches(ec.conditions[i], c)
    ensures r.Some? && ec.conditions == [] ==> r.value == ec.ids
    ensures r.Some? && ec.conditions != [] ==> Distinct(r.value) && Elements(r.value) == MatchSet(lib, ec, cs)
  {
    if |ec.conditions| == 0 {
      return Some(ec.ids);
    }
    var matches: set<SubId> := {};
    for j := 0 to |cs|
      invariant matches == MatchSet(lib, ec, cs[..j])
      invariant forall c | c in cs[..j] :: !(|ec.ids| < |ec.conditions| && lib.Matches(ec.conditions[|ec.ids|], c))
    {
      ghost var before := matches;
      assert cs[..j + 1] == cs[..j] + [cs[j]];
      for i := 0 to |ec.conditions|
        invariant matches
               == before + (set o | 0 <= o < i && o < |ec.ids| && lib.Matches(ec.conditions[o], cs[j]) :: ec.ids[o])
        invariant |ec.ids| < i ==> !lib.Matches(ec.conditions[|ec.ids|], cs[j])
      {
        if lib.Matches(ec.conditions[i], cs[j]) && |ec.ids| >= i {
          if i == |ec.ids| {
            assert cs[j] in cs;
            return None;
          }
          matches := matches + {ec.ids[i]};
        }
      }
      MatchSetGrows(lib, ec, cs[..j], cs[j]);
    }
    assert cs[..|cs|] == cs;
    var values := Values(matches);
    return Some(values);
  }

  lemma {:induction false} MatchSetGrows(lib: Library, ec: Channel, cs: seq<Condition>, c: Condition)
    ensures MatchSet(lib, ec, cs + [c])
         == MatchSet(lib, ec, cs)
            + (set o | 0 <= o < |ec.conditions| && o < |ec.ids| && lib.Matches(ec.conditions[o], c) :: ec.ids[o])
  {
    var here := set o | 0 <= o < |ec.conditions| && o < |ec.ids| && lib.Matches(ec.conditions[o], c) :: ec.ids[o];
    forall x | x in here
      ensures x in MatchSet(lib, ec, cs + [c])
    {
      var o :| 0 <= o < |ec.conditions| && o < |ec.ids| && lib.Matches(ec.conditions[o], c) && ec.ids[o] == x;
      assert c in cs + [c];
    }
    forall x | x in MatchSet(lib, ec, cs)
      ensures x in MatchSet(lib, ec, cs + [c])
    {
      var i, d :| 0 <= i < |ec.ids| && i < |ec.conditions| && d in cs
        && lib.Matches(ec.conditions[i], d) && ec.ids[i] == x;
      assert d in cs + [c];
    }
  }

  /** The elements of a set in some order, as ranging over a Go map gives them. */
  method Values(s: set<SubId>) returns (r: seq<SubId>)
    ensures Distinct(r) && Elements(r) == s
  {
    r := [];
    var rest := s;
    while rest != {}
      invariant Distinct(r) && Elements(r) + rest == s && Elements(r) !! rest
      decreases rest
    {
      var x :| x in rest;
      rest := rest - {x};
      assert x !in Elements(r);
      assert Elements(r + [x]) == Elements(r) + {x};
      r := r + [x];
    }
  }
}
