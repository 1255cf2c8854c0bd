/** What each event-map call keeps, for one session above a shared index. */
module EventMapLaws {
  import opened Options
  import opened Slices
  import opened RoutingIndex
  import opened RoutingLaws
  import opened EventMaps

  /** The shared state is sound and so is this session's map. */
  ghost predicate Sound(lib: Library, l: Layer) {
    Bijective(l.ix) && MapOk(lib, l.ev)
  }

  /** A call by one session leaves the routes of every other session alone. */
  ghost predicate OnlyTouches(sid: SessionId, before: Index, after: Index) {
    forall s | s != sid :: Subjects(after, s) == Subjects(before, s)
  }

  lemma {:induction false} SubscribeSingle(ix: Index, sid: SessionId, k: Subject)
    ensures SubscribeAll(ix, sid, [k]) == SubscribeOne(ix, sid, k)
  {
    assert [k][1..] == [];
    assert SubscribeAll(SubscribeOne(ix, sid, k), sid, []) == SubscribeOne(ix, sid, k);
  }

  /** Conditions of a sound channel are pairwise different, since matching is reflexive. */
  lemma {:induction false} ConditionsDistinct(lib: Library, ec: Channel)
    requires lib.Lawful() && ChannelOk(lib, ec)
    ensures Distinct(ec.conditions)
  {
    forall i, j | 0 <= i < j < |ec.conditions|
      ensures ec.conditions[i] != ec.conditions[j]
    {
      assert lib.Matches(ec.conditions[j], ec.conditions[j]);
    }
  }

  // ---------------------------------------------------------------- Subscribe

  /** The map's side of `Subscribe`. */
  lemma {:induction false} SubscribeAdds(lib: Library, sid: SessionId, l: Layer, t: EventType, c: Condition,
                                         props: Properties, id: SubId)
    requires lib.Lawful() && MapOk(lib, l.ev)
    ensures var r := Subscribed(lib, sid, l, t, c, props, id);
      && MapOk(lib, r.ev)
      && (exists d :: Live(r.ev, t, d) && lib.Matches(d, c))
      && (forall t', c' ::
            Live(r.ev, t', c') <==> Live(l.ev, t', c') || (t' == t && c' == c && !Refuses(lib, l.ev, t, c)))
      && (!Refuses(lib, l.ev, t, c) ==> Entries(r.ev.m[t]) == Entries(ChannelOf(l.ev, t)) + [Entry(id, c, props)])
      && (forall t' | t' != t :: ChannelOf(r.ev, t') == ChannelOf(l.ev, t'))
      && r.ev.destroyed == l.ev.destroyed
  {
    var r := Subscribed(lib, sid, l, t, c, props, id);
    var ec := ChannelOf(l.ev, t);
    if Refuses(lib, l.ev, t, c) {
      var i := FirstMatch(lib, ec.conditions, c);
      assert Live(r.ev, t, ec.conditions[i]);
    } else {
      assert ChannelOk(lib, r.ev.m[t]);
      assert Live(r.ev, t, c) && lib.Matches(c, c);
    }
  }

  /** `Subscribe` adds one aligned entry and its route, or, when an entry already answers for the
      condition, nothing. Either way some entry of the type matches the condition afterwards. */
  lemma {:induction false} SubscribeKeeps(lib: Library, sid: SessionId, l: Layer, t: EventType, c: Condition,
                                          props: Properties, id: SubId)
    requires lib.Lawful() && Sound(lib, l)
    ensures var r := Subscribed(lib, sid, l, t, c, props, id);
      && Sound(lib, r)
      && OnlyTouches(sid, l.ix, r.ix)
      && (Covered(lib, sid, l) ==> Covered(lib, sid, r))
      && (Exact(lib, sid, l) ==> Exact(lib, sid, r))
      && (exists d :: Live(r.ev, t, d) && lib.Matches(d, c))
      && (forall t', c' ::
            Live(r.ev, t', c') <==> Live(l.ev, t', c') || (t' == t && c' == c && !Refuses(lib, l.ev, t, c)))
      && (!Refuses(lib, l.ev, t, c) ==> Entries(r.ev.m[t]) == Entries(ChannelOf(l.ev, t)) + [Entry(id, c, props)])
      && (forall t' | t' != t :: ChannelOf(r.ev, t') == ChannelOf(l.ev, t'))
      && r.ev.destroyed == l.ev.destroyed
  {
    SubscribeAdds(lib, sid, l, t, c, props, id);
    if !Refuses(lib, l.ev, t, c) {
      var r := Subscribed(lib, sid, l, t, c, props, id);
      var k := lib.Key(t, c);
      SubscribeSingle(l.ix, sid, k);
      SubscribeOneEffect(l.ix, sid, k);
      if Exact(lib, sid, l) {
        NewRouteIsLive(lib, sid, l, r, t, c);
      }
    }
  }

  lemma {:induction false} NewRouteIsLive(lib: Library, sid: SessionId, l: Layer, r: Layer, t: EventType, c: Condition)
    requires Exact(lib, sid, l) && Live(r.ev, t, c)
    requires forall t', c' | Live(l.ev, t', c') :: Live(r.ev, t', c')
    requires forall k | k in Subjects(r.ix, sid) :: k in Subjects(l.ix, sid) || k == lib.Key(t, c)
    ensures forall k | k in Subjects(r.ix, sid) :: exists t', c' :: Live(r.ev, t', c') && lib.Key(t', c') == k
  {
    forall k | k in Subjects(r.ix, sid)
      ensures exists t', c' :: Live(r.ev, t', c') && lib.Key(t', c') == k
    {
      if k != lib.Key(t, c) {
        var t', c' :| Live(l.ev, t', c') && lib.Key(t', c') == k;
        assert Live(r.ev, t', c');
      }
    }
  }

  // ---------------------------------------------------------------- removing one entry

  /** Dropping position i drops that entry and keeps the rest aligned and in order. */
  lemma {:induction false} RemoveAtKeeps(lib: Library, ec: Channel, i: nat)
    requires lib.Lawful() && ChannelOk(lib, ec) && i < |ec.ids|
    ensures var r := RemoveAt(ec, i);
      && Aligned(r)
      && Entries(r) == SliceRemove(Entries(ec), i)
      && (r.ids != [] ==> ChannelOk(lib, r))
      && (forall c :: c in r.conditions <==> c in ec.conditions && c != ec.conditions[i])
  {
    ConditionsDistinct(lib, ec);
    SliceRemoveMembers(ec.conditions, i);
    RemoveAtAligned(ec, i);
    var r := RemoveAt(ec, i);
    forall a, b | 0 <= a < b < |r.conditions|
      ensures !lib.Matches(r.conditions[a], r.conditions[b])
    {
      assert r.conditions[a] == ec.conditions[if a < i then a else a + 1];
      assert r.conditions[b] == ec.conditions[if b < i then b else b + 1];
    }
  }

  lemma {:induction false} RemoveAtAligned(ec: Channel, i: nat)
    requires Aligned(ec) && i < |ec.ids|
    ensures Aligned(RemoveAt(ec, i)) && Entries(RemoveAt(ec, i)) == SliceRemove(Entries(ec), i)
  {
    var r := RemoveAt(ec, i);
    forall j | 0 <= j < |r.ids|
      ensures Entries(r)[j] == SliceRemove(Entries(ec), i)[j]
    {
      var o := if j < i then j else j + 1;
      assert r.ids[j] == ec.ids[o] && r.conditions[j] == ec.conditions[o] && r.properties[j] == ec.properties[o];
    }
  }

  /** Removes entry i of type t from the map, and its key from the index. */
  function DropEntry(lib: Library, sid: SessionId, l: Layer, t: EventType, i: nat): Layer
    requires t in l.ev.m && i < |l.ev.m[t].conditions|
  {
    Layer(l.ev.(m := StoreOrDelete(l.ev.m, t, RemoveAt(l.ev.m[t], i))),
          UnsubscribeAll(l.ix, sid, [lib.Key(t, l.ev.m[t].conditions[i])]))
  }

  lemma {:induction false} DropEntryKeeps(lib: Library, sid: SessionId, l: Layer, t: EventType, i: nat)
    requires lib.Lawful() && Sound(lib, l) && t in l.ev.m && i < |l.ev.m[t].ids|
    ensures var r := DropEntry(lib, sid, l, t, i);
      && Sound(lib, r)
      && OnlyTouches(sid, l.ix, r.ix)
      && (Covered(lib, sid, l) ==> Covered(lib, sid, r))
      && (Exact(lib, sid, l) ==> Exact(lib, sid, r))
      && (forall t', c' :: Live(r.ev, t', c') <==> Live(l.ev, t', c') && !(t' == t && c' == l.ev.m[t].conditions[i]))
      && r.ev.destroyed == l.ev.destroyed
  {
    var ec := l.ev.m[t];
    var c := ec.conditions[i];
    var k := lib.Key(t, c);
    var r := DropEntry(lib, sid, l, t, i);
    assert ChannelOk(lib, ec);
    RemoveAtKeeps(lib, ec, i);
    UnsubscribeOneEffect(l.ix, sid, k);
    forall t', c'
      ensures Live(r.ev, t', c') <==> Live(l.ev, t', c') && !(t' == t && c' == c)
    {
      if t' == t && RemoveAt(ec, i).ids == [] {
        assert c' !in RemoveAt(ec, i).conditions;
      }
    }
    if Exact(lib, sid, l) {
      forall k' | k' in Subjects(r.ix, sid)
        ensures exists t', c' :: Live(r.ev, t', c') && lib.Key(t', c') == k'
      {
        var t', c' :| Live(l.ev, t', c') && lib.Key(t', c') == k';
        assert Live(r.ev, t', c');
      }
    }
  }

  // ---------------------------------------------------------------- Unsubscribe

  /** `Unsubscribe` always keeps live entries routed. It keeps the routes exact unless it is the
      type-wide form on a type the session holds: that one forgets the entries, not the routes. */
  lemma {:induction false} UnsubscribeKeeps(lib: Library, sid: SessionId, l: Layer, t: EventType, c: Condition)
    requires lib.Lawful() && Sound(lib, l)
    ensures var r := Unsubscribed(lib, sid, l, t, c);
      && Sound(lib, r)
      && OnlyTouches(sid, l.ix, r.ix)
      && (Covered(lib, sid, l) ==> Covered(lib, sid, r))
      && (Exact(lib, sid, l) ==> (Exact(lib, sid, r) <==> !(|c| == 0 && t in l.ev.m)))
      && (forall t', c' :: Live(r.ev, t', c') ==> Live(l.ev, t', c'))
      && r.ev.destroyed == l.ev.destroyed
  {
    if |c| == 0 {
      TypeWideKeeps(lib, sid, l, t, c);
    } else if t in l.ev.m {
      var i := FirstMatch(lib, l.ev.m[t].conditions, c);
      assert ChannelOk(lib, l.ev.m[t]);
      if i < |l.ev.m[t].conditions| {
        assert Unsubscribed(lib, sid, l, t, c) == DropEntry(lib, sid, l, t, i);
        DropEntryKeeps(lib, sid, l, t, i);
      }
    }
  }

  lemma {:induction false} TypeWideKeeps(lib: Library, sid: SessionId, l: Layer, t: EventType, c: Condition)
    requires lib.Lawful() && Sound(lib, l) && |c| == 0
    ensures var r := Unsubscribed(lib, sid, l, t, c);
      && r.ix == l.ix && r.ev.destroyed == l.ev.destroyed
      && MapOk(lib, r.ev)
      && (Covered(lib, sid, l) ==> Covered(lib, sid, r))
      && (Exact(lib, sid, l) ==> (Exact(lib, sid, r) <==> t !in l.ev.m))
      && (forall t', c' :: Live(r.ev, t', c') <==> Live(l.ev, t', c') && t' != t)
  {
    if t !in l.ev.m {
      assert Unsubscribed(lib, sid, l, t, c) == l;
    } else if Exact(lib, sid, l) {
      ForgettingBreaks(lib, sid, l, t);
    }
  }

  /** The routes of a held type are not those of any other. */
  lemma {:induction false} ForgettingBreaks(lib: Library, sid: SessionId, l: Layer, t: EventType)
    requires lib.Lawful() && MapOk(lib, l.ev) && Covered(lib, sid, l) && t in l.ev.m
    ensures !Exact(lib, sid, l.(ev := l.ev.(m := l.ev.m - {t})))
  {
    var r := l.(ev := l.ev.(m := l.ev.m - {t}));
    assert ChannelOk(lib, l.ev.m[t]);
    var d := l.ev.m[t].conditions[0];
    assert Live(l.ev, t, d) && lib.Key(t, d) in Subjects(r.ix, sid);
    forall t', c' | Live(r.ev, t', c')
      ensures lib.Key(t', c') != lib.Key(t, d)
    {
    }
  }

  // ---------------------------------------------------------------- UnsubscribeWithID

  /** As written, `UnsubscribeWithID` keeps live entries routed exactly when it hits nothing. */
  lemma {:induction false} WithoutIDKeepsIff(lib: Library, sid: SessionId, l: Layer, ids: seq<SubId>, at: EventType)
    requires lib.Lawful() && Sound(lib, l)
    ensures var r := WithoutID(lib, sid, l, ids, at);
      && Sound(lib, r)
      && OnlyTouches(sid, l.ix, r.ix)
      && r.ev == l.ev
      && (Covered(lib, sid, l) ==> (Covered(lib, sid, r) <==> !Hits(l.ev, at, ids)))
      && (Exact(lib, sid, l) ==> (Exact(lib, sid, r) <==> !Hits(l.ev, at, ids)))
  {
    if Hits(l.ev, at, ids) {
      var i := HitPosition(l.ev.m[at], ids);
      assert ChannelOk(lib, l.ev.m[at]);
      var d := l.ev.m[at].conditions[i];
      UnsubscribeOneEffect(l.ix, sid, lib.Key(at, d));
      var r := WithoutID(lib, sid, l, ids, at);
      assert Live(r.ev, at, d);
      assert lib.Key(at, d) !in Subjects(r.ix, sid);
    }
  }

  /** With the shortened channel stored back, the call removes exactly the entry it hit. */
  lemma {:induction false} WithoutIDStoredKeeps(lib: Library, sid: SessionId, l: Layer, ids: seq<SubId>, at: EventType)
    requires lib.Lawful() && Sound(lib, l)
    ensures var r := WithoutIDStored(lib, sid, l, ids, at);
      && Sound(lib, r)
      && OnlyTouches(sid, l.ix, r.ix)
      && (Covered(lib, sid, l) ==> Covered(lib, sid, r))
      && (Exact(lib, sid, l) ==> Exact(lib, sid, r))
      && (Hits(l.ev, at, ids) ==>
            var ec := l.ev.m[at]; var i := HitPosition(ec, ids);
            && i < |ec.conditions|
            && forall t', c' :: Live(r.ev, t', c') <==> Live(l.ev, t', c') && !(t' == at && c' == ec.conditions[i]))
  {
    if Hits(l.ev, at, ids) {
      var i := HitPosition(l.ev.m[at], ids);
      assert ChannelOk(lib, l.ev.m[at]);
      DropEntryKeeps(lib, sid, l, at, i);
      assert WithoutIDStored(lib, sid, l, ids, at) == DropEntry(lib, sid, l, at, i);
    }
  }

  // ---------------------------------------------------------------- the route of one entry

  /** The session's channel is subscribed to the key of (t, c). */
  predicate Routed(lib: Library, sid: SessionId, l: Layer, t: EventType, c: Condition) {
    lib.Key(t, c) in Subjects(l.ix, sid)
  }

  /** The session is subscribed to nothing but keys of types with conditions. */
  ghost predicate KeysOnly(lib: Library, sid: SessionId, ix: Index) {
    forall k | k in Subjects(ix, sid) :: exists t, c :: lib.Key(t, c) == k
  }

  /** The routes are exact when every pair is routed just if it is live. */
  lemma {:induction false} ExactEntryByEntry(lib: Library, sid: SessionId, l: Layer)
    requires lib.Lawful()
    ensures Exact(lib, sid, l) <==>
      KeysOnly(lib, sid, l.ix) && forall t, c :: Routed(lib, sid, l, t, c) <==> Live(l.ev, t, c)
  {
    if Exact(lib, sid, l) {
      forall t, c | Routed(lib, sid, l, t, c)
        ensures Live(l.ev, t, c)
      {
        var t', c' :| Live(l.ev, t', c') && lib.Key(t', c') == lib.Key(t, c);
      }
    }
    if KeysOnly(lib, sid, l.ix) && (forall t, c :: Routed(lib, sid, l, t, c) <==> Live(l.ev, t, c)) {
      forall t, c | Live(l.ev, t, c)
        ensures lib.Key(t, c) in Subjects(l.ix, sid)
      {
        assert Routed(lib, sid, l, t, c);
      }
      forall k | k in Subjects(l.ix, sid)
        ensures exists t, c :: Live(l.ev, t, c) && lib.Key(t, c) == k
      {
        var t, c :| lib.Key(t, c) == k;
        assert Routed(lib, sid, l, t, c);
      }
    }
  }

  /** `Subscribe` routes the entry it adds. */
  lemma {:induction false} SubscribeRoutes(lib: Library, sid: SessionId, l: Layer, t: EventType, c: Condition,
                                           props: Properties,
                                           id: SubId, u: EventType, d: Condition)
    requires lib.Lawful() && Sound(lib, l)
    ensures var r := Subscribed(lib, sid, l, t, c, props, id);
      && (Live(l.ev, u, d) ==> Live(r.ev, u, d))
      && (Routed(lib, sid, r, u, d) <==> Routed(lib, sid, l, u, d) || (Live(r.ev, u, d) && !Live(l.ev, u, d)))
      && (KeysOnly(lib, sid, l.ix) ==> KeysOnly(lib, sid, r.ix))
  {
    SubscribeAdds(lib, sid, l, t, c, props, id);
    if !Refuses(lib, l.ev, t, c) {
      SubscribeSingle(l.ix, sid, lib.Key(t, c));
      SubscribeOneEffect(l.ix, sid, lib.Key(t, c));
      assert lib.Matches(c, c);
      assert !Live(l.ev, t, c);
    }
  }

  /** `Unsubscribe` takes the route of the entry it removes, but in its type-wide form takes none. */
  lemma {:induction false} UnsubscribeRoutes(lib: Library, sid: SessionId, l: Layer, t: EventType, c: Condition,
                                             u: EventType,
                                             d: Condition)
    requires lib.Lawful() && Sound(lib, l)
    ensures var r := Unsubscribed(lib, sid, l, t, c);
      && (Live(r.ev, u, d) ==> Live(l.ev, u, d) && !(|c| == 0 && u == t))
      && (Routed(lib, sid, r, u, d) <==>
            Routed(lib, sid, l, u, d) && (Live(l.ev, u, d) ==> Live(r.ev, u, d) || (|c| == 0 && u == t)))
      && (KeysOnly(lib, sid, l.ix) ==> KeysOnly(lib, sid, r.ix))
  {
    if |c| > 0 && t in l.ev.m {
      var i := FirstMatch(lib, l.ev.m[t].conditions, c);
      assert ChannelOk(lib, l.ev.m[t]);
      if i < |l.ev.m[t].conditions| {
        DropEntryRoutes(lib, sid, l, t, i, u, d);
      }
    }
  }

  lemma {:induction false} DropEntryRoutes(lib: Library, sid: SessionId, l: Layer, t: EventType, i: nat, u: EventType,
                                           d: Condition)
    requires lib.Lawful() && Sound(lib, l) && t in l.ev.m && i < |l.ev.m[t].ids|
    ensures var r := DropEntry(lib, sid, l, t, i);
      && (Live(r.ev, u, d) ==> Live(l.ev, u, d))
      && (Routed(lib, sid, r, u, d) <==> Routed(lib, sid, l, u, d) && (Live(l.ev, u, d) ==> Live(r.ev, u, d)))
      && (KeysOnly(lib, sid, l.ix) ==> KeysOnly(lib, sid, r.ix))
  {
    assert ChannelOk(lib, l.ev.m[t]);
    var c := l.ev.m[t].conditions[i];
    DropEntryKeeps(lib, sid, l, t, i);
    UnsubscribeOneEffect(l.ix, sid, lib.Key(t, c));
    assert Live(l.ev, t, c);
  }

  /** The entry that `UnsubscribeWithID` finds among the type's. */
  predicate Strikes(ev: EventState, at: EventType, ids: seq<SubId>, u: EventType, d: Condition) {
    Hits(ev, at, ids) && u == at &&
    var i := HitPosition(ev.m[at], ids); i < |ev.m[at].conditions| && d == ev.m[at].conditions[i]
  }

  /** As written, `UnsubscribeWithID` takes just the route of the entry it finds. */
  lemma {:induction false} WithoutIDRoutes(lib: Library, sid: SessionId, l: Layer, ids: seq<SubId>, at: EventType,
                                           u: EventType,
                                           d: Condition)
    requires lib.Lawful() && Sound(lib, l)
    ensures var r := WithoutID(lib, sid, l, ids, at);
      && (Routed(lib, sid, r, u, d) <==> Routed(lib, sid, l, u, d) && !Strikes(l.ev, at, ids, u, d))
      && (KeysOnly(lib, sid, l.ix) ==> KeysOnly(lib, sid, r.ix))
  {
    if Hits(l.ev, at, ids) {
      assert ChannelOk(lib, l.ev.m[at]);
      UnsubscribeOneEffect(l.ix, sid, HitKey(lib, l.ev, at, ids));
    }
  }

  lemma {:induction false} WithoutIDStoredRoutes(lib: Library, sid: SessionId, l: Layer, ids: seq<SubId>, at: EventType,
                                                 u: EventType, d: Condition)
    requires lib.Lawful() && Sound(lib, l)
    ensures var r := WithoutIDStored(lib, sid, l, ids, at);
      && (Live(r.ev, u, d) ==> Live(l.ev, u, d))
      && (Routed(lib, sid, r, u, d) <==> Routed(lib, sid, l, u, d) && (Live(l.ev, u, d) ==> Live(r.ev, u, d)))
      && (KeysOnly(lib, sid, l.ix) ==> KeysOnly(lib, sid, r.ix))
  {
    if Hits(l.ev, at, ids) {
      var i := HitPosition(l.ev.m[at], ids);
      assert ChannelOk(lib, l.ev.m[at]);
      DropEntryRoutes(lib, sid, l, at, i, u, d);
      assert WithoutIDStored(lib, sid, l, ids, at) == DropEntry(lib, sid, l, at, i);
    }
  }

  // ---------------------------------------------------------------- Destroy

  /** The first `Destroy` leaves no entry and no route; a later one changes nothing. */
  lemma {:induction false} DestroyKeeps(lib: Library, sid: SessionId, l: Layer)
    requires lib.Lawful() && Sound(lib, l)
    ensures var r := Destroyed(sid, l);
      && Sound(lib, r)
      && OnlyTouches(sid, l.ix, r.ix)
      && (Covered(lib, sid, l) ==> Covered(lib, sid, r))
      && (Exact(lib, sid, l) ==> Exact(lib, sid, r))
      && (!l.ev.destroyed ==> r.ev.m == map[] && Subjects(r.ix, sid) == [] && forall k :: sid !in Subscribers(r.ix, k))
      && r.ev.destroyed
      && (l.ev.destroyed ==> r == l)
  {
    if !l.ev.destroyed {
      CloseForgetsOnlyTheSession(l.ix, sid);
      var r := Destroyed(sid, l);
      forall k
        ensures sid !in Subscribers(r.ix, k)
      {
        assert sid in Subscribers(r.ix, k) <==> k in Subjects(r.ix, sid);
      }
    }
  }

  // ---------------------------------------------------------------- Get and Match

  /** The ids of the entries whose condition matches some payload condition. */
  function Selected(lib: Library, entries: seq<Entry>, cs: seq<Condition>): set<SubId> {
    set i, c | 0 <= i < |entries| && c in cs && lib.matches(entries[i].condition, c) :: entries[i].id
  }

  lemma {:induction false} SelectedConcat(lib: Library, a: seq<Entry>, b: seq<Entry>, cs: seq<Condition>)
    ensures Selected(lib, a + b, cs) == Selected(lib, a, cs) + Selected(lib, b, cs)
  {
    forall i | 0 <= i < |a| + |b|
      ensures (a + b)[i] == if i < |a| then a[i] else b[i - |a|]
    {
    }
    forall x | x in Selected(lib, b, cs)
      ensures x in Selected(lib, a + b, cs)
    {
      var i, c :| 0 <= i < |b| && c in cs && lib.matches(b[i].condition, c) && b[i].id == x;
      assert (a + b)[|a| + i] == b[i];
    }
    forall x | x in Selected(lib, a, cs)
      ensures x in Selected(lib, a + b, cs)
    {
      var i, c :| 0 <= i < |a| && c in cs && lib.matches(a[i].condition, c) && a[i].id == x;
      assert (a + b)[i] == a[i];
    }
  }

  lemma {:induction false} MatchSetSelects(lib: Library, ec: Channel, cs: seq<Condition>)
    requires Aligned(ec)
    ensures MatchSet(lib, ec, cs) == Selected(lib, Entries(ec), cs)
  {
    var entries := Entries(ec);
    forall x | x in MatchSet(lib, ec, cs)
      ensures x in Selected(lib, entries, cs)
    {
      var i, c :| 0 <= i < |ec.ids| && i < |ec.conditions| && c in cs
        && lib.Matches(ec.conditions[i], c) && ec.ids[i] == x;
      assert entries[i].condition == ec.conditions[i];
    }
    forall x | x in Selected(lib, entries, cs)
      ensures x in MatchSet(lib, ec, cs)
    {
      var i, c :| 0 <= i < |entries| && c in cs && lib.matches(entries[i].condition, c) && entries[i].id == x;
      assert entries[i].condition == ec.conditions[i];
    }
  }

  /** `Get` followed by `Match` selects exactly the ids of the entries under the exact type or
      the object wildcard whose condition matches some payload condition, even when the type is
      itself the wildcard and its entries are appended twice; and `Match` cannot go out of range. */
  lemma {:induction false} GetThenMatch(lib: Library, ev: EventState, t: EventType, cs: seq<Condition>)
    requires MapOk(lib, ev)
    ensures Lookup(lib, ev, t) == None <==> t !in ev.m && lib.Wildcard(t) !in ev.m
    ensures Aligned(ChannelOf(ev, t)) && Aligned(ChannelOf(ev, lib.Wildcard(t)))
    ensures Lookup(lib, ev, t).Some? ==>
      var ec := Lookup(lib, ev, t).value;
      && Aligned(ec)
      && ec.conditions != []
      && MatchSet(lib, ec, cs)
         == Selected(lib, Entries(ChannelOf(ev, t)), cs) + Selected(lib, Entries(ChannelOf(ev, lib.Wildcard(t))), cs)
  {
    if Lookup(lib, ev, t).Some? {
      var ec := Lookup(lib, ev, t).value;
      var a, b := ChannelOf(ev, t), ChannelOf(ev, lib.Wildcard(t));
      assert Entries(ec) == Entries(a) + Entries(b);
      MatchSetSelects(lib, ec, cs);
      SelectedConcat(lib, Entries(a), Entries(b), cs);
    }
  }

  /** A live entry whose condition is in the payload is among the matches. */
  lemma {:induction false} LiveEntryMatches(lib: Library, ev: EventState, t: EventType, i: nat, cs: seq<Condition>)
    requires lib.Lawful() && MapOk(lib, ev) && t in ev.m && i < |ev.m[t].ids| && ev.m[t].conditions[i] in cs
    ensures Lookup(lib, ev, t).Some? && ev.m[t].ids[i] in MatchSet(lib, Lookup(lib, ev, t).value, cs)
  {
    var ec := Lookup(lib, ev, t).value;
    var c := ev.m[t].conditions[i];
    assert ec.ids[i] == ev.m[t].ids[i] && ec.conditions[i] == c;
    assert lib.Matches(c, c);
  }

  // ---------------------------------------------------------------- the AddSubscriptions loop

  datatype Grant = Grant(typ: EventType, condition: Condition, ttl: nat)

  /** The loop over `Effect.AddSubscriptions`; `ids` are the random ids in call order. */
  function AddAll(lib: Library, sid: SessionId, l: Layer, grants: seq<Grant>, ids: seq<SubId>): Layer
    requires |ids| == |grants|
    decreases |grants|
  {
    if grants == [] then l else
      var g := grants[0];
      var next := Subscribed(lib, sid, l, g.typ, g.condition, Properties(g.ttl, true), ids[0]);
      AddAll(lib, sid, next, grants[1..], ids[1..])
  }

  ghost predicate Answered(lib: Library, ev: EventState, g: Grant) {
    exists d :: Live(ev, g.typ, d) && lib.Matches(d, g.condition)
  }

  /** Entries are only ever added, and every grant of the list ends up answered. */
  lemma {:induction false} AddAllAnswers(lib: Library, sid: SessionId, l: Layer, grants: seq<Grant>, ids: seq<SubId>)
    requires |ids| == |grants| && lib.Lawful() && Sound(lib, l)
    ensures var r := AddAll(lib, sid, l, grants, ids);
      && Sound(lib, r)
      && OnlyTouches(sid, l.ix, r.ix)
      && (Covered(lib, sid, l) ==> Covered(lib, sid, r))
      && (Exact(lib, sid, l) ==> Exact(lib, sid, r))
      && (forall t, c | Live(l.ev, t, c) :: Live(r.ev, t, c))
      && (forall g | g in grants :: Answered(lib, r.ev, g))
      && r.ev.destroyed == l.ev.destroyed
    decreases |grants|
  {
    if grants != [] {
      var g := grants[0];
      var next := Subscribed(lib, sid, l, g.typ, g.condition, Properties(g.ttl, true), ids[0]);
      SubscribeKeeps(lib, sid, l, g.typ, g.condition, Properties(g.ttl, true), ids[0]);
      AddAllAnswers(lib, sid, next, grants[1..], ids[1..]);
      var r := AddAll(lib, sid, l, grants, ids);
      assert Answered(lib, r.ev, g) by {
        var d :| Live(next.ev, g.typ, d) && lib.Matches(d, g.condition);
        assert Live(r.ev, g.typ, d);
      }
      assert forall h | h in grants :: h == g || h in grants[1..];
    }
  }

  /** The loop routes every entry it adds. */
  lemma {:induction false} AddAllRoutes(lib: Library, sid: SessionId, l: Layer, grants: seq<Grant>, ids: seq<SubId>,
                                        u: EventType,
                                        d: Condition)
    requires |ids| == |grants| && lib.Lawful() && Sound(lib, l)
    ensures var r := AddAll(lib, sid, l, grants, ids);
      && (Live(l.ev, u, d) ==> Live(r.ev, u, d))
      && (Routed(lib, sid, r, u, d) <==> Routed(lib, sid, l, u, d) || (Live(r.ev, u, d) && !Live(l.ev, u, d)))
      && (KeysOnly(lib, sid, l.ix) ==> KeysOnly(lib, sid, r.ix))
    decreases |grants|
  {
    if grants != [] {
      var g := grants[0];
      SubscribeKeeps(lib, sid, l, g.typ, g.condition, Properties(g.ttl, true), ids[0]);
      SubscribeRoutes(lib, sid, l, g.typ, g.condition, Properties(g.ttl, true), ids[0], u, d);
      var next := Subscribed(lib, sid, l, g.typ, g.condition, Properties(g.ttl, true), ids[0]);
      AddAllRoutes(lib, sid, next, grants[1..], ids[1..], u, d);
    }
  }

  /** A list whose grants are all answered already adds nothing. */
  lemma {:induction false} AddAllAnswered(lib: Library, sid: SessionId, l: Layer, grants: seq<Grant>, ids: seq<SubId>)
    requires |ids| == |grants|
    requires forall g | g in grants :: Answered(lib, l.ev, g)
    ensures AddAll(lib, sid, l, grants, ids) == l
    decreases |grants|
  {
    if grants != [] {
      assert Answered(lib, l.ev, grants[0]);
      AddAllAnswered(lib, sid, l, grants[1..], ids[1..]);
    }
  }

  /** Running the loop a second time, with any fresh ids, leaves map and index as they were. */
  lemma {:induction false} AddAllIdempotent(lib: Library, sid: SessionId, l: Layer, grants: seq<Grant>,
                                            ids: seq<SubId>, ids': seq<SubId>)
    requires |ids| == |grants| == |ids'| && lib.Lawful() && Sound(lib, l)
    ensures AddAll(lib, sid, AddAll(lib, sid, l, grants, ids), grants, ids') == AddAll(lib, sid, l, grants, ids)
  {
    AddAllAnswers(lib, sid, l, grants, ids);
    AddAllAnswered(lib, sid, AddAll(lib, sid, l, grants, ids), grants, ids');
  }

  // ---------------------------------------------------------------- the RemoveSubscriptions loop

  function RemoveAll(lib: Library, sid: SessionId, l: Layer, grants: seq<Grant>): Layer
    decreases |grants|
  {
    if grants == [] then l else
      RemoveAll(lib, sid, Unsubscribed(lib, sid, l, grants[0].typ, grants[0].condition), grants[1..])
  }

  /** A grant without conditions meets the type while the session holds the entry (u, d). */
  predicate Forgets(lib: Library, sid: SessionId, l: Layer, grants: seq<Grant>, u: EventType, d: Condition)
    decreases |grants|
  {
    grants != [] &&
    var g := grants[0];
    || (|g.condition| == 0 && g.typ == u && Live(l.ev, u, d))
    || Forgets(lib, sid, Unsubscribed(lib, sid, l, g.typ, g.condition), grants[1..], u, d)
  }

  /** A grant without conditions meets a type that is held when its turn comes. */
  predicate ForgetsType(lib: Library, sid: SessionId, l: Layer, grants: seq<Grant>)
    decreases |grants|
  {
    grants != [] &&
    var g := grants[0];
    || (|g.condition| == 0 && g.typ in l.ev.m)
    || ForgetsType(lib, sid, Unsubscribed(lib, sid, l, g.typ, g.condition), grants[1..])
  }

  lemma {:induction false} ForgetsSomeEntry(lib: Library, sid: SessionId, l: Layer, grants: seq<Grant>)
      returns (u: EventType, d: Condition)
    requires lib.Lawful() && Sound(lib, l) && ForgetsType(lib, sid, l, grants)
    ensures Forgets(lib, sid, l, grants, u, d)
    decreases |grants|
  {
    var g := grants[0];
    if |g.condition| == 0 && g.typ in l.ev.m {
      assert ChannelOk(lib, l.ev.m[g.typ]);
      u, d := g.typ, l.ev.m[g.typ].conditions[0];
    } else {
      UnsubscribeKeeps(lib, sid, l, g.typ, g.condition);
      u, d := ForgetsSomeEntry(lib, sid, Unsubscribed(lib, sid, l, g.typ, g.condition), grants[1..]);
    }
  }

  lemma {:induction false} ForgetsItsType(lib: Library, sid: SessionId, l: Layer, grants: seq<Grant>, u: EventType,
                                          d: Condition)
    requires Forgets(lib, sid, l, grants, u, d)
    ensures ForgetsType(lib, sid, l, grants)
    decreases |grants|
  {
    var g := grants[0];
    if !(|g.condition| == 0 && g.typ == u && Live(l.ev, u, d)) {
      ForgetsItsType(lib, sid, Unsubscribed(lib, sid, l, g.typ, g.condition), grants[1..], u, d);
    }
  }

  /** The loop takes the routes of the entries it removes, but for those a type-wide grant forgets. */
  lemma {:induction false} RemoveAllRoutes(lib: Library, sid: SessionId, l: Layer, grants: seq<Grant>, u: EventType,
                                           d: Condition)
    requires lib.Lawful() && Sound(lib, l)
    ensures var r := RemoveAll(lib, sid, l, grants);
      && (Live(r.ev, u, d) || Forgets(lib, sid, l, grants, u, d) ==> Live(l.ev, u, d))
      && !(Live(r.ev, u, d) && Forgets(lib, sid, l, grants, u, d))
      && (Routed(lib, sid, r, u, d) <==>
            Routed(lib, sid, l, u, d) && (Live(l.ev, u, d) ==> Live(r.ev, u, d) || Forgets(lib, sid, l, grants, u, d)))
      && (KeysOnly(lib, sid, l.ix) ==> KeysOnly(lib, sid, r.ix))
    decreases |grants|
  {
    if grants != [] {
      var g := grants[0];
      UnsubscribeKeeps(lib, sid, l, g.typ, g.condition);
      UnsubscribeRoutes(lib, sid, l, g.typ, g.condition, u, d);
      RemoveAllRoutes(lib, sid, Unsubscribed(lib, sid, l, g.typ, g.condition), grants[1..], u, d);
    }
  }

  /** The loop keeps live entries routed. It keeps the routes exact if and only if no grant without
      conditions meets a type that is held when its turn comes. */
  lemma {:induction false} RemoveAllKeeps(lib: Library, sid: SessionId, l: Layer, grants: seq<Grant>)
    requires lib.Lawful() && Sound(lib, l)
    ensures var r := RemoveAll(lib, sid, l, grants);
      && Sound(lib, r)
      && OnlyTouches(sid, l.ix, r.ix)
      && (Covered(lib, sid, l) ==> Covered(lib, sid, r))
      && (Exact(lib, sid, l) ==> (Exact(lib, sid, r) <==> !ForgetsType(lib, sid, l, grants)))
      && r.ev.destroyed == l.ev.destroyed
  {
    RemoveAllSound(lib, sid, l, grants);
    if Exact(lib, sid, l) {
      RemoveAllExactIff(lib, sid, l, grants);
    }
  }

  lemma {:induction false} RemoveAllSound(lib: Library, sid: SessionId, l: Layer, grants: seq<Grant>)
    requires lib.Lawful() && Sound(lib, l)
    ensures var r := RemoveAll(lib, sid, l, grants);
      && Sound(lib, r)
      && OnlyTouches(sid, l.ix, r.ix)
      && (Covered(lib, sid, l) ==> Covered(lib, sid, r))
      && r.ev.destroyed == l.ev.destroyed
    decreases |grants|
  {
    if grants != [] {
      UnsubscribeKeeps(lib, sid, l, grants[0].typ, grants[0].condition);
      RemoveAllSound(lib, sid, Unsubscribed(lib, sid, l, grants[0].typ, grants[0].condition), grants[1..]);
    }
  }

  lemma {:induction false} RemoveAllExactIff(lib: Library, sid: SessionId, l: Layer, grants: seq<Grant>)
    requires lib.Lawful() && Sound(lib, l) && Exact(lib, sid, l)
    ensures Exact(lib, sid, RemoveAll(lib, sid, l, grants)) <==> !ForgetsType(lib, sid, l, grants)
  {
    var r := RemoveAll(lib, sid, l, grants);
    ExactEntryByEntry(lib, sid, l);
    ExactEntryByEntry(lib, sid, r);
    RemoveAllRoutes(lib, sid, l, grants, "", map[]);
    if ForgetsType(lib, sid, l, grants) {
      var u, d := ForgetsSomeEntry(lib, sid, l, grants);
      RemoveAllRoutes(lib, sid, l, grants, u, d);
      assert Routed(lib, sid, l, u, d) && Routed(lib, sid, r, u, d) && !Live(r.ev, u, d);
    } else {
      forall u, d
        ensures Routed(lib, sid, r, u, d) <==> Live(r.ev, u, d)
      {
        RemoveAllRoutes(lib, sid, l, grants, u, d);
        if Forgets(lib, sid, l, grants, u, d) {
          ForgetsItsType(lib, sid, l, grants, u, d);
        }
        assert Routed(lib, sid, l, u, d) <==> Live(l.ev, u, d);
      }
    }
  }
}
