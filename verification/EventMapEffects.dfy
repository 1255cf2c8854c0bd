/** What each event-map call and each effect loop does to entries and routes, in full. */
module EventMapEffects {
  import opened Options
  import opened Slices
  import opened RoutingIndex
  import opened RoutingLaws
  import opened EventMaps
  import opened EventMapLaws

  /** The subscriptions a session holds for a type, oldest first. */
  function Held(ev: EventState, t: EventType): seq<Entry>
    requires t in ev.m ==> Aligned(ev.m[t])
  {
    if t in ev.m then Entries(ev.m[t]) else []
  }

  /** Position i is the first of the type's entries whose condition matches c. */
  predicate MatchesFirst(lib: Library, ev: EventState, t: EventType, c: Condition, i: nat) {
    && t in ev.m && i < |ev.m[t].conditions|
    && lib.matches(ev.m[t].conditions[i], c)
    && forall j | 0 <= j < i :: !lib.matches(ev.m[t].conditions[j], c)
  }

  // ---------------------------------------------------------------- one removal

  /** The i-th entry of type t and its route go, and nothing else. */
  ghost predicate Removes(lib: Library, sid: SessionId, l: Layer, r: Layer, t: EventType, i: nat)
    requires MapOk(lib, l.ev) && t in l.ev.m && i < |l.ev.m[t].ids|
  {
    && MapOk(lib, r.ev)
    && Held(r.ev, t) == SliceRemove(Held(l.ev, t), i)
    && (forall u | u != t :: Held(r.ev, u) == Held(l.ev, u))
    && (forall u, d :: Live(r.ev, u, d) <==> Live(l.ev, u, d) && !(u == t && d == l.ev.m[t].conditions[i]))
    && (forall k :: k in Subjects(r.ix, sid)
                    <==> k in Subjects(l.ix, sid) && k != lib.dispatchKey(t, l.ev.m[t].conditions[i]))
    && r.ev.destroyed == l.ev.destroyed
  }

  lemma {:induction false} DropEntryRemoves(lib: Library, sid: SessionId, l: Layer, t: EventType, i: nat)
    requires lib.Lawful() && Sound(lib, l) && t in l.ev.m && i < |l.ev.m[t].ids|
    ensures Removes(lib, sid, l, DropEntry(lib, sid, l, t, i), t, i)
  {
    assert ChannelOk(lib, l.ev.m[t]);
    DropEntryKeeps(lib, sid, l, t, i);
    UnsubscribeOneEffect(l.ix, sid, lib.Key(t, l.ev.m[t].conditions[i]));
    DropEntryHeld(lib, sid, l, t, i);
  }

  lemma {:induction false} DropEntryHeld(lib: Library, sid: SessionId, l: Layer, t: EventType, i: nat)
    requires lib.Lawful() && MapOk(lib, l.ev) && t in l.ev.m && i < |l.ev.m[t].ids|
    ensures var r := DropEntry(lib, sid, l, t, i).ev;
      && (forall u :: u in r.m ==> Aligned(r.m[u]))
      && Held(r, t) == SliceRemove(Held(l.ev, t), i)
      && (forall u | u != t :: Held(r, u) == Held(l.ev, u))
  {
    assert ChannelOk(lib, l.ev.m[t]);
    RemoveAtKeeps(lib, l.ev.m[t], i);
  }

  /** `Unsubscribe` with a condition removes the first entry that matches it. */
  lemma {:induction false} UnsubscribeRemovesFirst(lib: Library, sid: SessionId, l: Layer, t: EventType, c: Condition,
                                                   i: nat)
    requires lib.Lawful() && Sound(lib, l) && |c| > 0 && MatchesFirst(lib, l.ev, t, c, i)
    ensures i < |l.ev.m[t].ids| && Removes(lib, sid, l, Unsubscribed(lib, sid, l, t, c), t, i)
  {
    assert ChannelOk(lib, l.ev.m[t]);
    assert forall j | 0 <= j <= i :: lib.Matches(l.ev.m[t].conditions[j], c) == lib.matches(l.ev.m[t].conditions[j], c);
    assert FirstMatch(lib, l.ev.m[t].conditions, c) == i;
    assert Unsubscribed(lib, sid, l, t, c) == DropEntry(lib, sid, l, t, i);
    DropEntryRemoves(lib, sid, l, t, i);
  }

  /** When nothing matches, it changes nothing. */
  lemma {:induction false} UnsubscribeMisses(lib: Library, sid: SessionId, l: Layer, t: EventType, c: Condition)
    requires |c| > 0 && forall i: nat :: !MatchesFirst(lib, l.ev, t, c, i)
    ensures Unsubscribed(lib, sid, l, t, c) == l
  {
    if t in l.ev.m {
      var i := FirstMatch(lib, l.ev.m[t].conditions, c);
      assert !MatchesFirst(lib, l.ev, t, c, i);
      assert forall j | 0 <= j < |l.ev.m[t].conditions| ::
        lib.Matches(l.ev.m[t].conditions[j], c) == lib.matches(l.ev.m[t].conditions[j], c);
    }
  }

  /** Naming a condition that is held removes that entry and no other: no earlier entry matches it. */
  lemma {:induction false} UnsubscribeOwn(lib: Library, sid: SessionId, l: Layer, t: EventType, c: Condition)
    requires lib.Lawful() && Sound(lib, l) && |c| > 0 && Live(l.ev, t, c)
    ensures var r := Unsubscribed(lib, sid, l, t, c);
      && (forall u, d :: Live(r.ev, u, d) <==> Live(l.ev, u, d) && !(u == t && d == c))
      && (forall k :: k in Subjects(r.ix, sid) <==> k in Subjects(l.ix, sid) && k != lib.dispatchKey(t, c))
  {
    var i :| 0 <= i < |l.ev.m[t].conditions| && l.ev.m[t].conditions[i] == c;
    assert ChannelOk(lib, l.ev.m[t]);
    assert lib.Matches(c, c);
    assert forall j | 0 <= j < i :: !lib.Matches(l.ev.m[t].conditions[j], c);
    assert MatchesFirst(lib, l.ev, t, c, i);
    UnsubscribeRemovesFirst(lib, sid, l, t, c, i);
  }

  /** The type-wide form removes all entries of the type and no route. */
  lemma {:induction false} UnsubscribeWholeType(lib: Library, sid: SessionId, l: Layer, t: EventType, c: Condition)
    requires lib.Lawful() && Sound(lib, l) && |c| == 0
    ensures var r := Unsubscribed(lib, sid, l, t, c);
      && MapOk(lib, r.ev) && r.ix == l.ix && r.ev.destroyed == l.ev.destroyed
      && Held(r.ev, t) == [] && t !in r.ev.m
      && (forall u | u != t :: Held(r.ev, u) == Held(l.ev, u))
  {
  }

  /** The stored-back form of `UnsubscribeWithID` removes the entry it finds. */
  lemma {:induction false} StoredRemovesHit(lib: Library, sid: SessionId, l: Layer, ids: seq<SubId>, at: EventType)
    requires lib.Lawful() && Sound(lib, l)
    ensures var r := WithoutIDStored(lib, sid, l, ids, at);
      if HasId(l.ev, at, ids) then
        var i := HitPosition(l.ev.m[at], ids); i < |l.ev.m[at].ids| && Removes(lib, sid, l, r, at, i)
      else r == l
  {
    HitsIff(l.ev, at, ids);
    if Hits(l.ev, at, ids) {
      var i := HitPosition(l.ev.m[at], ids);
      assert ChannelOk(lib, l.ev.m[at]);
      assert WithoutIDStored(lib, sid, l, ids, at) == DropEntry(lib, sid, l, at, i);
      DropEntryRemoves(lib, sid, l, at, i);
    }
  }

  /** As written, the call leaves all entries and takes the route of the one it finds. */
  lemma {:induction false} AsWrittenTakesRoute(lib: Library, sid: SessionId, l: Layer, ids: seq<SubId>, at: EventType)
    requires lib.Lawful() && Sound(lib, l)
    ensures var r := WithoutID(lib, sid, l, ids, at);
      && r.ev == l.ev
      && (if HasId(l.ev, at, ids) then
            var i := HitPosition(l.ev.m[at], ids);
            && i < |l.ev.m[at].conditions|
            && forall k :: k in Subjects(r.ix, sid)
                           <==> k in Subjects(l.ix, sid) && k != lib.dispatchKey(at, l.ev.m[at].conditions[i])
          else r == l)
  {
    HitsIff(l.ev, at, ids);
    if Hits(l.ev, at, ids) {
      assert ChannelOk(lib, l.ev.m[at]);
      UnsubscribeOneEffect(l.ix, sid, HitKey(lib, l.ev, at, ids));
    }
  }

  /** Some listed id is the id of an entry of the type. */
  predicate HasId(ev: EventState, t: EventType, ids: seq<SubId>) {
    t in ev.m && exists id :: id in ids && id in ev.m[t].ids
  }

  lemma {:induction false} HitsIff(ev: EventState, t: EventType, ids: seq<SubId>)
    ensures Hits(ev, t, ids) <==> HasId(ev, t, ids)
  {
  }

  /** The id loops stop at the first listed id that occurs, and at its first occurrence. */
  lemma {:induction false} HitIsFirst(ec: Channel, ids: seq<SubId>) returns (j: nat)
    requires HitPosition(ec, ids) < |ec.ids|
    ensures j < |ids| && FirstAt(ec.ids, ids[j], HitPosition(ec, ids))
    ensures forall k | 0 <= k < j :: ids[k] !in ec.ids
  {
    if Find(ec.ids, ids[0]) < |ec.ids| {
      j := 0;
    } else {
      j := HitIsFirst(ec, ids[1..]);
      j := j + 1;
      assert forall k | 1 <= k < j :: ids[k] == ids[1..][k - 1];
    }
  }

  // ---------------------------------------------------------------- additions

  /** `Subscribe` adds nothing exactly when some entry of the type already matches the condition. */
  lemma {:induction false} RefusesIff(lib: Library, ev: EventState, t: EventType, c: Condition)
    requires MapOk(lib, ev)
    ensures Refuses(lib, ev, t, c) <==> exists d :: Live(ev, t, d) && lib.matches(d, c)
  {
    if t in ev.m {
      var conditions := ev.m[t].conditions;
      var i := FirstMatch(lib, conditions, c);
      assert ChannelOk(lib, ev.m[t]);
      if i < |conditions| {
        assert Live(ev, t, conditions[i]) && lib.matches(conditions[i], c);
      }
      if d :| Live(ev, t, d) && lib.matches(d, c) {
        assert lib.Matches(d, c);
      }
    }
  }

  /** The subscription a grant asks for: automatic, with the grant's time to live. */
  function Granted(g: Grant, id: SubId): Entry {
    Entry(id, g.condition, Properties(g.ttl, true))
  }

  /** The entry is what some grant of type u asks for. */
  predicate AskedFor(grants: seq<Grant>, ids: seq<SubId>, u: EventType, e: Entry)
    requires |ids| == |grants|
  {
    exists n :: 0 <= n < |grants| && grants[n].typ == u && e == Granted(grants[n], ids[n])
  }

  lemma {:induction false} AskedLater(grants: seq<Grant>, ids: seq<SubId>, u: EventType, e: Entry)
    requires |ids| == |grants| && grants != [] && AskedFor(grants[1..], ids[1..], u, e)
    ensures AskedFor(grants, ids, u, e)
  {
    var n :| 0 <= n < |grants[1..]| && grants[1..][n].typ == u && e == Granted(grants[1..][n], ids[1..][n]);
    assert grants[n + 1] == grants[1..][n] && ids[n + 1] == ids[1..][n];
  }

  /** The loop over added grants appends: what was held stays in front, and each new entry is the
      automatic subscription some grant asks for, with the id drawn for it. */
  lemma {:induction false} AddAllAppends(lib: Library, sid: SessionId, l: Layer, grants: seq<Grant>, ids: seq<SubId>,
                                         u: EventType)
    requires |ids| == |grants| && lib.Lawful() && Sound(lib, l)
    ensures var r := AddAll(lib, sid, l, grants, ids).ev;
      && MapOk(lib, r)
      && Held(l.ev, u) <= Held(r, u)
      && forall j | |Held(l.ev, u)| <= j < |Held(r, u)| :: AskedFor(grants, ids, u, Held(r, u)[j])
    decreases |grants|
  {
    if grants != [] {
      var g := grants[0];
      var next := Subscribed(lib, sid, l, g.typ, g.condition, Properties(g.ttl, true), ids[0]);
      SubscribeKeeps(lib, sid, l, g.typ, g.condition, Properties(g.ttl, true), ids[0]);
      OneAppended(lib, sid, l, g, ids[0], u);
      AddAllAppends(lib, sid, next, grants[1..], ids[1..], u);
      AppendedOn(grants, ids, u, Held(l.ev, u), Held(next.ev, u), Held(AddAll(lib, sid, l, grants, ids).ev, u));
    }
  }

  lemma {:induction false} AppendedOn(grants: seq<Grant>, ids: seq<SubId>, u: EventType, a: seq<Entry>, b: seq<Entry>,
                                      c: seq<Entry>)
    requires |ids| == |grants| && grants != []
    requires a == b || (u == grants[0].typ && b == a + [Granted(grants[0], ids[0])])
    requires b <= c && forall j | |b| <= j < |c| :: AskedFor(grants[1..], ids[1..], u, c[j])
    ensures a <= c && forall j | |a| <= j < |c| :: AskedFor(grants, ids, u, c[j])
  {
    forall j | |a| <= j < |c|
      ensures AskedFor(grants, ids, u, c[j])
    {
      if j < |b| {
        assert c[j] == Granted(grants[0], ids[0]);
      } else {
        AskedLater(grants, ids, u, c[j]);
      }
    }
  }

  lemma {:induction false} OneAppended(lib: Library, sid: SessionId, l: Layer, g: Grant, id: SubId, u: EventType)
    requires lib.Lawful() && Sound(lib, l)
    ensures var r := Subscribed(lib, sid, l, g.typ, g.condition, Properties(g.ttl, true), id).ev;
      && MapOk(lib, r)
      && (Held(r, u) == Held(l.ev, u) || (u == g.typ && Held(r, u) == Held(l.ev, u) + [Granted(g, id)]))
  {
    SubscribeAdds(lib, sid, l, g.typ, g.condition, Properties(g.ttl, true), id);
  }

  // ---------------------------------------------------------------- removals by an effect

  /** The grant, when its turn comes, takes the entry (u, d). */
  ghost predicate Takes(lib: Library, ev: EventState, g: Grant, u: EventType, d: Condition) {
    && g.typ == u && Live(ev, u, d)
    && (|g.condition| == 0 || exists i: nat :: MatchesFirst(lib, ev, u, g.condition, i) && ev.m[u].conditions[i] == d)
  }

  ghost predicate Taken(lib: Library, sid: SessionId, l: Layer, grants: seq<Grant>, u: EventType, d: Condition)
    decreases |grants|
  {
    grants != [] &&
    (Takes(lib, l.ev, grants[0], u, d)
     || Taken(lib, sid, Unsubscribed(lib, sid, l, grants[0].typ, grants[0].condition), grants[1..], u, d))
  }

  lemma {:induction false} OneTaken(lib: Library, sid: SessionId, l: Layer, g: Grant, u: EventType, d: Condition)
    requires lib.Lawful() && Sound(lib, l)
    ensures var r := Unsubscribed(lib, sid, l, g.typ, g.condition);
      Live(r.ev, u, d) <==> Live(l.ev, u, d) && !Takes(lib, l.ev, g, u, d)
  {
    if |g.condition| == 0 {
      UnsubscribeWholeType(lib, sid, l, g.typ, g.condition);
    } else if i: nat :| MatchesFirst(lib, l.ev, g.typ, g.condition, i) {
      UnsubscribeRemovesFirst(lib, sid, l, g.typ, g.condition, i);
    } else {
      UnsubscribeMisses(lib, sid, l, g.typ, g.condition);
    }
  }

  /** After the loop over removed grants an entry is held exactly when it was and no grant took it. */
  lemma {:induction false} RemoveAllTakes(lib: Library, sid: SessionId, l: Layer, grants: seq<Grant>, u: EventType,
                                          d: Condition)
    requires lib.Lawful() && Sound(lib, l)
    ensures Live(RemoveAll(lib, sid, l, grants).ev, u, d) <==> Live(l.ev, u, d) && !Taken(lib, sid, l, grants, u, d)
    decreases |grants|
  {
    if grants != [] {
      var g := grants[0];
      OneTaken(lib, sid, l, g, u, d);
      UnsubscribeKeeps(lib, sid, l, g.typ, g.condition);
      RemoveAllTakes(lib, sid, Unsubscribed(lib, sid, l, g.typ, g.condition), grants[1..], u, d);
      if Taken(lib, sid, Unsubscribed(lib, sid, l, g.typ, g.condition), grants[1..], u, d) {
        TakenWasHeld(lib, sid, Unsubscribed(lib, sid, l, g.typ, g.condition), grants[1..], u, d);
      }
    }
  }

  lemma {:induction false} TakenWasHeld(lib: Library, sid: SessionId, l: Layer, grants: seq<Grant>, u: EventType,
                                        d: Condition)
    requires lib.Lawful() && Sound(lib, l) && Taken(lib, sid, l, grants, u, d)
    ensures Live(l.ev, u, d)
    decreases |grants|
  {
    var g := grants[0];
    if !Takes(lib, l.ev, g, u, d) {
      UnsubscribeKeeps(lib, sid, l, g.typ, g.condition);
      TakenWasHeld(lib, sid, Unsubscribed(lib, sid, l, g.typ, g.condition), grants[1..], u, d);
    }
  }

  /** Nothing named by a removed grant is held afterwards: not its condition, and, when it has none,
      nothing of its type. */
  lemma {:induction false} RemoveAllRemoves(lib: Library, sid: SessionId, l: Layer, grants: seq<Grant>, g: Grant)
    requires lib.Lawful() && Sound(lib, l) && g in grants
    ensures var r := RemoveAll(lib, sid, l, grants).ev;
      !Live(r, g.typ, g.condition) && (|g.condition| == 0 ==> forall d :: !Live(r, g.typ, d))
    decreases |grants|
  {
    var first := grants[0];
    var next := Unsubscribed(lib, sid, l, first.typ, first.condition);
    UnsubscribeKeeps(lib, sid, l, first.typ, first.condition);
    if g == first {
      NamedIsGone(lib, sid, l, g);
      forall d | !Live(next.ev, g.typ, d)
        ensures !Live(RemoveAll(lib, sid, l, grants).ev, g.typ, d)
      {
        RemoveAllTakes(lib, sid, next, grants[1..], g.typ, d);
      }
    } else {
      RemoveAllRemoves(lib, sid, next, grants[1..], g);
    }
  }

  lemma {:induction false} NamedIsGone(lib: Library, sid: SessionId, l: Layer, g: Grant)
    requires lib.Lawful() && Sound(lib, l)
    ensures var r := Unsubscribed(lib, sid, l, g.typ, g.condition).ev;
      !Live(r, g.typ, g.condition) && (|g.condition| == 0 ==> forall d :: !Live(r, g.typ, d))
  {
    UnsubscribeKeeps(lib, sid, l, g.typ, g.condition);
    if |g.condition| == 0 {
      UnsubscribeWholeType(lib, sid, l, g.typ, g.condition);
    } else if Live(l.ev, g.typ, g.condition) {
      UnsubscribeOwn(lib, sid, l, g.typ, g.condition);
    }
  }

  // ---------------------------------------------------------------- selection

  /** The ids of the entries under the type or its object wildcard that match some of the conditions. */
  function SelectedBy(lib: Library, ev: EventState, t: EventType, cs: seq<Condition>): set<SubId>
    requires MapOk(lib, ev)
  {
    Selected(lib, Held(ev, t), cs) + Selected(lib, Held(ev, lib.objectName(t) + ".*"), cs)
  }

  lemma {:induction false} LookupSelects(lib: Library, ev: EventState, t: EventType, cs: seq<Condition>)
    requires MapOk(lib, ev)
    ensures match Lookup(lib, ev, t)
      case None => SelectedBy(lib, ev, t, cs) == {}
      case Some(ec) =>
        && Aligned(ec) && ec.conditions != []
        && Entries(ec) == Held(ev, t) + Held(ev, lib.objectName(t) + ".*")
        && MatchSet(lib, ec, cs) == SelectedBy(lib, ev, t, cs)
  {
    GetThenMatch(lib, ev, t, cs);
    assert Entries(EMPTY_CHANNEL) == [];
  }
}
