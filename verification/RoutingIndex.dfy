/** The two-way NATS routing index: `subjects` (subject to subscribers) and `sessions`
    (session to subjects), both changed in place with swap-with-last removals.

    A `*Subscription` is identified with its session id: the program creates one per session
    and compares subscriptions by session id only. */
module RoutingIndex {
  import opened Slices

  type SessionId = string
  type Subject = string

  datatype Index = Index(subjects: map<Subject, seq<SessionId>>, sessions: map<SessionId, seq<Subject>>)

  const EMPTY_INDEX := Index(map[], map[])

  /** Reading a missing key of a Go map gives the empty slice. */
  function Subscribers(ix: Index, k: Subject): seq<SessionId> {
    if k in ix.subjects then ix.subjects[k] else []
  }

  function Subjects(ix: Index, sid: SessionId): seq<Subject> {
    if sid in ix.sessions then ix.sessions[sid] else []
  }

  /** The relation both maps stand for. */
  function Links(ix: Index): set<(SessionId, Subject)> {
    set s, k | s in ix.sessions && k in ix.sessions[s] :: (s, k)
  }

  /** The maps are inverses of each other: same pairs, each once, no empty subscriber list. */
  ghost predicate Bijective(ix: Index) {
    && (forall k | k in ix.subjects :: ix.subjects[k] != [] && Distinct(ix.subjects[k]))
    && (forall s | s in ix.sessions :: Distinct(ix.sessions[s]))
    && (forall k, s :: s in Subscribers(ix, k) <==> k in Subjects(ix, s))
  }

  // ---------------------------------------------------------------- specification

  function SubscribeOne(ix: Index, sid: SessionId, k: Subject): Index {
    if sid in Subscribers(ix, k) then ix
    else Index(ix.subjects[k := Subscribers(ix, k) + [sid]], ix.sessions[sid := Subjects(ix, sid) + [k]])
  }

  function SubscribeAll(ix: Index, sid: SessionId, ks: seq<Subject>): Index
    decreases |ks|
  {
    if ks == [] then ix else SubscribeAll(SubscribeOne(ix, sid, ks[0]), sid, ks[1..])
  }

  /** Swap-removes the session from one subscriber list and deletes the list once empty. */
  function DropSubscriber(subjects: map<Subject, seq<SessionId>>, sid: SessionId, k: Subject)
    : map<Subject, seq<SessionId>>
  {
    if k !in subjects then subjects else
      var o := Find(subjects[k], sid);
      var list := if o < |subjects[k]| then SwapRemove(subjects[k], o) else subjects[k];
      if list == [] then subjects - {k} else subjects[k := list]
  }

  datatype Scan = Scan(ix: Index, subs: seq<Subject>)

  /** One argument of `Unsubscribe`, from position i on. `subs` is the session's list as it was
      when the call started; the swap writes through it, its length never shrinks. */
  function ScanFor(ix: Index, sid: SessionId, subs: seq<Subject>, unsub: Subject, i: nat): Scan
    requires i <= |subs|
    decreases |subs| - i
  {
    if i == |subs| then Scan(ix, subs)
    else if subs[i] != unsub then ScanFor(ix, sid, subs, unsub, i + 1)
    else
      var subs' := subs[i := subs[|subs| - 1]];
      var sessions' := ix.sessions[sid := subs'[..|subs| - 1]];
      if unsub !in ix.subjects then ScanFor(Index(ix.subjects, sessions'), sid, subs', unsub, i + 1)
      else Scan(Index(DropSubscriber(ix.subjects, sid, unsub), sessions'), subs')
  }

  function UnsubscribeEach(ix: Index, sid: SessionId, subs: seq<Subject>, ks: seq<Subject>): Index
    decreases |ks|
  {
    if ks == [] then ix else
      var r := ScanFor(ix, sid, subs, ks[0], 0);
      UnsubscribeEach(r.ix, sid, r.subs, ks[1..])
  }

  function UnsubscribeAll(ix: Index, sid: SessionId, ks: seq<Subject>): Index {
    if sid !in ix.sessions then ix else UnsubscribeEach(ix, sid, ix.sessions[sid], ks)
  }

  function DropFromAll(subjects: map<Subject, seq<SessionId>>, sid: SessionId, ks: seq<Subject>)
    : map<Subject, seq<SessionId>>
    decreases |ks|
  {
    if ks == [] then subjects else DropFromAll(DropSubscriber(subjects, sid, ks[0]), sid, ks[1..])
  }

  function CloseSession(ix: Index, sid: SessionId): Index {
    if sid !in ix.sessions then ix
    else Index(DropFromAll(ix.subjects, sid, ix.sessions[sid]), ix.sessions - {sid})
  }

  /** Capacity of the buffered channel made by `NewSub`. */
  const CAPACITY: nat := 10

  function Queue<M>(queues: map<SessionId, seq<M>>, sid: SessionId): seq<M> {
    if sid in queues then queues[sid] else []
  }

  /** A non-blocking send: the message is dropped when the channel is full. */
  function Offer<M>(queues: map<SessionId, seq<M>>, sid: SessionId, msg: M): map<SessionId, seq<M>> {
    if |Queue(queues, sid)| < CAPACITY then queues[sid := Queue(queues, sid) + [msg]] else queues
  }

  function Deliver<M>(queues: map<SessionId, seq<M>>, subs: seq<SessionId>, msg: M): map<SessionId, seq<M>>
    decreases |subs|
  {
    if subs == [] then queues else Deliver(Offer(queues, subs[0], msg), subs[1..], msg)
  }

  function TrimPrefix(s: string, prefix: string): string {
    if prefix <= s then s[|prefix|..] else s
  }

  // ---------------------------------------------------------------- the concurrent table

  /** The package globals. Every method runs under the package mutex, so each call is one step. */
  class Hub<Message> {
    var subjects: map<Subject, seq<SessionId>>
    var sessions: map<SessionId, seq<Subject>>
    /** The buffered channel of each session's subscription. */
    var queues: map<SessionId, seq<Message>>

    constructor ()
      ensures View() == EMPTY_INDEX && queues == map[]
    {
      subjects, sessions, queues := map[], map[], map[];
    }

    function View(): Index
      reads this
    {
      Index(subjects, sessions)
    }

    method IsSubscribed(sid: SessionId, subject: Subject) returns (found: bool)
      ensures found <==> sid in Subscribers(View(), subject)
    {
      var list := if subject in subjects then subjects[subject] else [];
      for i := 0 to |list|
        invariant sid !in list[..i]
      {
        if list[i] == sid {
          return true;
        }
      }
      assert list[..|list|] == list;
      return false;
    }

    method Subscribe(sid: SessionId, subscribeTo: seq<Subject>)
      modifies this`subjects, this`sessions
      ensures View() == SubscribeAll(old(View()), sid, subscribeTo)
    {
      for j := 0 to |subscribeTo|
        invariant SubscribeAll(View(), sid, subscribeTo[j..]) == SubscribeAll(old(View()), sid, subscribeTo)
      {
        var join := subscribeTo[j];
        assert subscribeTo[j..][1..] == subscribeTo[j + 1..];
        var already := IsSubscribed(sid, join);
        if already {
          continue;
        }
        subjects := subjects[join := (if join in subjects then subjects[join] else []) + [sid]];
        sessions := sessions[sid := (if sid in sessions then sessions[sid] else []) + [join]];
      }
    }

    /** The inner loop shared by `Unsubscribe` and `Close`: drop the session's subscription from
        one subject's list, and the list when nothing is left in it. */
    method RemoveFrom(sid: SessionId, subject: Subject)
      requires subject in subjects
      modifies this`subjects
      ensures subjects == DropSubscriber(old(subjects), sid, subject)
    {
      var subscriptions := subjects[subject];
      for o := 0 to |subscriptions|
        invariant subjects == old(subjects)
        invariant forall j | 0 <= j < o :: subscriptions[j] != sid
      {
        if subscriptions[o] != sid {
          continue;
        }
        assert Find(subscriptions, sid) == o;
        subjects := subjects[subject := SwapRemove(subscriptions, o)];
        break;
      }
      if subjects[subject] == [] {
        subjects := subjects - {subject};
      }
    }

    method Unsubscribe(sid: SessionId, unsubscribeFrom: seq<Subject>)
      modifies this`subjects, this`sessions
      ensures View() == UnsubscribeAll(old(View()), sid, unsubscribeFrom)
    {
      if sid !in sessions {
        return;
      }
      var subs := sessions[sid];
      for j := 0 to |unsubscribeFrom|
        invariant UnsubscribeEach(View(), sid, subs, unsubscribeFrom[j..])
               == UnsubscribeAll(old(View()), sid, unsubscribeFrom)
      {
        var unsub := unsubscribeFrom[j];
        assert unsubscribeFrom[j..][1..] == unsubscribeFrom[j + 1..];
        ghost var result := ScanFor(View(), sid, subs, unsub, 0);
        var i := 0;
        while i < |subs|
          invariant 0 <= i <= |subs|
          invariant ScanFor(View(), sid, subs, unsub, i) == result
        {
          if subs[i] != unsub {
            i := i + 1;
            continue;
          }
          subs := subs[i := subs[|subs| - 1]];
          sessions := sessions[sid := subs[..|subs| - 1]];
          if unsub !in subjects {
            i := i + 1;
            continue;
          }
          RemoveFrom(sid, unsub);
          break;
        }
        assert Scan(View(), subs) == result;
      }
    }

    method Close(sid: SessionId)
      modifies this`subjects, this`sessions
      ensures View() == CloseSession(old(View()), sid)
    {
      if sid !in sessions {
        return;
      }
      var subs := sessions[sid];
      for j := 0 to |subs|
        invariant sessions == old(sessions)
        invariant DropFromAll(subjects, sid, subs[j..]) == DropFromAll(old(subjects), sid, subs)
      {
        assert subs[j..][1..] == subs[j + 1..];
        if subs[j] !in subjects {
          continue;
        }
        RemoveFrom(sid, subs[j]);
      }
      sessions := sessions - {sid};
    }

    /** `handleMessage`: offers the data to the subscriber list of the trimmed subject. */
    method HandleMessage(baseSubject: string, msgSubject: string, data: Message)
      modifies this`queues
      ensures queues == Deliver(old(queues), Subscribers(View(), TrimPrefix(msgSubject, baseSubject + ".")), data)
    {
      var subject := TrimPrefix(msgSubject, baseSubject + ".");
      var subs := if subject in subjects then subjects[subject] else [];
      for j := 0 to |subs|
        invariant Deliver(queues, subs[j..], data) == Deliver(old(queues), subs, data)
      {
        assert subs[j..][1..] == subs[j + 1..];
        var queued := if subs[j] in queues then queues[subs[j]] else [];
        if |queued| < CAPACITY {
          queues := queues[subs[j] := queued + [data]];
        }
      }
    }

    /** The session's read loop takes the next message from its channel, if there is one. */
    method Receive(sid: SessionId) returns (data: seq<Message>)
      modifies this`queues
      ensures data + Queue(queues, sid) == Queue(old(queues), sid)
      ensures |data| == if Queue(old(queues), sid) == [] then 0 else 1
      ensures forall s | s != sid :: Queue(queues, s) == Queue(old(queues), s)
    {
      if sid !in queues || queues[sid] == [] {
        return [];
      }
      data := queues[sid][..1];
      queues := queues[sid := queues[sid][1..]];
    }
  }

  // ---------------------------------------------------------------- what one call does

  /** What a removal from one subscriber list leaves: everybody else, with multiplicity. */
  lemma {:induction false} DropSubscriberEffect(subjects: map<Subject, seq<SessionId>>, sid: SessionId, k: Subject)
    requires forall j | j in subjects :: subjects[j] != [] && Distinct(subjects[j])
    ensures var r := DropSubscriber(subjects, sid, k);
      && (forall j | j in r :: j in subjects && r[j] != [] && Distinct(r[j]))
      && (forall j | j in subjects && j != k :: j in r && r[j] == subjects[j])
      && (k in subjects ==>
            && (k in r <==> subjects[k] != [sid])
            && (k in r ==> multiset(r[k]) == multiset(subjects[k])[sid := 0])
            && (k in r ==> forall s :: s in r[k] <==> s in subjects[k] && s != sid))
  {
    if k in subjects {
      DropFromList(subjects[k], sid);
    }
  }

  lemma {:induction false} DropFromList(list: seq<SessionId>, sid: SessionId)
    requires list != [] && Distinct(list)
    ensures var o := Find(list, sid);
      var r := if o < |list| then SwapRemove(list, o) else list;
      && Distinct(r)
      && multiset(r) == multiset(list)[sid := 0]
      && (r != [] <==> list != [sid])
      && (forall s :: s in r <==> s in list && s != sid)
  {
    var o := Find(list, sid);
    DistinctMultiplicity(list, sid);
    if o < |list| {
      SwapRemoveMultiset(list, o);
      SwapRemoveDistinct(list, o);
      assert |list| == 1 ==> list == [sid];
    }
  }

  lemma {:induction false} SubscribeOneEffect(ix: Index, sid: SessionId, k: Subject)
    requires Bijective(ix)
    ensures Bijective(SubscribeOne(ix, sid, k))
    ensures Links(SubscribeOne(ix, sid, k)) == Links(ix) + {(sid, k)}
    ensures forall s | s != sid :: Subjects(SubscribeOne(ix, sid, k), s) == Subjects(ix, s)
    ensures forall j :: j in Subjects(SubscribeOne(ix, sid, k), sid) <==> j in Subjects(ix, sid) || j == k
  {
    var r := SubscribeOne(ix, sid, k);
    if sid in Subscribers(ix, k) {
      assert k in Subjects(ix, sid);
    } else {
      forall s | s in r.sessions
        ensures Distinct(r.sessions[s])
      {
        assert Distinct(Subjects(ix, s));
      }
      forall j, s
        ensures s in Subscribers(r, j) <==> j in Subjects(r, s)
      {
        assert s in Subscribers(ix, j) <==> j in Subjects(ix, s);
      }
    }
  }

  /** Subscribing adds exactly the named links, whatever was there and however names repeat. */
  lemma {:induction false} SubscribeAllEffect(ix: Index, sid: SessionId, ks: seq<Subject>)
    requires Bijective(ix)
    ensures Bijective(SubscribeAll(ix, sid, ks))
    ensures Links(SubscribeAll(ix, sid, ks)) == Links(ix) + (set k | k in ks :: (sid, k))
    decreases |ks|
  {
    if ks != [] {
      SubscribeOneEffect(ix, sid, ks[0]);
      SubscribeAllEffect(SubscribeOne(ix, sid, ks[0]), sid, ks[1..]);
      assert ks == [ks[0]] + ks[1..];
    }
  }

  /** Lists only grow at the end: the session comes last in the list of each subject it joins. */
  lemma {:induction false} SubscribeAppends(ix: Index, sid: SessionId, ks: seq<Subject>, k: Subject)
    ensures var r := SubscribeAll(ix, sid, ks);
      && Subscribers(r, k) == Subscribers(ix, k) + (if k in ks && sid !in Subscribers(ix, k) then [sid] else [])
      && Subjects(ix, sid) <= Subjects(r, sid)
    decreases |ks|
  {
    if ks != [] {
      SubscribeAppends(SubscribeOne(ix, sid, ks[0]), sid, ks[1..], k);
      assert k in ks <==> k == ks[0] || k in ks[1..];
    }
  }

  /** Scanning from i may as well start at the next occurrence. */
  lemma {:induction false} ScanSkips(ix: Index, sid: SessionId, subs: seq<Subject>, unsub: Subject, i: nat, f: nat)
    requires i <= f <= |subs|
    requires forall j | i <= j < f :: subs[j] != unsub
    ensures ScanFor(ix, sid, subs, unsub, i) == ScanFor(ix, sid, subs, unsub, f)
    decreases f - i
  {
    if i < f {
      ScanSkips(ix, sid, subs, unsub, i + 1, f);
    }
  }

  /** One link taken out of both maps. */
  lemma {:induction false} DropLink(ix: Index, sid: SessionId, k: Subject)
    requires Bijective(ix) && k in Subjects(ix, sid)
    ensures sid in ix.sessions && Find(ix.sessions[sid], k) < |ix.sessions[sid]|
    ensures var r := Index(DropSubscriber(ix.subjects, sid, k),
                           ix.sessions[sid := SwapRemove(ix.sessions[sid], Find(ix.sessions[sid], k))]);
      && Bijective(r)
      && Links(r) == Links(ix) - {(sid, k)}
      && (forall s | s != sid :: Subjects(r, s) == Subjects(ix, s))
      && (forall j :: j in Subjects(r, sid) <==> j in Subjects(ix, sid) && j != k)
  {
    var subs := ix.sessions[sid];
    var f := Find(subs, k);
    var r := Index(DropSubscriber(ix.subjects, sid, k), ix.sessions[sid := SwapRemove(subs, f)]);
    assert sid in Subscribers(ix, k);
    DropSubscriberEffect(ix.subjects, sid, k);
    SwapRemoveDistinct(subs, f);
    forall j, s
      ensures s in Subscribers(r, j) <==> j in Subjects(r, s)
    {
      assert s in Subscribers(ix, j) <==> j in Subjects(ix, s);
    }
  }

  /** With one subject, as the session layer always calls it, exactly that link disappears. */
  lemma {:induction false} UnsubscribeOneEffect(ix: Index, sid: SessionId, k: Subject)
    requires Bijective(ix)
    ensures var r := UnsubscribeAll(ix, sid, [k]);
      && Bijective(r)
      && Links(r) == Links(ix) - {(sid, k)}
      && (forall s | s != sid :: Subjects(r, s) == Subjects(ix, s))
      && (forall j :: j in Subjects(r, sid) <==> j in Subjects(ix, sid) && j != k)
      && (k !in Subjects(ix, sid) ==> r == ix)
      && (k in Subjects(ix, sid) ==>
            r == Index(DropSubscriber(ix.subjects, sid, k),
                       ix.sessions[sid := SwapRemove(ix.sessions[sid], Find(ix.sessions[sid], k))]))
  {
    if sid !in ix.sessions {
      assert Subjects(ix, sid) == [];
      return;
    }
    var subs := ix.sessions[sid];
    var f := Find(subs, k);
    ScanSkips(ix, sid, subs, k, 0, f);
    var r := UnsubscribeAll(ix, sid, [k]);
    assert r == ScanFor(ix, sid, subs, k, 0).ix by {
      var first := ScanFor(ix, sid, subs, k, 0);
      assert [k][1..] == [];
      assert UnsubscribeEach(first.ix, sid, first.subs, []) == first.ix;
    }
    assert forall j :: j in Subjects(ix, sid) <==> sid in Subscribers(ix, j);
    if f == |subs| {
      assert r == ix;
      assert k !in Subjects(ix, sid);
      return;
    }
    assert sid in Subscribers(ix, k);
    assert r == Index(DropSubscriber(ix.subjects, sid, k), ix.sessions[sid := SwapRemove(subs, f)]);
    DropLink(ix, sid, k);
  }

  lemma {:induction false} DropFromAllEffect(subjects: map<Subject, seq<SessionId>>, sid: SessionId, ks: seq<Subject>)
    requires forall j | j in subjects :: subjects[j] != [] && Distinct(subjects[j])
    ensures var r := DropFromAll(subjects, sid, ks);
      && (forall j | j in r :: j in subjects && r[j] != [] && Distinct(r[j]))
      && (forall j | j in subjects && j !in ks :: j in r && r[j] == subjects[j])
      && (forall j | j in subjects && j in ks ::
            && (j in r <==> subjects[j] != [sid])
            && (j in r ==> multiset(r[j]) == multiset(subjects[j])[sid := 0]))
    decreases |ks|
  {
    if ks != [] {
      var next := DropSubscriber(subjects, sid, ks[0]);
      DropSubscriberEffect(subjects, sid, ks[0]);
      DropFromAllEffect(next, sid, ks[1..]);
      var r := DropFromAll(next, sid, ks[1..]);
      forall j | j in subjects && j in ks
        ensures j in r <==> subjects[j] != [sid]
        ensures j in r ==> multiset(r[j]) == multiset(subjects[j])[sid := 0]
      {
        if j == ks[0] && j in next && j in ks[1..] {
          assert sid !in next[j];
        }
      }
    }
  }
}
