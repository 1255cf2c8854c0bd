/** Laws of the routing index over whole calls and whole runs. */
module RoutingLaws {
  import opened Slices
  import opened RoutingIndex

  // ---------------------------------------------------------------- Close

  /** `Close` forgets the session everywhere and touches nobody else: every other session keeps
      its subject list, every subscriber list keeps its other members with their multiplicity,
      and exactly the lists that held nobody else are deleted. */
  lemma {:induction false} CloseForgetsOnlyTheSession(ix: Index, sid: SessionId)
    requires Bijective(ix)
    ensures var r := CloseSession(ix, sid);
      && Bijective(r)
      && sid !in r.sessions
      && Links(r) == (set l | l in Links(ix) && l.0 != sid)
      && (forall s | s != sid :: Subjects(r, s) == Subjects(ix, s))
      && (forall k :: k in r.subjects <==> k in ix.subjects && ix.subjects[k] != [sid])
      && (forall k :: multiset(Subscribers(r, k)) == multiset(Subscribers(ix, k))[sid := 0])
  {
    CloseKeepsBijection(ix, sid);
    forall k {
      CloseSubscribers(ix, sid, k);
    }
  }

  lemma {:induction false} CloseKeepsBijection(ix: Index, sid: SessionId)
    requires Bijective(ix)
    ensures Bijective(CloseSession(ix, sid))
  {
    var r := CloseSession(ix, sid);
    forall k
      ensures k in r.subjects ==> r.subjects[k] != [] && Distinct(r.subjects[k])
    {
      CloseSubscribers(ix, sid, k);
    }
    forall k, s
      ensures s in Subscribers(r, k) <==> k in Subjects(r, s)
    {
      CloseSubscribers(ix, sid, k);
      assert s in Subscribers(r, k) <==> s in multiset(Subscribers(r, k));
      assert s in Subscribers(ix, k) <==> s in multiset(Subscribers(ix, k));
      assert s in Subscribers(ix, k) <==> k in Subjects(ix, s);
    }
  }

  lemma {:induction false} CloseSubscribers(ix: Index, sid: SessionId, k: Subject)
    requires Bijective(ix)
    ensures var r := CloseSession(ix, sid);
      && (k in r.subjects <==> k in ix.subjects && ix.subjects[k] != [sid])
      && multiset(Subscribers(r, k)) == multiset(Subscribers(ix, k))[sid := 0]
      && (k in r.subjects ==> r.subjects[k] != [] && Distinct(r.subjects[k]))
  {
    var ks := Subjects(ix, sid);
    assert sid in Subscribers(ix, k) <==> k in ks;
    if sid in ix.sessions {
      DropFromAllEffect(ix.subjects, sid, ks);
    }
    if k in ix.subjects && k !in ks {
      DistinctMultiplicity(ix.subjects[k], sid);
      assert sid in [sid];
    }
  }

  // ---------------------------------------------------------------- Unsubscribe with many subjects

  /** The stale list `subs` that `Unsubscribe` walks, once the subjects in `gone` are removed:
      as long as the session's list `all` was when the call began, and still naming the rest. */
  ghost predicate StaleList(all: seq<Subject>, subs: seq<Subject>, gone: set<Subject>) {
    && |subs| == |all|
    && (forall x | x in gone :: x in all)
    && (forall x | x in subs :: x in all)
    && (forall x | x in all && x !in gone :: x in subs)
  }

  ghost predicate StaleIndex(all: seq<Subject>, ix: Index, sid: SessionId, gone: set<Subject>) {
    && sid in ix.sessions
    && (forall k | k in ix.subjects :: ix.subjects[k] != [] && Distinct(ix.subjects[k]))
    && (forall k :: sid in Subscribers(ix, k) <==> k in all && k !in gone)
    && (gone != {} ==> |ix.sessions[sid]| == |all| - 1)
  }

  lemma {:induction false} WriteThroughList(all: seq<Subject>, subs: seq<Subject>, gone: set<Subject>, i: nat)
    requires StaleList(all, subs, gone) && i < |subs|
    ensures StaleList(all, subs[i := subs[|subs| - 1]], gone + {subs[i]})
  {
    var subs' := subs[i := subs[|subs| - 1]];
    forall x | x in subs && x != subs[i]
      ensures x in subs'
    {
      var j :| 0 <= j < |subs| && subs[j] == x;
      assert subs'[j] == x;
    }
    forall x | x in subs'
      ensures x in all
    {
      var j :| 0 <= j < |subs'| && subs'[j] == x;
      assert subs'[j] in subs;
    }
  }

  lemma {:induction false} DropFromStale(all: seq<Subject>, ix: Index, sid: SessionId, gone: set<Subject>, a: Subject,
                                         left: seq<Subject>)
    requires StaleIndex(all, ix, sid, gone) && a in all && |left| == |all| - 1
    ensures StaleIndex(all, Index(DropSubscriber(ix.subjects, sid, a), ix.sessions[sid := left]), sid, gone + {a})
  {
    var next := Index(DropSubscriber(ix.subjects, sid, a), ix.sessions[sid := left]);
    DropSubscriberEffect(ix.subjects, sid, a);
    forall k
      ensures sid in Subscribers(next, k) <==> k in all && k !in gone + {a}
    {
      assert sid in Subscribers(ix, k) <==> k in all && k !in gone;
    }
  }

  lemma {:induction false} ScanStale(all: seq<Subject>, ix: Index, sid: SessionId, subs: seq<Subject>,
                                     gone: set<Subject>,
                                     a: Subject, i: nat)
    requires i <= |subs| && StaleList(all, subs, gone) && StaleIndex(all, ix, sid, gone)
    requires a in gone || forall j | 0 <= j < i :: subs[j] != a
    ensures var r := ScanFor(ix, sid, subs, a, i);
      var gone' := if a in all then gone + {a} else gone;
      StaleList(all, r.subs, gone') && StaleIndex(all, r.ix, sid, gone')
    decreases |subs| - i
  {
    if i == |subs| {
      assert a in gone ==> gone + {a} == gone;
    } else if subs[i] != a {
      ScanStale(all, ix, sid, subs, gone, a, i + 1);
    } else {
      var subs' := subs[i := subs[|subs| - 1]];
      var left := subs'[..|subs| - 1];
      assert subs[i] in subs;
      WriteThroughList(all, subs, gone, i);
      if a !in ix.subjects {
        assert sid !in Subscribers(ix, a);
        assert gone + {a} == gone;
        ScanStale(all, Index(ix.subjects, ix.sessions[sid := left]), sid, subs', gone, a, i + 1);
      } else {
        DropFromStale(all, ix, sid, gone, a, left);
      }
    }
  }

  /** The subjects of a list that are among ks. */
  function NamedIn(all: seq<Subject>, ks: seq<Subject>): set<Subject> {
    set k | k in ks && k in all
  }

  lemma {:induction false} NamedFirst(all: seq<Subject>, gone: set<Subject>, ks: seq<Subject>)
    requires ks != []
    ensures (if ks[0] in all then gone + {ks[0]} else gone) + NamedIn(all, ks[1..]) == gone + NamedIn(all, ks)
  {
    assert ks == [ks[0]] + ks[1..];
  }

  lemma {:induction false} EachStale(all: seq<Subject>, ix: Index, sid: SessionId, subs: seq<Subject>,
                                     gone: set<Subject>,
                                     ks: seq<Subject>)
    requires StaleList(all, subs, gone) && StaleIndex(all, ix, sid, gone)
    ensures StaleIndex(all, UnsubscribeEach(ix, sid, subs, ks), sid, gone + NamedIn(all, ks))
    decreases |ks|
  {
    if ks == [] {
      assert NamedIn(all, []) == {};
    } else {
      ScanStale(all, ix, sid, subs, gone, ks[0], 0);
      var r := ScanFor(ix, sid, subs, ks[0], 0);
      var gone' := if ks[0] in all then gone + {ks[0]} else gone;
      EachStale(all, r.ix, sid, r.subs, gone', ks[1..]);
      NamedFirst(all, gone, ks);
    }
  }

  /** Once a subject is unsubscribed, naming it again in the same call changes nothing. */
  lemma {:induction false} RepeatsAreHarmless(ix: Index, sid: SessionId, subs: seq<Subject>, a: Subject,
                                              ks: seq<Subject>)
    requires subs != [] && sid in ix.sessions && ix.sessions[sid] == subs[..|subs| - 1]
    requires a !in subs[..|subs| - 1]
    requires a in ix.subjects ==> ix.subjects[a] != [] && sid !in ix.subjects[a]
    requires forall k | k in ks :: k == a || k !in subs
    ensures UnsubscribeEach(ix, sid, subs, ks) == ix
    decreases |ks|
  {
    if ks != [] {
      var n := |subs| - 1;
      var k := ks[0];
      assert k in ks;
      forall j | 0 <= j < n
        ensures subs[j] != k
      {
        assert subs[..n][j] in subs[..n];
      }
      ScanSkips(ix, sid, subs, k, 0, n);
      assert subs[n := subs[n]] == subs;
      assert ix.sessions[sid := subs[..n]] == ix.sessions;
      if k in ix.subjects {
        assert k == a ==> DropSubscriber(ix.subjects, sid, k) == ix.subjects;
      }
      assert ScanFor(ix, sid, subs, k, n) == Scan(ix, subs);
      RepeatsAreHarmless(ix, sid, subs, a, ks[1..]);
    }
  }

  /** Two different subscribed subjects in one call: the session list comes out one longer than
      the links that are left. */
  lemma {:induction false} TwoHitsBreak(ix: Index, sid: SessionId, ks: seq<Subject>, a: Subject, b: Subject)
    requires Bijective(ix) && sid in ix.sessions
    requires a in ks && b in ks && a != b && a in Subjects(ix, sid) && b in Subjects(ix, sid)
    ensures !Bijective(UnsubscribeAll(ix, sid, ks))
  {
    var all := Subjects(ix, sid);
    var r := UnsubscribeAll(ix, sid, ks);
    var hit := NamedIn(all, ks);
    assert StaleIndex(all, ix, sid, {}) by {
      assert forall k :: sid in Subscribers(ix, k) <==> k in all;
    }
    EachStale(all, ix, sid, all, {}, ks);
    assert {} + hit == hit;
    assert a in hit && b in hit;
    if Bijective(r) {
      LinksLeft(all, r, sid, hit);
      SubsetSize({a, b}, hit);
      assert false;
    }
  }

  lemma {:induction false} LinksLeft(all: seq<Subject>, r: Index, sid: SessionId, gone: set<Subject>)
    requires Distinct(all) && Bijective(r) && StaleIndex(all, r, sid, gone) && gone <= Elements(all)
    requires gone != {}
    ensures |gone| == 1
  {
    var left := r.sessions[sid];
    forall k
      ensures k in Elements(left) <==> k in Elements(all) - gone
    {
      assert sid in Subscribers(r, k) <==> k in Subjects(r, sid);
    }
    assert Elements(left) == Elements(all) - gone;
    ElementsSize(left);
    ElementsSize(all);
    assert |Elements(all) - gone| == |Elements(all)| - |gone|;
  }

  lemma {:induction false} SubsetSize<T>(a: set<T>, b: set<T>)
    requires a <= b
    ensures |a| <= |b|
  {
    assert b == a + (b - a);
  }

  /** Of the subjects named in the call, the session is subscribed to at most one. */
  ghost predicate AtMostOneHit(ix: Index, sid: SessionId, ks: seq<Subject>) {
    forall a, b | a in ks && b in ks && a in Subjects(ix, sid) && b in Subjects(ix, sid) :: a == b
  }

  /** Exactly when `Unsubscribe` keeps the two maps inverse to each other: at most one of the
      subjects named in the call is one the session is subscribed to. The call then removes the
      named links and no others. */
  lemma {:induction false} UnsubscribeKeepsBijectionIff(ix: Index, sid: SessionId, ks: seq<Subject>)
    requires Bijective(ix)
    ensures Bijective(UnsubscribeAll(ix, sid, ks)) <==> AtMostOneHit(ix, sid, ks)
    ensures AtMostOneHit(ix, sid, ks) ==>
      Links(UnsubscribeAll(ix, sid, ks)) == Links(ix) - (set k | k in ks :: (sid, k))
  {
    if sid in ix.sessions {
      if a, b :| a in ks && b in ks && a in Subjects(ix, sid) && b in Subjects(ix, sid) && a != b {
        TwoHitsBreak(ix, sid, ks, a, b);
      } else {
        OneHitRemoves(ix, sid, ks);
      }
    }
  }

  /** A session on two subjects that leaves both in one call: the stale list breaks the index. */
  lemma {:induction false} LeavingTwoAtOnce(sid: SessionId, a: Subject, b: Subject)
    requires a != b
    ensures var ix := SubscribeAll(EMPTY_INDEX, sid, [a, b]);
      Bijective(ix) && !Bijective(UnsubscribeAll(ix, sid, [a, b]))
  {
    var ix := SubscribeAll(EMPTY_INDEX, sid, [a, b]);
    SubscribeAllEffect(EMPTY_INDEX, sid, [a, b]);
    assert (sid, a) in Links(ix) && (sid, b) in Links(ix);
    assert a in Subjects(ix, sid) && b in Subjects(ix, sid);
    assert a in [a, b] && b in [a, b];
    UnsubscribeKeepsBijectionIff(ix, sid, [a, b]);
  }

  lemma {:induction false} OneHitRemoves(ix: Index, sid: SessionId, ks: seq<Subject>)
    requires Bijective(ix) && sid in ix.sessions && AtMostOneHit(ix, sid, ks)
    ensures Bijective(UnsubscribeAll(ix, sid, ks))
    ensures Links(UnsubscribeAll(ix, sid, ks)) == Links(ix) - (set k | k in ks :: (sid, k))
  {
    if k :| k in ks && k in Subjects(ix, sid) {
      OneHitIsOne(ix, sid, ks, k);
      UnsubscribeOneEffect(ix, sid, k);
    } else {
      NoHitNothing(ix, sid, ks);
    }
  }

  /** Naming subjects the session is not subscribed to changes nothing. */
  lemma {:induction false} NoHitNothing(ix: Index, sid: SessionId, ks: seq<Subject>)
    requires sid in ix.sessions && forall k | k in ks :: k !in Subjects(ix, sid)
    ensures UnsubscribeAll(ix, sid, ks) == ix
    decreases |ks|
  {
    if ks != [] {
      FirstMisses(ix, sid, ks);
      NoHitNothing(ix, sid, ks[1..]);
    }
  }

  lemma {:induction false} FirstMisses(ix: Index, sid: SessionId, ks: seq<Subject>)
    requires sid in ix.sessions && ks != [] && ks[0] !in Subjects(ix, sid)
    ensures UnsubscribeAll(ix, sid, ks) == UnsubscribeAll(ix, sid, ks[1..])
  {
    var subs := ix.sessions[sid];
    ScanSkips(ix, sid, subs, ks[0], 0, |subs|);
  }

  /** With one subscribed subject among those named, the call is the one that names it alone. */
  lemma {:induction false} OneHitIsOne(ix: Index, sid: SessionId, ks: seq<Subject>, k: Subject)
    requires Bijective(ix) && sid in ix.sessions && k in Subjects(ix, sid) && k in ks
    requires forall j | j in ks && j in Subjects(ix, sid) :: j == k
    ensures UnsubscribeAll(ix, sid, ks) == UnsubscribeAll(ix, sid, [k])
    decreases |ks|
  {
    if ks[0] != k {
      FirstMisses(ix, sid, ks);
      OneHitIsOne(ix, sid, ks[1..], k);
    } else {
      FirstHits(ix, sid, ks);
    }
  }

  lemma {:induction false} FirstHits(ix: Index, sid: SessionId, ks: seq<Subject>)
    requires Bijective(ix) && sid in ix.sessions && ks != [] && ks[0] in Subjects(ix, sid)
    requires forall j | j in ks && j in Subjects(ix, sid) :: j == ks[0]
    ensures UnsubscribeAll(ix, sid, ks) == UnsubscribeAll(ix, sid, [ks[0]])
  {
    var subs, k := ix.sessions[sid], ks[0];
    var r := ScanFor(ix, sid, subs, k, 0);
    var f := Find(subs, k);
    var one := UnsubscribeAll(ix, sid, [k]);
    ScanSkips(ix, sid, subs, k, 0, f);
    UnsubscribeOneEffect(ix, sid, k);
    assert sid in Subscribers(ix, k);
    assert r == Scan(one, subs[f := subs[|subs| - 1]]);
    assert k !in Subjects(one, sid);
    assert sid !in Subscribers(one, k);
    forall j | j in ks[1..] && j != k
      ensures j !in r.subs
    {
      assert j in ks;
    }
    RepeatsAreHarmless(one, sid, r.subs, k, ks[1..]);
  }

  // ---------------------------------------------------------------- runs of the index

  datatype IndexOp =
    | Join(sid: SessionId, subjects: seq<Subject>)
    | Leave(sid: SessionId, subjects: seq<Subject>)
    | Gone(sid: SessionId)

  function IndexStep(ix: Index, op: IndexOp): Index {
    match op
    case Join(sid, ks) => SubscribeAll(ix, sid, ks)
    case Leave(sid, ks) => UnsubscribeAll(ix, sid, ks)
    case Gone(sid) => CloseSession(ix, sid)
  }

  function IndexRun(ops: seq<IndexOp>): Index {
    if ops == [] then EMPTY_INDEX else IndexStep(IndexRun(ops[..|ops| - 1]), ops[|ops| - 1])
  }

  /** What the relation should be, told as a set of pairs, without lists. */
  function Expected(ops: seq<IndexOp>): set<(SessionId, Subject)> {
    if ops == [] then {} else
      var before := Expected(ops[..|ops| - 1]);
      match ops[|ops| - 1]
      case Join(sid, ks) => before + (set k | k in ks :: (sid, k))
      case Leave(sid, ks) => before - (set k | k in ks :: (sid, k))
      case Gone(sid) => set l | l in before && l.0 != sid
  }

  /** Each `Unsubscribe` call of the run names at most one subject the session is then subscribed to. */
  ghost predicate SingleLeaves(ops: seq<IndexOp>) {
    ops == [] ||
    (SingleLeaves(ops[..|ops| - 1]) &&
     var op := ops[|ops| - 1]; op.Leave? ==> AtMostOneHit(IndexRun(ops[..|ops| - 1]), op.sid, op.subjects))
  }

  /** A run in which each `Unsubscribe` call names at most one subscribed subject keeps the maps
      inverse and holds exactly the pairs a plain set of pairs would hold. */
  lemma {:induction false} IndexRefinesPairs(ops: seq<IndexOp>)
    requires SingleLeaves(ops)
    ensures Bijective(IndexRun(ops))
    ensures Links(IndexRun(ops)) == Expected(ops)
  {
    if ops == [] {
      assert Bijective(EMPTY_INDEX);
    } else {
      var before := IndexRun(ops[..|ops| - 1]);
      IndexRefinesPairs(ops[..|ops| - 1]);
      match ops[|ops| - 1]
      case Join(sid, ks) =>
        SubscribeAllEffect(before, sid, ks);
      case Leave(sid, ks) =>
        UnsubscribeKeepsBijectionIff(before, sid, ks);
      case Gone(sid) =>
        CloseForgetsOnlyTheSession(before, sid);
    }
  }

  /** The maps are inverse in every state of a run. */
  ghost predicate AlwaysBijective(ops: seq<IndexOp>) {
    Bijective(IndexRun(ops)) && (ops == [] || AlwaysBijective(ops[..|ops| - 1]))
  }

  /** These runs, such as the session layer's with one subject per call, are exactly the ones that
      keep the maps inverse throughout. */
  lemma {:induction false} AlwaysBijectiveIff(ops: seq<IndexOp>)
    ensures AlwaysBijective(ops) <==> SingleLeaves(ops)
  {
    if ops != [] {
      var before, op := ops[..|ops| - 1], ops[|ops| - 1];
      AlwaysBijectiveIff(before);
      if SingleLeaves(ops) {
        IndexRefinesPairs(ops);
      }
      if AlwaysBijective(before) && op.Leave? {
        UnsubscribeKeepsBijectionIff(IndexRun(before), op.sid, op.subjects);
      }
    } else {
      IndexRefinesPairs(ops);
    }
  }

  // ---------------------------------------------------------------- fan-out

  /** A session's queue after a fan-out depends on its own queue and membership only: one offer
      per subscriber, none to others, and a full queue is nobody else's problem. */
  lemma {:induction false} DeliverPointwise<M>(queues: map<SessionId, seq<M>>, subs: seq<SessionId>, msg: M,
                                               s: SessionId)
    requires Distinct(subs)
    ensures Queue(Deliver(queues, subs, msg), s)
         == if s in subs && |Queue(queues, s)| < CAPACITY then Queue(queues, s) + [msg] else Queue(queues, s)
    decreases |subs|
  {
    if subs != [] {
      DeliverPointwise(Offer(queues, subs[0], msg), subs[1..], msg, s);
      assert subs == [subs[0]] + subs[1..];
      assert s == subs[0] ==> s !in subs[1..];
    }
  }

  /** The sessions a naive scan of all session subject lists would pick. */
  function NaiveScan(ix: Index, subject: Subject): set<SessionId> {
    set s | s in ix.sessions && subject in ix.sessions[s]
  }

  /** Routing through `subjects` picks the same sessions as the scan, once each. */
  lemma {:induction false} FanoutIsNaiveScan(ix: Index, subject: Subject)
    requires Bijective(ix)
    ensures Elements(Subscribers(ix, subject)) == NaiveScan(ix, subject)
    ensures forall s :: multiset(Subscribers(ix, subject))[s] == if s in NaiveScan(ix, subject) then 1 else 0
  {
    forall s
      ensures s in Subscribers(ix, subject) <==> s in NaiveScan(ix, subject)
      ensures multiset(Subscribers(ix, subject))[s] == if s in NaiveScan(ix, subject) then 1 else 0
    {
      assert s in Subscribers(ix, subject) <==> subject in Subjects(ix, s);
      DistinctMultiplicity(Subscribers(ix, subject), s);
    }
  }

  /** A message published under the base subject is offered to exactly the sessions a naive scan
      for the rest of its subject picks; one published elsewhere, to those of its whole subject. */
  lemma {:induction false} PublishedReaches<M>(ix: Index, queues: map<SessionId, seq<M>>, base: string,
                                               subject: Subject, msg: M,
                                               s: SessionId)
    requires Bijective(ix)
    ensures forall k | subject == base + "." + k ::
      Queue(Deliver(queues, Subscribers(ix, TrimPrefix(subject, base + ".")), msg), s)
        == if s in NaiveScan(ix, k) && |Queue(queues, s)| < CAPACITY then Queue(queues, s) + [msg] else Queue(queues, s)
    ensures !(base + "." <= subject) ==>
      Queue(Deliver(queues, Subscribers(ix, TrimPrefix(subject, base + ".")), msg), s)
        == if s in NaiveScan(ix, subject) && |Queue(queues, s)| < CAPACITY then Queue(queues, s) + [msg]
           else Queue(queues, s)
  {
    var k := TrimPrefix(subject, base + ".");
    FanoutIsNaiveScan(ix, k);
    DeliverPointwise(queues, Subscribers(ix, k), msg, s);
    assert s in Subscribers(ix, k) <==> s in Elements(Subscribers(ix, k));
  }
}
