/** Slice idioms shared by the Go sources: the swap-with-last removal, the order-keeping
    removal of the `utils` package, and the linear searches the loops perform. */
module Slices {

  predicate Distinct<T(==)>(s: seq<T>) {
    forall i, j | 0 <= i < j < |s| :: s[i] != s[j]
  }

  /** Overwrites position i with the last element and cuts the last position off. */
  function SwapRemove<T>(s: seq<T>, i: nat): seq<T>
    requires i < |s|
  {
    s[i := s[|s| - 1]][..|s| - 1]
  }

  /** Drops position i and keeps the order of the rest. */
  function SliceRemove<T>(s: seq<T>, i: nat): seq<T> {
    if i < |s| then s[..i] + s[i + 1..] else s
  }

  predicate FirstAt<T(==)>(s: seq<T>, x: T, i: nat) {
    i < |s| && s[i] == x && forall j | 0 <= j < i :: s[j] != x
  }

  lemma {:induction false} FirstExists<T>(s: seq<T>, x: T)
    requires x in s
    ensures exists i: nat :: FirstAt(s, x, i)
  {
    var i := 0;
    while s[i] != x
      invariant 0 <= i < |s|
      invariant forall j | 0 <= j < i :: s[j] != x
      decreases |s| - i
    {
      assert exists j :: i < j < |s| && s[j] == x;
      i := i + 1;
    }
    assert FirstAt(s, x, i);
  }

  /** The first position of x, or |s| when x does not occur. */
  function Find<T(==)>(s: seq<T>, x: T): (i: nat)
    ensures i <= |s|
    ensures forall j | 0 <= j < i :: s[j] != x
    ensures i < |s| ==> s[i] == x
    ensures i < |s| <==> x in s
  {
    if x !in s then |s| else
      FirstExists(s, x);
      var i: nat :| FirstAt(s, x, i);
      i
  }

  /** Swap removal loses one copy of the removed element and nothing else. */
  lemma {:induction false} SwapRemoveMultiset<T>(s: seq<T>, i: nat)
    requires i < |s|
    ensures multiset(SwapRemove(s, i)) == multiset(s) - multiset{s[i]}
  {
    var n := |s| - 1;
    assert s == s[..n] + [s[n]];
    if i < n {
      assert s[..n] == s[..i] + [s[i]] + s[i + 1..n];
      assert SwapRemove(s, i) == s[..i] + [s[n]] + s[i + 1..n];
    } else {
      assert SwapRemove(s, i) == s[..n];
    }
  }

  lemma {:induction false} SwapRemoveDistinct<T>(s: seq<T>, i: nat)
    requires i < |s| && Distinct(s)
    ensures Distinct(SwapRemove(s, i))
    ensures forall x :: x in SwapRemove(s, i) <==> x in s && x != s[i]
  {
    var n := |s| - 1;
    var r := SwapRemove(s, i);
    forall x | x in s && x != s[i]
      ensures x in r
    {
      var j :| 0 <= j < |s| && s[j] == x;
      if j < n {
        assert r[j] == x;
      } else {
        assert r[i] == x;
      }
    }
  }

  /** Position i goes, what stood before stays where it was and what stood after moves up by one. */
  lemma {:induction false} SliceRemoveOrder<T>(s: seq<T>, i: nat)
    requires i < |s|
    ensures var r := SliceRemove(s, i);
      |r| == |s| - 1 && forall j | 0 <= j < |r| :: r[j] == s[if j < i then j else j + 1]
  {
  }

  lemma {:induction false} SliceRemoveMembers<T>(s: seq<T>, i: nat)
    requires i < |s| && Distinct(s)
    ensures Distinct(SliceRemove(s, i))
    ensures forall x :: x in SliceRemove(s, i) <==> x in s && x != s[i]
  {
    var r := SliceRemove(s, i);
    forall x | x in s && x != s[i]
      ensures x in r
    {
      var j :| 0 <= j < |s| && s[j] == x;
      assert r[if j < i then j else j - 1] == x;
    }
  }

  lemma {:induction false} DistinctMultiplicity<T>(s: seq<T>, x: T)
    requires Distinct(s)
    ensures multiset(s)[x] == if x in s then 1 else 0
  {
    if x in s {
      var i :| 0 <= i < |s| && s[i] == x;
      assert s == s[..i] + [s[i]] + s[i + 1..];
      assert x !in s[..i] && x !in s[i + 1..];
    }
  }

  function Elements<T(==)>(s: seq<T>): set<T> {
    set x | x in s
  }

  lemma {:induction false} ElementsSize<T>(s: seq<T>)
    requires Distinct(s)
    ensures |Elements(s)| == |s|
  {
    if s != [] {
      ElementsSize(s[1..]);
      assert Elements(s) == Elements(s[1..]) + {s[0]};
    }
  }
}
