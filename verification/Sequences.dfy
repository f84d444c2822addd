/** List operations of the source language that the models share. */
module Sequences {

  ghost predicate Distinct<T>(s: seq<T>) {
    forall i, j | 0 <= i < j < |s| :: s[i] != s[j]
  }

  function IndexOf<T(==)>(s: seq<T>, x: T): (i: nat)
    requires x in s
    ensures i < |s| && s[i] == x && x !in s[..i]
  {
    if s[0] == x then 0
    else
      assert s == [s[0]] + s[1..];
      var i := IndexOf(s[1..], x);
      assert s[..i + 1] == [s[0]] + s[1..][..i];
      i + 1
  }

  /** `list.remove`, doing nothing when the element is missing. */
  function RemoveFirst<T(==)>(s: seq<T>, x: T): seq<T> {
    if x in s then s[..IndexOf(s, x)] + s[IndexOf(s, x) + 1..] else s
  }

  /** `list.insert` at a position within the list. */
  function InsertAt<T>(s: seq<T>, position: nat, x: T): seq<T>
    requires position <= |s|
  {
    s[..position] + [x] + s[position..]
  }

  lemma RemoveFirstMultiset<T>(s: seq<T>, x: T)
    ensures multiset(RemoveFirst(s, x)) == multiset(s) - multiset{x}
  {
    if x in s {
      var i := IndexOf(s, x);
      assert s == s[..i] + [x] + s[i + 1..];
    }
  }

  lemma InsertMultiset<T>(s: seq<T>, position: nat, x: T)
    requires position <= |s|
    ensures multiset(InsertAt(s, position, x)) == multiset(s) + multiset{x}
  {
    assert s == s[..position] + s[position..];
  }

  lemma MultisetOfDistinct<T>(s: seq<T>, x: T)
    requires Distinct(s)
    ensures multiset(s)[x] == if x in s then 1 else 0
  {
    if x in s {
      var i := IndexOf(s, x);
      assert s == s[..i] + [x] + s[i + 1..];
      assert x !in s[i + 1..];
    }
  }

  lemma RemoveFirstDistinct<T>(s: seq<T>, x: T)
    requires Distinct(s)
    ensures Distinct(RemoveFirst(s, x)) && x !in RemoveFirst(s, x)
    ensures |RemoveFirst(s, x)| == if x in s then |s| - 1 else |s|
  {
    if x in s {
      var i := IndexOf(s, x);
      assert forall j | 0 <= j < |s| - 1 :: RemoveFirst(s, x)[j] == s[if j < i then j else j + 1];
    }
  }

  lemma RemoveFirstMember<T>(s: seq<T>, x: T, y: T)
    requires y != x
    ensures y in RemoveFirst(s, x) <==> y in s
  {
    if x in s {
      var i := IndexOf(s, x);
      assert s == s[..i] + [x] + s[i + 1..];
    }
  }

  lemma InsertDistinct<T>(s: seq<T>, position: nat, x: T)
    requires position <= |s|
    ensures Distinct(InsertAt(s, position, x)) <==> Distinct(s) && x !in s
  {
    var r := InsertAt(s, position, x);
    assert forall j | 0 <= j < |s| :: s[j] == r[if j < position then j else j + 1];
    assert r[position] == x;
    if x in s {
      var i := IndexOf(s, x);
      assert r[if i < position then i else i + 1] == x;
    }
  }

  lemma InsertMember<T>(s: seq<T>, position: nat, x: T, y: T)
    requires position <= |s|
    ensures y in InsertAt(s, position, x) <==> y in s || y == x
  {
    assert s == s[..position] + s[position..];
  }

  /** Editing beyond the first `keep` elements leaves them alone. */
  lemma PrefixKept<T>(s: seq<T>, keep: nat, x: T, position: nat)
    requires keep <= |s|
    ensures x !in s[..keep] ==> keep <= |RemoveFirst(s, x)| && RemoveFirst(s, x)[..keep] == s[..keep]
    ensures keep <= position <= |s| ==> InsertAt(s, position, x)[..keep] == s[..keep]
  {
    if x in s && x !in s[..keep] {
      var i := IndexOf(s, x);
      assert forall j | 0 <= j < keep :: s[..keep][j] == s[j] != x;
    }
  }

  lemma RemoveInserted<T>(s: seq<T>, position: nat, x: T)
    requires position <= |s| && x !in s
    ensures RemoveFirst(InsertAt(s, position, x), x) == s
  {
    var r := InsertAt(s, position, x);
    assert r[..position] == s[..position] && r[position + 1..] == s[position..];
    IndexUnique(r, x, position);
    assert s == s[..position] + s[position..];
  }

  /** Moving an element of a duplicate-free list. */
  lemma MoveWithin<T>(s: seq<T>, position: nat, x: T)
    requires Distinct(s) && x in s && position < |s|
    ensures |RemoveFirst(s, x)| == |s| - 1
    ensures var r := InsertAt(RemoveFirst(s, x), position, x);
            Distinct(r) && multiset(r) == multiset(s) && r[position] == x && RemoveFirst(r, x) == RemoveFirst(s, x)
  {
    var rest := RemoveFirst(s, x);
    RemoveFirstDistinct(s, x);
    RemoveFirstMultiset(s, x);
    InsertMultiset(rest, position, x);
    InsertDistinct(rest, position, x);
    RemoveInserted(rest, position, x);
    MultisetOfDistinct(s, x);
  }

  lemma SameMembers<T>(a: seq<T>, b: seq<T>, x: T)
    requires multiset(a) == multiset(b)
    ensures x in a <==> x in b
  {
    assert x in a <==> x in multiset(a);
    assert x in b <==> x in multiset(b);
  }

  lemma {:induction false} IndexUnique<T>(s: seq<T>, x: T, i: nat)
    requires i < |s| && s[i] == x && x !in s[..i]
    ensures IndexOf(s, x) == i
  {
    var j := IndexOf(s, x);
    assert forall k | 0 <= k < i :: s[..i][k] == s[k];
    assert forall k | 0 <= k < j :: s[..j][k] == s[k];
  }

  lemma IndexInLonger<T>(s: seq<T>, z: T, x: T)
    requires x in s + [z]
    ensures IndexOf(s + [z], x) == if x in s then IndexOf(s, x) else |s|
  {
    var i := if x in s then IndexOf(s, x) else |s|;
    assert (s + [z])[..i] == s[..i];
    IndexUnique(s + [z], x, i);
  }

  /** The elements that satisfy `p`, in order. */
  function Filter<T>(s: seq<T>, p: T -> bool): seq<T> {
    if s == [] then []
    else
      var before, last := Filter(s[..|s| - 1], p), s[|s| - 1];
      if p(last) then before + [last] else before
  }

  lemma FilterOneMore<T>(s: seq<T>, x: T, p: T -> bool)
    ensures Filter(s + [x], p) == if p(x) then Filter(s, p) + [x] else Filter(s, p)
  {
    assert (s + [x])[..|s|] == s;
  }

  lemma {:induction false} FilterMember<T>(s: seq<T>, p: T -> bool, x: T)
    ensures x in Filter(s, p) <==> x in s && p(x)
  {
    if s != [] {
      assert s == s[..|s| - 1] + [s[|s| - 1]];
      FilterMember(s[..|s| - 1], p, x);
    }
  }

  lemma {:induction false} FilterDistinct<T>(s: seq<T>, p: T -> bool)
    requires Distinct(s)
    ensures Distinct(Filter(s, p))
  {
    if s != [] {
      FilterDistinct(s[..|s| - 1], p);
      FilterMember(s[..|s| - 1], p, s[|s| - 1]);
    }
  }

  lemma {:induction false} FilterAll<T>(s: seq<T>, p: T -> bool)
    requires forall x <- s :: p(x)
    ensures Filter(s, p) == s
  {
    if s != [] {
      assert s == s[..|s| - 1] + [s[|s| - 1]];
      FilterAll(s[..|s| - 1], p);
    }
  }

  lemma {:induction false} FilterKeepsOrder<T>(s: seq<T>, p: T -> bool, x: T, y: T)
    requires Distinct(s) && x in Filter(s, p) && y in Filter(s, p)
    ensures x in s && y in s
    ensures IndexOf(Filter(s, p), x) < IndexOf(Filter(s, p), y) <==> IndexOf(s, x) < IndexOf(s, y)
  {
    FilterMember(s, p, x);
    FilterMember(s, p, y);
    var before, last := s[..|s| - 1], s[|s| - 1];
    assert s == before + [last];
    FilterMember(before, p, x);
    FilterMember(before, p, y);
    FilterMember(before, p, last);
    IndexInLonger(before, last, x);
    IndexInLonger(before, last, y);
    if p(last) {
      IndexInLonger(Filter(before, p), last, x);
      IndexInLonger(Filter(before, p), last, y);
    }
    if x in before && y in before {
      FilterKeepsOrder(before, p, x, y);
    }
  }

  lemma {:induction false} FilterTogether<T>(a: seq<T>, b: seq<T>, p: T -> bool)
    ensures Filter(a + b, p) == Filter(a, p) + Filter(b, p)
    decreases |b|
  {
    if b == [] {
      assert a + b == a;
    } else {
      var n := |b| - 1;
      assert (a + b)[..|a| + n] == a + b[..n];
      FilterTogether(a, b[..n], p);
    }
  }
}
