/** Sorting in place by a caller's comparison, for the lists the host sorts; `before` says "strictly earlier". */
module Sorting {
  function Insert<T>(x: T, s: seq<T>, before: (T, T) -> bool): (r: seq<T>)
    ensures |r| == |s| + 1
  {
    if s == [] || !before(x, s[|s| - 1]) then s + [x] else Insert(x, s[..|s| - 1], before) + [s[|s| - 1]]
  }

  function Sorted<T>(s: seq<T>, before: (T, T) -> bool): (r: seq<T>)
    ensures |r| == |s|
  {
    if s == [] then [] else Insert(s[|s| - 1], Sorted(s[..|s| - 1], before), before)
  }

  /** What a comparison must satisfy for sorting to be meaningful: it ranks any two different elements, consistently. */
  ghost predicate Ranks<T(!new)>(before: (T, T) -> bool, s: seq<T>) {
    && (forall x, y :: x in s && y in s && x != y ==> before(x, y) != before(y, x))
    && (forall x :: x in s ==> !before(x, x))
    && (forall x, y, z :: x in s && y in s && z in s && before(x, y) && before(y, z) ==> before(x, z))
  }

  predicate Ordered<T>(s: seq<T>, before: (T, T) -> bool) {
    forall i, j :: 0 <= i < j < |s| ==> !before(s[j], s[i])
  }

  lemma {:induction false} InsertPermutes<T>(x: T, s: seq<T>, before: (T, T) -> bool)
    ensures multiset(Insert(x, s, before)) == multiset(s) + multiset{x}
  {
    if s != [] && before(x, s[|s| - 1]) {
      InsertPermutes(x, s[..|s| - 1], before);
      assert s == s[..|s| - 1] + [s[|s| - 1]];
    }
  }

  lemma {:induction false} SortedPermutes<T>(s: seq<T>, before: (T, T) -> bool)
    ensures multiset(Sorted(s, before)) == multiset(s)
    ensures forall x :: x in Sorted(s, before) <==> x in s
  {
    if s != [] {
      SortedPermutes(s[..|s| - 1], before);
      InsertPermutes(s[|s| - 1], Sorted(s[..|s| - 1], before), before);
      assert s == s[..|s| - 1] + [s[|s| - 1]];
    }
    SameMembers(Sorted(s, before), s);
  }

  lemma SameMembers<T>(a: seq<T>, b: seq<T>)
    requires multiset(a) == multiset(b)
    ensures forall x :: x in a <==> x in b
  {
    forall x ensures x in a <==> x in b {
      assert x in a <==> x in multiset(a);
      assert x in b <==> x in multiset(b);
    }
  }

  lemma InsertMembers<T>(x: T, s: seq<T>, before: (T, T) -> bool)
    ensures forall y :: y in Insert(x, s, before) <==> y in s || y == x
  {
    InsertPermutes(x, s, before);
    SameMembers(Insert(x, s, before), s + [x]);
  }

  lemma {:induction false} InsertKeepsOrder<T(!new)>(x: T, s: seq<T>, before: (T, T) -> bool)
    requires Ordered(s, before) && Ranks(before, s + [x])
    ensures Ordered(Insert(x, s, before), before)
    decreases |s|
  {
    if s != [] {
      var last, front := s[|s| - 1], s[..|s| - 1];
      if before(x, last) {
        assert forall y :: y in front + [x] ==> y in s + [x];
        InsertKeepsOrder(x, front, before);
        InsertMembers(x, front, before);
        var r := Insert(x, front, before);
        forall i | 0 <= i < |r| ensures !before(last, r[i]) {
          assert r[i] in r;
          NotBeforeEarlier(x, s, before, r[i]);
        }
      } else {
        forall i | 0 <= i < |s| ensures !before(x, s[i]) {
          NotBeforeAny(x, s, before, i);
        }
      }
    }
  }

  lemma NotBeforeEarlier<T(!new)>(x: T, s: seq<T>, before: (T, T) -> bool, y: T)
    requires s != [] && Ordered(s, before) && Ranks(before, s + [x]) && before(x, s[|s| - 1])
    requires y in s[..|s| - 1] || y == x
    ensures !before(s[|s| - 1], y)
  {
    var last := s[|s| - 1];
    assert x in s + [x] && last in s + [x];
    if y == x {
      assert before(x, last) && before(last, x) ==> before(x, x);
    } else {
      var i :| 0 <= i < |s| - 1 && s[i] == y;
      assert !before(s[|s| - 1], s[i]);
    }
  }

  lemma NotBeforeAny<T(!new)>(x: T, s: seq<T>, before: (T, T) -> bool, i: nat)
    requires i < |s| && Ordered(s, before) && Ranks(before, s + [x]) && !before(x, s[|s| - 1])
    ensures !before(x, s[i])
  {
    var last := s[|s| - 1];
    assert x in s + [x] && last in s + [x] && s[i] in s + [x];
    assert i < |s| - 1 ==> !before(last, s[i]);
  }

  lemma {:induction false} SortedIsOrdered<T(!new)>(s: seq<T>, before: (T, T) -> bool)
    requires Ranks(before, s)
    ensures Ordered(Sorted(s, before), before)
    decreases |s|
  {
    if s != [] {
      var front, last := s[..|s| - 1], s[|s| - 1];
      SortedIsOrdered(front, before);
      SortedPermutes(front, before);
      assert forall y :: y in Sorted(front, before) + [last] ==> y in s;
      InsertKeepsOrder(last, Sorted(front, before), before);
    }
  }

  /** A ranked list has one sorted arrangement, whatever order it came in. */
  lemma {:induction false} OrderedIsUnique<T(!new)>(a: seq<T>, b: seq<T>, before: (T, T) -> bool)
    requires multiset(a) == multiset(b) && Ranks(before, a) && Ordered(a, before) && Ordered(b, before)
    ensures a == b
    decreases |a|
  {
    assert |a| == |multiset(a)| == |multiset(b)| == |b|;
    if a != [] {
      SameMembers(a, b);
      FirstsAgree(a, b, before);
      assert a == [a[0]] + a[1..] && b == [b[0]] + b[1..];
      assert multiset(a[1..]) == multiset(a) - multiset{a[0]};
      assert multiset(b[1..]) == multiset(b) - multiset{b[0]};
      OrderedIsUnique(a[1..], b[1..], before);
    }
  }

  lemma FirstsAgree<T(!new)>(a: seq<T>, b: seq<T>, before: (T, T) -> bool)
    requires a != [] && b != [] && (forall x :: x in a <==> x in b)
    requires Ranks(before, a) && Ordered(a, before) && Ordered(b, before)
    ensures a[0] == b[0]
  {
    assert a[0] in b && b[0] in a;
    var i :| 0 <= i < |a| && a[i] == b[0];
    var j :| 0 <= j < |b| && b[j] == a[0];
    assert i == 0 || !before(a[i], a[0]);
    assert j == 0 || !before(b[j], b[0]);
  }

  /** The list's order does not matter to the result of sorting by a ranking comparison. */
  lemma SortingForgetsOrder<T(!new)>(s: seq<T>, t: seq<T>, before: (T, T) -> bool)
    requires multiset(s) == multiset(t) && Ranks(before, s)
    ensures Sorted(s, before) == Sorted(t, before)
  {
    SameMembers(s, t);
    assert Ranks(before, t);
    SortedPermutes(s, before);
    SortedPermutes(t, before);
    SortedIsOrdered(s, before);
    SortedIsOrdered(t, before);
    assert Ranks(before, Sorted(s, before));
    OrderedIsUnique(Sorted(s, before), Sorted(t, before), before);
  }

  /** One round of insertion sort: `a[n]` moves left past the elements it comes before. */
  method InsertInPlace<T>(a: array<T>, n: nat, before: (T, T) -> bool)
    requires n < a.Length
    modifies a
    ensures a[..n + 1] == Insert(old(a[n]), old(a[..n]), before)
    ensures a[n + 1..] == old(a[n + 1..])
  {
    ghost var s := a[..n];
    var x := a[n];
    var k := n;
    while k > 0 && before(x, a[k - 1])
      invariant 0 <= k <= n
      invariant a[..k] == s[..k]
      invariant Insert(x, s, before) == Insert(x, s[..k], before) + a[k + 1..n + 1]
      invariant a[n + 1..] == old(a[n + 1..])
    {
      assert s[..k][..k - 1] == s[..k - 1];
      assert a[k - 1] == s[..k][k - 1];
      a[k] := a[k - 1];
      assert a[k..n + 1] == [s[k - 1]] + a[k + 1..n + 1];
      k := k - 1;
    }
    a[k] := x;
    assert k > 0 ==> s[..k][k - 1] == a[k - 1];
    assert Insert(x, s[..k], before) == s[..k] + [x];
    assert a[..n + 1] == a[..k] + [x] + a[k + 1..n + 1];
  }

  method Sort<T>(a: array<T>, before: (T, T) -> bool)
    modifies a
    ensures a[..] == Sorted(old(a[..]), before)
  {
    ghost var s := a[..];
    var n := 0;
    while n < a.Length
      invariant 0 <= n <= a.Length
      invariant a[..n] == Sorted(s[..n], before)
      invariant a[n..] == s[n..]
    {
      assert a[n] == s[n];
      assert s[..n + 1][..n] == s[..n];
      ghost var rest := a[n + 1..];
      assert rest == s[n + 1..];
      InsertInPlace(a, n, before);
      n := n + 1;
    }
    assert s[..n] == s && a[..n] == a[..];
  }
}
