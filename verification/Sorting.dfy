/** Stable sorting by a total preorder: the sort that the standard library promises. */
module Sorting {

  ghost predicate TotalPreorder<T(!new)>(le: (T, T) -> bool) {
    && (forall a, b :: le(a, b) || le(b, a))
    && (forall a, b, c :: le(a, b) && le(b, c) ==> le(a, c))
  }

  ghost predicate Sorted<T>(le: (T, T) -> bool, s: seq<T>) {
    forall i, j | 0 <= i < j < |s| :: le(s[i], s[j])
  }

  /** Puts `x` after everything that is not above it. */
  function Insert<T>(le: (T, T) -> bool, s: seq<T>, x: T): seq<T> {
    if s == [] || le(s[|s| - 1], x) then s + [x]
    else Insert(le, s[..|s| - 1], x) + [s[|s| - 1]]
  }

  function StableSort<T>(le: (T, T) -> bool, s: seq<T>): seq<T> {
    if s == [] then [] else Insert(le, StableSort(le, s[..|s| - 1]), s[|s| - 1])
  }

  /** The elements that are tied with `k`, in order. */
  function Ties<T>(le: (T, T) -> bool, s: seq<T>, k: T): seq<T> {
    if s == [] then []
    else Ties(le, s[..|s| - 1], k) + if le(s[|s| - 1], k) && le(k, s[|s| - 1]) then [s[|s| - 1]] else []
  }

  ghost predicate SameTies<T(!new)>(le: (T, T) -> bool, a: seq<T>, b: seq<T>) {
    forall k :: Ties(le, a, k) == Ties(le, b, k)
  }

  lemma {:induction false} InsertPermutes<T(!new)>(le: (T, T) -> bool, s: seq<T>, x: T)
    ensures multiset(Insert(le, s, x)) == multiset(s) + multiset{x} && |Insert(le, s, x)| == |s| + 1
  {
    if s != [] && !le(s[|s| - 1], x) {
      var front, last := s[..|s| - 1], s[|s| - 1];
      InsertPermutes(le, front, x);
      assert s == front + [last];
    }
  }

  lemma {:induction false} InsertSorts<T(!new)>(le: (T, T) -> bool, s: seq<T>, x: T)
    requires TotalPreorder(le) && Sorted(le, s)
    ensures Sorted(le, Insert(le, s, x))
  {
    if s != [] && !le(s[|s| - 1], x) {
      var front, last := s[..|s| - 1], s[|s| - 1];
      InsertSorts(le, front, x);
      InsertPermutes(le, front, x);
      var r := Insert(le, front, x);
      forall i | 0 <= i < |r| ensures le(r[i], last) {
        assert r[i] in multiset(r);
        assert r[i] in multiset(front) || r[i] == x;
      }
    }
  }

  lemma {:induction false} InsertTies<T(!new)>(le: (T, T) -> bool, s: seq<T>, x: T, k: T)
    requires TotalPreorder(le) && Sorted(le, s)
    ensures Ties(le, Insert(le, s, x), k) == Ties(le, s + [x], k)
  {
    if s != [] && !le(s[|s| - 1], x) {
      hide Ties;
      var front, last := s[..|s| - 1], s[|s| - 1];
      InsertTies(le, front, x, k);
      var r := Insert(le, front, x);
      assert s == front + [last];
      TiesSnoc(le, r, last, k);
      TiesSnoc(le, front, x, k);
      TiesSnoc(le, front, last, k);
      TiesSnoc(le, s, x, k);
    }
  }

  lemma TiesSnoc<T(!new)>(le: (T, T) -> bool, s: seq<T>, x: T, k: T)
    ensures Ties(le, s + [x], k) == Ties(le, s, k) + if le(x, k) && le(k, x) then [x] else []
  {
    assert (s + [x])[..|s|] == s;
  }

  /** A permutation in order, with ties in their original order. */
  lemma {:induction false} SortIs<T(!new)>(le: (T, T) -> bool, s: seq<T>)
    requires TotalPreorder(le)
    ensures var r := StableSort(le, s);
            Sorted(le, r) && multiset(r) == multiset(s) && |r| == |s| && SameTies(le, r, s)
  {
    hide Insert;
    if s != [] {
      var front, last := s[..|s| - 1], s[|s| - 1];
      SortIs(le, front);
      var r := StableSort(le, front);
      InsertSorts(le, r, last);
      InsertPermutes(le, r, last);
      assert s == front + [last];
      forall k ensures Ties(le, Insert(le, r, last), k) == Ties(le, s, k) {
        InsertTies(le, r, last, k);
        assert (r + [last])[..|r|] == r;
        assert Ties(le, r, k) == Ties(le, front, k);
      }
    }
  }

  lemma {:induction false} TiesOfTop<T(!new)>(le: (T, T) -> bool, s: seq<T>, k: T)
    requires TotalPreorder(le) && Sorted(le, s)
    ensures Ties(le, s, k) == []
        || (exists i :: 0 <= i < |s| && s[i] == Ties(le, s, k)[|Ties(le, s, k)| - 1] && le(s[i], k) && le(k, s[i]))
  {
    if s != [] {
      TiesOfTop(le, s[..|s| - 1], k);
    }
  }

  /** Any two sorted arrangements with the same ties are the same: the result of a stable sort
      does not depend on the algorithm. */
  lemma {:induction false} StableUnique<T(!new)>(le: (T, T) -> bool, a: seq<T>, b: seq<T>)
    requires TotalPreorder(le) && Sorted(le, a) && Sorted(le, b) && SameTies(le, a, b)
    ensures a == b
    decreases |a| + |b|
  {
    if a == [] && b == [] {
    } else if b == [] || (a != [] && le(b[|b| - 1], a[|a| - 1])) {
      SameTop(le, a, b);
      StableUnique(le, a[..|a| - 1], b[..|b| - 1]);
      assert a == a[..|a| - 1] + [a[|a| - 1]];
    } else {
      SameTop(le, b, a);
      assert false;
    }
  }

  lemma SuffixCancel<T>(a: seq<T>, b: seq<T>, c: seq<T>)
    requires a + c == b + c
    ensures a == b
  {
    assert |a| == |b|;
    assert a == (a + c)[..|a|] && b == (b + c)[..|b|];
  }

  /** The top of the higher arrangement is the top of the other one too. */
  lemma SameTop<T(!new)>(le: (T, T) -> bool, a: seq<T>, b: seq<T>)
    requires TotalPreorder(le) && Sorted(le, a) && Sorted(le, b) && SameTies(le, a, b)
    requires a != [] && (b != [] ==> le(b[|b| - 1], a[|a| - 1]))
    ensures b != [] && a[|a| - 1] == b[|b| - 1] && SameTies(le, a[..|a| - 1], b[..|b| - 1])
  {
    var k := a[|a| - 1];
    assert Ties(le, a, k) == Ties(le, a[..|a| - 1], k) + [k];
    assert Ties(le, b, k) == Ties(le, a, k);
    TiesOfTop(le, b, k);
    var i :| 0 <= i < |b| && le(b[i], k) && le(k, b[i]);
    var top := b[|b| - 1];
    assert le(b[i], top);
    assert Ties(le, b, k) == Ties(le, b[..|b| - 1], k) + [top];
    var fa, fb := a[..|a| - 1], b[..|b| - 1];
    forall x ensures Ties(le, fa, x) == Ties(le, fb, x) {
      var tie := if le(k, x) && le(x, k) then [k] else [];
      assert Ties(le, a, x) == Ties(le, fa, x) + tie && Ties(le, b, x) == Ties(le, fb, x) + tie;
      assert Ties(le, a, x) == Ties(le, b, x);
      SuffixCancel(Ties(le, fa, x), Ties(le, fb, x), tie);
    }
  }

  /** An element that nothing is above, coming last, stays last. */
  lemma LastStaysLast<T(!new)>(le: (T, T) -> bool, s: seq<T>)
    requires TotalPreorder(le) && s != [] && forall i | 0 <= i < |s| :: le(s[i], s[|s| - 1])
    ensures var r := StableSort(le, s);
            r != [] && r[|r| - 1] == s[|s| - 1] && r[..|r| - 1] == StableSort(le, s[..|s| - 1])
  {
    var front := s[..|s| - 1];
    SortIs(le, front);
    var r := StableSort(le, front);
    if r != [] {
      assert r[|r| - 1] in multiset(front);
    }
  }

  // ---------------------------------------------------------------- orders without ties

  lemma LastIsSame<T(!new)>(le: (T, T) -> bool, s: seq<T>, t: seq<T>)
    requires forall a, b :: le(a, b) && le(b, a) ==> a == b
    requires s != [] && multiset(s) == multiset(t) && Sorted(le, s) && Sorted(le, t)
    ensures |s| == |t| && s[|s| - 1] == t[|t| - 1]
  {
    assert |s| == |multiset(s)| == |multiset(t)| == |t|;
    var n := |s| - 1;
    assert s[n] in multiset(t) && t[n] in multiset(s);
    var i :| 0 <= i <= n && t[i] == s[n];
    var j :| 0 <= j <= n && s[j] == t[n];
    assert i < n ==> le(t[i], t[n]);
    assert j < n ==> le(s[j], s[n]);
  }

  /** Where only equal elements are tied, two ordered arrangements of the same elements are the same. */
  lemma {:induction false} SortedOnce<T(!new)>(le: (T, T) -> bool, s: seq<T>, t: seq<T>)
    requires forall a, b :: le(a, b) && le(b, a) ==> a == b
    requires multiset(s) == multiset(t) && Sorted(le, s) && Sorted(le, t)
    ensures s == t
    decreases |s|
  {
    if s == [] {
      assert |t| == |multiset(t)| == 0;
    } else {
      LastIsSame(le, s, t);
      var n := |s| - 1;
      WithoutLast(s);
      WithoutLast(t);
      SortedOnce(le, s[..n], t[..n]);
      assert s == s[..n] + [s[n]] && t == t[..n] + [t[n]];
    }
  }

  lemma WithoutLast<T>(s: seq<T>)
    requires s != []
    ensures multiset(s[..|s| - 1]) == multiset(s) - multiset{s[|s| - 1]}
  {
    assert s == s[..|s| - 1] + [s[|s| - 1]];
  }
}
