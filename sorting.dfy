/**
 * The stable sort of Array.prototype.sort / Array.sort with a comparator,
 * given as a strict "comes before" relation, and Array.slice(0, n).
 */
module Sorting {
  import opened Seqs

  /** `lt` is a strict weak order: asymmetric, and "not before" is transitive. */
  ghost predicate StrictWeak<T(!new)>(lt: (T, T) -> bool)
  {
    (forall a, b :: lt(a, b) ==> !lt(b, a))
    && (forall a, b, c :: !lt(b, a) && !lt(c, b) ==> !lt(c, a))
  }

  /** No element comes strictly before one placed ahead of it. */
  ghost predicate SortedBy<T>(s: seq<T>, lt: (T, T) -> bool)
  {
    forall i, j :: 0 <= i < j < |s| ==> !lt(s[j], s[i])
  }

  /** Inserts `x` ahead of the first element that does not come strictly
      before it, so that equal elements keep their relative order. */
  function Insert<T>(x: T, l: seq<T>, lt: (T, T) -> bool): (r: seq<T>)
    ensures |r| == |l| + 1
    ensures multiset(r) == multiset(l) + multiset{x}
  {
    if l == [] || !lt(l[0], x) then [x] + l
    else
      assert l == [l[0]] + l[1..];
      [l[0]] + Insert(x, l[1..], lt)
  }

  /** Stable sort: the permutation of `s` that a stable sort with comparator `lt` yields. */
  function SortWith<T>(s: seq<T>, lt: (T, T) -> bool): (r: seq<T>)
    ensures |r| == |s|
    ensures multiset(r) == multiset(s)
  {
    if s == [] then []
    else
      assert s == [s[0]] + s[1..];
      Insert(s[0], SortWith(s[1..], lt), lt)
  }

  lemma {:induction false} InsertSorted<T(!new)>(x: T, l: seq<T>, lt: (T, T) -> bool)
    requires StrictWeak(lt)
    requires SortedBy(l, lt)
    ensures SortedBy(Insert(x, l, lt), lt)
    decreases |l|
  {
    if l != [] && lt(l[0], x) {
      SortedDropFirst(l, lt);
      InsertSorted(x, l[1..], lt);
      InsertAfterHead(x, l, lt);
    } else if l != [] {
      InsertAtHead(x, l, lt);
    }
  }

  /** Dropping the first element keeps a list sorted. */
  lemma SortedDropFirst<T>(l: seq<T>, lt: (T, T) -> bool)
    requires l != [] && SortedBy(l, lt)
    ensures SortedBy(l[1..], lt)
  {
    var tail := l[1..];
    forall i, j | 0 <= i < j < |tail| ensures !lt(tail[j], tail[i]) {
      assert tail[j] == l[j + 1] && tail[i] == l[i + 1];
    }
  }

  /** Inserting past the head: the head stays first, ahead of the sorted rest. */
  lemma InsertAfterHead<T(!new)>(x: T, l: seq<T>, lt: (T, T) -> bool)
    requires StrictWeak(lt) && SortedBy(l, lt)
    requires l != [] && lt(l[0], x) && SortedBy(Insert(x, l[1..], lt), lt)
    ensures SortedBy(Insert(x, l, lt), lt)
  {
    var tail := Insert(x, l[1..], lt);
    var r := [l[0]] + tail;
    assert Insert(x, l, lt) == r;
    HeadAheadOfInsert(x, l, lt);
    forall i, j | 0 <= i < j < |r| ensures !lt(r[j], r[i]) {
      assert r[j] == tail[j - 1];
      if i > 0 {
        assert r[i] == tail[i - 1];
      } else {
        assert r[j] in tail;
      }
    }
  }

  /** Nothing inserted into the rest comes before the head. */
  lemma HeadAheadOfInsert<T(!new)>(x: T, l: seq<T>, lt: (T, T) -> bool)
    requires StrictWeak(lt) && SortedBy(l, lt)
    requires l != [] && lt(l[0], x)
    ensures forall y :: y in Insert(x, l[1..], lt) ==> !lt(y, l[0])
  {
    var tail := Insert(x, l[1..], lt);
    forall y | y in tail ensures !lt(y, l[0]) {
      assert y in multiset(tail);
      assert y in multiset(l[1..]) + multiset{x};
      if y != x {
        assert y in l[1..];
        var k :| 0 <= k < |l[1..]| && l[1..][k] == y;
        assert l[k + 1] == y;
      }
    }
  }

  /** Inserting at the head, before an element it does not come after. */
  lemma InsertAtHead<T(!new)>(x: T, l: seq<T>, lt: (T, T) -> bool)
    requires StrictWeak(lt) && SortedBy(l, lt)
    requires l != [] && !lt(l[0], x)
    ensures SortedBy(Insert(x, l, lt), lt)
  {
    var r := [x] + l;
    assert Insert(x, l, lt) == r;
    forall i, j | 0 <= i < j < |r| ensures !lt(r[j], r[i]) {
      assert r[j] == l[j - 1];
      if i > 0 {
        assert r[i] == l[i - 1];
      } else {
        assert !lt(l[j - 1], l[0]);
      }
    }
  }

  /** The result of SortWith is sorted by `lt`. */
  lemma {:induction false} SortWithSorted<T(!new)>(s: seq<T>, lt: (T, T) -> bool)
    requires StrictWeak(lt)
    ensures SortedBy(SortWith(s, lt), lt)
  {
    if s != [] {
      SortWithSorted(s[1..], lt);
      InsertSorted(s[0], SortWith(s[1..], lt), lt);
    }
  }

  /** The sort is stable: a list that is already in order comes back unchanged. */
  lemma {:induction false} SortWithOfSorted<T>(s: seq<T>, lt: (T, T) -> bool)
    requires SortedBy(s, lt)
    ensures SortWith(s, lt) == s
  {
    if s != [] {
      assert SortedBy(s[1..], lt) by {
        forall i, j | 0 <= i < j < |s[1..]| ensures !lt(s[1..][j], s[1..][i]) {
          assert s[1..][j] == s[j + 1] && s[1..][i] == s[i + 1];
        }
      }
      SortWithOfSorted(s[1..], lt);
      if |s| > 1 {
        assert !lt(s[1], s[0]);
      }
      assert [s[0]] + s[1..] == s;
    }
  }

  /** Insert consults the comparator only on the list's elements against `x`. */
  lemma {:induction false} InsertCongruent<T>(x: T, l: seq<T>, lt1: (T, T) -> bool, lt2: (T, T) -> bool)
    requires forall b :: b in l ==> lt1(b, x) == lt2(b, x)
    ensures Insert(x, l, lt1) == Insert(x, l, lt2)
    decreases |l|
  {
    if l != [] {
      assert l[0] in l;
      assert forall b :: b in l[1..] ==> b in l;
      InsertCongruent(x, l[1..], lt1, lt2);
    }
  }

  /** Two comparators that agree on the list's elements sort it alike. */
  lemma {:induction false} SortWithCongruent<T>(s: seq<T>, lt1: (T, T) -> bool, lt2: (T, T) -> bool)
    requires forall a, b :: a in s && b in s ==> lt1(a, b) == lt2(a, b)
    ensures SortWith(s, lt1) == SortWith(s, lt2)
    decreases |s|
  {
    if s != [] {
      var rest := s[1..];
      assert forall b :: b in rest ==> b in s;
      SortWithCongruent(rest, lt1, lt2);
      var t := SortWith(rest, lt1);
      forall b | b in t ensures lt1(b, s[0]) == lt2(b, s[0]) {
        assert b in multiset(rest);
      }
      InsertCongruent(s[0], t, lt1, lt2);
    }
  }

  /** Filtering a sorted list keeps it sorted. */
  lemma {:induction false} FilterSorted<T>(s: seq<T>, lt: (T, T) -> bool, p: T -> bool)
    requires SortedBy(s, lt)
    ensures SortedBy(Filter(s, p), lt)
    decreases |s|
  {
    if s != [] {
      var init := s[..|s| - 1];
      var x := s[|s| - 1];
      assert s == init + [x];
      SortedDropLast(s, lt);
      FilterSorted(init, lt, p);
      FilterSnoc(init, x, p);
      if p(x) {
        SortedKeptThenLast(s, lt, p);
      }
    }
  }

  /** Dropping the last element keeps a list sorted. */
  lemma SortedDropLast<T>(s: seq<T>, lt: (T, T) -> bool)
    requires s != [] && SortedBy(s, lt)
    ensures SortedBy(s[..|s| - 1], lt)
  {
    var init := s[..|s| - 1];
    forall i, j | 0 <= i < j < |init| ensures !lt(init[j], init[i]) {
      assert init[j] == s[j] && init[i] == s[i];
    }
  }

  /** The kept elements of a sorted list, then its last element, are in order. */
  lemma SortedKeptThenLast<T>(s: seq<T>, lt: (T, T) -> bool, p: T -> bool)
    requires s != [] && SortedBy(s, lt) && SortedBy(Filter(s[..|s| - 1], p), lt)
    ensures SortedBy(Filter(s[..|s| - 1], p) + [s[|s| - 1]], lt)
  {
    var init := s[..|s| - 1];
    var x := s[|s| - 1];
    var f := Filter(init, p);
    var r := f + [x];
    forall i, j | 0 <= i < j < |r| ensures !lt(r[j], r[i]) {
      if j == |f| {
        assert r[i] in init;
        var t :| 0 <= t < |init| && init[t] == r[i];
        assert s[t] == r[i] && s[|s| - 1] == x;
      } else {
        assert r[j] == f[j] && r[i] == f[i];
      }
    }
  }

  /** Array.slice(0, n). */
  function Take<T>(s: seq<T>, n: nat): (r: seq<T>)
    ensures |r| == if |s| < n then |s| else n
    ensures r == s[..|r|]
  {
    if |s| <= n then s else s[..n]
  }

  /** Keeping the first n of a sorted list keeps elements that nothing left
      out comes strictly before. */
  lemma TopIsMaximal<T(!new)>(s: seq<T>, lt: (T, T) -> bool, n: nat, x: T, y: T)
    requires StrictWeak(lt)
    requires x in Take(SortWith(s, lt), n) && y in s && y !in Take(SortWith(s, lt), n)
    ensures !lt(y, x)
  {
    var sorted := SortWith(s, lt);
    var top := Take(sorted, n);
    SortWithSorted(s, lt);
    var i :| 0 <= i < |top| && top[i] == x;
    assert y in multiset(sorted);
    var j :| 0 <= j < |sorted| && sorted[j] == y;
    assert forall t :: 0 <= t < |top| ==> top[t] == sorted[t];
    assert j >= |top|;
  }

  /** An element left out of the first n means the first n are all there:
      a shorter list would have been kept whole. */
  lemma TakeMissesFull<T>(s: seq<T>, n: nat, y: T)
    requires y in s && y !in Take(s, n)
    ensures |Take(s, n)| == n < |s|
  {
  }

  /** The first n keep each of their positions. */
  lemma TakeKeeps<T>(s: seq<T>, n: nat, k: nat)
    requires k < n && k < |s|
    ensures k < |Take(s, n)| && Take(s, n)[k] == s[k]
  {
  }

  /** The first n of a sorted selection are elements the selection keeps. */
  lemma TopOfFilterKept<T>(s: seq<T>, p: T -> bool, lt: (T, T) -> bool, n: nat)
    ensures var u := Take(SortWith(Filter(s, p), lt), n);
            forall k :: 0 <= k < |u| ==> u[k] in s && p(u[k])
  {
    var pool := Filter(s, p);
    var sorted := SortWith(pool, lt);
    var u := Take(sorted, n);
    forall k | 0 <= k < |u| ensures u[k] in s && p(u[k]) {
      assert u[k] == sorted[k];
      assert sorted[k] in multiset(pool);
    }
  }

  /** The first n of a sorted list are sorted. */
  lemma TopSorted<T(!new)>(s: seq<T>, lt: (T, T) -> bool, n: nat)
    requires StrictWeak(lt)
    ensures SortedBy(Take(SortWith(s, lt), n), lt)
  {
    SortWithSorted(s, lt);
  }
}
