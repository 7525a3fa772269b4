/**
  * `Array.prototype.sort` with a comparator: a stable insertion sort by a
  * total preorder `leq`, proved ordered, a permutation of its input and
  * stable.
  */
module StableSort {

  /** `leq` compares any two elements and is transitive, as a consistent comparator is. */
  ghost predicate TotalPreorder<T(!new)>(leq: (T, T) -> bool) {
    (forall a, b :: leq(a, b) || leq(b, a)) &&
    (forall a, b, c :: leq(a, b) && leq(b, c) ==> leq(a, c))
  }

  ghost predicate SortedBy<T>(s: seq<T>, leq: (T, T) -> bool) {
    forall i, j :: 0 <= i < j < |s| ==> leq(s[i], s[j])
  }

  /** In a sorted sequence every element before position `k` is at most every element from `k` on. */
  lemma SortedSplit<T>(s: seq<T>, k: nat, leq: (T, T) -> bool)
    requires SortedBy(s, leq) && k <= |s|
    ensures forall p, q :: p in s[..k] && q in s[k..] ==> leq(p, q)
  {
    forall p, q | p in s[..k] && q in s[k..]
      ensures leq(p, q)
    {
      var i :| 0 <= i < k && s[..k][i] == p;
      var j :| 0 <= j < |s| - k && s[k..][j] == q;
      assert s[i] == p && s[k + j] == q;
    }
  }

  /** Places `x` after every element that is at most `x`. */
  function Insert<T>(s: seq<T>, x: T, leq: (T, T) -> bool): seq<T>
  {
    if s == [] then [x]
    else if leq(s[|s| - 1], x) then s + [x]
    else Insert(s[..|s| - 1], x, leq) + [s[|s| - 1]]
  }

  lemma {:induction false} InsertPermutes<T>(s: seq<T>, x: T, leq: (T, T) -> bool)
    ensures multiset(Insert(s, x, leq)) == multiset(s) + multiset{x}
  {
    if s != [] && !leq(s[|s| - 1], x) {
      InsertPermutes(s[..|s| - 1], x, leq);
      assert s == s[..|s| - 1] + [s[|s| - 1]];
    }
  }

  lemma {:induction false} InsertOrdered<T(!new)>(s: seq<T>, x: T, leq: (T, T) -> bool)
    requires TotalPreorder(leq) && SortedBy(s, leq)
    ensures SortedBy(Insert(s, x, leq), leq)
  {
    if s == [] {
    } else if leq(s[|s| - 1], x) {
      var r := s + [x];
      forall i, j | 0 <= i < j < |r|
        ensures leq(r[i], r[j])
      {
        if j == |r| - 1 && i < |s| - 1 {
          assert leq(s[i], s[|s| - 1]);
        }
      }
    } else {
      var front, last := s[..|s| - 1], s[|s| - 1];
      assert s == front + [last];
      InsertOrdered(front, x, leq);
      InsertPermutes(front, x, leq);
      var inner := Insert(front, x, leq);
      forall y | y in inner
        ensures leq(y, last)
      {
        assert y in multiset(inner);
        if y != x {
          assert y in multiset(front);
          assert y in front;
        }
      }
      var r := inner + [last];
      forall i, j | 0 <= i < j < |r|
        ensures leq(r[i], r[j])
      {
        if j == |r| - 1 {
          assert r[i] in inner;
        } else {
          assert r[i] == inner[i] && r[j] == inner[j];
        }
      }
    }
  }

  /** `[...s].sort(compare)`: the input sequence itself is never changed. */
  function SortBy<T>(s: seq<T>, leq: (T, T) -> bool): seq<T>
  {
    if s == [] then [] else Insert(SortBy(s[..|s| - 1], leq), s[|s| - 1], leq)
  }

  /** The sorted copy holds exactly the input's elements. */
  lemma {:induction false} SortByPermutes<T>(s: seq<T>, leq: (T, T) -> bool)
    ensures multiset(SortBy(s, leq)) == multiset(s)
  {
    if s != [] {
      var front, last := s[..|s| - 1], s[|s| - 1];
      SortByPermutes(front, leq);
      InsertPermutes(SortBy(front, leq), last, leq);
      assert s == front + [last];
    }
  }

  /** The sorted copy is ordered by the comparator. */
  lemma {:induction false} SortByOrdered<T(!new)>(s: seq<T>, leq: (T, T) -> bool)
    requires TotalPreorder(leq)
    ensures SortedBy(SortBy(s, leq), leq)
  {
    if s != [] {
      var front := s[..|s| - 1];
      SortByOrdered(front, leq);
      InsertOrdered(SortBy(front, leq), s[|s| - 1], leq);
    }
  }

  /** The elements of `s` the comparator ties with `e`, in their order in `s`. */
  function Ties<T>(s: seq<T>, e: T, leq: (T, T) -> bool): seq<T>
  {
    if s == [] then []
    else if leq(s[|s| - 1], e) && leq(e, s[|s| - 1]) then Ties(s[..|s| - 1], e, leq) + [s[|s| - 1]]
    else Ties(s[..|s| - 1], e, leq)
  }

  /** Inserting `x` leaves the elements tied with any `e` in the order of appending `x`. */
  lemma {:induction false} InsertKeepsTies<T(!new)>(s: seq<T>, x: T, e: T, leq: (T, T) -> bool)
    requires TotalPreorder(leq)
    ensures Ties(Insert(s, x, leq), e, leq) == Ties(s + [x], e, leq)
  {
    if s == [] {
      assert [] + [x] == [x];
    } else if leq(s[|s| - 1], x) {
    } else {
      var front, last := s[..|s| - 1], s[|s| - 1];
      InsertKeepsTies(front, x, e, leq);
      var r := Insert(front, x, leq);
      assert (r + [last])[..|r + [last]| - 1] == r;
      assert (s + [x])[..|s|] == s;
      assert (front + [x])[..|front|] == front;
      if leq(x, e) && leq(e, x) {
        assert !(leq(last, e) && leq(e, last));
      }
    }
  }

  /** The sort is stable: elements the comparator ties keep their input order. */
  lemma {:induction false} SortByStable<T(!new)>(s: seq<T>, e: T, leq: (T, T) -> bool)
    requires TotalPreorder(leq)
    ensures Ties(SortBy(s, leq), e, leq) == Ties(s, e, leq)
  {
    if s != [] {
      var front, last := s[..|s| - 1], s[|s| - 1];
      SortByStable(front, e, leq);
      InsertKeepsTies(SortBy(front, leq), last, e, leq);
      var t := SortBy(front, leq);
      assert (t + [last])[..|t|] == t;
      assert s == front + [last];
    }
  }

  /** Sorting keeps the length. */
  lemma SortByLength<T>(s: seq<T>, leq: (T, T) -> bool)
    ensures |SortBy(s, leq)| == |s|
  {
    SortByPermutes(s, leq);
    assert |multiset(SortBy(s, leq))| == |multiset(s)|;
  }
}
