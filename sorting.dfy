/** A stable sort in descending order of a rational rank: Python's
    `list.sort(key=…, reverse=True)` and JavaScript's `Array.prototype.sort` with a
    comparator `b - a` (both stable). Ascending sorts use the negated rank. */
module Sorting {
  predicate SortedDesc<T>(s: seq<T>, rank: T -> real)
  {
    forall i, j :: 0 <= i < j < |s| ==> rank(s[i]) >= rank(s[j])
  }

  /** The elements of `s` whose rank is `k`, in order. */
  function WithRank<T>(s: seq<T>, rank: T -> real, k: real): (r: seq<T>)
    ensures |r| <= |s|
  {
    if |s| == 0 then []
    else WithRank(s[..|s| - 1], rank, k) + (if rank(s[|s| - 1]) == k then [s[|s| - 1]] else [])
  }

  lemma {:induction false} WithRankAppend<T>(a: seq<T>, b: seq<T>, rank: T -> real, k: real)
    ensures WithRank(a + b, rank, k) == WithRank(a, rank, k) + WithRank(b, rank, k)
    decreases |b|
  {
    if |b| == 0 {
      assert a + b == a;
    } else {
      var b' := b[..|b| - 1];
      assert (a + b)[..|a + b| - 1] == a + b';
      WithRankAppend(a, b', rank, k);
    }
  }

  lemma {:induction false} WithRankNone<T>(s: seq<T>, rank: T -> real, k: real)
    requires forall i :: 0 <= i < |s| ==> rank(s[i]) != k
    ensures WithRank(s, rank, k) == []
    decreases |s|
  {
    if |s| > 0 { WithRankNone(s[..|s| - 1], rank, k); }
  }

  lemma PrependSorted<T>(a: T, t: seq<T>, rank: T -> real)
    requires SortedDesc(t, rank)
    requires forall y :: y in t ==> rank(a) >= rank(y)
    ensures SortedDesc([a] + t, rank)
  {
    var r := [a] + t;
    forall i, j | 0 <= i < j < |r| ensures rank(r[i]) >= rank(r[j]) {
      if i == 0 {
        assert r[j] == t[j - 1];
        assert r[j] in t;
      } else {
        assert r[i] == t[i - 1] && r[j] == t[j - 1];
      }
    }
  }

  /** Places `x` after every element ranked at least as high as it. */
  function Insert<T>(x: T, s: seq<T>, rank: T -> real): (r: seq<T>)
    ensures |r| == |s| + 1
    decreases |s|
  {
    if |s| == 0 then [x]
    else if rank(s[0]) >= rank(x) then [s[0]] + Insert(x, s[1..], rank)
    else [x] + s
  }

  lemma {:induction false} InsertPermutes<T>(x: T, s: seq<T>, rank: T -> real)
    ensures multiset(Insert(x, s, rank)) == multiset(s) + multiset{x}
    decreases |s|
  {
    if |s| > 0 && rank(s[0]) >= rank(x) {
      InsertPermutes(x, s[1..], rank);
      assert s == [s[0]] + s[1..];
    }
  }

  lemma {:induction false} InsertSorted<T>(x: T, s: seq<T>, rank: T -> real)
    requires SortedDesc(s, rank)
    ensures SortedDesc(Insert(x, s, rank), rank)
    decreases |s|
  {
    if |s| == 0 {
    } else if rank(s[0]) >= rank(x) {
      var t := Insert(x, s[1..], rank);
      InsertSorted(x, s[1..], rank);
      InsertPermutes(x, s[1..], rank);
      forall y | y in t ensures rank(s[0]) >= rank(y) {
        assert y in multiset(t);
        if y != x {
          assert y in multiset(s[1..]);
          var j :| 0 <= j < |s[1..]| && s[1..][j] == y;
          assert s[j + 1] == y;
        }
      }
      PrependSorted(s[0], t, rank);
    } else {
      forall y | y in s ensures rank(x) >= rank(y) {
        var j :| 0 <= j < |s| && s[j] == y;
      }
      PrependSorted(x, s, rank);
    }
  }

  lemma WithRankSingle<T>(x: T, rank: T -> real, k: real)
    ensures WithRank([x], rank, k) == if rank(x) == k then [x] else []
  {
    assert [x][..0] == [];
  }

  lemma InsertInFront<T>(x: T, s: seq<T>, rank: T -> real, k: real)
    requires SortedDesc(s, rank) && |s| > 0 && rank(s[0]) < rank(x)
    ensures WithRank([x] + s, rank, k) == WithRank(s, rank, k) + (if rank(x) == k then [x] else [])
  {
    WithRankSingle(x, rank, k);
    WithRankAppend([x], s, rank, k);
    if rank(x) == k {
      forall i | 0 <= i < |s| ensures rank(s[i]) != k {
        if i > 0 { assert rank(s[0]) >= rank(s[i]); }
      }
      WithRankNone(s, rank, k);
    }
  }

  lemma ConsWithRank<T>(a: T, u: seq<T>, v: seq<T>, tail: seq<T>, rank: T -> real, k: real)
    requires WithRank(u, rank, k) == WithRank(v, rank, k) + tail
    ensures WithRank([a] + u, rank, k) == WithRank([a] + v, rank, k) + tail
  {
    WithRankAppend([a], u, rank, k);
    WithRankAppend([a], v, rank, k);
  }

  /** Inserting keeps every rank class in order, with `x` last in its class. */
  lemma {:induction false} InsertStable<T>(x: T, s: seq<T>, rank: T -> real, k: real)
    requires SortedDesc(s, rank)
    ensures WithRank(Insert(x, s, rank), rank, k)
         == WithRank(s, rank, k) + (if rank(x) == k then [x] else [])
    decreases |s|
  {
    var r := Insert(x, s, rank);
    var tail := if rank(x) == k then [x] else [];
    if |s| == 0 {
      WithRankSingle(x, rank, k);
    } else if rank(s[0]) >= rank(x) {
      var t := Insert(x, s[1..], rank);
      assert r == [s[0]] + t;
      InsertStable(x, s[1..], rank, k);
      assert s == [s[0]] + s[1..];
      ConsWithRank(s[0], t, s[1..], tail, rank, k);
    } else {
      assert r == [x] + s;
      InsertInFront(x, s, rank, k);
    }
  }

  /** Insertion sort, taking the input from left to right. */
  function SortDesc<T>(s: seq<T>, rank: T -> real): (r: seq<T>)
    ensures SortedDesc(r, rank)
    ensures multiset(r) == multiset(s)
    ensures |r| == |s|
    decreases |s|
  {
    if |s| == 0 then []
    else
      var init, last := s[..|s| - 1], s[|s| - 1];
      var t := SortDesc(init, rank);
      InsertSorted(last, t, rank);
      InsertPermutes(last, t, rank);
      assert s == init + [last];
      assert multiset(s) == multiset(init) + multiset{last};
      Insert(last, t, rank)
  }

  /** Stability: elements of equal rank keep their input order. */
  lemma {:induction false} SortDescStable<T>(s: seq<T>, rank: T -> real, k: real)
    ensures WithRank(SortDesc(s, rank), rank, k) == WithRank(s, rank, k)
    decreases |s|
  {
    if |s| > 0 {
      var init := s[..|s| - 1];
      SortDescStable(init, rank, k);
      InsertStable(s[|s| - 1], SortDesc(init, rank), rank, k);
    }
  }

  /** A list already in order is left as it is. */
  lemma {:induction false} SortDescOfSorted<T>(s: seq<T>, rank: T -> real)
    requires SortedDesc(s, rank)
    ensures SortDesc(s, rank) == s
    decreases |s|
  {
    if |s| > 0 {
      var init := s[..|s| - 1];
      assert SortedDesc(init, rank);
      SortDescOfSorted(init, rank);
      InsertAtEnd(s[|s| - 1], init, rank);
      assert init + [s[|s| - 1]] == s;
    }
  }

  lemma {:induction false} InsertAtEnd<T>(x: T, s: seq<T>, rank: T -> real)
    requires SortedDesc(s, rank)
    requires forall i :: 0 <= i < |s| ==> rank(s[i]) >= rank(x)
    ensures Insert(x, s, rank) == s + [x]
    decreases |s|
  {
    if |s| > 0 {
      InsertAtEnd(x, s[1..], rank);
      assert s == [s[0]] + s[1..];
    }
  }
}
