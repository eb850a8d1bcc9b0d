/** Sequence helpers shared by the models: fixed-size batching, first-occurrence
    de-duplication, flattening and summing. */
module Seqs {
  function Flatten<T>(ss: seq<seq<T>>): (r: seq<T>)
    ensures |ss| == 0 ==> r == []
  {
    if |ss| == 0 then [] else ss[0] + Flatten(ss[1..])
  }

  lemma {:induction false} FlattenAppend<T>(a: seq<seq<T>>, b: seq<seq<T>>)
    ensures Flatten(a + b) == Flatten(a) + Flatten(b)
    decreases |a|
  {
    if |a| == 0 {
      assert a + b == b;
    } else {
      assert (a + b)[1..] == a[1..] + b;
      FlattenAppend(a[1..], b);
    }
  }

  /** An element of one of the pieces is an element of the whole. */
  lemma {:induction false} FlattenMembers<T>(ss: seq<seq<T>>, i: nat, x: T)
    requires i < |ss| && x in ss[i]
    ensures x in Flatten(ss)
    decreases i
  {
    if i > 0 {
      FlattenMembers(ss[1..], i - 1, x);
    }
  }

  /** The elements of `s` that satisfy `p`, in order (`s.filter(p)`). */
  function Filter<T>(s: seq<T>, p: T -> bool): (r: seq<T>)
    ensures |r| <= |s|
  {
    if |s| == 0 then []
    else Filter(s[..|s| - 1], p) + (if p(s[|s| - 1]) then [s[|s| - 1]] else [])
  }

  lemma {:induction false} FilterMembers<T>(s: seq<T>, p: T -> bool, x: T)
    ensures x in Filter(s, p) <==> x in s && p(x)
  {
    if |s| > 0 {
      FilterMembers(s[..|s| - 1], p, x);
      assert s == s[..|s| - 1] + [s[|s| - 1]];
    }
  }

  /** `[s[i:i + n] for i in range(0, len(s), n)]` */
  function Batches<T>(s: seq<T>, n: nat): (r: seq<seq<T>>)
    requires n > 0
    ensures Flatten(r) == s
    ensures forall i :: 0 <= i < |r| ==> 0 < |r[i]| <= n
    ensures forall i :: 0 <= i < |r| - 1 ==> |r[i]| == n
    ensures |s| > 0 ==> (|r| - 1) * n < |s| <= |r| * n
    decreases |s|
  {
    if |s| == 0 then []
    else if |s| <= n then [s]
    else
      var rest := Batches(s[n..], n);
      var r := [s[..n]] + rest;
      assert (|rest| + 1) * n == |rest| * n + n;
      assert r[1..] == rest;
      assert s == s[..n] + s[n..];
      r
  }

  /** The key of a list that is de-duplicated on its own elements. */
  function Identity(s: string): string { s }

  /** `s.slice(0, n)`. */
  function Take<T>(s: seq<T>, n: nat): (r: seq<T>)
    ensures |r| == if |s| <= n then |s| else n
    ensures r == s[..|r|]
  {
    if |s| <= n then s else s[..n]
  }

  function Sum(s: seq<int>): (r: int)
    ensures (forall i :: 0 <= i < |s| ==> s[i] >= 0) ==> r >= 0
  {
    if |s| == 0 then 0 else Sum(s[..|s| - 1]) + s[|s| - 1]
  }

  /** `m[k] = v` for each item `(k, v)` in turn. */
  function Tally<K(==,!new), V>(m: map<K, V>, items: seq<(K, V)>): (r: map<K, V>)
    ensures forall k :: k in r <==> k in m || exists i :: 0 <= i < |items| && items[i].0 == k
  {
    if |items| == 0 then m
    else
      var init := items[..|items| - 1];
      assert forall i :: 0 <= i < |init| ==> init[i] == items[i];
      Tally(m, init)[items[|items| - 1].0 := items[|items| - 1].1]
  }

  /** The last item for a key wins; a key no item names keeps its old value. */
  lemma {:induction false} TallyLastWins<K(!new), V>(m: map<K, V>, items: seq<(K, V)>, k: K)
    ensures (forall i :: 0 <= i < |items| ==> items[i].0 != k) ==> k in m ==> Tally(m, items)[k] == m[k]
    ensures forall j :: (0 <= j < |items| && items[j].0 == k && (forall i :: j < i < |items| ==> items[i].0 != k))
              ==> Tally(m, items)[k] == items[j].1
    decreases |items|
  {
    if |items| > 0 {
      var init := items[..|items| - 1];
      TallyLastWins(m, init, k);
      assert forall i :: 0 <= i < |init| ==> init[i] == items[i];
    }
  }

  /** `xs` lists the elements of `s`, each once, in some order. */
  ghost predicate Lists<T(!new)>(xs: seq<T>, s: set<T>)
  {
    (forall x :: x in xs <==> x in s) && forall i, j :: 0 <= i < j < |xs| ==> xs[i] != xs[j]
  }

  /** `list(s)`: the distinct elements of a set, in an order the language leaves open. */
  method SetToSeq<T(==,!new)>(s: set<T>) returns (r: seq<T>)
    ensures |r| == |s|
    ensures forall x :: x in r <==> x in s
    ensures forall i, j :: 0 <= i < j < |r| ==> r[i] != r[j]
    ensures Lists(r, s)
  {
    r := [];
    var rest := s;
    while rest != {}
      invariant rest <= s
      invariant forall x :: x in r <==> x in s && x !in rest
      invariant |r| + |rest| == |s|
      invariant forall i, j :: 0 <= i < j < |r| ==> r[i] != r[j]
      decreases |rest|
    {
      var x :| x in rest;
      r := r + [x];
      rest := rest - {x};
    }
  }

  /** The keys that occur in `s`. */
  function Keys<T, K(==)>(s: seq<T>, key: T -> K): set<K>
  {
    set i | 0 <= i < |s| :: key(s[i])
  }

  lemma KeysSnoc<T, K>(s: seq<T>, x: T, key: T -> K)
    ensures Keys(s + [x], key) == Keys(s, key) + {key(x)}
  {
    var l := Keys(s + [x], key);
    var r := Keys(s, key) + {key(x)};
    forall k | k in l ensures k in r {
      var i :| 0 <= i < |s| + 1 && (s + [x])[i] == (s + [x])[i] && key((s + [x])[i]) == k;
      if i < |s| { assert (s + [x])[i] == s[i]; }
    }
    forall k | k in r ensures k in l {
      if k == key(x) {
        assert (s + [x])[|s|] == x;
      } else {
        var i :| 0 <= i < |s| && key(s[i]) == k;
        assert (s + [x])[i] == s[i];
      }
    }
  }

  /** `s[i]` is the first element of `s` with its key. */
  predicate IsFirst<T, K(==)>(s: seq<T>, i: nat, key: T -> K)
    requires i < |s|
  {
    key(s[i]) !in Keys(s[..i], key)
  }

  /** The first element per key, in input order: `dict.fromkeys` on keys, and the
      "seen set" loops of the usage-statistics routes. */
  function FirstOccurrences<T, K(==)>(s: seq<T>, key: T -> K): (r: seq<T>)
    ensures Keys(r, key) == Keys(s, key)
    ensures forall i, j :: 0 <= i < j < |r| ==> key(r[i]) != key(r[j])
    ensures |r| <= |s|
    decreases |s|
  {
    if |s| == 0 then []
    else
      var init := s[..|s| - 1];
      var last := s[|s| - 1];
      assert s == init + [last];
      KeysSnoc(init, last, key);
      var p := FirstOccurrences(init, key);
      if key(last) in Keys(init, key) then p
      else
        KeysSnoc(p, last, key);
        p + [last]
  }

  /** `r` is `s` with some elements left out, the rest in order. */
  predicate IsSubsequence<T(==)>(r: seq<T>, s: seq<T>)
    decreases |s|
  {
    if |r| == 0 then true
    else if |s| == 0 then false
    else if r[|r| - 1] == s[|s| - 1] then IsSubsequence(r[..|r| - 1], s[..|s| - 1])
    else IsSubsequence(r, s[..|s| - 1])
  }

  lemma {:induction false} SubsequenceExtend<T>(r: seq<T>, s: seq<T>, x: T)
    requires IsSubsequence(r, s)
    ensures IsSubsequence(r, s + [x]) && IsSubsequence(r + [x], s + [x])
    decreases |s|, 1
  {
    assert (s + [x])[..|s|] == s;
    assert (r + [x])[..|r|] == r;
    if |r| > 0 && r[|r| - 1] == x {
      SubsequenceDropLast(r, s);
    }
  }

  lemma {:induction false} SubsequenceDropLast<T>(r: seq<T>, s: seq<T>)
    requires |r| > 0 && IsSubsequence(r, s)
    ensures IsSubsequence(r[..|r| - 1], s)
    decreases |s|, 0
  {
    var r', s' := r[..|r| - 1], s[..|s| - 1];
    assert s == s' + [s[|s| - 1]];
    if r[|r| - 1] == s[|s| - 1] {
      SubsequenceExtend(r', s', s[|s| - 1]);
    } else {
      SubsequenceDropLast(r, s');
      SubsequenceExtend(r', s', s[|s| - 1]);
    }
  }

  lemma {:induction false} SubsequenceMembers<T>(r: seq<T>, s: seq<T>)
    requires IsSubsequence(r, s)
    ensures forall x :: x in r ==> x in s
    decreases |s|
  {
    if |r| > 0 && |s| > 0 {
      if r[|r| - 1] == s[|s| - 1] {
        SubsequenceMembers(r[..|r| - 1], s[..|s| - 1]);
        assert r == r[..|r| - 1] + [r[|r| - 1]];
      } else {
        SubsequenceMembers(r, s[..|s| - 1]);
      }
      assert s == s[..|s| - 1] + [s[|s| - 1]];
    }
  }

  /** The de-duplicated list keeps the input order. */
  lemma {:induction false} FirstOccurrencesInOrder<T, K>(s: seq<T>, key: T -> K)
    ensures IsSubsequence(FirstOccurrences(s, key), s)
    decreases |s|
  {
    if |s| > 0 {
      var init := s[..|s| - 1];
      var last := s[|s| - 1];
      assert s == init + [last];
      FirstOccurrencesInOrder(init, key);
      SubsequenceExtend(FirstOccurrences(init, key), init, last);
    }
  }

  /** Every element the de-duplicated list keeps is the first of its key in the input. */
  lemma {:induction false} FirstOccurrencesAreFirst<T, K>(s: seq<T>, key: T -> K, j: nat)
    requires j < |FirstOccurrences(s, key)|
    ensures exists i :: 0 <= i < |s| && s[i] == FirstOccurrences(s, key)[j] && IsFirst(s, i, key)
    decreases |s|
  {
    var r := FirstOccurrences(s, key);
    var init := s[..|s| - 1];
    var last := s[|s| - 1];
    var p := FirstOccurrences(init, key);
    if j < |p| {
      assert r[j] == p[j];
      FirstOccurrencesAreFirst(init, key, j);
      var i :| 0 <= i < |init| && init[i] == p[j] && IsFirst(init, i, key);
      assert s[i] == init[i] && s[..i] == init[..i];
    } else {
      assert r == p + [last];
      assert r[j] == last && s[..|s| - 1] == init;
      assert IsFirst(s, |s| - 1, key);
    }
  }
}
