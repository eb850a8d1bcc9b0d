/** Weighted progress reporting (main.py:1025, 1135-1137, 1166-1168, 1238-1240):
    setup is worth 10 points, candidate collection 30, detail fetching 40 and final
    filtering 20. Each phase reports `start + weight * step / steps` before a step;
    the filtering phase reports after it. */
module Progress {
  import opened Arith

  predicate NonDecreasing(s: seq<nat>)
  {
    forall i, j :: 0 <= i < j < |s| ==> s[i] <= s[j]
  }

  predicate Within(s: seq<nat>, lo: nat, hi: nat)
  {
    forall i :: 0 <= i < |s| ==> lo <= s[i] <= hi
  }

  /** The last percentage reported is `x`. */
  predicate EndsAt(s: seq<nat>, x: nat)
  {
    |s| > 0 && s[|s| - 1] == x
  }

  lemma ScaledMonotone(w: nat, i: nat, j: nat, n: nat)
    requires i <= j && n > 0
    ensures (w * i) / n <= (w * j) / n
  {
    MulMonotone(w, i, j);
    DivMonotone(w * i, w * j, n);
  }

  lemma ScaledBelow(w: nat, i: nat, n: nat)
    requires i < n && w > 0
    ensures (w * i) / n < w
  {
    assert w * (i + 1) == w * i + w;
    MulMonotone(w, i + 1, n);
    DivBelow(w * i, n, w);
  }

  /** `int(start + k * (weight / steps))`: the value reported `k` steps into a phase. */
  function Point(start: nat, weight: nat, k: nat, steps: nat): nat
    requires steps > 0
  {
    start + (weight * k) / steps
  }

  /** The values reported before each of `steps` steps of a phase. */
  function Before(start: nat, weight: nat, steps: nat): (r: seq<nat>)
    requires steps > 0
    ensures |r| == steps
    ensures forall i :: 0 <= i < steps ==> r[i] == Point(start, weight, i, steps)
  {
    seq(steps, i requires 0 <= i < steps => Point(start, weight, i, steps))
  }

  /** The values reported before the first `i + 1` steps. */
  lemma BeforePrefix(start: nat, weight: nat, steps: nat, i: nat)
    requires i < steps
    ensures Before(start, weight, steps)[..i + 1] == Before(start, weight, steps)[..i] + [Point(start, weight, i, steps)]
  {
  }

  /** They never go down, and stay below the next phase's start. */
  lemma BeforeBounds(start: nat, weight: nat, steps: nat)
    requires steps > 0 && weight > 0
    ensures NonDecreasing(Before(start, weight, steps))
    ensures Within(Before(start, weight, steps), start, start + weight - 1)
    ensures Before(start, weight, steps)[0] == start
  {
    var r := Before(start, weight, steps);
    forall i, j | 0 <= i < j < steps ensures r[i] <= r[j] {
      ScaledMonotone(weight, i, j, steps);
    }
    forall i | 0 <= i < steps ensures start <= r[i] <= start + weight - 1 {
      ScaledBelow(weight, i, steps);
    }
  }

  /** The values reported after each of `steps` steps. */
  function After(start: nat, weight: nat, steps: nat): (r: seq<nat>)
    requires steps > 0
    ensures |r| == steps
    ensures forall i :: 0 <= i < steps ==> r[i] == Point(start, weight, i + 1, steps)
  {
    seq(steps, i requires 0 <= i < steps => Point(start, weight, i + 1, steps))
  }

  /** The values reported after the first `i + 1` steps. */
  lemma AfterPrefix(start: nat, weight: nat, steps: nat, i: nat)
    requires i < steps
    ensures After(start, weight, steps)[..i + 1] == After(start, weight, steps)[..i] + [Point(start, weight, i + 1, steps)]
  {
  }

  /** A later point is never lower. */
  lemma PointMonotone(start: nat, weight: nat, k: nat, l: nat, steps: nat)
    requires k <= l && steps > 0
    ensures Point(start, weight, k, steps) <= Point(start, weight, l, steps)
  {
    ScaledMonotone(weight, k, l, steps);
  }

  /** A point within the phase lies between its start and its end. */
  lemma PointWithin(start: nat, weight: nat, k: nat, steps: nat)
    requires k <= steps && steps > 0
    ensures start <= Point(start, weight, k, steps) <= start + weight
  {
    ScaledMonotone(weight, k, steps, steps);
    MulDiv(weight, steps);
  }

  /** They never go down, and the last one completes the phase. */
  lemma AfterBounds(start: nat, weight: nat, steps: nat)
    requires steps > 0
    ensures NonDecreasing(After(start, weight, steps))
    ensures Within(After(start, weight, steps), start, start + weight)
    ensures After(start, weight, steps)[steps - 1] == start + weight
  {
    AfterOrdered(start, weight, steps);
    AfterWithin(start, weight, steps);
    AfterLast(start, weight, steps);
  }

  lemma AfterOrdered(start: nat, weight: nat, steps: nat)
    requires steps > 0
    ensures NonDecreasing(After(start, weight, steps))
  {
    forall i, j | 0 <= i < j < steps ensures After(start, weight, steps)[i] <= After(start, weight, steps)[j] {
      AfterPair(start, weight, steps, i, j);
    }
  }

  lemma AfterPair(start: nat, weight: nat, steps: nat, i: nat, j: nat)
    requires i < j < steps
    ensures After(start, weight, steps)[i] <= After(start, weight, steps)[j]
  {
    PointMonotone(start, weight, i + 1, j + 1, steps);
  }

  lemma AfterWithin(start: nat, weight: nat, steps: nat)
    requires steps > 0
    ensures Within(After(start, weight, steps), start, start + weight)
  {
    var r := After(start, weight, steps);
    forall i | 0 <= i < steps ensures start <= r[i] <= start + weight {
      PointWithin(start, weight, i + 1, steps);
    }
  }

  lemma AfterLast(start: nat, weight: nat, steps: nat)
    requires steps > 0
    ensures After(start, weight, steps)[steps - 1] == start + weight
  {
    MulDiv(weight, steps);
  }

  lemma ConcatNonDecreasing(a: seq<nat>, b: seq<nat>, loA: nat, hiA: nat, loB: nat, hiB: nat)
    requires NonDecreasing(a) && NonDecreasing(b) && Within(a, loA, hiA) && Within(b, loB, hiB)
    requires hiA <= loB
    ensures NonDecreasing(a + b) && Within(a + b, if |a| > 0 then loA else loB, if |b| > 0 then hiB else hiA)
  {
    ConcatOrdered(a, b, loA, hiA, loB, hiB);
    ConcatWithin(a, b, loA, hiA, loB, hiB);
  }

  lemma ConcatOrdered(a: seq<nat>, b: seq<nat>, loA: nat, hiA: nat, loB: nat, hiB: nat)
    requires NonDecreasing(a) && NonDecreasing(b) && Within(a, loA, hiA) && Within(b, loB, hiB)
    requires hiA <= loB
    ensures NonDecreasing(a + b)
  {
    var c := a + b;
    forall i, j | 0 <= i < j < |c| ensures c[i] <= c[j] {
      if j < |a| {
        assert c[i] == a[i] && c[j] == a[j];
      } else if i >= |a| {
        assert c[i] == b[i - |a|] && c[j] == b[j - |a|];
      } else {
        assert c[i] == a[i] && c[j] == b[j - |a|];
      }
    }
  }

  lemma ConcatWithin(a: seq<nat>, b: seq<nat>, loA: nat, hiA: nat, loB: nat, hiB: nat)
    requires NonDecreasing(a) && NonDecreasing(b) && Within(a, loA, hiA) && Within(b, loB, hiB)
    requires hiA <= loB
    ensures Within(a + b, if |a| > 0 then loA else loB, if |b| > 0 then hiB else hiA)
  {
    var c := a + b;
    var lo := if |a| > 0 then loA else loB;
    var hi := if |b| > 0 then hiB else hiA;
    assert |b| > 0 ==> loB <= b[0] <= hiB;
    assert |a| > 0 ==> loA <= a[0] <= hiA;
    forall i | 0 <= i < |c| ensures lo <= c[i] <= hi {
      if i < |a| {
        assert c[i] == a[i] && loA <= a[i] <= hiA;
      } else {
        assert c[i] == b[i - |a|] && loB <= b[i - |a|] <= hiB;
      }
    }
  }
}
