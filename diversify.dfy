/** The channel diversification of the similar-video search (lib/youtube.ts:711-759):
    from the videos ranked by score, pick `min(resultsLimit, n)` of them in three
    passes. Videos are named by their position in the ranked list, which is how the
    third pass tells them apart (`includes` compares objects, not contents).

    1. Walk the ranked list; admit a video while its channel has fewer than 5 picks
       (the seed's channel) or 3 (any other), else reserve it; stop as soon as
       `floor(0.8 * target)` videos are picked.
    2. Walk the reserved videos while fewer than `target` are picked, admitting under
       relaxed caps of 8 and 5.
    3. Top up with the not-yet-picked videos in ranked order.

    `floor(target * 0.8)` is `(4 * target) / 5`: the floating-point product is within
    one rounding of the exact value, which is either an integer or at least 0.2 away
    from one. */
module Diversify {
  import opened Seqs
  import opened Videos

  function StrictCap(seedChannel: string, channel: string): nat
  {
    if channel == seedChannel then 5 else 3
  }

  function RelaxedCap(seedChannel: string, channel: string): nat
  {
    if channel == seedChannel then 8 else 5
  }

  /** `channelCounts.get(channel) || 0` */
  function CountOf(counts: map<string, nat>, channel: string): nat
  {
    if channel in counts then counts[channel] else 0
  }

  /** How many of the picked positions hold a video of `channel`. */
  function ChannelCount(rows: seq<Row>, picks: seq<nat>, channel: string): (c: nat)
    ensures c <= |picks|
  {
    if |picks| == 0 then 0
    else
      var k := picks[|picks| - 1];
      ChannelCount(rows, picks[..|picks| - 1], channel)
        + (if k < |rows| && rows[k].video.channelId == channel then 1 else 0)
  }

  lemma ChannelCountSnoc(rows: seq<Row>, picks: seq<nat>, k: nat, channel: string)
    ensures ChannelCount(rows, picks + [k], channel)
         == ChannelCount(rows, picks, channel) + (if k < |rows| && rows[k].video.channelId == channel then 1 else 0)
  {
    assert (picks + [k])[..|picks|] == picks;
  }

  /** The counts map agrees with the picks. */
  ghost predicate Tallied(rows: seq<Row>, picks: seq<nat>, counts: map<string, nat>)
  {
    forall channel :: CountOf(counts, channel) == ChannelCount(rows, picks, channel)
  }

  lemma TalliedSnoc(rows: seq<Row>, picks: seq<nat>, counts: map<string, nat>, k: nat)
    requires Tallied(rows, picks, counts) && k < |rows|
    ensures Tallied(rows, picks + [k], counts[rows[k].video.channelId := CountOf(counts, rows[k].video.channelId) + 1])
  {
    var ch := rows[k].video.channelId;
    var counts' := counts[ch := CountOf(counts, ch) + 1];
    forall channel ensures CountOf(counts', channel) == ChannelCount(rows, picks + [k], channel) {
      ChannelCountSnoc(rows, picks, k, channel);
    }
  }

  // ---------------------------------------------------------------- the three passes

  /** The first pass from position `i`, with `picks` admitted and `reserved` held back. */
  function FirstPass(rows: seq<Row>, seedChannel: string, quota: nat, i: nat, picks: seq<nat>, reserved: seq<nat>)
    : (seq<nat>, seq<nat>)
    decreases |rows| - i
  {
    if i >= |rows| then (picks, reserved)
    else
      var ch := rows[i].video.channelId;
      var admit := ChannelCount(rows, picks, ch) < StrictCap(seedChannel, ch);
      var p := if admit then picks + [i] else picks;
      var r := if admit then reserved else reserved + [i];
      if |p| >= quota then (p, r) else FirstPass(rows, seedChannel, quota, i + 1, p, r)
  }

  /** The second pass from the `j`-th reserved video. */
  function SecondPass(rows: seq<Row>, seedChannel: string, target: nat, reserved: seq<nat>, j: nat, picks: seq<nat>)
    : seq<nat>
    decreases |reserved| - j
  {
    if j >= |reserved| || |picks| >= target then picks
    else
      var k := reserved[j];
      var ch := if k < |rows| then rows[k].video.channelId else "";
      var admit := ChannelCount(rows, picks, ch) < RelaxedCap(seedChannel, ch);
      SecondPass(rows, seedChannel, target, reserved, j + 1, if admit then picks + [k] else picks)
  }

  function Positions(n: nat): (r: seq<nat>)
    ensures |r| == n && forall i :: 0 <= i < n ==> r[i] == i
  {
    seq(n, i requires 0 <= i < n => i)
  }

  /** The positions not picked, in ranked order. */
  function Remaining(n: nat, picks: seq<nat>): seq<nat>
  {
    Filter(Positions(n), NotIn(picks))
  }

  function NotIn(picks: seq<nat>): nat -> bool
  {
    (k: nat) => k !in picks
  }

  /** The third pass: `remaining.slice(0, target - picked)` appended when short. */
  function ThirdPass(n: nat, target: nat, picks: seq<nat>): seq<nat>
  {
    if |picks| < target then
      var rem := Remaining(n, picks);
      var need := target - |picks|;
      picks + (if |rem| <= need then rem else rem[..need])
    else picks
  }

  function Target(resultsLimit: nat, n: nat): nat
  {
    if resultsLimit < n then resultsLimit else n
  }

  /** The picks of the first two passes, which honour the per-channel caps. */
  function Capped(rows: seq<Row>, seedChannel: string, resultsLimit: nat): seq<nat>
  {
    var target := Target(resultsLimit, |rows|);
    var first := FirstPass(rows, seedChannel, (4 * target) / 5, 0, [], []);
    SecondPass(rows, seedChannel, target, first.1, 0, first.0)
  }

  /** The positions the diversification keeps, in the order they are kept. */
  function Diversified(rows: seq<Row>, seedChannel: string, resultsLimit: nat): seq<nat>
  {
    ThirdPass(|rows|, Target(resultsLimit, |rows|), Capped(rows, seedChannel, resultsLimit))
  }

  // ---------------------------------------------------------------- shape of the picks

  predicate Increasing(s: seq<nat>)
  {
    forall i, j :: 0 <= i < j < |s| ==> s[i] < s[j]
  }

  predicate Distinct(s: seq<nat>)
  {
    forall i, j :: 0 <= i < j < |s| ==> s[i] != s[j]
  }

  predicate Below(s: seq<nat>, bound: nat)
  {
    forall i :: 0 <= i < |s| ==> s[i] < bound
  }

  /** Picks and reserved are increasing, disjoint positions below `bound`. */
  predicate Layout(picks: seq<nat>, reserved: seq<nat>, bound: nat)
  {
    Increasing(picks) && Increasing(reserved) && Below(picks, bound) && Below(reserved, bound)
    && forall k :: k in picks ==> k !in reserved
  }

  lemma LayoutStep(picks: seq<nat>, reserved: seq<nat>, i: nat, admit: bool)
    requires Layout(picks, reserved, i)
    ensures admit ==> Layout(picks + [i], reserved, i + 1)
    ensures !admit ==> Layout(picks, reserved + [i], i + 1)
  {
  }

  lemma LayoutWeaken(picks: seq<nat>, reserved: seq<nat>, bound: nat, bound': nat)
    requires Layout(picks, reserved, bound) && bound <= bound'
    ensures Layout(picks, reserved, bound')
  {
  }

  lemma {:induction false} FirstPassLayout(rows: seq<Row>, seedChannel: string, quota: nat, i: nat,
                                           picks: seq<nat>, reserved: seq<nat>)
    requires i <= |rows| && Layout(picks, reserved, i)
    ensures var r := FirstPass(rows, seedChannel, quota, i, picks, reserved);
      Layout(r.0, r.1, |rows|) && |picks| <= |r.0|
    decreases |rows| - i
  {
    if i < |rows| {
      var ch := rows[i].video.channelId;
      var admit := ChannelCount(rows, picks, ch) < StrictCap(seedChannel, ch);
      LayoutStep(picks, reserved, i, admit);
      var p := if admit then picks + [i] else picks;
      var r := if admit then reserved else reserved + [i];
      assert Layout(p, r, i + 1);
      FirstPassStep(rows, seedChannel, quota, i, picks, reserved);
      if |p| < quota {
        FirstPassLayout(rows, seedChannel, quota, i + 1, p, r);
      } else {
        LayoutWeaken(p, r, i + 1, |rows|);
      }
    }
  }

  /** The first pass stops at the quota, or after one video when the quota is 0. */
  lemma {:induction false} FirstPassSize(rows: seq<Row>, seedChannel: string, quota: nat, i: nat,
                                         picks: seq<nat>, reserved: seq<nat>)
    requires |picks| < quota || |picks| == 0
    ensures |FirstPass(rows, seedChannel, quota, i, picks, reserved).0| <= (if quota == 0 then 1 else quota)
    decreases |rows| - i
  {
    if i < |rows| {
      var ch := rows[i].video.channelId;
      var admit := ChannelCount(rows, picks, ch) < StrictCap(seedChannel, ch);
      var p := if admit then picks + [i] else picks;
      var r := if admit then reserved else reserved + [i];
      if |p| < quota {
        FirstPassSize(rows, seedChannel, quota, i + 1, p, r);
      }
    }
  }

  /** The first ranked video is always picked first: no channel has a pick yet. */
  lemma {:induction false} FirstPassKeepsBest(rows: seq<Row>, seedChannel: string, quota: nat, i: nat,
                                              picks: seq<nat>, reserved: seq<nat>)
    requires |picks| > 0 || (i == 0 && |rows| > 0)
    ensures var p := FirstPass(rows, seedChannel, quota, i, picks, reserved).0;
      |p| > 0 && p[0] == (if |picks| > 0 then picks[0] else 0)
    decreases |rows| - i
  {
    if i < |rows| {
      var ch := rows[i].video.channelId;
      var admit := ChannelCount(rows, picks, ch) < StrictCap(seedChannel, ch);
      var p := if admit then picks + [i] else picks;
      var r := if admit then reserved else reserved + [i];
      if |p| < quota {
        FirstPassKeepsBest(rows, seedChannel, quota, i + 1, p, r);
      }
    }
  }

  ghost predicate WithinCaps(rows: seq<Row>, picks: seq<nat>, seedChannel: string, strict: bool)
  {
    forall channel :: ChannelCount(rows, picks, channel)
      <= (if strict then StrictCap(seedChannel, channel) else RelaxedCap(seedChannel, channel))
  }

  lemma CapsStep(rows: seq<Row>, picks: seq<nat>, seedChannel: string, strict: bool, k: nat)
    requires WithinCaps(rows, picks, seedChannel, strict) && k < |rows|
    requires ChannelCount(rows, picks, rows[k].video.channelId)
      < (if strict then StrictCap(seedChannel, rows[k].video.channelId) else RelaxedCap(seedChannel, rows[k].video.channelId))
    ensures WithinCaps(rows, picks + [k], seedChannel, strict)
  {
    forall channel ensures ChannelCount(rows, picks + [k], channel)
      <= (if strict then StrictCap(seedChannel, channel) else RelaxedCap(seedChannel, channel))
    {
      ChannelCountSnoc(rows, picks, k, channel);
    }
  }

  /** The first pass never gives a channel more than its strict cap. */
  lemma {:induction false} FirstPassCaps(rows: seq<Row>, seedChannel: string, quota: nat, i: nat,
                                         picks: seq<nat>, reserved: seq<nat>)
    requires WithinCaps(rows, picks, seedChannel, true)
    ensures WithinCaps(rows, FirstPass(rows, seedChannel, quota, i, picks, reserved).0, seedChannel, true)
    decreases |rows| - i
  {
    if i < |rows| {
      var ch := rows[i].video.channelId;
      var admit := ChannelCount(rows, picks, ch) < StrictCap(seedChannel, ch);
      if admit { CapsStep(rows, picks, seedChannel, true, i); }
      var p := if admit then picks + [i] else picks;
      var r := if admit then reserved else reserved + [i];
      if |p| < quota {
        FirstPassCaps(rows, seedChannel, quota, i + 1, p, r);
      }
    }
  }

  /** The strict caps are below the relaxed ones. */
  lemma StrictWithinRelaxed(rows: seq<Row>, picks: seq<nat>, seedChannel: string)
    requires WithinCaps(rows, picks, seedChannel, true)
    ensures WithinCaps(rows, picks, seedChannel, false)
  {
    forall channel ensures ChannelCount(rows, picks, channel) <= RelaxedCap(seedChannel, channel) {
      assert ChannelCount(rows, picks, channel) <= StrictCap(seedChannel, channel);
    }
  }

  lemma DistinctSnoc(picks: seq<nat>, k: nat, bound: nat)
    requires Distinct(picks) && Below(picks, bound) && k !in picks && k < bound
    ensures Distinct(picks + [k]) && Below(picks + [k], bound) && (picks + [k])[..|picks|] == picks
  {
  }

  /** The second pass adds distinct reserved positions below `bound`, after the picks it
      starts from, up to `target`. */
  lemma {:induction false} SecondPassShape(rows: seq<Row>, seedChannel: string, target: nat, reserved: seq<nat>,
                                           j: nat, picks: seq<nat>)
    requires Distinct(picks) && Below(picks, |rows|) && Increasing(reserved) && Below(reserved, |rows|)
    requires forall m :: j <= m < |reserved| ==> reserved[m] !in picks
    ensures var r := SecondPass(rows, seedChannel, target, reserved, j, picks);
      Distinct(r) && Below(r, |rows|) && |picks| <= |r| && r[..|picks|] == picks
      && |r| <= (if |picks| <= target then target else |picks|)
    decreases |reserved| - j
  {
    if j < |reserved| && |picks| < target {
      var k := reserved[j];
      var ch := rows[k].video.channelId;
      var admit := ChannelCount(rows, picks, ch) < RelaxedCap(seedChannel, ch);
      var p := if admit then picks + [k] else picks;
      if admit { DistinctSnoc(picks, k, |rows|); }
      forall m | j + 1 <= m < |reserved| ensures reserved[m] !in p {
        assert reserved[j] < reserved[m];
      }
      SecondPassShape(rows, seedChannel, target, reserved, j + 1, p);
      var r := SecondPass(rows, seedChannel, target, reserved, j + 1, p);
      assert r[..|picks|] == r[..|p|][..|picks|];
    }
  }

  /** The second pass keeps every channel within its relaxed cap. */
  lemma {:induction false} SecondPassCaps(rows: seq<Row>, seedChannel: string, target: nat, reserved: seq<nat>,
                                          j: nat, picks: seq<nat>)
    requires Below(reserved, |rows|) && WithinCaps(rows, picks, seedChannel, false)
    ensures WithinCaps(rows, SecondPass(rows, seedChannel, target, reserved, j, picks), seedChannel, false)
    decreases |reserved| - j
  {
    if j < |reserved| && |picks| < target {
      var k := reserved[j];
      var ch := rows[k].video.channelId;
      var admit := ChannelCount(rows, picks, ch) < RelaxedCap(seedChannel, ch);
      if admit { CapsStep(rows, picks, seedChannel, false, k); }
      SecondPassCaps(rows, seedChannel, target, reserved, j + 1, if admit then picks + [k] else picks);
    }
  }

  // ---------------------------------------------------------------- the third pass

  /** Of the first `n` positions, those not picked number `n` less those picked. */
  lemma {:induction false} RemainingCount(n: nat, picks: seq<nat>)
    ensures |Remaining(n, picks)| + |set k: nat | k in picks && k < n| == n
  {
    if n > 0 {
      RemainingCount(n - 1, picks);
      assert Positions(n)[..n - 1] == Positions(n - 1);
      var below := set k: nat | k in picks && k < n;
      var before := set k: nat | k in picks && k < n - 1;
      if n - 1 in picks {
        assert below == before + {n - 1};
      } else {
        assert below == before;
      }
    }
  }

  lemma {:induction false} DistinctCard(s: seq<nat>)
    requires Distinct(s)
    ensures |set k: nat | k in s| == |s|
  {
    if |s| > 0 {
      var init, last := s[..|s| - 1], s[|s| - 1];
      assert Distinct(init);
      DistinctCard(init);
      var all := set k: nat | k in s;
      var front := set k: nat | k in init;
      assert s == init + [last];
      assert all == front + {last};
      assert last !in front;
      assert |all| == |front| + 1;
    }
  }

  lemma RemainingMembers(n: nat, picks: seq<nat>, k: nat)
    ensures k in Remaining(n, picks) <==> k < n && k !in picks
  {
    FilterMembers(Positions(n), NotIn(picks), k);
    if k < n { assert Positions(n)[k] == k; }
    assert NotIn(picks)(k) == (k !in picks);
  }

  lemma {:induction false} RemainingIncreasing(n: nat, picks: seq<nat>)
    ensures Increasing(Remaining(n, picks))
  {
    if n > 0 {
      RemainingIncreasing(n - 1, picks);
      assert Positions(n)[..n - 1] == Positions(n - 1);
      var rem := Remaining(n - 1, picks);
      forall i | 0 <= i < |rem| ensures rem[i] < n - 1 {
        RemainingMembers(n - 1, picks, rem[i]);
      }
    }
  }

  lemma AppendDistinct(a: seq<nat>, b: seq<nat>, bound: nat)
    requires Distinct(a) && Increasing(b) && Below(a, bound) && Below(b, bound)
    requires forall i :: 0 <= i < |b| ==> b[i] !in a
    ensures Distinct(a + b) && Below(a + b, bound) && (a + b)[..|a|] == a
  {
    var r := a + b;
    forall i, j | 0 <= i < j < |r| ensures r[i] != r[j] {
      if i < |a| <= j {
        assert r[j] == b[j - |a|];
      }
    }
  }

  /** The third pass fills up to `target` with distinct positions not yet picked. */
  lemma ThirdPassShape(n: nat, target: nat, picks: seq<nat>)
    requires Distinct(picks) && Below(picks, n) && target <= n
    ensures var r := ThirdPass(n, target, picks);
      Distinct(r) && Below(r, n) && r[..|picks|] == picks
      && |r| == (if |picks| < target then target else |picks|)
  {
    if |picks| < target {
      var rem := Remaining(n, picks);
      var need := target - |picks|;
      var extra := if |rem| <= need then rem else rem[..need];
      RemainingCount(n, picks);
      DistinctCard(picks);
      assert (set k: nat | k in picks && k < n) == (set k: nat | k in picks);
      assert |extra| == need;
      RemainingIncreasing(n, picks);
      forall i | 0 <= i < |extra| ensures extra[i] < n && extra[i] !in picks {
        RemainingMembers(n, picks, extra[i]);
      }
      AppendDistinct(picks, extra, n);
    }
  }

  /** What the diversification returns: exactly `min(resultsLimit, n)` distinct
      positions, except that a limit of 0 still keeps the best video (the first pass
      checks its 80% quota only after admitting one); the best video comes first; and
      what the first two passes picked leads the list and keeps every channel within its
      relaxed cap (8 for the seed's channel, 5 for others). */
  lemma DiversifiedShape(rows: seq<Row>, seedChannel: string, resultsLimit: nat)
    ensures var r := Diversified(rows, seedChannel, resultsLimit);
      var capped := Capped(rows, seedChannel, resultsLimit);
      Distinct(r) && Below(r, |rows|)
      && |r| == (if resultsLimit == 0 && |rows| > 0 then 1 else Target(resultsLimit, |rows|))
      && (|rows| > 0 ==> r[0] == 0)
      && |capped| <= |r| && r[..|capped|] == capped
      && WithinCaps(rows, capped, seedChannel, false)
  {
    var n := |rows|;
    var target := Target(resultsLimit, n);
    var quota := (4 * target) / 5;
    var first := FirstPass(rows, seedChannel, quota, 0, [], []);
    FirstPassLayout(rows, seedChannel, quota, 0, [], []);
    FirstPassSize(rows, seedChannel, quota, 0, [], []);
    FirstPassCaps(rows, seedChannel, quota, 0, [], []);
    if n > 0 { FirstPassKeepsBest(rows, seedChannel, quota, 0, [], []); }
    StrictWithinRelaxed(rows, first.0, seedChannel);
    SecondPassShape(rows, seedChannel, target, first.1, 0, first.0);
    SecondPassCaps(rows, seedChannel, target, first.1, 0, first.0);
    var capped := SecondPass(rows, seedChannel, target, first.1, 0, first.0);
    ThirdPassShape(n, target, capped);
    var r := ThirdPass(n, target, capped);
    if n > 0 {
      assert capped[..|first.0|] == first.0;
      assert r[0] == capped[0] == first.0[0];
    }
  }

  lemma DiversifiedInRange(rows: seq<Row>, seedChannel: string, resultsLimit: nat)
    ensures Below(Diversified(rows, seedChannel, resultsLimit), |rows|)
  {
    DiversifiedShape(rows, seedChannel, resultsLimit);
  }

  /** A limit of 0 still returns the best-ranked video. */
  lemma ZeroLimitKeepsOne(rows: seq<Row>, seedChannel: string)
    requires |rows| > 0
    ensures Diversified(rows, seedChannel, 0) == [0]
  {
    DiversifiedShape(rows, seedChannel, 0);
  }

  // ---------------------------------------------------------------- the loops

  lemma FirstPassStep(rows: seq<Row>, seedChannel: string, quota: nat, i: nat, picks: seq<nat>, reserved: seq<nat>)
    requires i < |rows|
    ensures var ch := rows[i].video.channelId;
      var admit := ChannelCount(rows, picks, ch) < StrictCap(seedChannel, ch);
      var p := if admit then picks + [i] else picks;
      var r := if admit then reserved else reserved + [i];
      FirstPass(rows, seedChannel, quota, i, picks, reserved)
        == if |p| >= quota then (p, r) else FirstPass(rows, seedChannel, quota, i + 1, p, r)
  {
  }

  lemma SecondPassStep(rows: seq<Row>, seedChannel: string, target: nat, reserved: seq<nat>, j: nat, picks: seq<nat>)
    requires j < |reserved| && |picks| < target && reserved[j] < |rows|
    ensures var k := reserved[j];
      var ch := rows[k].video.channelId;
      var admit := ChannelCount(rows, picks, ch) < RelaxedCap(seedChannel, ch);
      SecondPass(rows, seedChannel, target, reserved, j, picks)
        == SecondPass(rows, seedChannel, target, reserved, j + 1, if admit then picks + [k] else picks)
  {
  }

  /** The first pass (lib/youtube.ts:716-734). */
  method RunFirstPass(rows: seq<Row>, seedChannel: string, quota: nat)
    returns (picks: seq<nat>, reserved: seq<nat>, counts: map<string, nat>)
    ensures (picks, reserved) == FirstPass(rows, seedChannel, quota, 0, [], [])
    ensures Tallied(rows, picks, counts)
  {
    picks, reserved, counts := [], [], map[];
    var i := 0;
    while i < |rows|
      invariant i <= |rows|
      invariant FirstPass(rows, seedChannel, quota, 0, [], []) == FirstPass(rows, seedChannel, quota, i, picks, reserved)
      invariant Tallied(rows, picks, counts)
    {
      var channel := rows[i].video.channelId;
      var count := CountOf(counts, channel);
      assert count == ChannelCount(rows, picks, channel);
      FirstPassStep(rows, seedChannel, quota, i, picks, reserved);
      if count < StrictCap(seedChannel, channel) {
        TalliedSnoc(rows, picks, counts, i);
        picks := picks + [i];
        counts := counts[channel := count + 1];
      } else {
        reserved := reserved + [i];
      }
      if |picks| >= quota {
        return;
      }
      i := i + 1;
    }
  }

  /** The second pass (lib/youtube.ts:736-750). */
  method RunSecondPass(rows: seq<Row>, seedChannel: string, target: nat, reserved: seq<nat>,
                       picks0: seq<nat>, counts0: map<string, nat>)
    returns (picks: seq<nat>)
    requires Tallied(rows, picks0, counts0) && Below(reserved, |rows|)
    ensures picks == SecondPass(rows, seedChannel, target, reserved, 0, picks0)
  {
    picks := picks0;
    var counts: map<string, nat> := counts0;
    var j := 0;
    while j < |reserved|
      invariant j <= |reserved|
      invariant SecondPass(rows, seedChannel, target, reserved, 0, picks0) == SecondPass(rows, seedChannel, target, reserved, j, picks)
      invariant Tallied(rows, picks, counts)
    {
      if |picks| >= target {
        return;
      }
      var k := reserved[j];
      var channel := rows[k].video.channelId;
      var count := CountOf(counts, channel);
      assert count == ChannelCount(rows, picks, channel);
      SecondPassStep(rows, seedChannel, target, reserved, j, picks);
      if count < RelaxedCap(seedChannel, channel) {
        TalliedSnoc(rows, picks, counts, k);
        picks := picks + [k];
        counts := counts[channel := count + 1];
      }
      j := j + 1;
    }
  }

  /** The diversification as written: two loops, then the top-up. */
  method Diversify(rows: seq<Row>, seedChannel: string, resultsLimit: nat) returns (picks: seq<nat>)
    ensures picks == Diversified(rows, seedChannel, resultsLimit)
  {
    var target := if resultsLimit < |rows| then resultsLimit else |rows|;
    var reserved, counts;
    picks, reserved, counts := RunFirstPass(rows, seedChannel, (4 * target) / 5);
    FirstPassLayout(rows, seedChannel, (4 * target) / 5, 0, [], []);
    if |picks| < target {
      picks := RunSecondPass(rows, seedChannel, target, reserved, picks, counts);
    }
    if |picks| < target {
      var remaining := Remaining(|rows|, picks);
      var stillNeeded := target - |picks|;
      picks := picks + (if |remaining| <= stillNeeded then remaining else remaining[..stillNeeded]);
    }
  }
}
