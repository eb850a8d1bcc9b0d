/** The TikTok search route (app/api/search/tiktok/route.ts): the plan gate, the
    credit table and balance check, the settlement that lowers the balance after the
    run, the profile name taken from the query, the period sent to the scraper, and
    the filter / sort / slice applied to the scraped videos. */
module TikTokRoute {
  import opened Wrappers
  import opened Text
  import opened Seqs
  import opened Sorting

  // ---------------------------------------------------------------- plan gate

  /** The 403 message a non-admin gets for a limit the plan does not allow. */
  function PlanGate(isAdmin: bool, plan: string, limit: nat): Option<string>
  {
    if isAdmin then None
    else
      var p := if plan == "" then "free" else plan;
      if p == "free" && limit !in {5, 30} then Some("FREE 플랜은 30개까지만 가능합니다.")
      else if p == "starter" && limit !in {5, 30, 60} then Some("STARTER 플랜은 60개까지만 가능합니다.")
      else if p == "pro" && limit !in {5, 30, 60, 90} then Some("PRO 플랜은 90개까지만 가능합니다.")
      else None
  }

  /** The limits each plan allows; admins and other plans pass. */
  lemma PlanGateRules(isAdmin: bool, plan: string, limit: nat)
    ensures isAdmin ==> PlanGate(isAdmin, plan, limit).None?
    ensures !isAdmin && (plan == "free" || plan == "") ==> (PlanGate(isAdmin, plan, limit).None? <==> limit in {5, 30})
    ensures !isAdmin && plan == "starter" ==> (PlanGate(isAdmin, plan, limit).None? <==> limit in {5, 30, 60})
    ensures !isAdmin && plan == "pro" ==> (PlanGate(isAdmin, plan, limit).None? <==> limit in {5, 30, 60, 90})
    ensures plan !in {"", "free", "starter", "pro"} ==> PlanGate(isAdmin, plan, limit).None?
  {
  }

  // ------------------------------------------------------------ credits

  /** `creditCosts[limit] || 0`. */
  function CreditCost(limit: nat): (r: nat)
    ensures limit in {30, 60, 90, 120} ==> r == limit / 30 * 100
    ensures limit !in {30, 60, 90, 120} ==> r == 0
  {
    if limit == 5 then 0
    else if limit == 30 then 100
    else if limit == 60 then 200
    else if limit == 90 then 300
    else if limit == 120 then 400
    else 0
  }

  /** The status of the balance check: 500 when the credits row cannot be read, 402
      when the balance is below the required credits, nothing otherwise. Admins and
      free limits skip it. */
  function BalanceCheck(isAdmin: bool, limit: nat, balance: Option<nat>): (r: Option<nat>)
    ensures r.Some? <==> !isAdmin && CreditCost(limit) > 0 && (balance.None? || balance.value < CreditCost(limit))
    ensures r.Some? ==> r.value == (if balance.None? then 500 else 402)
  {
    if isAdmin || CreditCost(limit) == 0 then None
    else if balance.None? then Some(500)
    else if balance.value < CreditCost(limit) then Some(402)
    else None
  }

  /** `Math.floor((n / 30) * 100)`, in exact arithmetic. */
  function ToCharge(n: nat): nat { (n * 100) / 30 }

  /** `settle(n)`: the credits reported and the balance afterwards (`None` when the
      credits row is missing, which skips the update). */
  function Settle(isAdmin: bool, n: nat, balance: Option<nat>): (r: (nat, Option<nat>))
  {
    if isAdmin then (0, balance)
    else
      var toCharge := ToCharge(n);
      if toCharge > 0 && balance.Some? then
        (toCharge, Some(if balance.value < toCharge then 0 else balance.value - toCharge))
      else (toCharge, balance)
  }

  /** Admins pay nothing; anyone else is charged 100 per 30 results (floored), the
      balance drops by that amount, and to 0 when it held less; nothing is charged
      for fewer than one result's worth, and a missing row stays missing. */
  lemma SettleRules(isAdmin: bool, n: nat, balance: Option<nat>)
    ensures isAdmin ==> Settle(isAdmin, n, balance) == (0, balance)
    ensures !isAdmin ==> Settle(isAdmin, n, balance).0 == ToCharge(n)
    ensures balance.Some? ==>
              (Settle(isAdmin, n, balance).1.Some?
               && Settle(isAdmin, n, balance).1.value <= balance.value
               && balance.value - Settle(isAdmin, n, balance).1.value <= Settle(isAdmin, n, balance).0)
    ensures !isAdmin && balance.Some? && balance.value >= ToCharge(n) ==>
              Settle(isAdmin, n, balance).1 == Some(balance.value - ToCharge(n))
    ensures !isAdmin && balance.Some? && balance.value < ToCharge(n) ==> Settle(isAdmin, n, balance).1 == Some(0)
    ensures ToCharge(n) == 0 || balance.None? ==> Settle(isAdmin, n, balance).1 == balance
    ensures n % 30 == 0 ==> ToCharge(n) == n / 30 * 100
  {
  }

  // ------------------------------------------------------------ profile name

  const UrlMarker: string := "tiktok.com/@"

  /** The pattern `tiktok\.com\/@([^/?]+)` matches at `i`. */
  predicate MatchesAt(s: string, i: nat)
  {
    i + |UrlMarker| < |s| && s[i..i + |UrlMarker|] == UrlMarker && s[i + |UrlMarker|] !in "/?"
  }

  /** The longest prefix holding neither '/' nor '?'. */
  function Segment(s: string): (r: string)
    ensures |r| <= |s| && r == s[..|r|]
    ensures forall c :: c in r ==> c !in "/?"
    ensures |r| < |s| ==> s[|r|] in "/?"
  {
    if |s| == 0 || s[0] in "/?" then "" else [s[0]] + Segment(s[1..])
  }

  /** The captured group of the first match at or after `i`. */
  function FirstMatch(s: string, i: nat): (r: Option<string>)
    decreases |s| - i
  {
    if i + |UrlMarker| >= |s| then None
    else if MatchesAt(s, i) then Some(Segment(s[i + |UrlMarker|..]))
    else FirstMatch(s, i + 1)
  }

  /** The profile name sent to the scraper: the trimmed query, or the group after
      "tiktok.com/@" when the query holds that marker and the pattern matches, with
      one leading '@' removed. */
  function ProfileName(query: string): string
  {
    var q := Trim(query);
    var name := if Contains(q, UrlMarker) && FirstMatch(q, 0).Some? then FirstMatch(q, 0).value else q;
    if |name| > 0 && name[0] == '@' then name[1..] else name
  }

  /** A name taken from a URL holds no '/' or '?' and is not empty before the '@' is
      removed. */
  lemma {:induction false} FirstMatchShape(s: string, i: nat)
    requires FirstMatch(s, i).Some?
    ensures |FirstMatch(s, i).value| > 0
    ensures forall c :: c in FirstMatch(s, i).value ==> c !in "/?"
    decreases |s| - i
  {
    if !MatchesAt(s, i) {
      FirstMatchShape(s, i + 1);
    }
  }

  /** No 't' of `pre` is followed by 'i', and `pre` does not end in 't': the marker
      cannot start inside `pre`. */
  predicate NoMarkerStart(pre: string)
  {
    forall i :: 0 <= i < |pre| && pre[i] == 't' ==> i + 1 < |pre| && pre[i + 1] != 'i'
  }

  /** No 't' before `p` in `s` is followed by 'i'. */
  predicate NoMarkerBefore(s: string, p: nat)
    requires p < |s|
  {
    forall i :: 0 <= i < p && s[i] == 't' ==> s[i + 1] != 'i'
  }

  lemma {:induction false} NoMatchBefore(s: string, p: nat, i: nat)
    requires p < |s| && NoMarkerBefore(s, p) && i <= p
    ensures FirstMatch(s, i) == FirstMatch(s, p)
    decreases p - i
  {
    if i < p {
      if i + |UrlMarker| < |s| {
        if s[i] == 't' {
          assert s[i..i + |UrlMarker|][1] == s[i + 1];
        } else {
          assert s[i..i + |UrlMarker|][0] == s[i];
        }
        assert !MatchesAt(s, i);
        NoMatchBefore(s, p, i + 1);
      } else {
        assert FirstMatch(s, p) == None;
      }
    }
  }

  /** `Segment` stops at the first '/' or '?' after `k`, or at the end. */
  lemma {:induction false} SegmentAt(s: string, k: nat, n: nat)
    requires k + n <= |s|
    requires forall j :: k <= j < k + n ==> s[j] !in "/?"
    requires k + n == |s| || s[k + n] in "/?"
    ensures Segment(s[k..]) == s[k..k + n]
    decreases n
  {
    if n > 0 {
      assert s[k..][1..] == s[k + 1..];
      SegmentAt(s, k + 1, n - 1);
    }
  }

  /** When the marker stands at `p`, cannot start before it, and is followed by a
      non-empty run of characters other than '/' and '?' that ends the string or a
      '/' or '?', the first match captures that run. */
  lemma MarkerMatch(s: string, p: nat, n: nat)
    requires n > 0 && p + |UrlMarker| + n <= |s|
    requires s[p..p + |UrlMarker|] == UrlMarker && NoMarkerBefore(s, p)
    requires forall j :: p + |UrlMarker| <= j < p + |UrlMarker| + n ==> s[j] !in "/?"
    requires p + |UrlMarker| + n == |s| || s[p + |UrlMarker| + n] in "/?"
    ensures Contains(s, UrlMarker)
    ensures FirstMatch(s, 0) == Some(s[p + |UrlMarker|..p + |UrlMarker| + n])
  {
    var k := p + |UrlMarker|;
    NoMatchBefore(s, p, 0);
    assert MatchesAt(s, p);
    assert FirstMatch(s, p) == Some(Segment(s[k..]));
    ContainsAt(s, UrlMarker, p);
    SegmentAt(s, k, n);
  }

  lemma PrefixNoMarker(pre: string, s: string)
    requires NoMarkerStart(pre) && |pre| < |s| && forall i :: 0 <= i < |pre| ==> s[i] == pre[i]
    ensures NoMarkerBefore(s, |pre|)
  {
    forall i | 0 <= i < |pre| && s[i] == 't' ensures s[i + 1] != 'i' {
      assert s[i] == pre[i] && s[i + 1] == pre[i + 1];
    }
  }

  lemma NameChars(a: string, name: string, rest: string)
    requires (forall c :: c in name ==> c !in "/?") && (rest == "" || rest[0] in "/?")
    ensures var s := a + name + rest;
      (forall j :: |a| <= j < |a| + |name| ==> s[j] !in "/?")
      && (|a| + |name| == |s| || s[|a| + |name|] in "/?")
  {
    var s := a + name + rest;
    forall j | |a| <= j < |a| + |name| ensures s[j] !in "/?" {
      assert s[j] == name[j - |a|];
    }
  }

  /** The profile name of a query that is already trimmed and whose first match
      captures a name not starting with '@' is that name. */
  lemma ProfileNameOfMatch(q: string, name: string)
    requires Trim(q) == q && Contains(q, UrlMarker) && FirstMatch(q, 0) == Some(name)
    requires |name| > 0 && name[0] != '@'
    ensures ProfileName(q) == name
  {
  }

  lemma UrlTrimmed(pre: string, name: string, rest: string)
    requires |pre| > 0 ==> !IsJsSpace(pre[0])
    requires |name| > 0
    requires if |rest| > 0 then !IsJsSpace(rest[|rest| - 1]) else !IsJsSpace(name[|name| - 1])
    ensures Trim(pre + UrlMarker + name + rest) == pre + UrlMarker + name + rest
  {
    var s := pre + UrlMarker + name + rest;
    assert s[0] == (if |pre| > 0 then pre[0] else 't');
    assert s[|s| - 1] == (if |rest| > 0 then rest[|rest| - 1] else name[|name| - 1]);
    TrimKeeps(s);
  }

  lemma UrlMatch(pre: string, name: string, rest: string)
    requires NoMarkerStart(pre)
    requires |name| > 0 && forall c :: c in name ==> c !in "/?"
    requires rest == "" || rest[0] in "/?"
    ensures Contains(pre + UrlMarker + name + rest, UrlMarker)
    ensures FirstMatch(pre + UrlMarker + name + rest, 0) == Some(name)
  {
    var s := pre + UrlMarker + name + rest;
    var p, k := |pre|, |pre| + |UrlMarker|;
    assert s[p..k] == UrlMarker;
    assert s[k..k + |name|] == name;
    PrefixNoMarker(pre, s);
    NameChars(pre + UrlMarker, name, rest);
    MarkerMatch(s, p, |name|);
  }

  /** The name is recovered from a profile URL: any prefix in which the marker
      cannot start, the marker, the name, then nothing or a path or query part. */
  lemma ProfileNameOfUrl(pre: string, name: string, rest: string)
    requires NoMarkerStart(pre)
    requires |name| > 0 && name[0] != '@' && forall c :: c in name ==> c !in "/?"
    requires rest == "" || rest[0] in "/?"
    requires |pre| > 0 ==> !IsJsSpace(pre[0])
    requires if |rest| > 0 then !IsJsSpace(rest[|rest| - 1]) else !IsJsSpace(name[|name| - 1])
    ensures ProfileName(pre + UrlMarker + name + rest) == name
  {
    UrlTrimmed(pre, name, rest);
    UrlMatch(pre, name, rest);
    ProfileNameOfMatch(pre + UrlMarker + name + rest, name);
  }


  /** The usual form of a profile URL. */
  lemma ProfileNameOfHttpsUrl(name: string)
    requires |name| > 0 && name[0] != '@' && !IsJsSpace(name[|name| - 1])
    requires forall c :: c in name ==> c !in "/?"
    ensures ProfileName("https://www." + UrlMarker + name) == name
  {
    var pre := "https://www.";
    assert NoMarkerStart(pre) by {
      forall i | 0 <= i < |pre| && pre[i] == 't' ensures i + 1 < |pre| && pre[i + 1] != 'i' {
        assert i == 1 || i == 2;
      }
    }
    assert name[0] in name;
    assert pre + UrlMarker + name + "" == pre + UrlMarker + name;
    ProfileNameOfUrl(pre, name, "");
  }

  // ------------------------------------------------------------ period

  /** `oldestPostDateUnified`: the listed spans, with "2 months" (profile searches) or
      "3 months" (keyword searches) for a missing or 'all' period and for any other. */
  function PeriodText(period: Option<string>, isProfile: bool): (r: string)
    ensures period.None? || period.value == "all" ==> r == (if isProfile then "2 months" else "3 months")
  {
    var fallback := if isProfile then "2 months" else "3 months";
    if period.None? || period.value == "" || period.value == "all" then fallback
    else
      match period.value
      case "day" => "1 day"
      case "week" => "1 week"
      case "month" => "1 month"
      case "month2" => "2 months"
      case "month3" => "3 months"
      case "month6" => "6 months"
      case "year" => "1 year"
      case _ => fallback
  }

  /** The spans do not depend on the kind of search. */
  lemma PeriodTextSame(p: string)
    requires p in {"day", "week", "month", "month2", "month3", "month6", "year"}
    ensures PeriodText(Some(p), true) == PeriodText(Some(p), false)
  {
  }

  // ------------------------------------------------- filter, sort and slice

  datatype Video = Video(viewCount: int, likeCount: int, publishedAt: int)

  datatype SortBy = Trending | Recent | MostLiked

  function Views(v: Video): real { v.viewCount as real }
  function Published(v: Video): real { v.publishedAt as real }
  function Likes(v: Video): real { v.likeCount as real }

  function SortKey(s: SortBy): Video -> real
  {
    match s
    case Trending => Views
    case Recent => Published
    case MostLiked => Likes
  }

  /** The videos with at least `minViews` views, in order. */
  function AtLeastViews(videos: seq<Video>, minViews: int): (r: seq<Video>)
    ensures forall i :: 0 <= i < |r| ==> r[i] in videos && r[i].viewCount >= minViews
    ensures forall i :: 0 <= i < |videos| && videos[i].viewCount >= minViews ==> videos[i] in r
    ensures |r| <= |videos|
  {
    if |videos| == 0 then []
    else
      var init := videos[..|videos| - 1];
      var last := videos[|videos| - 1];
      assert videos == init + [last];
      AtLeastViews(init, minViews) + (if last.viewCount >= minViews then [last] else [])
  }

  /** The response's videos: filtered by `minViews` when it is positive, sorted by
      the chosen key (largest first), at most `limit` of them. */
  function FinalResults(videos: seq<Video>, minViews: Option<int>, sortBy: Option<SortBy>, limit: nat): seq<Video>
  {
    var filtered := if minViews.Some? && minViews.value > 0 then AtLeastViews(videos, minViews.value) else videos;
    var sorted := if sortBy.Some? then SortDesc(filtered, SortKey(sortBy.value)) else filtered;
    Take(sorted, limit)
  }

  /** At most `limit` videos, each one of the input meeting the view floor. */
  lemma FinalResultsMembers(videos: seq<Video>, minViews: Option<int>, sortBy: Option<SortBy>, limit: nat)
    ensures |FinalResults(videos, minViews, sortBy, limit)| <= limit
    ensures forall v :: v in FinalResults(videos, minViews, sortBy, limit) ==>
              v in videos && (minViews.Some? && minViews.value > 0 ==> v.viewCount >= minViews.value)
  {
    var filtered := if minViews.Some? && minViews.value > 0 then AtLeastViews(videos, minViews.value) else videos;
    var sorted := if sortBy.Some? then SortDesc(filtered, SortKey(sortBy.value)) else filtered;
    if sortBy.Some? {
      SortKeeps(filtered, SortKey(sortBy.value));
    }
    TakeKeeps(sorted, limit);
  }

  /** With a sort key the results come in descending order of that key. */
  lemma FinalResultsSorted(videos: seq<Video>, minViews: Option<int>, sortBy: SortBy, limit: nat)
    ensures SortedDesc(FinalResults(videos, minViews, Some(sortBy), limit), SortKey(sortBy))
  {
    var filtered := if minViews.Some? && minViews.value > 0 then AtLeastViews(videos, minViews.value) else videos;
    TakeSorted(SortDesc(filtered, SortKey(sortBy)), SortKey(sortBy), limit);
  }

  /** The videos the view floor keeps: all of them unless `minViews` is positive. */
  function Filtered(videos: seq<Video>, minViews: Option<int>): seq<Video>
  {
    if minViews.Some? && minViews.value > 0 then AtLeastViews(videos, minViews.value) else videos
  }

  /** With a sort key the results are the best `limit` of the filtered videos: as
      many as `limit` allows, the first ones of the filtered videos sorted by the
      key, and no filtered video left out ranks above one that was kept. */
  lemma {:induction false} FinalResultsTop(videos: seq<Video>, minViews: Option<int>, sortBy: SortBy, limit: nat)
    ensures var filtered := Filtered(videos, minViews);
            var r := FinalResults(videos, minViews, Some(sortBy), limit);
            |r| == (if limit < |filtered| then limit else |filtered|)
            && r == SortDesc(filtered, SortKey(sortBy))[..|r|]
            && multiset(r) <= multiset(filtered)
            && forall x, y :: x in multiset(filtered) - multiset(r) && y in r ==>
                 SortKey(sortBy)(x) <= SortKey(sortBy)(y)
  {
    var filtered := Filtered(videos, minViews);
    var rank := SortKey(sortBy);
    var s := SortDesc(filtered, rank);
    var r := FinalResults(videos, minViews, Some(sortBy), limit);
    assert r == Take(s, limit);
    var k := |r|;
    assert s == r + s[k..];
    assert multiset(s) == multiset(r) + multiset(s[k..]);
    forall x, y | x in multiset(filtered) - multiset(r) && y in r
      ensures rank(x) <= rank(y)
    {
      assert x in multiset(s[k..]);
      var j :| 0 <= j < |s[k..]| && s[k..][j] == x;
      var i :| 0 <= i < k && r[i] == y;
      assert s[i] == y && s[k + j] == x;
    }
  }

  /** Without a sort key the results are the first `limit` filtered videos, in
      input order. */
  lemma FinalResultsUnsorted(videos: seq<Video>, minViews: Option<int>, limit: nat)
    ensures var filtered := Filtered(videos, minViews);
            var r := FinalResults(videos, minViews, None, limit);
            |r| == (if limit < |filtered| then limit else |filtered|) && r == filtered[..|r|]
  {
  }

  /** With no filter and no sort the results are the first `limit` videos in input
      order. */
  lemma FinalResultsPlain(videos: seq<Video>, minViews: Option<int>, limit: nat)
    requires minViews.None? || minViews.value <= 0
    ensures FinalResults(videos, minViews, None, limit) == Take(videos, limit)
  {
  }

  lemma SortKeeps(s: seq<Video>, rank: Video -> real)
    ensures forall v :: v in SortDesc(s, rank) ==> v in s
  {
    var r := SortDesc(s, rank);
    forall v | v in r ensures v in s {
      assert v in multiset(r);
    }
  }

  lemma TakeKeeps(s: seq<Video>, n: nat)
    ensures forall v :: v in Take(s, n) ==> v in s
  {
    forall v | v in Take(s, n) ensures v in s {
      var i :| 0 <= i < |Take(s, n)| && Take(s, n)[i] == v;
      assert s[i] == v;
    }
  }

  lemma TakeSorted(s: seq<Video>, rank: Video -> real, n: nat)
    requires SortedDesc(s, rank)
    ensures SortedDesc(Take(s, n), rank)
  {
    var r := Take(s, n);
    forall i, j | 0 <= i < j < |r| ensures rank(r[i]) >= rank(r[j]) {
      assert r[i] == s[i] && r[j] == s[j];
    }
  }


}
