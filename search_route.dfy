/** The Instagram search route (app/api/search/route.ts): the plan gate, the credit
    reservation and its settlement, keyword normalisation, the fair split of the
    result limit over keywords, the run sizes per keyword, the stage-1 URL
    de-duplication and the daily / monthly search counters. Apify runs, Supabase and
    the consume endpoint are oracles; the consume endpoint's arithmetic is
    `CreditsConsume.Adjust`. */
module SearchRoute {
  import opened Wrappers
  import opened Seqs
  import opened Text
  import opened CreditsConsume

  // ---------------------------------------------------------------- plan gate

  /** `prof?.plan || 'free'`. */
  function PlanOrFree(plan: string): string { if plan == "" then "free" else plan }

  /** The 403 message a non-admin gets for a limit above the plan, if any. */
  function PlanGate(isAdmin: bool, plan: string, limit: string): (r: Option<string>)
  {
    if isAdmin then None
    else
      var p := PlanOrFree(plan);
      if p == "free" && limit != "30" && limit != "5" then Some("FREE plan allows only 30 results.")
      else if p == "starter" && (limit == "90" || limit == "120") then Some("STARTER plan allows up to 60 results.")
      else if p == "pro" && limit == "120" then Some("PRO plan allows up to 90 results.")
      else None
  }

  /** Admins pass; free allows only 30 and 5; starter refuses 90 and 120; pro refuses
      120; every other plan, business included, passes. */
  lemma PlanGateRules(isAdmin: bool, plan: string, limit: string)
    ensures isAdmin ==> PlanGate(isAdmin, plan, limit).None?
    ensures !isAdmin && PlanOrFree(plan) == "free" ==>
              (PlanGate(isAdmin, plan, limit).None? <==> limit == "30" || limit == "5")
    ensures !isAdmin && plan == "starter" ==>
              (PlanGate(isAdmin, plan, limit).None? <==> limit != "90" && limit != "120")
    ensures !isAdmin && plan == "pro" ==> (PlanGate(isAdmin, plan, limit).None? <==> limit != "120")
    ensures PlanOrFree(plan) !in {"free", "starter", "pro"} ==> PlanGate(isAdmin, plan, limit).None?
  {
  }

  // ------------------------------------------------------ reservation and settle

  /** Credits reserved before the search: none for developers and admins, else 100
      per 30 requested results for the four listed limits and none otherwise. */
  function ReserveAmount(isDev: bool, isAdmin: bool, limit: string): (r: nat)
    ensures r in {0, 100, 200, 300, 400}
    ensures (isDev || isAdmin) ==> r == 0
    ensures !isDev && !isAdmin && limit in {"30", "60", "90", "120"} ==> r > 0
    ensures limit !in {"30", "60", "90", "120"} ==> r == 0
  {
    if isDev || isAdmin then 0
    else if limit == "30" then 100
    else if limit == "60" then 200
    else if limit == "90" then 300
    else if limit == "120" then 400
    else 0
  }

  /** `Math.floor((n / 30) * 100)`, in exact arithmetic. */
  function ToCharge(n: nat): nat { (n * 100) / 30 }

  /** The commit and rollback `settle(n)` sends, or nothing when nothing was reserved. */
  function Settle(didReserve: bool, reserve: nat, n: nat): (r: Option<(nat, nat)>)
    ensures r.None? <==> !didReserve || reserve == 0
    ensures r.Some? ==> r.value.0 + r.value.1 == reserve
    ensures r.Some? ==> r.value.0 == (if ToCharge(n) < reserve then ToCharge(n) else reserve)
  {
    if !didReserve || reserve == 0 then None
    else
      var toCharge := ToCharge(n);
      var rollback := if reserve - toCharge < 0 then 0 else reserve - toCharge;
      var commit := if reserve < toCharge then reserve else toCharge;
      Some((commit, rollback))
  }

  /** The reservation followed by its settlement, as the consume endpoint applies
      them: refused when the balance is short; otherwise the user ends up paying
      exactly the committed part of the reservation, the rest returns to the
      balance and the reservation is back where it was. */
  function ReserveThenSettle(a: Account, reserve: nat, n: nat): Result<Account, Reply>
  {
    if reserve == 0 then Success(a)
    else
      match Adjust(a, reserve, 0, 0)
      case Failure(e) => Failure(e)
      case Success(held) =>
        var (commit, rollback) := Settle(true, reserve, n).value;
        Adjust(held, 0, commit, rollback)
  }

  lemma ReserveThenSettleCharge(a: Account, reserve: nat, n: nat)
    ensures ReserveThenSettle(a, reserve, n).Failure? <==> a.balance < reserve
    ensures ReserveThenSettle(a, reserve, n).Success? ==>
              var b := ReserveThenSettle(a, reserve, n).value;
              b.reserved == a.reserved
              && b.balance == a.balance - (if ToCharge(n) < reserve then ToCharge(n) else reserve)
  {
    AdjustCases(a, reserve, 0, 0);
  }

  // ------------------------------------------------- keyword credits as written

  /** `Math.floor(sorted.length / 30) * 100`, the second charge the route takes. */
  function DirectCharge(n: nat): nat { (n / 30) * 100 }

  /** The keyword search as written: reserve, settle, then the "simplified
      post-processing" lowers the balance again by `floor(n/30)*100`, floored at 0. */
  function KeywordSearchCredits(a: Account, reserve: nat, n: nat): Result<Account, Reply>
  {
    match ReserveThenSettle(a, reserve, n)
    case Failure(e) => Failure(e)
    case Success(b) =>
      var actual := DirectCharge(n);
      if actual > 0 then
        Success(b.(balance := if b.balance < actual then 0 else b.balance - actual))
      else Success(b)
  }

  /** A 30-result search with a balance of 200 costs 200 credits: 100 committed from
      the reservation and 100 again from the balance. */
  lemma KeywordSearchChargesTwice()
    ensures KeywordSearchCredits(Account(200, 0), 100, 30) == Success(Account(0, 0))
  {
    AdjustCases(Account(200, 0), 100, 0, 0);
    assert Adjust(Account(100, 100), 0, 100, 0) == Success(Account(100, 0));
  }

  /** The keyword search charging through the reservation only. */
  function KeywordSearchCreditsCorrected(a: Account, reserve: nat, n: nat): (r: Result<Account, Reply>)
  {
    ReserveThenSettle(a, reserve, n)
  }

  /** With one charge the user pays `min(reserve, floor(n/30*100))`: never more than
      was reserved, and exactly 100 per 30 results within the reservation. */
  lemma KeywordSearchChargesOnce(a: Account, reserve: nat, n: nat)
    requires a.balance >= reserve
    ensures KeywordSearchCreditsCorrected(a, reserve, n).Success?
    ensures var b := KeywordSearchCreditsCorrected(a, reserve, n).value;
            a.balance + a.reserved - (b.balance + b.reserved) == (if ToCharge(n) < reserve then ToCharge(n) else reserve)
            && a.balance + a.reserved - (b.balance + b.reserved) <= reserve
  {
    ReserveThenSettleCharge(a, reserve, n);
  }

  // ------------------------------------------------------ keyword normalisation

  /** The characters the route strips from a keyword: the listed punctuation and
      any white space. */
  predicate IsStripped(c: char)
  {
    c in "!?.,:;-+=*&%$#@/\\~^|<>()[]{}\"'`" || IsJsSpace(c)
  }

  function RemoveStripped(s: string): (r: string)
    ensures forall i :: 0 <= i < |r| ==> !IsStripped(r[i])
    ensures |r| <= |s|
  {
    if |s| == 0 then "" else RemoveStripped(s[..|s| - 1]) + (if IsStripped(s[|s| - 1]) then "" else [s[|s| - 1]])
  }

  /** One keyword: a leading '#' dropped, trimmed, the stripped characters removed.
      NFKC normalisation is not modelled. */
  function NormalizeKeyword(k: string): string
  {
    var noHash := if |k| > 0 && k[0] == '#' then k[1..] else k;
    RemoveStripped(Trim(noHash))
  }

  predicate NonEmpty(s: string) { s != "" }

  /** `keywords` when it is a non-empty list, else `[keyword || '']`. */
  function RawKeywords(keywords: seq<string>, keyword: string): seq<string>
  {
    if |keywords| > 0 then keywords else [keyword]
  }

  function NormalizeAll(raw: seq<string>): (r: seq<string>)
    ensures |r| == |raw| && forall i :: 0 <= i < |raw| ==> r[i] == NormalizeKeyword(raw[i])
  {
    seq(|raw|, i requires 0 <= i < |raw| => NormalizeKeyword(raw[i]))
  }

  /** The normalised keywords: empty ones dropped, duplicates removed keeping the
      first, at most 3. */
  function NormalizedKeywords(raw: seq<string>): seq<string>
  {
    Take(FirstOccurrences(Filter(NormalizeAll(raw), NonEmpty), Identity), 3)
  }

  /** At most three keywords, pairwise distinct. */
  lemma NormalizedKeywordsDistinct(raw: seq<string>)
    ensures var r := NormalizedKeywords(raw);
      |r| <= 3 && forall i, j :: 0 <= i < j < |r| ==> r[i] != r[j]
  {
    var unique := FirstOccurrences(Filter(NormalizeAll(raw), NonEmpty), Identity);
    var r := Take(unique, 3);
    forall i, j | 0 <= i < j < |r| ensures r[i] != r[j] {
      assert r[i] == unique[i] && r[j] == unique[j];
      assert Identity(unique[i]) != Identity(unique[j]);
    }
  }

  /** Each keyword kept is not empty, holds no stripped character and is the
      normalisation of some input keyword. */
  lemma NormalizedKeywordsFrom(raw: seq<string>, k: string)
    requires k in NormalizedKeywords(raw)
    ensures k != "" && forall c :: c in k ==> !IsStripped(c)
    ensures exists j :: 0 <= j < |raw| && k == NormalizeKeyword(raw[j])
  {
    var normalized := NormalizeAll(raw);
    var kept := Filter(normalized, NonEmpty);
    var unique := FirstOccurrences(kept, Identity);
    var r := Take(unique, 3);
    var i :| 0 <= i < |r| && r[i] == k;
    assert k == unique[i];
    FirstOccurrencesInOrder(kept, Identity);
    SubsequenceMembers(unique, kept);
    FilterMembers(normalized, NonEmpty, k);
    var j :| 0 <= j < |normalized| && normalized[j] == k;
  }

  // ------------------------------------------------------------ fair split

  /** `count` targets of `base`, the first `rem` of them one more. */
  function Targets(base: nat, rem: nat, count: nat): (r: seq<nat>)
    ensures |r| == count
    ensures forall i :: 0 <= i < count ==> r[i] == base + (if i < rem then 1 else 0)
  {
    if count == 0 then [] else Targets(base, rem, count - 1) + [base + (if count - 1 < rem then 1 else 0)]
  }

  /** `perTarget`: `limit / k` each, one more for the first `limit % k` keywords. */
  function PerTarget(limit: nat, count: nat): (r: seq<nat>)
    ensures |r| == count
  {
    var k := if count < 1 then 1 else count;
    Targets(limit / k, limit % k, count)
  }

  lemma {:induction false} SumOfTargets(base: nat, rem: nat, count: nat)
    ensures Sum(Targets(base, rem, count)) == count * base + (if rem < count then rem else count)
  {
    if count > 0 {
      var s := Targets(base, rem, count);
      assert s[..count - 1] == Targets(base, rem, count - 1);
      SumOfTargets(base, rem, count - 1);
      assert count * base == (count - 1) * base + base;
    }
  }

  /** For at least one keyword the targets add up to the limit, differ by at most 1,
      and the larger ones come first. */
  lemma PerTargetFair(limit: nat, count: nat)
    requires count >= 1
    ensures Sum(PerTarget(limit, count)) == limit
    ensures forall i, j :: 0 <= i < j < count ==>
              PerTarget(limit, count)[j] <= PerTarget(limit, count)[i] <= PerTarget(limit, count)[j] + 1
  {
    var base, rem := limit / count, limit % count;
    SumOfTargets(base, rem, count);
    assert count * base + rem == limit;
  }

  /** `Math.ceil(n * 1.3)` for two or more keywords, else `n`, in exact arithmetic. */
  function Oversample(n: nat, keywordCount: nat): (r: nat)
    ensures keywordCount < 2 ==> r == n
    ensures keywordCount >= 2 ==> 10 * r >= 13 * n && 10 * r < 13 * n + 10
  {
    if keywordCount >= 2 then (13 * n + 9) / 10 else n
  }

  /** `want`: the oversampled target, at least 1. */
  function Want(target: nat, keywordCount: nat): (r: nat)
    ensures r >= 1 && r >= target
  {
    var o := Oversample(target, keywordCount);
    if o < 1 then 1 else o
  }

  // ------------------------------------------------------------ run sizes

  /** The sizes of the hashtag runs for one keyword: `ceil(want / 30)` runs of
      `min(30, want - b*30)` results each. */
  method RunSizes(want: nat) returns (sizes: seq<nat>)
    requires want >= 1
    ensures |sizes| == (want + 29) / 30
    ensures Sum(sizes) == want
    ensures forall i :: 0 <= i < |sizes| ==> 1 <= sizes[i] <= 30
    ensures forall i :: 0 <= i < |sizes| - 1 ==> sizes[i] == 30
  {
    var batches := (want + 29) / 30;
    sizes := [];
    var b := 0;
    while b < batches
      invariant 0 <= b <= batches && |sizes| == b
      invariant Sum(sizes) == if b * 30 <= want then b * 30 else want
      invariant forall i :: 0 <= i < |sizes| ==> 1 <= sizes[i] <= 30
      invariant b < batches ==> forall i :: 0 <= i < |sizes| ==> sizes[i] == 30
      invariant forall i :: 0 <= i < |sizes| - 1 ==> sizes[i] == 30
    {
      var slice := if 30 < want - b * 30 then 30 else want - b * 30;
      if slice <= 0 {
        break;
      }
      assert (sizes + [slice])[..|sizes|] == sizes;
      sizes := sizes + [slice];
      b := b + 1;
    }
  }

  // -------------------------------------------------- stage-1 de-duplication

  /** The items with a URL, in order. */
  function WithUrl<T>(items: seq<T>, urlOf: T -> string): (r: seq<T>)
    ensures forall i :: 0 <= i < |r| ==> r[i] in items && urlOf(r[i]) != ""
    ensures forall i :: 0 <= i < |items| && urlOf(items[i]) != "" ==> items[i] in r
  {
    if |items| == 0 then []
    else
      var init := items[..|items| - 1];
      assert items == init + [items[|items| - 1]];
      WithUrl(init, urlOf) + (if urlOf(items[|items| - 1]) != "" then [items[|items| - 1]] else [])
  }

  /** The stage-1 items: those with a URL, first per URL, in input order. */
  function Stage1<T>(items: seq<T>, urlOf: T -> string): seq<T>
  {
    FirstOccurrences(WithUrl(items, urlOf), urlOf)
  }

  /** The stage-1 loop with its `seenStage1` set. */
  method CollectStage1<T>(items: seq<T>, urlOf: T -> string) returns (kept: seq<T>)
    ensures kept == Stage1(items, urlOf)
  {
    kept := [];
    var seen: set<string> := {};
    for i := 0 to |items|
      invariant kept == Stage1(items[..i], urlOf)
      invariant seen == Keys(WithUrl(items[..i], urlOf), urlOf)
    {
      var pre := WithUrl(items[..i], urlOf);
      assert items[..i + 1][..i] == items[..i];
      var u := urlOf(items[i]);
      if u == "" {
        assert WithUrl(items[..i + 1], urlOf) == pre;
        continue;
      }
      assert WithUrl(items[..i + 1], urlOf) == pre + [items[i]];
      assert (pre + [items[i]])[..|pre|] == pre;
      KeysSnoc(pre, items[i], urlOf);
      if u in seen {
        continue;
      }
      seen := seen + {u};
      kept := kept + [items[i]];
    }
    assert items[..|items|] == items;
  }

  /** `reelUrls`: the distinct stage-1 URLs, at most `limit` of them. */
  function ReelUrls<T>(stage1: seq<T>, urlOf: T -> string, limit: nat): seq<string>
  {
    Take(FirstOccurrences(seq(|stage1|, i requires 0 <= i < |stage1| => urlOf(stage1[i])), Identity), limit)
  }

  /** The URL list has no duplicates and at most `limit` entries. */
  lemma ReelUrlsDistinct<T>(stage1: seq<T>, urlOf: T -> string, limit: nat)
    ensures var r := ReelUrls(stage1, urlOf, limit);
      |r| <= limit && forall i, j :: 0 <= i < j < |r| ==> r[i] != r[j]
  {
    var urls := seq(|stage1|, i requires 0 <= i < |stage1| => urlOf(stage1[i]));
    var unique := FirstOccurrences(urls, Identity);
    var r := Take(unique, limit);
    forall i, j | 0 <= i < j < |r| ensures r[i] != r[j] {
      assert r[i] == unique[i] && r[j] == unique[j];
      assert Identity(unique[i]) != Identity(unique[j]);
    }
  }

  /** Every URL sent on is the non-empty URL of an input item. */
  lemma ReelUrlsFrom<T>(items: seq<T>, urlOf: T -> string, limit: nat, u: string)
    requires u in ReelUrls(Stage1(items, urlOf), urlOf, limit)
    ensures u != "" && exists x :: x in items && urlOf(x) == u
  {
    var withUrl := WithUrl(items, urlOf);
    var stage1 := Stage1(items, urlOf);
    var urls := seq(|stage1|, i requires 0 <= i < |stage1| => urlOf(stage1[i]));
    var unique := FirstOccurrences(urls, Identity);
    var r := Take(unique, limit);
    var i :| 0 <= i < |r| && r[i] == u;
    assert u == unique[i];
    FirstOccurrencesInOrder(urls, Identity);
    SubsequenceMembers(unique, urls);
    assert u in unique;
    assert u in urls;
    var j :| 0 <= j < |urls| && urls[j] == u;
    FirstOccurrencesInOrder(withUrl, urlOf);
    SubsequenceMembers(stage1, withUrl);
    assert stage1[j] in stage1;
    var k :| 0 <= k < |withUrl| && withUrl[k] == stage1[j];
    assert withUrl[k] in items;
  }

  /** The search stops with `TooFewResults` when stage 1 returned at most 3 raw
      items, after settling 0 results: the whole reservation is rolled back. */
  lemma TooFewRollsBack(a: Account, reserve: nat)
    requires a.balance >= reserve
    ensures ReserveThenSettle(a, reserve, 0) == Success(a)
  {
    AdjustCases(a, reserve, 0, 0);
  }

  // ------------------------------------------------------------ counters

  /** A `search_counters` row; a missing date is "". */
  datatype Counters = Counters(monthStart: string, monthCount: nat, todayDate: string, todayCount: nat)

  /** The counter update after a search: a row from another month or day starts that
      counter again at 0, then both counters grow by 1. */
  function BumpCounters(row: Option<Counters>, firstOfMonth: string, today: string): (r: Counters)
    ensures r.monthStart == firstOfMonth && r.todayDate == today
    ensures r.monthCount == 1 + (if row.Some? && row.value.monthStart in {"", firstOfMonth} then row.value.monthCount else 0)
    ensures r.todayCount == 1 + (if row.Some? && row.value.todayDate in {"", today} then row.value.todayCount else 0)
  {
    var monthStart := if row.Some? && row.value.monthStart != "" then row.value.monthStart else firstOfMonth;
    var monthCount := if row.Some? then row.value.monthCount else 0;
    var todayDate := if row.Some? && row.value.todayDate != "" then row.value.todayDate else today;
    var todayCount := if row.Some? then row.value.todayCount else 0;
    var monthCount' := if monthStart != firstOfMonth then 0 else monthCount;
    var todayCount' := if todayDate != today then 0 else todayCount;
    Counters(firstOfMonth, monthCount' + 1, today, todayCount' + 1)
  }
}
