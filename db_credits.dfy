/** The search-history row and credit charge written when a queued run completes
    (`saveQueueSearchHistoryAndCredits`, lib/db-queue-manager.ts:738-886). */
module DbCredits {
  import opened Wrappers
  import opened Text
  import opened DbStore
  import opened Arith

  /** `parseInt(original_payload?.limit || '30')`: an absent or zero limit is 30. */
  function OriginalLimit(limit: Option<nat>): (r: nat)
    ensures r > 0
    ensures limit.Some? && limit.value != 0 ==> r == limit.value
  {
    if limit.None? || limit.value == 0 then 30 else limit.value
  }

  /** `Math.floor((originalLimit / 30) * 100)`, in exact arithmetic. */
  function BaseCredits(limit: nat): nat
  {
    (limit * 100) / 30
  }

  /** `Math.floor((n / originalLimit) * baseCredits) || baseCredits`. */
  function Prorated(n: nat, limit: nat, base: nat): (r: nat)
    requires limit > 0
  {
    var p := (n * base) / limit;
    if p == 0 then base else p
  }

  /** The proration never charges more than the base for results up to the limit,
      charges the full base for exactly the limit, and never charges nothing when
      the base is positive. */
  lemma ProratedBounds(n: nat, limit: nat, base: nat)
    requires limit > 0
    ensures n <= limit ==> Prorated(n, limit, base) <= base
    ensures n == limit ==> Prorated(n, limit, base) == base
    ensures base > 0 ==> Prorated(n, limit, base) > 0
  {
    if n <= limit {
      MulMonotone(base, n, limit);
      assert n * base <= base * limit;
      DivBound(n * base, limit, base);
    }
    if n == limit {
      MulDiv(base, limit);
      assert n * base == base * limit;
    }
  }

  /** The history fields and the credits of one completed task. */
  datatype Charge = Charge(platform: string, searchType: string, keyword: string, credits: nat)

  /** `list?.[0] || 'unknown'`. */
  function FirstOr(list: seq<string>): string
  {
    if |list| > 0 && list[0] != "" then list[0] else "unknown"
  }

  /** The platform, search type, keyword and credits chosen from the task id, tested
      in the source's order. */
  function ChargeFor(taskId: string, input: TaskInput, limit: Option<nat>, n: nat): (c: Charge)
  {
    var lim := OriginalLimit(limit);
    var prorated := Prorated(n, lim, BaseCredits(lim));
    if Contains(taskId, "tiktok-scraper-task") then
      if Contains(taskId, "tiktok-scraper-task-2") then Charge("tiktok", "hashtag", FirstOr(input.hashtags), prorated)
      else Charge("tiktok", "profile", FirstOr(input.profiles), prorated)
    else if Contains(taskId, "instagram-hashtag-scraper-task") then
      Charge("instagram", "hashtag", FirstOr(input.hashtags), prorated)
    else if Contains(taskId, "instagram-profile-scraper-task") then
      Charge("instagram", "profile", FirstOr(input.usernames), 0)
    else if Contains(taskId, "transcriber-task") then
      var url := input.startUrls;
      if Contains(url, "youtube.com") || Contains(url, "youtu.be") then Charge("youtube", "subtitle_extraction", "자막 추출", 10)
      else if Contains(url, "tiktok.com") then Charge("tiktok", "subtitle_extraction", "자막 추출", 20)
      else if Contains(url, "instagram.com") then Charge("instagram", "subtitle_extraction", "자막 추출", 20)
      else Charge("tiktok", "subtitle_extraction", "자막 추출", 20)
    else Charge("unknown", "unknown", "unknown", 0)
  }

  /** What each kind of task costs: hashtag and TikTok runs pay the proration of
      `floor(limit/30*100)` (a positive amount whenever the limit is at least 1 after
      defaulting, and at most the base for results within the limit); profile lookups
      and unknown tasks are free; transcriptions cost 10 for YouTube and 20 otherwise. */
  lemma ChargeRules(taskId: string, input: TaskInput, limit: Option<nat>, n: nat)
    ensures var c := ChargeFor(taskId, input, limit, n);
            var lim := OriginalLimit(limit);
            ((c.platform == "tiktok" && c.searchType != "subtitle_extraction")
               || c.searchType == "hashtag") ==>
              0 < c.credits && (n <= lim ==> c.credits <= BaseCredits(lim))
    ensures var c := ChargeFor(taskId, input, limit, n);
            (c.searchType == "profile" && c.platform == "instagram") || c.platform == "unknown" ==> c.credits == 0
    ensures var c := ChargeFor(taskId, input, limit, n);
            c.searchType == "subtitle_extraction" ==> c.credits == (if c.platform == "youtube" then 10 else 20)
  {
    var lim := OriginalLimit(limit);
    ProratedBounds(n, lim, BaseCredits(lim));
  }

  function Max0(x: int): nat { if x < 0 then 0 else x }

  /** `saveQueueSearchHistoryAndCredits`: when the history insert succeeds, one history
      row is appended, then a positive charge lowers the user's balance, floored at 0.
      A failed insert throws before anything is written. */
  function SaveHistory(db: Db, item: Row, items: seq<Item>, historyOk: bool): Db
  {
    if !historyOk then db
    else
      var c := ChargeFor(item.taskId, item.input, item.originalLimit, |items|);
      var db1 := db.(history := db.history + [HistoryRow(item.userId, c.platform, c.searchType, c.keyword, |items|, c.credits)]);
      if c.credits > 0 && item.userId in db1.balances then
        db1.(balances := db1.balances[item.userId := Max0(db1.balances[item.userId] - c.credits)])
      else db1
  }

  /** Saving touches only the history and the one user's balance, which becomes
      `max(0, balance - credits)`: it never grows and drops by at most the charge. */
  lemma SaveHistoryEffect(db: Db, item: Row, items: seq<Item>, historyOk: bool)
    ensures var r := SaveHistory(db, item, items, historyOk);
            r.queue == db.queue && r.nextId == db.nextId
            && r.balances.Keys == db.balances.Keys
            && (forall u :: u in db.balances && u != item.userId ==> r.balances[u] == db.balances[u])
    ensures var r := SaveHistory(db, item, items, historyOk);
            var c := ChargeFor(item.taskId, item.input, item.originalLimit, |items|);
            item.userId in db.balances ==>
              r.balances[item.userId] == (if historyOk then Max0(db.balances[item.userId] - c.credits) else db.balances[item.userId])
              && r.balances[item.userId] <= db.balances[item.userId]
    ensures var r := SaveHistory(db, item, items, historyOk);
            |r.history| == |db.history| + (if historyOk then 1 else 0)
  {
  }
}
