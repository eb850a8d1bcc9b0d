/** The usage-statistics routes: the search-stats scope of app/api/me/route.ts,
    app/api/me/stats/route.ts and app/api/me/recent-keywords/route.ts. Each counts
    the caller's `search_history` rows in time windows. Times are milliseconds since
    the epoch; the server's local time zone is a fixed offset east of UTC. The
    Supabase queries are parameters, `None` standing for a query error. */
module UsageStats {
  import opened Wrappers
  import opened Seqs

  /** One day in milliseconds. */
  const Day: nat := 24 * 60 * 60 * 1000

  /** A `search_history` row; a null `credits_used` is 0. */
  datatype Row = Row(createdAt: int, creditsUsed: nat, keyword: Option<string>, searchType: string, platform: string)

  /** The UTC date of a time, as a day number (`toISOString().split('T')[0]`). */
  function UtcDay(t: int): int
  {
    t / Day
  }

  /** Local midnight at or before `t` (`setHours(0, 0, 0, 0)`), for a zone `offset`
      milliseconds east of UTC. */
  function LocalMidnight(t: int, offset: int): (r: int)
    ensures t - Day < r <= t
  {
    t - (t + offset) % Day
  }

  lemma {:induction false} ModShift(x: int, k: nat)
    ensures (x + k * Day) % Day == x % Day
  {
    if k > 0 {
      ModShift(x, k - 1);
      assert x + k * Day == (x + (k - 1) * Day) + Day;
    }
  }

  /** Moving a time by whole days moves its local midnight by the same days. */
  lemma MidnightShift(t: int, offset: int, k: nat)
    ensures LocalMidnight(t + k * Day, offset) == LocalMidnight(t, offset) + k * Day
  {
    ModShift(t + offset, k);
    assert t + k * Day + offset == (t + offset) + k * Day;
  }

  // ---------------------------------------------------------------- windows

  /** The 30-day window of `/api/me/stats`: local midnight of the day 29 days ago. */
  function ThirtyDayStart(now: int, offset: int): int
  {
    LocalMidnight(now - 29 * Day, offset)
  }

  /** The 7-day window: local midnight of the day 6 days ago. */
  function SevenDayStart(now: int, offset: int): int
  {
    LocalMidnight(now - 6 * Day, offset)
  }

  /** `/api/me` takes today's local midnight and steps back 29 days. */
  function MonthStart(now: int, offset: int): int
  {
    LocalMidnight(now, offset) - 29 * Day
  }

  /** The 7-day window lies 23 days inside the 30-day window, and the month window of
      `/api/me` is the same as the 30-day window of `/api/me/stats`. */
  lemma WindowsNested(now: int, offset: int)
    ensures SevenDayStart(now, offset) == ThirtyDayStart(now, offset) + 23 * Day
    ensures MonthStart(now, offset) == ThirtyDayStart(now, offset)
  {
    MidnightShift(now - 29 * Day, offset, 23);
    assert now - 29 * Day + 23 * Day == now - 6 * Day;
    MidnightShift(now - 29 * Day, offset, 29);
    assert now - 29 * Day + 29 * Day == now;
  }

  // --------------------------------------------------------------- counters

  /** Rows whose UTC date is `day`. */
  function CountOnDay(rows: seq<Row>, day: int): nat
  {
    if |rows| == 0 then 0
    else CountOnDay(rows[..|rows| - 1], day) + (if UtcDay(rows[|rows| - 1].createdAt) == day then 1 else 0)
  }

  /** Rows created at or after `start`. */
  function CountSince(rows: seq<Row>, start: int): nat
  {
    if |rows| == 0 then 0
    else CountSince(rows[..|rows| - 1], start) + (if rows[|rows| - 1].createdAt >= start then 1 else 0)
  }

  /** The credits used by rows created at or after `start`. */
  function CreditsSince(rows: seq<Row>, start: int): nat
  {
    if |rows| == 0 then 0
    else CreditsSince(rows[..|rows| - 1], start) + (if rows[|rows| - 1].createdAt >= start then rows[|rows| - 1].creditsUsed else 0)
  }

  /** A later window start counts no more rows and no more credits, and never more
      rows than there are. */
  lemma {:induction false} WindowAntitone(rows: seq<Row>, a: int, b: int)
    requires a <= b
    ensures CountSince(rows, b) <= CountSince(rows, a) <= |rows|
    ensures CreditsSince(rows, b) <= CreditsSince(rows, a)
  {
    if |rows| > 0 {
      WindowAntitone(rows[..|rows| - 1], a, b);
    }
  }

  /** Every row of today's UTC date lies in any window starting a day or more before
      now, so today's count never exceeds the window's. */
  lemma {:induction false} TodayInWindow(rows: seq<Row>, now: int, start: int)
    requires start <= now - Day + 1
    ensures CountOnDay(rows, UtcDay(now)) <= CountSince(rows, start)
  {
    if |rows| > 0 {
      TodayInWindow(rows[..|rows| - 1], now, start);
    }
  }

  // ---------------------------------------------------------- /api/me/stats

  datatype Stats = Stats(todaySearches: nat, weekSearches: nat, monthSearches: nat,
                         weekCredits: nat, monthCredits: nat, totalSearches: nat)

  /** `GET /api/me/stats` after authentication: a failed query is a 500. */
  method StatsOf(history: Option<seq<Row>>, now: int, offset: int) returns (r: Result<Stats, nat>)
    ensures history.None? ==> r == Failure(500)
    ensures history.Some? ==>
              var rows := history.value;
              r == Success(Stats(CountOnDay(rows, UtcDay(now)),
                                 CountSince(rows, SevenDayStart(now, offset)), CountSince(rows, ThirtyDayStart(now, offset)),
                                 CreditsSince(rows, SevenDayStart(now, offset)), CreditsSince(rows, ThirtyDayStart(now, offset)),
                                 |rows|))
  {
    if history.None? {
      return Failure(500);
    }
    var rows := history.value;
    var thirtyDaysAgo := LocalMidnight(now - 29 * Day, offset);
    var sevenDaysAgo := LocalMidnight(now - 6 * Day, offset);
    var today := UtcDay(now);
    var todaySearches, thirtyDaySearches, sevenDaySearches, thirtyDayCredits, sevenDayCredits := 0, 0, 0, 0, 0;
    for i := 0 to |rows|
      invariant todaySearches == CountOnDay(rows[..i], today)
      invariant thirtyDaySearches == CountSince(rows[..i], thirtyDaysAgo)
      invariant sevenDaySearches == CountSince(rows[..i], sevenDaysAgo)
      invariant thirtyDayCredits == CreditsSince(rows[..i], thirtyDaysAgo)
      invariant sevenDayCredits == CreditsSince(rows[..i], sevenDaysAgo)
    {
      assert rows[..i + 1][..i] == rows[..i];
      var record := rows[i];
      if UtcDay(record.createdAt) == today {
        todaySearches := todaySearches + 1;
      }
      if record.createdAt >= thirtyDaysAgo {
        thirtyDaySearches := thirtyDaySearches + 1;
        thirtyDayCredits := thirtyDayCredits + record.creditsUsed;
      }
      if record.createdAt >= sevenDaysAgo {
        sevenDaySearches := sevenDaySearches + 1;
        sevenDayCredits := sevenDayCredits + record.creditsUsed;
      }
    }
    assert rows[..|rows|] == rows;
    r := Success(Stats(todaySearches, sevenDaySearches, thirtyDaySearches, sevenDayCredits, thirtyDayCredits, |rows|));
  }

  /** The week's figures never exceed the month's, the month's searches never exceed
      the total, and today's never exceed the week's. */
  lemma StatsOrdered(rows: seq<Row>, now: int, offset: int)
    ensures CountOnDay(rows, UtcDay(now)) <= CountSince(rows, SevenDayStart(now, offset))
    ensures CountSince(rows, SevenDayStart(now, offset)) <= CountSince(rows, ThirtyDayStart(now, offset)) <= |rows|
    ensures CreditsSince(rows, SevenDayStart(now, offset)) <= CreditsSince(rows, ThirtyDayStart(now, offset))
  {
    WindowsNested(now, offset);
    WindowAntitone(rows, ThirtyDayStart(now, offset), SevenDayStart(now, offset));
    TodayInWindow(rows, now, SevenDayStart(now, offset));
  }

  // ------------------------------------------------------------------ /api/me

  /** The searches the search-stats scope counts: everything but subtitle
      extraction. */
  predicate IsSearch(r: Row)
  {
    r.searchType != "subtitle_extraction"
  }

  /** The rows the credit query returns: `credits_used > 0`. */
  predicate UsedCredits(r: Row)
  {
    r.creditsUsed > 0
  }

  /** Rows without credits add nothing to a credit sum. */
  lemma {:induction false} CreditsOfUsed(rows: seq<Row>, start: int)
    ensures CreditsSince(Filter(rows, UsedCredits), start) == CreditsSince(rows, start)
  {
    if |rows| > 0 {
      var init := rows[..|rows| - 1];
      var last := rows[|rows| - 1];
      CreditsOfUsed(init, start);
      var f := Filter(init, UsedCredits);
      if UsedCredits(last) {
        assert Filter(rows, UsedCredits) == f + [last];
        assert (f + [last])[..|f|] == f;
      } else {
        assert Filter(rows, UsedCredits) == f;
      }
    }
  }

  /** The search-stats figures. */
  datatype SearchStats = SearchStats(today: nat, month: nat, monthCredits: nat)

  /** The two loops of the search-stats scope over the two query results. */
  method CountSearchStats(searches: seq<Row>, credited: seq<Row>, now: int, offset: int) returns (s: SearchStats)
    ensures s == SearchStats(CountOnDay(searches, UtcDay(now)), CountSince(searches, MonthStart(now, offset)),
                             CreditsSince(credited, MonthStart(now, offset)))
  {
    var todayStart := LocalMidnight(now, offset);
    var monthStart := todayStart - 29 * Day;
    var todayDate := UtcDay(now);
    var today, month, monthCredits := 0, 0, 0;
    for i := 0 to |searches|
      invariant today == CountOnDay(searches[..i], todayDate)
      invariant month == CountSince(searches[..i], monthStart)
    {
      assert searches[..i + 1][..i] == searches[..i];
      if UtcDay(searches[i].createdAt) == todayDate {
        today := today + 1;
      }
      if searches[i].createdAt >= monthStart {
        month := month + 1;
      }
    }
    for i := 0 to |credited|
      invariant monthCredits == CreditsSince(credited[..i], monthStart)
    {
      assert credited[..i + 1][..i] == credited[..i];
      if credited[i].createdAt >= monthStart {
        monthCredits := monthCredits + credited[i].creditsUsed;
      }
    }
    assert searches[..|searches|] == searches && credited[..|credited|] == credited;
    s := SearchStats(today, month, monthCredits);
  }

  /** Over the same history, `/api/me` reports the same month credits as
      `/api/me/stats` (subtitle extraction included in both) and no more searches in
      the month or today, since it leaves subtitle extraction out. */
  lemma {:induction false} SearchStatsAgree(rows: seq<Row>, now: int, offset: int)
    ensures CreditsSince(Filter(rows, UsedCredits), MonthStart(now, offset)) == CreditsSince(rows, ThirtyDayStart(now, offset))
    ensures CountSince(Filter(rows, IsSearch), MonthStart(now, offset)) <= CountSince(rows, ThirtyDayStart(now, offset))
    ensures CountOnDay(Filter(rows, IsSearch), UtcDay(now)) <= CountOnDay(rows, UtcDay(now))
  {
    WindowsNested(now, offset);
    CreditsOfUsed(rows, MonthStart(now, offset));
    FilterCounts(rows, MonthStart(now, offset), UtcDay(now));
  }

  lemma {:induction false} FilterCounts(rows: seq<Row>, start: int, day: int)
    ensures CountSince(Filter(rows, IsSearch), start) <= CountSince(rows, start)
    ensures CountOnDay(Filter(rows, IsSearch), day) <= CountOnDay(rows, day)
  {
    if |rows| > 0 {
      var init := rows[..|rows| - 1];
      var last := rows[|rows| - 1];
      FilterCounts(init, start, day);
      var f := Filter(init, IsSearch);
      if IsSearch(last) {
        assert Filter(rows, IsSearch) == f + [last];
        assert (f + [last])[..|f|] == f;
      } else {
        assert Filter(rows, IsSearch) == f;
      }
    }
  }

  /** A `profiles` row. */
  datatype Profile = Profile(role: string, plan: string)

  datatype MeReply =
    | Unauthorized
    | Me(role: string, plan: string, credits: nat, stats: Option<SearchStats>, reserved: Option<nat>)

  /** `GET /api/me`. `credits` is the balance and reservation, if a row exists;
      `history` the caller's rows, none when either query failed. An admin whose plan
      is not `business` is moved to it. */
  method GetMe(profile: Option<Profile>, signedIn: bool, credits: Option<(nat, nat)>, scope: string,
               history: Option<seq<Row>>, now: int, offset: int) returns (profile': Option<Profile>, reply: MeReply)
    ensures !signedIn ==> profile' == profile && reply == Unauthorized
    ensures signedIn ==>
              var admin := profile.Some? && profile.value.role == "admin";
              profile' == (if admin && profile.value.plan != "business" then Some(profile.value.(plan := "business")) else profile)
              && reply.Me?
              && reply.role == (if profile.Some? && profile.value.role != "" then profile.value.role else "user")
              && reply.plan == (if admin then "business" else if profile.Some? && profile.value.plan != "" then profile.value.plan else "free")
              && reply.credits == (if credits.Some? then credits.value.0 else 0)
              && (reply.stats.Some? <==> scope == "search-stats")
              && (scope == "search-stats" && history.None? ==> reply.stats == Some(SearchStats(0, 0, 0)))
              && (scope == "search-stats" && history.Some? ==>
                    reply.stats == Some(SearchStats(CountOnDay(Filter(history.value, IsSearch), UtcDay(now)),
                                                    CountSince(Filter(history.value, IsSearch), MonthStart(now, offset)),
                                                    CreditsSince(history.value, ThirtyDayStart(now, offset)))))
              && (reply.reserved.Some? <==> scope == "credits-detail")
              && (scope == "credits-detail" ==> reply.reserved == Some(if credits.Some? then credits.value.1 else 0))
  {
    profile' := profile;
    if !signedIn {
      return profile', Unauthorized;
    }
    var role := if profile.Some? && profile.value.role != "" then profile.value.role else "user";
    if role == "admin" && profile.value.plan != "business" {
      profile' := Some(profile.value.(plan := "business"));
    }
    var plan := if profile'.Some? && profile'.value.plan != "" then profile'.value.plan else "free";
    var balance := if credits.Some? then credits.value.0 else 0;
    if scope == "search-stats" {
      if history.None? {
        return profile', Me(role, plan, balance, Some(SearchStats(0, 0, 0)), None);
      }
      var s := CountSearchStats(Filter(history.value, IsSearch), Filter(history.value, UsedCredits), now, offset);
      WindowsNested(now, offset);
      CreditsOfUsed(history.value, MonthStart(now, offset));
      return profile', Me(role, plan, balance, Some(s), None);
    }
    if scope == "credits-detail" {
      return profile', Me(role, plan, balance, None, Some(if credits.Some? then credits.value.1 else 0));
    }
    reply := Me(role, plan, balance, None, None);
  }

  /** The keyword the search-stats scope collects from a row, if any: rows of the last
      2 days with a keyword, neither subtitle extraction nor URL searches nor keywords
      starting with `http`; a profile search gets an `@` in front unless it has one.
      The list is built and de-duplicated but left out of the response. */
  function RecentKeyword(r: Row, now: int): (k: Option<string>)
    ensures k.Some? ==> r.keyword.Some? && (k.value == r.keyword.value || k.value == "@" + r.keyword.value)
    ensures k.Some? ==> |k.value| > 0 && !(|k.value| >= 4 && k.value[..4] == "http")
  {
    if r.createdAt >= now - 2 * Day && r.keyword.Some? && r.keyword.value != ""
       && r.searchType != "subtitle_extraction" && r.searchType != "url"
       && !(|r.keyword.value| >= 4 && r.keyword.value[..4] == "http")
    then
      if r.searchType == "profile" && !(|r.keyword.value| >= 1 && r.keyword.value[0] == '@')
      then
        var at := "@" + r.keyword.value;
        assert |at| >= 4 ==> at[..4][0] == '@';
        Some(at)
      else Some(r.keyword.value)
    else None
  }

  // ------------------------------------------------------ /api/me/recent-keywords

  /** The recent-keywords query: the last 2 days, a non-empty keyword, no subtitle
      extraction. The rows come back newest first. */
  predicate RecentRow(r: Row, now: int)
  {
    r.createdAt >= now - 2 * Day && r.keyword.Some? && r.keyword.value != "" && r.searchType != "subtitle_extraction"
  }

  function KeywordOf(r: Row): string
  {
    if r.keyword.Some? then r.keyword.value else ""
  }

  /** The loop over the query result: the first row seen per keyword. */
  method RecentKeywords(rows: seq<Row>) returns (unique: seq<Row>)
    ensures unique == FirstOccurrences(rows, KeywordOf)
  {
    unique := [];
    var seen: set<string> := {};
    for i := 0 to |rows|
      invariant unique == FirstOccurrences(rows[..i], KeywordOf)
      invariant seen == Keys(rows[..i], KeywordOf)
    {
      assert rows[..i + 1] == rows[..i] + [rows[i]];
      assert rows[..i + 1][..i] == rows[..i];
      KeysSnoc(rows[..i], rows[i], KeywordOf);
      if KeywordOf(rows[i]) !in seen {
        seen := seen + {KeywordOf(rows[i])};
        unique := unique + [rows[i]];
      }
    }
    assert rows[..|rows|] == rows;
  }

  /** The output has one row per keyword, no two with the same keyword, each the
      newest row of its keyword, in the order of the input, which it is a part of. */
  lemma RecentKeywordsShape(rows: seq<Row>)
    ensures var r := FirstOccurrences(rows, KeywordOf);
      Keys(r, KeywordOf) == Keys(rows, KeywordOf)
      && (forall i, j :: 0 <= i < j < |r| ==> KeywordOf(r[i]) != KeywordOf(r[j]))
      && IsSubsequence(r, rows)
      && (forall x :: x in r ==> x in rows)
      && (forall j :: 0 <= j < |r| ==> exists i :: 0 <= i < |rows| && rows[i] == r[j] && IsFirst(rows, i, KeywordOf))
  {
    var r := FirstOccurrences(rows, KeywordOf);
    FirstOccurrencesInOrder(rows, KeywordOf);
    SubsequenceMembers(r, rows);
    forall j | 0 <= j < |r|
      ensures exists i :: 0 <= i < |rows| && rows[i] == r[j] && IsFirst(rows, i, KeywordOf)
    {
      FirstOccurrencesAreFirst(rows, KeywordOf, j);
    }
  }

  /** Fed the rows the query returns, the response lists recent searches only, each
      under a distinct, non-empty keyword. */
  lemma RecentKeywordsRecent(rows: seq<Row>, now: int)
    requires forall x :: x in rows ==> RecentRow(x, now)
    ensures var r := FirstOccurrences(rows, KeywordOf);
      (forall x :: x in r ==> RecentRow(x, now) && KeywordOf(x) == x.keyword.value && KeywordOf(x) != "")
      && (forall i, j :: 0 <= i < j < |r| ==> r[i].keyword != r[j].keyword)
  {
    RecentKeywordsShape(rows);
  }

  /** `GET /api/me/recent-keywords` after authentication: a failed query is a 500. */
  method GetRecentKeywords(history: Option<seq<Row>>) returns (r: Result<seq<Row>, nat>)
    ensures history.None? ==> r == Failure(500)
    ensures history.Some? ==> r == Success(FirstOccurrences(history.value, KeywordOf))
  {
    if history.None? {
      return Failure(500);
    }
    var unique := RecentKeywords(history.value);
    r := Success(unique);
  }
}
