/** The web client of the YouTube Data API (lib/youtube.ts): how a request is sent
    and its failure classified, the batched `videos.list` and `channels.list` lookups,
    and the keyword search.

    The API is an oracle: for each request it gives the reply `fetch` would return. A
    call that fails throws, and nothing in these three operations catches, so the first
    failure ends the whole operation; this is a `Result` here. */
module YouTubeClient {
  import opened Wrappers
  import opened Seqs
  import opened Sorting
  import opened Videos
  import opened Seed

  /** A `YouTubeAPIError`: its message, code and HTTP status. */
  datatype ApiFailure = ApiFailure(message: string, code: string, status: nat)

  /** What `fetch` returns: the data of an ok response, or the status of a failed one
      with the first `error.errors[].reason` and the `error.message` of its body (None
      when absent or when the body is not JSON). */
  datatype Reply<T> = Ok(data: T) | NotOk(status: nat, reason: Option<string>, message: Option<string>)

  /** A parameter value: a string or a number; None is `null` or `undefined`. */
  datatype Value = Str(s: string) | Num(n: int)

  /** A `search.list` page: each item's `id.videoId` ("" when absent) and the
      `nextPageToken`. */
  datatype Page = Page(ids: seq<string>, next: Option<string>)

  /** The oracle: a search sees the parameters actually sent and the page token. */
  datatype Api = Api(
    search: map<string, Value> -> Option<string> -> Reply<Page>,
    videos: seq<string> -> Reply<seq<Video>>,
    channels: seq<string> -> Reply<seq<(string, nat)>>)

  const BatchSize: nat := 50

  // ---------------------------------------------------------------- makeRequest

  /** `s || fallback` on a string that may be absent. */
  function OrElse(s: Option<string>, fallback: string): (r: string)
    ensures r == fallback || (s.Some? && r == s.value && r != "")
    ensures fallback != "" ==> r != ""
  {
    if s.Some? && s.value != "" then s.value else fallback
  }

  /** The error a failed response is thrown as (lib/youtube.ts:204-228). */
  function Classify(status: nat, reason: Option<string>, message: Option<string>): ApiFailure
  {
    var why := OrElse(reason, "unknown");
    if why == "quotaExceeded" then ApiFailure("API quota exceeded", "QUOTA_EXCEEDED", status)
    else if why == "keyInvalid" || status == 403 then ApiFailure("Invalid API key", "KEY_INVALID", status)
    else ApiFailure(OrElse(message, "API request failed"), why, status)
  }

  /** The quota reason is checked first, so a 403 over quota is reported as
      QUOTA_EXCEEDED; every other 403 is KEY_INVALID; any other failure keeps its reason
      ('unknown' when there is none) as its code; the code is never empty and the
      status is passed through. */
  lemma ClassifyCodes(status: nat, reason: Option<string>, message: Option<string>)
    ensures var e := Classify(status, reason, message);
      e.status == status && e.code != ""
      && (reason == Some("quotaExceeded") ==> e.code == "QUOTA_EXCEEDED")
      && (reason == Some("keyInvalid") ==> e.code == "KEY_INVALID")
      && (status == 403 ==> e.code == "QUOTA_EXCEEDED" || e.code == "KEY_INVALID")
      && (status == 403 && reason != Some("quotaExceeded") ==> e.code == "KEY_INVALID")
      && (status != 403 && (reason.None? || reason == Some("")) ==> e.code == "unknown")
      && (status != 403 && reason.Some? && reason.value !in {"", "quotaExceeded", "keyInvalid"} ==>
            e.code == reason.value && e.message == OrElse(message, "API request failed"))
  {
  }

  /** `makeRequest`'s outcome for a reply. */
  function Outcome<T>(reply: Reply<T>): Result<T, ApiFailure>
  {
    match reply
    case Ok(data) => Success(data)
    case NotOk(status, reason, message) => Failure(Classify(status, reason, message))
  }

  /** The query string `makeRequest` builds: the key first, then every parameter that
      is neither `null`, `undefined` nor ''. */
  function SentParams(apiKey: string, params: seq<(string, Option<Value>)>): map<string, Value>
  {
    if |params| == 0 then map["key" := Str(apiKey)]
    else
      var init := SentParams(apiKey, params[..|params| - 1]);
      var p := params[|params| - 1];
      if p.1.Some? && p.1.value != Str("") then init[p.0 := p.1.value] else init
  }

  /** Every sent parameter other than the key was given with a value that is neither
      missing nor empty, and the key is always sent. */
  lemma {:induction false} SentParamsGiven(apiKey: string, params: seq<(string, Option<Value>)>, k: string)
    ensures "key" in SentParams(apiKey, params)
    ensures k in SentParams(apiKey, params) && k != "key" ==>
      SentParams(apiKey, params)[k] != Str("")
      && exists i :: 0 <= i < |params| && params[i].0 == k && params[i].1 == Some(SentParams(apiKey, params)[k])
  {
    if |params| > 0 {
      var init := params[..|params| - 1];
      SentParamsGiven(apiKey, init, k);
      if k in SentParams(apiKey, init) && k != "key" && k != params[|params| - 1].0 {
        var i :| 0 <= i < |init| && init[i].0 == k && init[i].1 == Some(SentParams(apiKey, init)[k]);
        assert params[i] == init[i];
      }
    }
  }

  /** A parameter whose every value is missing or empty is never sent. */
  lemma {:induction false} EmptyNeverSent(apiKey: string, params: seq<(string, Option<Value>)>, k: string)
    requires k != "key"
    requires forall i :: 0 <= i < |params| && params[i].0 == k ==> params[i].1.None? || params[i].1 == Some(Str(""))
    ensures k !in SentParams(apiKey, params)
  {
    if |params| > 0 {
      var init := params[..|params| - 1];
      assert forall i :: 0 <= i < |init| ==> init[i] == params[i];
      EmptyNeverSent(apiKey, init, k);
    }
  }

  /** The `forEach` of `makeRequest` (lib/youtube.ts:183-189). */
  method BuildParams(apiKey: string, params: seq<(string, Option<Value>)>) returns (sent: map<string, Value>)
    ensures sent == SentParams(apiKey, params)
  {
    sent := map["key" := Str(apiKey)];
    var i := 0;
    while i < |params|
      invariant 0 <= i <= |params|
      invariant sent == SentParams(apiKey, params[..i])
    {
      var (key, value) := params[i];
      assert params[..i + 1][..i] == params[..i];
      if value.Some? && value.value != Str("") {
        sent := sent[key := value.value];
      }
      i := i + 1;
    }
    assert params[..i] == params;
  }

  // ---------------------------------------------------------------- batched lookups

  /** `xs` in front of a successful outcome; a failure stays as it is. */
  function Prefixed<T>(xs: seq<T>, r: Result<seq<T>, ApiFailure>): Result<seq<T>, ApiFailure>
  {
    if r.Failure? then r else Success(xs + r.value)
  }

  lemma PrefixedTwice<T>(xs: seq<T>, ys: seq<T>, r: Result<seq<T>, ApiFailure>)
    ensures Prefixed(xs, Prefixed(ys, r)) == Prefixed(xs + ys, r)
    ensures Prefixed([], r) == r
  {
    if r.Success? {
      assert xs + (ys + r.value) == (xs + ys) + r.value;
      assert [] + r.value == r.value;
    }
  }

  /** The videos of each batch in turn; the first failing batch fails the lookup. */
  function DetailsOf(api: Api, batches: seq<seq<string>>): Result<seq<Video>, ApiFailure>
  {
    if |batches| == 0 then Success([])
    else
      var first := Outcome(api.videos(batches[0]));
      if first.Failure? then Failure(first.error)
      else
        var rest := DetailsOf(api, batches[1..]);
        if rest.Failure? then rest else Success(first.value + rest.value)
  }

  /** The lookup fails exactly when some batch fails, and then with the first failure. */
  lemma {:induction false} DetailsOfFails(api: Api, batches: seq<seq<string>>)
    ensures DetailsOf(api, batches).Failure? <==> exists i :: 0 <= i < |batches| && api.videos(batches[i]).NotOk?
    ensures DetailsOf(api, batches).Failure? ==>
      exists i :: (0 <= i < |batches| && api.videos(batches[i]).NotOk?
        && DetailsOf(api, batches).error == Outcome(api.videos(batches[i])).error
        && forall j :: 0 <= j < i ==> api.videos(batches[j]).Ok?)
  {
    if |batches| > 0 {
      DetailsOfFails(api, batches[1..]);
      if api.videos(batches[0]).Ok? {
        forall i | 0 < i < |batches| ensures batches[1..][i - 1] == batches[i] { }
        if DetailsOf(api, batches).Failure? {
          var i :| 0 <= i < |batches[1..]| && api.videos(batches[1..][i]).NotOk?
            && DetailsOf(api, batches[1..]).error == Outcome(api.videos(batches[1..][i])).error
            && forall j :: 0 <= j < i ==> api.videos(batches[1..][j]).Ok?;
          assert forall j :: 0 < j < i + 1 ==> batches[1..][j - 1] == batches[j];
        }
      }
    }
  }

  /** On success the videos are exactly those of every batch's reply. */
  lemma {:induction false} DetailsOfMembers(api: Api, batches: seq<seq<string>>, v: Video)
    requires DetailsOf(api, batches).Success?
    ensures v in DetailsOf(api, batches).value <==>
      exists i :: 0 <= i < |batches| && api.videos(batches[i]).Ok? && v in api.videos(batches[i]).data
  {
    if |batches| > 0 {
      DetailsOfMembers(api, batches[1..], v);
      forall i | 0 < i < |batches| ensures batches[1..][i - 1] == batches[i] { }
      if exists i :: 0 <= i < |batches| && api.videos(batches[i]).Ok? && v in api.videos(batches[i]).data {
        var i :| 0 <= i < |batches| && api.videos(batches[i]).Ok? && v in api.videos(batches[i]).data;
        if i > 0 { assert api.videos(batches[1..][i - 1]).Ok? && v in api.videos(batches[1..][i - 1]).data; }
      }
    }
  }

  /** `getVideoDetails` (lib/youtube.ts:247-299): batches of at most 50 ids, in order. */
  method GetVideoDetails(api: Api, ids: seq<string>) returns (r: Result<seq<Video>, ApiFailure>)
    ensures r == DetailsOf(api, Batches(ids, BatchSize))
  {
    if |ids| == 0 { return Success([]); }
    var batches := Batches(ids, BatchSize);
    var all: seq<Video> := [];
    var i := 0;
    assert batches[0..] == batches;
    PrefixedTwice(all, [], DetailsOf(api, batches));
    while i < |batches|
      invariant 0 <= i <= |batches|
      invariant DetailsOf(api, batches) == Prefixed(all, DetailsOf(api, batches[i..]))
    {
      var reply := Outcome(api.videos(batches[i]));
      assert batches[i..][1..] == batches[i + 1..];
      if reply.Failure? { return Failure(reply.error); }
      PrefixedTwice(all, reply.value, DetailsOf(api, batches[i + 1..]));
      all := all + reply.value;
      i := i + 1;
    }
    r := Success(all);
    assert batches[i..] == [];
    assert all + [] == all;
  }

  /** The channels of a reply that carry an id. */
  function Named(items: seq<(string, nat)>): seq<(string, nat)>
  {
    Filter(items, (item: (string, nat)) => item.0 != "")
  }

  /** The counts of each batch in turn; the first failing batch fails the lookup. */
  function CountsOf(api: Api, batches: seq<seq<string>>, counts: map<string, nat>): Result<map<string, nat>, ApiFailure>
  {
    if |batches| == 0 then Success(counts)
    else
      var first := Outcome(api.channels(batches[0]));
      if first.Failure? then Failure(first.error)
      else CountsOf(api, batches[1..], Tally(counts, Named(first.value)))
  }

  /** The ids `getChannelSubscribers` sends: each channel once, in first-seen order. */
  function ChannelBatches(channelIds: seq<string>): seq<seq<string>>
  {
    Batches(FirstOccurrences(channelIds, Identity), BatchSize)
  }

  /** Every requested channel is sent exactly once, and nothing else is sent. */
  lemma ChannelBatchesSendEachOnce(channelIds: seq<string>)
    ensures var sent := Flatten(ChannelBatches(channelIds));
      (forall c :: c in sent <==> c in channelIds)
      && forall i, j :: 0 <= i < j < |sent| ==> sent[i] != sent[j]
  {
    var u := FirstOccurrences(channelIds, Identity);
    assert Flatten(ChannelBatches(channelIds)) == u;
    forall c ensures c in u <==> c in channelIds {
      assert c in u <==> Identity(c) in Keys(u, Identity);
      assert c in channelIds <==> Identity(c) in Keys(channelIds, Identity);
    }
  }

  /** No count is kept under an empty id. */
  lemma {:induction false} CountsNamed(api: Api, batches: seq<seq<string>>, counts: map<string, nat>)
    requires "" !in counts
    ensures CountsOf(api, batches, counts).Success? ==> "" !in CountsOf(api, batches, counts).value
  {
    if |batches| > 0 {
      var first := Outcome(api.channels(batches[0]));
      if first.Success? {
        var named := Named(first.value);
        forall i | 0 <= i < |named| ensures named[i].0 != "" {
          FilterMembers(first.value, (item: (string, nat)) => item.0 != "", named[i]);
        }
        CountsNamed(api, batches[1..], Tally(counts, named));
      }
    }
  }

  /** `getChannelSubscribers` (lib/youtube.ts:304-331). */
  method GetChannelSubscribers(api: Api, channelIds: seq<string>) returns (r: Result<map<string, nat>, ApiFailure>)
    ensures r == CountsOf(api, ChannelBatches(channelIds), map[])
  {
    if |channelIds| == 0 { return Success(map[]); }
    var unique := FirstOccurrences(channelIds, Identity);
    var batches := Batches(unique, BatchSize);
    var counts: map<string, nat> := map[];
    var i := 0;
    while i < |batches|
      invariant 0 <= i <= |batches|
      invariant CountsOf(api, batches, map[]) == CountsOf(api, batches[i..], counts)
    {
      var reply := Outcome(api.channels(batches[i]));
      assert batches[i..][1..] == batches[i + 1..];
      if reply.Failure? { return Failure(reply.error); }
      counts := AddCounts(counts, reply.value);
      i := i + 1;
    }
    assert batches[i..] == [];
    r := Success(counts);
  }

  /** `subscriberCounts[item.id] = count` for each reply item that has an id. */
  method AddCounts(counts: map<string, nat>, items: seq<(string, nat)>) returns (r: map<string, nat>)
    ensures r == Tally(counts, Named(items))
  {
    r := counts;
    var j := 0;
    while j < |items|
      invariant 0 <= j <= |items|
      invariant r == Tally(counts, Named(items[..j]))
    {
      assert items[..j + 1][..j] == items[..j];
      if items[j].0 != "" {
        assert Named(items[..j + 1]) == Named(items[..j]) + [items[j]];
        var named := Named(items[..j + 1]);
        assert named[..|named| - 1] == Named(items[..j]);
        r := r[items[j].0 := items[j].1];
      } else {
        assert Named(items[..j + 1]) == Named(items[..j]) + [];
        assert Named(items[..j]) + [] == Named(items[..j]);
      }
      j := j + 1;
    }
    assert items[..j] == items;
  }

  // ---------------------------------------------------------------- searchByKeyword

  datatype Filters = Filters(
    minViews: nat,          // 0 when unset
    maxSubscribers: nat,    // 0 when unset
    sortBy: string,         // "" when unset
    videoDuration: string,  // "" when unset
    period: string)         // "" when unset

  datatype Response = Response(results: seq<Row>, totalCount: nat)

  predicate HasFilters(f: Filters) { f.minViews > 0 || f.maxSubscribers > 0 }

  /** How many ids the search collects (lib/youtube.ts:341-343). */
  function FetchLimit(resultsLimit: nat, f: Filters): (n: nat)
    ensures HasFilters(f) ==> n >= 3 * resultsLimit && n >= 150 && (n == 3 * resultsLimit || n == 150)
    ensures !HasFilters(f) ==> n == resultsLimit
  {
    if HasFilters(f) then (if 3 * resultsLimit > 150 then 3 * resultsLimit else 150) else resultsLimit
  }

  /** `Math.ceil(fetchLimit / 50)` */
  function PageCount(fetchLimit: nat): (n: nat)
    ensures n * 50 >= fetchLimit && (n == 0 || (n - 1) * 50 < fetchLimit)
  {
    (fetchLimit + 49) / 50
  }

  /** `searchParams` (lib/youtube.ts:349-368): a duration only when it is set and not
      'any', a window only when the period gives one. */
  function KeywordParams(query: string, f: Filters, nowMs: int): seq<(string, Option<Value>)>
  {
    var after := if f.period != "" then PublishedAfter(f.period, nowMs) else None;
    [("part", Some(Str("snippet"))), ("type", Some(Str("video"))), ("q", Some(Str(query))),
     ("order", Some(Str("relevance"))), ("maxResults", Some(Num(50))),
     ("relevanceLanguage", Some(Str("ko"))), ("regionCode", Some(Str(RegionCode("ko"))))]
    + (if f.videoDuration != "" && f.videoDuration != "any" then [("videoDuration", Some(Str(f.videoDuration)))] else [])
    + (if after.Some? then [("publishedAfter", Some(Num(after.value)))] else [])
  }

  /** The non-empty ids of a page (`filter(item => item.id?.videoId)`). */
  function PageIds(p: Page): seq<string>
  {
    Filter(p.ids, (id: string) => id != "")
  }

  predicate HasToken(t: Option<string>) { t.Some? && t.value != "" }

  /** The page loop (lib/youtube.ts:371-388) from a page holding `token`, with `pages`
      pages left and `have` ids collected so far. */
  function PagesFrom(api: Api, params: map<string, Value>, token: Option<string>, pages: nat, have: nat, fetchLimit: nat)
    : Result<seq<string>, ApiFailure>
    decreases pages
  {
    if pages == 0 || have >= fetchLimit then Success([])
    else
      var reply := Outcome(api.search(params)(if HasToken(token) then token else None));
      if reply.Failure? then Failure(reply.error)
      else
        var ids := PageIds(reply.value);
        if !HasToken(reply.value.next) then Success(ids)
        else
          var rest := PagesFrom(api, params, reply.value.next, pages - 1, have + |ids|, fetchLimit);
          if rest.Failure? then rest else Success(ids + rest.value)
  }

  /** The loop makes at most `pages` calls, so it reads at most `pages` pages of 50. */
  lemma {:induction false} PagesFromBound(api: Api, params: map<string, Value>, token: Option<string>, pages: nat,
                                          have: nat, fetchLimit: nat)
    requires forall p: map<string, Value>, t :: api.search(p)(t).Ok? ==> |api.search(p)(t).data.ids| <= 50
    ensures var r := PagesFrom(api, params, token, pages, have, fetchLimit);
      r.Success? ==> |r.value| <= 50 * pages && forall i :: 0 <= i < |r.value| ==> r.value[i] != ""
    decreases pages
  {
    if pages > 0 && have < fetchLimit {
      var reply := Outcome(api.search(params)(if HasToken(token) then token else None));
      if reply.Success? {
        var ids := PageIds(reply.value);
        forall i | 0 <= i < |ids| ensures ids[i] != "" {
          FilterMembers(reply.value.ids, (id: string) => id != "", ids[i]);
        }
        if HasToken(reply.value.next) {
          PagesFromBound(api, params, reply.value.next, pages - 1, have + |ids|, fetchLimit);
        }
      }
    }
  }

  /** Each video with its channel's count (`subscriberCounts[channelId] || 0`). */
  function RowsOf(videos: seq<Video>, counts: map<string, nat>): seq<Row>
  {
    seq(|videos|, i requires 0 <= i < |videos| => Row(videos[i], SubscribersOf(counts, videos[i].channelId), 0))
  }

  predicate PassesFilters(f: Filters, r: Row)
  {
    r.video.views >= f.minViews && (f.maxSubscribers > 0 ==> r.subscribers <= f.maxSubscribers)
  }

  /** The minViews filter, then the maxSubscribers filter, each only when set. */
  function ApplyFilters(f: Filters, rows: seq<Row>): seq<Row>
  {
    var a := if f.minViews > 0 then Filter(rows, (r: Row) => r.video.views >= f.minViews) else rows;
    if f.maxSubscribers > 0 then Filter(a, (r: Row) => r.subscribers <= f.maxSubscribers) else a
  }

  /** A row survives the filters exactly when it passes both rules (an unset minViews
      of 0 passes every row). */
  lemma ApplyFiltersMembers(f: Filters, rows: seq<Row>, r: Row)
    ensures r in ApplyFilters(f, rows) <==> r in rows && PassesFilters(f, r)
  {
    var pa := (r: Row) => r.video.views >= f.minViews;
    var pb := (r: Row) => r.subscribers <= f.maxSubscribers;
    var a := if f.minViews > 0 then Filter(rows, pa) else rows;
    if f.minViews > 0 { FilterMembers(rows, pa, r); }
    if f.maxSubscribers > 0 { FilterMembers(a, pb, r); }
  }

  /** The rows the keyword search reports (lib/youtube.ts:393-441): the filtered rows,
      sorted, cut to `resultsLimit`. */
  function KeywordRows(resultsLimit: nat, f: Filters, videos: seq<Video>, counts: map<string, nat>): seq<Row>
  {
    var c := SortResults(f.sortBy, ApplyFilters(f, RowsOf(videos, counts)));
    if |c| <= resultsLimit then c else c[..resultsLimit]
  }

  /** At most `resultsLimit` rows, each of a fetched video with its channel's count,
      passing the filters that are set, in the order of the sort key. */
  lemma KeywordRowsSound(resultsLimit: nat, f: Filters, videos: seq<Video>, counts: map<string, nat>)
    ensures var r := KeywordRows(resultsLimit, f, videos, counts);
      |r| <= resultsLimit
      && (f.sortBy in SortKeys ==> SortedDesc(r, RankOf(f.sortBy)))
      && forall row :: row in r ==>
           (row.video in videos && row.subscribers == SubscribersOf(counts, row.video.channelId)
            && PassesFilters(f, row))
  {
    var b := ApplyFilters(f, RowsOf(videos, counts));
    var c := SortResults(f.sortBy, b);
    var r := KeywordRows(resultsLimit, f, videos, counts);
    forall row | row in r
      ensures row.video in videos && row.subscribers == SubscribersOf(counts, row.video.channelId)
        && PassesFilters(f, row)
    {
      assert row in multiset(c);
      ApplyFiltersMembers(f, RowsOf(videos, counts), row);
    }
  }

  /** When fewer rows than the limit pass, all of them are reported. */
  lemma KeywordRowsComplete(resultsLimit: nat, f: Filters, videos: seq<Video>, counts: map<string, nat>, i: nat)
    requires i < |videos| && PassesFilters(f, RowsOf(videos, counts)[i])
    requires |ApplyFilters(f, RowsOf(videos, counts))| <= resultsLimit
    ensures RowsOf(videos, counts)[i] in KeywordRows(resultsLimit, f, videos, counts)
  {
    var rows := RowsOf(videos, counts);
    ApplyFiltersMembers(f, rows, rows[i]);
    assert rows[i] in multiset(SortResults(f.sortBy, ApplyFilters(f, rows)));
  }

  /** `searchByKeyword` (lib/youtube.ts:337-444) on what the page loop found. */
  function KeywordSearch(api: Api, apiKey: string, query: string, resultsLimit: nat, f: Filters, nowMs: int)
    : Result<Response, ApiFailure>
  {
    var fetchLimit := FetchLimit(resultsLimit, f);
    var params := SentParams(apiKey, KeywordParams(query, f, nowMs));
    var found := PagesFrom(api, params, None, PageCount(fetchLimit), 0, fetchLimit);
    if found.Failure? then Failure(found.error)
    else
      var unique := FirstOccurrences(found.value, Identity);
      var ids := if |unique| <= fetchLimit then unique else unique[..fetchLimit];
      var details := DetailsOf(api, Batches(ids, BatchSize));
      if details.Failure? then Failure(details.error)
      else
        var counts := CountsOf(api, ChannelBatches(seq(|details.value|, i requires 0 <= i < |details.value| => details.value[i].channelId)), map[]);
        if counts.Failure? then Failure(counts.error)
        else
          var rows := KeywordRows(resultsLimit, f, details.value, counts.value);
          Success(Response(rows, |rows|))
  }

  /** `totalCount` is the number of rows returned, never more than asked for. */
  lemma KeywordSearchCounts(api: Api, apiKey: string, query: string, resultsLimit: nat, f: Filters, nowMs: int)
    ensures var r := KeywordSearch(api, apiKey, query, resultsLimit, f, nowMs);
      r.Success? ==> r.value.totalCount == |r.value.results| <= resultsLimit
  {
    var r := KeywordSearch(api, apiKey, query, resultsLimit, f, nowMs);
    if r.Success? {
      var fetchLimit := FetchLimit(resultsLimit, f);
      var params := SentParams(apiKey, KeywordParams(query, f, nowMs));
      var found := PagesFrom(api, params, None, PageCount(fetchLimit), 0, fetchLimit);
      var unique := FirstOccurrences(found.value, Identity);
      var ids := if |unique| <= fetchLimit then unique else unique[..fetchLimit];
      var details := DetailsOf(api, Batches(ids, BatchSize));
      var vids := seq(|details.value|, i requires 0 <= i < |details.value| => details.value[i].channelId);
      var counts := CountsOf(api, ChannelBatches(vids), map[]);
      KeywordRowsSound(resultsLimit, f, details.value, counts.value);
    }
  }

  /** One page of the loop, when pages are left and the ids are short of the limit,
      after `all` ids were collected. */
  lemma PagesFromStep(api: Api, params: map<string, Value>, token: Option<string>, pages: nat, all: seq<string>,
                      fetchLimit: nat)
    requires pages > 0 && |all| < fetchLimit
    ensures var reply := Outcome(api.search(params)(if HasToken(token) then token else None));
      var rest := Prefixed(all, PagesFrom(api, params, token, pages, |all|, fetchLimit));
      (reply.Failure? ==> rest == Failure(reply.error))
      && (reply.Success? && !HasToken(reply.value.next) ==> rest == Success(all + PageIds(reply.value)))
      && (reply.Success? && HasToken(reply.value.next) ==>
            rest == Prefixed(all + PageIds(reply.value),
                      PagesFrom(api, params, reply.value.next, pages - 1, |all + PageIds(reply.value)|, fetchLimit)))
  {
    var reply := Outcome(api.search(params)(if HasToken(token) then token else None));
    if reply.Success? && HasToken(reply.value.next) {
      var ids := PageIds(reply.value);
      PrefixedTwice(all, ids, PagesFrom(api, params, reply.value.next, pages - 1, |all + ids|, fetchLimit));
    }
  }

  /** The page loop as written: one request per page, passing the token of the last
      page, stopping when no token comes back or enough ids are in. */
  method SearchPages(api: Api, params: map<string, Value>, fetchLimit: nat) returns (r: Result<seq<string>, ApiFailure>)
    ensures r == PagesFrom(api, params, None, PageCount(fetchLimit), 0, fetchLimit)
  {
    var maxPages := PageCount(fetchLimit);
    var all: seq<string> := [];
    var token: Option<string> := None;
    var page := 0;
    PrefixedTwice(all, [], PagesFrom(api, params, None, maxPages, 0, fetchLimit));
    while page < maxPages && |all| < fetchLimit
      invariant 0 <= page <= maxPages
      invariant PagesFrom(api, params, None, maxPages, 0, fetchLimit) ==
        Prefixed(all, PagesFrom(api, params, token, maxPages - page, |all|, fetchLimit))
      decreases maxPages - page
    {
      PagesFromStep(api, params, token, maxPages - page, all, fetchLimit);
      var reply := Outcome(api.search(params)(if HasToken(token) then token else None));
      if reply.Failure? { return Failure(reply.error); }
      var ids := PageIds(reply.value);
      var next := reply.value.next;
      if !HasToken(next) {
        return Success(all + ids);
      }
      all := all + ids;
      token := next;
      page := page + 1;
    }
    r := Success(all);
    assert all + [] == all;
  }

  /** `searchByKeyword`. */
  method SearchByKeyword(api: Api, apiKey: string, query: string, resultsLimit: nat, f: Filters, nowMs: int)
    returns (r: Result<Response, ApiFailure>)
    ensures r == KeywordSearch(api, apiKey, query, resultsLimit, f, nowMs)
  {
    var fetchLimit := FetchLimit(resultsLimit, f);
    var params := BuildParams(apiKey, KeywordParams(query, f, nowMs));
    var found := SearchPages(api, params, fetchLimit);
    if found.Failure? { return Failure(found.error); }
    var unique := FirstOccurrences(found.value, Identity);
    var ids := if |unique| <= fetchLimit then unique else unique[..fetchLimit];
    var details := GetVideoDetails(api, ids);
    if details.Failure? { return Failure(details.error); }
    var videos := details.value;
    var channelIds := seq(|videos|, i requires 0 <= i < |videos| => videos[i].channelId);
    var counts := GetChannelSubscribers(api, channelIds);
    if counts.Failure? { return Failure(counts.error); }
    var rows := KeywordRows(resultsLimit, f, videos, counts.value);
    r := Success(Response(rows, |rows|));
  }
}
