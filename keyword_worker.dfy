/** `Worker`, the keyword search (main.py:1399-1788): walk up to six pages of
    `search.list` results, de-duplicate the ids, fetch their details in batches of 50,
    look up subscriber counts through the worker's channel cache, keep the videos that
    pass the view, subscriber and language filters, and sort them.

    The YouTube Data API is an oracle (`Api`). A call either answers or fails, and a
    failure whose first reason is `quotaExceeded` is told apart from every other
    failure, since that is all the worker looks at. The thread pools run their tasks
    one after another, in submission order. */
module KeywordRun {
  import opened Wrappers
  import opened Seqs
  import opened Sorting
  import opened Videos
  import opened Language
  import opened Seed

  datatype Request = Request(
    keyword: string,
    uploadPeriod: string,
    minViews: nat,
    sortBy: string,
    videoDuration: string,
    maxSubs: nat,
    apiKey: string,
    nowMs: int)           // the search time, `datetime.now()`

  /** The parameters every page of one keyword search shares (main.py:1561-1575);
      `part` and `type` are the same for all and left out. */
  datatype Query = Query(
    q: string,
    order: string,
    duration: string,
    maxResults: nat,
    language: string,
    region: string,
    publishedAfter: Option<int>)

  datatype CallError = QuotaExceeded | OtherError

  /** A `search.list` answer: its video ids and its `nextPageToken`. */
  datatype Page = Page(ids: seq<string>, next: Option<string>)

  /** What each call returns. A page is asked for twice, once while walking the tokens
      (pass 0) and once more when its ids are collected (pass 1); the answers may differ. */
  datatype Api = Api(
    search: Query -> Option<string> -> nat -> Result<Page, CallError>,
    videos: seq<string> -> Result<seq<Video>, CallError>,
    channels: seq<string> -> Result<seq<(string, nat)>, CallError>)

  /** What `run` emits on its `error` signal. */
  datatype ErrorSignal =
    | QuotaExceededCode             // "QUOTA_EXCEEDED"
    | KeyInvalidCode                // "KEY_INVALID"
    | ApiError(message: string)     // "유튜브 API 오류: " + message
    | GeneralError(message: string) // "오류 발생: " + message

  datatype RunResult = Finished(rows: seq<Row>, totalCount: nat) | Failed(signal: ErrorSignal)

  const MaxPages: nat := 6
  const BatchSize: nat := 50
  const MissingKeywordText: string := "검색 키워드를 입력해주세요."
  const MissingApiKeyText: string := "API key가 올바르지 않습니다."

  // ---------------------------------------------------------------- the query

  /** `_get_api_order`: the sort key is not passed on (main.py:1763-1768). */
  function ApiOrder(sortBy: string): string { "relevance" }

  function KeywordQuery(req: Request): Query
  {
    Query(req.keyword, ApiOrder(req.sortBy), req.videoDuration, 50, "ko", RegionCode("ko"),
      PublishedAfter(req.uploadPeriod, req.nowMs))
  }

  /** Every keyword search asks for 50 Korean results per page in relevance order,
      whatever sort the user chose; the sort only happens on the final rows. */
  lemma KeywordQueryIgnoresSort(req: Request, sortBy: string)
    ensures KeywordQuery(req.(sortBy := sortBy)) == KeywordQuery(req)
    ensures var q := KeywordQuery(req);
      q.order == "relevance" && q.language == "ko" && q.region == "KR" && q.maxResults == 50
      && q.q == req.keyword && (q.publishedAfter.None? <==> req.uploadPeriod == "all")
  {
  }

  // ---------------------------------------------------------------- the page walk

  /** `if not token`: a token counts only when present and non-empty. */
  predicate HasToken(t: Option<string>) { t.Some? && t.value != "" }

  predicate IsQuota<T>(r: Result<T, CallError>) { r.Failure? && r.error == QuotaExceeded }

  /** The ids of a page; a failed call gives none. */
  function PageIds(r: Result<Page, CallError>): seq<string> { if r.Success? then r.value.ids else [] }

  /** The tokens the sequential walk collects, and whether it met the quota. */
  datatype Walk = Walk(tokens: seq<string>, quota: bool)

  /** The token walk (main.py:1621-1633) from page `pageNum` holding token `current`:
      each present token is recorded and its page fetched only for the next token. */
  function TokenWalk(api: Api, q: Query, current: Option<string>, pageNum: nat): Walk
    decreases MaxPages - pageNum
  {
    if pageNum >= MaxPages || !HasToken(current) then Walk([], false)
    else
      var r := api.search(q)(current)(0);
      if r.Failure? then Walk([current.value], r.error == QuotaExceeded)
      else
        var rest := TokenWalk(api, q, r.value.next, pageNum + 1);
        Walk([current.value] + rest.tokens, rest.quota)
  }

  /** The walk records at most one token per remaining page, none of them empty. */
  lemma {:induction false} TokenWalkBounds(api: Api, q: Query, current: Option<string>, pageNum: nat)
    requires pageNum <= MaxPages
    ensures var w := TokenWalk(api, q, current, pageNum);
      pageNum + |w.tokens| <= MaxPages && forall i :: 0 <= i < |w.tokens| ==> w.tokens[i] != ""
    decreases MaxPages - pageNum
  {
    if pageNum < MaxPages && HasToken(current) {
      var r := api.search(q)(current)(0);
      if r.Success? {
        TokenWalkBounds(api, q, r.value.next, pageNum + 1);
      }
    }
  }

  /** One step of the walk: the token is recorded and the walk goes on from its page. */
  lemma TokenWalkStep(api: Api, q: Query, current: Option<string>, pageNum: nat)
    requires pageNum < MaxPages && HasToken(current)
    ensures var r := api.search(q)(current)(0);
      TokenWalk(api, q, current, pageNum) ==
        if r.Failure? then Walk([current.value], r.error == QuotaExceeded)
        else Walk([current.value] + TokenWalk(api, q, r.value.next, pageNum + 1).tokens,
                  TokenWalk(api, q, r.value.next, pageNum + 1).quota)
  {
  }

  /** The second pass over the recorded tokens (main.py:1635-1648): each page's ids are
      appended; the pass stops at the first quota failure. */
  function RefetchIds(api: Api, q: Query, tokens: seq<string>): seq<string>
  {
    if |tokens| == 0 then []
    else
      var r := api.search(q)(Some(tokens[0]))(1);
      if IsQuota(r) then [] else PageIds(r) + RefetchIds(api, q, tokens[1..])
  }

  /** `_search_videos_parallel` (main.py:1544-1654): the first page's ids, then, unless
      the quota ran out on the way, the ids of the pages the walk found. */
  function SearchIds(api: Api, q: Query): seq<string>
  {
    var first := api.search(q)(None)(0);
    if first.Failure? then []
    else
      var w := TokenWalk(api, q, first.value.next, 1);
      if w.quota || |w.tokens| == 0 then first.value.ids
      else first.value.ids + RefetchIds(api, q, w.tokens)
  }

  /** Every id the re-fetch returns is on one of the re-fetched pages. */
  lemma {:induction false} RefetchIdsFromPages(api: Api, q: Query, tokens: seq<string>, id: string)
    requires id in RefetchIds(api, q, tokens)
    ensures exists i :: 0 <= i < |tokens| && id in PageIds(api.search(q)(Some(tokens[i]))(1))
  {
    var r := api.search(q)(Some(tokens[0]))(1);
    if id !in PageIds(r) {
      RefetchIdsFromPages(api, q, tokens[1..], id);
      var i :| 0 <= i < |tokens[1..]| && id in PageIds(api.search(q)(Some(tokens[1..][i]))(1));
      assert tokens[1..][i] == tokens[i + 1];
    }
  }

  /** The search returns ids from at most six pages: the first one, then pages reached
      through the walk's tokens. A quota failure during the walk throws away every page
      after the first, although the walk fetched them. */
  lemma SearchIdsFromPages(api: Api, q: Query, id: string)
    requires id in SearchIds(api, q)
    ensures var first := api.search(q)(None)(0);
      first.Success? &&
      var w := TokenWalk(api, q, first.value.next, 1);
      |w.tokens| < MaxPages &&
      (id in first.value.ids || (!w.quota && exists i :: 0 <= i < |w.tokens| && id in PageIds(api.search(q)(Some(w.tokens[i]))(1))))
  {
    var first := api.search(q)(None)(0);
    var w := TokenWalk(api, q, first.value.next, 1);
    TokenWalkBounds(api, q, first.value.next, 1);
    if id !in first.value.ids {
      RefetchIdsFromPages(api, q, w.tokens, id);
    }
  }

  /** When the first page already exhausts the quota, or fails otherwise, nothing is found. */
  lemma FirstPageFailureFindsNothing(api: Api, q: Query)
    requires api.search(q)(None)(0).Failure?
    ensures SearchIds(api, q) == []
  {
  }

  /** A quota failure while walking the tokens leaves only the first page's ids. */
  lemma QuotaDuringWalkKeepsFirstPage(api: Api, q: Query)
    requires api.search(q)(None)(0).Success?
    requires TokenWalk(api, q, api.search(q)(None)(0).value.next, 1).quota
    ensures SearchIds(api, q) == api.search(q)(None)(0).value.ids
  {
  }

  // ---------------------------------------------------------------- details

  /** `_get_video_details_parallel` (main.py:1656-1714): the items of each batch in
      turn; a failed batch gives none, and a quota failure ends the collection. */
  function DetailsFrom(api: Api, batches: seq<seq<string>>): seq<Video>
  {
    if |batches| == 0 then []
    else
      var r := api.videos(batches[0]);
      if IsQuota(r) then []
      else (if r.Success? then r.value else []) + DetailsFrom(api, batches[1..])
  }

  /** Every detail comes from a batch that answered before any batch met the quota. */
  lemma {:induction false} DetailsBeforeQuota(api: Api, batches: seq<seq<string>>, v: Video)
    requires v in DetailsFrom(api, batches)
    ensures exists i :: (0 <= i < |batches| && api.videos(batches[i]).Success? && v in api.videos(batches[i]).value
                          && forall j :: 0 <= j < i ==> !IsQuota(api.videos(batches[j])))
  {
    var r := api.videos(batches[0]);
    if !(r.Success? && v in r.value) {
      DetailsBeforeQuota(api, batches[1..], v);
      var i :| 0 <= i < |batches[1..]| && api.videos(batches[1..][i]).Success? && v in api.videos(batches[1..][i]).value
        && forall j :: 0 <= j < i ==> !IsQuota(api.videos(batches[1..][j]));
      assert batches[1..][i] == batches[i + 1];
      forall j | 0 <= j < i + 1 ensures !IsQuota(api.videos(batches[j])) {
        if j > 0 { assert batches[1..][j - 1] == batches[j]; }
      }
    }
  }

  /** Without a quota failure every answered batch contributes all of its items. */
  lemma {:induction false} DetailsWithoutQuota(api: Api, batches: seq<seq<string>>, i: nat, v: Video)
    requires forall j :: 0 <= j < |batches| ==> !IsQuota(api.videos(batches[j]))
    requires i < |batches| && api.videos(batches[i]).Success? && v in api.videos(batches[i]).value
    ensures v in DetailsFrom(api, batches)
    decreases i
  {
    if i > 0 {
      assert batches[1..][i - 1] == batches[i];
      forall j | 0 <= j < |batches[1..]| ensures !IsQuota(api.videos(batches[1..][j])) {
        assert batches[1..][j] == batches[j + 1];
      }
      DetailsWithoutQuota(api, batches[1..], i - 1, v);
    }
  }

  // ---------------------------------------------------------------- channel statistics

  /** The ids the cache does not hold, in order. */
  function Uncached(ids: seq<string>, cache: map<string, nat>): seq<string>
  {
    if |ids| == 0 then []
    else
      var init := ids[..|ids| - 1];
      var last := ids[|ids| - 1];
      Uncached(init, cache) + (if last in cache then [] else [last])
  }

  lemma {:induction false} UncachedMembers(ids: seq<string>, cache: map<string, nat>, id: string)
    ensures id in Uncached(ids, cache) <==> id in ids && id !in cache
  {
    if |ids| > 0 {
      var init := ids[..|ids| - 1];
      UncachedMembers(init, cache, id);
      assert ids == init + [ids[|ids| - 1]];
    }
  }

  /** The cached counts of the requested ids. */
  function CachedPart(ids: seq<string>, cache: map<string, nat>): map<string, nat>
  {
    map id | id in ids && id in cache :: cache[id]
  }

  /** The items of every batch, a failed batch giving none. */
  function ChannelItems(api: Api, batches: seq<seq<string>>): seq<(string, nat)>
  {
    if |batches| == 0 then []
    else
      var r := api.channels(batches[|batches| - 1]);
      ChannelItems(api, batches[..|batches| - 1]) + (if r.Success? then r.value else [])
  }

  /** What `_get_channel_stats_parallel` computes (main.py:1716-1761): the batches it
      sends, the counts it returns, and the cache it leaves. */
  datatype Stats = Stats(sent: seq<seq<string>>, counts: map<string, nat>, cache: map<string, nat>)

  function StatsOf(api: Api, ids: seq<string>, cache: map<string, nat>): Stats
  {
    var sent := Batches(Uncached(ids, cache), BatchSize);
    var items := ChannelItems(api, sent);
    Stats(sent, Tally(CachedPart(ids, cache), items), Tally(cache, items))
  }

  /** Ids already cached are never sent; every sent id was requested; no batch holds
      more than 50 ids. */
  lemma CachedNeverSent(api: Api, ids: seq<string>, cache: map<string, nat>, i: nat, id: string)
    requires var sent := StatsOf(api, ids, cache).sent; i < |sent| && id in sent[i]
    ensures id !in cache && id in ids
    ensures |StatsOf(api, ids, cache).sent[i]| <= BatchSize
  {
    var sent := StatsOf(api, ids, cache).sent;
    FlattenMembers(sent, i, id);
    UncachedMembers(ids, cache, id);
  }

  /** Every id is sent exactly when it is requested and not cached. */
  lemma UncachedAllSent(api: Api, ids: seq<string>, cache: map<string, nat>, id: string)
    requires id in ids && id !in cache
    ensures id in Flatten(StatsOf(api, ids, cache).sent)
  {
    UncachedMembers(ids, cache, id);
  }

  /** An API that answers a `channels.list` call only with channels it was asked for. */
  ghost predicate AnswersOnlyRequested(api: Api)
  {
    forall b: seq<string>, k :: api.channels(b).Success? && 0 <= k < |api.channels(b).value| ==>
      api.channels(b).value[k].0 in b
  }

  lemma {:induction false} ChannelItemsRequested(api: Api, batches: seq<seq<string>>, k: nat)
    requires AnswersOnlyRequested(api) && k < |ChannelItems(api, batches)|
    ensures exists i :: 0 <= i < |batches| && ChannelItems(api, batches)[k].0 in batches[i]
  {
    var init := batches[..|batches| - 1];
    var r := api.channels(batches[|batches| - 1]);
    if k < |ChannelItems(api, init)| {
      ChannelItemsRequested(api, init, k);
      var i :| 0 <= i < |init| && ChannelItems(api, init)[k].0 in init[i];
      assert init[i] == batches[i];
    } else {
      assert ChannelItems(api, batches)[k] == r.value[k - |ChannelItems(api, init)|];
    }
  }

  /** A requested id that was cached comes back with its cached value, and the cache
      keeps it, as long as the API answers only what it was asked for. */
  lemma CachedKeepsValue(api: Api, ids: seq<string>, cache: map<string, nat>, id: string)
    requires AnswersOnlyRequested(api)
    requires id in ids && id in cache
    ensures var s := StatsOf(api, ids, cache);
      id in s.counts && s.counts[id] == cache[id] && s.cache[id] == cache[id]
  {
    var s := StatsOf(api, ids, cache);
    var items := ChannelItems(api, s.sent);
    forall k | 0 <= k < |items| ensures items[k].0 != id {
      ChannelItemsRequested(api, s.sent, k);
      var i :| 0 <= i < |s.sent| && items[k].0 in s.sent[i];
      CachedNeverSent(api, ids, cache, i, items[k].0);
    }
    assert id in CachedPart(ids, cache);
    TallyLastWins(CachedPart(ids, cache), items, id);
    TallyLastWins(cache, items, id);
  }

  /** Every returned channel is written to both the result and the cache, with the
      same count. */
  lemma {:induction false} ReturnedWrittenToBoth(m1: map<string, nat>, m2: map<string, nat>,
                                                  items: seq<(string, nat)>, i: nat)
    requires i < |items|
    ensures items[i].0 in Tally(m1, items) && items[i].0 in Tally(m2, items)
    ensures Tally(m1, items)[items[i].0] == Tally(m2, items)[items[i].0]
  {
    var init := items[..|items| - 1];
    if i < |init| && items[|items| - 1].0 != items[i].0 {
      assert init[i] == items[i];
      ReturnedWrittenToBoth(m1, m2, init, i);
    }
  }

  lemma StatsAgreeOnReturned(api: Api, ids: seq<string>, cache: map<string, nat>, i: nat)
    requires i < |ChannelItems(api, StatsOf(api, ids, cache).sent)|
    ensures var s := StatsOf(api, ids, cache);
      var k := ChannelItems(api, s.sent)[i].0;
      k in s.counts && k in s.cache && s.counts[k] == s.cache[k]
  {
    var s := StatsOf(api, ids, cache);
    ReturnedWrittenToBoth(CachedPart(ids, cache), cache, ChannelItems(api, s.sent), i);
  }

  /** Nothing leaves the cache; it only grows or is overwritten. */
  lemma StatsKeepCachedKeys(api: Api, ids: seq<string>, cache: map<string, nat>)
    ensures cache.Keys <= StatsOf(api, ids, cache).cache.Keys
  {
  }

  // ---------------------------------------------------------------- filtering

  function RowOf(v: Video, counts: map<string, nat>): Row
  {
    Row(v, SubscribersOf(counts, v.channelId), 0)
  }

  /** The keep rule of main.py:1480-1483 with the language gate of main.py:1474-1478. */
  predicate Keep(req: Request, r: Row)
  {
    r.video.views >= req.minViews
    && (req.maxSubs == 0 || r.subscribers <= req.maxSubs)
    && StrictMatch(r.video.title, r.video.channelTitle, "ko")
  }

  /** The rows the loop of main.py:1466-1508 keeps, in detail order. */
  function KeptRows(req: Request, details: seq<Video>, counts: map<string, nat>): seq<Row>
  {
    if |details| == 0 then []
    else
      var row := RowOf(details[|details| - 1], counts);
      KeptRows(req, details[..|details| - 1], counts) + (if Keep(req, row) then [row] else [])
  }

  /** A row is kept exactly when it is some detail's row and passes the rule. */
  lemma {:induction false} KeptRowsMembers(req: Request, details: seq<Video>, counts: map<string, nat>, r: Row)
    ensures r in KeptRows(req, details, counts) <==>
      Keep(req, r) && exists i :: 0 <= i < |details| && r == RowOf(details[i], counts)
  {
    if |details| > 0 {
      var init := details[..|details| - 1];
      KeptRowsMembers(req, init, counts, r);
      assert forall i :: 0 <= i < |init| ==> init[i] == details[i];
      if r == RowOf(details[|details| - 1], counts) {
      }
    }
  }

  /** The rows `run` reports: the kept rows, sorted by the user's key. */
  function KeywordRows(req: Request, details: seq<Video>, counts: map<string, nat>): seq<Row>
  {
    SortResults(req.sortBy, KeptRows(req, details, counts))
  }

  /** Each reported row passes the filters, carries its channel's count, and appears
      as often as among the kept rows; the rows are in the order of the sort key. */
  lemma KeywordRowsSound(req: Request, details: seq<Video>, counts: map<string, nat>)
    ensures var rows := KeywordRows(req, details, counts);
      multiset(rows) == multiset(KeptRows(req, details, counts))
      && (req.sortBy in SortKeys ==> SortedDesc(rows, RankOf(req.sortBy)))
      && (req.sortBy !in SortKeys ==> rows == KeptRows(req, details, counts))
      && forall r :: r in rows ==>
           (Keep(req, r) && r.subscribers == SubscribersOf(counts, r.video.channelId)
            && r.video in details && r.similarity == 0)
  {
    var rows := KeywordRows(req, details, counts);
    forall r | r in rows
      ensures Keep(req, r) && r.subscribers == SubscribersOf(counts, r.video.channelId)
        && r.video in details && r.similarity == 0
    {
      assert r in multiset(KeptRows(req, details, counts));
      KeptRowsMembers(req, details, counts, r);
    }
  }

  /** A detail whose row passes the filters is reported. */
  lemma KeywordRowsComplete(req: Request, details: seq<Video>, counts: map<string, nat>, i: nat)
    requires i < |details| && Keep(req, RowOf(details[i], counts))
    ensures RowOf(details[i], counts) in KeywordRows(req, details, counts)
  {
    KeptRowsMembers(req, details, counts, RowOf(details[i], counts));
    assert RowOf(details[i], counts) in multiset(KeywordRows(req, details, counts));
  }

  // ---------------------------------------------------------------- the error signal

  /** The parsed body of an `HttpError`: its first reason ('unknown' when absent) and
      its message, when it has one. */
  datatype ErrorBody = ErrorBody(reason: string, message: Option<string>)

  /** What the handler of main.py:1513-1535 emits for an `HttpError`; `body` is None
      when the error content cannot be parsed and `text` is `str(e)`. */
  function HttpErrorSignal(body: Option<ErrorBody>, text: string): (s: ErrorSignal)
    ensures s.QuotaExceededCode? <==> body.Some? && body.value.reason == "quotaExceeded"
    ensures s.KeyInvalidCode? <==> body.Some? && body.value.reason == "keyInvalid"
    ensures !s.GeneralError?
    ensures s.ApiError? && body.Some? && body.value.message.Some? ==> s.message == body.value.message.value
    ensures s.ApiError? && (body.None? || body.value.message.None?) ==> s.message == text
  {
    match body
    case None => ApiError(text)
    case Some(b) =>
      if b.reason == "quotaExceeded" then QuotaExceededCode
      else if b.reason == "keyInvalid" then KeyInvalidCode
      else ApiError(if b.message.Some? then b.message.value else text)
  }

  /** Any other exception is reported as a general error with its text. */
  function ErrorSignalOf(http: bool, body: Option<ErrorBody>, text: string): (s: ErrorSignal)
    ensures !http ==> s == GeneralError(text)
    ensures http ==> !s.GeneralError?
  {
    if http then HttpErrorSignal(body, text) else GeneralError(text)
  }

  // ---------------------------------------------------------------- the worker

  /** The channels of the fetched videos. */
  function ChannelsOf(details: seq<Video>): set<string>
  {
    set i | 0 <= i < |details| :: details[i].channelId
  }

  class KeywordWorker {
    const request: Request
    /** `_channel_cache`: subscriber counts by channel id, kept across runs. */
    var channelCache: map<string, nat>

    constructor (request: Request)
      ensures this.request == request && channelCache == map[]
    {
      this.request := request;
      channelCache := map[];
    }

    /** `_search_videos_parallel`: the ids found and the number of `search.list` calls
        made, one for the first page, at most one per further page for the walk, and
        one more per page for the re-fetch. */
    method SearchVideos(api: Api, q: Query) returns (ids: seq<string>, calls: nat)
      ensures ids == SearchIds(api, q)
      ensures calls <= 2 * MaxPages - 1
    {
      var first := api.search(q)(None)(0);
      calls := 1;
      ids := PageIds(first);
      if IsQuota(first) { return; }
      var current := if first.Success? then first.value.next else None;
      var tokens, quota, walked := WalkTokens(api, q, current);
      calls := calls + walked;
      if |tokens| > 0 && !quota {
        var extra, fetched := Refetch(api, q, tokens);
        calls := calls + fetched;
        ids := ids + extra;
      }
    }

    /** The sequential token walk (main.py:1621-1633), one call per recorded token. A
        failed call ends the walk: it yields no next token. */
    method WalkTokens(api: Api, q: Query, start: Option<string>) returns (tokens: seq<string>, quota: bool, calls: nat)
      ensures Walk(tokens, quota) == TokenWalk(api, q, start, 1)
      ensures calls == |tokens| < MaxPages
    {
      var current := start;
      tokens, quota, calls := [], false, 0;
      var pageNum := 1;
      ghost var rest := TokenWalk(api, q, start, 1);
      while pageNum < MaxPages && HasToken(current)
        invariant 1 <= pageNum <= MaxPages
        invariant calls == |tokens| == pageNum - 1
        invariant rest == TokenWalk(api, q, current, pageNum)
        invariant TokenWalk(api, q, start, 1) == Walk(tokens + rest.tokens, rest.quota)
        decreases MaxPages - pageNum
      {
        var token := current.value;
        var r := api.search(q)(current)(0);
        TokenWalkStep(api, q, current, pageNum);
        calls := calls + 1;
        if r.Failure? {
          quota := r.error == QuotaExceeded;
          assert tokens + [token] == tokens + rest.tokens;
          tokens := tokens + [token];
          return;
        }
        current := r.value.next;
        assert tokens + rest.tokens == (tokens + [token]) + TokenWalk(api, q, current, pageNum + 1).tokens;
        tokens := tokens + [token];
        pageNum := pageNum + 1;
        rest := TokenWalk(api, q, current, pageNum);
      }
      assert rest == Walk([], false);
      assert tokens + [] == tokens;
    }

    /** The re-fetch of the walked pages (main.py:1635-1648), stopping at a quota failure. */
    method Refetch(api: Api, q: Query, tokens: seq<string>) returns (ids: seq<string>, calls: nat)
      ensures ids == RefetchIds(api, q, tokens)
      ensures calls <= |tokens|
    {
      ids, calls := [], 0;
      var i := 0;
      while i < |tokens|
        invariant 0 <= i <= |tokens| && calls <= i
        invariant RefetchIds(api, q, tokens) == ids + RefetchIds(api, q, tokens[i..])
      {
        var r := api.search(q)(Some(tokens[i]))(1);
        calls := calls + 1;
        assert tokens[i..][0] == tokens[i];
        if IsQuota(r) {
          i := |tokens|;
        } else {
          ids := ids + PageIds(r);
          assert tokens[i..][1..] == tokens[i + 1..];
          i := i + 1;
        }
      }
      assert tokens[i..] == [];
    }

    /** `_get_video_details_parallel` over batches of 50. */
    method FetchDetails(api: Api, ids: seq<string>) returns (details: seq<Video>)
      ensures details == DetailsFrom(api, Batches(ids, BatchSize))
    {
      var batches := Batches(ids, BatchSize);
      details := [];
      var i := 0;
      while i < |batches|
        invariant 0 <= i <= |batches|
        invariant DetailsFrom(api, batches) == details + DetailsFrom(api, batches[i..])
      {
        var r := api.videos(batches[i]);
        if IsQuota(r) { break; }
        if r.Success? { details := details + r.value; }
        assert batches[i..][1..] == batches[i + 1..];
        i := i + 1;
      }
    }

    /** `_get_channel_stats_parallel`: cached ids are answered from the cache, the rest
        are asked for in batches of 50, and every answer updates both the result and
        the cache. */
    method ChannelStats(api: Api, channelIds: seq<string>) returns (counts: map<string, nat>, sent: seq<seq<string>>)
      modifies this`channelCache
      ensures var s := StatsOf(api, channelIds, old(channelCache));
        sent == s.sent && counts == s.counts && channelCache == s.cache
    {
      var cached, uncached := SplitCached(channelIds);
      sent := Batches(uncached, BatchSize);
      var items := FetchChannels(api, sent);
      counts := cached;
      ghost var cache0 := channelCache;
      var j := 0;
      while j < |items|
        invariant 0 <= j <= |items|
        invariant counts == Tally(cached, items[..j])
        invariant channelCache == Tally(cache0, items[..j])
      {
        channelCache := channelCache[items[j].0 := items[j].1];
        counts := counts[items[j].0 := items[j].1];
        assert items[..j + 1][..j] == items[..j];
        j := j + 1;
      }
      assert items[..j] == items;
    }

    /** The first loop of `_get_channel_stats_parallel`: the cached counts of the
        requested ids, and the ids still to ask for. */
    method SplitCached(channelIds: seq<string>) returns (cached: map<string, nat>, uncached: seq<string>)
      ensures cached == CachedPart(channelIds, channelCache)
      ensures uncached == Uncached(channelIds, channelCache)
    {
      cached, uncached := map[], [];
      var i := 0;
      while i < |channelIds|
        invariant 0 <= i <= |channelIds|
        invariant cached == CachedPart(channelIds[..i], channelCache)
        invariant uncached == Uncached(channelIds[..i], channelCache)
      {
        var id := channelIds[i];
        assert channelIds[..i + 1][..i] == channelIds[..i];
        if id in channelCache {
          cached := cached[id := channelCache[id]];
        } else {
          uncached := uncached + [id];
        }
        i := i + 1;
      }
      assert channelIds[..i] == channelIds;
    }

    /** The `channels.list` calls, one per batch; a failed call gives nothing. */
    method FetchChannels(api: Api, batches: seq<seq<string>>) returns (items: seq<(string, nat)>)
      ensures items == ChannelItems(api, batches)
    {
      items := [];
      var b := 0;
      while b < |batches|
        invariant 0 <= b <= |batches|
        invariant items == ChannelItems(api, batches[..b])
      {
        var r := api.channels(batches[b]);
        if r.Success? { items := items + r.value; }
        assert batches[..b + 1][..b] == batches[..b];
        b := b + 1;
      }
      assert batches[..b] == batches;
    }

    /** The filtering loop (main.py:1466-1508). */
    method Filter(details: seq<Video>, counts: map<string, nat>) returns (kept: seq<Row>)
      ensures kept == KeptRows(request, details, counts)
    {
      kept := [];
      var i := 0;
      while i < |details|
        invariant 0 <= i <= |details|
        invariant kept == KeptRows(request, details[..i], counts)
      {
        var v := details[i];
        var row := Row(v, SubscribersOf(counts, v.channelId), 0);
        if row.video.views >= request.minViews && (request.maxSubs == 0 || row.subscribers <= request.maxSubs)
           && StrictMatch(v.title, v.channelTitle, "ko") {
          kept := kept + [row];
        }
        assert details[..i + 1][..i] == details[..i];
        i := i + 1;
      }
      assert details[..i] == details;
    }

    /** `run` (main.py:1425-1542). The order of the channel ids, `list(set(...))`, is
        left open; `channelIds` names the order the run used. */
    method Run(api: Api) returns (r: RunResult, ghost channelIds: seq<string>)
      modifies this`channelCache
      ensures request.keyword == "" ==> r == Failed(GeneralError(MissingKeywordText))
      ensures request.keyword != "" && request.apiKey == "" ==> r == Failed(GeneralError(MissingApiKeyText))
      ensures request.keyword != "" && request.apiKey != "" ==> r.Finished?
      ensures r.Finished? ==> r.totalCount == |r.rows|
      ensures r.Finished? ==>
        var ids := FirstOccurrences(SearchIds(api, KeywordQuery(request)), Identity);
        if |ids| == 0 then r.rows == [] && channelCache == old(channelCache)
        else
          var details := DetailsFrom(api, Batches(ids, BatchSize));
          (forall c :: c in channelIds <==> c in ChannelsOf(details))
          && var s := StatsOf(api, channelIds, old(channelCache));
          r.rows == KeywordRows(request, details, s.counts) && channelCache == s.cache
    {
      channelIds := [];
      if request.keyword == "" { return Failed(GeneralError(MissingKeywordText)), []; }
      if request.apiKey == "" { return Failed(GeneralError(MissingApiKeyText)), []; }
      var found, calls := SearchVideos(api, KeywordQuery(request));
      var ids := FirstOccurrences(found, Identity);
      if |ids| == 0 { return Finished([], 0), []; }
      var details := FetchDetails(api, ids);
      var chans := SetToSeq(ChannelsOf(details));
      channelIds := chans;
      var counts, sent := ChannelStats(api, chans);
      var kept := Filter(details, counts);
      var rows := SortResults(request.sortBy, kept);
      r := Finished(rows, |rows|);
    }
  }
}
