/** `searchSimilarVideos` of the web client (lib/youtube.ts:449-812): resolve the seed
    video, collect candidates with up to five searches of at most two pages each, fetch
    their details and channels, score them against the seed, rank them, diversify the
    channels, filter, sort and cut to the limit.

    A failing search page is swallowed (the strategy is skipped, or its second page
    dropped); a failing seed, details or channel lookup ends the search. */
module YouTubeSimilar {
  import opened Wrappers
  import opened Seqs
  import opened Sorting
  import opened Videos
  import opened Score
  import opened Seed
  import opened YouTubeClient
  import opened Diversify
  import SimilarRun

  datatype SearchError =
    | UrlRequired            // no url given
    | InvalidUrl             // no video id in the url
    | OriginalNotFound       // the seed lookup returned no item
    | RequestFailed(failure: ApiFailure)

  /** The results, their count after filtering (before the cut), and the metadata. */
  datatype SimilarResponse = SimilarResponse(
    results: seq<Row>, totalCount: nat, originalId: string, originalTitle: string, language: string)

  /** One search strategy: the parameter that selects it and how many results it asks for. */
  datatype Strategy = Strategy(key: string, value: string, maxResults: nat)

  // ---------------------------------------------------------------- the strategies

  /** lib/youtube.ts:524-553: the channel, the title, the first three tags (if any), the
      first three hashtags (if any), then the first topic or else the category (if any). */
  function Strategies(seed: Video, hashtags: seq<string>): seq<Strategy>
  {
    [Strategy("channelId", seed.channelId, 40), Strategy("q", seed.title, 25)]
    + (if |seed.tags| > 0 then [Strategy("q", JoinSpace(SimilarRun.Take3(seed.tags)), 20)] else [])
    + (if |hashtags| > 0 then [Strategy("q", JoinSpace(SimilarRun.HashPrefixed(SimilarRun.Take3(hashtags))), 15)] else [])
    + (if |seed.topicIds| > 0 then [Strategy("topicId", seed.topicIds[0], 15)]
       else if seed.categoryId != "" then [Strategy("videoCategoryId", seed.categoryId, 15)]
       else [])
  }

  /** Between two and five strategies: the channel first with 40 results, the title next
      with 25; a tag search exactly when the seed has tags, a hashtag search exactly when
      it has hashtags, and a topic or category search last when it has either. */
  lemma StrategiesShape(seed: Video, hashtags: seq<string>)
    ensures var s := Strategies(seed, hashtags);
      2 <= |s| <= 5
      && s[0] == Strategy("channelId", seed.channelId, 40) && s[1] == Strategy("q", seed.title, 25)
      && |s| == 2 + (if |seed.tags| > 0 then 1 else 0) + (if |hashtags| > 0 then 1 else 0)
                  + (if |seed.topicIds| > 0 || seed.categoryId != "" then 1 else 0)
      && (|seed.topicIds| > 0 ==> s[|s| - 1] == Strategy("topicId", seed.topicIds[0], 15))
      && (|seed.topicIds| == 0 && seed.categoryId != "" ==> s[|s| - 1] == Strategy("videoCategoryId", seed.categoryId, 15))
      && forall i :: 0 <= i < |s| ==> s[i].key in {"channelId", "q", "topicId", "videoCategoryId"}
  {
  }

  /** `commonParams` merged with one strategy (lib/youtube.ts:558-591). The duration
      filter is never sent: the adjusted duration is always 'any'. */
  function StrategyParams(language: string, after: Option<int>, s: Strategy): seq<(string, Option<Value>)>
  {
    [("part", Some(Str("snippet"))), ("type", Some(Str("video"))), ("order", Some(Str("relevance"))),
     ("relevanceLanguage", Some(Str(language))), ("regionCode", Some(Str(RegionCode(language))))]
    + (if after.Some? then [("publishedAfter", Some(Num(after.value)))] else [])
    + [(s.key, Some(Str(s.value))), ("maxResults", Some(Num(s.maxResults)))]
  }

  /** No similar search sends a duration filter, whatever the request asked for. */
  lemma NoDurationFilter(apiKey: string, language: string, after: Option<int>, s: Strategy)
    requires s.key != "videoDuration"
    ensures "videoDuration" !in SentParams(apiKey, StrategyParams(language, after, s))
  {
    var params := StrategyParams(language, after, s);
    SentParamsGiven(apiKey, params, "videoDuration");
  }

  // ---------------------------------------------------------------- candidates

  /** `candidateVideoIds.add(id)` for each id that is present and not the seed's, in
      insertion order (a `Set` iterates in insertion order). */
  function Admit(cands: seq<string>, ids: seq<string>, seedId: string): (r: seq<string>)
    ensures |cands| <= |r|
  {
    if |ids| == 0 then cands
    else
      var c := Admit(cands, ids[..|ids| - 1], seedId);
      var id := ids[|ids| - 1];
      if id != "" && id != seedId && id !in c then c + [id] else c
  }

  /** Admitting keeps what was there in front, adds each new id once, and adds exactly
      the present ids other than the seed's. */
  lemma {:induction false} AdmitShape(cands: seq<string>, ids: seq<string>, seedId: string)
    requires forall i, j :: 0 <= i < j < |cands| ==> cands[i] != cands[j]
    ensures var r := Admit(cands, ids, seedId);
      r[..|cands|] == cands
      && (forall i, j :: 0 <= i < j < |r| ==> r[i] != r[j])
      && forall x :: x in r <==> x in cands || (x in ids && x != "" && x != seedId)
  {
    if |ids| > 0 {
      var init := ids[..|ids| - 1];
      AdmitShape(cands, init, seedId);
      var c := Admit(cands, init, seedId);
      var id := ids[|ids| - 1];
      assert ids == init + [id];
      if id != "" && id != seedId && id !in c {
        assert (c + [id])[..|cands|] == c[..|cands|];
      }
    }
  }

  /** The ids of the page a search reply carries; none for a failed request. */
  function ReplyIds(reply: Reply<Page>): seq<string>
  {
    if reply.Ok? then reply.data.ids else []
  }

  /** One strategy (lib/youtube.ts:582-622): the first page, then the second page when
      a token came back and the target is not yet reached; a failed page adds nothing. */
  function StrategyCandidates(api: Api, params: map<string, Value>, seedId: string, cands: seq<string>, target: nat)
    : seq<string>
  {
    var first := api.search(params)(None);
    if first.NotOk? then cands
    else
      var c := Admit(cands, first.data.ids, seedId);
      if HasToken(first.data.next) && |c| < target then
        Admit(c, ReplyIds(api.search(params)(first.data.next)), seedId)
      else c
  }

  /** The ids a strategy may contribute: those of its first page and of the page after. */
  function StrategyPages(api: Api, params: map<string, Value>): seq<string>
  {
    var first := api.search(params)(None);
    if first.NotOk? then [] else first.data.ids + ReplyIds(api.search(params)(first.data.next))
  }

  lemma StrategyCandidatesShape(api: Api, params: map<string, Value>, seedId: string, cands: seq<string>, target: nat)
    requires forall i, j :: 0 <= i < j < |cands| ==> cands[i] != cands[j]
    ensures var r := StrategyCandidates(api, params, seedId, cands, target);
      |cands| <= |r| && r[..|cands|] == cands
      && (forall i, j :: 0 <= i < j < |r| ==> r[i] != r[j])
      && forall x :: x in r ==> x in cands || (x in StrategyPages(api, params) && x != "" && x != seedId)
  {
    var first := api.search(params)(None);
    if first.Ok? {
      AdmitShape(cands, first.data.ids, seedId);
      var c := Admit(cands, first.data.ids, seedId);
      var second := ReplyIds(api.search(params)(first.data.next));
      AdmitShape(c, second, seedId);
      var r := Admit(c, second, seedId);
      assert r[..|cands|] == r[..|c|][..|cands|];
    }
  }

  /** All strategies in turn, stopping before a strategy once `target` ids are in. */
  function Collect(api: Api, plans: seq<map<string, Value>>, seedId: string, cands: seq<string>, target: nat)
    : seq<string>
  {
    if |plans| == 0 || |cands| >= target then cands
    else Collect(api, plans[1..], seedId, StrategyCandidates(api, plans[0], seedId, cands, target), target)
  }

  /** The candidates are distinct, never the seed, never empty, each returned by some
      strategy's pages, in the order first seen. */
  lemma {:induction false} CollectSound(api: Api, plans: seq<map<string, Value>>, seedId: string, cands: seq<string>,
                                        target: nat)
    requires forall i, j :: 0 <= i < j < |cands| ==> cands[i] != cands[j]
    ensures var r := Collect(api, plans, seedId, cands, target);
      |cands| <= |r| && r[..|cands|] == cands
      && (forall i, j :: 0 <= i < j < |r| ==> r[i] != r[j])
      && forall x :: x in r ==>
           (x in cands || (x != "" && x != seedId && exists s :: 0 <= s < |plans| && x in StrategyPages(api, plans[s])))
  {
    if |plans| > 0 && |cands| < target {
      var c := StrategyCandidates(api, plans[0], seedId, cands, target);
      StrategyCandidatesShape(api, plans[0], seedId, cands, target);
      CollectSound(api, plans[1..], seedId, c, target);
      var r := Collect(api, plans[1..], seedId, c, target);
      assert r[..|cands|] == r[..|c|][..|cands|];
      forall x | x in r && x !in cands
        ensures x != "" && x != seedId && exists s :: 0 <= s < |plans| && x in StrategyPages(api, plans[s])
      {
        if x in c {
          assert x in StrategyPages(api, plans[0]);
        } else {
          var s :| 0 <= s < |plans[1..]| && x in StrategyPages(api, plans[1..][s]);
          assert plans[1..][s] == plans[s + 1];
        }
      }
    }
  }

  /** Every present id of the first strategy's first page, other than the seed's, is a
      candidate: the target is never reached before the first strategy. */
  lemma CollectKeepsFirstPage(api: Api, plans: seq<map<string, Value>>, seedId: string, target: nat, x: string)
    requires |plans| > 0 && target > 0
    requires api.search(plans[0])(None).Ok? && x in api.search(plans[0])(None).data.ids && x != "" && x != seedId
    ensures x in Collect(api, plans, seedId, [], target)
  {
    var first := api.search(plans[0])(None);
    AdmitShape([], first.data.ids, seedId);
    var c := Admit([], first.data.ids, seedId);
    if HasToken(first.data.next) && |c| < target {
      AdmitShape(c, ReplyIds(api.search(plans[0])(first.data.next)), seedId);
    }
    var c' := StrategyCandidates(api, plans[0], seedId, [], target);
    assert x in c';
    CollectSound(api, plans[1..], seedId, c', target);
  }

  /** Once the target is reached, no further strategy is searched. */
  lemma CollectStopsAtTarget(api: Api, plans: seq<map<string, Value>>, seedId: string, cands: seq<string>, target: nat)
    requires |cands| >= target
    ensures Collect(api, plans, seedId, cands, target) == cands
  {
  }

  // ---------------------------------------------------------------- ranking

  /** `Math.max(resultsLimit * 3, 100)` */
  function CandidateTarget(resultsLimit: nat): (t: nat)
    ensures t >= 100 && t >= 3 * resultsLimit && (t == 100 || t == 3 * resultsLimit)
  {
    if 3 * resultsLimit > 100 then 3 * resultsLimit else 100
  }

  /** Each video with its channel's count and its score against the seed. */
  function Scored(seed: TsSeed, videos: seq<Video>, counts: map<string, nat>): (r: seq<Row>)
    ensures |r| == |videos|
  {
    seq(|videos|, i requires 0 <= i < |videos| =>
      Row(videos[i], SubscribersOf(counts, videos[i].channelId), TsScore(seed, videos[i])))
  }

  /** The rows at the picked positions. */
  function Pick(rows: seq<Row>, picks: seq<nat>): (r: seq<Row>)
    requires Below(picks, |rows|)
    ensures |r| == |picks|
  {
    seq(|picks|, k requires 0 <= k < |picks| => rows[picks[k]])
  }

  /** The score is not part of the results. */
  function Unscored(rows: seq<Row>): (r: seq<Row>)
    ensures |r| == |rows|
  {
    seq(|rows|, i requires 0 <= i < |rows| => Row(rows[i].video, rows[i].subscribers, 0))
  }

  /** From the ranked rows: diversify, filter, sort, cut (lib/youtube.ts:704-811). */
  function Finish(ranked: seq<Row>, seedChannel: string, resultsLimit: nat, f: Filters): (seq<Row>, nat)
  {
    var picks := Diversified(ranked, seedChannel, resultsLimit);
    DiversifiedInRange(ranked, seedChannel, resultsLimit);
    var kept := ApplyFilters(f, Pick(ranked, picks));
    var sorted := SortResults(f.sortBy, kept);
    (Unscored(if |sorted| <= resultsLimit then sorted else sorted[..resultsLimit]), |kept|)
  }

  /** At most `resultsLimit` results, no more than the count reported, which is at most
      `min(resultsLimit, n)` (1 for a limit of 0); without filters the count is exactly
      that; every result passed the filters, and the results follow the sort key. */
  lemma FinishShape(ranked: seq<Row>, seedChannel: string, resultsLimit: nat, f: Filters)
    ensures var (results, total) := Finish(ranked, seedChannel, resultsLimit, f);
      var expected := if resultsLimit == 0 && |ranked| > 0 then 1 else Target(resultsLimit, |ranked|);
      |results| <= resultsLimit && |results| <= total <= expected
      && (f.minViews == 0 && f.maxSubscribers == 0 ==> total == expected)
      && (forall r :: r in results ==> r.similarity == 0 && PassesFilters(f, r))
  {
    var picks := Diversified(ranked, seedChannel, resultsLimit);
    DiversifiedShape(ranked, seedChannel, resultsLimit);
    var picked := Pick(ranked, picks);
    var kept := ApplyFilters(f, picked);
    var sorted := SortResults(f.sortBy, kept);
    var cut := if |sorted| <= resultsLimit then sorted else sorted[..resultsLimit];
    var results := Unscored(cut);
    FilterLength(f, picked);
    forall r | r in results ensures r.similarity == 0 && PassesFilters(f, r) {
      var i :| 0 <= i < |results| && results[i] == r;
      assert cut[i] in multiset(kept);
      ApplyFiltersMembers(f, picked, cut[i]);
    }
  }

  lemma FilterLength(f: Filters, rows: seq<Row>)
    ensures |ApplyFilters(f, rows)| <= |rows|
    ensures f.minViews == 0 && f.maxSubscribers == 0 ==> ApplyFilters(f, rows) == rows
  {
  }

  // ---------------------------------------------------------------- the whole search

  /** The request each strategy sends. */
  function Plans(apiKey: string, language: string, after: Option<int>, strategies: seq<Strategy>)
    : (plans: seq<map<string, Value>>)
  {
    seq(|strategies|, i requires 0 <= i < |strategies| => SentParams(apiKey, StrategyParams(language, after, strategies[i])))
  }

  function SeedPlans(apiKey: string, seed: Video, f: Filters, nowMs: int): seq<map<string, Value>>
  {
    Plans(apiKey, TsLanguageCode(seed.defaultAudioLanguage), TsSimilarPublishedAfter(f.period, nowMs),
          Strategies(seed, MakeTsSeed(seed).hashtags))
  }

  /** The candidates' details and channel counts, scored and ranked by score (a stable
      sort, so equal scores keep the candidates' order). */
  function Ranked(api: Api, seed: Video, cands: seq<string>): Result<seq<Row>, SearchError>
  {
    var details := DetailsOf(api, Batches(cands, BatchSize));
    if details.Failure? then Failure(RequestFailed(details.error))
    else
      var videos := details.value;
      var counts := CountsOf(api, ChannelBatches(ChannelIds(videos)), map[]);
      if counts.Failure? then Failure(RequestFailed(counts.error))
      else Success(SortDesc(Scored(MakeTsSeed(seed), videos, counts.value), Similarity))
  }

  function ChannelIds(videos: seq<Video>): seq<string>
  {
    seq(|videos|, i requires 0 <= i < |videos| => videos[i].channelId)
  }

  /** The search from a resolved seed and its candidates. */
  function Respond(api: Api, seedId: string, seed: Video, cands: seq<string>, resultsLimit: nat, f: Filters)
    : Result<SimilarResponse, SearchError>
  {
    var language := TsLanguageCode(seed.defaultAudioLanguage);
    if |cands| == 0 then Success(SimilarResponse([], 0, seedId, seed.title, language))
    else
      var ranked := Ranked(api, seed, cands);
      if ranked.Failure? then Failure(ranked.error)
      else
        var (results, total) := Finish(ranked.value, seed.channelId, resultsLimit, f);
        Success(SimilarResponse(results, total, seedId, seed.title, language))
  }

  /** The search from a resolved seed. */
  function SearchFrom(api: Api, apiKey: string, seedId: string, seed: Video, resultsLimit: nat, f: Filters, nowMs: int)
    : Result<SimilarResponse, SearchError>
  {
    Respond(api, seedId, seed, Collect(api, SeedPlans(apiKey, seed, f, nowMs), seedId, [], CandidateTarget(resultsLimit)),
            resultsLimit, f)
  }

  /** `searchSimilarVideos`: the url checks and the seed lookup, then the search. */
  function SimilarSearch(api: Api, apiKey: string, url: string, resultsLimit: nat, f: Filters, nowMs: int)
    : Result<SimilarResponse, SearchError>
  {
    if |url| == 0 then Failure(UrlRequired)
    else
      match ExtractVideoId(url)
      case None => Failure(InvalidUrl)
      case Some(id) =>
        var reply := api.videos([id]);
        if reply.NotOk? then Failure(RequestFailed(Outcome(reply).error))
        else if |reply.data| == 0 then Failure(OriginalNotFound)
        else SearchFrom(api, apiKey, id, reply.data[0], resultsLimit, f, nowMs)
  }

  /** A search from a seed reports the seed's id and title and its language code (two
      letters at most, 'ko' when the seed has none), at most `resultsLimit` results (none
      when no candidate was found), no more than its count, each passing the filters. */
  lemma RespondShape(api: Api, seedId: string, seed: Video, cands: seq<string>, resultsLimit: nat, f: Filters)
    ensures var r := Respond(api, seedId, seed, cands, resultsLimit, f);
      r.Success? ==>
        r.value.originalId == seedId && r.value.originalTitle == seed.title
        && r.value.language == TsLanguageCode(seed.defaultAudioLanguage)
        && (|cands| == 0 ==> r.value.results == [] && r.value.totalCount == 0)
        && |r.value.results| <= resultsLimit && |r.value.results| <= r.value.totalCount
        && (forall row :: row in r.value.results ==> PassesFilters(f, row))
  {
    if |cands| > 0 && Ranked(api, seed, cands).Success? {
      FinishShape(Ranked(api, seed, cands).value, seed.channelId, resultsLimit, f);
    }
  }

  /** The outcomes of a search: no url, a url without an id and a seed that is not found
      each have their own error; a successful search is one from the seed the url names. */
  lemma SimilarSearchOutcome(api: Api, apiKey: string, url: string, resultsLimit: nat, f: Filters, nowMs: int)
    ensures var r := SimilarSearch(api, apiKey, url, resultsLimit, f, nowMs);
      (|url| == 0 ==> r == Failure(UrlRequired))
      && (|url| > 0 && ExtractVideoId(url).None? ==> r == Failure(InvalidUrl))
      && (|url| > 0 && ExtractVideoId(url).Some? && api.videos([ExtractVideoId(url).value]) == Ok([]) ==>
            r == Failure(OriginalNotFound))
      && (r.Success? ==>
            var id := ExtractVideoId(url).value;
            ExtractVideoId(url).Some? && api.videos([id]).Ok? && |api.videos([id]).data| > 0
            && r == SearchFrom(api, apiKey, id, api.videos([id]).data[0], resultsLimit, f, nowMs))
  {
  }

  // ---------------------------------------------------------------- the code as written

  /** The `for ... of items` of one page: add each present id that is not the seed's. */
  method AdmitIds(cands: seq<string>, ids: seq<string>, seedId: string) returns (r: seq<string>)
    ensures r == Admit(cands, ids, seedId)
  {
    r := cands;
    var i := 0;
    while i < |ids|
      invariant i <= |ids|
      invariant r == Admit(cands, ids[..i], seedId)
    {
      assert ids[..i + 1][..i] == ids[..i];
      if ids[i] != "" && ids[i] != seedId && ids[i] !in r {
        r := r + [ids[i]];
      }
      i := i + 1;
    }
    assert ids[..i] == ids;
  }

  /** One strategy's `try` block with its nested `try` for the second page. */
  method SearchStrategy(api: Api, params: map<string, Value>, seedId: string, cands: seq<string>, target: nat)
    returns (r: seq<string>)
    ensures r == StrategyCandidates(api, params, seedId, cands, target)
  {
    var response := api.search(params)(None);
    if response.NotOk? {
      return cands;
    }
    r := AdmitIds(cands, response.data.ids, seedId);
    if HasToken(response.data.next) && |r| < target {
      var next := api.search(params)(response.data.next);
      if next.Ok? {
        r := AdmitIds(r, next.data.ids, seedId);
      }
    }
  }

  /** The strategy loop (lib/youtube.ts:580-623). */
  method CollectCandidates(api: Api, plans: seq<map<string, Value>>, seedId: string, target: nat)
    returns (cands: seq<string>)
    ensures cands == Collect(api, plans, seedId, [], target)
  {
    cands := [];
    var s := 0;
    while s < |plans|
      invariant s <= |plans|
      invariant Collect(api, plans, seedId, [], target) == Collect(api, plans[s..], seedId, cands, target)
    {
      if |cands| >= target {
        return;
      }
      assert plans[s..][1..] == plans[s + 1..];
      cands := SearchStrategy(api, plans[s], seedId, cands, target);
      s := s + 1;
    }
  }

  /** Builds each strategy's request: `commonParams` merged with the strategy, sent
      through `makeRequest`'s filter. */
  method PlanParams(apiKey: string, language: string, after: Option<int>, strategies: seq<Strategy>)
    returns (plans: seq<map<string, Value>>)
    ensures plans == Plans(apiKey, language, after, strategies)
  {
    plans := [];
    var i := 0;
    while i < |strategies|
      invariant i <= |strategies| && |plans| == i
      invariant forall k :: 0 <= k < i ==> plans[k] == SentParams(apiKey, StrategyParams(language, after, strategies[k]))
    {
      var params := BuildParams(apiKey, StrategyParams(language, after, strategies[i]));
      plans := plans + [params];
      i := i + 1;
    }
  }

  /** `searchSimilarVideos` (lib/youtube.ts:449-812). */
  method SearchSimilarVideos(api: Api, apiKey: string, url: string, resultsLimit: nat, f: Filters, nowMs: int)
    returns (r: Result<SimilarResponse, SearchError>)
    ensures r == SimilarSearch(api, apiKey, url, resultsLimit, f, nowMs)
  {
    if |url| == 0 {
      return Failure(UrlRequired);
    }
    var videoId := ExtractVideoId(url);
    if videoId.None? {
      return Failure(InvalidUrl);
    }
    var original := api.videos([videoId.value]);
    if original.NotOk? {
      return Failure(RequestFailed(Outcome(original).error));
    }
    if |original.data| == 0 {
      return Failure(OriginalNotFound);
    }
    r := SearchFromSeed(api, apiKey, videoId.value, original.data[0], resultsLimit, f, nowMs);
  }

  /** Details, channels, scores and the ranking. */
  method Rank(api: Api, seed: Video, cands: seq<string>) returns (r: Result<seq<Row>, SearchError>)
    ensures r == Ranked(api, seed, cands)
  {
    var details := GetVideoDetails(api, cands);
    if details.Failure? {
      return Failure(RequestFailed(details.error));
    }
    var videos := details.value;
    var counts := GetChannelSubscribers(api, ChannelIds(videos));
    if counts.Failure? {
      return Failure(RequestFailed(counts.error));
    }
    r := Success(SortDesc(Scored(MakeTsSeed(seed), videos, counts.value), Similarity));
  }

  /** Diversify, filter, sort and cut. */
  method Select(ranked: seq<Row>, seedChannel: string, resultsLimit: nat, f: Filters) returns (results: seq<Row>, total: nat)
    ensures (results, total) == Finish(ranked, seedChannel, resultsLimit, f)
  {
    var picks := Diversify.Diversify(ranked, seedChannel, resultsLimit);
    DiversifiedInRange(ranked, seedChannel, resultsLimit);
    var kept := ApplyFilters(f, Pick(ranked, picks));
    var sorted := SortResults(f.sortBy, kept);
    results := Unscored(if |sorted| <= resultsLimit then sorted else sorted[..resultsLimit]);
    total := |kept|;
  }

  /** Everything after the seed lookup. */
  method SearchFromSeed(api: Api, apiKey: string, seedId: string, seed: Video, resultsLimit: nat, f: Filters, nowMs: int)
    returns (r: Result<SimilarResponse, SearchError>)
    ensures r == SearchFrom(api, apiKey, seedId, seed, resultsLimit, f, nowMs)
  {
    var plans := PlanParams(apiKey, TsLanguageCode(seed.defaultAudioLanguage), TsSimilarPublishedAfter(f.period, nowMs),
                            Strategies(seed, MakeTsSeed(seed).hashtags));
    var cands := CollectCandidates(api, plans, seedId, CandidateTarget(resultsLimit));
    r := Answer(api, seedId, seed, cands, resultsLimit, f);
  }

  /** Everything after the candidate search. */
  method Answer(api: Api, seedId: string, seed: Video, cands: seq<string>, resultsLimit: nat, f: Filters)
    returns (r: Result<SimilarResponse, SearchError>)
    ensures r == Respond(api, seedId, seed, cands, resultsLimit, f)
  {
    var language := TsLanguageCode(seed.defaultAudioLanguage);
    if |cands| == 0 {
      return Success(SimilarResponse([], 0, seedId, seed.title, language));
    }
    var ranked := Rank(api, seed, cands);
    if ranked.Failure? {
      return Failure(ranked.error);
    }
    var results, total := Select(ranked.value, seed.channelId, resultsLimit, f);
    r := Success(SimilarResponse(results, total, seedId, seed.title, language));
  }
}
