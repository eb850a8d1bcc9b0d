/** `SimilarVideoWorker.run` (main.py:1013-1305): resolve the seed video, collect
    candidates with five searches, fetch their details in batches of 50, score them
    against the seed, keep the best 50, look up their channels' subscriber counts,
    filter and sort.

    The YouTube Data API is an oracle (`Api`): for each request it gives what each of
    the three attempts of the retry wrappers returns. The cancellation flag is set by
    another thread; `cancelAt` is the number of reads of the flag that happen before it
    is set. Progress is the list of percentages emitted. */
module SimilarRun {
  import opened Wrappers
  import opened Text
  import opened Seqs
  import opened Sorting
  import opened Videos
  import opened Score
  import opened Language
  import opened Duration
  import opened Seed
  import opened Retry
  import opened Progress

  datatype Request = Request(
    url: string,
    uploadPeriod: string,
    minViews: nat,
    sortBy: string,
    videoDuration: string,
    maxSubs: nat,
    nowMs: int)           // the search time, `datetime.now(timezone.utc)`

  /** The parameters of one `search.list` call once the `None` values are dropped
      (main.py:1141-1143); `part` and `type` are the same for all and left out. */
  datatype Query = Query(
    channelId: Option<string>,
    q: Option<string>,
    topicId: Option<string>,
    categoryId: Option<string>,
    maxResults: nat,
    language: string,
    region: string,
    duration: Option<string>,
    publishedAfter: Option<int>)

  /** What each attempt of each request returns. A search item is its `id.videoId`
      ("" when absent); a channel item is its id with its subscriber count. */
  datatype Api = Api(
    search: Query -> nat -> Outcome<string>,
    videos: seq<string> -> nat -> Outcome<Video>,
    channels: seq<string> -> nat -> Outcome<(string, nat)>)

  datatype SeedError = InvalidUrl | VideoNotFound

  datatype RunResult =
    | Finished(rows: seq<Row>, totalCount: nat)
    | Failed(reason: SeedError)  // the `ValueError`s of main.py:1033 and 1036
    | Cancelled                  // `run` returned at a cancellation check
    | Aborted                    // a `KeyboardInterrupt` escaped `_channels_with_retry`

  const BatchSize: nat := 50
  const TopCount: nat := 50

  // ---------------------------------------------------------------- duration gate

  /** The duration filter sent to the search (main.py:1090-1100): a request that the
      seed itself contradicts is relaxed to 'any'. */
  function AdjustDuration(requested: string, seedSeconds: nat): (r: string)
    ensures requested == "any" ==> r == "any"
    ensures r == requested || r == "any"
    ensures r == "short" ==> seedSeconds < 60
    ensures r == "long" ==> seedSeconds >= 60
    ensures requested == "long" && seedSeconds >= 60 ==> r == "long"
    ensures requested == "short" && seedSeconds < 60 ==> r == "short"
    ensures requested !in {"any", "short", "long"} ==> r == requested
  {
    if requested == "any" then "any"
    else if seedSeconds < 60 && requested == "long" then "any"
    else if seedSeconds >= 60 && requested == "short" then "any"
    else requested
  }

  /** The re-check of a candidate's length when the search filter is 'any'
      (main.py:1256-1273): the user's own choice, short under 60 s, long from 60 s. */
  predicate DurationRecheck(requested: string, seconds: nat)
  {
    requested == "any" || (requested == "short" && seconds < 60) || (requested == "long" && seconds >= 60)
  }

  /** Whatever the seed, a result that passed the re-check has the length the user
      asked for, even though the search itself was relaxed. */
  lemma RelaxedSearchStillHonoursRequest(requested: string, seedSeconds: nat, seconds: nat)
    requires requested in {"short", "long"}
    requires AdjustDuration(requested, seedSeconds) == "any" && DurationRecheck(requested, seconds)
    ensures requested == "short" ==> seconds < 60
    ensures requested == "long" ==> seconds >= 60
    ensures requested == "short" <==> seedSeconds >= 60
  {
  }

  // ---------------------------------------------------------------- the filter

  /** A scored row survives the final loop (main.py:1248-1278). */
  predicate Keep(req: Request, seedLanguage: string, adjusted: string, r: Row)
  {
    SimilarLanguageMatch(r.video.title, r.video.channelTitle, seedLanguage)
    && (adjusted == "any" ==> DurationRecheck(req.videoDuration, PySeconds(r.video.duration)))
    && r.video.views >= req.minViews
    && (req.maxSubs == 0 || r.subscribers <= req.maxSubs)
  }

  /** The rows that pass, in order. */
  function Kept(req: Request, seedLanguage: string, adjusted: string, rows: seq<Row>): (r: seq<Row>)
    ensures |r| <= |rows|
  {
    if |rows| == 0 then []
    else
      var last := rows[|rows| - 1];
      Kept(req, seedLanguage, adjusted, rows[..|rows| - 1])
        + (if Keep(req, seedLanguage, adjusted, last) then [last] else [])
  }

  /** Filtering one more row appends it exactly when it passes. */
  lemma KeptStep(req: Request, seedLanguage: string, adjusted: string, rows: seq<Row>, i: nat)
    requires i < |rows|
    ensures Kept(req, seedLanguage, adjusted, rows[..i + 1])
      == Kept(req, seedLanguage, adjusted, rows[..i]) + (if Keep(req, seedLanguage, adjusted, rows[i]) then [rows[i]] else [])
  {
    assert rows[..i + 1][..i] == rows[..i];
  }

  /** A row is kept exactly when it is one of the rows and passes the filter. */
  lemma {:induction false} KeptMembers(req: Request, seedLanguage: string, adjusted: string, rows: seq<Row>)
    ensures forall x :: x in Kept(req, seedLanguage, adjusted, rows) <==> x in rows && Keep(req, seedLanguage, adjusted, x)
    decreases |rows|
  {
    if |rows| > 0 {
      var last := rows[|rows| - 1];
      assert rows == rows[..|rows| - 1] + [last];
      KeptMembers(req, seedLanguage, adjusted, rows[..|rows| - 1]);
    }
  }

  // ---------------------------------------------------------------- the five searches

  function Take3(s: seq<string>): (r: seq<string>)
    ensures |r| <= 3 && |r| <= |s| && r == s[..|r|]
    ensures |s| >= 3 ==> |r| == 3
    ensures |s| < 3 ==> r == s
  {
    if |s| <= 3 then s else s[..3]
  }

  /** The words longer than two characters, in order. */
  function LongWords(ws: seq<string>): (r: seq<string>)
    ensures |r| <= |ws|
  {
    if |ws| == 0 then []
    else LongWords(ws[..|ws| - 1]) + (if |ws[|ws| - 1]| > 2 then [ws[|ws| - 1]] else [])
  }

  /** A word survives exactly when it is longer than two characters. */
  lemma {:induction false} LongWordsMembers(ws: seq<string>, w: string)
    ensures w in LongWords(ws) <==> w in ws && |w| > 2
  {
    if |ws| > 0 {
      LongWordsMembers(ws[..|ws| - 1], w);
      assert ws == ws[..|ws| - 1] + [ws[|ws| - 1]];
    }
  }

  function HashPrefixed(hs: seq<string>): (r: seq<string>)
  {
    if |hs| == 0 then [] else ["#" + hs[0]] + HashPrefixed(hs[1..])
  }

  /** The five searches of main.py:1107-1113 with the common parameters of
      main.py:1116-1126. `hashtags` is the seed's distinct hashtags in the (unspecified)
      order of `list(set(...))`. */
  function SearchTasks(seed: Video, hashtags: seq<string>, language: string, region: string,
                       adjusted: string, after: Option<int>): (r: seq<Query>)
    ensures |r| == 5
  {
    var duration := if adjusted != "any" then Some(adjusted) else None;
    var tagQuery := if |seed.tags| > 0 then JoinSpace(Take3(seed.tags)) else seed.channelTitle;
    var hashQuery := if |hashtags| > 0 then JoinSpace(HashPrefixed(Take3(hashtags)))
                     else JoinSpace(Take3(LongWords(PyWords(seed.title))));
    var topic := if |seed.topicIds| > 0 then Some(seed.topicIds[0]) else None;
    var category := if |seed.topicIds| > 0 then None else Some(seed.categoryId);
    [ Query(Some(seed.channelId), None, None, None, 40, language, region, duration, after),
      Query(None, Some(seed.title), None, None, 25, language, region, duration, after),
      Query(None, Some(tagQuery), None, None, 20, language, region, duration, after),
      Query(None, Some(hashQuery), None, None, 15, language, region, duration, after),
      Query(None, None, topic, category, 15, language, region, duration, after) ]
  }

  /** What the five searches ask for: every one carries the common parameters, with a
      duration exactly when the adjusted filter is not 'any'; the channel search comes
      first with 40 results; the third falls back to the channel title without tags;
      the fourth searches the first three hashtags; the last searches by topic or, with
      no topic, by category, never both. */
  lemma SearchTasksShape(seed: Video, hashtags: seq<string>, language: string, region: string,
                         adjusted: string, after: Option<int>)
    ensures var r := SearchTasks(seed, hashtags, language, region, adjusted, after);
      && (forall i :: 0 <= i < 5 ==>
            r[i].language == language && r[i].region == region && r[i].publishedAfter == after
            && (r[i].duration.Some? <==> adjusted != "any")
            && (r[i].duration.Some? ==> r[i].duration.value == adjusted))
      && r[0].channelId == Some(seed.channelId) && r[0].q.None? && r[0].maxResults == 40
      && r[1].q == Some(seed.title) && r[1].maxResults == 25
      && (|seed.tags| == 0 ==> r[2].q == Some(seed.channelTitle))
      && (|hashtags| > 0 ==> r[3].q == Some(JoinSpace(HashPrefixed(Take3(hashtags)))))
      && r[4].topicId.Some? != r[4].categoryId.Some?
      && (r[4].topicId.Some? <==> |seed.topicIds| > 0)
  {
  }

  // ---------------------------------------------------------------- what the phases compute

  /** The ids one search contributes when the flag is clear. */
  function SearchIds(api: Api, q: Query): seq<string>
  {
    RetryItems(api.search(q), SearchRetryable)
  }

  /** The non-empty ids of one search's items. */
  function NonEmpty(ids: seq<string>): (r: set<string>)
    ensures forall id :: id in r <==> id in ids && id != ""
  {
    set i | 0 <= i < |ids| && ids[i] != "" :: ids[i]
  }

  /** The union of the non-empty ids all searches return (main.py:1128-1147). */
  function CandidateIds(api: Api, tasks: seq<Query>): (r: set<string>)
    ensures "" !in r
  {
    if |tasks| == 0 then {}
    else CandidateIds(api, tasks[..|tasks| - 1]) + NonEmpty(SearchIds(api, tasks[|tasks| - 1]))
  }

  /** A candidate is exactly a non-empty id that some search returned. */
  lemma {:induction false} CandidateIdsMembers(api: Api, tasks: seq<Query>, id: string)
    ensures id in CandidateIds(api, tasks) <==>
      id != "" && exists i :: 0 <= i < |tasks| && id in SearchIds(api, tasks[i])
  {
    if |tasks| > 0 {
      var init := tasks[..|tasks| - 1];
      CandidateIdsMembers(api, init, id);
      assert forall i :: 0 <= i < |init| ==> init[i] == tasks[i];
    }
  }

  /** One search's ids added to the running candidate set, as the loop does. */
  method AddIds(cands: set<string>, ids: seq<string>) returns (r: set<string>)
    ensures r == cands + NonEmpty(ids)
  {
    r := cands;
    var j := 0;
    while j < |ids|
      invariant 0 <= j <= |ids|
      invariant r == cands + NonEmpty(ids[..j])
    {
      if ids[j] != "" { r := r + {ids[j]}; }
      assert ids[..j + 1] == ids[..j] + [ids[j]];
      j := j + 1;
    }
    assert ids[..j] == ids;
  }

  function VideoItems(api: Api, ids: seq<string>): seq<Video>
  {
    RetryItems(api.videos(ids), VideosRetryable)
  }

  /** The details of every batch, in batch order (main.py:1162-1172). */
  function DetailsOf(api: Api, batches: seq<seq<string>>): (r: seq<Video>)
    ensures forall v :: v in r ==> exists i :: 0 <= i < |batches| && v in VideoItems(api, batches[i])
  {
    if |batches| == 0 then []
    else
      var init := batches[..|batches| - 1];
      assert forall i :: 0 <= i < |init| ==> init[i] == batches[i];
      DetailsOf(api, init) + VideoItems(api, batches[|batches| - 1])
  }

  function ChannelItems(api: Api, ids: seq<string>): seq<(string, nat)>
  {
    RetryItems(api.channels(ids), IsErr)
  }

  /** The counts gathered batch by batch (main.py:1217-1223). */
  function ChannelCounts(api: Api, batches: seq<seq<string>>): map<string, nat>
  {
    if |batches| == 0 then map[]
    else Tally(ChannelCounts(api, batches[..|batches| - 1]), ChannelItems(api, batches[|batches| - 1]))
  }

  /** In a list sorted by score, nothing after position `k` outscores anything before. */
  lemma PrefixIsBest(s: seq<Row>, k: nat)
    requires k <= |s| && SortedDesc(s, Similarity)
    ensures forall x, y :: x in multiset(s) - multiset(s[..k]) && y in s[..k] ==> x.similarity <= y.similarity
  {
    assert s == s[..k] + s[k..];
    assert multiset(s) - multiset(s[..k]) == multiset(s[k..]);
    forall x, y | x in multiset(s[k..]) && y in s[..k]
      ensures x.similarity <= y.similarity
    {
      var j :| 0 <= j < |s[k..]| && s[k..][j] == x;
      var i :| 0 <= i < k && s[..k][i] == y;
      assert s[k + j] == x && s[i] == y;
      assert Similarity(s[i]) >= Similarity(s[k + j]);
    }
  }

  /** The best 50 by score, ties in their original order (main.py:1212-1215, 1232). */
  function TopScored(rows: seq<Row>): (r: seq<Row>)
    ensures |r| == TopSize(|rows|)
    ensures SortedDesc(r, Similarity)
    ensures multiset(r) <= multiset(rows)
  {
    var s := SortDesc(rows, Similarity);
    var k := if |s| < TopCount then |s| else TopCount;
    assert s == s[..k] + s[k..];
    assert multiset(s) == multiset(s[..k]) + multiset(s[k..]);
    s[..k]
  }

  /** No row left out of the top 50 scores more than a row kept. */
  lemma TopScoredIsBest(rows: seq<Row>)
    ensures forall x, y :: x in multiset(rows) - multiset(TopScored(rows)) && y in TopScored(rows)
                           ==> x.similarity <= y.similarity
  {
    var s := SortDesc(rows, Similarity);
    PrefixIsBest(s, TopSize(|s|));
  }

  function Subscribers(counts: map<string, nat>, channelId: string): nat
  {
    if channelId in counts then counts[channelId] else 0
  }

  /** The top rows with their channels' counts filled in (0 for an unknown channel). */
  function WithSubscribers(rows: seq<Row>, counts: map<string, nat>): (r: seq<Row>)
    ensures |r| == |rows|
    ensures forall i :: 0 <= i < |rows| ==>
      r[i].video == rows[i].video && r[i].similarity == rows[i].similarity
      && r[i].subscribers == Subscribers(counts, rows[i].video.channelId)
  {
    seq(|rows|, i requires 0 <= i < |rows| => rows[i].(subscribers := Subscribers(counts, rows[i].video.channelId)))
  }

  /** The channels of the top rows. */
  function ChannelsOf(rows: seq<Row>): set<string>
  {
    set r | r in rows :: r.video.channelId
  }

  /** What a finished run promises about its rows, for the seed it resolved: at most
      50, each passing the filter and carrying its score, in the order asked for. */
  predicate Acceptable(req: Request, seed: Video, rows: seq<Row>)
  {
    |rows| <= TopCount
    && (req.sortBy in SortKeys ==> SortedDesc(rows, RankOf(req.sortBy)))
    && forall x :: x in rows ==>
         Keep(req, SimilarDetect(seed.title, seed.channelTitle), AdjustDuration(req.videoDuration, PySeconds(seed.duration)), x)
         && x.similarity == PyScore(MakePySeed(seed), x.video)
  }

  function TopSize(n: nat): nat { if n < TopCount then n else TopCount }

  /** What the scoring loop computes: each video with its score, in order. */
  function Scored(seed: PySeed, details: seq<Video>): seq<Row>
  {
    if |details| == 0 then []
    else
      var last := details[|details| - 1];
      Scored(seed, details[..|details| - 1]) + [Row(last, 0, PyScore(seed, last))]
  }

  /** The rows the last phase answers with for the top rows, once their channels are
      listed in `channelIds`: the counts of those channel batches filled in, the final
      filter, then the requested sort (main.py:1216-1305). */
  function Selection(req: Request, api: Api, seed: Video, top: seq<Row>, channelIds: seq<string>): seq<Row>
  {
    SortResults(req.sortBy,
      Kept(req, SimilarDetect(seed.title, seed.channelTitle), AdjustDuration(req.videoDuration, PySeconds(seed.duration)),
           WithSubscribers(top, ChannelCounts(api, Batches(channelIds, BatchSize)))))
  }

  /** A row is selected exactly when it is one of the top rows with its channel's
      count filled in and it passes the final filter; the sort only orders them. */
  lemma SelectionMembers(req: Request, api: Api, seed: Video, top: seq<Row>, channelIds: seq<string>, x: Row)
    ensures var lang := SimilarDetect(seed.title, seed.channelTitle);
      var adjusted := AdjustDuration(req.videoDuration, PySeconds(seed.duration));
      x in Selection(req, api, seed, top, channelIds) <==>
        x in WithSubscribers(top, ChannelCounts(api, Batches(channelIds, BatchSize))) && Keep(req, lang, adjusted, x)
  {
    var lang := SimilarDetect(seed.title, seed.channelTitle);
    var adjusted := AdjustDuration(req.videoDuration, PySeconds(seed.duration));
    var kept := Kept(req, lang, adjusted, WithSubscribers(top, ChannelCounts(api, Batches(channelIds, BatchSize))));
    KeptMembers(req, lang, adjusted, WithSubscribers(top, ChannelCounts(api, Batches(channelIds, BatchSize))));
    assert x in Selection(req, api, seed, top, channelIds) <==> x in multiset(kept);
  }

  /** The 50 best-scored details of the candidates, fetched in batches of 50 in the
      order `ids` lists them (main.py:1157-1215). */
  function TopOf(api: Api, seed: Video, ids: seq<string>): seq<Row>
  {
    TopScored(Scored(MakePySeed(seed), DetailsOf(api, Batches(ids, BatchSize))))
  }

  /** The searches of a run from its seed, in ko/KR, with the seed's hashtags listed in
      `hashtags` (main.py:1038-1126). */
  function Tasks(req: Request, seed: Video, hashtags: seq<string>): seq<Query>
  {
    SearchTasks(seed, hashtags, "ko", "KR", AdjustDuration(req.videoDuration, PySeconds(seed.duration)),
                PublishedAfter(req.uploadPeriod, req.nowMs))
  }

  /** The rows a run answers with once its candidates are listed in `ids` and the
      channels of its top rows in `channelIds`: none without a candidate, otherwise the
      selection from the top rows. The orders of both lists are those of
      `list(set(...))`, which the language leaves open. */
  ghost predicate Chosen(req: Request, api: Api, seed: Video, ids: seq<string>, channelIds: seq<string>, rows: seq<Row>)
  {
    if |ids| == 0 then rows == []
    else Lists(channelIds, ChannelsOf(TopOf(api, seed, ids))) && rows == Selection(req, api, seed, TopOf(api, seed, ids), channelIds)
  }

  // ---------------------------------------------------------------- progress of a whole run

  /** The percentages a run emits when it finds candidates: 0 and 10 during setup, then
      collection, the detail batches, the filtering steps and a final 100. They never go
      backwards and stay within 0..100. */
  lemma RunProgressMonotone(collected: seq<nat>, fetched: seq<nat>, all: seq<nat>, tasks: nat, batches: nat, top: nat)
    requires tasks > 0 && batches > 0
    requires collected == [0, 10] + Before(10, 30, tasks)
    requires fetched == collected + Before(40, 40, batches)
    requires all == fetched + (if top > 0 then After(80, 20, top) else []) + [100]
    ensures NonDecreasing(all) && Within(all, 0, 100)
    ensures |all| >= 2 && all[..2] == [0, 10] && all[|all| - 1] == 100
  {
    var setup: seq<nat> := [0, 10];
    assert NonDecreasing(setup) && Within(setup, 0, 10);
    BeforeBounds(10, 30, tasks);
    ConcatNonDecreasing(setup, Before(10, 30, tasks), 0, 10, 10, 39);
    BeforeBounds(40, 40, batches);
    ConcatNonDecreasing(collected, Before(40, 40, batches), 0, 39, 40, 79);
    var fin: seq<nat> := if top > 0 then After(80, 20, top) else [];
    if top > 0 { AfterBounds(80, 20, top); }
    ConcatNonDecreasing(fetched, fin, 0, 79, 80, 100);
    var done: seq<nat> := [100];
    assert NonDecreasing(done) && Within(done, 100, 100);
    ConcatNonDecreasing(fetched + fin, done, 0, 100, 100, 100);
    assert all[..2] == setup;
  }

  /** The percentages of a run whose searches find nothing. */
  lemma EmptyRunProgress(collected: seq<nat>, tasks: nat)
    requires tasks > 0 && collected == [0, 10] + Before(10, 30, tasks)
    ensures NonDecreasing(collected) && Within(collected, 0, 100)
    ensures |collected| >= 2 && collected[..2] == [0, 10]
  {
    var setup: seq<nat> := [0, 10];
    assert NonDecreasing(setup) && Within(setup, 0, 10);
    BeforeBounds(10, 30, tasks);
    ConcatNonDecreasing(setup, Before(10, 30, tasks), 0, 10, 10, 39);
    assert collected[..2] == setup;
  }

  /** How the seed is resolved: an invalid URL, a video the API does not return (or
      that is not fetched because the flag was already set), or the first item. */
  function SeedOf(api: Api, url: string, flagSet: bool): (r: Result<Video, SeedError>)
    ensures ExtractVideoId(url).None? <==> r == Failure(InvalidUrl)
    ensures r.Success? ==> !flagSet && r.value in VideoItems(api, [ExtractVideoId(url).value])
  {
    match ExtractVideoId(url)
    case None => Failure(InvalidUrl)
    case Some(id) =>
      var items := VideoItems(api, [id]);
      if flagSet || |items| == 0 then Failure(VideoNotFound) else Success(items[0])
  }

  // ---------------------------------------------------------------- the worker

  /** The seed's distinct hashtags from title and description, in the unspecified order
      of `list(set(...))` (main.py:1045-1050). */
  method SeedHashtags(seed: Video) returns (hashtags: seq<string>)
    ensures forall h :: h in hashtags <==> h in MakePySeed(seed).hashtags
    ensures forall i, j :: 0 <= i < j < |hashtags| ==> hashtags[i] != hashtags[j]
    ensures Lists(hashtags, MakePySeed(seed).hashtags)
  {
    hashtags := SetToSeq(AsSet(Hashtags(seed.title, IsPyWord) + Hashtags(seed.description, IsPyWord)));
  }

  /** The scoring loop (main.py:1179-1210): each video with its score. */
  method ScoreAll(seed: PySeed, details: seq<Video>) returns (scored: seq<Row>)
    ensures |scored| == |details|
    ensures forall i :: 0 <= i < |details| ==> scored[i] == Row(details[i], 0, PyScore(seed, details[i]))
    ensures scored == Scored(seed, details)
  {
    scored := [];
    var i := 0;
    while i < |details|
      invariant 0 <= i <= |details| && |scored| == i
      invariant forall k :: 0 <= k < i ==> scored[k] == Row(details[k], 0, PyScore(seed, details[k]))
      invariant scored == Scored(seed, details[..i])
    {
      var v := details[i];
      var score := 0;
      if v.channelId == seed.channelId { score := score + 30; }
      score := score + 15 * |CommonTags(seed, v)|;
      score := score + 8 * |CommonHashtags(seed, v)|;
      score := score + 5 * |MatchedKeywords(seed, v)|;
      scored := scored + [Row(v, 0, score)];
      assert details[..i + 1][..i] == details[..i];
      i := i + 1;
    }
    assert details[..i] == details;
  }

  class SimilarVideoWorker {
    const request: Request
    const cancelAt: nat
    var flagReads: nat
    var emitted: seq<nat>
    var languageCode: string
    var regionCode: string

    constructor (request: Request, cancelAt: nat)
      ensures this.request == request && this.cancelAt == cancelAt
      ensures flagReads == 0 && emitted == []
    {
      this.request := request;
      this.cancelAt := cancelAt;
      flagReads := 0;
      emitted := [];
      languageCode := "";
      regionCode := "";
    }

    /** One read of `self.is_cancelled`. */
    method IsCancelled() returns (c: bool)
      modifies this`flagReads
      ensures flagReads == old(flagReads) + 1
      ensures c <==> old(flagReads) >= cancelAt
    {
      c := flagReads >= cancelAt;
      flagReads := flagReads + 1;
    }

    /** `self.progress.emit(...)` with its percentage. */
    method Emit(percent: nat)
      modifies this`emitted
      ensures emitted == old(emitted) + [percent]
    {
      emitted := emitted + [percent];
    }

    /** `_search_with_retry(params)`, reading the flag once. */
    method Search(api: Api, q: Query) returns (ids: seq<string>)
      modifies this`flagReads
      ensures flagReads == old(flagReads) + 1
      ensures ids == if old(flagReads) >= cancelAt then [] else SearchIds(api, q)
    {
      var c := IsCancelled();
      var calls, sleeps, rebuilds;
      ids, calls, sleeps, rebuilds := SearchWithRetry(c, api.search(q));
    }

    /** `_videos_with_retry(ids)`: the flag is not read for an empty list. */
    method Videos(api: Api, ids: seq<string>) returns (items: seq<Video>)
      modifies this`flagReads
      ensures flagReads == old(flagReads) + (if |ids| == 0 then 0 else 1)
      ensures items == if |ids| == 0 || old(flagReads) >= cancelAt then [] else VideoItems(api, ids)
    {
      var c := false;
      if |ids| > 0 { c := IsCancelled(); }
      var calls, sleeps, rebuilds;
      items, calls, sleeps, rebuilds := VideosWithRetry(ids, c, api.videos(ids));
    }

    /** `_channels_with_retry(ids)`. */
    method Channels(api: Api, ids: seq<string>) returns (items: seq<(string, nat)>, interrupted: bool)
      modifies this`flagReads
      ensures flagReads == old(flagReads) + 1
      ensures !interrupted ==> items == if old(flagReads) >= cancelAt then [] else ChannelItems(api, ids)
    {
      var c := IsCancelled();
      var calls, sleeps;
      items, calls, sleeps, interrupted := ChannelsWithRetry(c, api.channels(ids));
    }

    /** Candidate collection (main.py:1128-1147). */
    method Collect(api: Api, tasks: seq<Query>) returns (cands: set<string>, stopped: bool)
      requires |tasks| > 0
      modifies this`flagReads, this`emitted
      ensures old(flagReads) <= flagReads
      ensures stopped ==> flagReads > cancelAt
      ensures flagReads <= cancelAt ==>
        !stopped && cands == CandidateIds(api, tasks) && emitted == old(emitted) + Before(10, 30, |tasks|)
    {
      cands, stopped := {}, false;
      var i := 0;
      while i < |tasks|
        invariant 0 <= i <= |tasks|
        invariant flagReads == old(flagReads) + 2 * i
        invariant flagReads <= cancelAt ==>
          cands == CandidateIds(api, tasks[..i]) && emitted == old(emitted) + Before(10, 30, |tasks|)[..i]
      {
        var c := IsCancelled();
        if c {
          stopped := true;
          return;
        }
        Emit(Point(10, 30, i, |tasks|));
        var ids := Search(api, tasks[i]);
        cands := AddIds(cands, ids);
        assert tasks[..i + 1][..i] == tasks[..i];
        BeforePrefix(10, 30, |tasks|, i);
        i := i + 1;
      }
      assert tasks[..i] == tasks;
    }

    /** Detail fetching in batches of 50 (main.py:1157-1172). */
    method FetchDetails(api: Api, ids: seq<string>) returns (details: seq<Video>, stopped: bool)
      requires |ids| > 0
      modifies this`flagReads, this`emitted
      ensures old(flagReads) <= flagReads
      ensures stopped ==> flagReads > cancelAt
      ensures flagReads <= cancelAt ==>
        !stopped && details == DetailsOf(api, Batches(ids, BatchSize))
        && emitted == old(emitted) + Before(40, 40, |Batches(ids, BatchSize)|)
    {
      var batches := Batches(ids, BatchSize);
      details, stopped := [], false;
      var i := 0;
      while i < |batches|
        invariant 0 <= i <= |batches|
        invariant flagReads == old(flagReads) + 2 * i
        invariant flagReads <= cancelAt ==>
          details == DetailsOf(api, batches[..i]) && emitted == old(emitted) + Before(40, 40, |batches|)[..i]
      {
        var c := IsCancelled();
        if c {
          stopped := true;
          return;
        }
        Emit(Point(40, 40, i, |batches|));
        var items := Videos(api, batches[i]);
        details := details + items;
        assert batches[..i + 1][..i] == batches[..i];
        BeforePrefix(40, 40, |batches|, i);
        i := i + 1;
      }
      assert batches[..i] == batches;
    }

    /** Subscriber counts for the given channels (main.py:1217-1223). */
    method SubscriberCounts(api: Api, channelIds: seq<string>) returns (counts: map<string, nat>, interrupted: bool)
      modifies this`flagReads
      ensures old(flagReads) <= flagReads
      ensures flagReads <= cancelAt && !interrupted ==> counts == ChannelCounts(api, Batches(channelIds, BatchSize))
    {
      var batches := Batches(channelIds, BatchSize);
      counts, interrupted := map[], false;
      var i := 0;
      while i < |batches|
        invariant 0 <= i <= |batches|
        invariant flagReads == old(flagReads) + i
        invariant flagReads <= cancelAt ==> counts == ChannelCounts(api, batches[..i])
      {
        var items;
        items, interrupted := Channels(api, batches[i]);
        if interrupted { return; }
        var before := counts;
        var j := 0;
        while j < |items|
          invariant 0 <= j <= |items|
          invariant counts == Tally(before, items[..j])
        {
          counts := counts[items[j].0 := items[j].1];
          assert items[..j + 1][..j] == items[..j];
          j := j + 1;
        }
        assert items[..j] == items;
        assert batches[..i + 1][..i] == batches[..i];
        i := i + 1;
      }
      assert batches[..i] == batches;
    }

    /** The final filtering loop over the top rows (main.py:1230-1292). */
    method Finalize(top: seq<Row>, counts: map<string, nat>, seedLanguage: string, adjusted: string)
      returns (kept: seq<Row>, stopped: bool)
      requires |top| > 0
      modifies this`flagReads, this`emitted
      ensures old(flagReads) <= flagReads
      ensures stopped ==> flagReads > cancelAt
      ensures flagReads <= cancelAt ==>
        !stopped && kept == Kept(request, seedLanguage, adjusted, WithSubscribers(top, counts))
        && emitted == old(emitted) + After(80, 20, |top|)
    {
      var rows := WithSubscribers(top, counts);
      kept, stopped := [], false;
      var idx := 0;
      while idx < |top|
        invariant 0 <= idx <= |top|
        invariant flagReads == old(flagReads) + idx
        invariant flagReads <= cancelAt ==>
          kept == Kept(request, seedLanguage, adjusted, rows[..idx]) && emitted == old(emitted) + After(80, 20, |top|)[..idx]
      {
        var c := IsCancelled();
        if c {
          stopped := true;
          return;
        }
        Emit(Point(80, 20, idx + 1, |top|));
        var row := top[idx].(subscribers := Subscribers(counts, top[idx].video.channelId));
        assert rows[idx] == row;
        KeptStep(request, seedLanguage, adjusted, rows, idx);
        if Keep(request, seedLanguage, adjusted, row) {
          kept := kept + [row];
        }
        AfterPrefix(80, 20, |top|, idx);
        idx := idx + 1;
      }
      assert rows[..idx] == rows;
    }
  
    /** `run` (main.py:1013-1305). A finished run answers with the rows `Chosen` names
        for the seed, where `hashtags`, `ids` and `channelIds` are the listings of the
        seed's hashtags, the candidates and the top rows' channels that the run used. */
    method Run(api: Api) returns (r: RunResult, ghost hashtags: seq<string>, ghost ids: seq<string>, ghost channelIds: seq<string>)
      requires flagReads == 0 && emitted == []
      modifies this`flagReads, this`emitted, this`languageCode, this`regionCode
      ensures r.Cancelled? ==> flagReads > cancelAt
      ensures r.Finished? ==> flagReads <= cancelAt
      ensures cancelAt == 0 ==> r == Cancelled && emitted == []
      ensures cancelAt > 0 ==>
                (r.Failed? <==> SeedOf(api, request.url, cancelAt == 1).Failure?)
                && (r.Failed? ==> r.reason == SeedOf(api, request.url, cancelAt == 1).error)
      ensures r.Finished? ==>
                (|r.rows| == r.totalCount && SeedOf(api, request.url, false).Success?
                 && Acceptable(request, SeedOf(api, request.url, false).value, r.rows))
      ensures r.Finished? ==>
                var seed := SeedOf(api, request.url, false).value;
                Lists(hashtags, MakePySeed(seed).hashtags)
                && Lists(ids, CandidateIds(api, Tasks(request, seed, hashtags)))
                && Chosen(request, api, seed, ids, channelIds, r.rows)
      ensures r.Finished? ==> languageCode == "ko" && regionCode == "KR"
      ensures r.Finished? ==> NonDecreasing(emitted) && Within(emitted, 0, 100) && |emitted| >= 2 && emitted[..2] == [0, 10]
      ensures r.Finished? && |ids| > 0 ==> EndsAt(emitted, 100)
    {
      hashtags, ids, channelIds := [], [], [];
      var c := IsCancelled();
      if c { return Cancelled, hashtags, ids, channelIds; }
      Emit(0);
      var seed := Resolve(api);
      if seed.Failure? { return Failed(seed.error), hashtags, ids, channelIds; }
      r, hashtags, ids, channelIds := Start(api, seed.value);
    }

    /** From the resolved seed to the end of the run (main.py:1038-1305). */
    method Start(api: Api, seed: Video) returns (r: RunResult, ghost hashtags: seq<string>, ghost ids: seq<string>, ghost channelIds: seq<string>)
      requires emitted == [0]
      modifies this`flagReads, this`emitted, this`languageCode, this`regionCode
      ensures r.Finished? || r.Cancelled? || r == Aborted
      ensures r.Cancelled? ==> flagReads > cancelAt
      ensures r.Finished? ==> flagReads <= cancelAt && |r.rows| == r.totalCount && Acceptable(request, seed, r.rows)
      ensures r.Finished? ==>
                Lists(hashtags, MakePySeed(seed).hashtags)
                && Lists(ids, CandidateIds(api, Tasks(request, seed, hashtags)))
                && Chosen(request, api, seed, ids, channelIds, r.rows)
      ensures r.Finished? ==> languageCode == "ko" && regionCode == "KR"
      ensures r.Finished? ==> NonDecreasing(emitted) && Within(emitted, 0, 100) && |emitted| >= 2 && emitted[..2] == [0, 10]
      ensures r.Finished? && |ids| > 0 ==> EndsAt(emitted, 100)
    {
      var tasks;
      tasks, hashtags := Plan(seed);
      r, ids, channelIds := Proceed(api, seed, tasks);
    }

    /** The second cancellation check, the 10% mark and discovery (main.py:1099-1305). */
    method Proceed(api: Api, seed: Video, tasks: seq<Query>) returns (r: RunResult, ghost ids: seq<string>, ghost channelIds: seq<string>)
      requires |tasks| > 0 && emitted == [0]
      modifies this`flagReads, this`emitted
      ensures r.Finished? || r.Cancelled? || r == Aborted
      ensures r.Cancelled? ==> flagReads > cancelAt
      ensures r.Finished? ==> flagReads <= cancelAt && |r.rows| == r.totalCount && Acceptable(request, seed, r.rows)
      ensures r.Finished? ==> Lists(ids, CandidateIds(api, tasks)) && Chosen(request, api, seed, ids, channelIds, r.rows)
      ensures r.Finished? ==> NonDecreasing(emitted) && Within(emitted, 0, 100) && |emitted| >= 2 && emitted[..2] == [0, 10]
      ensures r.Finished? && |ids| > 0 ==> EndsAt(emitted, 100)
    {
      ids, channelIds := [], [];
      var c := IsCancelled();
      if c { return Cancelled, ids, channelIds; }
      Emit(10);
      r, ids, channelIds := Discover(api, seed, tasks);
    }

    /** The seed video: its id from the URL, then its details (main.py:1032-1036). */
    method Resolve(api: Api) returns (seed: Result<Video, SeedError>)
      modifies this`flagReads
      ensures seed == SeedOf(api, request.url, old(flagReads) >= cancelAt)
      ensures flagReads == old(flagReads) + (if ExtractVideoId(request.url).None? then 0 else 1)
    {
      var id := ExtractVideoId(request.url);
      if id.None? { return Failure(InvalidUrl); }
      var found := Videos(api, [id.value]);
      if |found| == 0 { return Failure(VideoNotFound); }
      return Success(found[0]);
    }

    /** The search plan drawn from the seed (main.py:1038-1126): its hashtags, the
        upload window, the language and region (stored on the worker) and the duration
        filter. */
    method Plan(seed: Video) returns (tasks: seq<Query>, hashtags: seq<string>)
      modifies this`languageCode, this`regionCode
      ensures languageCode == "ko" && regionCode == "KR"
      ensures Lists(hashtags, MakePySeed(seed).hashtags)
      ensures tasks == SearchTasks(seed, hashtags, "ko", "KR", AdjustDuration(request.videoDuration, PySeconds(seed.duration)),
                                   PublishedAfter(request.uploadPeriod, request.nowMs))
    {
      hashtags := SeedHashtags(seed);
      var after := PublishedAfter(request.uploadPeriod, request.nowMs);
      var locale := RunLocale(SimilarDetect(seed.title, seed.channelTitle), seed.defaultAudioLanguage);
      RunLocaleAlwaysKorean(seed.title, seed.channelTitle, seed.defaultAudioLanguage);
      languageCode, regionCode := locale.0, locale.1;
      var adjusted := AdjustDuration(request.videoDuration, PySeconds(seed.duration));
      tasks := SearchTasks(seed, hashtags, languageCode, regionCode, adjusted, after);
    }

    /** Candidate collection and detail fetching (main.py:1102-1175). */
    method Discover(api: Api, seed: Video, tasks: seq<Query>) returns (r: RunResult, ghost ids: seq<string>, ghost channelIds: seq<string>)
      requires |tasks| > 0 && emitted == [0, 10]
      modifies this`flagReads, this`emitted
      ensures r.Finished? || r.Cancelled? || r == Aborted
      ensures r.Cancelled? ==> flagReads > cancelAt
      ensures r.Finished? ==> flagReads <= cancelAt && |r.rows| == r.totalCount && Acceptable(request, seed, r.rows)
      ensures r.Finished? ==> Lists(ids, CandidateIds(api, tasks)) && Chosen(request, api, seed, ids, channelIds, r.rows)
      ensures r.Finished? ==> NonDecreasing(emitted) && Within(emitted, 0, 100) && |emitted| >= 2 && emitted[..2] == [0, 10]
      ensures r.Finished? && |ids| > 0 ==> EndsAt(emitted, 100)
    {
      ids, channelIds := [], [];
      var cands, stopped := Collect(api, tasks);
      if stopped { return Cancelled, ids, channelIds; }
      var c := IsCancelled();
      if c { return Cancelled, ids, channelIds; }
      if cands == {} {
        EmptyRunProgress(emitted, |tasks|);
        return Finished([], 0), ids, channelIds;
      }
      ghost var collected := emitted;
      var candidateList := SetToSeq(cands);
      ids := candidateList;
      var details;
      details, stopped := FetchDetails(api, candidateList);
      if stopped { return Cancelled, ids, channelIds; }
      c := IsCancelled();
      if c { return Cancelled, ids, channelIds; }
      ghost var fetched := emitted;
      r, channelIds := Rank(api, seed, details);
      if r.Finished? {
        RunProgressMonotone(collected, fetched, emitted, |tasks|, |Batches(candidateList, BatchSize)|, TopSize(|details|));
      }
    }

    /** Scoring and the top 50 (main.py:1177-1215). */
    method Rank(api: Api, seed: Video, details: seq<Video>) returns (r: RunResult, ghost channelIds: seq<string>)
      modifies this`flagReads, this`emitted
      ensures r.Finished? || r.Cancelled? || r == Aborted
      ensures r.Cancelled? ==> flagReads > cancelAt
      ensures r.Finished? ==> flagReads <= cancelAt && |r.rows| == r.totalCount && Acceptable(request, seed, r.rows)
      ensures r.Finished? ==>
        var top := TopScored(Scored(MakePySeed(seed), details));
        Lists(channelIds, ChannelsOf(top)) && r.rows == Selection(request, api, seed, top, channelIds)
      ensures r.Finished? ==>
        emitted == old(emitted) + (if TopSize(|details|) > 0 then After(80, 20, TopSize(|details|)) else []) + [100]
    {
      var pySeed := MakePySeed(seed);
      var scored := ScoreAll(pySeed, details);
      var top := TopScored(scored);
      TopRowsAreScored(pySeed, details, scored, top);
      r, channelIds := Select(api, seed, top);
    }

    /** Subscriber counts, the final filter and the sort (main.py:1216-1305). */
    method Select(api: Api, seed: Video, top: seq<Row>) returns (r: RunResult, ghost channelIds: seq<string>)
      requires |top| <= TopCount
      requires forall x :: x in top ==> x.similarity == PyScore(MakePySeed(seed), x.video)
      modifies this`flagReads, this`emitted
      ensures r.Finished? || r.Cancelled? || r == Aborted
      ensures r.Cancelled? ==> flagReads > cancelAt
      ensures r.Finished? ==> flagReads <= cancelAt && |r.rows| == r.totalCount && Acceptable(request, seed, r.rows)
      ensures r.Finished? ==> Lists(channelIds, ChannelsOf(top)) && r.rows == Selection(request, api, seed, top, channelIds)
      ensures r.Finished? ==> emitted == old(emitted) + (if |top| > 0 then After(80, 20, |top|) else []) + [100]
    {
      var ids := SetToSeq(ChannelsOf(top));
      channelIds := ids;
      var counts, interrupted := SubscriberCounts(api, ids);
      if interrupted { return Aborted, channelIds; }
      var seedLanguage := SimilarDetect(seed.title, seed.channelTitle);
      var adjusted := AdjustDuration(request.videoDuration, PySeconds(seed.duration));
      var kept: seq<Row> := [];
      if |top| > 0 {
        var stopped;
        kept, stopped := Finalize(top, counts, seedLanguage, adjusted);
        if stopped { return Cancelled, channelIds; }
      }
      var c := IsCancelled();
      if c { return Cancelled, channelIds; }
      var rows := SortResults(request.sortBy, kept);
      Emit(100);
      SortedRowsAcceptable(request, seed, top, counts, rows);
      return Finished(rows, |rows|), channelIds;
    }
  }

  /** The top rows carry their videos' scores. */
  lemma TopRowsAreScored(seed: PySeed, details: seq<Video>, scored: seq<Row>, top: seq<Row>)
    requires |scored| == |details|
    requires forall i :: 0 <= i < |details| ==> scored[i] == Row(details[i], 0, PyScore(seed, details[i]))
    requires multiset(top) <= multiset(scored)
    ensures forall x :: x in top ==> x.similarity == PyScore(seed, x.video)
  {
    forall x | x in top ensures x.similarity == PyScore(seed, x.video) {
      assert x in multiset(scored);
      var j :| 0 <= j < |scored| && scored[j] == x;
    }
  }

  /** Every row the filter keeps passes it and carries its score. */
  lemma KeptRowsOk(req: Request, seed: Video, top: seq<Row>, counts: map<string, nat>)
    requires forall x :: x in top ==> x.similarity == PyScore(MakePySeed(seed), x.video)
    ensures var lang := SimilarDetect(seed.title, seed.channelTitle);
      var adjusted := AdjustDuration(req.videoDuration, PySeconds(seed.duration));
      forall x :: x in Kept(req, lang, adjusted, WithSubscribers(top, counts)) ==>
        Keep(req, lang, adjusted, x) && x.similarity == PyScore(MakePySeed(seed), x.video)
  {
    var lang := SimilarDetect(seed.title, seed.channelTitle);
    var adjusted := AdjustDuration(req.videoDuration, PySeconds(seed.duration));
    var ws := WithSubscribers(top, counts);
    KeptMembers(req, lang, adjusted, ws);
    forall x | x in Kept(req, lang, adjusted, ws)
      ensures x.similarity == PyScore(MakePySeed(seed), x.video)
    {
      var i :| 0 <= i < |ws| && ws[i] == x;
      assert top[i] in top;
    }
  }

  /** The sorted survivors of the filter are an acceptable answer. */
  lemma SortedRowsAcceptable(req: Request, seed: Video, top: seq<Row>, counts: map<string, nat>, rows: seq<Row>)
    requires |top| <= TopCount
    requires forall x :: x in top ==> x.similarity == PyScore(MakePySeed(seed), x.video)
    requires rows == SortResults(req.sortBy,
      if |top| > 0 then Kept(req, SimilarDetect(seed.title, seed.channelTitle),
                             AdjustDuration(req.videoDuration, PySeconds(seed.duration)), WithSubscribers(top, counts))
      else [])
    ensures Acceptable(req, seed, rows)
  {
    var lang := SimilarDetect(seed.title, seed.channelTitle);
    var adjusted := AdjustDuration(req.videoDuration, PySeconds(seed.duration));
    var kept := if |top| > 0 then Kept(req, lang, adjusted, WithSubscribers(top, counts)) else [];
    KeptRowsOk(req, seed, top, counts);
    assert |rows| == |kept|;
    forall x | x in rows
      ensures Keep(req, lang, adjusted, x) && x.similarity == PyScore(MakePySeed(seed), x.video)
    {
      assert x in multiset(rows);
      assert x in multiset(kept);
    }
  }
}
