# A verified model of a video-discovery service and its credit ledger

The system is a Korean-language SaaS for finding short-form videos on YouTube,
Instagram and TikTok. A desktop client (`main.py`) discovers videos related to a
keyword or to a seed video through the YouTube Data API, and a Next.js server
runs the same YouTube discovery (`lib/youtube.ts`) and charges the searches
against a credit ledger. The model covers four parts, each kept in the form
the source takes: pure code becomes functions and lemmas, and loops and
in-place updates become methods and classes with loop invariants.

- **The discovery pipeline.** Duration codecs, the language detectors, seed
  URL parsing, the retry wrappers, candidate collection, 50-id enrichment
  batches with the channel cache, the similarity score, the filter gates, the
  stable sort, weighted progress and the two worker runs of `main.py`. Also
  the TypeScript client: request parameters and error classification, keyword
  search, the similar-video strategies with their score, and the three-pass
  channel diversification.
- **The credit ledger and billing.** Reserve, commit and rollback. The settle
  proration of the Instagram and TikTok search routes. Search records. The
  plan tables, plan changes and refund eligibility. Cancellation. The Toss
  billing routes. The 30-day grant-cycle reset.
- **The two retry queues.** The in-memory priority queue is a class whose
  methods splice and shift its queue. The database queue is a map of rows
  moved through pending, processing, completed and failed, with session
  fan-out and the credit rules of a finished task.
- **The utilities.** Usage-statistics windows and recent keywords, the Apify
  monitor's formatting and aggregation, log masking, and the YouTube API-key
  decision table.

Every call to YouTube, Supabase, Apify or Toss is an oracle. Its outcome is a
parameter of the model, or a function from the call's index to its outcome.
Times are integers: milliseconds, or day numbers where the source works in
dates. Balances are natural numbers. Ratios the source computes in floating
point are exact rationals (`real`).

Modules follow the source files:

- `duration`, `language`, `seed`, `retry`, `score`, `sorting`, `videos`,
  `similar_run`, `keyword_worker` and `progress` model `main.py`;
- `youtube_client`, `diversify` and `youtube_similar` model `lib/youtube.ts`;
- `memory_queue` and `apify_errors` model `lib/memory-queue-manager.ts`;
- `db_store`, `db_queue`, `db_session` and `db_credits` model
  `lib/db-queue-manager.ts`;
- one module per API route or library file for the rest.

`text`, `seqs`, `arith` and `wrappers` hold shared helpers.

## Model

| member | source | states |
|---|---|---|
| Duration.PyMatch | main.py:1795-1797 | Python's `re.match` of the duration pattern finds a match exactly when the text starts with "PT" |
| Duration.JsMatch | lib/youtube.ts:96-99 | JavaScript's `match` finds one exactly when "PT" occurs anywhere in the text |
| Duration.RenderRoundTrip | main.py:1795-1801 | reading the canonical `PT<h>H<m>M<s>S` text gives the same hours, minutes and seconds back, in both regex engines |
| Duration.SecondsOfRendered | main.py:1084-1089 | the seconds read from a canonical duration are its total seconds, in Python and in TypeScript |
| Duration.KeywordFormatParts | main.py:1803-1813 | the keyword worker shows `m:SS` with the hours folded into the minutes |
| Duration.KeywordFormatIsTotalClock | main.py:1790-1813 | with a seconds field under 60 the keyword label is the `m:SS` clock of the total seconds |
| Duration.KeywordFormatNoMatch | main.py:1795-1797 | text not starting with "PT" formats as "0:00" and counts 0 seconds |
| Duration.FormattersAgreeIffNoHours | main.py:970-991 | the two Python formatters agree exactly when the hours field is 0; the keyword label always has one colon |
| Duration.TsAgreesWithPython | lib/youtube.ts:91-126 | TypeScript's reader and formatter agree with Python's on text starting with "PT"; text without "PT" gives 0 and "0:00" |
| Language.FirstMax | main.py:1875-1883 | `max` over the score dict in insertion order: each language is chosen exactly when it beats the ones before it and ties or beats the ones after |
| Language.KeywordGateIsKoreanFirstMax | main.py:1885-1898 | a video passes the keyword worker's Korean gate exactly when its Korean score is at least each other score |
| Language.KeywordDetectDefaultsToKorean | main.py:1868-1883 | text with no scored character or word is detected as Korean |
| Language.SimilarDetect | main.py:918-945 | the similar-video detector returns one of english, korean, chinese, japanese |
| Language.SimilarDetectTable | main.py:930-945 | english exactly without Asian characters; korean, chinese and japanese by the counts' comparisons, in both directions |
| Language.LenientTable | main.py:947-968 | the lenient match accepts equality, and `ko` or `en` references the listed neighbours, and nothing else |
| Language.RunLanguageGateIsEquality | main.py:947-968 | with the detector's own value as reference, the lenient match is plain equality |
| Seed.ExtractVideoId | main.py:720-743 | an empty URL gives nothing; a found id is 11 URL-safe characters; a shorts match wins over every other pattern |
| Seed.ShortsUrlRoundTrip | main.py:729 | the id is read back from a shorts URL built from it |
| Seed.WatchUrlRoundTrip | main.py:732 | the id is read back from a watch URL built from it |
| Seed.ShortLinkRoundTrip | main.py:733 | the id is read back from a youtu.be link built from it |
| Seed.ShortsAbsentFromWatchUrl | main.py:729-730 | a watch URL never matches the shorts patterns |
| Seed.ShortsResultIsInUrl | main.py:738-741 | a shorts result is an id that follows "youtube.com/shorts/" in the URL |
| Seed.MobileWatchSubsumed | main.py:735 | the mobile watch pattern finds an id only where the watch pattern already does |
| Seed.RegionCode | main.py:1068-1080 | the region is KR exactly for Korean or a language outside the ten safe codes |
| Seed.RegionCodeInjective | main.py:1068 | distinct safe languages map to distinct regions |
| Seed.RunLocaleAlwaysKorean | main.py:1060-1081 | the run's language and region are always ko and KR, because the detector's names are never safe codes |
| Seed.TsLanguageCode | lib/youtube.ts:482-484 | the language code is the first two letters of the default audio language, `ko` when it is empty |
| Seed.PeriodDays | main.py:869-878 | every period but `all` has a window of one of the listed day counts |
| Seed.PublishedAfter | main.py:860-885 | no window exactly for `all`; otherwise the start lies a whole number of days before now, that many days |
| Seed.UnknownPeriodIsTwoMonths | main.py:878 | an unknown period falls back to the 60-day window |
| Seed.TsSimilarPublishedAfter | lib/youtube.ts:479 | the similar-video search sends no window for an empty period and the common window otherwise |
| Retry.SearchWithRetry | main.py:745-784 | a cancelled worker makes no call; otherwise one to three calls, the client rebuilt before each retry, the listed delays slept between them, retries only after retryable errors, and the items of the first success |
| Retry.VideosWithRetry | main.py:786-831 | no call for an empty id list or a cancelled worker; otherwise one to three calls, sleeping only after errors, stopping at the first success or fatal error |
| Retry.ChannelsWithRetry | main.py:833-858 | no call when cancelled; one to three calls that retry every error, sleeping the listed delays; an interrupt escapes from the call it hit |
| Retry.StopIndex | main.py:761-784 | the number of retryable failures before the loop stops, at most three |
| Retry.ErrorDelays | main.py:761-784 | the delay of every failed attempt is among those slept, and there are no more delays than attempts |
| Score.HashtagsAreWords | main.py:1048-1049 | every hashtag `re.findall(r"#(\w+)")` returns is a non-empty run of word characters |
| Score.HashtagOfTag | main.py:1198 | a lone `#word` yields exactly that word |
| Score.HashtagsAgreeOnAscii | lib/youtube.ts:519-522 | on ASCII text Python's Unicode `\w` and JavaScript's ASCII `\w` find the same hashtags |
| Score.PyWordsAreWords | main.py:1180 | `str.split()` yields non-empty words without whitespace |
| Score.SplitSpaceRoundTrip | lib/youtube.ts:653-655 | `split(' ')` loses nothing: joining the pieces with spaces gives the title back |
| Score.TitleKeywords | main.py:1180 | the title keywords are exactly the words longer than two characters |
| Score.MakePySeed | main.py:1038-1050 | the seed's keywords are the title's words longer than two characters |
| Score.PyScoreBound | main.py:1182-1208 | a score is at most 30 plus 15 per distinct seed tag, 8 per seed hashtag and 5 per keyword |
| Score.PyScoreZero | main.py:1182-1208 | a score is 0 exactly when the channel differs and no tag, hashtag or title keyword matches |
| Score.PyScoreOfSeed | main.py:1182-1208 | the seed video scores itself at least 30 plus 15 per distinct tag |
| Score.MakeTsSeed | lib/youtube.ts:518-522 | the TypeScript seed's hashtags have no repeats |
| Score.FilterInMembers | lib/youtube.ts:667 | `filter(tag => includes(tag))` keeps exactly the elements present in both lists |
| Score.FilterInDistinct | lib/youtube.ts:667 | on a list without repeats the filter's length is the size of the intersection |
| Score.TsScoreFloor | lib/youtube.ts:657-698 | a TypeScript score is at least 30 for the seed's channel and 2 for any other |
| Score.TagTermsAgree | lib/youtube.ts:665-668 | for seed tags without repeats the TypeScript and Python tag bonuses count the same tags |
| Seqs.Batches | main.py:631 | the batches concatenate back to the input, each holds between one and the batch size items, and all but the last are full |
| Seqs.FirstOccurrences | app/api/me/recent-keywords/route.ts:45-55 | the result keeps one item per key of the input, no key twice |
| Sorting.SortDesc | main.py:993-1011 | `list.sort(key, reverse=True)`: the result is ordered by the key, descending, and is a permutation of the input |
| Sorting.SortDescStable | main.py:993-1011 | the sort is stable: the rows with any one key value keep their relative order |
| Sorting.SortDescOfSorted | main.py:993-1011 | an already ordered list is left as it is |
| Videos.EngagementRate | main.py:1294 | likes over views, never negative; times the views it gives the likes back whenever there are views |
| Videos.ReactionRate | main.py:1295 | comments over views, never negative; times the views it gives the comments back whenever there are views |
| Videos.SortResults | main.py:993-1011 | `_sort_results`: a permutation of the rows, ordered by the chosen key, untouched for an unknown key |
| Videos.SortResultsStable | main.py:993-1011 | rows with equal keys keep their original order |
| Videos.SortResultsOrders | main.py:995-1009 | each sort key orders the rows as the source says: views, rates and newest first descending, oldest first ascending |
| SimilarRun.AdjustDuration | main.py:1093-1100 | the search filter is the request, or `any` when the request is `any` or the seed contradicts it: `short` is sent only for a short seed and `long` only for a long one |
| SimilarRun.RelaxedSearchStillHonoursRequest | main.py:1256-1273 | when a short or long request was relaxed to `any`, a result passing the re-check still has the requested length, and the relaxation happens exactly when the seed contradicts the request |
| SimilarRun.KeptMembers | main.py:1234-1278 | a row survives the final loop exactly when it passes the language, duration and views/subscribers filters |
| SimilarRun.Take3 | main.py:1110 | `[:3]`: the first three elements, or all of a shorter list |
| SimilarRun.LongWordsMembers | main.py:1111 | a title word is used exactly when it is longer than two characters |
| SimilarRun.SearchTasksShape | main.py:1107-1126 | the five searches: the channel search with 40 results, the title with 25, tags or channel title with 20, hashtags or long words with 15, topic or category with 15, each with the common language, region, window and a duration exactly when the filter is not `any` |
| SimilarRun.NonEmpty | main.py:1145-1147 | the ids a search contributes are its non-empty ones |
| SimilarRun.CandidateIdsMembers | main.py:1130-1147 | a candidate is exactly a non-empty id some search returned |
| SimilarRun.AddIds | main.py:1145-1147 | the loop adds exactly one search's non-empty ids to the candidate set |
| SimilarRun.DetailsOf | main.py:1162-1172 | every detail comes from the answer to one of the batches |
| SimilarRun.TopScored | main.py:1212-1215 | the top list has min(n, 50) rows, sorted by score descending, drawn from the scored rows |
| SimilarRun.TopScoredIsBest | main.py:1212-1232 | no row left out of the top 50 scores more than a row kept |
| SimilarRun.PrefixIsBest | main.py:1232 | in a list sorted by score nothing after a cut outscores anything before it |
| SimilarRun.WithSubscribers | main.py:1242 | each top row gets its channel's subscriber count, 0 for an unknown channel |
| SimilarRun.RunProgressMonotone | main.py:1023-1305 | the percentages a run emits start 0, 10, never decrease, stay within 0..100 and end at 100 |
| SimilarRun.EmptyRunProgress | main.py:1149-1153 | a run whose searches find nothing emits non-decreasing percentages within 0..100 starting 0, 10 |
| SimilarRun.SeedOf | main.py:1032-1036 | an invalid URL fails exactly when no id is extracted; a resolved seed is a video the API returned for that id |
| SimilarRun.SeedHashtags | main.py:1045-1050 | the list holds each hashtag of the seed's title and description exactly once, in some order |
| SimilarRun.ScoreAll | main.py:1182-1210 | the scoring loop gives each video, in order, its similarity score |
| SimilarRun.SimilarVideoWorker.IsCancelled | main.py:1028 | one read of the cancellation flag: it is set once the reads reach the cancel point |
| SimilarRun.SimilarVideoWorker.Emit | main.py:1029 | a progress signal appends its percentage |
| SimilarRun.SimilarVideoWorker.Search | main.py:745-784 | a search reads the flag once and returns nothing once it is set |
| SimilarRun.SimilarVideoWorker.Videos | main.py:786-790 | a detail fetch reads the flag only for a non-empty id list |
| SimilarRun.SimilarVideoWorker.Channels | main.py:833-837 | a channel fetch reads the flag once |
| SimilarRun.SimilarVideoWorker.Collect | main.py:1130-1147 | without cancellation the loop gathers exactly the candidate ids and emits one percentage per search between 10 and 40; it stops only after the flag is set |
| SimilarRun.SimilarVideoWorker.FetchDetails | main.py:1157-1172 | without cancellation the batches of 50 yield exactly the details of every batch and one percentage per batch between 40 and 80 |
| SimilarRun.SimilarVideoWorker.SubscriberCounts | main.py:1216-1224 | without cancellation or interrupt the counts are those of the channel batches |
| SimilarRun.SimilarVideoWorker.Finalize | main.py:1230-1292 | without cancellation the loop keeps exactly the rows that pass the filter and emits one percentage per row between 80 and 100 |
| SimilarRun.SimilarVideoWorker.Run | main.py:1013-1305 | a flag set at the start cancels silently; the run fails exactly when the seed cannot be resolved; a finished run returns exactly the rows of the selection: none when the searches found no candidate, otherwise the candidates' top 50 by score with their subscriber counts, filtered by language, duration and views/subscribers and sorted; its count is their number and progress ends at 100 when candidates were found |
| SimilarRun.SimilarVideoWorker.Start | main.py:1038-1305 | from a resolved seed the run searches with the seed's hashtags in ko/KR and finishes with exactly the selection from the candidate ids, is cancelled after the flag, or aborts |
| SimilarRun.SimilarVideoWorker.Proceed | main.py:1102-1305 | after the 10% mark a finished run has gathered exactly the candidate ids of the searches and returns exactly their selection, with progress within 0..100 ending at 100 when candidates were found |
| SimilarRun.SimilarVideoWorker.Resolve | main.py:1032-1036 | the seed is resolved as `SeedOf` says, reading the flag only when an id was found |
| SimilarRun.SimilarVideoWorker.Plan | main.py:1038-1126 | the plan is the five searches for the seed's distinct hashtags, ko/KR, the adjusted duration and the period's window |
| SimilarRun.SimilarVideoWorker.Discover | main.py:1128-1175 | a finished run has collected exactly the candidate ids and returns exactly their selection: none without candidates |
| SimilarRun.SimilarVideoWorker.Rank | main.py:1177-1215 | a finished run returns exactly the selection from the top 50 of the details scored against the seed, through the 80..100 progress steps |
| SimilarRun.SimilarVideoWorker.Select | main.py:1216-1305 | the channels asked about are each top row's channel once; a finished run returns exactly the top rows with their subscriber counts that pass the language, duration and views/subscribers filters, sorted, and ends the progress at 100 |
| SimilarRun.SelectionMembers | main.py:1216-1305 | a row is selected exactly when it is a top row with its channel's subscriber count that passes the language, duration and views/subscribers filters |
| SimilarRun.TopRowsAreScored | main.py:1208-1213 | every top row carries its video's score |
| SimilarRun.KeptRowsOk | main.py:1234-1292 | every row the filter keeps passes it and carries its score |
| SimilarRun.SortedRowsAcceptable | main.py:1294-1305 | the sorted survivors of the filter are an acceptable answer |
| SimilarRun.SimilarVideoWorker.constructor | main.py:700-711 | a new worker holds the request, has read no cancellation flag and emitted no progress |
| KeywordRun.KeywordQueryIgnoresSort | main.py:1561-1575 | every page query asks for 50 results by relevance in Korean for the KR region with the user's keyword, carries a publish date exactly when the period is not "all", and does not depend on the chosen sort |
| KeywordRun.TokenWalkBounds | main.py:1621-1633 | the sequential walk records at most five tokens after the first page, none of them empty |
| KeywordRun.TokenWalkStep | main.py:1621-1633 | one step of the walk: a failed page ends it (flagging quota exhaustion only for a quota error), a successful one records its token and continues from the next token |
| KeywordRun.RefetchIdsFromPages | main.py:1635-1648 | every id the second pass collects comes from the page of one recorded token |
| KeywordRun.SearchIdsFromPages | main.py:1544-1654 | every id found comes from a successful first page, or, when the walk hit no quota error, from one of the walked pages |
| KeywordRun.FirstPageFailureFindsNothing | main.py:1606-1617 | a failing first page yields no ids |
| KeywordRun.QuotaDuringWalkKeepsFirstPage | main.py:1621-1636 | a quota error during the walk skips the second pass, so only the first page's ids are returned |
| KeywordRun.DetailsBeforeQuota | main.py:1656-1714 | every detail returned comes from a successful batch with no quota failure before it |
| KeywordRun.DetailsWithoutQuota | main.py:1656-1714 | when no batch fails on quota, every video of every successful batch is returned |
| KeywordRun.UncachedMembers | main.py:1722-1726 | an id is requested from the API exactly when it is in the list and not in the channel cache |
| KeywordRun.CachedNeverSent | main.py:1722-1742 | a batch sent to the API holds only uncached requested ids and at most 50 of them |
| KeywordRun.UncachedAllSent | main.py:1722-1742 | every uncached requested id is in some batch |
| KeywordRun.ChannelItemsRequested | main.py:1744-1753 | when the API answers only for ids it was asked about, every returned channel was in a batch |
| KeywordRun.CachedKeepsValue | main.py:1722-1761 | a cached channel keeps its cached subscriber count in both the result and the cache |
| KeywordRun.StatsAgreeOnReturned | main.py:1755-1759 | every channel the API returned is written with the same count to the result and to the cache |
| KeywordRun.StatsKeepCachedKeys | main.py:1755-1759 | the cache only grows |
| KeywordRun.KeptRowsMembers | main.py:1466-1508 | a row is kept exactly when it is built from one of the details and passes the view, subscriber and language test |
| KeywordRun.KeywordRowsSound | main.py:1466-1510 | the final rows are a permutation of the kept rows, sorted descending for a known sort key and in detail order otherwise, each kept by the rule with the channel's subscriber count (0 when unknown) |
| KeywordRun.KeywordRowsComplete | main.py:1466-1510 | every detail that passes the keep rule appears in the final rows |
| KeywordRun.HttpErrorSignal | main.py:1521-1535 | an API error is reported as QUOTA_EXCEEDED exactly for the reason quotaExceeded, as KEY_INVALID exactly for keyInvalid, and otherwise as an API error carrying the body's message or else the error text |
| KeywordRun.ErrorSignalOf | main.py:1516-1540 | a non-API error is reported as a general error with its text; an API error never is |
| KeywordRun.KeywordWorker.constructor | main.py:1399-1423 | a new worker holds its request and an empty channel cache |
| KeywordRun.KeywordWorker.SearchVideos | main.py:1544-1654 | returns the ids of the search specification, with at most eleven page calls |
| KeywordRun.KeywordWorker.WalkTokens | main.py:1621-1633 | returns the walk of the specification, one call per recorded token, fewer than six |
| KeywordRun.KeywordWorker.Refetch | main.py:1635-1648 | returns the ids of the second pass, at most one call per token |
| KeywordRun.KeywordWorker.FetchDetails | main.py:1656-1714 | returns the details of the 50-id batches, stopping at the first quota failure |
| KeywordRun.KeywordWorker.ChannelStats | main.py:1716-1761 | returns the batches sent and the counts of the specification and leaves the cache as it specifies |
| KeywordRun.KeywordWorker.SplitCached | main.py:1719-1726 | splits the ids into the cached counts and the uncached ids, in order |
| KeywordRun.KeywordWorker.FetchChannels | main.py:1744-1753 | returns the items of all batches in order, an unanswered batch contributing none |
| KeywordRun.KeywordWorker.Filter | main.py:1465-1508 | returns exactly the kept rows, in detail order |
| KeywordRun.KeywordWorker.Run | main.py:1425-1542 | a missing keyword or API key fails with its message; otherwise the run finishes with the sorted kept rows of the deduplicated search results, their count, and the channel cache updated by the statistics step, or with no rows and an untouched cache when nothing was found |
| KeywordRun.ReturnedWrittenToBoth | main.py:1756-1759 | every returned channel is written to both the result and the cache, with the same count |
| Progress.ScaledMonotone | main.py:1135-1136 | the scaled share of a phase never goes down as the step grows |
| Progress.ScaledBelow | main.py:1135-1136 | before the last step the scaled share stays below the phase's weight |
| Progress.Before | main.py:1133-1137 | one value per step, the phase start plus the step's share of its weight |
| Progress.BeforeBounds | main.py:1164-1168 | the values reported before each step never go down, start at the phase start and stay below the next phase's start |
| Progress.After | main.py:1238-1240 | one value per step, the phase start plus the share of the steps done so far |
| Progress.PointMonotone | main.py:1135-1136 | a later point of a phase is never lower |
| Progress.PointWithin | main.py:1135-1136 | a point within a phase lies between its start and its end |
| Progress.AfterBounds | main.py:1238-1240 | the values reported after each step never go down, stay within the phase and end at its end |
| Progress.ConcatNonDecreasing | main.py:1025 | two phases reported one after the other, the first ending no later than the second starts, never go down and stay within the outer bounds |
| YouTubeClient.OrElse | lib/youtube.ts:223 | the given string when it is non-empty, else the fallback, so never empty when the fallback is not |
| YouTubeClient.ClassifyCodes | lib/youtube.ts:204-228 | a failed reply is thrown as QUOTA_EXCEEDED for the quota reason (even on 403), as KEY_INVALID for keyInvalid or any other 403, and otherwise with its reason ('unknown' when none) as code and the body's message or 'API request failed'; the status is passed through |
| YouTubeClient.SentParamsGiven | lib/youtube.ts:181-189 | the key is always sent, and every other sent parameter was given with that value, which is not empty |
| YouTubeClient.EmptyNeverSent | lib/youtube.ts:184-189 | a parameter that is only ever null, undefined or empty is not sent |
| YouTubeClient.BuildParams | lib/youtube.ts:181-189 | the loop builds exactly the parameters of the query-string specification |
| YouTubeClient.DetailsOfFails | lib/youtube.ts:257-295 | the detail lookup fails exactly when some batch fails, and then with the error of the first failing batch |
| YouTubeClient.DetailsOfMembers | lib/youtube.ts:257-295 | on success the videos returned are exactly those of every batch's reply |
| YouTubeClient.GetVideoDetails | lib/youtube.ts:247-299 | returns the lookup over batches of at most 50 ids, in order |
| YouTubeClient.ChannelBatchesSendEachOnce | lib/youtube.ts:305-313 | every requested channel is sent exactly once and nothing else is sent |
| YouTubeClient.CountsNamed | lib/youtube.ts:323-327 | no count is stored under an empty channel id |
| YouTubeClient.GetChannelSubscribers | lib/youtube.ts:304-331 | returns the counts of the deduplicated 50-id batches, failing with the first failing batch |
| YouTubeClient.AddCounts | lib/youtube.ts:323-327 | writes each reply item that has an id with its count, later items overwriting earlier ones |
| YouTubeClient.FetchLimit | lib/youtube.ts:341-342 | with a view or subscriber filter set, the search collects the larger of three times the limit and 150 ids; without, exactly the limit |
| YouTubeClient.PageCount | lib/youtube.ts:343 | the number of pages is the ceiling of the fetch limit over 50 |
| YouTubeClient.PagesFromBound | lib/youtube.ts:371-388 | the page loop collects at most 50 ids per page it may read, none of them empty |
| YouTubeClient.PagesFromStep | lib/youtube.ts:371-388 | one page of the loop: a failure ends the search with that error; a page without a next token ends it with its ids added; otherwise the loop continues from the next token |
| YouTubeClient.SearchPages | lib/youtube.ts:371-388 | the loop returns the ids of the page specification |
| YouTubeClient.ApplyFiltersMembers | lib/youtube.ts:407-413 | a row survives the filters exactly when it passes the minimum views and maximum subscribers rule that is set |
| YouTubeClient.KeywordRowsSound | lib/youtube.ts:393-441 | at most the limit of rows, sorted by a known sort key, each of a fetched video carrying its channel's count (0 when unknown) and passing the filters |
| YouTubeClient.KeywordRowsComplete | lib/youtube.ts:407-441 | when no more rows than the limit pass, every passing row is reported |
| YouTubeClient.KeywordSearchCounts | lib/youtube.ts:437-443 | the total count equals the number of rows returned and never exceeds the limit |
| YouTubeClient.SearchByKeyword | lib/youtube.ts:337-444 | returns the keyword-search specification: the page loop, the deduplicated ids cut to the fetch limit, the details, the counts, the filters, the sort and the limit |
| Diversify.FirstPassLayout | lib/youtube.ts:716-734 | the first pass picks and reserves each position it visits exactly once, in increasing order |
| Diversify.FirstPassSize | lib/youtube.ts:730-733 | the first pass picks no more than its quota (80% of the target, floored), or one video when that quota is 0 |
| Diversify.FirstPassKeepsBest | lib/youtube.ts:717-728 | the best-ranked video is always the first pick |
| Diversify.FirstPassCaps | lib/youtube.ts:718-725 | after the first pass no channel exceeds five picks for the seed's channel or three for any other |
| Diversify.StrictWithinRelaxed | lib/youtube.ts:721-743 | the strict caps are within the relaxed ones |
| Diversify.SecondPassShape | lib/youtube.ts:736-750 | the second pass keeps the earlier picks as a prefix, adds only reserved videos not yet picked, and stops at the target |
| Diversify.SecondPassCaps | lib/youtube.ts:742-748 | after the second pass no channel exceeds eight picks for the seed's channel or five for any other |
| Diversify.RemainingMembers | lib/youtube.ts:755 | the remaining videos are exactly those not picked, in rank order |
| Diversify.ThirdPassShape | lib/youtube.ts:752-757 | the third pass tops the picks up with unpicked videos to exactly the target |
| Diversify.DiversifiedShape | lib/youtube.ts:711-759 | the picks are distinct positions; their number is min(limit, videos), or 1 for a limit of 0; the best video comes first; and the picks of the first two passes stay within the relaxed caps |
| Diversify.ZeroLimitKeepsOne | lib/youtube.ts:731-733 | with a limit of 0 the first pass still keeps the best video |
| Diversify.FirstPassStep | lib/youtube.ts:717-733 | one step of the first pass: a video under its channel's strict cap is picked, otherwise reserved, and the pass ends once 80% of the target is picked |
| Diversify.SecondPassStep | lib/youtube.ts:739-749 | one step of the second pass: a reserved video under its channel's relaxed cap is picked |
| Diversify.RunFirstPass | lib/youtube.ts:716-734 | the loop computes the specified first pass and keeps the channel counts of its picks |
| Diversify.RunSecondPass | lib/youtube.ts:736-750 | the loop computes the specified second pass from the counts of the first |
| Diversify.Diversify | lib/youtube.ts:711-759 | computes the specified three-pass diversification |
| YouTubeSimilar.StrategiesShape | lib/youtube.ts:524-553 | two to five strategies: the seed's channel (40) and title (25) always, then its first three tags, its first three hashtags and its first topic or else its category (15 each) when present |
| YouTubeSimilar.NoDurationFilter | lib/youtube.ts:570-591 | a strategy request carries no duration parameter unless the strategy itself sets one |
| YouTubeSimilar.Admit | lib/youtube.ts:596-602 | adding a page's ids never drops a candidate |
| YouTubeSimilar.AdmitShape | lib/youtube.ts:596-602 | the existing candidates stay first and in order, there are no duplicates, and an id joins exactly when it is present and not the seed's |
| YouTubeSimilar.StrategyCandidatesShape | lib/youtube.ts:582-622 | one strategy keeps the earlier candidates as a prefix, adds no duplicate, and adds only non-seed ids from its pages |
| YouTubeSimilar.CollectSound | lib/youtube.ts:580-623 | the strategy loop yields distinct candidates, each a non-seed id from some strategy's pages |
| YouTubeSimilar.CollectKeepsFirstPage | lib/youtube.ts:580-602 | every non-seed id of the first strategy's first page becomes a candidate |
| YouTubeSimilar.CollectStopsAtTarget | lib/youtube.ts:580-581 | once the target is reached no further strategy is run |
| YouTubeSimilar.CandidateTarget | lib/youtube.ts:578 | the candidate target is the larger of three times the limit and 100 |
| YouTubeSimilar.FinishShape | lib/youtube.ts:704-811 | at most the limit of results, no more than the reported total, which is at most the diversification target and equals it when no filter is set; every result passed the filters and carries no score |
| YouTubeSimilar.FilterLength | lib/youtube.ts:761-768 | filtering never adds rows and is the identity when no filter is set |
| YouTubeSimilar.RespondShape | lib/youtube.ts:625-811 | a successful search reports the seed's id, title and language, no results when there are no candidates, and at most the limit of filtered results |
| YouTubeSimilar.SimilarSearchOutcome | lib/youtube.ts:449-470 | no url, a url without a video id and a seed that is not found each fail with their own error; a success comes from a found seed |
| YouTubeSimilar.AdmitIds | lib/youtube.ts:596-602 | the loop over a page's items computes the admission function |
| YouTubeSimilar.SearchStrategy | lib/youtube.ts:582-622 | one strategy's first and optional second page, as specified |
| YouTubeSimilar.CollectCandidates | lib/youtube.ts:580-623 | the strategy loop computes the specified candidates |
| YouTubeSimilar.PlanParams | lib/youtube.ts:558-591 | builds the request of every strategy |
| YouTubeSimilar.Rank | lib/youtube.ts:639-709 | computes the scored rows of the candidates ranked by score |
| YouTubeSimilar.Select | lib/youtube.ts:704-811 | diversifies, filters, sorts and cuts as specified |
| YouTubeSimilar.SearchFromSeed | lib/youtube.ts:524-811 | the search from a resolved seed, as specified |
| YouTubeSimilar.Answer | lib/youtube.ts:625-811 | the response from the seed and its candidates, as specified |
| YouTubeSimilar.SearchSimilarVideos | lib/youtube.ts:449-812 | computes the whole similar-video search specification |
| MemoryQueue.InsertIndexFrom | lib/memory-queue-manager.ts:305-330 | the insertion scan stops at the first item the new request goes in front of, or at the end |
| MemoryQueue.InsertedKeepsOrder | lib/memory-queue-manager.ts:332 | the splice adds the new request at the insertion point and leaves every other item in its order |
| MemoryQueue.InsertedAt | lib/memory-queue-manager.ts:332 | each item of the spliced queue is the old item before the insertion point, the new request at it, and the old item shifted by one after it |
| MemoryQueue.InsertedSorted | lib/memory-queue-manager.ts:298-332 | outside active sessions, a queue sorted by priority stays sorted, and the new request goes after every item of equal or higher priority and before every lower one |
| MemoryQueue.ActiveInsertion | lib/memory-queue-manager.ts:309-321 | a request of an active session goes after the active-session items of no later step and in front of the first item outside an active session or of a later step |
| MemoryQueue.WaitTime | lib/memory-queue-manager.ts:287-293 | the estimated wait is 300 s above 95% usage, 180 s above 90%, 120 s above 85% and 60 s otherwise |
| MemoryQueue.WaitTimeMonotone | lib/memory-queue-manager.ts:287-293 | a higher usage never gives a shorter wait |
| MemoryQueue.FindIndex | lib/memory-queue-manager.ts:160-161 | the index of the first request with the id, or none exactly when no request has it |
| MemoryQueue.AfterRunTouchesHeadOnly | lib/memory-queue-manager.ts:194-232 | one attempt touches only the head: a shortage leaves the queue as it was, and the head leaves exactly when it started or used its last retry on another error |
| MemoryQueue.FailingCounts | lib/memory-queue-manager.ts:224-231 | repeated non-shortage failures within the retry budget only raise the head's retry count, one per attempt |
| MemoryQueue.FailuresEvictHead | lib/memory-queue-manager.ts:224-228 | non-shortage failures evict the head after its remaining retry budget (at least one attempt) and leave the rest of the queue unchanged |
| MemoryQueue.Manager.constructor | lib/memory-queue-manager.ts:32-38 | a new manager has an empty queue and no active session |
| MemoryQueue.Manager.Status | lib/memory-queue-manager.ts:159-170 | no status exactly when no request has the id; otherwise its 1-based position, the queue size, a 120-second estimate and its retry count |
| MemoryQueue.Manager.InsertByPriority | lib/memory-queue-manager.ts:298-334 | the queue becomes the spliced queue of the specification; the sessions are unchanged |
| MemoryQueue.Manager.QueueRequest | lib/memory-queue-manager.ts:64-86 | a full queue of 50 refuses and is unchanged; otherwise the request with no retries used is inserted by priority and its id returned |
| MemoryQueue.Manager.ProcessQueue | lib/memory-queue-manager.ts:194-232 | the queue becomes the specified result of one attempt at its head |
| MemoryQueue.Manager.Execute | lib/memory-queue-manager.ts:91-154 | a started run returns its id; another error is rethrown; a shortage queues the request with normal priority and 3 retries unless given, and the queue is otherwise untouched |
| MemoryQueue.Manager.StartSearchSession | lib/memory-queue-manager.ts:357-360 | adds the session to the active set and leaves the queue |
| MemoryQueue.Manager.CompleteSearchSession | lib/memory-queue-manager.ts:365-368 | removes the session from the active set and leaves the queue |
| MemoryQueue.LastFailure | lib/memory-queue-manager.ts:224-228 | the failure that uses up the head's last retry removes it from the queue |
| ApifyErrors.MentionsLimit | lib/db-queue-manager.ts:523-528 | the scan over the limit phrases is true exactly when the lower-cased message contains one of them |
| ApifyErrors.ResourceLimitErrorCases | lib/memory-queue-manager.ts:238-282 | an error is a resource shortage exactly when its type is one of the five listed types, its lower-cased message contains one of the five listed phrases, or its status is 402 |
| DbStore.NewRow | lib/db-queue-manager.ts:118-131 | a queued row starts pending, with no retries used and no result |
| DbStore.Insert | lib/db-queue-manager.ts:118-133 | an insert stores the row under a fresh id, returns that id and changes nothing else |
| DbStore.AddRows | lib/db-queue-manager.ts:118-133 | inserting several rows hands out one id each and leaves the balances and the history |
| DbStore.AddRowsKeeps | lib/db-queue-manager.ts:118-133 | inserting rows keeps every id below the counter, keeps every earlier row, stores each new row under its own fresh id and adds nothing else |
| DbStore.Modify | lib/db-queue-manager.ts:332-338 | an update by id changes only that row, leaves the set of ids, the counter, the balances and the history |
| DbQueue.ProcessItemOutcome | lib/db-queue-manager.ts:319-493 | processing one row keeps the store valid and the row present, leaves every other row as it was, and never raises a balance |
| DbQueue.ProcessItemStatus | lib/db-queue-manager.ts:330-491 | a shortage puts the row back to pending with its stored retry count; another error stores one retry more than the row read, fails it exactly when that reaches the maximum (pending otherwise) and rethrows; a started run always ends completed with its run id |
| DbQueue.ProcessQueueItem | lib/db-queue-manager.ts:319-493 | the step-by-step processing computes the specified result, and throws only when the run did not start |
| DbQueue.Picked | lib/db-queue-manager.ts:242-285 | a failed session query fails the call; on success the rows are at most 20 continuation rows followed by regular rows up to 30 in all |
| DbQueue.AbsorbStep | lib/db-queue-manager.ts:298-307 | one more row is counted as processed, or as an error with its id and message when its processing threw |
| DbQueue.RunAllStep | lib/db-queue-manager.ts:298-307 | the loop over the picked rows processes them one after another |
| DbQueue.RunAllCounts | lib/db-queue-manager.ts:295-310 | every picked row is counted exactly once, as processed or as an error |
| DbQueue.QueueRunBound | lib/db-queue-manager.ts:233-311 | one call handles at most 30 rows and accounts for each picked row |
| DbQueue.ProcessQueue | lib/db-queue-manager.ts:233-311 | computes the specified queue run |
| DbQueue.ProcessPicked | lib/db-queue-manager.ts:295-310 | the loop computes the specified run over the picked rows |
| DbQueue.WaitTimeMonotone | lib/db-queue-manager.ts:546-552 | the estimated wait (1, 3 or 5 minutes, then two per position) never shrinks for a later position |
| DbQueue.PositionBounds | lib/db-queue-manager.ts:160-168 | a pending row's position lies between 1 and the number of pending rows |
| DbQueue.PositionOrder | lib/db-queue-manager.ts:160-168 | of two pending rows, the earlier created has the smaller position |
| DbQueue.QueueStatusCases | lib/db-queue-manager.ts:147-227 | a missing row and another user's row both give no status; a pending row reports its position, retry count and wait; a completed step-1 session row reports the merged session only when every row of the session is completed |
| DbQueue.ExecuteEffect | lib/db-queue-manager.ts:37-102 | exactly a shortage stores one new row, pending, with no retries used and a positive retry budget, under a fresh id; a started run or another error stores nothing |
| DbQueue.SpecificIgnoresRetryLimit | lib/db-queue-manager.ts:609-627 | as written, a row that used its last retry is rolled back to pending with its retries exhausted |
| DbQueue.SpecificCorrectedRespectsLimit | lib/db-queue-manager.ts:557-632 | with the rollback confined to a row still processing, the polling path counts the retry and fails the row exactly when its retries run out |
| DbSession.Urls | lib/db-queue-manager.ts:909-911 | the reel urls are the non-empty urls of the results, never more than the results |
| DbSession.Names | lib/db-queue-manager.ts:955-957 | the user names are the non-empty names of the results, never more than the results |
| DbSession.BatchCounts | lib/db-queue-manager.ts:922-926 | at most 30 urls make at most one batch of 30, and at most 60 names at most two |
| DbSession.ContinuationFields | lib/db-queue-manager.ts:900-919 | nothing is queued unless a step-1 Instagram hashtag task of a session has a result url; every queued row is pending, with no retries used, three allowed, and the session and user of the finished row |
| DbSession.ContinuationLayout | lib/db-queue-manager.ts:908-993 | when it fans out: one step-2 detail row with the first 30 urls, then one step-3 profile row per batch of at most 30 of the first 60 names, at most two, covering those names in order |
| DbSession.BatchesStep | lib/db-queue-manager.ts:924-926 | one turn of the slicing loop takes the batch of up to 30 that starts at the index, then the rest |
| DbSession.SliceBatches | lib/db-queue-manager.ts:922-926 | the loop slices the list into the batches of 30 of the specification |
| DbSession.HandleSessionContinuation | lib/db-queue-manager.ts:891-996 | the store gains exactly the specified continuation rows, in insertion order |
| DbSession.Merge | lib/db-queue-manager.ts:1055-1086 | merging detail and profile data never changes an item's url or user name |
| DbSession.FindDetail | lib/db-queue-manager.ts:1059-1061 | a detail found has the url as its url or its video url; none is found only when no detail has it |
| DbSession.FindProfile | lib/db-queue-manager.ts:1065-1067 | a profile found has the user name; none is found only when no profile has it |
| DbSession.FirstStage | lib/db-queue-manager.ts:1032 | the stage found is a row of the session of step 1 |
| DbSession.CompleteSessionResultShape | lib/db-queue-manager.ts:1001-1108 | a merged session result exists exactly when every row of the session is completed; it counts every row as a stage and has one item per stage-1 item, with the same url and user name, in order |
| DbCredits.OriginalLimit | lib/db-queue-manager.ts:754 | the original limit is the requested limit, or 30 when it is absent or zero, so always positive |
| DbCredits.ProratedBounds | lib/db-queue-manager.ts:765 | the prorated charge never exceeds the base for results up to the limit, is the full base at exactly the limit, and is never zero when the base is positive |
| DbCredits.ChargeRules | lib/db-queue-manager.ts:746-805 | hashtag and TikTok runs pay a positive prorated charge of at most floor(limit / 30 * 100) when within the limit; Instagram profile and unknown tasks pay nothing; subtitle extraction pays 10 for YouTube and 20 otherwise |
| DbCredits.SaveHistoryEffect | lib/db-queue-manager.ts:738-886 | saving touches only the history, which gains one row when the insert succeeds, and that user's balance, which becomes max(0, balance - charge) then and never grows |
| CreditsConsume.Adjust | app/api/credits/consume/route.ts:22-38 | a successful adjustment keeps balance plus reservation, less the committed amount, and never reserves more than before plus the reserve less the commit; a refusal is an error reply |
| CreditsConsume.AdjustCases | app/api/credits/consume/route.ts:25-38 | a reserve above the balance is refused with 402 Insufficient, and otherwise a commit above the reservation with 400 BadCommit; alone, reserve moves credits from the balance to the reservation, commit spends reserved credits and rollback returns at most what is reserved |
| CreditsConsume.Post | app/api/credits/consume/route.ts:16-45 | a malformed body gives 400 BadRequest and an unknown user 404 NotFound, both writing nothing; otherwise the row becomes the adjusted account, which is returned, or the refusal is returned and nothing is written; a user's total drops by exactly the amount committed |
| SearchRoute.PlanGateRules | app/api/search/route.ts:133-148 | admins pass; the free plan (also when no plan is set) allows only 30 and 5 results; starter refuses 90 and 120; pro refuses 120; every other plan passes |
| SearchRoute.ReserveAmount | app/api/search/route.ts:153-157 | nothing is reserved for developers and admins; otherwise 100 credits per 30 requested results for the limits 30, 60, 90 and 120, and nothing for any other limit |
| SearchRoute.Settle | app/api/search/route.ts:169-176 | nothing is settled when nothing was reserved; otherwise the commit is the charge for the results, capped at the reservation, and commit plus rollback equal the reservation |
| SearchRoute.ReserveThenSettleCharge | app/api/search/route.ts:153-176 | the reservation fails exactly when the balance is short; otherwise the user's reservation returns to what it was and the balance drops by the charge capped at the reservation |
| SearchRoute.KeywordSearchChargesTwice | app/api/search/route.ts:675-716 | as written, a 30-result search by a user holding 200 credits leaves 0: 100 committed through the reservation and 100 taken again from the balance |
| SearchRoute.KeywordSearchChargesOnce | app/api/search/route.ts:169-176 | with the charge taken through the reservation only, a user who can afford the reservation pays exactly the capped charge, never more than reserved |
| SearchRoute.RemoveStripped | app/api/search/route.ts:204 | the stripped keyword holds none of the stripped characters and is no longer than the input |
| SearchRoute.NormalizeAll | app/api/search/route.ts:201-205 | every raw keyword is normalised, in order |
| SearchRoute.NormalizedKeywordsDistinct | app/api/search/route.ts:200-206 | at most three keywords are kept, pairwise distinct |
| SearchRoute.NormalizedKeywordsFrom | app/api/search/route.ts:197-206 | every kept keyword is non-empty, holds no stripped character and is the normalisation of an input keyword |
| SearchRoute.Targets | app/api/search/route.ts:243 | one target per keyword, the base plus one for the first keywords of the remainder |
| SearchRoute.PerTarget | app/api/search/route.ts:239-243 | one target per keyword |
| SearchRoute.SumOfTargets | app/api/search/route.ts:240-243 | the targets add up to the base times the count plus the remainder handed out |
| SearchRoute.PerTargetFair | app/api/search/route.ts:239-243 | for at least one keyword the targets add up to the limit, differ by at most one, and the larger ones come first |
| SearchRoute.Oversample | app/api/search/route.ts:244-245 | with two or more keywords a target is raised to the ceiling of 1.3 times it; otherwise it is unchanged |
| SearchRoute.Want | app/api/search/route.ts:250 | each keyword asks for at least one result and at least its target |
| SearchRoute.RunSizes | app/api/search/route.ts:251-256 | ceil(want / 30) runs, each of 1 to 30 results, all but the last of exactly 30, adding up to want |
| SearchRoute.WithUrl | app/api/search/route.ts:267-270 | the items kept are exactly the items with a URL |
| SearchRoute.CollectStage1 | app/api/search/route.ts:267-275 | the loop with its set of seen URLs keeps the first item per URL, in input order |
| SearchRoute.ReelUrlsDistinct | app/api/search/route.ts:290-292 | the URL list has no duplicates and at most the limit of entries |
| SearchRoute.ReelUrlsFrom | app/api/search/route.ts:264-292 | every URL sent on is the non-empty URL of a stage-1 item |
| SearchRoute.TooFewRollsBack | app/api/search/route.ts:293-297 | a search stopped for too few stage-1 items settles 0 results, so the whole reservation returns to the balance |
| SearchRoute.BumpCounters | app/api/search/route.ts:600-617 | the counters carry the current month and day; each grows by one, starting again from 0 when its stored month or day is another one |
| TikTokRoute.PlanGateRules | app/api/search/tiktok/route.ts:84-106 | admins pass; the free plan (also when no plan is set) allows 5 and 30 results, starter 5 to 60, pro 5 to 90; every other plan passes |
| TikTokRoute.CreditCost | app/api/search/tiktok/route.ts:113-120 | a search of 30, 60, 90 or 120 results costs 100 credits per 30; any other limit costs nothing |
| TikTokRoute.BalanceCheck | app/api/search/tiktok/route.ts:109-147 | a non-admin search that costs credits is stopped with 500 when the credits row cannot be read and with 402 when the balance is below the cost; nothing else is stopped |
| TikTokRoute.SettleRules | app/api/search/tiktok/route.ts:150-184 | admins pay nothing and keep their balance; anyone else is reported the charge of 100 per 30 results, floored; the balance drops by that charge when it covers it and falls to 0 when it does not; a zero charge or a missing row leaves the balance as it was |
| TikTokRoute.Segment | app/api/search/tiktok/route.ts:216 | the captured name is the longest prefix with neither '/' nor '?' |
| TikTokRoute.FirstMatchShape | app/api/search/tiktok/route.ts:216 | a name captured from a URL is non-empty and holds no '/' or '?' |
| TikTokRoute.SegmentAt | app/api/search/tiktok/route.ts:216 | the capture stops at the first '/' or '?' after the marker, or at the end |
| TikTokRoute.MarkerMatch | app/api/search/tiktok/route.ts:215-220 | when the marker stands at a position where the first match must start, the capture is the run of name characters after it |
| TikTokRoute.ProfileNameOfMatch | app/api/search/tiktok/route.ts:211-225 | a trimmed query whose first match captures a name not starting with '@' gives that name |
| TikTokRoute.UrlMatch | app/api/search/tiktok/route.ts:215-220 | a profile URL holds the marker, and the first match captures its name |
| TikTokRoute.ProfileNameOfUrl | app/api/search/tiktok/route.ts:211-225 | the name is recovered from a profile URL: a prefix in which the marker cannot start, the marker, the name, then nothing or a path or query part |
| TikTokRoute.ProfileNameOfHttpsUrl | app/api/search/tiktok/route.ts:213-220 | the usual URL form https://www.tiktok.com/@name gives the name |
| TikTokRoute.PeriodText | app/api/search/tiktok/route.ts:237-293 | a missing period or 'all' searches back 2 months for a profile search and 3 months for a keyword search |
| TikTokRoute.PeriodTextSame | app/api/search/tiktok/route.ts:240-289 | every listed period maps to the same span for both kinds of search |
| TikTokRoute.AtLeastViews | app/api/search/tiktok/route.ts:358-360 | the filter keeps exactly the videos with at least the minimum views, in order |
| TikTokRoute.FinalResultsMembers | app/api/search/tiktok/route.ts:355-378 | at most the requested number of results, each an input video meeting the positive view floor |
| TikTokRoute.FinalResultsSorted | app/api/search/tiktok/route.ts:363-378 | with a sort key the results come in descending order of views, publish time or likes |
| TikTokRoute.FinalResultsPlain | app/api/search/tiktok/route.ts:355-378 | with no positive view floor and no sort the results are the first videos in input order |
| TikTokRoute.FinalResultsTop | app/api/search/tiktok/route.ts:355-378 | with a sort key the response holds min(limit, number of filtered videos) videos, the first ones of the filtered videos sorted by that key, and no filtered video left out ranks above one kept |
| TikTokRoute.FinalResultsUnsorted | app/api/search/tiktok/route.ts:355-378 | without a sort key the response is the first min(limit, number of filtered videos) filtered videos in input order |
| TikTokRoute.NoMatchBefore | app/api/search/tiktok/route.ts:216 | where the marker cannot start before a position, the first match from the start is the first match from that position |
| PlanChange.PlanCredits | lib/plan-change-helpers.ts:33-38 | exactly the four plans free, starter, pro and business have a monthly credit amount, each at least 250 |
| PlanChange.PlanPrice | lib/plan-change-helpers.ts:41-45 | a plan has a positive price exactly when it is one of the paid plans |
| PlanChange.PlanTablesAgree | lib/plan-change-helpers.ts:33-45 | among the paid plans the dearer one is exactly the one with more credits |
| PlanChange.PlanChangeTypeCases | lib/plan-change-helpers.ts:50-60 | unpaid to paid is free_to_paid, paid to unpaid paid_to_free, paid to paid paid_to_paid, and a move between two unpaid plans is refused |
| PlanChange.CreditAccumulationRules | lib/plan-change-helpers.ts:81-112 | without a credits row the calculation fails; otherwise the used part is the grant's shortfall (never negative), the total is the new plan's credits and the new balance is the total less the used part, never below 0 |
| PlanChange.CreditAccumulationMonotone | lib/plan-change-helpers.ts:99-105 | moving to a plan with more credits never leaves a smaller balance |
| PlanChange.UsedCreditsBounds | lib/plan-change-helpers.ts:154-172 | the used credits are the larger of the summed search charges and the grant's shortfall, each counting 0 when unreadable |
| PlanChange.RefundDecisionRules | lib/plan-change-helpers.ts:174-208 | a first paid subscription after the free plan is refundable up to 250 used credits, every other case only with no use; an eligible refund carries the plan's price and its reason names the branch |
| PlanChange.RefundDecisionAntitone | lib/plan-change-helpers.ts:174-208 | using fewer credits never turns an eligible refund into a refused one |
| PlanChange.RefundEligibilityRules | lib/plan-change-helpers.ts:117-209 | no subscription is refused as no_subscription, more than 48 hours after renewal as time_limit_exceeded, and otherwise the decision follows the latest change and the used credits |
| SearchRecord.CreateEffect | app/api/me/search-record/route.ts:28-193 | every refusal (400, 401, 402, 500) leaves all tables as they were, a failed insert giving the credits back; 402 exactly when the balance does not cover the expected credits; a recorded search takes exactly the expected credits and is stored under the new id with them as used |
| SearchRecord.UpdateEffect | app/api/me/search-record/route.ts:197-325 | 404 exactly for a missing or foreign record and every refusal changes nothing; otherwise only the owner's record and balance change, the balance by exactly the refund in the reply: the client's amount when given, else the unused part of the charged credits |
| SearchRecord.NetChargeIsActual | app/api/me/search-record/route.ts:58-90 | a charge followed by the end-of-search update with the actual credits and no client amount costs exactly the actual credits |
| SearchRecord.RepeatedUpdateRefundsOnce | app/api/me/search-record/route.ts:233-296 | repeating the same end-of-search update without a client amount gives nothing back the second time |
| SearchRecord.ClientRefundTrusted | app/api/me/search-record/route.ts:250-296 | a client-named refund amount is added to the balance whatever the record charged |
| Cycle.NextCycleBounds | app/api/toss/billing/route.ts:50-56 | the next grant date lies after now and is at or after the base; when the base is not after now, one step earlier is not after now, and a base after now is itself the next date |
| Cycle.AdvanceCycle | app/api/toss/billing/route.ts:50-56 | the loop ends at the first date a whole number of steps from the base that lies after now, and the cycle starts one step before it |
| Accounts.SetProfilePlan | app/api/toss/billing/route.ts:25-31 | the profile of the user, if there is one, gets the new plan; no other profile changes and no row is added |
| Accounts.UpdateCredit | app/api/toss/billing/route.ts:58-69 | the credits row of the user, if there is one, becomes the new row; no other row changes and no row is added |
| Billing.Rank | app/api/toss/billing/route.ts:218 | business, pro and starter rank above every other plan, and no rank exceeds 3 |
| Billing.SaveBillingKey | app/api/toss/billing/route.ts:205-228 | 400 exactly when the plan is not a paid one or the key is shorter than 3, 401 without a user, 403 exactly when a non-admin would move to a lower-ranked plan; only 200 writes, and it writes an active subscription with the key, renewed now and due a month later, never lowering a non-admin's rank |
| Billing.ExpireEffect | app/api/toss/billing/route.ts:105-195 | an expired canceled subscription becomes free and expired with its billing key kept, the profile free, and the credits 250 with a grant date after now and a cycle start 30 days before it; no other user changes |
| Billing.ExpireCanceled | app/api/toss/billing/route.ts:238-248 | the first loop applies the expiry to every canceled row whose next charge date has passed, in row order |
| Billing.PlanDelta | app/api/toss/billing/route.ts:234 | a plan grants credits on renewal exactly when it is a paid one |
| Billing.PlanAmount | app/api/toss/billing/route.ts:254-255 | a plan is charged a positive amount exactly when it is a paid one |
| Billing.ChargeOneEffect | app/api/toss/billing/route.ts:250-302 | only an active row with a billing key, a paid plan and a secret is charged; a successful payment adds exactly 2000, 7000 or 20000 credits, keeps the reservation and renews the subscription (renewed now, next charge a month on); a declined one changes nothing; a thrown error sets the subscription to free and payment_failed without billing key, the profile to free, and the credits to 250 with a new cycle; no other user's subscription, profile or credits change |
| Billing.ChargeActive | app/api/toss/billing/route.ts:250-302 | the second loop charges the rows in order, the i-th payment call having the i-th outcome |
| Billing.MonthlyCharge | app/api/toss/billing/route.ts:231-306 | the monthly job expires first and then charges, both over the rows as read at the start, an unreadable list counting as empty |
| Billing.CancelAutoCharge | app/api/toss/billing/route.ts:310-326 | 401 without a user and 404 without a subscription, changing nothing; otherwise only the status becomes canceled, keeping the next charge date and the billing key, and the reply reports them |
| CycleReset.DueRows | app/api/cron/cycle-credit-reset/route.ts:20-35 | exactly the rows whose next grant date is today or earlier are due |
| CycleReset.CycleCredits | app/api/cron/cycle-credit-reset/route.ts:66-82 | the job resets every plan to one of 250, 2000, 5000 or 10000 credits |
| CycleReset.CycleCreditsMismatch | app/api/cron/cycle-credit-reset/route.ts:66-82 | the job's table gives pro 5000 instead of its 7000 monthly credits and business 250 instead of 20000 |
| CycleReset.CycleCreditsCorrectedAgrees | lib/plan-change-helpers.ts:33-38 | the corrected table gives every known plan its monthly credits, never less than 250, and more to a dearer paid plan |
| CycleReset.ResetOneEffect | app/api/cron/cycle-credit-reset/route.ts:57-146 | a row without a base date or whose update fails changes nothing and records nothing; otherwise the user's credits become the plan's amount as balance and grant, with a next grant date after today and a cycle start 30 days before it, and the detail records the old and new balance; no other user changes |
| CycleReset.ResetAllDetails | app/api/cron/cycle-credit-reset/route.ts:53-147 | at most one detail per due row, each for a due user and with a next grant date after today, and no credits row is added or removed |
| CycleReset.ResetCycles | app/api/cron/cycle-credit-reset/route.ts:4-156 | a wrong bearer token gives 401 and a failed query 500, both changing nothing; otherwise the due rows are reset in order and the reply counts exactly the recorded details |
| Cancel.EligibleIff | app/api/subscriptions/cancel/route.ts:43-60 | a refund is due exactly within 48 hours of the renewal when no search since then used credits, a failed history query counting as no use |
| Cancel.CancelSubscription | app/api/subscriptions/cancel/route.ts:13-244 | 401 without a user, 400 for a reason outside 1 to 200 characters or an already canceled subscription, 404 without one, 500 when the update fails, all changing nothing; otherwise the subscription is canceled without its billing key, ending now when refundable and at its next charge date if not, a refundable user moves at once to the free plan with 250 credits, the log is written only with a profile, and no other user changes |
| UsageStats.LocalMidnight | app/api/me/stats/route.ts:38-43 | local midnight lies within the day before the time, never after it |
| UsageStats.MidnightShift | app/api/me/stats/route.ts:38-43 | moving a time by whole days moves its local midnight by the same days |
| UsageStats.WindowsNested | app/api/me/route.ts:79-86 | the 7-day window starts 23 days after the 30-day one, and the month window of the search-stats scope equals the 30-day window of the stats route |
| UsageStats.WindowAntitone | app/api/me/stats/route.ts:52-72 | a later window start counts no more rows and no more credits, and never more rows than there are |
| UsageStats.TodayInWindow | app/api/me/stats/route.ts:56-71 | every row of today's UTC date lies in a window starting a day or more before now |
| UsageStats.StatsOf | app/api/me/stats/route.ts:20-82 | a failed query gives 500; otherwise today's searches, the 7-day and 30-day searches and credits, and the total row count |
| UsageStats.StatsOrdered | app/api/me/stats/route.ts:45-82 | today's searches never exceed the week's, the week's figures never exceed the month's, and the month's searches never exceed the total |
| UsageStats.CreditsOfUsed | app/api/me/route.ts:53-57 | leaving out the rows without credits does not change a credit sum |
| UsageStats.CountSearchStats | app/api/me/route.ts:98-146 | the two loops count today's searches and the month's searches over the first query and sum the month's credits over the second |
| UsageStats.SearchStatsAgree | app/api/me/route.ts:112-145 | over the same history the search-stats scope reports the same month credits as the stats route and no more searches in the month or today |
| UsageStats.FilterCounts | app/api/me/route.ts:46-50 | leaving out subtitle extraction never raises a count |
| UsageStats.GetMe | app/api/me/route.ts:6-221 | 401 without a user; an admin is moved to the business plan; role and plan default to user and free, credits to 0; the search-stats scope adds today's and the month's searches without subtitle extraction and the 30-day credits, all 0 when a query fails; the credits-detail scope adds the reservation |
| UsageStats.RecentKeyword | app/api/me/route.ts:117-135 | a collected keyword comes from a row with a keyword, is non-empty, does not start with http, and is the keyword or the keyword with an @ in front |
| UsageStats.RecentKeywords | app/api/me/recent-keywords/route.ts:42-55 | the loop keeps the first row seen for each keyword |
| UsageStats.RecentKeywordsShape | app/api/me/recent-keywords/route.ts:41-55 | one row per keyword of the input, no keyword twice, each the first (newest) row of its keyword, in input order |
| UsageStats.RecentKeywordsRecent | app/api/me/recent-keywords/route.ts:21-55 | fed the rows of the query (last 2 days, non-empty keyword, no subtitle extraction), every row returned is such a row and no two share a keyword |
| UsageStats.GetRecentKeywords | app/api/me/recent-keywords/route.ts:20-60 | a failed query gives 500; otherwise the newest row of each keyword |
| ApifyMonitor.ActorDisplayNameCases | lib/apify-monitor.ts:147-181 | a listed actor id shows its friendly name, any other id shows itself, and the name equals the id exactly for unlisted ids |
| ApifyMonitor.StatusColorDistinct | lib/apify-monitor.ts:466-475 | the five known statuses have five different colours and every other status gets the purple default |
| ApifyMonitor.Parts | lib/apify-monitor.ts:484-497 | hours and minutes when at least an hour, minutes and seconds when at least a minute, seconds otherwise; each lower unit below 60 and the parts within one shown unit of the duration |
| ApifyMonitor.FormatDurationReadsBack | lib/apify-monitor.ts:484-497 | the label's numbers read back as the duration to within its last shown unit |
| ApifyMonitor.CurrentMemoryUsage | lib/apify-monitor.ts:277-279 | no running actors use no memory, and the total is at least each running actor's memory |
| ApifyMonitor.MaxMemoryAllowed | lib/apify-monitor.ts:281-298 | a set, non-zero account limit is the limit |
| ApifyMonitor.MaxMemoryFallbacks | lib/apify-monitor.ts:286-297 | without a limit the free plan allows 8192 MB, less than starter's 32768, which is less than scale's |
| ApifyMonitor.MaxMemoryLargest | lib/apify-monitor.ts:295-296 | scale and business both allow 131072 MB |
| ApifyMonitor.MaxMemoryByPlan | lib/apify-monitor.ts:281-298 | without a limit the memory is one of 8192, 32768 or 131072, the plan name's case does not matter, and a limit of 0 counts as none |
| ApifyMonitor.TableEntries | lib/apify-monitor.ts:320-345 | a key is in a table exactly when some counted run falls under it, and its entry holds that key's run count and sums |
| ApifyMonitor.SortedKeys | lib/apify-monitor.ts:355-362 | the keys of a table listed once each in ascending order |
| ApifyMonitor.BucketsShape | lib/apify-monitor.ts:350-362 | the listed buckets come in strictly ascending key order and each holds the count of its key's runs, at least one |
| ApifyMonitor.BucketsTotal | lib/apify-monitor.ts:320-362 | the buckets of a table add up to the field summed over all counted runs, so the daily compute units add up to the total |
| ApifyMonitor.CountIsSum | lib/apify-monitor.ts:324-329 | the number of counted runs equals the sum of one per counted run |
| ApifyMonitor.DailyRunsTotal | lib/apify-monitor.ts:320-356 | the daily run counts add up to the number of runs started in the window |
| ApifyMonitor.GetUsageStats | lib/apify-monitor.ts:309-364 | the total compute units of the window, the daily buckets and the hourly buckets of the last 24 hours, each in ascending key order |
| Logger.Hide | lib/logger.ts:74 | the masked form is 12 characters: the first four, four asterisks, the last four |
| Logger.MaskObject | lib/logger.ts:79-99 | the loop over the sensitive field names gives the shallow copy with exactly those fields masked |
| Logger.MaskSensitiveData | lib/logger.ts:63-102 | the masking of any logged value, by its kind |
| Logger.MaskFieldsExact | lib/logger.ts:88-97 | the copy has the same fields; exactly the listed fields that are present and truthy are masked, every other field is kept |
| Logger.MaskObjectFields | lib/logger.ts:79-99 | an object stays an object with the same fields, each sensitive truthy field masked and the rest kept |
| Logger.MaskFieldHides | lib/logger.ts:89-95 | a masked field is a truthy string: four asterisks, or for a string longer than 8 its first and last four characters around four asterisks |
| Logger.MaskStringCases | lib/logger.ts:66-77 | a string changes exactly when it is longer than 10 characters and mentions token, key, secret or password, and then keeps only its first and last four characters |
| Logger.MaskTwice | lib/logger.ts:63-102 | masking a masked value changes nothing |
| Logger.MaskKeepsOthers | lib/logger.ts:64-102 | falsy values, numbers and booleans pass through, and strings stay strings and objects objects |
| ApiKeyValidator.OrDefault | lib/youtube-api-validator.ts:36 | a present, non-empty message is used as it is, otherwise the default |
| ApiKeyValidator.ValidateDecides | lib/youtube-api-validator.ts:10-108 | a key is valid exactly on an ok answer, and only then has no error kind and no message; a throw is a network error; 429, or 403 with a quota reason or a message mentioning quota or limit, is a quota error; 400, 401 and every other 403 mean an invalid key; any other status is an unknown error |
| ApiKeyValidator.ValidatePassesMessage | lib/youtube-api-validator.ts:33-79 | a 400 or a non-quota 403 passes the API's own message on when it has one |
| ApiKeyValidator.UnknownNamesStatus | lib/youtube-api-validator.ts:90-97 | an unknown error's message starts with HTTP and the status, which reads back from its digits |
| ApiKeyValidator.QuotaWordSignals | lib/youtube-api-validator.ts:62-66 | a 403 message containing any word that lower-cases to quota counts as a quota error |
| ApiKeyValidator.ErrorMessageEmptyIffValid | lib/youtube-api-validator.ts:111-127 | the user sees an empty message exactly for a valid key |
| ApiKeyValidator.ErrorMessagesDistinct | lib/youtube-api-validator.ts:116-126 | each failure kind has its own message, and a missing kind shares the unknown kind's |

## Left out

- The Qt interface of `main.py`: windows, tables, dialogs, export, settings files, translation and the license bootstrap. These are widgets and file I/O.
- The first `Worker` class of `main.py`, which the second definition of the same name shadows. Also `_extract_core_keywords`, which nothing calls.
- Thread pools, Qt signals and the memory queue's `setInterval` processor. Parallel batches are a sequential fold in list order, so the completion order of `as_completed` is not modelled.
- `time.sleep`: the delays are recorded, not slept.
- Cancellation is a flag that becomes set after a given number of reads.
- The services behind every call (YouTube, Supabase, Apify, Toss, Upstash) are outside the model. Each call's outcome is a parameter.
- Console logging, the memory queue's request ids and callbacks, and the random and time-based order ids.
- Cloudflare Turnstile checks, rate limiting and the TikTok route's `transactionId`.
- The ContributionWorker, `analyzeChannelContribution`, the admin reports and every other route that holds only plan tables or queries.
- Floating point is not modelled:
  - engagement and reaction rates are exact rationals;
  - Apify compute units are `real`;
  - `calculateRunCost`, `usagePercentage`, `formatMemory` and `getDetailedUsageStats` are left out because their results are float costs and formatted floats.
- Progress.Point: the exact floor of the rational progress point, where `main.py` truncates the float `start + k * (weight / steps)`. The two can differ by one percent.
- Calendar and time-zone behaviour: dates are integers, and `setDate(+30)` is a 30-day step. UsageStats.LocalMidnight: the server's zone is a fixed offset, with no daylight-saving change.
- Unicode NFKC normalisation of search keywords is not modelled; the other normalisation steps are.
- Logger.Mask: arrays are objects keyed by their indices, numbers are integers (no NaN or -0), and string lengths count characters rather than UTF-16 code units.
- ApiKeyValidator.Validate: lower-casing is ASCII only. A response whose JSON cannot be parsed is the thrown outcome, as in the source.
- Text.Lower and Text.IsPyWord: lower-casing changes only 'A'..'Z', and Python's Unicode `\w` is ASCII word characters plus the Hangul, kana and CJK ranges. Python's `str.lower()` and `\w` also cover other letters, such as accented Latin, Greek or Cyrillic ones. The members below inherit this.
- Language.KeywordDetect: a letter outside ASCII and those scripts is neither lower-cased nor a word character. For "CAFÉ" the model counts the English word "caf" and answers en, where Python lower-cases to "café", finds no English word and answers ko.
- Language.KeywordDetectDefaultsToKorean: "nothing scored" is judged on the ASCII-only lower-casing, so it covers fewer texts than Python's detector does.
- Score.HashtagsAreWords: with the Python word class a hashtag stops at the first letter outside ASCII and the listed scripts; "#café" yields "caf", where Python yields "café".
- Score.MakePySeed: the seed's words and hashtags are split with the same restricted word class, so words with other letters are cut at them.
- Score.PyScore: title words and hashtags are compared after ASCII-only lower-casing and the restricted word class.
- SimilarRun.SeedHashtags: the hashtags inherit the restricted word class of Score.MakePySeed.
- SearchRoute.ToCharge, SearchRoute.Settle, TikTokRoute.ToCharge and TikTokRoute.Settle: the charge is the exact floor of n * 100 / 30. The source floors the double `(n / 30) * 100`, which can land just below an integer. At n = 69 the source charges 229 and the model 230.
- DbCredits.BaseCredits and DbCredits.Prorated: the same exact floor against the source's doubles. The prorated charge differs by one at limit 90 with 33 or 66 results, and at limit 120 with 69 results.
- Concurrency: each request and each queue step runs alone, and interleavings of two requests on one row are not modelled. This covers CreditsConsume.Post, the reserve and settle of SearchRoute.ReserveThenSettle and SearchRoute.Settle, SearchRecord.Create and SearchRecord.Update, the TikTok settle TikTokRoute.Settle, and DbCredits.SaveHistoryEffect. MemoryQueue.Manager.ProcessQueue awaits between reading the queue's head and shifting it; the model runs that step without interruption.
- Billing.ChargeOneEffect: the column defaults of a credits row that the upsert creates are not modelled. Only the balance and the reservation are stated.
- UsageStats.GetMe: the recent-keyword list of the search-stats scope is built and de-duplicated but not returned. The model keeps the per-row keyword and drops the sort of that list.
- SearchRecord.CreateEffect: a record id is valid when it has the 8-4-4-4-12 hexadecimal UUID layout; version and variant digits are not checked.
- Seed.ShortsUrlRoundTrip: proved only for URLs whose prefix before the host has no letter 'y'. Such prefixes include `https://`, `https://www.` and `https://m.`.
- Seed.WatchUrlRoundTrip: the same restriction on the prefix.
- Seed.ShortLinkRoundTrip: the same restriction on the prefix.
- Seed.ShortsAbsentFromWatchUrl: the same restriction on the prefix.
- Seed.WatchFoundInWatchUrl: the same restriction on the prefix.
- A seed video's `categoryId` is the value after the default '22' has been filled in (main.py:1114). Fetching the snippet is an oracle.
- CycleReset.ResetCycles: this follows the job as written, with its own credit table. The corrected table is proved separately (see Findings).

## Findings

| source | as written | input that shows it | evidently intended | confidence | as-written member | corrected member |
|---|---|---|---|---|---|---|
| lib/db-queue-manager.ts:557-632 | when `processQueueItem` throws after marking an item failed, the catch at lines 619-627 sets the row back to pending whatever its retry count | a pending item with retry_count 2 and max_retries 3 whose task start throws a non-shortage error: it is marked failed, then pending again, and every poll retries it | the rollback only undoes a claim still in processing, so an item whose retries are used up stays failed | not executed | DbQueue.SpecificIgnoresRetryLimit | DbQueue.SpecificCorrectedRespectsLimit |
| app/api/search/route.ts:170-176 | the keyword search settles the reservation (commit of up to 100 per 30 results) and then deducts the same credits again from the balance at lines 675-716 | balance 200, nothing reserved, a 30-result search reserving 100 that returns 30 results: the balance ends at 0, so 200 credits are paid for a 100-credit search | the search is charged once, by the settle of its reservation | not executed | SearchRoute.KeywordSearchChargesTwice | SearchRoute.KeywordSearchChargesOnce |
| app/api/cron/cycle-credit-reset/route.ts:66-82 | the reset job's own plan table gives pro 5000 and sends business to the 250 default, while the plan table of lib/plan-change-helpers.ts gives 7000 and 20000 | a business user whose grant date has passed is reset to 250 credits | each plan is reset to its monthly credits from the plan table | not executed | CycleReset.CycleCreditsMismatch | CycleReset.CycleCreditsCorrectedAgrees |
