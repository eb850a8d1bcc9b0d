/** The YouTube video record as the pipeline reads it, the result row both workers
    emit, and the shared result ordering `_sort_results` (main.py:993-1011 and
    main.py:1770-1788, identical in the two workers). */
module Videos {
  import opened Sorting

  /** A `videos.list` item. Missing statistics are 0 and missing strings are "".
      `publishedAt` is an instant (the source compares ISO-8601 strings, which
      order the same way for one fixed format). */
  datatype Video = Video(
    id: string,
    title: string,
    description: string,
    channelId: string,
    channelTitle: string,
    tags: seq<string>,
    publishedAt: int,
    duration: string,
    views: nat,
    likes: nat,
    comments: nat,
    categoryId: string,
    topicIds: seq<string>,
    defaultAudioLanguage: string)

  /** A result row: the video, its channel's subscriber count and its similarity score
      (0 in keyword mode). */
  datatype Row = Row(video: Video, subscribers: nat, similarity: nat)

  /** A channel's subscriber count, 0 when the lookup did not return it
      (`counts.get(id, 0)`, `counts[id] || 0`). */
  function SubscribersOf(counts: map<string, nat>, channelId: string): nat
  {
    if channelId in counts then counts[channelId] else 0
  }

  /** `like_count / max(view_count, 1)`, exactly. */
  function EngagementRate(r: Row): (e: real)
    ensures e >= 0.0
    ensures r.video.views > 0 ==> e * (r.video.views as real) == r.video.likes as real
  {
    (r.video.likes as real) / (if r.video.views == 0 then 1 else r.video.views) as real
  }

  /** `comment_count / max(view_count, 1)`, exactly. */
  function ReactionRate(r: Row): (e: real)
    ensures e >= 0.0
    ensures r.video.views > 0 ==> e * (r.video.views as real) == r.video.comments as real
  {
    (r.video.comments as real) / (if r.video.views == 0 then 1 else r.video.views) as real
  }

  const SortKeys: set<string> := {"viewCount", "engagement_rate", "reaction_rate", "date_desc", "date_asc"}

  function Views(r: Row): real { r.video.views as real }
  function Similarity(r: Row): real { r.similarity as real }
  function Newest(r: Row): real { r.video.publishedAt as real }
  function Oldest(r: Row): real { -(r.video.publishedAt as real) }

  /** The rank a sort key orders by (descending); `date_asc` ranks by the negated date. */
  function RankOf(sortBy: string): Row -> real
  {
    match sortBy
    case "viewCount" => Views
    case "engagement_rate" => EngagementRate
    case "reaction_rate" => ReactionRate
    case "date_desc" => Newest
    case _ => Oldest
  }

  /** `_sort_results`: a stable sort on one key; an unknown key leaves the list as it is. */
  function SortResults(sortBy: string, rows: seq<Row>): (r: seq<Row>)
    ensures multiset(r) == multiset(rows)
    ensures sortBy !in SortKeys ==> r == rows
    ensures sortBy in SortKeys ==> SortedDesc(r, RankOf(sortBy))
  {
    if sortBy in SortKeys then SortDesc(rows, RankOf(sortBy)) else rows
  }

  /** Rows that tie on the key keep their relative order. */
  lemma SortResultsStable(sortBy: string, rows: seq<Row>, k: real)
    requires sortBy in SortKeys
    ensures WithRank(SortResults(sortBy, rows), RankOf(sortBy), k) == WithRank(rows, RankOf(sortBy), k)
  {
    SortDescStable(rows, RankOf(sortBy), k);
  }

  /** The orders as the user sees them. */
  lemma SortResultsOrders(sortBy: string, rows: seq<Row>)
    ensures var r := SortResults(sortBy, rows);
      forall i, j :: 0 <= i < j < |r| ==>
        (sortBy == "viewCount" ==> r[i].video.views >= r[j].video.views)
        && (sortBy == "date_desc" ==> r[i].video.publishedAt >= r[j].video.publishedAt)
        && (sortBy == "date_asc" ==> r[i].video.publishedAt <= r[j].video.publishedAt)
        && (sortBy == "engagement_rate" ==> EngagementRate(r[i]) >= EngagementRate(r[j]))
        && (sortBy == "reaction_rate" ==> ReactionRate(r[i]) >= ReactionRate(r[j]))
  {
    var r := SortResults(sortBy, rows);
    forall i, j | 0 <= i < j < |r|
      ensures (sortBy == "viewCount" ==> r[i].video.views >= r[j].video.views)
        && (sortBy == "date_desc" ==> r[i].video.publishedAt >= r[j].video.publishedAt)
        && (sortBy == "date_asc" ==> r[i].video.publishedAt <= r[j].video.publishedAt)
        && (sortBy == "engagement_rate" ==> EngagementRate(r[i]) >= EngagementRate(r[j]))
        && (sortBy == "reaction_rate" ==> ReactionRate(r[i]) >= ReactionRate(r[j]))
    {
      if sortBy in SortKeys {
        assert RankOf(sortBy)(r[i]) >= RankOf(sortBy)(r[j]);
      }
    }
  }
}
