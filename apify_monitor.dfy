/** The display and aggregation helpers of the Apify monitor (lib/apify-monitor.ts):
    actor display names, status colours, the duration label, the memory figures of
    the running actors, and the daily and hourly usage statistics of recent runs.
    The Apify API calls are parameters. Times are milliseconds since the epoch; a
    `YYYY-MM-DD` day key is the UTC day number and an hour key the UTC hour number,
    which order the same way as the strings. Compute units are a float in the
    source and a `real` here. */
module ApifyMonitor {
  import opened Wrappers
  import opened Text

  // ----------------------------------------------------------- display names

  /** The `actorNames` table. */
  const ActorNames: map<string, string> := map[
    "bold_argument~instagram-hashtag-scraper-task" := "Instagram Hashtag Scraper",
    "bold_argument~instagram-scraper-task" := "Instagram Scraper (Details)",
    "bold_argument~instagram-scraper-task-2" := "Instagram Scraper (Profile)",
    "bold_argument~instagram-profile-scraper-task" := "Instagram Profile Scraper",
    "Jn0TcZARDzngD3AEV" := "Instagram Hashtag Scraper",
    "lqbfmuw6hgEZjTKJl" := "Instagram Scraper",
    "9nSdZ5pYWVTU1Gcau" := "Instagram Profile Scraper",
    "bold_argument~tiktok-scraper-task" := "TikTok Profile Scraper",
    "bold_argument~tiktok-scraper-task-2" := "TikTok Keyword Scraper",
    "edRdjZboRnLv1tb68" := "TikTok Profile Scraper",
    "U1rBeH55rsgH0HS9r" := "TikTok Keyword Scraper",
    "bold_argument~tiktok-instagram-facebook-transcriber-task" := "Subtitle Extractor",
    "BHgesiUiheIenGwOy" := "Subtitle Extractor",
    "upscale_jiminy~instagram-hashtag-scraper-task" := "Instagram Hashtag Scraper (Old)",
    "upscale_jiminy~instagram-scraper-task" := "Instagram Scraper (Old)",
    "upscale_jiminy~instagram-profile-scraper-task" := "Instagram Profile Scraper (Old)",
    "interesting_dingo~tiktok-scraper-task" := "TikTok Profile Scraper (Old)",
    "interesting_dingo~tiktok-scraper-task-2" := "TikTok Keyword Scraper (Old)",
    "interesting_dingo~tiktok-instagram-facebook-transcriber-task" := "Subtitle Extractor (Old)",
    "youtube-data-v3" := "YouTube Data API v3"
  ]

  /** `getActorDisplayName`: `actorNames[actId] || actId`. */
  function ActorDisplayName(actId: string): string
  {
    if actId in ActorNames && ActorNames[actId] != "" then ActorNames[actId] else actId
  }

  /** A listed actor gets its name, which is never its id, and any other id is
      returned unchanged; so the id comes back exactly when it is not listed. */
  lemma ActorDisplayNameCases(actId: string)
    ensures actId in ActorNames ==> ActorDisplayName(actId) == ActorNames[actId]
    ensures actId !in ActorNames ==> ActorDisplayName(actId) == actId
    ensures ActorDisplayName(actId) == actId <==> actId !in ActorNames
  {
  }

  // ---------------------------------------------------------- status colours

  /** `getStatusColor`. */
  function StatusColor(status: string): string
  {
    if status == "RUNNING" then "#10B981"
    else if status == "SUCCEEDED" then "#06B6D4"
    else if status == "FAILED" then "#EF4444"
    else if status == "TIMED-OUT" then "#F59E0B"
    else if status == "ABORTED" then "#6B7280"
    else "#8B5CF6"
  }

  /** The five known statuses get five different colours, and every other status the
      purple default, which none of them shares. */
  lemma StatusColorDistinct(a: string, b: string)
    ensures StatusColor(a) == "#8B5CF6" <==> a !in {"RUNNING", "SUCCEEDED", "FAILED", "TIMED-OUT", "ABORTED"}
    ensures a in {"RUNNING", "SUCCEEDED", "FAILED", "TIMED-OUT", "ABORTED"} && StatusColor(a) == StatusColor(b) ==> a == b
  {
  }

  // ---------------------------------------------------------------- duration

  /** The units `formatDuration` shows. */
  datatype DurationParts = HoursMinutes(h: nat, m: nat) | MinutesSeconds(m: nat, s: nat) | Seconds(s: nat)

  /** The whole seconds, minutes and hours of a duration, picking the two largest
      non-zero units. */
  function Parts(ms: nat): (p: DurationParts)
    ensures p.HoursMinutes? ==> p.h > 0 && p.m < 60 && p.h * 3600000 + p.m * 60000 <= ms < p.h * 3600000 + p.m * 60000 + 60000
    ensures p.MinutesSeconds? ==> 0 < p.m < 60 && p.s < 60 && p.m * 60000 + p.s * 1000 <= ms < p.m * 60000 + p.s * 1000 + 1000
    ensures p.Seconds? ==> p.s < 60 && p.s * 1000 <= ms < p.s * 1000 + 1000
  {
    var seconds := ms / 1000;
    var minutes := seconds / 60;
    var hours := minutes / 60;
    if hours > 0 then HoursMinutes(hours, minutes % 60)
    else if minutes > 0 then MinutesSeconds(minutes, seconds % 60)
    else Seconds(seconds)
  }

  /** `formatDuration`: `"Hh Mm"`, `"Mm Ss"` or `"Ss"`. */
  function FormatDuration(ms: nat): string
  {
    match Parts(ms)
    case HoursMinutes(h, m) => NatToString(h) + "h " + NatToString(m) + "m"
    case MinutesSeconds(m, s) => NatToString(m) + "m " + NatToString(s) + "s"
    case Seconds(s) => NatToString(s) + "s"
  }

  /** The label's numbers read back as the duration to within the last unit shown:
      hours and minutes to the minute, minutes and seconds or seconds alone to the
      second. */
  lemma FormatDurationReadsBack(ms: nat)
    ensures var p := Parts(ms);
      match p
      case HoursMinutes(h, m) =>
        var t := DigitsToNat(NatToString(h)) * 3600000 + DigitsToNat(NatToString(m)) * 60000;
        FormatDuration(ms) == NatToString(h) + "h " + NatToString(m) + "m" && t <= ms < t + 60000
      case MinutesSeconds(m, s) =>
        var t := DigitsToNat(NatToString(m)) * 60000 + DigitsToNat(NatToString(s)) * 1000;
        FormatDuration(ms) == NatToString(m) + "m " + NatToString(s) + "s" && t <= ms < t + 1000
      case Seconds(s) =>
        var t := DigitsToNat(NatToString(s)) * 1000;
        FormatDuration(ms) == NatToString(s) + "s" && t <= ms < t + 1000
  {
    match Parts(ms)
    case HoursMinutes(h, m) =>
      DigitsRoundTrip(h);
      DigitsRoundTrip(m);
    case MinutesSeconds(m, s) =>
      DigitsRoundTrip(m);
      DigitsRoundTrip(s);
    case Seconds(s) =>
      DigitsRoundTrip(s);
  }

  // ------------------------------------------------------------------ memory

  /** An actor run: its start time, its compute units and its memory option. */
  datatype Run = Run(startedAt: Option<int>, computeUnits: real, memoryMbytes: nat)

  /** The `reduce` over the running actors; a missing memory option is 0. */
  function CurrentMemoryUsage(running: seq<Run>): (r: nat)
    ensures |running| == 0 ==> r == 0
    ensures forall i :: 0 <= i < |running| ==> running[i].memoryMbytes <= r
  {
    if |running| == 0 then 0
    else running[0].memoryMbytes + CurrentMemoryUsage(running[1..])
  }

  /** The memory limit: the account's own limit when it is set and not 0, otherwise
      by the lower-cased plan name. */
  function MaxMemoryAllowed(limit: Option<nat>, plan: Option<string>): (r: nat)
    ensures limit.Some? && limit.value > 0 ==> r == limit.value
  {
    if limit.Some? && limit.value > 0 then limit.value
    else
      var p := if plan.Some? then Lower(plan.value) else "";
      if p == "free" then 8192
      else if p == "starter" then 32768
      else if p == "scale" || p == "business" then 131072
      else 8192
  }

  /** Lower-casing leaves a string without capitals as it is. */
  lemma LowerKeeps(s: string)
    requires forall i :: 0 <= i < |s| ==> !('A' <= s[i] <= 'Z')
    ensures Lower(s) == s
  {
  }

  /** The fallback limits grow with the plan. */
  lemma MaxMemoryFallbacks()
    ensures MaxMemoryAllowed(None, Some("free")) == 8192 < MaxMemoryAllowed(None, Some("starter")) == 32768
    ensures 32768 < MaxMemoryAllowed(None, Some("scale"))
  {
    LowerKeeps("free");
    LowerKeeps("starter");
    LowerKeeps("scale");
  }

  /** `scale` and `business` share the largest fallback. */
  lemma MaxMemoryLargest()
    ensures MaxMemoryAllowed(None, Some("scale")) == MaxMemoryAllowed(None, Some("business")) == 131072
  {
    LowerKeeps("scale");
    LowerKeeps("business");
  }

  /** Without an account limit the limit is never 0, and the plan name is matched in
      any letter case. */
  lemma MaxMemoryByPlan(plan: string, limit: Option<nat>)
    ensures MaxMemoryAllowed(None, Some(plan)) in {8192, 32768, 131072}
    ensures MaxMemoryAllowed(None, Some(plan)) == MaxMemoryAllowed(None, Some(Lower(plan)))
    ensures limit.None? || limit == Some(0) ==> MaxMemoryAllowed(limit, Some(plan)) == MaxMemoryAllowed(None, Some(plan))
  {
    assert Lower(Lower(plan)) == Lower(plan);
  }

  // ------------------------------------------------------------- usage stats

  const Hour: nat := 60 * 60 * 1000
  const Day: nat := 24 * Hour

  /** The daily table (keyed by UTC day) or the hourly one (keyed by UTC hour). */
  datatype TableKind = Daily | Hourly

  /** The key a run's start time falls under. */
  function KeyOf(t: int, table: TableKind): int
  {
    if table.Daily? then t / Day else t / Hour
  }

  /** A run the table counts: one with a start time no earlier than the window start;
      the hourly table also needs it to be no more than 24 hours before now. */
  predicate Counted(r: Run, start: int, now: int, table: TableKind)
  {
    r.startedAt.Some? && r.startedAt.value >= start && (table.Hourly? ==> now - r.startedAt.value <= Day)
  }

  /** The three running sums of a table entry. */
  datatype Acc = Acc(computeUnits: real, memoryUsage: nat, actorRuns: nat)

  function Add(a: Acc, r: Run): Acc
  {
    Acc(a.computeUnits + r.computeUnits, a.memoryUsage + r.memoryMbytes, a.actorRuns + 1)
  }

  /** `stats.get(key) || zero`, then the run added. */
  function Record(m: map<int, Acc>, k: int, r: Run): map<int, Acc>
  {
    m[k := Add(if k in m then m[k] else Acc(0.0, 0, 0), r)]
  }

  /** The table after the `forEach` over `runs`. */
  function Table(runs: seq<Run>, start: int, now: int, table: TableKind): map<int, Acc>
  {
    if |runs| == 0 then map[]
    else
      var m := Table(runs[..|runs| - 1], start, now, table);
      var r := runs[|runs| - 1];
      if Counted(r, start, now, table) then Record(m, KeyOf(r.startedAt.value, table), r) else m
  }

  /** A field of a run, as the table sums it. */
  datatype Field = Compute | Memory | Runs

  function Weight(r: Run, f: Field): real
  {
    match f
    case Compute => r.computeUnits
    case Memory => r.memoryMbytes as real
    case Runs => 1.0
  }

  function Get(a: Acc, f: Field): real
  {
    match f
    case Compute => a.computeUnits
    case Memory => a.memoryUsage as real
    case Runs => a.actorRuns as real
  }

  /** The field summed over the counted runs with key `k`, and how many they are. */
  function SumKey(runs: seq<Run>, start: int, now: int, table: TableKind, k: int, f: Field): real
  {
    if |runs| == 0 then 0.0
    else
      var r := runs[|runs| - 1];
      SumKey(runs[..|runs| - 1], start, now, table, k, f)
      + (if Counted(r, start, now, table) && KeyOf(r.startedAt.value, table) == k then Weight(r, f) else 0.0)
  }

  function CountKey(runs: seq<Run>, start: int, now: int, table: TableKind, k: int): nat
  {
    if |runs| == 0 then 0
    else
      var r := runs[|runs| - 1];
      CountKey(runs[..|runs| - 1], start, now, table, k)
      + (if Counted(r, start, now, table) && KeyOf(r.startedAt.value, table) == k then 1 else 0)
  }

  /** A key is in the table exactly when some counted run falls under it, and its
      entry holds that key's sums. */
  lemma {:induction false} TableEntries(runs: seq<Run>, start: int, now: int, table: TableKind, k: int, f: Field)
    ensures k in Table(runs, start, now, table) <==> CountKey(runs, start, now, table, k) > 0
    ensures CountKey(runs, start, now, table, k) == 0 ==> SumKey(runs, start, now, table, k, f) == 0.0
    ensures k in Table(runs, start, now, table) ==>
              var a := Table(runs, start, now, table)[k];
              a.actorRuns == CountKey(runs, start, now, table, k)
              && Get(a, f) == SumKey(runs, start, now, table, k, f)
  {
    if |runs| > 0 {
      var init := runs[..|runs| - 1];
      TableEntries(init, start, now, table, k, f);
      var m := Table(init, start, now, table);
      GetAdd(if k in m then m[k] else Acc(0.0, 0, 0), runs[|runs| - 1], f);
    }
  }

  lemma GetAdd(a: Acc, r: Run, f: Field)
    ensures Get(Add(a, r), f) == Get(a, f) + Weight(r, f)
    ensures Get(Acc(0.0, 0, 0), f) == 0.0
  {
  }

  /** The field summed over all counted runs. */
  function SumCounted(runs: seq<Run>, start: int, now: int, table: TableKind, f: Field): real
  {
    if |runs| == 0 then 0.0
    else SumCounted(runs[..|runs| - 1], start, now, table, f)
         + (if Counted(runs[|runs| - 1], start, now, table) then Weight(runs[|runs| - 1], f) else 0.0)
  }

  /** The field summed over the counted runs whose key is in `ks`. */
  function SumIn(runs: seq<Run>, start: int, now: int, table: TableKind, ks: set<int>, f: Field): real
  {
    if |runs| == 0 then 0.0
    else
      var r := runs[|runs| - 1];
      SumIn(runs[..|runs| - 1], start, now, table, ks, f)
      + (if Counted(r, start, now, table) && KeyOf(r.startedAt.value, table) in ks then Weight(r, f) else 0.0)
  }

  lemma {:induction false} SumInSplit(runs: seq<Run>, start: int, now: int, table: TableKind, k: int, ks: set<int>, f: Field)
    requires k !in ks
    ensures SumIn(runs, start, now, table, {k} + ks, f) == SumKey(runs, start, now, table, k, f) + SumIn(runs, start, now, table, ks, f)
  {
    if |runs| > 0 {
      SumInSplit(runs[..|runs| - 1], start, now, table, k, ks, f);
    }
  }

  lemma {:induction false} SumInAll(runs: seq<Run>, start: int, now: int, table: TableKind, ks: set<int>, f: Field)
    requires forall k :: CountKey(runs, start, now, table, k) > 0 ==> k in ks
    ensures SumIn(runs, start, now, table, ks, f) == SumCounted(runs, start, now, table, f)
  {
    if |runs| > 0 {
      var init := runs[..|runs| - 1];
      forall k | CountKey(init, start, now, table, k) > 0
        ensures k in ks
      {
        assert CountKey(runs, start, now, table, k) > 0;
      }
      SumInAll(init, start, now, table, ks, f);
      var r := runs[|runs| - 1];
      if Counted(r, start, now, table) {
        assert CountKey(runs, start, now, table, KeyOf(r.startedAt.value, table)) > 0;
      }
    }
  }

  /** One row of the `daily` or `hourly` list. */
  datatype Bucket = Bucket(key: int, stats: Acc)

  lemma MinBelow(s: set<int>, x: int)
    requires x in s
    ensures exists m :: m in s && forall j :: j in s ==> m <= j
    decreases |s|
  {
    if y :| y in s && y < x {
      MinBelow(s - {x}, y);
      var m :| m in s - {x} && forall j :: j in s - {x} ==> m <= j;
      forall j | j in s
        ensures m <= j
      {
        if j != x {
          assert j in s - {x};
        }
      }
    } else {
      assert forall j :: j in s ==> x <= j;
    }
  }

  lemma MinExists(s: set<int>)
    requires s != {}
    ensures exists m :: m in s && forall j :: j in s ==> m <= j
  {
    if forall x :: x !in s {
      assert false;
    }
    var x :| x in s;
    MinBelow(s, x);
  }

  /** The least key of a non-empty set. */
  function Least(s: set<int>): (m: int)
    requires s != {}
    ensures m in s && forall j :: j in s ==> m <= j
  {
    MinExists(s);
    var m :| m in s && forall j :: j in s ==> m <= j;
    m
  }

  lemma ConsSorted(s: set<int>, m: int, rest: seq<int>)
    requires m in s && forall j :: j in s ==> m <= j
    requires |rest| == |s - {m}| && forall k :: k in rest <==> k in s - {m}
    requires forall i, j :: 0 <= i < j < |rest| ==> rest[i] < rest[j]
    ensures |[m] + rest| == |s|
    ensures forall k :: k in [m] + rest <==> k in s
    ensures forall i, j :: 0 <= i < j < |[m] + rest| ==> ([m] + rest)[i] < ([m] + rest)[j]
  {
    assert s == (s - {m}) + {m};
    forall i, j | 0 <= i < j < |[m] + rest|
      ensures ([m] + rest)[i] < ([m] + rest)[j]
    {
      if i == 0 {
        assert rest[j - 1] in rest;
        assert rest[j - 1] in s - {m};
      }
    }
  }

  /** The keys in ascending order (`.sort((a, b) => a.date.localeCompare(b.date))`). */
  function SortedKeys(s: set<int>): (r: seq<int>)
    ensures |r| == |s|
    ensures forall k :: k in r <==> k in s
    ensures forall i, j :: 0 <= i < j < |r| ==> r[i] < r[j]
    decreases |s|
  {
    if s == {} then []
    else
      var m := Least(s);
      var rest := SortedKeys(s - {m});
      ConsSorted(s, m, rest);
      [m] + rest
  }

  lemma SortedKeysFacts(s: set<int>)
    ensures var ks := SortedKeys(s);
      (set k | k in ks) == s && (forall i :: 0 <= i < |ks| ==> ks[i] in s)
      && (forall i, j :: 0 <= i < j < |ks| ==> ks[i] != ks[j])
  {
    var ks := SortedKeys(s);
    forall i | 0 <= i < |ks|
      ensures ks[i] in s
    {
      assert ks[i] in ks;
    }
  }

  function Listed(m: map<int, Acc>, ks: seq<int>): (r: seq<Bucket>)
    requires forall i :: 0 <= i < |ks| ==> ks[i] in m
    ensures |r| == |ks|
    ensures forall i :: 0 <= i < |r| ==> r[i] == Bucket(ks[i], m[ks[i]])
  {
    if |ks| == 0 then [] else [Bucket(ks[0], m[ks[0]])] + Listed(m, ks[1..])
  }

  /** The table as a list of buckets by ascending key. */
  function Buckets(m: map<int, Acc>): seq<Bucket>
  {
    Listed(m, SortedKeys(m.Keys))
  }

  /** The field summed over a list of buckets. */
  function SumBuckets(bs: seq<Bucket>, f: Field): real
  {
    if |bs| == 0 then 0.0 else Get(bs[0].stats, f) + SumBuckets(bs[1..], f)
  }

  lemma {:induction false} SumListed(runs: seq<Run>, start: int, now: int, table: TableKind, m: map<int, Acc>,
                                     ks: seq<int>, f: Field)
    requires forall i :: 0 <= i < |ks| ==> ks[i] in m && Get(m[ks[i]], f) == SumKey(runs, start, now, table, ks[i], f)
    requires forall i, j :: 0 <= i < j < |ks| ==> ks[i] != ks[j]
    ensures SumBuckets(Listed(m, ks), f) == SumIn(runs, start, now, table, (set k | k in ks), f)
  {
    if |ks| > 0 {
      SumListed(runs, start, now, table, m, ks[1..], f);
      var rest := set k | k in ks[1..];
      assert ks[0] !in rest;
      assert (set k | k in ks) == {ks[0]} + rest;
      SumInSplit(runs, start, now, table, ks[0], rest, f);
      assert Listed(m, ks)[1..] == Listed(m, ks[1..]);
    } else {
      assert (set k | k in ks) == {};
      EmptySumIn(runs, start, now, table, f);
    }
  }

  lemma {:induction false} EmptySumIn(runs: seq<Run>, start: int, now: int, table: TableKind, f: Field)
    ensures SumIn(runs, start, now, table, {}, f) == 0.0
  {
    if |runs| > 0 {
      EmptySumIn(runs[..|runs| - 1], start, now, table, f);
    }
  }

  /** Summed over the listed buckets, each field equals its sum over the counted
      runs: in particular the `actorRuns` add up to the number of runs counted. */
  lemma BucketsTotal(runs: seq<Run>, start: int, now: int, table: TableKind, f: Field)
    ensures SumBuckets(Buckets(Table(runs, start, now, table)), f) == SumCounted(runs, start, now, table, f)
  {
    EntriesHoldSums(runs, start, now, table, f);
    KeysCovered(runs, start, now, table, f);
    ListedTotal(runs, start, now, table, Table(runs, start, now, table), f);
  }

  lemma ListedTotal(runs: seq<Run>, start: int, now: int, table: TableKind, m: map<int, Acc>, f: Field)
    requires forall k :: k in m ==> Get(m[k], f) == SumKey(runs, start, now, table, k, f)
    requires forall k :: CountKey(runs, start, now, table, k) > 0 ==> k in m
    ensures SumBuckets(Buckets(m), f) == SumCounted(runs, start, now, table, f)
  {
    var ks := SortedKeys(m.Keys);
    SortedKeysFacts(m.Keys);
    SumListed(runs, start, now, table, m, ks, f);
    SumInAll(runs, start, now, table, m.Keys, f);
  }

  lemma EntriesHoldSums(runs: seq<Run>, start: int, now: int, table: TableKind, f: Field)
    ensures forall k :: k in Table(runs, start, now, table) ==>
              Get(Table(runs, start, now, table)[k], f) == SumKey(runs, start, now, table, k, f)
  {
    forall k | k in Table(runs, start, now, table)
      ensures Get(Table(runs, start, now, table)[k], f) == SumKey(runs, start, now, table, k, f)
    {
      TableEntries(runs, start, now, table, k, f);
    }
  }

  lemma KeysCovered(runs: seq<Run>, start: int, now: int, table: TableKind, f: Field)
    ensures forall k :: CountKey(runs, start, now, table, k) > 0 ==> k in Table(runs, start, now, table)
  {
    forall k | CountKey(runs, start, now, table, k) > 0
      ensures k in Table(runs, start, now, table)
    {
      TableEntries(runs, start, now, table, k, f);
    }
  }

  /** The listed buckets have strictly ascending keys, and each holds as many runs as
      the counted runs under its key, at least one. */
  lemma BucketsShape(runs: seq<Run>, start: int, now: int, table: TableKind)
    ensures var bs := Buckets(Table(runs, start, now, table));
      (forall i, j :: 0 <= i < j < |bs| ==> bs[i].key < bs[j].key)
      && (forall i :: 0 <= i < |bs| ==> bs[i].stats.actorRuns == CountKey(runs, start, now, table, bs[i].key) > 0)
  {
    var m := Table(runs, start, now, table);
    forall k | k in m
      ensures m[k].actorRuns == CountKey(runs, start, now, table, k) > 0
    {
      TableEntries(runs, start, now, table, k, Runs);
    }
    ListedShape(m, runs, start, now, table);
  }

  lemma ListedShape(m: map<int, Acc>, runs: seq<Run>, start: int, now: int, table: TableKind)
    requires forall k :: k in m ==> m[k].actorRuns == CountKey(runs, start, now, table, k) > 0
    ensures var bs := Buckets(m);
      (forall i, j :: 0 <= i < j < |bs| ==> bs[i].key < bs[j].key)
      && (forall i :: 0 <= i < |bs| ==> bs[i].stats.actorRuns == CountKey(runs, start, now, table, bs[i].key) > 0)
  {
    SortedKeysFacts(m.Keys);
  }

  /** The number of runs a table counts. */
  function CountCounted(runs: seq<Run>, start: int, now: int, table: TableKind): nat
  {
    if |runs| == 0 then 0
    else CountCounted(runs[..|runs| - 1], start, now, table) + (if Counted(runs[|runs| - 1], start, now, table) then 1 else 0)
  }

  lemma {:induction false} CountIsSum(runs: seq<Run>, start: int, now: int, table: TableKind)
    ensures CountCounted(runs, start, now, table) as real == SumCounted(runs, start, now, table, Runs)
  {
    if |runs| > 0 {
      CountIsSum(runs[..|runs| - 1], start, now, table);
    }
  }

  /** The daily `actorRuns` add up to the number of runs with a start time in the
      window. */
  lemma DailyRunsTotal(runs: seq<Run>, start: int, now: int)
    ensures SumBuckets(Buckets(Table(runs, start, now, Daily)), Runs) == CountCounted(runs, start, now, Daily) as real
  {
    BucketsTotal(runs, start, now, Daily, Runs);
    CountIsSum(runs, start, now, Daily);
  }

  datatype UsageStats = UsageStats(totalComputeUnits: real, daily: seq<Bucket>, hourly: seq<Bucket>)

  /** `getUsageStats(days)` over the runs `getRecentRuns` returned. */
  method GetUsageStats(runs: seq<Run>, now: int, days: int) returns (s: UsageStats)
    ensures var start := now - days * Day;
      s == UsageStats(SumCounted(runs, start, now, Daily, Compute),
                      Buckets(Table(runs, start, now, Daily)), Buckets(Table(runs, start, now, Hourly)))
  {
    var startDate := now - days * Day;
    var dailyStats: map<int, Acc> := map[];
    var hourlyStats: map<int, Acc> := map[];
    for i := 0 to |runs|
      invariant dailyStats == Table(runs[..i], startDate, now, Daily)
      invariant hourlyStats == Table(runs[..i], startDate, now, Hourly)
    {
      assert runs[..i + 1][..i] == runs[..i];
      var run := runs[i];
      if run.startedAt.None? {
        continue;
      }
      var runDate := run.startedAt.value;
      if runDate < startDate {
        continue;
      }
      dailyStats := Record(dailyStats, runDate / Day, run);
      if now - runDate <= Day {
        hourlyStats := Record(hourlyStats, runDate / Hour, run);
      }
    }
    assert runs[..|runs|] == runs;
    s := UsageStats(SumCounted(runs, startDate, now, Daily, Compute), Buckets(dailyStats), Buckets(hourlyStats));
  }
}
