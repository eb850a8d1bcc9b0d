/** Session continuation of the database-backed queue (lib/db-queue-manager.ts:891-1108).
    A finished step-1 Instagram hashtag run of a session fans out into step-2 detail
    batches and step-3 profile batches; once every row of a session is completed the
    three stages are merged into one result. */
module DbSession {
  import opened Wrappers
  import opened Text
  import opened Seqs
  import opened DbStore
  import MemoryQueue

  const DetailTask: string := "bold_argument/instagram-scraper-task"
  const ProfileTask: string := "bold_argument/instagram-profile-scraper-task"
  const BatchSize: nat := 30

  /** `item.webVideoUrl || item.url`. */
  function UrlOf(i: Item): string
  {
    if i.webVideoUrl != "" then i.webVideoUrl else i.url
  }

  /** `item.username || item.ownerUsername`. */
  function NameOf(i: Item): string
  {
    if i.username != "" then i.username else i.ownerUsername
  }

  /** The truthy urls of the results, in order. */
  function Urls(results: seq<Item>): (r: seq<string>)
    ensures forall j :: 0 <= j < |r| ==> r[j] != ""
    ensures |r| <= |results|
  {
    if |results| == 0 then []
    else
      var last := UrlOf(results[|results| - 1]);
      Urls(results[..|results| - 1]) + (if last != "" then [last] else [])
  }

  /** The truthy user names of the results, in order. */
  function Names(results: seq<Item>): (r: seq<string>)
    ensures forall j :: 0 <= j < |r| ==> r[j] != ""
    ensures |r| <= |results|
  {
    if |results| == 0 then []
    else
      var last := NameOf(results[|results| - 1]);
      Names(results[..|results| - 1]) + (if last != "" then [last] else [])
  }

  /** Only a step-1 Instagram hashtag task that belongs to a session fans out. */
  predicate FansOut(item: Row)
  {
    HasSession(item) && Contains(item.taskId, "instagram-hashtag-scraper-task")
    && item.sessionStep == Some(1)
  }

  function DetailRow(item: Row, batch: seq<string>, now: int): Row
  {
    NewRow(item.userId, DetailTask, TaskInput([], [], [], "", batch), MemoryQueue.High, 3,
           item.sessionId, Some(2), item.originalLimit, now)
  }

  function ProfileRow(item: Row, batch: seq<string>, now: int): Row
  {
    NewRow(item.userId, ProfileTask, TaskInput([], [], batch, "", []), MemoryQueue.Normal, 3,
           item.sessionId, Some(3), item.originalLimit, now)
  }

  function DetailRows(item: Row, batches: seq<seq<string>>, now: int): (r: seq<Row>)
    ensures |r| == |batches|
  {
    seq(|batches|, i requires 0 <= i < |batches| => DetailRow(item, batches[i], now))
  }

  function ProfileRows(item: Row, batches: seq<seq<string>>, now: int): (r: seq<Row>)
    ensures |r| == |batches|
  {
    seq(|batches|, i requires 0 <= i < |batches| => ProfileRow(item, batches[i], now))
  }

  /** The rows `handleSessionContinuation` adds, in insertion order. With no url
      among the results nothing is added, not even the profile batches. */
  function ContinuationRows(item: Row, results: seq<Item>, now: int): seq<Row>
  {
    if !FansOut(item) then []
    else
      var urls := Take(Urls(results), 30);
      if |urls| == 0 then []
      else
        var names := Take(Names(results), 60);
        DetailRows(item, Batches(urls, BatchSize), now)
        + (if |names| > 0 then ProfileRows(item, Batches(names, BatchSize), now) else [])
  }

  /** At most 30 urls make at most one detail batch, and at most 60 names at most two
      profile batches. */
  lemma {:induction false} BatchCounts(s: seq<string>, bound: nat)
    requires |s| <= bound && (bound == 30 || bound == 60)
    ensures |Batches(s, BatchSize)| <= bound / 30
  {
    var b := Batches(s, BatchSize);
    if |s| > 0 {
      assert (|b| - 1) * 30 < bound;
    }
  }

  /** Nothing is added unless `FansOut` holds and some result has a url; every row
      added is pending with no retries, 3 allowed, in the same session for the same
      user. */
  lemma {:induction false} ContinuationFields(item: Row, results: seq<Item>, now: int)
    ensures !FansOut(item) || |Urls(results)| == 0 ==> ContinuationRows(item, results, now) == []
    ensures forall r :: r in ContinuationRows(item, results, now) ==>
              r.status == Pending && r.retryCount == 0 && r.maxRetries == 3
              && r.userId == item.userId && r.sessionId == item.sessionId
  {
  }

  /** When it fans out: one high-priority step-2 row whose urls are the first 30
      truthy urls, then up to two normal-priority step-3 rows of at most 30 names
      that together hold the first 60 truthy names. */
  lemma {:induction false} ContinuationLayout(item: Row, results: seq<Item>, now: int)
    requires FansOut(item) && |Urls(results)| > 0
    ensures var rows := ContinuationRows(item, results, now);
        var urls := Take(Urls(results), 30);
        var names := Take(Names(results), 60);
        var profiles := Batches(names, BatchSize);
        |rows| == 1 + |profiles|
        && rows[0] == DetailRow(item, urls, now)
        && |profiles| <= 2
        && Flatten(profiles) == names
        && (forall i :: 1 <= i < |rows| ==>
              (rows[i] == ProfileRow(item, profiles[i - 1], now) && 0 < |profiles[i - 1]| <= 30))
  {
    var rows := ContinuationRows(item, results, now);
    var urls := Take(Urls(results), 30);
    var names := Take(Names(results), 60);
    BatchCounts(urls, 30);
    BatchCounts(names, 60);
    assert Batches(urls, BatchSize) == [urls];
    var profiles := Batches(names, BatchSize);
    var tail := if |names| > 0 then ProfileRows(item, profiles, now) else [];
    assert |names| == 0 ==> |profiles| == 0;
    assert rows == [DetailRow(item, urls, now)] + tail;
    forall i | 1 <= i < |rows|
      ensures rows[i] == ProfileRow(item, profiles[i - 1], now) && 0 < |profiles[i - 1]| <= 30
    {
      assert rows[i] == tail[i - 1];
    }
  }


  /** One turn of the slicing loop: the batch that starts at `i`, then the rest. */
  lemma {:induction false} BatchesStep(s: seq<string>, i: nat)
    requires i < |s|
    ensures var end := if i + BatchSize < |s| then i + BatchSize else |s|;
            Batches(s[i..], BatchSize) == [s[i..end]] + Batches(s[end..], BatchSize)
  {
    var rest := s[i..];
    if |rest| > BatchSize {
      assert rest[BatchSize..] == s[i + BatchSize..];
      assert rest[..BatchSize] == s[i..i + BatchSize];
    } else {
      assert s[|s|..] == [];
      assert Batches(s[|s|..], BatchSize) == [];
      assert rest == s[i..|s|];
      assert Batches(rest, BatchSize) == [rest];
    }
  }

  /** The `for (i = 0; i < s.length; i += 30)` loop that slices a list into batches. */
  method SliceBatches(s: seq<string>) returns (batches: seq<seq<string>>)
    ensures batches == Batches(s, BatchSize)
  {
    batches := [];
    var i := 0;
    while i < |s|
      invariant 0 <= i <= |s|
      invariant Batches(s, BatchSize) == batches + Batches(s[i..], BatchSize)
      decreases |s| - i
    {
      BatchesStep(s, i);
      var end := if i + BatchSize < |s| then i + BatchSize else |s|;
      batches := batches + [s[i..end]];
      i := end;
    }
    assert s[i..] == [];
  }

  /** `handleSessionContinuation`: slice the urls and the names into batches and
      queue one row per batch. */
  method HandleSessionContinuation(db: Db, item: Row, results: seq<Item>, now: int) returns (db': Db)
    ensures db' == AddRows(db, ContinuationRows(item, results, now))
  {
    db' := db;
    if !FansOut(item) {
      return;
    }
    var urls := Take(Urls(results), 30);
    if |urls| == 0 {
      return;
    }
    var batches := SliceBatches(urls);
    var i := 0;
    while i < |batches|
      invariant 0 <= i <= |batches|
      invariant db' == AddRows(db, DetailRows(item, batches[..i], now))
    {
      assert DetailRows(item, batches[..i + 1], now) == DetailRows(item, batches[..i], now) + [DetailRow(item, batches[i], now)];
      db' := Insert(db', DetailRow(item, batches[i], now)).0;
      i := i + 1;
    }
    assert batches[..i] == batches;
    var details := DetailRows(item, batches, now);
    var names := Take(Names(results), 60);
    if |names| == 0 {
      assert details + [] == details;
      return;
    }
    var profiles := SliceBatches(names);
    var j := 0;
    while j < |profiles|
      invariant 0 <= j <= |profiles|
      invariant db' == AddRows(db, details + ProfileRows(item, profiles[..j], now))
    {
      assert ProfileRows(item, profiles[..j + 1], now) == ProfileRows(item, profiles[..j], now) + [ProfileRow(item, profiles[j], now)];
      assert details + ProfileRows(item, profiles[..j + 1], now)
          == (details + ProfileRows(item, profiles[..j], now)) + [ProfileRow(item, profiles[j], now)];
      db' := Insert(db', ProfileRow(item, profiles[j], now)).0;
      j := j + 1;
    }
    assert profiles[..j] == profiles;
  }

  /** A stage-1 item after the merge: detail counts and texts override the item's own
      when truthy; profile figures are copied when a profile was found. */
  function Merge(h: Item, detail: Option<Item>, profile: Option<Item>): (r: Item)
    ensures UrlOf(r) == UrlOf(h) && NameOf(r) == NameOf(h)
  {
    var d := if detail.Some? then
      var x := detail.value;
      h.(likes := if x.likes != 0 then x.likes else h.likes,
         comments := if x.comments != 0 then x.comments else h.comments,
         caption := if x.caption != "" then x.caption else h.caption,
         duration := if x.duration != 0 then x.duration else h.duration)
      else h;
    if profile.Some? then
      d.(followers := profile.value.followers, following := profile.value.following,
         profilePicUrl := profile.value.profilePicUrl)
    else d
  }

  /** The first detail whose `url` or `webVideoUrl` equals `u`. */
  function FindDetail(details: seq<Item>, u: string): (r: Option<Item>)
    ensures r.Some? ==> r.value in details && (r.value.url == u || r.value.webVideoUrl == u)
    ensures r.None? ==> forall i :: 0 <= i < |details| ==> details[i].url != u && details[i].webVideoUrl != u
  {
    if |details| == 0 then None
    else if details[0].url == u || details[0].webVideoUrl == u then Some(details[0])
    else FindDetail(details[1..], u)
  }

  /** The first profile whose `username` equals `name`. */
  function FindProfile(profiles: seq<Item>, name: string): (r: Option<Item>)
    ensures r.Some? ==> r.value in profiles && r.value.username == name
    ensures r.None? ==> forall i :: 0 <= i < |profiles| ==> profiles[i].username != name
  {
    if |profiles| == 0 then None
    else if profiles[0].username == name then Some(profiles[0])
    else FindProfile(profiles[1..], name)
  }

  /** `result_data?.items || []`. */
  function ItemsOf(r: Row): seq<Item>
  {
    if r.result.Some? && r.result.value.Items? then r.result.value.items else []
  }

  /** The concatenated items of the rows of one step, in row order. */
  function StageItems(rows: seq<(nat, Row)>, step: int): seq<Item>
  {
    if |rows| == 0 then []
    else StageItems(rows[..|rows| - 1], step)
         + (if rows[|rows| - 1].1.sessionStep == Some(step) then ItemsOf(rows[|rows| - 1].1) else [])
  }

  /** The first row of step 1. */
  function FirstStage(rows: seq<(nat, Row)>): (r: Option<(nat, Row)>)
    ensures r.Some? ==> r.value in rows && r.value.1.sessionStep == Some(1)
  {
    if |rows| == 0 then None
    else if rows[0].1.sessionStep == Some(1) then Some(rows[0])
    else FirstStage(rows[1..])
  }

  datatype SessionResult = SessionResult(
    stage1Id: Option<nat>,
    runId: Option<string>,
    items: seq<Item>,
    totalStages: nat)

  predicate AllCompleted(rows: seq<(nat, Row)>)
  {
    forall i :: 0 <= i < |rows| ==> rows[i].1.status == Completed
  }

  /** `getCompleteSessionResult` over the session's rows as the query returns them. */
  function CompleteSessionResult(rows: seq<(nat, Row)>): Option<SessionResult>
  {
    if !AllCompleted(rows) then None
    else
      var stage1 := FirstStage(rows);
      var hashtags := if stage1.Some? then ItemsOf(stage1.value.1) else [];
      var details := StageItems(rows, 2);
      var profiles := StageItems(rows, 3);
      Some(SessionResult(
        if stage1.Some? then Some(stage1.value.0) else None,
        if stage1.Some? then stage1.value.1.runId else None,
        seq(|hashtags|, i requires 0 <= i < |hashtags| =>
          Merge(hashtags[i], FindDetail(details, UrlOf(hashtags[i])), FindProfile(profiles, NameOf(hashtags[i])))),
        |rows|))
  }

  /** The merged result exists exactly when every row of the session is completed; it
      has one item per stage-1 item, in order, each keeping its url and user name and
      taking over the figures of the detail and profile found for it. */
  lemma {:induction false} CompleteSessionResultShape(rows: seq<(nat, Row)>)
    ensures CompleteSessionResult(rows).Some? <==> AllCompleted(rows)
    ensures CompleteSessionResult(rows).Some? ==>
      var r := CompleteSessionResult(rows).value;
      var stage1 := FirstStage(rows);
      var hashtags := if stage1.Some? then ItemsOf(stage1.value.1) else [];
      r.totalStages == |rows| && |r.items| == |hashtags|
      && (forall i :: 0 <= i < |hashtags| ==>
            UrlOf(r.items[i]) == UrlOf(hashtags[i]) && NameOf(r.items[i]) == NameOf(hashtags[i]))
  {
    if AllCompleted(rows) {
      var r := CompleteSessionResult(rows).value;
      var stage1 := FirstStage(rows);
      var hashtags := if stage1.Some? then ItemsOf(stage1.value.1) else [];
      var details := StageItems(rows, 2);
      var profiles := StageItems(rows, 3);
      forall i | 0 <= i < |hashtags|
        ensures UrlOf(r.items[i]) == UrlOf(hashtags[i]) && NameOf(r.items[i]) == NameOf(hashtags[i])
      {
        assert r.items[i] == Merge(hashtags[i], FindDetail(details, UrlOf(hashtags[i])), FindProfile(profiles, NameOf(hashtags[i])));
      }
    }
  }
}
