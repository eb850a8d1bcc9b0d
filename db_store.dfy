/** The tables the database-backed queue reads and writes (lib/db-queue-manager.ts):
    `search_queue` rows as a map from id to record, the `credits` balances and the
    `search_history` rows. Ids are handed out from a counter, timestamps are integers
    and every write succeeds. */
module DbStore {
  import opened Wrappers
  import MemoryQueue

  type Priority = MemoryQueue.Priority

  datatype Status = Pending | Processing | Completed | Failed

  /** The fields of a task input the queue looks at; absent lists are empty and an
      absent `start_urls` is "". */
  datatype TaskInput = TaskInput(
    hashtags: seq<string>,
    profiles: seq<string>,
    usernames: seq<string>,
    startUrls: string,
    directUrls: seq<string>)

  /** One scraped item. A missing string is "" and a missing count is 0, the values
      the source treats as falsy. */
  datatype Item = Item(
    webVideoUrl: string,
    url: string,
    username: string,
    ownerUsername: string,
    likes: int,
    comments: int,
    caption: string,
    duration: int,
    followers: int,
    following: int,
    profilePicUrl: string)

  /** `result_data`: the fetched items, or the record of a failed fetch. */
  datatype ResultData = Items(items: seq<Item>) | FetchError(detail: string)

  datatype Row = Row(
    userId: string,
    taskId: string,
    input: TaskInput,
    status: Status,
    priority: Priority,
    retryCount: nat,
    maxRetries: nat,
    sessionId: Option<string>,
    sessionStep: Option<int>,
    createdAt: int,
    errorType: string,
    errorMessage: string,
    runId: Option<string>,
    result: Option<ResultData>,
    originalLimit: Option<nat>)   // `original_payload.limit`

  datatype HistoryRow = HistoryRow(
    userId: string,
    platform: string,
    searchType: string,
    keyword: string,
    resultsCount: nat,
    creditsUsed: nat)

  datatype Db = Db(
    queue: map<nat, Row>,
    nextId: nat,
    balances: map<string, nat>,
    history: seq<HistoryRow>)

  /** Every stored id was handed out before `nextId`. */
  predicate Valid(db: Db)
  {
    forall k :: k in db.queue ==> k < db.nextId
  }

  /** `session_id` is truthy. */
  predicate HasSession(r: Row)
  {
    r.sessionId.Some? && r.sessionId.value != ""
  }

  /** The row `addToQueue` inserts: pending, no retries yet. */
  function NewRow(userId: string, taskId: string, input: TaskInput, priority: Priority,
                  maxRetries: nat, sessionId: Option<string>, sessionStep: Option<int>,
                  originalLimit: Option<nat>, now: int): (r: Row)
    ensures r.status == Pending && r.retryCount == 0 && r.result.None?
  {
    Row(userId, taskId, input, Pending, priority, 0, maxRetries, sessionId, sessionStep, now,
        "", "", None, None, originalLimit)
  }

  /** `addToQueue`: the row under a fresh id. */
  function Insert(db: Db, row: Row): (r: (Db, nat))
    ensures r.1 == db.nextId && r.0.nextId == db.nextId + 1
    ensures r.0.queue == db.queue[db.nextId := row]
    ensures r.0.balances == db.balances && r.0.history == db.history
  {
    (db.(queue := db.queue[db.nextId := row], nextId := db.nextId + 1), db.nextId)
  }

  /** The rows inserted one after another. */
  function AddRows(db: Db, rows: seq<Row>): (r: Db)
    ensures r.nextId == db.nextId + |rows|
    ensures r.balances == db.balances && r.history == db.history
  {
    if |rows| == 0 then db else Insert(AddRows(db, rows[..|rows| - 1]), rows[|rows| - 1]).0
  }

  /** Inserting never disturbs a stored row, and the new rows sit at fresh ids. */
  lemma {:induction false} AddRowsKeeps(db: Db, rows: seq<Row>)
    requires Valid(db)
    ensures Valid(AddRows(db, rows))
    ensures forall k :: k in db.queue ==> k in AddRows(db, rows).queue && AddRows(db, rows).queue[k] == db.queue[k]
    ensures forall k :: db.nextId <= k < db.nextId + |rows| ==>
              k in AddRows(db, rows).queue && AddRows(db, rows).queue[k] == rows[k - db.nextId]
    ensures forall k :: k in AddRows(db, rows).queue ==> k in db.queue || db.nextId <= k < db.nextId + |rows|
  {
    if |rows| > 0 {
      var front := rows[..|rows| - 1];
      AddRowsKeeps(db, front);
      var mid := AddRows(db, front);
      assert AddRows(db, rows) == Insert(mid, rows[|rows| - 1]).0;
      forall k | db.nextId <= k < db.nextId + |rows|
        ensures k in AddRows(db, rows).queue && AddRows(db, rows).queue[k] == rows[k - db.nextId]
      {
        if k < mid.nextId {
          assert front[k - db.nextId] == rows[k - db.nextId];
        }
      }
    }
  }

  /** A `.update(...).eq('id', id)`: applied to the stored row, a no-op when no row
      has that id. */
  function Modify(db: Db, id: nat, f: Row -> Row): (r: Db)
    ensures r.nextId == db.nextId && r.balances == db.balances && r.history == db.history
    ensures forall k :: k in r.queue <==> k in db.queue
    ensures forall k :: k in db.queue && k != id ==> r.queue[k] == db.queue[k]
    ensures id in db.queue ==> r.queue[id] == f(db.queue[id])
  {
    if id in db.queue then db.(queue := db.queue[id := f(db.queue[id])]) else db
  }
}
