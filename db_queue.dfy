/** The database-backed retry queue (lib/db-queue-manager.ts): the status machine of a
    `search_queue` row, the batch selection of `processQueue`, the status a client
    polls, the try-first entry points and the polling path that processes one row.
    Apify is an oracle per row (`ItemRun`); the two SELECTs of `processQueue` and the
    session query are given as their results. */
module DbQueue {
  import opened Wrappers
  import opened ApifyErrors
  import opened DbStore
  import opened DbSession
  import opened DbCredits
  import opened Seqs
  import MemoryQueue

  /** What the outside world does while one row is processed: the run start, the
      fetch of its items, and whether the history insert succeeds. */
  datatype ItemRun = ItemRun(start: RunOutcome, fetch: Result<seq<Item>, string>, historyOk: bool)

  /** `error?.type || 'unknown'` and `error?.message || 'Unknown error'`. */
  function ErrorType(e: RunError): string { if e.kind == "" then "unknown" else e.kind }
  function ErrorMessage(e: RunError): string { if e.message == "" then "Unknown error" else e.message }

  function Claim(r: Row): Row { r.(status := Processing) }
  function Requeue(r: Row): Row { r.(status := Pending) }

  /** `processQueueItem(item)` for the row stored under `id`; `item` is the row as it
      was read. The result says whether the call threw. */
  function ProcessItem(db: Db, id: nat, item: Row, run: ItemRun, now: int): (Db, bool)
  {
    var db1 := Modify(db, id, Claim);
    match run.start
    case Threw(e) =>
      if IsResourceLimitError(e) then (Modify(db1, id, Requeue), false)
      else
        var retries := item.retryCount + 1;
        if retries >= item.maxRetries then
          (Modify(db1, id, (r: Row) => r.(status := Failed, retryCount := retries,
                                   errorType := ErrorType(e), errorMessage := ErrorMessage(e))), true)
        else (Modify(db1, id, (r: Row) => r.(status := Pending, retryCount := retries)), true)
    case Started(runId) =>
      match run.fetch
      case Failure(detail) =>
        (Modify(db1, id, (r: Row) => r.(status := Completed, runId := Some(runId), result := Some(FetchError(detail)))), false)
      case Success(items) =>
        var db2 := Modify(db1, id, (r: Row) => r.(status := Completed, runId := Some(runId), result := Some(Items(items))));
        var db3 := AddRows(db2, ContinuationRows(item, items, now));
        (SaveHistory(db3, item, items, run.historyOk), false)
  }

  /** Processing one row keeps the store valid: other rows stay as they were and no
      balance grows. */
  lemma ProcessItemOutcome(db: Db, id: nat, item: Row, run: ItemRun, now: int)
    requires Valid(db) && id in db.queue
    ensures var (r, threw) := ProcessItem(db, id, item, run, now);
      Valid(r) && id in r.queue
      && (forall k :: k in db.queue && k != id ==> k in r.queue && r.queue[k] == db.queue[k])
      && (forall u :: u in db.balances ==> u in r.balances && r.balances[u] <= db.balances[u])
  {
    var db1 := Modify(db, id, Claim);
    if run.start.Started? && run.fetch.Success? {
      var items := run.fetch.value;
      var db2 := Modify(db1, id, (r: Row) => r.(status := Completed, runId := Some(run.start.runId), result := Some(Items(items))));
      AddRowsKeeps(db2, ContinuationRows(item, items, now));
      var db3 := AddRows(db2, ContinuationRows(item, items, now));
      SaveHistoryEffect(db3, item, items, run.historyOk);
    }
  }

  /** The transitions of one processed row: a shortage puts it back to pending with
      its stored retry count; any other error counts one retry more than the row read
      and fails it exactly when that reaches its maximum, then rethrows; a started run
      always ends completed, even when fetching its items fails. */
  lemma ProcessItemStatus(db: Db, id: nat, item: Row, run: ItemRun, now: int)
    requires Valid(db) && id in db.queue
    ensures id in ProcessItem(db, id, item, run, now).0.queue
    ensures var (r, threw) := ProcessItem(db, id, item, run, now);
      run.start.Threw? && IsResourceLimitError(run.start.error) ==>
        !threw && r.queue[id].status == Pending && r.queue[id].retryCount == db.queue[id].retryCount
    ensures var (r, threw) := ProcessItem(db, id, item, run, now);
      run.start.Threw? && !IsResourceLimitError(run.start.error) ==>
        threw && r.queue[id].retryCount == item.retryCount + 1
        && (r.queue[id].status == Failed <==> item.retryCount + 1 >= item.maxRetries)
        && (r.queue[id].status == Pending <==> item.retryCount + 1 < item.maxRetries)
    ensures var (r, threw) := ProcessItem(db, id, item, run, now);
      run.start.Started? ==>
        !threw && r.queue[id].status == Completed && r.queue[id].runId == Some(run.start.runId)
  {
    if run.start.Started? && run.fetch.Success? {
      var items := run.fetch.value;
      var db2 := Modify(Modify(db, id, Claim), id,
                        (r: Row) => r.(status := Completed, runId := Some(run.start.runId), result := Some(Items(items))));
      AddRowsKeeps(db2, ContinuationRows(item, items, now));
      SaveHistoryEffect(AddRows(db2, ContinuationRows(item, items, now)), item, items, run.historyOk);
    }
  }

  /** `processQueueItem`, step by step, with the session continuation done by its
      loops. */
  method ProcessQueueItem(db: Db, id: nat, item: Row, run: ItemRun, now: int) returns (db': Db, threw: bool)
    ensures (db', threw) == ProcessItem(db, id, item, run, now)
    ensures threw ==> run.start.Threw?
  {
    db' := Modify(db, id, Claim);
    match run.start {
      case Threw(e) =>
        if IsResourceLimitError(e) {
          db' := Modify(db', id, Requeue);
          return db', false;
        }
        var retries := item.retryCount + 1;
        if retries >= item.maxRetries {
          db' := Modify(db', id, (r: Row) => r.(status := Failed, retryCount := retries,
                                         errorType := ErrorType(e), errorMessage := ErrorMessage(e)));
        } else {
          db' := Modify(db', id, (r: Row) => r.(status := Pending, retryCount := retries));
        }
        threw := true;
      case Started(runId) =>
        match run.fetch {
          case Failure(detail) =>
            db' := Modify(db', id, (r: Row) => r.(status := Completed, runId := Some(runId), result := Some(FetchError(detail))));
          case Success(items) =>
            db' := Modify(db', id, (r: Row) => r.(status := Completed, runId := Some(runId), result := Some(Items(items))));
            db' := HandleSessionContinuation(db', item, items, now);
            db' := SaveHistory(db', item, items, run.historyOk);
        }
        threw := false;
    }
  }

  /** An error `processQueue` reports. */
  datatype QueueError = QueryFailed(message: string) | ItemFailed(id: nat, message: string)

  /** The rows one `processQueue` call works on: up to 20 continuation rows first,
      then regular rows up to `30 - sessionCount`. A failed query ends the call. */
  function Picked(sessionQuery: Result<seq<(nat, Row)>, string>, regularQuery: Result<seq<(nat, Row)>, string>)
    : (r: Result<seq<(nat, Row)>, string>)
    ensures sessionQuery.Failure? ==> r == Failure(sessionQuery.error)
    ensures r.Success? ==>
      sessionQuery.Success?
      && regularQuery.Success?
      && var session := Take(sessionQuery.value, 20);
      r.value == session + Take(regularQuery.value, 30 - |session|)
      && |session| <= 20 && |r.value| <= 30
  {
    match sessionQuery
    case Failure(m) => Failure(m)
    case Success(s) =>
      var session := Take(s, 20);
      var regularLimit := 30 - |session|;
      if regularLimit > 0 then
        match regularQuery
        case Failure(m) => Failure(m)
        case Success(q) => Success(session + Take(q, regularLimit))
      else Success(session)
  }

  /** The rows processed one after another; `runs(i)` is what happens to the i-th. */
  function RunAll(db: Db, items: seq<(nat, Row)>, runs: nat -> ItemRun, now: int): (Db, nat, seq<QueueError>)
  {
    if |items| == 0 then (db, 0, [])
    else Absorb(RunAll(db, items[..|items| - 1], runs, now), items[|items| - 1], runs(|items| - 1), now)
  }

  /** One more row processed after the others. */
  function Absorb(acc: (Db, nat, seq<QueueError>), last: (nat, Row), run: ItemRun, now: int): (Db, nat, seq<QueueError>)
  {
    var (d2, threw) := ProcessItem(acc.0, last.0, last.1, run, now);
    if threw then (d2, acc.1, acc.2 + [ItemFailed(last.0, run.start.error.message)])
    else (d2, acc.1 + 1, acc.2)
  }

  lemma AbsorbStep(acc: (Db, nat, seq<QueueError>), last: (nat, Row), run: ItemRun, now: int, d2: Db, threw: bool)
    requires (d2, threw) == ProcessItem(acc.0, last.0, last.1, run, now)
    ensures threw ==> run.start.Threw?
    ensures Absorb(acc, last, run, now) ==
              if threw then (d2, acc.1, acc.2 + [ItemFailed(last.0, run.start.error.message)])
              else (d2, acc.1 + 1, acc.2)
  {
  }

  lemma RunAllStep(db: Db, items: seq<(nat, Row)>, i: nat, runs: nat -> ItemRun, now: int)
    requires i < |items|
    ensures RunAll(db, items[..i + 1], runs, now) == Absorb(RunAll(db, items[..i], runs, now), items[i], runs(i), now)
  {
    assert items[..i + 1][..i] == items[..i];
  }

  /** Every picked row is counted once, as processed or as an error. */
  lemma {:induction false} RunAllCounts(db: Db, items: seq<(nat, Row)>, runs: nat -> ItemRun, now: int)
    ensures var (_, processed, errors) := RunAll(db, items, runs, now);
            processed + |errors| == |items|
  {
    if |items| > 0 {
      RunAllCounts(db, items[..|items| - 1], runs, now);
    }
  }

  /** `processQueue`. */
  function QueueRun(db: Db, sessionQuery: Result<seq<(nat, Row)>, string>,
                    regularQuery: Result<seq<(nat, Row)>, string>, runs: nat -> ItemRun, now: int)
    : (Db, nat, seq<QueueError>)
  {
    match Picked(sessionQuery, regularQuery)
    case Failure(m) => (db, 0, [QueryFailed(m)])
    case Success(items) => RunAll(db, items, runs, now)
  }

  /** One call handles at most 30 rows and accounts for each of them. */
  lemma QueueRunBound(db: Db, sessionQuery: Result<seq<(nat, Row)>, string>,
                      regularQuery: Result<seq<(nat, Row)>, string>, runs: nat -> ItemRun, now: int)
    ensures var (_, processed, errors) := QueueRun(db, sessionQuery, regularQuery, runs, now);
            processed + |errors| <= 30
            && (Picked(sessionQuery, regularQuery).Success? ==>
                  processed + |errors| == |Picked(sessionQuery, regularQuery).value|)
  {
    if Picked(sessionQuery, regularQuery).Success? {
      RunAllCounts(db, Picked(sessionQuery, regularQuery).value, runs, now);
    }
  }

  /** `processQueue`: the picked rows, or the query error. */
  method ProcessQueue(db: Db, sessionQuery: Result<seq<(nat, Row)>, string>,
                      regularQuery: Result<seq<(nat, Row)>, string>, runs: nat -> ItemRun, now: int)
    returns (db': Db, processed: nat, errors: seq<QueueError>)
    ensures (db', processed, errors) == QueueRun(db, sessionQuery, regularQuery, runs, now)
  {
    var picked := Picked(sessionQuery, regularQuery);
    if picked.Failure? {
      return db, 0, [QueryFailed(picked.error)];
    }
    db', processed, errors := ProcessPicked(db, picked.value, runs, now);
  }

  /** The `for` loop of `processQueue` over the picked rows. */
  method ProcessPicked(db: Db, items: seq<(nat, Row)>, runs: nat -> ItemRun, now: int)
    returns (db': Db, processed: nat, errors: seq<QueueError>)
    ensures (db', processed, errors) == RunAll(db, items, runs, now)
  {
    db', processed, errors := db, 0, [];
    var i := 0;
    while i < |items|
      invariant 0 <= i <= |items|
      invariant (db', processed, errors) == RunAll(db, items[..i], runs, now)
    {
      RunAllStep(db, items, i, runs, now);
      ghost var acc := (db', processed, errors);
      var threw;
      db', threw := ProcessQueueItem(db', items[i].0, items[i].1, runs(i), now);
      AbsorbStep(acc, items[i], runs(i), now, db', threw);
      if threw {
        errors := errors + [ItemFailed(items[i].0, runs(i).start.error.message)];
      } else {
        processed := processed + 1;
      }
      i := i + 1;
    }
    assert items[..i] == items;
  }


  /** `calculateWaitTime(position)`, in minutes. */
  function WaitTime(position: int): int
  {
    if position <= 1 then 1
    else if position <= 3 then 3
    else if position <= 5 then 5
    else position * 2
  }

  /** A later position never waits less. */
  lemma WaitTimeMonotone(a: int, b: int)
    requires a <= b
    ensures WaitTime(a) <= WaitTime(b)
  {
  }

  function PendingIds(db: Db): set<nat>
  {
    set k: nat | k in db.queue && db.queue[k].status == Pending
  }

  function PendingBefore(db: Db, createdAt: int): set<nat>
  {
    set k: nat | k in db.queue && db.queue[k].status == Pending && db.queue[k].createdAt < createdAt
  }

  /** `(count || 0) + 1` over the pending rows created strictly earlier. */
  function Position(db: Db, createdAt: int): nat
  {
    |PendingBefore(db, createdAt)| + 1
  }

  /** A pending row's position lies between 1 and the number of pending rows. */
  lemma PositionBounds(db: Db, id: nat)
    requires id in db.queue && db.queue[id].status == Pending
    ensures 1 <= Position(db, db.queue[id].createdAt) <= |PendingIds(db)|
  {
    var before := PendingBefore(db, db.queue[id].createdAt);
    var others := PendingIds(db) - {id};
    assert before <= others;
    assert others == before + (others - before);
    assert id in PendingIds(db);
    assert |others| == |PendingIds(db)| - 1;
  }

  /** Of two pending rows, the one created earlier has the smaller position. */
  lemma PositionOrder(db: Db, a: nat, b: nat)
    requires a in db.queue && b in db.queue
    requires db.queue[a].status == Pending && db.queue[b].status == Pending
    requires db.queue[a].createdAt < db.queue[b].createdAt
    ensures Position(db, db.queue[a].createdAt) < Position(db, db.queue[b].createdAt)
  {
    var A := PendingBefore(db, db.queue[a].createdAt);
    var B := PendingBefore(db, db.queue[b].createdAt);
    assert A <= B;
    assert a in B - A;
    assert B == A + (B - A);
  }

  /** What `getQueueStatus` reports. */
  datatype StatusView =
    | PendingView(position: nat, retryCount: nat, estimatedWaitTime: int)
    | SessionView(session: SessionResult)
    | SessionRunning(sessionId: Option<string>, sessionStep: Option<int>)
    | CompletedView(result: ResultData, runId: Option<string>)
    | FailedView(errorType: string, errorMessage: string, retryCount: nat)
    | OtherView(status: Status)

  /** `getQueueStatus(queueId, userId)`; `sessionRows` is what the session query of
      `getCompleteSessionResult` returns. */
  function QueueStatus(db: Db, queueId: nat, userId: string, sessionRows: seq<(nat, Row)>): Option<StatusView>
  {
    if queueId !in db.queue || db.queue[queueId].userId != userId then None
    else
      var row := db.queue[queueId];
      if row.status == Pending then
        var p := Position(db, row.createdAt);
        Some(PendingView(p, row.retryCount, WaitTime(p)))
      else if row.status == Completed && row.result.Some? then
        if HasSession(row) && row.sessionStep == Some(1) then
          match CompleteSessionResult(sessionRows)
          case Some(s) => Some(SessionView(s))
          case None => Some(SessionRunning(row.sessionId, row.sessionStep))
        else Some(CompletedView(row.result.value, row.runId))
      else if row.status == Failed then
        Some(FailedView(row.errorType, row.errorMessage, row.retryCount))
      else Some(OtherView(row.status))
  }

  /** Another user's row and a missing row look the same; a pending row reports its
      position and the wait for it; a completed step-1 session row reports the merged
      session only once every row of the session is completed. */
  lemma QueueStatusCases(db: Db, queueId: nat, userId: string, sessionRows: seq<(nat, Row)>)
    ensures QueueStatus(db, queueId, userId, sessionRows).None? <==>
              queueId !in db.queue || db.queue[queueId].userId != userId
    ensures queueId in db.queue && db.queue[queueId].userId == userId && db.queue[queueId].status == Pending ==>
              var p := Position(db, db.queue[queueId].createdAt);
              QueueStatus(db, queueId, userId, sessionRows) == Some(PendingView(p, db.queue[queueId].retryCount, WaitTime(p)))
              && p >= 1
    ensures QueueStatus(db, queueId, userId, sessionRows).Some? && QueueStatus(db, queueId, userId, sessionRows).value.SessionView? ==>
              AllCompleted(sessionRows)
  {
    CompleteSessionResultShape(sessionRows);
  }

  /** The result of `executeWithTryFirst` / `executeWithSessionContinuity`. */
  datatype ExecResult = Ran(runId: string) | Queued(queueId: nat) | Raised(error: RunError)

  /** Run at once; on a shortage insert a pending row (`maxRetries || 3`,
      `priority || defaultPriority`); rethrow any other error. */
  function Execute(db: Db, userId: string, taskId: string, input: TaskInput,
                   priority: Option<MemoryQueue.Priority>, maxRetries: nat,
                   sessionId: Option<string>, sessionStep: Option<int>, originalLimit: Option<nat>,
                   defaultPriority: MemoryQueue.Priority, start: RunOutcome, now: int): (Db, ExecResult)
  {
    match start
    case Started(runId) => (db, Ran(runId))
    case Threw(e) =>
      if IsResourceLimitError(e) then
        var row := NewRow(userId, taskId, input, if priority.Some? then priority.value else defaultPriority,
                          if maxRetries == 0 then 3 else maxRetries, sessionId, sessionStep, originalLimit, now);
        var (db', id) := Insert(db, row);
        (db', Queued(id))
      else (db, Raised(e))
  }

  /** `executeWithTryFirst` defaults to normal priority, `executeWithSessionContinuity`
      to high. */
  function TryFirst(db: Db, userId: string, taskId: string, input: TaskInput,
                    priority: Option<MemoryQueue.Priority>, maxRetries: nat,
                    sessionId: Option<string>, sessionStep: Option<int>, originalLimit: Option<nat>,
                    start: RunOutcome, now: int): (Db, ExecResult)
  {
    Execute(db, userId, taskId, input, priority, maxRetries, sessionId, sessionStep, originalLimit, MemoryQueue.Normal, start, now)
  }

  function SessionContinuity(db: Db, userId: string, taskId: string, input: TaskInput,
                             priority: Option<MemoryQueue.Priority>, maxRetries: nat,
                             sessionId: Option<string>, sessionStep: Option<int>, originalLimit: Option<nat>,
                             start: RunOutcome, now: int): (Db, ExecResult)
  {
    Execute(db, userId, taskId, input, priority, maxRetries, sessionId, sessionStep, originalLimit, MemoryQueue.High, start, now)
  }

  /** Exactly a shortage adds one row: pending, no retries, a positive retry budget,
      under a fresh id; otherwise nothing is stored. */
  lemma ExecuteEffect(db: Db, userId: string, taskId: string, input: TaskInput,
                      priority: Option<MemoryQueue.Priority>, maxRetries: nat,
                      sessionId: Option<string>, sessionStep: Option<int>, originalLimit: Option<nat>,
                      defaultPriority: MemoryQueue.Priority, start: RunOutcome, now: int)
    requires Valid(db)
    ensures var (r, res) := Execute(db, userId, taskId, input, priority, maxRetries, sessionId, sessionStep,
                                     originalLimit, defaultPriority, start, now);
      Valid(r) && (res.Queued? <==> start.Threw? && IsResourceLimitError(start.error))
      && (res.Queued? ==>
            res.queueId == db.nextId && res.queueId !in db.queue
            && r.queue == db.queue[res.queueId := r.queue[res.queueId]]
            && r.queue[res.queueId].status == Pending && r.queue[res.queueId].retryCount == 0
            && r.queue[res.queueId].maxRetries > 0)
      && (!res.Queued? ==> r == db)
  {
  }

  /** `processSpecificQueueItem` as written: claim a pending row of the caller and
      process it; when processing throws, the row is put back to pending. */
  function ProcessSpecific(db: Db, queueId: nat, userId: string, claimOk: bool, run: ItemRun, now: int): (Db, bool)
  {
    if queueId !in db.queue || db.queue[queueId].userId != userId
       || db.queue[queueId].status != Pending || !claimOk then (db, false)
    else
      var item := db.queue[queueId];
      var (db2, threw) := ProcessItem(Modify(db, queueId, Claim), queueId, item, run, now);
      if threw then (Modify(db2, queueId, Requeue), false) else (db2, true)
  }

  /** The rollback undoes the `failed` status `processQueueItem` has just written: a
      row whose retries are exhausted is pending again, so polling retries it forever. */
  lemma SpecificIgnoresRetryLimit(db: Db, queueId: nat, userId: string, run: ItemRun, now: int)
    requires Valid(db) && queueId in db.queue
    requires db.queue[queueId].userId == userId && db.queue[queueId].status == Pending
    requires run.start.Threw? && !IsResourceLimitError(run.start.error)
    requires db.queue[queueId].retryCount + 1 >= db.queue[queueId].maxRetries
    ensures var (r, ok) := ProcessSpecific(db, queueId, userId, true, run, now);
            !ok && r.queue[queueId].status == Pending
            && r.queue[queueId].retryCount >= r.queue[queueId].maxRetries
  {
    var item := db.queue[queueId];
    ProcessItemStatus(Modify(db, queueId, Claim), queueId, item, run, now);
  }

  /** `processSpecificQueueItem` with the rollback confined to a row still marked
      processing, which leaves the outcome `processQueueItem` wrote. */
  function ProcessSpecificCorrected(db: Db, queueId: nat, userId: string, claimOk: bool, run: ItemRun, now: int): (Db, bool)
  {
    if queueId !in db.queue || db.queue[queueId].userId != userId
       || db.queue[queueId].status != Pending || !claimOk then (db, false)
    else
      var item := db.queue[queueId];
      var (db2, threw) := ProcessItem(Modify(db, queueId, Claim), queueId, item, run, now);
      if threw then (Modify(db2, queueId, (r: Row) => if r.status == Processing then Requeue(r) else r), false)
      else (db2, true)
  }

  /** With the corrected rollback the polling path obeys the retry limit like the
      cron path: the row fails exactly when its retries run out. */
  lemma SpecificCorrectedRespectsLimit(db: Db, queueId: nat, userId: string, run: ItemRun, now: int)
    requires Valid(db) && queueId in db.queue
    requires db.queue[queueId].userId == userId && db.queue[queueId].status == Pending
    requires run.start.Threw? && !IsResourceLimitError(run.start.error)
    ensures var (r, ok) := ProcessSpecificCorrected(db, queueId, userId, true, run, now);
            var item := db.queue[queueId];
            !ok && r.queue[queueId].retryCount == item.retryCount + 1
            && (r.queue[queueId].status == Failed <==> item.retryCount + 1 >= item.maxRetries)
  {
    var item := db.queue[queueId];
    ProcessItemStatus(Modify(db, queueId, Claim), queueId, item, run, now);
  }
}
