/** The in-memory retry queue of Apify task runs (lib/memory-queue-manager.ts).
    `MemoryQueueManager` keeps a `queue` array that is spliced and shifted and a set of
    active search sessions. Starting a run is an oracle (`ApifyErrors.RunOutcome`);
    ids, timestamps, callbacks and the ten-second timer are left out. */
module MemoryQueue {
  import opened Wrappers
  import opened ApifyErrors

  datatype Priority = High | Normal | Low

  /** `priorities` of `insertByPriority`: high 3, normal 2, low 1. */
  function Rank(p: Priority): nat
  {
    match p
    case High => 3
    case Normal => 2
    case Low => 1
  }

  /** A queued request. An absent or empty session id is falsy in the source, and so is
      a session step of 0. */
  datatype Request = Request(
    id: string,
    taskId: string,
    retryCount: nat,
    maxRetries: nat,
    priority: Priority,
    sessionId: Option<string>,
    sessionStep: Option<int>)

  const MaxQueueSize: nat := 50

  /** `request.sessionId && activeSessions.has(request.sessionId)`. */
  predicate IsActive(r: Request, active: set<string>)
  {
    r.sessionId.Some? && r.sessionId.value != "" && r.sessionId.value in active
  }

  /** `request.sessionStep || 999`. */
  function Step(r: Request): int
  {
    if r.sessionStep.Some? && r.sessionStep.value != 0 then r.sessionStep.value else 999
  }

  /** Whether `insertByPriority` stops in front of `cur` when inserting `req`. */
  predicate GoesBefore(req: Request, cur: Request, active: set<string>)
  {
    var a := IsActive(req, active);
    var c := IsActive(cur, active);
    if a && c then Step(req) < Step(cur)
    else if a then true
    else if !c then Rank(cur.priority) < Rank(req.priority)
    else false
  }

  /** The first position at or after `i` in front of which `req` goes, or `|q|`. */
  function InsertIndexFrom(q: seq<Request>, req: Request, active: set<string>, i: nat): (k: nat)
    requires i <= |q|
    ensures i <= k <= |q|
    ensures forall j :: i <= j < k ==> !GoesBefore(req, q[j], active)
    ensures k < |q| ==> GoesBefore(req, q[k], active)
    decreases |q| - i
  {
    if i == |q| then i
    else if GoesBefore(req, q[i], active) then i
    else InsertIndexFrom(q, req, active, i + 1)
  }

  function InsertIndex(q: seq<Request>, req: Request, active: set<string>): nat
  {
    InsertIndexFrom(q, req, active, 0)
  }

  /** The queue after `insertByPriority` splices `req` in. */
  function Inserted(q: seq<Request>, req: Request, active: set<string>): seq<Request>
  {
    var k := InsertIndex(q, req, active);
    q[..k] + [req] + q[k..]
  }

  /** Splicing only adds: removing the new item gives back the old queue, so existing
      items keep their relative order. */
  lemma InsertedKeepsOrder(q: seq<Request>, req: Request, active: set<string>)
    ensures var k := InsertIndex(q, req, active);
            var r := Inserted(q, req, active);
            |r| == |q| + 1 && r[k] == req && r[..k] + r[k + 1..] == q
  {
    var k := InsertIndex(q, req, active);
    var r := Inserted(q, req, active);
    assert r[..k] == q[..k];
    assert r[k + 1..] == q[k..];
  }

  /** Non-increasing priority. */
  predicate SortedByRank(q: seq<Request>)
  {
    forall i, j :: 0 <= i < j < |q| ==> Rank(q[i].priority) >= Rank(q[j].priority)
  }

  predicate NoneActive(q: seq<Request>, active: set<string>)
  {
    forall i :: 0 <= i < |q| ==> !IsActive(q[i], active)
  }

  /** Where each item of the spliced queue comes from. */
  lemma InsertedAt(q: seq<Request>, req: Request, active: set<string>, j: nat)
    requires j <= |q|
    ensures var k := InsertIndex(q, req, active);
            Inserted(q, req, active)[j] == (if j < k then q[j] else if j == k then req else q[j - 1])
  {
  }

  /** Outside active sessions, the queue stays sorted by priority and a new item lands
      after every item of equal or higher priority and before every lower one. */
  lemma InsertedSorted(q: seq<Request>, req: Request, active: set<string>)
    requires NoneActive(q, active) && !IsActive(req, active)
    requires SortedByRank(q)
    ensures var k := InsertIndex(q, req, active);
            var r := Inserted(q, req, active);
            (forall j :: 0 <= j < k ==> Rank(r[j].priority) >= Rank(req.priority))
            && (forall j :: k < j < |r| ==> Rank(r[j].priority) < Rank(req.priority))
    ensures SortedByRank(Inserted(q, req, active))
  {
    var k := InsertIndex(q, req, active);
    var r := Inserted(q, req, active);
    forall j | 0 <= j < |r|
      ensures j < k ==> Rank(r[j].priority) >= Rank(req.priority)
      ensures j > k ==> Rank(r[j].priority) < Rank(req.priority)
    {
      InsertedAt(q, req, active, j);
      if j < k {
        assert !GoesBefore(req, q[j], active);
      } else if j > k {
        assert GoesBefore(req, q[k], active);
        assert Rank(q[k].priority) >= Rank(q[j - 1].priority);
      }
    }
    forall i, j | 0 <= i < j < |r|
      ensures Rank(r[i].priority) >= Rank(r[j].priority)
    {
      InsertedAt(q, req, active, i);
      InsertedAt(q, req, active, j);
    }
  }

  /** An item of an active session goes in front of the first item that is outside an
      active session or belongs to one with a larger step, and behind every other. */
  lemma ActiveInsertion(q: seq<Request>, req: Request, active: set<string>)
    requires IsActive(req, active)
    ensures var k := InsertIndex(q, req, active);
            (forall j :: 0 <= j < k ==> IsActive(q[j], active) && Step(q[j]) <= Step(req))
            && (k < |q| ==> !IsActive(q[k], active) || Step(req) < Step(q[k]))
  {
  }

  /** `calculateWaitTime(usagePercentage)`, in seconds. */
  function WaitTime(usagePercentage: int): (r: nat)
    ensures usagePercentage > 95 ==> r == 300
    ensures 90 < usagePercentage <= 95 ==> r == 180
    ensures 85 < usagePercentage <= 90 ==> r == 120
    ensures usagePercentage <= 85 ==> r == 60
  {
    if usagePercentage > 95 then 300
    else if usagePercentage > 90 then 180
    else if usagePercentage > 85 then 120
    else 60
  }

  /** A higher usage never means a shorter wait. */
  lemma WaitTimeMonotone(a: int, b: int)
    requires a <= b
    ensures WaitTime(a) <= WaitTime(b)
  {
  }

  /** The index of the first request with this id. */
  function FindIndex(q: seq<Request>, id: string): (r: Option<nat>)
    ensures r.None? <==> forall i :: 0 <= i < |q| ==> q[i].id != id
    ensures r.Some? ==> r.value < |q| && q[r.value].id == id
                        && forall i :: 0 <= i < r.value ==> q[i].id != id
  {
    if |q| == 0 then None
    else if q[0].id == id then Some(0)
    else match FindIndex(q[1..], id)
      case None => None
      case Some(i) => Some(i + 1)
  }

  datatype QueueStatus = QueueStatus(position: nat, totalQueue: nat, estimatedWaitTime: nat, retryCount: nat)

  /** A failure that is not a shortage: the head's retry count goes up, and the head
      leaves once that count reaches its maximum. */
  function Retried(q: seq<Request>): seq<Request>
    requires |q| > 0
  {
    var head := q[0].(retryCount := q[0].retryCount + 1);
    if head.retryCount >= head.maxRetries then q[1..] else [head] + q[1..]
  }

  /** What `processQueue` does to the queue for one outcome of the head's run. */
  function AfterRun(q: seq<Request>, outcome: RunOutcome): seq<Request>
  {
    if |q| == 0 then q
    else match outcome
      case Started(_) => q[1..]
      case Threw(e) => if IsResourceLimitError(e) then q else Retried(q)
  }

  /** Only the head is touched: the rest of the queue survives every outcome, a
      shortage changes nothing, and the head leaves exactly on success or on its last
      allowed failure. */
  lemma AfterRunTouchesHeadOnly(q: seq<Request>, outcome: RunOutcome)
    requires |q| > 0
    ensures var r := AfterRun(q, outcome);
            |r| <= |q| && r[|r| - |q[1..]|..] == q[1..]
    ensures outcome.Threw? && IsResourceLimitError(outcome.error) ==> AfterRun(q, outcome) == q
    ensures AfterRun(q, outcome) == q[1..] <==>
              (outcome.Started? ||
               (!IsResourceLimitError(outcome.error) && q[0].retryCount + 1 >= q[0].maxRetries))
  {
    var r := AfterRun(q, outcome);
    if outcome.Threw? && !IsResourceLimitError(outcome.error) && q[0].retryCount + 1 < q[0].maxRetries {
      assert r[0].retryCount != q[0].retryCount;
      assert |r| != |q[1..]|;
    }
  }

  /** `processQueue` run `n` times on the same failing outcome. */
  function Failing(q: seq<Request>, e: RunError, n: nat): seq<Request>
  {
    if n == 0 then q else AfterRun(Failing(q, e, n - 1), Threw(e))
  }

  /** The number of non-shortage failures that evict the head: one at least, and
      otherwise what is left of its retry budget. */
  function Budget(r: Request): nat
  {
    if r.retryCount < r.maxRetries then r.maxRetries - r.retryCount else 1
  }

  lemma {:induction false} FailingCounts(q: seq<Request>, e: RunError, n: nat)
    requires |q| > 0 && !IsResourceLimitError(e)
    requires n < Budget(q[0])
    ensures Failing(q, e, n) == [q[0].(retryCount := q[0].retryCount + n)] + q[1..]
  {
    if n > 0 {
      FailingCounts(q, e, n - 1);
      var p := Failing(q, e, n - 1);
      assert p[1..] == q[1..];
      assert Failing(q, e, n) == Retried(p);
    }
  }

  /** The failure that uses up the head's last retry removes it. */
  lemma {:induction false} LastFailure(p: seq<Request>, e: RunError)
    requires |p| > 0 && !IsResourceLimitError(e)
    requires p[0].retryCount + 1 >= p[0].maxRetries
    ensures AfterRun(p, Threw(e)) == p[1..]
  {
  }

  /** Any other error is retried in place until the head's retry budget runs out, and
      the next such failure removes it, leaving the rest of the queue as it was. */
  lemma {:induction false} FailuresEvictHead(q: seq<Request>, e: RunError)
    requires |q| > 0 && !IsResourceLimitError(e)
    ensures Failing(q, e, Budget(q[0])) == q[1..]
  {
    var n: nat := Budget(q[0]) - 1;
    FailingCounts(q, e, n);
    var p := Failing(q, e, n);
    LastFailure(p, e);
    assert p[1..] == q[1..];
    assert Failing(q, e, n + 1) == AfterRun(p, Threw(e));
  }

  /** The result of `executeWithTryFirst` / `executeWithSessionContinuity`. */
  datatype ExecResult =
    | Ran(runId: string)          // the run started at once
    | Queued(queueId: string)     // a shortage put the request in the queue
    | QueueFull                   // `queueRequest` threw
    | Raised(error: RunError)     // any other error is rethrown

  class Manager {
    var queue: seq<Request>
    var activeSessions: set<string>

    constructor()
      ensures queue == [] && activeSessions == {}
    {
      queue := [];
      activeSessions := {};
    }

    /** `getQueueStatus(requestId)`: the 1-based position, the size, the wait time
        for the default usage and the retry count; None when the id is absent. */
    function Status(requestId: string): (r: Option<QueueStatus>)
      reads this
      ensures r.None? <==> forall i :: 0 <= i < |queue| ==> queue[i].id != requestId
      ensures r.Some? ==>
        1 <= r.value.position <= |queue| && queue[r.value.position - 1].id == requestId
        && (forall i :: 0 <= i < r.value.position - 1 ==> queue[i].id != requestId)
        && r.value.totalQueue == |queue|
        && r.value.estimatedWaitTime == 120
        && r.value.retryCount == queue[r.value.position - 1].retryCount
    {
      match FindIndex(queue, requestId)
      case None => None
      case Some(i) => Some(QueueStatus(i + 1, |queue|, WaitTime(90), queue[i].retryCount))
    }

    /** `insertByPriority`: the loop finds the insertion point, then one splice. */
    method InsertByPriority(req: Request)
      modifies this
      ensures queue == Inserted(old(queue), req, activeSessions)
      ensures activeSessions == old(activeSessions)
    {
      var i := 0;
      while i < |queue|
        invariant 0 <= i <= |queue|
        invariant InsertIndexFrom(queue, req, activeSessions, i) == InsertIndex(queue, req, activeSessions)
      {
        if GoesBefore(req, queue[i], activeSessions) {
          break;
        }
        i := i + 1;
      }
      queue := queue[..i] + [req] + queue[i..];
    }

    /** `queueRequest`: refused when 50 items wait; otherwise the new request, with
        retry count 0, is spliced in by priority and its id returned. */
    method QueueRequest(id: string, taskId: string, maxRetries: nat, priority: Priority,
                        sessionId: Option<string>, sessionStep: Option<int>)
      returns (r: Result<string, ()>)
      modifies this
      ensures old(|queue|) >= MaxQueueSize ==> r.Failure? && queue == old(queue)
      ensures old(|queue|) < MaxQueueSize ==>
        r == Success(id)
        && queue == Inserted(old(queue), Request(id, taskId, 0, maxRetries, priority, sessionId, sessionStep), activeSessions)
      ensures activeSessions == old(activeSessions)
    {
      if |queue| >= MaxQueueSize {
        return Failure(());
      }
      InsertByPriority(Request(id, taskId, 0, maxRetries, priority, sessionId, sessionStep));
      r := Success(id);
    }

    /** `processQueue`: one attempt at the head of the queue. */
    method ProcessQueue(outcome: RunOutcome)
      modifies this
      ensures queue == AfterRun(old(queue), outcome)
      ensures activeSessions == old(activeSessions)
    {
      if |queue| == 0 {
        return;
      }
      var request := queue[0];
      match outcome {
        case Started(_) =>
          queue := queue[1..];
        case Threw(e) =>
          if IsResourceLimitError(e) {
            return;
          }
          request := request.(retryCount := request.retryCount + 1);
          if request.retryCount >= request.maxRetries {
            queue := queue[1..];
          } else {
            queue := [request] + queue[1..];
          }
      }
    }

    /** `executeWithTryFirst` (no session) and `executeWithSessionContinuity`: run at
        once; on a shortage queue the request with priority `normal` and 3 retries by
        default; rethrow any other error. */
    method Execute(id: string, taskId: string, priority: Option<Priority>, maxRetries: nat,
                   sessionId: Option<string>, sessionStep: Option<int>, outcome: RunOutcome)
      returns (r: ExecResult)
      modifies this
      ensures outcome.Started? ==> r == Ran(outcome.runId) && queue == old(queue)
      ensures outcome.Threw? && !IsResourceLimitError(outcome.error) ==>
        r == Raised(outcome.error) && queue == old(queue)
      ensures outcome.Threw? && IsResourceLimitError(outcome.error) ==>
        var req := Request(id, taskId, 0, if maxRetries == 0 then 3 else maxRetries,
                           if priority.Some? then priority.value else Normal, sessionId, sessionStep);
        if old(|queue|) >= MaxQueueSize then r == QueueFull && queue == old(queue)
        else r == Queued(id) && queue == Inserted(old(queue), req, activeSessions)
      ensures activeSessions == old(activeSessions)
    {
      match outcome {
        case Started(runId) =>
          return Ran(runId);
        case Threw(e) =>
          if !IsResourceLimitError(e) {
            return Raised(e);
          }
          var queued := QueueRequest(id, taskId, if maxRetries == 0 then 3 else maxRetries,
                                     if priority.Some? then priority.value else Normal,
                                     sessionId, sessionStep);
          r := if queued.Success? then Queued(queued.value) else QueueFull;
      }
    }

    /** `startSearchSession`. */
    method StartSearchSession(sessionId: string)
      modifies this
      ensures activeSessions == old(activeSessions) + {sessionId}
      ensures queue == old(queue)
    {
      activeSessions := activeSessions + {sessionId};
    }

    /** `completeSearchSession`. */
    method CompleteSearchSession(sessionId: string)
      modifies this
      ensures activeSessions == old(activeSessions) - {sessionId}
      ensures queue == old(queue)
    {
      activeSessions := activeSessions - {sessionId};
    }
  }
}
