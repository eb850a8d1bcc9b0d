/** The three retrying wrappers around the YouTube Data API (main.py:745-858).
    The API is an oracle: `oracle(i)` is what attempt `i` (0, 1 or 2) returns. Sleeping
    is recorded as the list of delays slept, and rebuilding the client as a count. */
module Retry {
  import opened Text

  datatype Outcome<T> =
    | Ok(items: seq<T>)         // the response's `items` (an absent key is [])
    | Err(message: string)      // any `Exception`, by its text
    | Interrupted               // `KeyboardInterrupt`

  const Delays: seq<nat> := [2, 4]

  /** Errors `_search_with_retry` gives up on at once (main.py:774-775). */
  predicate SearchFatal(message: string)
  {
    Contains(message, "badRequest") || Contains(message, "quotaExceeded")
    || Contains(message, "keyInvalid") || Contains(message, "invalid argument")
  }

  /** Errors `_videos_with_retry` gives up on at once (main.py:822). */
  predicate VideosFatal(message: string)
  {
    Contains(message, "quotaExceeded") || Contains(message, "keyInvalid")
  }

  predicate SearchRetryable<T>(o: Outcome<T>) { o.Err? && !SearchFatal(o.message) }

  /** An empty `items` list is retried as well as a non-fatal error. */
  predicate VideosRetryable<T>(o: Outcome<T>)
  {
    (o.Ok? && |o.items| == 0) || (o.Err? && !VideosFatal(o.message))
  }

  predicate IsErr<T>(o: Outcome<T>) { o.Err? }

  function ItemsOf<T>(o: Outcome<T>): seq<T> { if o.Ok? then o.items else [] }

  /** The delays slept after the first `k` attempts: one after each error. */
  function ErrorDelays<T>(oracle: nat -> Outcome<T>, k: nat): (r: seq<nat>)
    requires k <= 2
    ensures |r| <= k
    ensures forall i :: 0 <= i < k && oracle(i).Err? ==> Delays[i] in r
  {
    if k == 0 then []
    else ErrorDelays(oracle, k - 1) + (if oracle(k - 1).Err? then [Delays[k - 1]] else [])
  }

  /** The first attempt (0, 1 or 2) that ends a retry loop, or 3 when all three are
      retried. */
  function StopIndex<T>(oracle: nat -> Outcome<T>, retryable: Outcome<T> -> bool): (k: nat)
    ensures k <= 3
    ensures forall i :: 0 <= i < k ==> retryable(oracle(i))
    ensures k < 3 ==> !retryable(oracle(k))
  {
    if !retryable(oracle(0)) then 0
    else if !retryable(oracle(1)) then 1
    else if !retryable(oracle(2)) then 2
    else 3
  }

  /** What a retry loop returns: the items of the attempt that ended it, else []. */
  function RetryItems<T>(oracle: nat -> Outcome<T>, retryable: Outcome<T> -> bool): seq<T>
  {
    var k := StopIndex(oracle, retryable);
    if k < 3 then ItemsOf(oracle(k)) else []
  }

  /** `_search_with_retry`: at most three attempts; it stops at the first success, at an
      interrupt or at a fatal error, sleeps 2 s and then 4 s between attempts, and
      rebuilds the client before every attempt but the first. */
  method SearchWithRetry<T>(cancelled: bool, oracle: nat -> Outcome<T>)
    returns (items: seq<T>, calls: nat, sleeps: seq<nat>, rebuilds: nat)
    ensures cancelled ==> calls == 0 && items == [] && sleeps == []
    ensures !cancelled ==> 1 <= calls <= 3
    ensures rebuilds == if calls == 0 then 0 else calls - 1
    ensures calls > 0 ==> sleeps == Delays[..calls - 1]
    ensures forall i :: 0 <= i < calls - 1 ==> SearchRetryable(oracle(i))
    ensures 0 < calls < 3 ==> !SearchRetryable(oracle(calls - 1))
    ensures items == if calls == 0 then [] else ItemsOf(oracle(calls - 1))
    ensures items == if cancelled then [] else RetryItems(oracle, SearchRetryable)
  {
    items, calls, sleeps, rebuilds := [], 0, [], 0;
    if cancelled { return; }
    var attempt := 0;
    while attempt < 3
      invariant 0 <= attempt <= 3 && calls == attempt && items == []
      invariant rebuilds == if attempt == 0 then 0 else attempt - 1
      invariant sleeps == Delays[..if attempt <= 2 then attempt else 2]
      invariant forall i :: 0 <= i < attempt ==> SearchRetryable(oracle(i))
    {
      if attempt > 0 { rebuilds := rebuilds + 1; }
      var o := oracle(attempt);
      calls := calls + 1;
      match o {
        case Ok(xs) =>
          items := xs;
          return;
        case Interrupted =>
          return;
        case Err(message) =>
          if SearchFatal(message) { return; }
          if attempt < 2 { sleeps := sleeps + [Delays[attempt]]; }
      }
      attempt := attempt + 1;
    }
  }

  /** `_videos_with_retry`: like the search wrapper, but an empty id list makes no call,
      an empty response is retried without sleeping, and only quota and key errors are
      fatal. */
  method VideosWithRetry<T>(ids: seq<string>, cancelled: bool, oracle: nat -> Outcome<T>)
    returns (items: seq<T>, calls: nat, sleeps: seq<nat>, rebuilds: nat)
    ensures |ids| == 0 || cancelled ==> calls == 0 && items == [] && sleeps == []
    ensures |ids| > 0 && !cancelled ==> 1 <= calls <= 3
    ensures rebuilds == if calls == 0 then 0 else calls - 1
    ensures calls > 0 ==> sleeps == ErrorDelays(oracle, calls - 1)
    ensures forall i :: 0 <= i < calls - 1 ==> VideosRetryable(oracle(i))
    ensures 0 < calls < 3 ==> !VideosRetryable(oracle(calls - 1))
    ensures items == if calls == 0 then [] else ItemsOf(oracle(calls - 1))
    ensures items == if |ids| == 0 || cancelled then [] else RetryItems(oracle, VideosRetryable)
  {
    items, calls, sleeps, rebuilds := [], 0, [], 0;
    if |ids| == 0 || cancelled { return; }
    var attempt := 0;
    while attempt < 3
      invariant 0 <= attempt <= 3 && calls == attempt && items == []
      invariant rebuilds == if attempt == 0 then 0 else attempt - 1
      invariant sleeps == ErrorDelays(oracle, if attempt <= 2 then attempt else 2)
      invariant forall i :: 0 <= i < attempt ==> VideosRetryable(oracle(i))
    {
      if attempt > 0 { rebuilds := rebuilds + 1; }
      var o := oracle(attempt);
      calls := calls + 1;
      match o {
        case Ok(xs) =>
          if |xs| > 0 {
            items := xs;
            return;
          }
        case Interrupted =>
          return;
        case Err(message) =>
          if VideosFatal(message) { return; }
          if attempt < 2 { sleeps := sleeps + [Delays[attempt]]; }
      }
      attempt := attempt + 1;
    }
  }

  /** `_channels_with_retry`: every error is retried, the client is never rebuilt, and
      an interrupt is not caught (`interrupted` reports that it propagates). */
  method ChannelsWithRetry<T>(cancelled: bool, oracle: nat -> Outcome<T>)
    returns (items: seq<T>, calls: nat, sleeps: seq<nat>, interrupted: bool)
    ensures cancelled ==> calls == 0 && items == [] && sleeps == [] && !interrupted
    ensures !cancelled ==> 1 <= calls <= 3
    ensures calls > 0 ==> sleeps == Delays[..calls - 1]
    ensures forall i :: 0 <= i < calls - 1 ==> oracle(i).Err?
    ensures 0 < calls < 3 ==> !oracle(calls - 1).Err?
    ensures interrupted <==> calls > 0 && oracle(calls - 1).Interrupted?
    ensures items == if calls == 0 then [] else ItemsOf(oracle(calls - 1))
    ensures items == if cancelled then [] else RetryItems(oracle, IsErr)
  {
    items, calls, sleeps, interrupted := [], 0, [], false;
    if cancelled { return; }
    var attempt := 0;
    while attempt < 3
      invariant 0 <= attempt <= 3 && calls == attempt && items == [] && !interrupted
      invariant sleeps == Delays[..if attempt <= 2 then attempt else 2]
      invariant forall i :: 0 <= i < attempt ==> oracle(i).Err?
    {
      var o := oracle(attempt);
      calls := calls + 1;
      match o {
        case Ok(xs) =>
          items := xs;
          return;
        case Interrupted =>
          interrupted := true;
          return;
        case Err(_) =>
          if attempt < 2 { sleeps := sleeps + [Delays[attempt]]; }
      }
      attempt := attempt + 1;
    }
  }
}
