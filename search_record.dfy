/** The search-record route (app/api/me/search-record/route.ts). `POST` charges the
    expected credits up front and records the search; `PUT` updates the record when
    the search ends and gives back the difference between the credits charged and
    the credits actually used, or the amount the client names. Each write's success
    is a parameter; the generated record id and the dates are parameters too. */
module SearchRecord {
  import opened Wrappers
  import SearchRoute

  /** A `search_history` row. */
  datatype Record = Record(userId: string, platform: string, searchType: string, keyword: string,
                           creditsUsed: nat, requestedCount: Option<nat>, status: string,
                           resultsCount: nat, refundAmount: Option<nat>, errorMessage: Option<string>)

  /** The tables the route touches: the credit balances, the search history and the
      search counters, each keyed by user id (history by record id). */
  datatype Store = Store(balances: map<string, nat>, history: map<string, Record>,
                         counters: map<string, SearchRoute.Counters>)

  datatype Reply = Ok(id: string, refund: nat) | Status(code: nat)

  predicate IsStatus(s: string)
  {
    s in {"pending", "completed", "failed", "cancelled"}
  }

  // ------------------------------------------------------------------- POST

  datatype CreateBody = CreateBody(platform: string, searchType: string, keyword: string,
                                   expectedCredits: int, requestedCount: Option<int>, status: string)

  /** `createRecordSchema`. */
  predicate ValidCreate(b: CreateBody)
  {
    b.platform in {"youtube", "instagram", "tiktok"} && b.searchType in {"keyword", "profile", "url"}
    && |b.keyword| >= 1 && b.expectedCredits >= 0
    && (b.requestedCount.Some? ==> b.requestedCount.value >= 0) && IsStatus(b.status)
  }

  /** The write outcomes `POST` depends on. */
  datatype CreateWrites = CreateWrites(deductOk: bool, insertOk: bool, countersOk: bool)

  /** `POST`. `newId` is the id the insert returns; `firstOfMonth` and `today` are
      the dates of the counters. */
  function Create(store: Store, user: Option<string>, body: CreateBody, newId: string, writes: CreateWrites,
                  firstOfMonth: string, today: string): (Store, Reply)
  {
    if user.None? then (store, Status(401))
    else if !ValidCreate(body) then (store, Status(400))
    else
      var u := user.value;
      var expected: nat := body.expectedCredits;
      if expected > 0 && u !in store.balances then (store, Status(500))
      else if expected > 0 && store.balances[u] < expected then (store, Status(402))
      else if expected > 0 && !writes.deductOk then (store, Status(500))
      // a failed insert rolls the deduction back, which restores the balance read
      else if !writes.insertOk then (store, Status(500))
      else
        var balances := if expected > 0 then store.balances[u := store.balances[u] - expected] else store.balances;
        var requested := if body.requestedCount.Some? then Some(body.requestedCount.value as nat) else None;
        var rec := Record(u, body.platform, body.searchType, body.keyword, expected, requested, body.status, 0, None, None);
        var counters := if writes.countersOk
                        then store.counters[u := SearchRoute.BumpCounters(if u in store.counters then Some(store.counters[u]) else None, firstOfMonth, today)]
                        else store.counters;
        (Store(balances, store.history[newId := rec], counters), Ok(newId, 0))
  }

  /** Every refusal leaves all tables as they were, including a failed insert after
      the credits were taken; a recorded search costs exactly the expected credits,
      taken only from a balance that covers them, and is recorded under the new id
      with those credits as used and no results yet. */
  lemma CreateEffect(store: Store, user: Option<string>, body: CreateBody, newId: string, writes: CreateWrites,
                     firstOfMonth: string, today: string)
    ensures var (s, r) := Create(store, user, body, newId, writes, firstOfMonth, today);
      (r.Status? ==> s == store && r.code in {400, 401, 402, 500})
      && (r.Status? && r.code == 402 <==>
            user.Some? && ValidCreate(body) && body.expectedCredits > 0
            && user.value in store.balances && store.balances[user.value] < body.expectedCredits)
      && (r.Ok? ==>
            var u := user.value;
            ValidCreate(body) && r == Ok(newId, 0)
            && s.balances.Keys == store.balances.Keys
            && (forall v :: v in store.balances && v != u ==> s.balances[v] == store.balances[v])
            && (u in store.balances ==> s.balances[u] + body.expectedCredits == store.balances[u])
            && (u !in store.balances ==> body.expectedCredits == 0)
            && newId in s.history && s.history[newId].userId == u
            && s.history[newId].creditsUsed == body.expectedCredits && s.history[newId].resultsCount == 0
            && (forall id :: id in store.history && id != newId ==> id in s.history && s.history[id] == store.history[id]))
  {
  }

  // -------------------------------------------------------------------- PUT

  datatype UpdateBody = UpdateBody(id: string, status: string, resultsCount: Option<int>, actualCredits: Option<int>,
                                   refundAmount: Option<int>, errorMessage: Option<string>)

  predicate IsHex(c: char)
  {
    '0' <= c <= '9' || 'a' <= c <= 'f' || 'A' <= c <= 'F'
  }

  /** A UUID in the 8-4-4-4-12 hexadecimal layout. */
  predicate IsUuid(s: string)
  {
    |s| == 36
    && forall i :: 0 <= i < 36 ==> if i in {8, 13, 18, 23} then s[i] == '-' else IsHex(s[i])
  }

  /** `updateRecordSchema`. */
  predicate ValidUpdate(b: UpdateBody)
  {
    IsUuid(b.id) && IsStatus(b.status)
    && (b.resultsCount.Some? ==> b.resultsCount.value >= 0)
    && (b.actualCredits.Some? ==> b.actualCredits.value >= 0)
    && (b.refundAmount.Some? ==> b.refundAmount.value >= 0)
  }

  /** `max(0, credits_used - actual_credits)` when the actual credits are given. */
  function Difference(rec: Record, actual: Option<int>): nat
  {
    if actual.Some? && actual.value < rec.creditsUsed then rec.creditsUsed - actual.value else 0
  }

  /** The credits given back: the client's `refund_amount` when it sends one,
      otherwise the difference. */
  function FinalRefund(rec: Record, b: UpdateBody): (r: nat)
    requires ValidUpdate(b)
  {
    if b.refundAmount.Some? then b.refundAmount.value else Difference(rec, b.actualCredits)
  }

  /** The record after the update. */
  function UpdatedRecord(rec: Record, b: UpdateBody): Record
    requires ValidUpdate(b)
  {
    var d := Difference(rec, b.actualCredits);
    rec.(status := b.status,
         resultsCount := if b.resultsCount.Some? then b.resultsCount.value as nat else rec.resultsCount,
         creditsUsed := if b.actualCredits.Some? then b.actualCredits.value as nat else rec.creditsUsed,
         refundAmount := if b.refundAmount.Some? then Some(b.refundAmount.value as nat)
                         else if d > 0 then Some(d) else rec.refundAmount,
         errorMessage := if b.errorMessage.Some? && b.errorMessage.value != "" then b.errorMessage else rec.errorMessage)
  }

  /** `PUT`. `updateOk` is whether the history update succeeded. */
  function Update(store: Store, user: Option<string>, b: UpdateBody, updateOk: bool): (Store, Reply)
  {
    if user.None? then (store, Status(401))
    else if !ValidUpdate(b) then (store, Status(400))
    else if b.id !in store.history || store.history[b.id].userId != user.value then (store, Status(404))
    else if !updateOk then (store, Status(500))
    else
      var u := user.value;
      var rec := store.history[b.id];
      var refund := FinalRefund(rec, b);
      var balances := if refund > 0 && u in store.balances then store.balances[u := store.balances[u] + refund]
                      else store.balances;
      (store.(balances := balances, history := store.history[b.id := UpdatedRecord(rec, b)]), Ok(b.id, refund))
  }

  /** Only the owner's record changes, and only the owner's balance, by exactly the
      refund in the reply: the unused part of the credits charged, or whatever the
      client names. A missing or foreign record, an invalid body or a failed update
      changes nothing. */
  lemma UpdateEffect(store: Store, user: Option<string>, b: UpdateBody, updateOk: bool)
    ensures var (s, r) := Update(store, user, b, updateOk);
      (r.Status? ==> s == store && r.code in {400, 401, 404, 500})
      && (r.Status? && r.code == 404 <==>
            user.Some? && ValidUpdate(b) && (b.id !in store.history || store.history[b.id].userId != user.value))
      && (r.Ok? ==>
            var u := user.value;
            var rec := store.history[b.id];
            r.id == b.id && s.counters == store.counters
            && r.refund == (if b.refundAmount.Some? then b.refundAmount.value
                            else if b.actualCredits.Some? && b.actualCredits.value < rec.creditsUsed
                            then rec.creditsUsed - b.actualCredits.value else 0)
            && s.balances.Keys == store.balances.Keys
            && (forall v :: v in store.balances && v != u ==> s.balances[v] == store.balances[v])
            && (u in store.balances ==> s.balances[u] == store.balances[u] + r.refund)
            && s.history.Keys == store.history.Keys
            && (forall id :: id in store.history && id != b.id ==> s.history[id] == store.history[id])
            && s.history[b.id].userId == u
            && (b.actualCredits.Some? ==> s.history[b.id].creditsUsed == b.actualCredits.value))
  {
  }

  /** A charge followed by the end-of-search update with the actual credits (at most
      the expected ones) and no client refund costs the user exactly the actual
      credits. */
  lemma NetChargeIsActual(store: Store, u: string, body: CreateBody, newId: string, writes: CreateWrites,
                          firstOfMonth: string, today: string, b: UpdateBody)
    requires u in store.balances
    requires Create(store, Some(u), body, newId, writes, firstOfMonth, today).1.Ok?
    requires ValidUpdate(b) && b.id == newId && b.refundAmount.None?
    requires b.actualCredits.Some? && b.actualCredits.value <= body.expectedCredits
    ensures var s1 := Create(store, Some(u), body, newId, writes, firstOfMonth, today).0;
            var s2 := Update(s1, Some(u), b, true).0;
            s2.balances[u] + b.actualCredits.value == store.balances[u]
  {
    CreateEffect(store, Some(u), body, newId, writes, firstOfMonth, today);
  }

  /** Sending the same end-of-search update again gives nothing back the second time
      unless the client names a refund: the record already holds the actual credits. */
  lemma RepeatedUpdateRefundsOnce(store: Store, u: string, b: UpdateBody)
    requires ValidUpdate(b) && b.refundAmount.None?
    requires Update(store, Some(u), b, true).1.Ok?
    ensures var s1 := Update(store, Some(u), b, true).0;
            var (s2, r2) := Update(s1, Some(u), b, true);
            r2 == Ok(b.id, 0) && s2.balances == s1.balances
  {
  }

  /** The client's `refund_amount` is trusted: it is added to the balance whatever
      the record charged, on every call. */
  lemma ClientRefundTrusted(store: Store, u: string, b: UpdateBody)
    requires ValidUpdate(b) && b.refundAmount.Some?
    requires b.id in store.history && store.history[b.id].userId == u && u in store.balances
    ensures Update(store, Some(u), b, true).0.balances[u] == store.balances[u] + b.refundAmount.value
  {
  }
}
