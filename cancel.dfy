/** `POST /api/subscriptions/cancel` (app/api/subscriptions/cancel/route.ts): cancel
    the caller's subscription, refunding it when it was renewed within 48 hours and
    no search since then used credits. The search-history query, the payment lookup
    with the refund call, and the subscription update are oracles given as
    parameters; the billing-key deletion at Toss has no effect on the tables. */
module Cancel {
  import opened Wrappers
  import opened Seqs
  import opened Accounts

  /** 48 hours in milliseconds. */
  const RefundWindow: nat := 48 * 60 * 60 * 1000

  predicate Positive(x: nat) { x > 0 }

  /** `hasUsedCredits`: the query keeps the searches since renewal with
      `credits_used > 0`; a failed query returns no rows. */
  function HasUsedCredits(history: Option<seq<nat>>): bool
  {
    history.Some? && |Filter(history.value, Positive)| > 0
  }

  /** `isEligibleForRefund`. */
  function Eligible(renewedAt: int, now: int, history: Option<seq<nat>>): bool
  {
    now - renewedAt <= RefundWindow && !HasUsedCredits(history)
  }

  /** Eligible exactly within 48 hours of the renewal when no search since then used
      credits, or when the history query failed. */
  lemma EligibleIff(renewedAt: int, now: int, history: Option<seq<nat>>)
    ensures Eligible(renewedAt, now, history) <==>
              now - renewedAt <= RefundWindow
              && (history.None? || forall i :: 0 <= i < |history.value| ==> history.value[i] == 0)
  {
    if history.Some? {
      var h := history.value;
      if exists i :: 0 <= i < |h| && h[i] != 0 {
        var i :| 0 <= i < |h| && h[i] != 0;
        FilterMembers(h, Positive, h[i]);
      } else if |Filter(h, Positive)| > 0 {
        FilterMembers(h, Positive, Filter(h, Positive)[0]);
      }
    }
  }

  /** The row written to `cancellation_logs`. */
  datatype CancelLog = CancelLog(reason: string, plan: string, credits: nat, refundEligible: bool,
                                 refundAmount: nat, refundProcessed: bool)

  datatype Reply =
    | Canceled(isEligibleForRefund: bool, refundProcessed: bool, hasUsedCredits: bool, effectiveDate: Option<int>)
    | Error(status: nat)

  /** `POST`. `user` is the signed-in user, if any; `refund` is the `totalAmount` of a
      successful refund call (none when no payment was found or the call failed),
      consulted only when eligible; `updateOk` is whether the subscription update
      succeeded. */
  method CancelSubscription(store: Store, user: Option<string>, reason: string, now: int,
                            history: Option<seq<nat>>, refund: Option<nat>, updateOk: bool)
    returns (store': Store, reply: Reply, log: Option<CancelLog>)
    ensures user.None? ==> store' == store && reply == Error(401) && log.None?
    ensures user.Some? && !(1 <= |reason| <= 200) ==> store' == store && reply == Error(400) && log.None?
    ensures user.Some? && 1 <= |reason| <= 200 && user.value !in store.subs ==>
              store' == store && reply == Error(404) && log.None?
    ensures user.Some? && 1 <= |reason| <= 200 && user.value in store.subs && store.subs[user.value].status == "canceled" ==>
              store' == store && reply == Error(400) && log.None?
    ensures user.Some? && 1 <= |reason| <= 200 && user.value in store.subs && store.subs[user.value].status != "canceled" ==>
              var u := user.value;
              var sub := store.subs[u];
              var eligible := Eligible(sub.renewedAt, now, history);
              var processed := eligible && refund.Some?;
              if !updateOk then store' == store && reply == Error(500) && log.None?
              else
                store'.subs == store.subs[u := sub.(status := "canceled", billingKey := None,
                                                    nextChargeAt := if eligible then Some(now) else sub.nextChargeAt)]
                && store'.profiles == (if eligible then SetProfilePlan(store.profiles, u, "free") else store.profiles)
                && store'.credits == (if eligible && u in store.credits then store.credits[u := FreeCredit(store.credits[u], now)]
                                      else store.credits)
                && reply == Canceled(eligible, processed, HasUsedCredits(history),
                                     if eligible then Some(now) else sub.nextChargeAt)
                && (log.Some? <==> u in store.profiles)
                && (log.Some? ==> log.value.refundEligible == eligible && log.value.refundProcessed == processed
                                  && log.value.refundAmount == (if processed then refund.value else 0))
    ensures reply.Canceled? && user.Some? ==> OthersUnchanged(store, store', user.value)
  {
    store', log := store, None;
    if user.None? {
      return store', Error(401), log;
    }
    if !(1 <= |reason| <= 200) {
      return store', Error(400), log;
    }
    var u := user.value;
    if u !in store.subs {
      return store', Error(404), log;
    }
    var sub := store.subs[u];
    if sub.status == "canceled" {
      return store', Error(400), log;
    }
    var hasUsed := HasUsedCredits(history);
    var isEligible := now - sub.renewedAt <= RefundWindow && !hasUsed;
    var refundResult: Option<nat> := None;
    if isEligible {
      refundResult := refund;
    }
    var update := sub.(status := "canceled", billingKey := None);
    if isEligible {
      update := update.(nextChargeAt := Some(now));
    } else {
      update := update.(nextChargeAt := sub.nextChargeAt);
    }
    if !updateOk {
      return store', Error(500), log;
    }
    store' := store'.(subs := store'.subs[u := update]);
    if isEligible {
      store' := store'.(profiles := SetProfilePlan(store'.profiles, u, "free"));
      if u in store'.credits {
        store' := store'.(credits := store'.credits[u := FreeCredit(store'.credits[u], now)]);
      }
    }
    var processed := isEligible && refundResult.Some?;
    if u in store'.profiles {
      var credits := if u in store'.credits then store'.credits[u].balance else 0;
      var amount := if refundResult.Some? then refundResult.value else 0;
      log := Some(CancelLog(reason, sub.plan, credits, isEligible, amount, processed));
    }
    reply := Canceled(isEligible, processed, hasUsed, if isEligible then Some(now) else sub.nextChargeAt);
  }
}
