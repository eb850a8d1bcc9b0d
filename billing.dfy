/** The Toss billing route (app/api/toss/billing/route.ts): `POST` saves a billing
    key and the chosen paid plan, refusing a non-admin downgrade; `PUT` is the
    monthly charge job, which first moves canceled subscriptions past their next
    charge date to the free plan and then charges every active subscription with a
    billing key; `DELETE` marks the subscription canceled. The payment API, the
    clock and the calendar month are parameters; times are milliseconds. */
module Billing {
  import opened Wrappers
  import opened Accounts
  import opened Cycle

  /** 30 days in milliseconds, the step of the free-plan grant cycle. */
  const CycleStep: nat := 30 * 24 * 60 * 60 * 1000

  /** `rank`: business 3, pro 2, starter 1, anything else 0. */
  function Rank(plan: string): (r: nat)
    ensures r <= 3
    ensures r > 0 <==> plan in {"starter", "pro", "business"}
  {
    if plan == "business" then 3 else if plan == "pro" then 2 else if plan == "starter" then 1 else 0
  }

  // ------------------------------------------------------------------- POST

  /** `POST`: the body is valid when the plan is a paid one and the key has at
      least 3 characters. `nextMonth` is now plus one calendar month. */
  method SaveBillingKey(store: Store, user: Option<string>, plan: string, billingKey: string,
                        isAdmin: bool, now: int, nextMonth: int)
    returns (store': Store, status: nat)
    ensures status in {200, 400, 401, 403}
    ensures status != 200 ==> store' == store
    ensures status == 400 <==> !(plan in {"starter", "pro", "business"} && |billingKey| >= 3)
    ensures status == 401 <==> plan in {"starter", "pro", "business"} && |billingKey| >= 3 && user.None?
    ensures status == 403 <==>
              plan in {"starter", "pro", "business"} && |billingKey| >= 3 && user.Some?
              && user.value in store.subs && store.subs[user.value].plan != ""
              && !isAdmin && Rank(plan) < Rank(store.subs[user.value].plan)
    ensures status == 200 ==>
              store' == store.(subs := store.subs[user.value := Sub(plan, "active", Some(billingKey), now, Some(nextMonth))])
    ensures status == 200 && !isAdmin && user.value in store.subs ==>
              Rank(store.subs[user.value].plan) <= Rank(store'.subs[user.value].plan)
  {
    store' := store;
    if !(plan in {"starter", "pro", "business"} && |billingKey| >= 3) {
      return store', 400;
    }
    if user.None? {
      return store', 401;
    }
    var u := user.value;
    if u in store.subs && store.subs[u].plan != "" && !isAdmin && Rank(plan) < Rank(store.subs[u].plan) {
      return store', 403;
    }
    store' := store.(subs := store.subs[u := Sub(plan, "active", Some(billingKey), now, Some(nextMonth))]);
    status := 200;
  }

  // ------------------------------------------------------------ PUT: expiry

  /** `handleCanceledSubscriptionExpiry`: the subscription becomes free and expired,
      the profile free, and the credits 250 with a grant cycle stepped from the
      charge date. */
  function Expire(store: Store, user: string, nextCharge: int, now: int): Store
  {
    var next := NextCycle(nextCharge, now, CycleStep);
    store.(subs := if user in store.subs then store.subs[user := store.subs[user].(plan := "free", status := "expired")] else store.subs,
           profiles := SetProfilePlan(store.profiles, user, "free"),
           credits := if user in store.credits
                      then store.credits[user := FreeCycleCredit(store.credits[user], now, next - CycleStep, next)]
                      else store.credits)
  }

  /** The subscription rows read at the start of `PUT`. */
  datatype Row = Row(userId: string, sub: Sub)

  /** A canceled row whose next charge date has passed. */
  predicate Expired(row: Row, now: int)
  {
    row.sub.status == "canceled" && row.sub.nextChargeAt.Some? && row.sub.nextChargeAt.value <= now
  }

  /** The first loop of `PUT` over the rows. */
  function ExpireAll(store: Store, rows: seq<Row>, now: int): Store
  {
    if |rows| == 0 then store
    else
      var before := ExpireAll(store, rows[..|rows| - 1], now);
      var row := rows[|rows| - 1];
      if Expired(row, now) then Expire(before, row.userId, row.sub.nextChargeAt.value, now) else before
  }

  /** An expired user ends on the free plan with 250 credits, a grant date after now
      and a cycle start 30 days before it; every other row stays as it was. */
  lemma ExpireEffect(store: Store, user: string, nextCharge: int, now: int)
    requires nextCharge <= now
    ensures var s := Expire(store, user, nextCharge, now);
      OthersUnchanged(store, s, user)
      && (user in s.subs ==> s.subs[user].plan == "free" && s.subs[user].status == "expired"
                             && s.subs[user].billingKey == store.subs[user].billingKey)
      && (user in s.profiles ==> s.profiles[user].plan == "free")
      && (user in s.credits ==>
            s.credits[user].balance == 250 && s.credits[user].monthlyGrant == 250
            && s.credits[user].nextGrant.Some? && s.credits[user].cycleStart.Some?
            && now < s.credits[user].nextGrant.value
            && s.credits[user].cycleStart.value <= now
            && s.credits[user].cycleStart.value == s.credits[user].nextGrant.value - CycleStep)
  {
    NextCycleBounds(nextCharge, now, CycleStep);
  }

  /** `ExpireAll` with the loop of the route. */
  method ExpireCanceled(store: Store, rows: seq<Row>, now: int) returns (store': Store)
    ensures store' == ExpireAll(store, rows, now)
  {
    store' := store;
    for i := 0 to |rows|
      invariant store' == ExpireAll(store, rows[..i], now)
    {
      assert rows[..i + 1][..i] == rows[..i];
      var s := rows[i];
      if s.sub.status == "canceled" && s.sub.nextChargeAt.Some? {
        var nextChargeDate := s.sub.nextChargeAt.value;
        if nextChargeDate <= now {
          var cycleStart, nextGrant := AdvanceCycle(nextChargeDate, now, CycleStep);
          var u := s.userId;
          var subs := if u in store'.subs then store'.subs[u := store'.subs[u].(plan := "free", status := "expired")] else store'.subs;
          var credits := if u in store'.credits
                         then store'.credits[u := FreeCycleCredit(store'.credits[u], now, cycleStart, nextGrant)]
                         else store'.credits;
          store' := Store(subs, SetProfilePlan(store'.profiles, u, "free"), credits);
        }
      }
    }
    assert rows[..|rows|] == rows;
  }

  // ----------------------------------------------------------- PUT: charges

  /** `planToCredits[plan] || 0`. */
  function PlanDelta(plan: string): (r: nat)
    ensures r > 0 <==> plan in {"starter", "pro", "business"}
  {
    if plan == "starter" then 2000 else if plan == "pro" then 7000 else if plan == "business" then 20000 else 0
  }

  /** `planToPrices[plan] || 0`. */
  function PlanAmount(plan: string): (r: nat)
    ensures r > 0 <==> plan in {"starter", "pro", "business"}
  {
    if plan == "starter" then 19900 else if plan == "pro" then 49900 else if plan == "business" then 119900 else 0
  }

  /** What the payment call did: an ok response, a non-ok response, or a thrown
      error. */
  datatype Payment = Paid | Declined | Threw

  /** A row the second loop charges: active, with a non-empty billing key and a known plan,
      when the secret key is configured. */
  predicate Chargeable(row: Row, hasSecret: bool)
  {
    row.sub.billingKey.Some? && row.sub.billingKey.value != "" && row.sub.status == "active" && PlanDelta(row.sub.plan) > 0
    && PlanAmount(row.sub.plan) > 0 && hasSecret
  }

  /** A successful payment: the credits upsert adds the plan's credits (a missing row
      is created with that balance) and the subscription is renewed. */
  function Credit(store: Store, user: string, delta: nat, now: int, nextMonth: int): Store
  {
    var c := if user in store.credits then store.credits[user].(balance := store.credits[user].balance + delta)
             else Accounts.Credit(delta, 0, 0, None, None, None);
    store.(credits := store.credits[user := c],
           subs := if user in store.subs then store.subs[user := store.subs[user].(renewedAt := now, nextChargeAt := Some(nextMonth))]
                   else store.subs)
  }

  /** `handlePaymentFailureInCron`: the subscription becomes free with status
      `payment_failed` and no billing key, the profile free, and the credits 250 with
      a grant cycle stepped from the sign-up date (now when it is unknown). */
  function ConvertToFree(store: Store, user: string, now: int): Store
  {
    var signup := if user in store.profiles && store.profiles[user].createdAt.Some? then store.profiles[user].createdAt.value else now;
    var next := NextCycle(signup, now, CycleStep);
    store.(subs := if user in store.subs
                   then store.subs[user := store.subs[user].(plan := "free", status := "payment_failed", billingKey := None)]
                   else store.subs,
           profiles := SetProfilePlan(store.profiles, user, "free"),
           credits := if user in store.credits
                      then store.credits[user := FreeCycleCredit(store.credits[user], now, next - CycleStep, next)]
                      else store.credits)
  }

  /** One turn of the second loop. */
  function ChargeOne(store: Store, row: Row, payment: Payment, hasSecret: bool, now: int, nextMonth: int): Store
  {
    if !Chargeable(row, hasSecret) then store
    else match payment
      case Paid => Credit(store, row.userId, PlanDelta(row.sub.plan), now, nextMonth)
      case Declined => store
      case Threw => ConvertToFree(store, row.userId, now)
  }

  function ChargeAll(store: Store, rows: seq<Row>, payments: nat -> Payment, hasSecret: bool, now: int, nextMonth: int): Store
  {
    if |rows| == 0 then store
    else ChargeOne(ChargeAll(store, rows[..|rows| - 1], payments, hasSecret, now, nextMonth),
                   rows[|rows| - 1], payments(|rows| - 1), hasSecret, now, nextMonth)
  }

  /** Only a chargeable row whose payment went through gains credits, exactly the
      plan's 2000, 7000 or 20000, keeping its reservation, and its subscription is
      renewed now until `nextMonth`; a declined payment changes nothing; only a thrown
      error converts the user to the free plan: the subscription `payment_failed`
      without a billing key, the profile free and 250 credits on a fresh grant cycle.
      No other user's rows change and no row appears for another user. */
  lemma ChargeOneEffect(store: Store, row: Row, payment: Payment, hasSecret: bool, now: int, nextMonth: int)
    ensures var s := ChargeOne(store, row, payment, hasSecret, now, nextMonth);
      var u := row.userId;
      s.subs.Keys == store.subs.Keys && s.profiles.Keys == store.profiles.Keys
      && (forall v :: v in store.subs && v != u ==> s.subs[v] == store.subs[v])
      && (forall v :: v in store.profiles && v != u ==> s.profiles[v] == store.profiles[v])
      && (forall v :: v in store.credits && v != u ==> v in s.credits && s.credits[v] == store.credits[v])
      && (forall v :: v in s.credits && v != u ==> v in store.credits)
      && (!Chargeable(row, hasSecret) || payment.Declined? ==> s == store)
      && (Chargeable(row, hasSecret) && payment.Paid? ==>
            s.profiles == store.profiles
            && u in s.credits
            && s.credits[u].balance == (if u in store.credits then store.credits[u].balance else 0) + PlanDelta(row.sub.plan)
            && s.credits[u].reserved == (if u in store.credits then store.credits[u].reserved else 0)
            && PlanDelta(row.sub.plan) in {2000, 7000, 20000}
            && (u in s.subs ==> s.subs[u] == store.subs[u].(renewedAt := now, nextChargeAt := Some(nextMonth))))
      && (Chargeable(row, hasSecret) && payment.Threw? ==>
            s.credits.Keys == store.credits.Keys
            && (u in s.subs ==> s.subs[u] == store.subs[u].(plan := "free", status := "payment_failed", billingKey := None))
            && (u in s.profiles ==> s.profiles[u].plan == "free")
            && (u in s.credits ==>
                  s.credits[u].balance == 250 && s.credits[u].monthlyGrant == 250
                  && s.credits[u].reserved == store.credits[u].reserved
                  && s.credits[u].nextGrant.Some? && s.credits[u].cycleStart.Some?
                  && now < s.credits[u].nextGrant.value
                  && s.credits[u].cycleStart.value == s.credits[u].nextGrant.value - CycleStep))
  {
    var u := row.userId;
    var signup := if u in store.profiles && store.profiles[u].createdAt.Some? then store.profiles[u].createdAt.value else now;
    NextCycleBounds(signup, now, CycleStep);
  }

  /** The second loop of `PUT`; `payments(i)` is the outcome of the i-th call. */
  method ChargeActive(store: Store, rows: seq<Row>, payments: nat -> Payment, hasSecret: bool, now: int, nextMonth: int)
    returns (store': Store)
    ensures store' == ChargeAll(store, rows, payments, hasSecret, now, nextMonth)
  {
    store' := store;
    for i := 0 to |rows|
      invariant store' == ChargeAll(store, rows[..i], payments, hasSecret, now, nextMonth)
    {
      assert rows[..i + 1][..i] == rows[..i];
      var s := rows[i];
      if s.sub.billingKey.None? || s.sub.billingKey.value == "" || s.sub.status != "active" {
        continue;
      }
      var amount := PlanAmount(s.sub.plan);
      var delta := PlanDelta(s.sub.plan);
      if delta == 0 {
        continue;
      }
      if amount > 0 {
        if !hasSecret {
          continue;
        }
        match payments(i)
        case Declined =>
          continue;
        case Paid =>
          store' := Credit(store', s.userId, delta, now, nextMonth);
        case Threw =>
          store' := ConvertToFree(store', s.userId, now);
      }
    }
    assert rows[..|rows|] == rows;
  }

  /** `PUT`: the expiry loop, then the charge loop over the same rows as read at the
      start. A failed read of the rows is an empty list. */
  method MonthlyCharge(store: Store, rows: Option<seq<Row>>, payments: nat -> Payment, hasSecret: bool,
                       now: int, nextMonth: int) returns (store': Store)
    ensures var rs := if rows.Some? then rows.value else [];
            store' == ChargeAll(ExpireAll(store, rs, now), rs, payments, hasSecret, now, nextMonth)
  {
    var rs := if rows.Some? then rows.value else [];
    store' := ExpireCanceled(store, rs, now);
    store' := ChargeActive(store', rs, payments, hasSecret, now, nextMonth);
  }

  // ----------------------------------------------------------------- DELETE

  datatype DeleteReply = Until(nextChargeAt: Option<int>, plan: string) | DeleteError(status: nat)

  /** `DELETE`: the subscription is marked canceled and keeps its next charge date
      and billing key, so the plan stays usable until then. */
  method CancelAutoCharge(store: Store, user: Option<string>) returns (store': Store, reply: DeleteReply)
    ensures user.None? ==> store' == store && reply == DeleteError(401)
    ensures user.Some? && user.value !in store.subs ==> store' == store && reply == DeleteError(404)
    ensures user.Some? && user.value in store.subs ==>
              var sub := store.subs[user.value];
              store' == store.(subs := store.subs[user.value := sub.(status := "canceled")])
              && reply == Until(sub.nextChargeAt, sub.plan)
              && store'.subs[user.value].nextChargeAt == sub.nextChargeAt
              && store'.subs[user.value].billingKey == sub.billingKey
  {
    store' := store;
    if user.None? {
      return store', DeleteError(401);
    }
    if user.value !in store.subs {
      return store', DeleteError(404);
    }
    var sub := store.subs[user.value];
    store' := store.(subs := store.subs[user.value := sub.(status := "canceled")]);
    reply := Until(sub.nextChargeAt, sub.plan);
  }
}
