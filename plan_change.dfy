/** The plan tables and the plan-change rules of lib/plan-change-helpers.ts: which
    kind of change a move between two plans is, how the credits already used carry
    over to a new plan, and whether a recent payment may be refunded. The three
    Supabase reads are parameters: the credits row, the subscription, the latest
    plan-change log and the `credits_used` values of the searches since renewal. */
module PlanChange {
  import opened Wrappers
  import opened Seqs

  /** `PLAN_CREDITS`: the monthly credits of each plan. */
  function PlanCredits(plan: string): (r: Option<nat>)
    ensures r.Some? <==> plan in {"free", "starter", "pro", "business"}
    ensures r.Some? ==> r.value >= 250
  {
    if plan == "free" then Some(250)
    else if plan == "starter" then Some(2000)
    else if plan == "pro" then Some(7000)
    else if plan == "business" then Some(20000)
    else None
  }

  /** The paid plans, the keys of `PLAN_PRICES`. */
  predicate IsPaid(plan: string)
  {
    plan in {"starter", "pro", "business"}
  }

  /** `PLAN_PRICES[plan] || 0`, in won. */
  function PlanPrice(plan: string): (r: nat)
    ensures r > 0 <==> IsPaid(plan)
  {
    if plan == "starter" then 19900
    else if plan == "pro" then 49900
    else if plan == "business" then 119900
    else 0
  }

  /** A dearer plan has more credits and a higher price. */
  lemma PlanTablesAgree(a: string, b: string)
    requires IsPaid(a) && IsPaid(b)
    ensures PlanCredits(a).Some? && PlanCredits(b).Some?
    ensures PlanPrice(a) < PlanPrice(b) <==> PlanCredits(a).value < PlanCredits(b).value
  {
  }

  datatype ChangeType = FreeToPaid | PaidToPaid | PaidToFree

  /** `getPlanChangeType`; a move between two unpaid plans throws. */
  function PlanChangeType(fromPlan: string, toPlan: string): (r: Result<ChangeType, string>)
  {
    var isFromPaid := IsPaid(fromPlan);
    var isToPaid := IsPaid(toPlan);
    if !isFromPaid && isToPaid then Success(FreeToPaid)
    else if isFromPaid && !isToPaid then Success(PaidToFree)
    else if isFromPaid && isToPaid then Success(PaidToPaid)
    else Failure("Invalid plan change: " + fromPlan + " -> " + toPlan)
  }

  /** Each kind of change holds exactly for its pair of sides, and only a move
      between two unpaid plans is refused. */
  lemma PlanChangeTypeCases(fromPlan: string, toPlan: string)
    ensures PlanChangeType(fromPlan, toPlan) == Success(FreeToPaid) <==> !IsPaid(fromPlan) && IsPaid(toPlan)
    ensures PlanChangeType(fromPlan, toPlan) == Success(PaidToFree) <==> IsPaid(fromPlan) && !IsPaid(toPlan)
    ensures PlanChangeType(fromPlan, toPlan) == Success(PaidToPaid) <==> IsPaid(fromPlan) && IsPaid(toPlan)
    ensures PlanChangeType(fromPlan, toPlan).Failure? <==> !IsPaid(fromPlan) && !IsPaid(toPlan)
  {
  }

  /** The `balance` and `monthly_grant` columns of a credits row. */
  datatype CreditRow = CreditRow(balance: nat, monthlyGrant: nat)

  datatype CreditCalculation = CreditCalculation(currentUsed: nat, newBalance: nat, newTotal: nat)

  /** `calculateCreditAccumulation`: the credits used so far this cycle are charged
      against the new plan's credits. It throws when there is no credits row. */
  function CreditAccumulation(row: Option<CreditRow>, newPlan: string): (r: Result<CreditCalculation, string>)
    requires PlanCredits(newPlan).Some?
  {
    if row.None? then Failure("credits not found")
    else
      var currentUsed := if row.value.monthlyGrant < row.value.balance then 0 else row.value.monthlyGrant - row.value.balance;
      var newTotal := PlanCredits(newPlan).value;
      var newBalance := if newTotal < currentUsed then 0 else newTotal - currentUsed;
      Success(CreditCalculation(currentUsed, newBalance, newTotal))
  }

  /** The calculation fails exactly without a credits row; otherwise the used part
      is the shortfall of the balance against the grant, the new total is the new
      plan's credits, and the new balance is that total less the credits used, never
      below 0 nor above the total. */
  lemma CreditAccumulationRules(row: Option<CreditRow>, newPlan: string)
    requires PlanCredits(newPlan).Some?
    ensures CreditAccumulation(row, newPlan).Failure? <==> row.None?
    ensures row.Some? ==>
      var c := CreditAccumulation(row, newPlan).value;
      c.newTotal == PlanCredits(newPlan).value
      && c.currentUsed + row.value.balance >= row.value.monthlyGrant
      && (c.currentUsed == 0 || c.currentUsed + row.value.balance == row.value.monthlyGrant)
      && 0 <= c.newBalance <= c.newTotal
      && c.newTotal - c.newBalance == (if c.currentUsed < c.newTotal then c.currentUsed else c.newTotal)
  {
  }

  /** Moving to a plan with more credits never leaves less balance. */
  lemma CreditAccumulationMonotone(row: CreditRow, a: string, b: string)
    requires PlanCredits(a).Some? && PlanCredits(b).Some?
    requires PlanCredits(a).value <= PlanCredits(b).value
    ensures CreditAccumulation(Some(row), a).value.newBalance <= CreditAccumulation(Some(row), b).value.newBalance
  {
  }

  /** The subscription fields the refund check reads; times are in milliseconds. */
  datatype Subscription = Subscription(plan: string, renewedAt: int)

  /** The latest plan-change log: its `change_type` and `is_first_paid_subscription`. */
  datatype LastChange = LastChange(changeType: string, isFirstPaid: bool)

  datatype Refund = Refund(eligible: bool, reason: string, amount: Option<nat>)

  /** 48 hours in milliseconds. */
  const RefundWindow: nat := 48 * 60 * 60 * 1000

  /** `max(0, monthly_grant - balance)`, or 0 without a credits row. */
  function GrantUsed(credits: Option<CreditRow>): nat
  {
    if credits.Some? && credits.value.monthlyGrant > credits.value.balance
    then credits.value.monthlyGrant - credits.value.balance else 0
  }

  /** The larger of the summed `credits_used` since renewal (a missing value or a
      failed query counting 0) and the credits missing from the grant. */
  function UsedCredits(history: Option<seq<nat>>, credits: Option<CreditRow>): (r: nat)
  {
    var total := if history.Some? then Sum(history.value) else 0;
    var actual := GrantUsed(credits);
    if total < actual then actual else total
  }

  /** The used credits are at least the summed history and at least the part of the
      grant missing from the balance, and are one of the two. */
  lemma UsedCreditsBounds(history: Option<seq<nat>>, credits: Option<CreditRow>)
    ensures history.Some? ==> UsedCredits(history, credits) >= Sum(history.value)
    ensures credits.Some? ==> UsedCredits(history, credits) + credits.value.balance >= credits.value.monthlyGrant
    ensures UsedCredits(history, credits) == GrantUsed(credits)
            || (history.Some? && UsedCredits(history, credits) == Sum(history.value))
  {
  }

  /** The last step of `checkRefundEligibility`: the branch on the latest change. */
  function RefundDecision(lastChange: Option<LastChange>, used: nat, plan: string): (r: Refund)
  {
    var price := PlanPrice(plan);
    if lastChange.Some? && lastChange.value.changeType == "free_to_paid" && lastChange.value.isFirstPaid then
      if used <= 250 then Refund(true, "first_paid_subscription_under_250_credits", Some(price))
      else Refund(false, "first_paid_subscription_over_250_credits", None)
    else if lastChange.Some? && lastChange.value.changeType == "paid_to_paid" then
      if used > 0 then Refund(false, "paid_to_paid_with_usage", None)
      else Refund(true, "paid_to_paid_no_usage", Some(price))
    else
      if used == 0 then Refund(true, "standard_refund", Some(price))
      else Refund(false, "has_usage_history", None)
  }

  /** The latest change is the user's first move from the free plan to a paid one. */
  predicate FirstPaid(lastChange: Option<LastChange>)
  {
    lastChange.Some? && lastChange.value.changeType == "free_to_paid" && lastChange.value.isFirstPaid
  }

  /** A first subscription after the free plan stays refundable up to 250 used
      credits; every other case only without any use. An eligible refund carries
      the plan's price, a refused one no amount. */
  lemma RefundDecisionRules(lastChange: Option<LastChange>, used: nat, plan: string)
    ensures RefundDecision(lastChange, used, plan).eligible <==>
              if FirstPaid(lastChange) then used <= 250 else used == 0
    ensures RefundDecision(lastChange, used, plan).eligible ==>
              RefundDecision(lastChange, used, plan).amount == Some(PlanPrice(plan))
    ensures !RefundDecision(lastChange, used, plan).eligible ==>
              RefundDecision(lastChange, used, plan).amount.None?
  {
  }

  /** Using fewer credits never turns an eligible refund into a refused one. */
  lemma RefundDecisionAntitone(lastChange: Option<LastChange>, used: nat, less: nat, plan: string)
    requires less <= used && RefundDecision(lastChange, used, plan).eligible
    ensures RefundDecision(lastChange, less, plan).eligible
  {
  }

  /** `checkRefundEligibility`. */
  function RefundEligibility(sub: Option<Subscription>, now: int, lastChange: Option<LastChange>,
                             history: Option<seq<nat>>, credits: Option<CreditRow>): Refund
  {
    if sub.None? then Refund(false, "no_subscription", None)
    else if now - sub.value.renewedAt > RefundWindow then Refund(false, "time_limit_exceeded", None)
    else RefundDecision(lastChange, UsedCredits(history, credits), sub.value.plan)
  }

  /** Without a subscription the refund is refused as `no_subscription`; more than
      48 hours after renewal as `time_limit_exceeded`; otherwise the decision on the
      used credits applies. */
  lemma RefundEligibilityRules(sub: Option<Subscription>, now: int, lastChange: Option<LastChange>,
                               history: Option<seq<nat>>, credits: Option<CreditRow>)
    ensures sub.None? ==> RefundEligibility(sub, now, lastChange, history, credits) == Refund(false, "no_subscription", None)
    ensures sub.Some? && now - sub.value.renewedAt > RefundWindow ==>
              RefundEligibility(sub, now, lastChange, history, credits) == Refund(false, "time_limit_exceeded", None)
    ensures RefundEligibility(sub, now, lastChange, history, credits).eligible <==>
              sub.Some? && now - sub.value.renewedAt <= RefundWindow
              && (if FirstPaid(lastChange) then UsedCredits(history, credits) <= 250
                  else UsedCredits(history, credits) == 0)
  {
    if sub.Some? {
      RefundDecisionRules(lastChange, UsedCredits(history, credits), sub.value.plan);
    }
  }
}
