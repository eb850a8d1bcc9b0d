/** The 30-day credit reset job (app/api/cron/cycle-credit-reset/route.ts): every
    credits row whose next grant date is today or earlier gets its plan's credits
    again, and its cycle moves forward in steps of 30 days until it ends after
    today. Dates are day numbers; `now` is the time written as the grant time. The
    joined query and each row's update are oracles given as parameters. */
module CycleReset {
  import opened Wrappers
  import opened Accounts
  import opened Cycle
  import PlanChange

  /** A row of `credits` joined with its profile. */
  datatype DueRow = DueRow(userId: string, balance: nat, cycleStart: Option<int>, nextGrant: Option<int>,
                           plan: string, createdAt: Option<int>, subscriptionStart: Option<int>,
                           lastPayment: Option<int>)

  /** The query's filter: a next grant date on or before today. */
  function DueRows(rows: seq<DueRow>, today: int): (r: seq<DueRow>)
    ensures forall x :: x in r <==> x in rows && x.nextGrant.Some? && x.nextGrant.value <= today
    ensures |r| <= |rows|
  {
    if |rows| == 0 then []
    else
      var rest := DueRows(rows[1..], today);
      if rows[0].nextGrant.Some? && rows[0].nextGrant.value <= today then [rows[0]] + rest else rest
  }

  /** `profiles?.plan || 'free'`. */
  function PlanOf(row: DueRow): string
  {
    if row.plan == "" then "free" else row.plan
  }

  /** The job's own credit table, as written: `free` 250, `starter` 2000, `pro` 5000,
      `premium` 10000, anything else 250. */
  function CycleCredits(plan: string): (r: nat)
    ensures r in {250, 2000, 5000, 10000}
  {
    if plan == "free" then 250
    else if plan == "starter" then 2000
    else if plan == "pro" then 5000
    else if plan == "premium" then 10000
    else 250
  }

  /** The table disagrees with the plans' monthly credits: a `pro` user is reset to
      5000 instead of 7000 and a `business` user to 250 instead of 20000. */
  lemma CycleCreditsMismatch()
    ensures PlanChange.PlanCredits("pro") == Some(7000) && CycleCredits("pro") == 5000
    ensures PlanChange.PlanCredits("business") == Some(20000) && CycleCredits("business") == 250
  {
  }

  /** The evidently intended table: the plan's monthly credits, 250 for an unknown
      plan. */
  function CycleCreditsCorrected(plan: string): (r: nat)
  {
    match PlanChange.PlanCredits(plan)
    case Some(c) => c
    case None => 250
  }

  /** The corrected reset grants every known plan exactly its monthly credits, never
      less than the free plan's 250, and more for a dearer paid plan. */
  lemma CycleCreditsCorrectedAgrees(plan: string, other: string)
    ensures PlanChange.PlanCredits(plan).Some? ==> CycleCreditsCorrected(plan) == PlanChange.PlanCredits(plan).value
    ensures CycleCreditsCorrected(plan) >= 250
    ensures PlanChange.IsPaid(plan) && PlanChange.IsPaid(other) && PlanChange.PlanPrice(plan) < PlanChange.PlanPrice(other) ==>
              CycleCreditsCorrected(plan) < CycleCreditsCorrected(other)
  {
    if PlanChange.IsPaid(plan) && PlanChange.IsPaid(other) {
      PlanChange.PlanTablesAgree(plan, other);
    }
  }

  /** The date the cycle is counted from: the row's cycle start, else the sign-up date
      for the free plan, else the last payment, the subscription start or the sign-up
      date. A missing date column reads as the epoch (0); only a row without its
      profile at all has no date, and then `new Date(undefined)` is invalid and the
      row throws. */
  function Base(row: DueRow): Option<int>
  {
    if row.cycleStart.Some? then row.cycleStart
    else if PlanOf(row) == "free" then row.createdAt
    else if row.lastPayment.Some? then row.lastPayment
    else if row.subscriptionStart.Some? then row.subscriptionStart
    else row.createdAt
  }

  /** One entry of `details`. */
  datatype Detail = Detail(userId: string, plan: string, oldBalance: nat, newBalance: nat,
                           newCycleStart: int, nextGrant: int)

  datatype Reply = Unauthorized | QueryFailed | Done(resetCount: nat, details: seq<Detail>)

  /** The credits update of one reset. */
  function Reset(c: Credit, amount: nat, start: int, next: int, now: int): Credit
  {
    c.(balance := amount, monthlyGrant := amount, cycleStart := Some(start), nextGrant := Some(next), lastGrantAt := Some(now))
  }

  /** One turn of the loop; `updateOk` is whether the update succeeded. */
  function ResetOne(credits: map<string, Credit>, row: DueRow, today: int, now: int, updateOk: bool)
    : (map<string, Credit>, Option<Detail>)
  {
    var base := Base(row);
    if base.None? || !updateOk then (credits, None)
    else
      var next := NextCycle(base.value, today, 30);
      var amount := CycleCredits(PlanOf(row));
      var u := row.userId;
      (if u in credits then credits[u := Reset(credits[u], amount, next - 30, next, now)] else credits,
       Some(Detail(u, PlanOf(row), row.balance, amount, next - 30, next)))
  }

  /** The loop over the due rows: the credits and the `details` list. */
  function ResetAll(credits: map<string, Credit>, due: seq<DueRow>, today: int, now: int, updateOk: nat -> bool)
    : (map<string, Credit>, seq<Detail>)
  {
    if |due| == 0 then (credits, [])
    else
      var (c, ds) := ResetAll(credits, due[..|due| - 1], today, now, updateOk);
      var (c', d) := ResetOne(c, due[|due| - 1], today, now, updateOk(|due| - 1));
      (c', if d.Some? then ds + [d.value] else ds)
  }

  /** A reset leaves every other user's credits alone; the user's row, if present,
      holds the plan's credits as balance and grant, a next grant date after today and
      a cycle start 30 days before it, and the detail records the same. */
  lemma ResetOneEffect(credits: map<string, Credit>, row: DueRow, today: int, now: int, updateOk: bool)
    ensures var (c, d) := ResetOne(credits, row, today, now, updateOk);
      c.Keys == credits.Keys
      && (forall v :: v in credits && v != row.userId ==> c[v] == credits[v])
      && (d.None? <==> Base(row).None? || !updateOk)
      && (d.None? ==> c == credits)
      && (d.Some? ==>
            d.value.userId == row.userId && d.value.oldBalance == row.balance
            && d.value.newBalance == CycleCredits(PlanOf(row))
            && today < d.value.nextGrant && d.value.newCycleStart == d.value.nextGrant - 30
            && (row.userId in c ==> c[row.userId].balance == d.value.newBalance
                                    && c[row.userId].monthlyGrant == d.value.newBalance
                                    && c[row.userId].nextGrant == Some(d.value.nextGrant)
                                    && c[row.userId].cycleStart == Some(d.value.newCycleStart)))
  {
    if Base(row).Some? {
      NextCycleBounds(Base(row).value, today, 30);
    }
  }

  /** At most one detail per due row, each for a due user, with a next grant date
      after today. */
  lemma {:induction false} ResetAllDetails(credits: map<string, Credit>, due: seq<DueRow>, today: int, now: int,
                                           updateOk: nat -> bool)
    ensures var (c, ds) := ResetAll(credits, due, today, now, updateOk);
      |ds| <= |due| && c.Keys == credits.Keys
      && forall i :: 0 <= i < |ds| ==>
           today < ds[i].nextGrant && exists j :: 0 <= j < |due| && due[j].userId == ds[i].userId
  {
    if |due| > 0 {
      var init := due[..|due| - 1];
      ResetAllDetails(credits, init, today, now, updateOk);
      var (c, ds) := ResetAll(credits, init, today, now, updateOk);
      ResetOneEffect(c, due[|due| - 1], today, now, updateOk(|due| - 1));
      var (c', ds') := ResetAll(credits, due, today, now, updateOk);
      forall i | 0 <= i < |ds'|
        ensures today < ds'[i].nextGrant && exists j :: 0 <= j < |due| && due[j].userId == ds'[i].userId
      {
        if i < |ds| {
          var j :| 0 <= j < |init| && init[j].userId == ds[i].userId;
          assert due[j] == init[j];
        } else {
          assert due[|due| - 1].userId == ds'[i].userId;
        }
      }
    }
  }

  /** `POST`. `authorized` is whether the bearer token matches the cron secret;
      `rows` is the joined table, none when the query failed. */
  method ResetCycles(credits: map<string, Credit>, authorized: bool, rows: Option<seq<DueRow>>,
                     today: int, now: int, updateOk: nat -> bool)
    returns (credits': map<string, Credit>, reply: Reply)
    ensures !authorized ==> credits' == credits && reply == Unauthorized
    ensures authorized && rows.None? ==> credits' == credits && reply == QueryFailed
    ensures authorized && rows.Some? ==>
              var (c, ds) := ResetAll(credits, DueRows(rows.value, today), today, now, updateOk);
              credits' == c && reply == Done(|ds|, ds)
  {
    credits' := credits;
    if !authorized {
      return credits', Unauthorized;
    }
    if rows.None? {
      return credits', QueryFailed;
    }
    var due := DueRows(rows.value, today);
    if |due| == 0 {
      return credits', Done(0, []);
    }
    var resetCount := 0;
    var details: seq<Detail> := [];
    for i := 0 to |due|
      invariant (credits', details) == ResetAll(credits, due[..i], today, now, updateOk)
      invariant resetCount == |details|
    {
      assert due[..i + 1][..i] == due[..i];
      var row := due[i];
      var base := Base(row);
      if base.None? {
        continue;
      }
      var start, next := AdvanceCycle(base.value, today, 30);
      var amount := CycleCredits(PlanOf(row));
      if !updateOk(i) {
        continue;
      }
      if row.userId in credits' {
        credits' := credits'[row.userId := Reset(credits'[row.userId], amount, start, next, now)];
      }
      resetCount := resetCount + 1;
      details := details + [Detail(row.userId, PlanOf(row), row.balance, amount, start, next)];
    }
    assert due[..|due|] == due;
    reply := Done(resetCount, details);
  }
}
