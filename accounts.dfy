/** The account tables the billing routes read and write: `subscriptions`,
    `profiles` and `credits`, each a map from user id to its row. A Supabase
    `update ... eq('user_id', u)` on a user without a row changes nothing, which the
    update helpers below keep. Times are integers (milliseconds in the payment
    routes, days in the grant-cycle job). */
module Accounts {
  import opened Wrappers

  datatype Sub = Sub(plan: string, status: string, billingKey: Option<string>, renewedAt: int, nextChargeAt: Option<int>)

  datatype Profile = Profile(plan: string, createdAt: Option<int>)

  datatype Credit = Credit(balance: nat, reserved: nat, monthlyGrant: nat, lastGrantAt: Option<int>,
                           cycleStart: Option<int>, nextGrant: Option<int>)

  datatype Store = Store(subs: map<string, Sub>, profiles: map<string, Profile>, credits: map<string, Credit>)

  /** `profiles.update({ plan })` for one user. */
  function SetProfilePlan(profiles: map<string, Profile>, user: string, plan: string): (r: map<string, Profile>)
    ensures r.Keys == profiles.Keys
    ensures user in r ==> r[user].plan == plan
    ensures forall u :: u in r && u != user ==> r[u] == profiles[u]
  {
    if user in profiles then profiles[user := profiles[user].(plan := plan)] else profiles
  }

  /** `credits.update(...)` for one user: the row, if there is one, becomes `c`. */
  function UpdateCredit(credits: map<string, Credit>, user: string, c: Credit): (r: map<string, Credit>)
    ensures r.Keys == credits.Keys
    ensures user in r ==> r[user] == c
    ensures forall u :: u in r && u != user ==> r[u] == credits[u]
  {
    if user in credits then credits[user := c] else credits
  }

  /** The free-plan credits every downgrade writes: balance and grant 250, granted
      now, the rest of the row kept. */
  function FreeCredit(c: Credit, now: int): Credit
  {
    c.(balance := 250, monthlyGrant := 250, lastGrantAt := Some(now))
  }

  /** The credits row written for the free plan, with its new cycle. */
  function FreeCycleCredit(c: Credit, now: int, start: int, next: int): Credit
  {
    c.(balance := 250, monthlyGrant := 250, lastGrantAt := Some(now), cycleStart := Some(start), nextGrant := Some(next))
  }

  /** Only `user`'s rows differ between two stores. */
  predicate OthersUnchanged(a: Store, b: Store, user: string)
  {
    a.subs.Keys == b.subs.Keys && a.profiles.Keys == b.profiles.Keys && a.credits.Keys == b.credits.Keys
    && (forall u :: u in a.subs && u != user ==> b.subs[u] == a.subs[u])
    && (forall u :: u in a.profiles && u != user ==> b.profiles[u] == a.profiles[u])
    && (forall u :: u in a.credits && u != user ==> b.credits[u] == a.credits[u])
  }
}
