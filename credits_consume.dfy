/** The reserve / commit / rollback endpoint of the credit ledger
    (app/api/credits/consume/route.ts): a user's `balance` and `reserved` credits are
    read, adjusted in three optional steps and written back in one update. The
    `credits` table is a map from user id to its row; a missing column counts as 0. */
module CreditsConsume {
  import opened Wrappers

  datatype Account = Account(balance: nat, reserved: nat)

  /** The JSON reply: the new values, or an error with its HTTP status. */
  datatype Reply = Values(balance: nat, reserved: nat) | Error(status: nat, error: string)

  /** The three steps on one row; a zero amount skips its step. */
  function Adjust(a: Account, reserve: nat, commit: nat, rollback: nat): (r: Result<Account, Reply>)
    ensures r.Success? ==>
      r.value.balance + r.value.reserved + commit == a.balance + a.reserved
      && r.value.reserved <= a.reserved + reserve - commit
    ensures r.Failure? ==> r.error.Error?
  {
    if reserve > 0 && a.balance < reserve then Failure(Error(402, "Insufficient"))
    else
      var balance := a.balance - reserve;
      var reserved := a.reserved + reserve;
      if commit > 0 && reserved < commit then Failure(Error(400, "BadCommit"))
      else
        var reserved' := reserved - commit;
        var giveBack := if reserved' < rollback then reserved' else rollback;
        Success(Account(balance + giveBack, reserved' - giveBack))
  }

  /** When each step is refused, and what each step does on its own: reserve moves
      credits from the balance to the reservation, commit spends reserved credits
      only, rollback returns at most what is reserved. */
  lemma AdjustCases(a: Account, reserve: nat, commit: nat, rollback: nat)
    ensures Adjust(a, reserve, commit, rollback) == Failure(Error(402, "Insufficient")) <==>
              reserve > 0 && a.balance < reserve
    ensures Adjust(a, reserve, commit, rollback) == Failure(Error(400, "BadCommit")) <==>
              !(reserve > 0 && a.balance < reserve) && commit > 0 && a.reserved + reserve < commit
    ensures commit == 0 && rollback == 0 && a.balance >= reserve ==>
              Adjust(a, reserve, 0, 0) == Success(Account(a.balance - reserve, a.reserved + reserve))
    ensures reserve == 0 && rollback == 0 && a.reserved >= commit ==>
              Adjust(a, 0, commit, 0) == Success(Account(a.balance, a.reserved - commit))
    ensures reserve == 0 && commit == 0 ==>
              var back := if a.reserved < rollback then a.reserved else rollback;
              Adjust(a, 0, 0, rollback) == Success(Account(a.balance + back, a.reserved - back))
  {
  }

  /** The request body after validation: a malformed body (bad JSON, a user id that
      is not a UUID, a negative or fractional amount) is `None`. */
  datatype Body = Body(userId: string, reserve: nat, commit: nat, rollback: nat)

  /** Credits held by one user, balance and reservation together. */
  function Total(table: map<string, Account>, user: string): nat
  {
    if user in table then table[user].balance + table[user].reserved else 0
  }

  /** `POST`, with the arithmetic done on local variables as the route does. */
  method Post(table: map<string, Account>, body: Option<Body>) returns (table': map<string, Account>, reply: Reply)
    ensures body.None? ==> table' == table && reply == Error(400, "BadRequest")
    ensures body.Some? && body.value.userId !in table ==> table' == table && reply == Error(404, "NotFound")
    ensures body.Some? && body.value.userId in table ==>
      match Adjust(table[body.value.userId], body.value.reserve, body.value.commit, body.value.rollback)
      case Failure(e) => table' == table && reply == e
      case Success(a) => table' == table[body.value.userId := a] && reply == Values(a.balance, a.reserved)
    ensures table'.Keys == table.Keys
    ensures reply.Values? ==> body.Some? && Total(table', body.value.userId) + body.value.commit == Total(table, body.value.userId)
    ensures reply.Error? ==> table' == table
  {
    table' := table;
    if body.None? {
      return table', Error(400, "BadRequest");
    }
    var data := body.value;
    if data.userId !in table {
      return table', Error(404, "NotFound");
    }
    var row := table[data.userId];
    var balance := row.balance;
    var reserved := row.reserved;
    if data.reserve > 0 {
      if balance < data.reserve {
        return table', Error(402, "Insufficient");
      }
      balance := balance - data.reserve;
      reserved := reserved + data.reserve;
    }
    if data.commit > 0 {
      if reserved < data.commit {
        return table', Error(400, "BadCommit");
      }
      reserved := reserved - data.commit;
    }
    if data.rollback > 0 {
      var giveBack := if reserved < data.rollback then reserved else data.rollback;
      reserved := reserved - giveBack;
      balance := balance + giveBack;
    }
    table' := table[data.userId := Account(balance, reserved)];
    reply := Values(balance, reserved);
  }
}
