/** Account lookups: by identifier, and restricted to accounts that have not withdrawn. */
module Accounts {
  import opened Wrappers
  import opened Validation
  import opened Orm
  import opened Ledger
  import Keys

  /** `AccountStatusType.inactive`: a withdrawn account is inactive. */
  predicate Inactive(s: AccountStatusType): (r: bool)
    ensures r <==> s != Normal
  {
    s == Withdrawal
  }

  /** `Account.load` */
  function Load(accounts: map<string, Account>, id: string): (r: Result<Account, Failure>)
    ensures r.Success? <==> id in accounts
    ensures r.Success? ==> r.value == accounts[id]
    ensures r.Failure? ==> r.error == NotFound(id)
  {
    Orm.Load(accounts, id)
  }

  /** `Account.loadActive`: the stored account unless it has withdrawn. */
  function LoadActive(accounts: map<string, Account>, id: string): (r: Result<Account, Failure>)
    ensures r.Success? <==> id in accounts && accounts[id].statusType == Normal
    ensures r.Success? ==> r.value == accounts[id]
    ensures id !in accounts ==> r == Failure(NotFound(id))
    ensures id in accounts && accounts[id].statusType == Withdrawal ==>
      && r == Failure(Invalid(OfMessage(Keys.AccountLoadActive, [])))
      && r.error.cause.Message() == Keys.AccountLoadActive
  {
    match Load(accounts, id)
    case Failure(e) => Failure(e)
    case Success(acc) =>
      if Inactive(acc.statusType) then Failure(Invalid(OfMessage(Keys.AccountLoadActive, [])))
      else Success(acc)
  }
}
