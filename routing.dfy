/**
 * The routing records a withdrawal is sent through: the account's own financial-institution
 * account and the company's settlement account, each looked up by its conditions.
 */
module Routing {
  import opened Wrappers
  import opened Validation
  import opened Orm
  import opened Ledger
  import Keys

  /** A load by conditions reports ENTITY_NOT_FOUND without arguments. */
  function NoMatch(): (f: Failure)
    ensures f.Invalid? && f.cause.Message() == Keys.EntityNotFound
  {
    Invalid(OfMessage(Keys.EntityNotFound, []))
  }

  predicate IsFiAccountOf(a: FiAccount, accountId: string, category: string, currency: string) {
    a.accountId == accountId && a.category == category && a.currency == currency
  }

  /** `FiAccount.load`: the account's routing record for a category and currency. */
  method LoadFiAccount(rows: map<string, FiAccount>, accountId: string, category: string, currency: string)
    returns (r: Result<FiAccount, Failure>)
    ensures r.Success? <==> exists id :: id in rows && IsFiAccountOf(rows[id], accountId, category, currency)
    ensures r.Success? ==> r.value in rows.Values && IsFiAccountOf(r.value, accountId, category, currency)
    ensures r.Failure? ==> r.error == NoMatch()
  {
    var matches := set id | id in rows && IsFiAccountOf(rows[id], accountId, category, currency);
    if matches == {} {
      assert forall id :: id in rows && IsFiAccountOf(rows[id], accountId, category, currency) ==> id in matches;
      return Failure(NoMatch());
    }
    var id :| id in matches;
    return Success(rows[id]);
  }

  predicate IsSelfFiAccountFor(a: SelfFiAccount, category: string, currency: string) {
    a.category == category && a.currency == currency
  }

  /** `SelfFiAccount.load`: the company's settlement record for a category and currency. */
  method LoadSelfFiAccount(rows: map<string, SelfFiAccount>, category: string, currency: string)
    returns (r: Result<SelfFiAccount, Failure>)
    ensures r.Success? <==> exists id :: id in rows && IsSelfFiAccountFor(rows[id], category, currency)
    ensures r.Success? ==> r.value in rows.Values && IsSelfFiAccountFor(r.value, category, currency)
    ensures r.Failure? ==> r.error == NoMatch()
  {
    var matches := set id | id in rows && IsSelfFiAccountFor(rows[id], category, currency);
    if matches == {} {
      assert forall id :: id in rows && IsSelfFiAccountFor(rows[id], category, currency) ==> id in matches;
      return Failure(NoMatch());
    }
    var id :| id in matches;
    return Success(rows[id]);
  }
}
