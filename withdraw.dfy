/**
 * `CashInOut.withdraw`: a withdrawal request, screened in a fixed order — the requester owns
 * the account, the amount is positive, the projection allows it — then routed and saved.
 */
module Withdrawals {
  import opened Wrappers
  import opened TimePoints
  import opened ActionStatus
  import opened Timestamping
  import opened Uid
  import opened Validation
  import opened Validators
  import Warnings
  import opened Orm
  import opened Ledger
  import opened Routing
  import opened Assets
  import opened CashInOuts
  import Keys

  /** The routing records a withdrawal of `p` goes through exist. */
  predicate Routable(fiAccounts: map<string, FiAccount>, selfFiAccounts: map<string, SelfFiAccount>, p: RegCashOut) {
    && (exists id :: id in fiAccounts && IsFiAccountOf(fiAccounts[id], p.accountId, Keys.CashOut, p.currency))
    && (exists id :: id in selfFiAccounts && IsSelfFiAccountFor(selfFiAccounts[id], Keys.CashOut, p.currency))
  }

  /**
   * The tail of a withdrawal: looks up the routing records, creates the request under `id`
   * and saves it; a missing record or a taken identifier fails and saves nothing.
   */
  method Save(rep: Repository, p: RegCashOut, id: string, today: Day, eventDay: Day, valueDay: Day)
    returns (r: Result<CashInOut, Failure>)
    requires rep.Valid()
    modifies rep
    ensures rep.Valid()
    ensures r.Success? <==> Routable(rep.fiAccounts, rep.selfFiAccounts, p) && id !in old(rep.cashInOuts)
    ensures r.Failure? ==> rep.cashInOuts == old(rep.cashInOuts)
    ensures r.Success? ==>
      && r.value.id == id
      && rep.cashInOuts == old(rep.cashInOuts)[id := r.value]
      && (exists acc, selfAcc ::
           && acc in rep.fiAccounts.Values && IsFiAccountOf(acc, p.accountId, Keys.CashOut, p.currency)
           && selfAcc in rep.selfFiAccounts.Values && IsSelfFiAccountFor(selfAcc, Keys.CashOut, p.currency)
           && r.value == Create(p, today, id, eventDay, valueDay, acc, selfAcc, rep.actorId))
    ensures rep.balances == old(rep.balances) && rep.cashflows == old(rep.cashflows)
    ensures rep.accounts == old(rep.accounts) && rep.fiAccounts == old(rep.fiAccounts)
    ensures rep.selfFiAccounts == old(rep.selfFiAccounts)
  {
    var acc := LoadFiAccount(rep.fiAccounts, p.accountId, Keys.CashOut, p.currency);
    if acc.Failure? {
      return Failure(acc.error);
    }
    var selfAcc := LoadSelfFiAccount(rep.selfFiAccounts, Keys.CashOut, p.currency);
    if selfAcc.Failure? {
      return Failure(selfAcc.error);
    }
    var cio := Create(p, today, id, eventDay, valueDay, acc.value, selfAcc.value, rep.actorId);
    var saved := Insert(rep.cashInOuts, id, cio);
    if saved.Failure? {
      return Failure(saved.error);
    }
    rep.cashInOuts := saved.value;
    r := Success(cio);
  }

  /**
   * The first failing check decides the error: a foreign account is ENTITY_NOT_FOUND on
   * `accountId`, a zero or negative amount and then an amount over the projection are errors
   * on `absAmount`. A request that passes is saved UNPROCESSED under the next CashInOut
   * identifier, requested and due today, settling three days later.
   */
  method Withdraw(rep: Repository, p: RegCashOut) returns (r: Result<CashInOut, Failure>)
    requires rep.Valid()
    modifies rep, rep.uid
    ensures rep.Valid()
    ensures rep.actorId != p.accountId ==>
      && r == Failure(Invalid(Validation.OfField("accountId", Keys.EntityNotFound, [])))
      && rep.balances == old(rep.balances) && rep.uid.values == old(rep.uid.values)
    ensures rep.actorId == p.accountId && p.absAmount <= 0.0 ==>
      && r == Failure(Invalid(Validation.OfField("absAmount", Keys.AbsAmountZero, [])))
      && rep.balances == old(rep.balances) && rep.uid.values == old(rep.uid.values)
    ensures rep.actorId == p.accountId && 0.0 < p.absAmount ==>
      exists ok :: (
        && Projected(old(rep.balances), rep.balances, old(rep.cashflows), old(rep.cashInOuts),
             p.accountId, p.currency, rep.time.Day(), p.absAmount, rep.time.DayPlus(3), ok)
        && (!ok ==> r == Failure(Invalid(Validation.OfField("absAmount", Keys.CioWithdrawalAmount, [])))
                    && rep.uid.values == old(rep.uid.values))
        && (ok ==> rep.uid.values == old(rep.uid.values)[CashInOutKey := Increment(old(rep.uid.CounterOf(CashInOutKey)))])
        && (ok ==> (r.Success? <==> Routable(rep.fiAccounts, rep.selfFiAccounts, p) && FormatCashInOut(rep.uid.values[CashInOutKey]) !in old(rep.cashInOuts))))
    ensures r.Failure? ==> rep.cashInOuts == old(rep.cashInOuts)
    ensures r.Success? ==>
      && r.value.id == FormatCashInOut(rep.uid.values[CashInOutKey])
      && r.value.id !in old(rep.cashInOuts)
      && rep.cashInOuts == old(rep.cashInOuts)[r.value.id := r.value]
      && (exists acc, selfAcc ::
           && acc in rep.fiAccounts.Values && IsFiAccountOf(acc, p.accountId, Keys.CashOut, p.currency)
           && selfAcc in rep.selfFiAccounts.Values && IsSelfFiAccountFor(selfAcc, Keys.CashOut, p.currency)
           && r.value == Create(p, rep.time.Day(), r.value.id, rep.time.Day(), rep.time.DayPlus(3), acc, selfAcc, rep.actorId))
    ensures rep.cashflows == old(rep.cashflows)
    ensures rep.accounts == old(rep.accounts) && rep.fiAccounts == old(rep.fiAccounts)
    ensures rep.selfFiAccounts == old(rep.selfFiAccounts)
  {
    var now := rep.time.Tp();
    var eventDay := now.day;
    var valueDay := rep.time.DayPlus(3);
    var v := new Validator();
    var checked := v.VerifyField(rep.actorId == p.accountId, "accountId", Keys.EntityNotFound);
    if checked.Fail? {
      assert checked.error.warns.errors == [Warnings.OfField("accountId", Keys.EntityNotFound, [])];
      return Failure(Invalid(checked.error));
    }
    checked := v.VerifyField(0.0 < p.absAmount, "absAmount", Keys.AbsAmountZero);
    if checked.Fail? {
      assert checked.error.warns.errors == [Warnings.OfField("absAmount", Keys.AbsAmountZero, [])];
      return Failure(Invalid(checked.error));
    }
    var ok := CanWithdraw(rep, p.accountId, p.currency, p.absAmount, valueDay);
    assert Projected(old(rep.balances), rep.balances, old(rep.cashflows), old(rep.cashInOuts),
      p.accountId, p.currency, rep.time.Day(), p.absAmount, rep.time.DayPlus(3), ok);
    checked := v.VerifyField(ok, "absAmount", Keys.CioWithdrawalAmount);
    if checked.Fail? {
      assert checked.error.warns.errors == [Warnings.OfField("absAmount", Keys.CioWithdrawalAmount, [])];
      assert checked.error == Validation.OfField("absAmount", Keys.CioWithdrawalAmount, []);
      assert rep.uid.values == old(rep.uid.values);
      assert Projected(old(rep.balances), rep.balances, old(rep.cashflows), old(rep.cashInOuts),
        p.accountId, p.currency, rep.time.Day(), p.absAmount, rep.time.DayPlus(3), ok);
      return Failure(Invalid(checked.error));
    }
    var id := rep.uid.Generate(CashInOutKey, rep.cashInOuts.Keys);
    r := Save(rep, p, id, now.day, eventDay, valueDay);
    assert Projected(old(rep.balances), rep.balances, old(rep.cashflows), old(rep.cashInOuts),
      p.accountId, p.currency, rep.time.Day(), p.absAmount, rep.time.DayPlus(3), ok);
  }
}
