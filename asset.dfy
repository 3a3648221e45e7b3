/**
 * The asset of an account: the withdrawal projection, which adds to today's balance every
 * cashflow not yet realized by a value day and takes off every pending withdrawal and the
 * amount requested.
 */
module Assets {
  import opened Wrappers
  import opened Decimals
  import opened Calculators
  import opened TimePoints
  import opened ActionStatus
  import opened Ledger
  import CashBalances
  import Cashflows
  import CashInOuts

  /** The sum of `f` over the rows of `ids`. */
  ghost function SumOf<T>(rows: map<string, T>, ids: set<string>, f: T -> real): real
    requires ids <= rows.Keys
    decreases ids
  {
    if ids == {} then 0.0
    else
      var id :| id in ids;
      f(rows[id]) + SumOf(rows, ids - {id}, f)
  }

  /** The sum does not depend on which row is taken first. */
  lemma {:induction false} SumOfRemove<T>(rows: map<string, T>, ids: set<string>, f: T -> real, x: string)
    requires ids <= rows.Keys && x in ids
    ensures SumOf(rows, ids, f) == f(rows[x]) + SumOf(rows, ids - {x}, f)
    decreases ids
  {
    var id :| id in ids && SumOf(rows, ids, f) == f(rows[id]) + SumOf(rows, ids - {id}, f);
    if id != x {
      SumOfRemove(rows, ids - {id}, f, x);
      SumOfRemove(rows, ids - {x}, f, id);
      assert ids - {id} - {x} == ids - {x} - {id};
    }
  }

  function CashflowAmount(cf: Cashflow): real { cf.amount }

  function RequestAmount(cio: CashInOut): real { cio.absAmount }

  /** The projected balance for `absAmount` by `valueDay`, from a balance of `balance`. */
  ghost function Projection(balance: real, cashflows: map<string, Cashflow>, cashInOuts: map<string, CashInOut>,
                            accountId: string, currency: string, absAmount: real, valueDay: Day): real
  {
    balance
      + SumOf(cashflows, Cashflows.FindUnrealize(cashflows, accountId, currency, valueDay), CashflowAmount)
      - SumOf(cashInOuts, CashInOuts.UnprocessedOf(cashInOuts, accountId, currency, true), RequestAmount)
      - absAmount
  }

  /**
   * `ok` is the answer of the projection for `absAmount` by `valueDay` on `day`, and `after` is
   * `before` with the day's balance row (found or newly carried forward) stored.
   */
  ghost predicate Projected(before: map<string, CashBalance>, after: map<string, CashBalance>,
                            cashflows: map<string, Cashflow>, cashInOuts: map<string, CashInOut>,
                            accountId: string, currency: string, day: Day, absAmount: real, valueDay: Day, ok: bool) {
    exists b :: (
      && CashBalances.DayRow(before, accountId, currency, day, b)
      && after == before[b.id := b]
      && (ok <==> -1.0 < Projection(b.amount, cashflows, cashInOuts, accountId, currency, absAmount, valueDay)))
  }

  /** The first loop of `canWithdraw`: adds the amount of every cashflow of `ids`. */
  method AddAll(calculator: Calculator, cashflows: map<string, Cashflow>, ids: set<string>)
    requires ids <= cashflows.Keys && !calculator.roundingAlways
    modifies calculator
    ensures calculator.value == old(calculator.value) + SumOf(cashflows, ids, CashflowAmount)
    ensures calculator.scale == old(calculator.scale) && calculator.mode == old(calculator.mode)
    ensures !calculator.roundingAlways
  {
    var rest := ids;
    while rest != {}
      invariant rest <= ids && !calculator.roundingAlways
      invariant calculator.scale == old(calculator.scale) && calculator.mode == old(calculator.mode)
      invariant calculator.value + SumOf(cashflows, rest, CashflowAmount)
        == old(calculator.value) + SumOf(cashflows, ids, CashflowAmount)
      decreases rest
    {
      var id :| id in rest;
      SumOfRemove(cashflows, rest, CashflowAmount, id);
      calculator.Add(cashflows[id].amount);
      rest := rest - {id};
    }
  }

  /** The second loop of `canWithdraw`: takes off the amount of every request of `ids`. */
  method SubtractAll(calculator: Calculator, cashInOuts: map<string, CashInOut>, ids: set<string>)
    requires ids <= cashInOuts.Keys && !calculator.roundingAlways
    modifies calculator
    ensures calculator.value == old(calculator.value) - SumOf(cashInOuts, ids, RequestAmount)
    ensures calculator.scale == old(calculator.scale) && calculator.mode == old(calculator.mode)
    ensures !calculator.roundingAlways
  {
    var rest := ids;
    while rest != {}
      invariant rest <= ids && !calculator.roundingAlways
      invariant calculator.scale == old(calculator.scale) && calculator.mode == old(calculator.mode)
      invariant calculator.value - SumOf(cashInOuts, rest, RequestAmount)
        == old(calculator.value) - SumOf(cashInOuts, ids, RequestAmount)
      decreases rest
    {
      var id :| id in rest;
      SumOfRemove(cashInOuts, rest, RequestAmount, id);
      calculator.Add(-cashInOuts[id].absAmount);
      rest := rest - {id};
    }
  }

  /**
   * `canWithdraw`: the sign test on the projection as the calculator's default scale (0, DOWN)
   * leaves it, which accepts exactly projections above -1. The only write is the day's balance
   * row that `getOrNew` may insert.
   */
  method CanWithdraw(rep: Repository, accountId: string, currency: string, absAmount: real, valueDay: Day)
    returns (ok: bool)
    requires rep.Valid()
    modifies rep, rep.uid
    ensures rep.Valid()
    ensures Projected(old(rep.balances), rep.balances, rep.cashflows, rep.cashInOuts,
      accountId, currency, rep.time.Day(), absAmount, valueDay, ok)
    ensures rep.cashflows == old(rep.cashflows) && rep.cashInOuts == old(rep.cashInOuts)
    ensures rep.uid.values == old(rep.uid.values)
    ensures rep.accounts == old(rep.accounts) && rep.fiAccounts == old(rep.fiAccounts)
    ensures rep.selfFiAccounts == old(rep.selfFiAccounts)
  {
    ghost var before := rep.balances;
    var b := CashBalances.GetOrNew(rep, accountId, currency);
    assert rep.balances == before[b.id := b];
    var calculator := new Calculator.Init(b.amount);

    var unrealized := Cashflows.FindUnrealize(rep.cashflows, accountId, currency, valueDay);
    AddAll(calculator, rep.cashflows, unrealized);
    var pending := CashInOuts.UnprocessedOf(rep.cashInOuts, accountId, currency, true);
    SubtractAll(calculator, rep.cashInOuts, pending);
    calculator.Add(-absAmount);
    ghost var projection := Projection(b.amount, rep.cashflows, rep.cashInOuts, accountId, currency, absAmount, valueDay);
    assert calculator.value == projection;
    DownAtScaleZeroNonNegative(projection);
    ok := 0.0 <= calculator.Decimal();
  }

  /** A smaller request is authorized whenever a larger one is. */
  lemma WithdrawMonotone(balance: real, cashflows: map<string, Cashflow>, cashInOuts: map<string, CashInOut>,
                         accountId: string, currency: string, a: real, b: real, valueDay: Day)
    requires b <= a
    requires -1.0 < Projection(balance, cashflows, cashInOuts, accountId, currency, a, valueDay)
    ensures -1.0 < Projection(balance, cashflows, cashInOuts, accountId, currency, b, valueDay)
  {
  }

  /**
   * When every amount involved is whole (a currency without fraction digits), the test is a
   * plain "not negative".
   */
  lemma WholeAmountsTestSign(projection: real)
    requires IsIntegral(projection)
    ensures -1.0 < projection <==> 0.0 <= projection
  {
  }

  /** Two unrealized cashflows of the test account, +1000 by day 20 and -2000 by day 21. */
  function ScenarioCashflows(): map<string, Cashflow> {
    map[
      "cf1" := Cashflow("cf1", "test", "JPY", 1000.0, CashIn, "cashIn", 18, 20, Unprocessed, "dummy"),
      "cf2" := Cashflow("cf2", "test", "JPY", -2000.0, CashIn, "cashIn", 19, 21, Unprocessed, "dummy")]
  }

  /** One pending withdrawal of 8000. */
  function ScenarioRequests(): map<string, CashInOut> {
    map["1" := CashInOut("1", "test", "JPY", 8000.0, true, 18, 19, 21,
      "tFiCode", "tFiAccId", "sFiCode", "sFiAccId", Unprocessed, "dummy", None)]
  }

  /** From a balance of 10000 the projection by day 21 allows 1000 (exactly zero left) and refuses 1001. */
  lemma AssetScenario()
    ensures Projection(10000.0, ScenarioCashflows(), ScenarioRequests(), "test", "JPY", 1000.0, 21) == 0.0
    ensures -1.0 < Projection(10000.0, ScenarioCashflows(), ScenarioRequests(), "test", "JPY", 1000.0, 21)
    ensures !(-1.0 < Projection(10000.0, ScenarioCashflows(), ScenarioRequests(), "test", "JPY", 1001.0, 21))
  {
    var cfs, cios := ScenarioCashflows(), ScenarioRequests();
    var due := Cashflows.FindUnrealize(cfs, "test", "JPY", 21);
    assert due == {"cf1", "cf2"};
    SumOfRemove(cfs, due, CashflowAmount, "cf1");
    assert due - {"cf1"} == {"cf2"};
    SumOfRemove(cfs, {"cf2"}, CashflowAmount, "cf2");
    assert {"cf2"} - {"cf2"} == {};
    var pending := CashInOuts.UnprocessedOf(cios, "test", "JPY", true);
    assert pending == {"1"};
    SumOfRemove(cios, pending, RequestAmount, "1");
    assert pending - {"1"} == {};
  }

  /** One pending withdrawal of 300 in a two-digit currency. */
  function PendingThreeHundred(): map<string, CashInOut> {
    map["CIO1" := CashInOut("CIO1", "test", "USD", 300.0, true, 18, 18, 21,
      "cashOut-USD", "FItest", "cashOut-USD", "xxxxxx", Unprocessed, "test", None)]
  }

  /**
   * From a balance of 1000 with a pending 300: 700 is allowed and 701 refused; 700.5 is allowed
   * as well, because the test looks at the projection of -0.5 only after truncating it to 0.
   */
  lemma PendingWithdrawalScenario()
    ensures -1.0 < Projection(1000.0, map[], PendingThreeHundred(), "test", "USD", 700.0, 21)
    ensures !(-1.0 < Projection(1000.0, map[], PendingThreeHundred(), "test", "USD", 701.0, 21))
    ensures Projection(1000.0, map[], PendingThreeHundred(), "test", "USD", 700.5, 21) == -0.5
    ensures -1.0 < Projection(1000.0, map[], PendingThreeHundred(), "test", "USD", 700.5, 21)
  {
    var none: map<string, Cashflow> := map[];
    assert Cashflows.FindUnrealize(none, "test", "USD", 21) == {};
    var cios := PendingThreeHundred();
    var pending := CashInOuts.UnprocessedOf(cios, "test", "USD", true);
    assert pending == {"CIO1"};
    SumOfRemove(cios, pending, RequestAmount, "CIO1");
    assert pending - {"CIO1"} == {};
  }
}
