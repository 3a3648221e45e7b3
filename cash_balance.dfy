/**
 * Daily balance snapshots. `Add` changes the amount of a snapshot in place, truncating toward
 * zero at the currency's fraction digits; `GetOrNew` finds today's snapshot or appends one that
 * carries the latest amount forward.
 */
module CashBalances {
  import opened Decimals
  import opened Calculators
  import opened TimePoints
  import opened Timestamping
  import opened Uid
  import opened Orm
  import opened Ledger

  const Kind: string := "CashBalance"

  /** The amount after adding `delta`, truncated toward zero at `digits` fraction digits. */
  function Added(amount: real, delta: real, digits: int): real {
    SetScale(amount + delta, digits, Down)
  }

  /** The stored amount has `digits` fraction digits, and is the exact sum when that already fits. */
  lemma AddedFits(amount: real, delta: real, digits: int)
    ensures HasScale(Added(amount, delta, digits), digits)
    ensures HasScale(amount + delta, digits) ==> Added(amount, delta, digits) == amount + delta
  {
    SetScaleHasScale(amount + delta, digits, Down);
    if HasScale(amount + delta, digits) {
      SetScaleExact(amount + delta, digits, Down);
    }
  }

  /** The stored amount never exceeds the exact sum in magnitude and keeps its sign. */
  lemma AddedTowardZero(amount: real, delta: real, digits: int)
    ensures Abs(Added(amount, delta, digits)) <= Abs(amount + delta)
    ensures 0.0 <= amount + delta ==> 0.0 <= Added(amount, delta, digits)
    ensures amount + delta <= 0.0 ==> Added(amount, delta, digits) <= 0.0
  {
    SetScaleDownTowardZero(amount + delta, digits);
  }

  /** The stored amount is off the exact sum by less than one unit of its last digit. */
  lemma AddedWithinUnit(amount: real, delta: real, digits: int)
    ensures (amount + delta - Added(amount, delta, digits)) * Scaler(digits) < 1.0
    ensures (Added(amount, delta, digits) - (amount + delta)) * Scaler(digits) < 1.0
  {
    SetScaleError(amount + delta, digits, Down);
  }

  /** `CashBalance.add`: updates this very row with the new amount; nothing else changes. */
  method Add(rep: Repository, b: CashBalance, delta: real) returns (r: CashBalance)
    requires rep.Valid() && b.id in rep.balances
    modifies rep
    ensures rep.Valid()
    ensures r == b.(amount := Added(b.amount, delta, rep.fractionDigits(b.currency)))
    ensures rep.balances == old(rep.balances)[b.id := r]
    ensures rep.cashflows == old(rep.cashflows) && rep.cashInOuts == old(rep.cashInOuts)
    ensures rep.accounts == old(rep.accounts) && rep.fiAccounts == old(rep.fiAccounts)
    ensures rep.selfFiAccounts == old(rep.selfFiAccounts)
  {
    var digits := rep.fractionDigits(b.currency);
    var calculator := new Calculator.Init(b.amount);
    calculator.ScaleWith(digits, Down);
    calculator.Add(delta);
    var amount := calculator.Decimal();
    r := b.(amount := amount);
    rep.balances := rep.balances[b.id := r];
  }

  predicate IsOf(b: CashBalance, accountId: string, currency: string) {
    b.accountId == accountId && b.currency == currency
  }

  /** The snapshots of an account and currency, of every day. */
  function History(rows: map<string, CashBalance>, accountId: string, currency: string): (ids: set<string>)
    ensures ids <= rows.Keys
  {
    set id | id in rows && IsOf(rows[id], accountId, currency)
  }

  /** The snapshots of an account and currency for one base day. */
  function OfDay(rows: map<string, CashBalance>, accountId: string, currency: string, day: Day): (ids: set<string>)
    ensures ids <= History(rows, accountId, currency)
  {
    set id | id in rows && IsOf(rows[id], accountId, currency) && rows[id].baseDay == day
  }

  /** `id` is one of the rows of `ids` with the latest base day. */
  predicate IsLatest(rows: map<string, CashBalance>, ids: set<string>, id: string)
    requires ids <= rows.Keys
  {
    id in ids && forall q :: q in ids ==> rows[q].baseDay <= rows[id].baseDay
  }

  lemma {:induction false} LatestExists(rows: map<string, CashBalance>, ids: set<string>)
    requires ids <= rows.Keys && ids != {}
    ensures exists id :: IsLatest(rows, ids, id)
    decreases |ids|
  {
    var x :| x in ids;
    if ids != {x} {
      var rest := ids - {x};
      LatestExists(rows, rest);
      var m :| IsLatest(rows, rest, m);
      if rows[x].baseDay <= rows[m].baseDay {
        assert IsLatest(rows, ids, m);
      } else {
        assert IsLatest(rows, ids, x);
      }
    } else {
      assert IsLatest(rows, ids, x);
    }
  }

  /**
   * The amount a new snapshot starts from: that of a snapshot with the latest base day, or
   * zero when the account holds no balance in the currency at all.
   */
  ghost predicate CarriesForward(rows: map<string, CashBalance>, accountId: string, currency: string, amount: real) {
    var history := History(rows, accountId, currency);
    if history == {} then amount == 0.0
    else exists id :: IsLatest(rows, history, id) && rows[id].amount == amount
  }

  /**
   * `b` is a row `GetOrNew` may return on `day`: a stored row of that day, or, when there is
   * none, a row under a new identifier that carries the latest amount forward.
   */
  ghost predicate DayRow(before: map<string, CashBalance>, accountId: string, currency: string, day: Day, b: CashBalance) {
    && IsOf(b, accountId, currency) && b.baseDay == day
    && var today := OfDay(before, accountId, currency, day);
       || (b.id in today && before[b.id] == b)
       || (today == {} && b.id !in before && CarriesForward(before, accountId, currency, b.amount))
  }

  /** `after` is `before` with `delta` added to the day's row, as `getOrNew(...).add(delta)` leaves it. */
  ghost predicate Posted(before: map<string, CashBalance>, after: map<string, CashBalance>,
                         accountId: string, currency: string, day: Day, delta: real, digits: int) {
    exists b :: DayRow(before, accountId, currency, day, b) &&
      after == before[b.id := b.(amount := Added(b.amount, delta, digits))]
  }

  /** The private `create`: appends today's snapshot under a new identifier. */
  method Create(rep: Repository, accountId: string, currency: string) returns (b: CashBalance)
    requires rep.Valid()
    modifies rep, rep.uid
    ensures rep.Valid()
    ensures b.id !in old(rep.balances) && rep.balances == old(rep.balances)[b.id := b]
    ensures IsOf(b, accountId, currency) && b.baseDay == rep.time.Day()
    ensures CarriesForward(old(rep.balances), accountId, currency, b.amount)
    ensures rep.uid.values == old(rep.uid.values)
    ensures rep.cashflows == old(rep.cashflows) && rep.cashInOuts == old(rep.cashInOuts)
    ensures rep.accounts == old(rep.accounts) && rep.fiAccounts == old(rep.fiAccounts)
    ensures rep.selfFiAccounts == old(rep.selfFiAccounts)
  {
    var id := rep.uid.Generate(Kind, rep.balances.Keys);
    var now := rep.time.Tp();
    var history := History(rep.balances, accountId, currency);
    var amount := 0.0;
    if history != {} {
      LatestExists(rep.balances, history);
      var prev :| IsLatest(rep.balances, history, prev);
      amount := rep.balances[prev].amount;
    }
    b := CashBalance(id, accountId, now.day, currency, amount);
    var saved := Insert(rep.balances, id, b);
    rep.balances := saved.value;
  }

  /**
   * `CashBalance.getOrNew`: a stored snapshot of today when there is one (left as it is),
   * otherwise a newly appended one.
   */
  method GetOrNew(rep: Repository, accountId: string, currency: string) returns (b: CashBalance)
    requires rep.Valid()
    modifies rep, rep.uid
    ensures rep.Valid()
    ensures IsOf(b, accountId, currency) && b.baseDay == rep.time.Day()
    ensures DayRow(old(rep.balances), accountId, currency, rep.time.Day(), b)
    ensures b.id in rep.balances && rep.balances[b.id] == b
    ensures old(OfDay(rep.balances, accountId, currency, rep.time.Day())) != {} ==>
      rep.balances == old(rep.balances) && b.id in old(OfDay(rep.balances, accountId, currency, rep.time.Day()))
    ensures old(OfDay(rep.balances, accountId, currency, rep.time.Day())) == {} ==>
      && b.id !in old(rep.balances)
      && rep.balances == old(rep.balances)[b.id := b]
      && CarriesForward(old(rep.balances), accountId, currency, b.amount)
    ensures rep.uid.values == old(rep.uid.values)
    ensures rep.cashflows == old(rep.cashflows) && rep.cashInOuts == old(rep.cashInOuts)
    ensures rep.accounts == old(rep.accounts) && rep.fiAccounts == old(rep.fiAccounts)
    ensures rep.selfFiAccounts == old(rep.selfFiAccounts)
  {
    var baseDay := rep.time.Day();
    var today := OfDay(rep.balances, accountId, currency, baseDay);
    if today == {} {
      b := Create(rep, accountId, currency);
    } else {
      var id :| id in today;
      b := rep.balances[id];
    }
  }

  /** With at most one snapshot for today, a second `GetOrNew` returns what the first did and adds nothing. */
  method GetOrNewTwice(rep: Repository, accountId: string, currency: string) returns (first: CashBalance, second: CashBalance)
    requires rep.Valid() && |OfDay(rep.balances, accountId, currency, rep.time.Day())| <= 1
    modifies rep, rep.uid
    ensures rep.Valid()
    ensures second == first
    ensures rep.balances == old(rep.balances) || rep.balances == old(rep.balances)[first.id := first]
  {
    ghost var before := OfDay(rep.balances, accountId, currency, rep.time.Day());
    first := GetOrNew(rep, accountId, currency);
    ghost var after := OfDay(rep.balances, accountId, currency, rep.time.Day());
    assert first.id in after;
    if before == {} {
      assert after == {first.id};
    } else {
      assert after == before;
      assert |after - {first.id}| == 0;
    }
    second := GetOrNew(rep, accountId, currency);
  }

  /** 10.02 + 11.51 = 21.53; + 11.516 = 33.04 when truncated; - 41.51 = -8.47, in a two-digit currency. */
  lemma AddScenario()
    ensures Added(10.02, 11.51, 2) == 21.53
    ensures Added(21.53, 11.516, 2) == 33.04
    ensures Added(33.04, -41.51, 2) == -8.47
  {
    assert Scaler(2) == 100.0;
    WholeHasScale(2153, 2);
    WholeHasScale(-847, 2);
    FloorAt(3304.6, 3304);
  }
}
