/**
 * The deposit and withdrawal request: its transitions (process, cancel, error), the cashflow
 * request a processed entry registers, and the list queries over the request table.
 */
module CashInOuts {
  import opened Wrappers
  import opened TimePoints
  import opened ActionStatus
  import opened Timestamping
  import opened Validation
  import opened Validators
  import opened Orm
  import opened Ledger
  import CashBalances
  import Cashflows
  import Keys

  /**
   * `regCf`: the cashflow a processed entry registers. A withdrawal is a negative CASH_OUT
   * with remark "cashOut", a deposit a positive CASH_IN with remark "cashIn"; the days are
   * copied.
   */
  function RegCf(cio: CashInOut): (p: RegCashflow)
    ensures p.accountId == cio.accountId && p.currency == cio.currency
    ensures cio.withdrawal ==> p.amount == -cio.absAmount && p.cashflowType == CashOut && p.remark == Keys.CashOut
    ensures !cio.withdrawal ==> p.amount == cio.absAmount && p.cashflowType == CashIn && p.remark == Keys.CashIn
    ensures p.eventDay == Some(cio.eventDay) && p.valueDay == cio.valueDay
  {
    var amount := if cio.withdrawal then -cio.absAmount else cio.absAmount;
    var cashflowType := if cio.withdrawal then CashOut else CashIn;
    var remark := if cio.withdrawal then Keys.CashOut else Keys.CashIn;
    RegCashflow(cio.accountId, cio.currency, amount, cashflowType, remark, Some(cio.eventDay), cio.valueDay)
  }

  /** For a positive request the cashflow's sign tells the direction and its size is the request's. */
  lemma RegCfSign(cio: CashInOut)
    requires 0.0 < cio.absAmount
    ensures RegCf(cio).amount < 0.0 <==> cio.withdrawal
    ensures RegCf(cio).amount < 0.0 <==> RegCf(cio).cashflowType == CashOut
    ensures (if RegCf(cio).amount < 0.0 then -RegCf(cio).amount else RegCf(cio).amount) == cio.absAmount
  {
  }

  /** The process block: the entry is still open, then its event day has come. */
  function ProcessGuards(cio: CashInOut, today: Day): seq<Guard> {
    [ Guard(IsUnprocessed(cio.statusType), None, Keys.StatusProcessing, true),
      Guard(TimePoints.Of(today).AfterEqualsDay(cio.eventDay), None, Keys.CioEventDayAfterEqualsDay, true) ]
  }

  /**
   * `process`: registers the entry's cashflow and marks the entry PROCESSED with that
   * cashflow's identifier. The status check comes first; a cashflow the register refuses
   * (a value day already past) fails the whole step.
   */
  method Process(rep: Repository, cio: CashInOut) returns (r: Result<CashInOut, Failure>)
    requires rep.Valid() && cio.id in rep.cashInOuts
    modifies rep, rep.uid
    ensures rep.Valid()
    ensures r.Success? <==>
      IsUnprocessed(cio.statusType) && cio.eventDay <= rep.time.Day() && rep.time.Day() <= cio.valueDay
    ensures !IsUnprocessed(cio.statusType) ==> r == Failure(Invalid(OfMessage(Keys.StatusProcessing, [])))
    ensures IsUnprocessed(cio.statusType) && rep.time.Day() < cio.eventDay ==>
      r == Failure(Invalid(OfMessage(Keys.CioEventDayAfterEqualsDay, [])))
    ensures IsUnprocessed(cio.statusType) && cio.eventDay <= rep.time.Day() && cio.valueDay < rep.time.Day() ==>
      r == Failure(Invalid(Validation.OfField("valueDay", Keys.CashflowBeforeEqualsDay, [])))
    ensures r.Failure? ==>
      rep.cashInOuts == old(rep.cashInOuts) && rep.cashflows == old(rep.cashflows) && rep.balances == old(rep.balances)
    ensures r.Success? ==>
      && r.value.cashflowId.Some?
      && r.value == cio.(statusType := Processed, updateActor := rep.actorId, cashflowId := r.value.cashflowId)
      && rep.cashInOuts == old(rep.cashInOuts)[cio.id := r.value]
      && var k := r.value.cashflowId.value;
         && k !in old(rep.cashflows) && k in rep.cashflows
         && rep.cashflows == old(rep.cashflows)[k := rep.cashflows[k]]
         && rep.cashflows[k] == Cashflows.Created(RegCf(cio), k, rep.time.Day(), rep.actorId).(
              statusType := if cio.valueDay <= rep.time.Day() then Processed else Unprocessed)
    ensures r.Success? && cio.valueDay <= rep.time.Day() ==>
      CashBalances.Posted(old(rep.balances), rep.balances, cio.accountId, cio.currency, rep.time.Day(),
                          RegCf(cio).amount, rep.fractionDigits(cio.currency))
    ensures r.Success? && rep.time.Day() < cio.valueDay ==> rep.balances == old(rep.balances)
    ensures rep.uid.values == old(rep.uid.values)
    ensures rep.accounts == old(rep.accounts) && rep.fiAccounts == old(rep.fiAccounts)
    ensures rep.selfFiAccounts == old(rep.selfFiAccounts)
  {
    var now := rep.time.Tp();
    var guards := ProcessGuards(cio, now.day);
    var checked := Validate(guards);
    VerifyPairDecides(guards[0], guards[1]);
    if checked.Fail? {
      return Failure(Invalid(checked.error));
    }
    var cf := Cashflows.Register(rep, RegCf(cio));
    if cf.Failure? {
      return Failure(cf.error);
    }
    var done := cio.(statusType := Processed, updateActor := rep.actorId, cashflowId := Some(cf.value.id));
    rep.cashInOuts := rep.cashInOuts[cio.id := done];
    r := Success(done);
  }

  /** The cancel block: the entry is waiting (UNPROCESSED or ERROR), then today is before its event day. */
  function CancelGuards(cio: CashInOut, today: Day): seq<Guard> {
    [ Guard(IsUnprocessing(cio.statusType), None, Keys.StatusProcessing, true),
      Guard(TimePoints.Of(today).BeforeDay(cio.eventDay), None, Keys.CioEventDayBeforeEqualsDay, true) ]
  }

  /** `cancel`: marks a waiting entry CANCELLED, which is possible only strictly before its event day. */
  method Cancel(rep: Repository, cio: CashInOut) returns (r: Result<CashInOut, Failure>)
    requires rep.Valid() && cio.id in rep.cashInOuts
    modifies rep
    ensures rep.Valid()
    ensures r.Success? <==> IsUnprocessing(cio.statusType) && rep.time.Day() < cio.eventDay
    ensures !IsUnprocessing(cio.statusType) ==> r == Failure(Invalid(OfMessage(Keys.StatusProcessing, [])))
    ensures IsUnprocessing(cio.statusType) && cio.eventDay <= rep.time.Day() ==>
      r == Failure(Invalid(OfMessage(Keys.CioEventDayBeforeEqualsDay, [])))
    ensures r.Failure? ==> rep.cashInOuts == old(rep.cashInOuts)
    ensures r.Success? ==>
      && r.value == cio.(statusType := Cancelled, updateActor := rep.actorId)
      && rep.cashInOuts == old(rep.cashInOuts)[cio.id := r.value]
    ensures rep.balances == old(rep.balances) && rep.cashflows == old(rep.cashflows)
    ensures rep.accounts == old(rep.accounts) && rep.fiAccounts == old(rep.fiAccounts)
    ensures rep.selfFiAccounts == old(rep.selfFiAccounts)
  {
    var now := rep.time.Tp();
    var guards := CancelGuards(cio, now.day);
    var checked := Validate(guards);
    VerifyPairDecides(guards[0], guards[1]);
    if checked.Fail? {
      return Failure(Invalid(checked.error));
    }
    var cancelled := cio.(statusType := Cancelled, updateActor := rep.actorId);
    rep.cashInOuts := rep.cashInOuts[cio.id := cancelled];
    r := Success(cancelled);
  }

  /** `error`: marks an entry of the unprocessed group (PROCESSING included) ERROR. */
  method Error(rep: Repository, cio: CashInOut) returns (r: Result<CashInOut, Failure>)
    requires rep.Valid() && cio.id in rep.cashInOuts
    modifies rep
    ensures rep.Valid()
    ensures r.Success? <==> IsUnprocessed(cio.statusType)
    ensures r.Failure? ==>
      r.error == Invalid(OfMessage(Keys.StatusProcessing, [])) && rep.cashInOuts == old(rep.cashInOuts)
    ensures r.Success? ==>
      && r.value == cio.(statusType := ActionStatusType.Error, updateActor := rep.actorId)
      && rep.cashInOuts == old(rep.cashInOuts)[cio.id := r.value]
    ensures rep.balances == old(rep.balances) && rep.cashflows == old(rep.cashflows)
    ensures rep.accounts == old(rep.accounts) && rep.fiAccounts == old(rep.fiAccounts)
    ensures rep.selfFiAccounts == old(rep.selfFiAccounts)
  {
    var g := Guard(IsUnprocessed(cio.statusType), None, Keys.StatusProcessing, true);
    var checked := Validate([g]);
    VerifyOneDecides(g);
    if checked.Fail? {
      return Failure(Invalid(checked.error));
    }
    var marked := cio.(statusType := ActionStatusType.Error, updateActor := rep.actorId);
    rep.cashInOuts := rep.cashInOuts[cio.id := marked];
    r := Success(marked);
  }

  /** The screening conditions of the request list; each absent (or empty) one is not applied. */
  datatype FindCashInOut = FindCashInOut(
    currency: Option<string>, statusTypes: Option<set<ActionStatusType>>,
    updFromDay: Option<Day>, updToDay: Option<Day>)

  /** `isUpdFromDay`: the day range, when both ends are given, is not inverted. */
  predicate IsUpdFromDay(p: FindCashInOut): (r: bool)
    ensures r <==> (p.updFromDay.Some? && p.updToDay.Some? ==> p.updFromDay.value <= p.updToDay.value)
  {
    if p.updFromDay.None? || p.updToDay.None? then true
    else p.updFromDay.value < p.updToDay.value || p.updFromDay.value == p.updToDay.value
  }

  /** One request passes the screening: currency, status set, and event day within the range. */
  predicate Matches(p: FindCashInOut, cio: CashInOut) {
    && (p.currency.Some? && p.currency.value != [] ==> cio.currency == p.currency.value)
    && (p.statusTypes.Some? && p.statusTypes.value != {} ==> cio.statusType in p.statusTypes.value)
    && (p.updFromDay.Some? ==> p.updFromDay.value <= cio.eventDay)
    && (p.updToDay.Some? ==> cio.eventDay <= p.updToDay.value)
  }

  /** `find`: the identifiers of the requests passing the screening. */
  function Find(rows: map<string, CashInOut>, p: FindCashInOut): (ids: set<string>)
    ensures ids <= rows.Keys
  {
    set id | id in rows && Matches(p, rows[id])
  }

  /** `isUpdFromDay` is the day-range order check, and an inverted range finds nothing. */
  lemma UpdFromDayGuardsFind(rows: map<string, CashInOut>, p: FindCashInOut)
    ensures IsUpdFromDay(p) <==> (p.updFromDay.Some? && p.updToDay.Some? ==> p.updFromDay.value <= p.updToDay.value)
    ensures !IsUpdFromDay(p) ==> Find(rows, p) == {}
  {
    if !IsUpdFromDay(p) {
      forall id | id in rows
        ensures !Matches(p, rows[id])
      {
      }
    }
  }

  /** Without conditions the list holds every request. */
  lemma FindUnfiltered(rows: map<string, CashInOut>)
    ensures Find(rows, FindCashInOut(None, None, None, None)) == rows.Keys
  {
  }

  /** A request is listed exactly when its own event day, not any update time, lies in the range. */
  lemma FindByEventDay(rows: map<string, CashInOut>, p: FindCashInOut, id: string)
    requires id in rows && p.currency.None? && p.statusTypes.None?
    requires p.updFromDay.Some? && p.updToDay.Some?
    ensures id in Find(rows, p) <==> p.updFromDay.value <= rows[id].eventDay <= p.updToDay.value
  {
  }

  /** `findUnprocessed()`: the open requests whose event day is `day`. */
  function UnprocessedToday(rows: map<string, CashInOut>, day: Day): (ids: set<string>)
    ensures ids <= rows.Keys
  {
    set id | id in rows && rows[id].eventDay == day && IsUnprocessed(rows[id].statusType)
  }

  /** `findUnprocessed(accountId, currency, withdrawal)`: the open requests of one direction. */
  function UnprocessedOf(rows: map<string, CashInOut>, accountId: string, currency: string, withdrawal: bool): (ids: set<string>)
    ensures ids <= rows.Keys
  {
    set id | id in rows && rows[id].accountId == accountId && rows[id].currency == currency
      && rows[id].withdrawal == withdrawal && IsUnprocessed(rows[id].statusType)
  }

  /** `findUnprocessed(accountId)`: the open requests of an account. */
  function UnprocessedFor(rows: map<string, CashInOut>, accountId: string): (ids: set<string>)
    ensures ids <= rows.Keys
  {
    set id | id in rows && rows[id].accountId == accountId && IsUnprocessed(rows[id].statusType)
  }

  /** The account's open requests are split by currency and direction without loss or overlap. */
  lemma UnprocessedSplits(rows: map<string, CashInOut>, accountId: string, currency: string)
    ensures UnprocessedOf(rows, accountId, currency, true) <= UnprocessedFor(rows, accountId)
    ensures UnprocessedOf(rows, accountId, currency, false) <= UnprocessedFor(rows, accountId)
    ensures UnprocessedOf(rows, accountId, currency, true) * UnprocessedOf(rows, accountId, currency, false) == {}
  {
  }

  /** The ordered form of `findUnprocessed()`: the same requests, ascending by identifier. */
  method FindUnprocessedToday(rows: map<string, CashInOut>, day: Day) returns (ids: seq<string>)
    ensures Ascending(ids) && |ids| == |UnprocessedToday(rows, day)|
    ensures forall id :: id in ids <==> id in UnprocessedToday(rows, day)
  {
    ids := SortedIds(UnprocessedToday(rows, day));
  }

  /** The ordered form of `findUnprocessed(accountId, currency, withdrawal)`. */
  method FindUnprocessedOf(rows: map<string, CashInOut>, accountId: string, currency: string, withdrawal: bool)
    returns (ids: seq<string>)
    ensures Ascending(ids) && |ids| == |UnprocessedOf(rows, accountId, currency, withdrawal)|
    ensures forall id :: id in ids <==> id in UnprocessedOf(rows, accountId, currency, withdrawal)
  {
    ids := SortedIds(UnprocessedOf(rows, accountId, currency, withdrawal));
  }

  /** A withdrawal request: the account, the currency and the amount. */
  datatype RegCashOut = RegCashOut(accountId: string, currency: string, absAmount: real)

  /**
   * `RegCashOut.create`: an UNPROCESSED withdrawal requested today, routed from the account's
   * own financial-institution account through the company's settlement account.
   */
  function Create(p: RegCashOut, today: Day, id: string, eventDay: Day, valueDay: Day,
                  acc: FiAccount, selfAcc: SelfFiAccount, actor: string): (c: CashInOut)
    ensures c.id == id && c.accountId == p.accountId && c.currency == p.currency
    ensures c.absAmount == p.absAmount && c.withdrawal
    ensures c.requestDay == today && c.eventDay == eventDay && c.valueDay == valueDay
    ensures c.targetFiCode == acc.fiCode && c.targetFiAccountId == acc.fiAccountId
    ensures c.selfFiCode == selfAcc.fiCode && c.selfFiAccountId == selfAcc.fiAccountId
    ensures c.statusType == Unprocessed && c.updateActor == actor && c.cashflowId == None
  {
    CashInOut(id, p.accountId, p.currency, p.absAmount, true, today, eventDay, valueDay,
      acc.fiCode, acc.fiAccountId, selfAcc.fiCode, selfAcc.fiAccountId, Unprocessed, actor, None)
  }

  /** A newly created request is one more pending withdrawal of its account and currency. */
  lemma CreatedIsPending(rows: map<string, CashInOut>, p: RegCashOut, today: Day, id: string, eventDay: Day,
                         valueDay: Day, acc: FiAccount, selfAcc: SelfFiAccount, actor: string)
    requires id !in rows
    ensures UnprocessedOf(rows[id := Create(p, today, id, eventDay, valueDay, acc, selfAcc, actor)],
              p.accountId, p.currency, true)
            == UnprocessedOf(rows, p.accountId, p.currency, true) + {id}
  {
  }
}
