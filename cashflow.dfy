/**
 * The cashflow entry: a signed movement registered by a processed withdrawal or deposit,
 * realized into the day's balance snapshot on or after its value day. Its own source file is not
 * part of this model; the rules below are those CashflowTest.kt and the callers show.
 */
module Cashflows {
  import opened Wrappers
  import opened TimePoints
  import opened ActionStatus
  import opened Timestamping
  import opened Uid
  import opened Validation
  import opened Validators
  import opened Orm
  import opened Ledger
  import CashBalances
  import Keys

  const Kind: string := "Cashflow"

  /**
   * `RegCashflow.create`: an UNPROCESSED entry under `id`, dated `today` unless the request
   * names its own event day.
   */
  function Created(p: RegCashflow, id: string, today: Day, actor: string): Cashflow {
    Cashflow(id, p.accountId, p.currency, p.amount, p.cashflowType, p.remark,
      if p.eventDay.Some? then p.eventDay.value else today, p.valueDay, Unprocessed, actor)
  }

  /** The realize block: the entry is still UNPROCESSED, then its value day has come. */
  function RealizeGuards(cf: Cashflow, today: Day): seq<Guard> {
    [ Guard(cf.statusType == Unprocessed, None, Keys.StatusProcessing, true),
      Guard(TimePoints.Of(today).AfterEqualsDay(cf.valueDay), None, Keys.CfRealizeDay, true) ]
  }

  /**
   * `realize`: marks the entry PROCESSED and posts its amount to today's balance snapshot.
   * A processed entry reports STATUS_PROCESSING whatever the day; an early one CF_REALIZE_DAY.
   */
  method Realize(rep: Repository, cf: Cashflow) returns (r: Result<Cashflow, Failure>)
    requires rep.Valid() && cf.id in rep.cashflows
    modifies rep, rep.uid
    ensures rep.Valid()
    ensures r.Success? <==> cf.statusType == Unprocessed && cf.valueDay <= rep.time.Day()
    ensures cf.statusType != Unprocessed ==> r == Failure(Invalid(OfMessage(Keys.StatusProcessing, [])))
    ensures cf.statusType == Unprocessed && rep.time.Day() < cf.valueDay ==>
      r == Failure(Invalid(OfMessage(Keys.CfRealizeDay, [])))
    ensures r.Failure? ==> rep.cashflows == old(rep.cashflows) && rep.balances == old(rep.balances)
    ensures r.Success? ==>
      && r.value == cf.(statusType := Processed, updateActor := rep.actorId)
      && rep.cashflows == old(rep.cashflows)[cf.id := r.value]
      && CashBalances.Posted(old(rep.balances), rep.balances, cf.accountId, cf.currency,
           rep.time.Day(), cf.amount, rep.fractionDigits(cf.currency))
    ensures rep.uid.values == old(rep.uid.values) && rep.cashInOuts == old(rep.cashInOuts)
    ensures rep.accounts == old(rep.accounts) && rep.fiAccounts == old(rep.fiAccounts)
    ensures rep.selfFiAccounts == old(rep.selfFiAccounts)
  {
    var now := rep.time.Tp();
    var guards := RealizeGuards(cf, now.day);
    var checked := Validate(guards);
    VerifyPairDecides(guards[0], guards[1]);
    if checked.Fail? {
      return Failure(Invalid(checked.error));
    }
    var done := cf.(statusType := Processed, updateActor := rep.actorId);
    rep.cashflows := rep.cashflows[cf.id := done];
    ghost var before := rep.balances;
    var b := CashBalances.GetOrNew(rep, cf.accountId, cf.currency);
    var posted := CashBalances.Add(rep, b, cf.amount);
    assert rep.balances == before[b.id := posted];
    r := Success(done);
  }

  /** `error`: marks an entry still in the unprocessed group ERROR. */
  method Error(rep: Repository, cf: Cashflow) returns (r: Result<Cashflow, Failure>)
    requires rep.Valid() && cf.id in rep.cashflows
    modifies rep
    ensures rep.Valid()
    ensures r.Success? <==> IsUnprocessed(cf.statusType)
    ensures r.Failure? ==> r.error == Invalid(OfMessage(Keys.StatusProcessing, [])) && rep.cashflows == old(rep.cashflows)
    ensures r.Success? ==>
      && r.value == cf.(statusType := ActionStatusType.Error, updateActor := rep.actorId)
      && rep.cashflows == old(rep.cashflows)[cf.id := r.value]
    ensures rep.balances == old(rep.balances) && rep.cashInOuts == old(rep.cashInOuts)
    ensures rep.accounts == old(rep.accounts) && rep.fiAccounts == old(rep.fiAccounts)
    ensures rep.selfFiAccounts == old(rep.selfFiAccounts)
  {
    var g := Guard(IsUnprocessed(cf.statusType), None, Keys.StatusProcessing, true);
    var checked := Validate([g]);
    VerifyOneDecides(g);
    if checked.Fail? {
      return Failure(Invalid(checked.error));
    }
    var marked := cf.(statusType := ActionStatusType.Error, updateActor := rep.actorId);
    rep.cashflows := rep.cashflows[cf.id := marked];
    r := Success(marked);
  }

  /** The saving half of `register`: the new UNPROCESSED entry under an unused identifier. */
  method Save(rep: Repository, p: RegCashflow) returns (cf: Cashflow)
    requires rep.Valid()
    modifies rep, rep.uid
    ensures rep.Valid()
    ensures cf.id !in old(rep.cashflows) && rep.cashflows == old(rep.cashflows)[cf.id := cf]
    ensures cf == Created(p, cf.id, rep.time.Day(), rep.actorId)
    ensures rep.balances == old(rep.balances)
    ensures rep.uid.values == old(rep.uid.values) && rep.cashInOuts == old(rep.cashInOuts)
    ensures rep.accounts == old(rep.accounts) && rep.fiAccounts == old(rep.fiAccounts)
    ensures rep.selfFiAccounts == old(rep.selfFiAccounts)
  {
    var id := rep.uid.Generate(Kind, rep.cashflows.Keys);
    cf := Created(p, id, rep.time.Day(), rep.actorId);
    var saved := Insert(rep.cashflows, id, cf);
    rep.cashflows := saved.value;
  }

  /** An accepted `register` of an entry due today: saved, then realized at once. */
  method SaveRealized(rep: Repository, p: RegCashflow) returns (cf: Cashflow)
    requires rep.Valid() && p.valueDay == rep.time.Day()
    modifies rep, rep.uid
    ensures rep.Valid()
    ensures cf.id !in old(rep.cashflows) && rep.cashflows == old(rep.cashflows)[cf.id := cf]
    ensures cf == Created(p, cf.id, rep.time.Day(), rep.actorId).(statusType := Processed)
    ensures CashBalances.Posted(old(rep.balances), rep.balances, p.accountId, p.currency,
      rep.time.Day(), p.amount, rep.fractionDigits(p.currency))
    ensures rep.uid.values == old(rep.uid.values) && rep.cashInOuts == old(rep.cashInOuts)
    ensures rep.accounts == old(rep.accounts) && rep.fiAccounts == old(rep.fiAccounts)
    ensures rep.selfFiAccounts == old(rep.selfFiAccounts)
  {
    ghost var before := rep.cashflows;
    var saved := Save(rep, p);
    var r := Realize(rep, saved);
    cf := r.value;
    assert rep.cashflows == before[saved.id := saved][saved.id := cf] == before[saved.id := cf];
  }

  /**
   * `register`: refuses a value day already past (field `valueDay`), saves the entry
   * UNPROCESSED under a new identifier and realizes it at once when its value day is today.
   */
  method Register(rep: Repository, p: RegCashflow) returns (r: Result<Cashflow, Failure>)
    requires rep.Valid()
    modifies rep, rep.uid
    ensures rep.Valid()
    ensures r.Success? <==> rep.time.Day() <= p.valueDay
    ensures r.Failure? ==>
      && r.error == Invalid(Validation.OfField("valueDay", Keys.CashflowBeforeEqualsDay, []))
      && rep.cashflows == old(rep.cashflows) && rep.balances == old(rep.balances)
    ensures r.Success? ==>
      && r.value.id !in old(rep.cashflows)
      && rep.cashflows == old(rep.cashflows)[r.value.id := r.value]
      && r.value == Created(p, r.value.id, rep.time.Day(), rep.actorId).(
           statusType := if p.valueDay <= rep.time.Day() then Processed else Unprocessed)
      && (p.valueDay <= rep.time.Day() ==>
           CashBalances.Posted(old(rep.balances), rep.balances, p.accountId, p.currency,
             rep.time.Day(), p.amount, rep.fractionDigits(p.currency)))
      && (rep.time.Day() < p.valueDay ==> rep.balances == old(rep.balances))
    ensures rep.uid.values == old(rep.uid.values) && rep.cashInOuts == old(rep.cashInOuts)
    ensures rep.accounts == old(rep.accounts) && rep.fiAccounts == old(rep.fiAccounts)
    ensures rep.selfFiAccounts == old(rep.selfFiAccounts)
  {
    var now := rep.time.Tp();
    var g := Guard(now.BeforeEqualsDay(p.valueDay), Some("valueDay"), Keys.CashflowBeforeEqualsDay, true);
    var checked := Validate([g]);
    VerifyOneDecides(g);
    if checked.Fail? {
      return Failure(Invalid(checked.error));
    }
    var cf;
    if now.AfterEqualsDay(p.valueDay) {
      cf := SaveRealized(rep, p);
    } else {
      cf := Save(rep, p);
    }
    r := Success(cf);
  }

  /** An UNPROCESSED entry of the account and currency whose value day is at most `valueDay`. */
  predicate IsUnrealized(cf: Cashflow, accountId: string, currency: string, valueDay: Day) {
    cf.accountId == accountId && cf.currency == currency && cf.valueDay <= valueDay
      && cf.statusType == Unprocessed
  }

  /** `findUnrealize`: the entries not yet in the balance that settle by `valueDay`. */
  function FindUnrealize(rows: map<string, Cashflow>, accountId: string, currency: string, valueDay: Day): (ids: set<string>)
    ensures ids <= rows.Keys
  {
    set id | id in rows && IsUnrealized(rows[id], accountId, currency, valueDay)
  }

  /** `findDoRealize`: every UNPROCESSED entry whose value day has come by `day`. */
  function FindDoRealize(rows: map<string, Cashflow>, day: Day): (ids: set<string>)
    ensures ids <= rows.Keys
  {
    set id | id in rows && rows[id].statusType == Unprocessed && rows[id].valueDay <= day
  }

  /**
   * The entries the realize job posts for one account and currency are exactly those the
   * withdrawal projection counts as unrealized up to that day.
   */
  lemma DueAreUnrealized(rows: map<string, Cashflow>, accountId: string, currency: string, day: Day)
    ensures (set id | id in FindDoRealize(rows, day) && rows[id].accountId == accountId
                      && rows[id].currency == currency) == FindUnrealize(rows, accountId, currency, day)
  {
  }

  /** A later target day counts every entry an earlier one does. */
  lemma UnrealizeGrows(rows: map<string, Cashflow>, accountId: string, currency: string, d1: Day, d2: Day)
    requires d1 <= d2
    ensures FindUnrealize(rows, accountId, currency, d1) <= FindUnrealize(rows, accountId, currency, d2)
  {
  }
}
