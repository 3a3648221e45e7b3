/**
 * The rows of the ledger's tables and the repository that holds them. Timestamps, which the
 * tables also carry, are not part of the model; days are whole numbers.
 */
module Ledger {
  import opened Wrappers
  import opened TimePoints
  import opened ActionStatus
  import opened Timestamping
  import opened Uid

  datatype AccountStatusType = Normal | Withdrawal

  datatype Account = Account(id: string, name: string, mail: string, statusType: AccountStatusType)

  /** The financial-institution account an account moves cash to and from. */
  datatype FiAccount = FiAccount(
    id: string, accountId: string, category: string, currency: string,
    fiCode: string, fiAccountId: string)

  /** The settlement account of the service company. */
  datatype SelfFiAccount = SelfFiAccount(
    id: string, category: string, currency: string, fiCode: string, fiAccountId: string)

  /** One daily snapshot of an account's balance in one currency. */
  datatype CashBalance = CashBalance(
    id: string, accountId: string, baseDay: Day, currency: string, amount: real)

  datatype CashflowType = CashIn | CashOut

  /** A signed movement that is realized into the balance on or after `valueDay`. */
  datatype Cashflow = Cashflow(
    id: string, accountId: string, currency: string, amount: real,
    cashflowType: CashflowType, remark: string, eventDay: Day, valueDay: Day,
    statusType: ActionStatusType, updateActor: string)

  /** A request to register a cashflow; a missing `eventDay` means the current business day. */
  datatype RegCashflow = RegCashflow(
    accountId: string, currency: string, amount: real, cashflowType: CashflowType,
    remark: string, eventDay: Option<Day>, valueDay: Day)

  /** A deposit or withdrawal request; `cashflowId` is set once it has been processed. */
  datatype CashInOut = CashInOut(
    id: string, accountId: string, currency: string, absAmount: real, withdrawal: bool,
    requestDay: Day, eventDay: Day, valueDay: Day,
    targetFiCode: string, targetFiAccountId: string, selfFiCode: string, selfFiAccountId: string,
    statusType: ActionStatusType, updateActor: string, cashflowId: Option<string>)

  /**
   * The repository with its domain helper: the business-day clock, the identifier generator,
   * the logged-in actor and the fraction digits of each currency.
   */
  class Repository {
    const time: Timestamper
    const uid: IdGenerator
    const actorId: string
    const fractionDigits: string -> int
    var accounts: map<string, Account>
    var fiAccounts: map<string, FiAccount>
    var selfFiAccounts: map<string, SelfFiAccount>
    var balances: map<string, CashBalance>
    var cashflows: map<string, Cashflow>
    var cashInOuts: map<string, CashInOut>

    /** The counters are in range and every row of a mutable table is stored under its own identifier. */
    ghost predicate Valid()
      reads this, uid
    {
      && uid.Valid()
      && (forall id :: id in balances ==> balances[id].id == id)
      && (forall id :: id in cashflows ==> cashflows[id].id == id)
      && (forall id :: id in cashInOuts ==> cashInOuts[id].id == id)
    }

    constructor (time: Timestamper, uid: IdGenerator, actorId: string, fractionDigits: string -> int)
      requires uid.Valid()
      ensures Valid()
      ensures this.time == time && this.uid == uid && this.actorId == actorId
      ensures this.fractionDigits == fractionDigits
      ensures accounts == map[] && fiAccounts == map[] && selfFiAccounts == map[]
      ensures balances == map[] && cashflows == map[] && cashInOuts == map[]
    {
      this.time := time;
      this.uid := uid;
      this.actorId := actorId;
      this.fractionDigits := fractionDigits;
      accounts := map[];
      fiAccounts := map[];
      selfFiAccounts := map[];
      balances := map[];
      cashflows := map[];
      cashInOuts := map[];
    }
  }
}
