/**
 * Message keys and remark constants of the asset domain
 * (ErrorKeys.kt, DomainErrorKeys.kt, AssetErrorKeys.kt, Remarks.kt).
 */
module Keys {

  // ErrorKeys
  const Exception: string := "error.Exception"

  // DomainErrorKeys
  const StatusProcessing: string := "error.ActionStatusType.processing"
  const BeforeEqualsDay: string := "error.LocalDate.beforeEqualsDay"
  const EntityNotFound: string := "error.Entity.notFound"

  // AssetErrorKeys
  const CfRealizeDay: string := "error.Cashflow.realizeDay"
  const CioWithdrawalAmount: string := "error.CashInOut.withdrawAmount"
  const CioEventDayAfterEqualsDay: string := "error.CashInOut.afterEqualsDay"
  const CioEventDayBeforeEqualsDay: string := "error.CashInOut.beforeEqualsDay"

  // Literal keys used inline by the domain code
  const AbsAmountZero: string := "error.domain.AbsAmount.zero"
  const AccountLoadActive: string := "error.Account.loadActive"
  const CashflowBeforeEqualsDay: string := "error.Cashflow.beforeEqualsDay"

  // Remarks
  const CashIn: string := "cashIn"
  const CashOut: string := "cashOut"
}
