/**
 * The persisted rows the goal engine and the transaction store read: a
 * transaction as it sits in the `transactions` table, with its amount in
 * integer cents and its date as a day number.
 */
module Ledger {

  /** The `transaction_type` enumeration: 'income' or 'expense'. */
  datatype TxType = Income | Expense

  function TxTypeName(t: TxType): string
  {
    match t
    case Income => "income"
    case Expense => "expense"
  }

  /** A row of the `transactions` table. */
  datatype TransactionRow = TransactionRow(
    id: int,
    walletId: int,
    description: string,
    amount: int,
    kind: TxType,
    date: int)
}
