/** Entities shared by the account bookkeeping and the balance view model of MoneyManager. */
module Model {

  datatype Option<T> = None | Some(value: T)

  /** The kind of a financial transaction. */
  datatype TransactionType = Expense | Income | Transfer

  /**
   * An account as stored in the account list. Balances are fixed-point
   * amounts (cents), so addition and subtraction are exact.
   */
  datatype Account = Account(id: int, name: string, currentBalance: int)

  /**
   * A financial transaction. The bookkeeping only ever writes `cleared`,
   * so every other field is a constant of the object.
   */
  class FinancialTransaction {
    const id: int
    const transactionType: TransactionType
    /** The magnitude of the transaction; its sign comes from the type. */
    const amount: int
    const chargedAccountId: int
    /** Only meaningful for a transfer: the account that receives the money. */
    const targetAccountId: int
    /** Whether the amount is to be booked on the accounts now. */
    const clearTransactionNow: bool
    /** Whether the amount has been booked on an account. */
    var cleared: bool

    constructor (id: int, transactionType: TransactionType, amount: int, chargedAccountId: int,
                 targetAccountId: int, clearTransactionNow: bool, cleared: bool)
      ensures this.id == id && this.transactionType == transactionType && this.amount == amount
      ensures this.chargedAccountId == chargedAccountId && this.targetAccountId == targetAccountId
      ensures this.clearTransactionNow == clearTransactionNow && this.cleared == cleared
    {
      this.id := id;
      this.transactionType := transactionType;
      this.amount := amount;
      this.chargedAccountId := chargedAccountId;
      this.targetAccountId := targetAccountId;
      this.clearTransactionNow := clearTransactionNow;
      this.cleared := cleared;
    }
  }
}
