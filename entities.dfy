/**
 * Value types shared by the whole ledger: money, the closed enumerations of
 * operation kinds and transaction states, and the exceptions the Java code throws.
 */
module Entities {
  import opened Wrappers

  /** A currency is compared only through `Currency.isSame`; it is an opaque identity here. */
  type Currency = int

  /**
   * `FiatMoney`: a currency and a decimal amount kept in minor units. The amount is
   * a `BigDecimal` reference in the source, so it may be absent (`null`).
   */
  datatype Money = Money(currency: Currency, amount: Option<int>)

  /** `Currency.isSame`, read as equality of the currency identities. */
  predicate IsSame(a: Currency, b: Currency) { a == b }

  datatype OperationType = Replenish | Withdraw | Transfer

  datatype TransactionState = Started | Committed | Rollbacked

  /**
   * The exceptions the modelled code throws. A constructor with a `cause` is an
   * exception class whose instances may wrap another exception.
   */
  datatype Error =
    | NullPointer                                   // NullPointerException
    | IllegalArgument                               // IllegalArgumentException
    | IllegalState                                  // IllegalStateException
    | IllegalMonitorState                           // unlock of a lock the caller does not hold
    | UnsupportedOperation                          // UnsupportedOperationException
    | AccountError(cause: Option<Error>)            // AccountException
    | AccountNotFound
    | AccountAlreadyExists
    | InactiveAccount(accountId: int)
    | Locked                                        // LockedException: tryLock failed
    | ClientAlreadyExist(existingId: int)
    | ClientNotExist
    | ClientDuplicatesFound
    | ClientNotActive
    | TransactionError(cause: Option<Error>)        // TransactionException
    | CommandError(cause: Option<Error>)            // CommandException wrapping a cause
    | EmptyInitialAmount                            // CommandException("initial amount is empty")
    | InsufficientAmount(initial: int, required: int) // CommandException("initial amount ... less then required ...")

  /** The exceptions `catch (AccountException | TransactionException ex)` of the transaction service catches. */
  predicate IsAccountOrTransactionError(e: Error)
  {
    e.AccountError? || e.TransactionError?
  }
}
