/** The ledger's closed error type and the `Result` its operations return. */
module Errors {
  import opened Uint64

  /** Exactly three kinds; each names the account it concerns. */
  datatype AccountingError =
    | NotFound(account: string)
    | UnderFunded(account: string, amount: u64)  // the requested amount, not the balance or the shortfall
    | OverFunded(account: string, amount: u64)   // the attempted deposit, not an overflowed sum

  /** `Result<T, AccountingError>`. */
  datatype Result<+T> = Ok(value: T) | Err(error: AccountingError)
}
