/** Records of committed balance changes. */
module Transactions {
  import opened Uint64

  /**
   * A committed deposit or withdrawal. There is no transfer variant: a send is
   * recorded as one `Withdraw` followed by one `Deposit`. The amount has the
   * balances' own type, so a record holds exactly the amount that was applied.
   */
  datatype Tx =
    | Deposit(account: string, amount: u64)
    | Withdraw(account: string, amount: u64)
}
