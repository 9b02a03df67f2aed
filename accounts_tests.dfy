/** The unit tests of the ledger, as client code proved against the contracts of `Accounts`. */
module AccountsTests {
  import opened Uint64
  import opened Errors
  import opened Transactions
  import opened Ledger

  /** Withdrawing 100 from an account holding 50 fails with the requested amount; the balance stays 50. */
  method WithdrawUnderfunded() returns (r: Result<Tx>, balance: u64)
    ensures r == Err(UnderFunded("test_account", 100))
    ensures balance == 50
  {
    var ledger := new Accounts();
    ledger.accounts := ledger.accounts["test_account" := 50];
    r := ledger.Withdraw("test_account", 100);
    balance := ledger.accounts["test_account"];
  }

  /** Depositing 100 into an account holding 0 succeeds and leaves 100. */
  method DepositWorks() returns (r: Result<Tx>, balance: u64)
    ensures r == Ok(Tx.Deposit("test_account", 100))
    ensures balance == 100
  {
    var ledger := new Accounts();
    ledger.accounts := ledger.accounts["test_account" := 0];
    r := ledger.Deposit("test_account", 100);
    balance := ledger.accounts["test_account"];
  }

  /**
   * A send into a full account, as the send is written: the deposit's
   * `OverFunded` is returned and the sender is NOT rolled back.
   */
  method SendOverfundedDoesNotRollBack() returns (r: Result<(Tx, Tx)>, sender: u64, recipient: u64)
    ensures r == Err(OverFunded("bob", 50))
    ensures sender == 0 && recipient == MAX as u64
  {
    var ledger := new Accounts();
    ledger.accounts := map["alice" := 50, "bob" := MAX as u64];
    r := ledger.Send("alice", "bob", 50);
    sender, recipient := ledger.accounts["alice"], ledger.accounts["bob"];
  }

  /** The same send with rollback: the same error, and the sender keeps its 50. */
  method SendAtomicOverfundedRollsBack() returns (r: Result<(Tx, Tx)>, sender: u64, recipient: u64)
    ensures r == Err(OverFunded("bob", 50))
    ensures sender == 50 && recipient == MAX as u64
  {
    var ledger := new Accounts();
    ledger.accounts := map["alice" := 50, "bob" := MAX as u64];
    r := ledger.SendAtomic("alice", "bob", 50);
    sender, recipient := ledger.accounts["alice"], ledger.accounts["bob"];
  }
}
