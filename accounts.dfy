/**
 * The ledger engine: a map from account names to `u64` balances, changed by
 * deposit, withdraw and send. The step functions say what one call does to a
 * map of balances; the class `Accounts` performs the same calls in place.
 */
module Ledger {
  import opened Uint64
  import opened Errors
  import opened Transactions

  type Balances = map<string, u64>

  /** What one call returns, together with the balances it leaves behind. */
  datatype Step<+T> = Step(result: Result<T>, balances: Balances)

  /** The balance of `k`; an account that has never been deposited into reads as zero. */
  function Bal(m: Balances, k: string): int
  {
    if k in m then m[k] as int else 0
  }

  /** Every account outside `changed` is present in `m'` exactly when in `m`, with the same balance. */
  ghost predicate SameExcept(m: Balances, m': Balances, changed: set<string>)
  {
    forall j :: j !in changed ==> (j in m <==> j in m') && (j in m ==> m'[j] == m[j])
  }

  /** The overflow check of a deposit passes (a missing account is simply created). */
  predicate CanDeposit(m: Balances, signer: string, amount: u64)
  {
    signer !in m || m[signer] as int + amount as int <= MAX
  }

  /** The account exists and the underflow check of a withdrawal passes. */
  predicate CanWithdraw(m: Balances, signer: string, amount: u64)
  {
    signer in m && amount <= m[signer]
  }

  /** `Accounts::deposit` on the balances `m`. */
  function DepositStep(m: Balances, signer: string, amount: u64): (s: Step<Tx>)
    ensures s.result.Ok? <==> CanDeposit(m, signer, amount)
    ensures s.result.Ok? ==>
      && s.result.value == Tx.Deposit(signer, amount)
      && signer in s.balances
      && s.balances[signer] as int == Bal(m, signer) + amount as int
      && s.balances.Keys == m.Keys + {signer}
      && SameExcept(m, s.balances, {signer})
    ensures s.result.Err? ==> s.result.error == OverFunded(signer, amount) && s.balances == m
  {
    if signer in m then
      match CheckedAdd(m[signer], amount)
      case Some(sum) => Step(Ok(Tx.Deposit(signer, amount)), m[signer := sum])
      case None => Step(Err(OverFunded(signer, amount)), m)
    else
      Step(Ok(Tx.Deposit(signer, amount)), m[signer := amount])
  }

  /** `Accounts::withdraw` on the balances `m`. */
  function WithdrawStep(m: Balances, signer: string, amount: u64): (s: Step<Tx>)
    ensures s.result.Ok? <==> CanWithdraw(m, signer, amount)
    ensures s.result.Ok? ==>
      && s.result.value == Tx.Withdraw(signer, amount)
      && signer in s.balances
      && s.balances[signer] as int == Bal(m, signer) - amount as int
      && s.balances.Keys == m.Keys
      && SameExcept(m, s.balances, {signer})
    ensures s.result.Err? ==>
      && s.result.error == (if signer in m then UnderFunded(signer, amount) else NotFound(signer))
      && s.balances == m
  {
    if signer in m then
      match CheckedSub(m[signer], amount)
      case Some(rest) => Step(Ok(Tx.Withdraw(signer, amount)), m[signer := rest])
      case None => Step(Err(UnderFunded(signer, amount)), m)
    else
      Step(Err(NotFound(signer)), m)
  }

  /**
   * `Accounts::send` as written: withdraw, then deposit, each failure returned
   * at once. A deposit that overflows after a successful withdraw leaves the
   * sender debited.
   */
  function SendStep(m: Balances, sender: string, recipient: string, amount: u64): (s: Step<(Tx, Tx)>)
    ensures !CanWithdraw(m, sender, amount) ==>
      && s.result == Err(if sender in m then UnderFunded(sender, amount) else NotFound(sender))
      && s.balances == m
    ensures s.result.Ok? <==>
      CanWithdraw(m, sender, amount) && (sender == recipient || CanDeposit(m, recipient, amount))
    ensures s.result.Ok? ==> s.result.value == (Tx.Withdraw(sender, amount), Tx.Deposit(recipient, amount))
    ensures s.result.Ok? && sender == recipient ==> s.balances == m
    ensures s.result.Ok? && sender != recipient ==>
      && Bal(s.balances, sender) == Bal(m, sender) - amount as int
      && Bal(s.balances, recipient) == Bal(m, recipient) + amount as int
      && s.balances.Keys == m.Keys + {recipient}
      && SameExcept(m, s.balances, {sender, recipient})
    ensures CanWithdraw(m, sender, amount) && sender != recipient && !CanDeposit(m, recipient, amount) ==>
      && s.result == Err(OverFunded(recipient, amount))
      && s.balances == m[sender := m[sender] - amount]
  {
    var w := WithdrawStep(m, sender, amount);
    if w.result.Err? then
      Step(Err(w.result.error), w.balances)
    else
      var d := DepositStep(w.balances, recipient, amount);
      if d.result.Err? then
        Step(Err(d.result.error), d.balances)
      else
        Step(Ok((w.result.value, d.result.value)), d.balances)
  }

  /**
   * An all-or-nothing send, as the rollback test names expect: the sender's balance is
   * snapshotted and restored when the deposit fails. It returns what `SendStep`
   * returns, and on every failure leaves the balances exactly as they were.
   */
  function SendAtomicStep(m: Balances, sender: string, recipient: string, amount: u64): (s: Step<(Tx, Tx)>)
    ensures s.result == SendStep(m, sender, recipient, amount).result
    ensures s.result.Ok? ==> s.balances == SendStep(m, sender, recipient, amount).balances
    ensures s.result.Err? ==> s.balances == m
  {
    if sender !in m then
      Step(Err(NotFound(sender)), m)
    else
      var snapshot := m[sender];
      var w := WithdrawStep(m, sender, amount);
      if w.result.Err? then
        Step(Err(w.result.error), w.balances)
      else
        var d := DepositStep(w.balances, recipient, amount);
        if d.result.Err? then
          Step(Err(d.result.error), d.balances[sender := snapshot])
        else
          Step(Ok((w.result.value, d.result.value)), d.balances)
  }

  /** The `Accounts` struct: the balances, owned and updated in place. */
  class Accounts {
    var accounts: Balances

    /** `Accounts::new`: a ledger with no accounts. */
    constructor ()
      ensures accounts == map[]
    {
      accounts := map[];
    }

    /** Creates `signer` with `amount`, or adds `amount` to it unless the sum overflows. */
    method Deposit(signer: string, amount: u64) returns (r: Result<Tx>)
      modifies this
      ensures Step(r, accounts) == DepositStep(old(accounts), signer, amount)
    {
      if signer in accounts {
        match CheckedAdd(accounts[signer], amount)
        case Some(sum) =>
          accounts := accounts[signer := sum];
          r := Ok(Tx.Deposit(signer, amount));
        case None =>
          r := Err(OverFunded(signer, amount));
      } else {
        accounts := accounts[signer := amount];
        r := Ok(Tx.Deposit(signer, amount));
      }
    }

    /** Takes `amount` from an existing `signer` unless that would go below zero. */
    method Withdraw(signer: string, amount: u64) returns (r: Result<Tx>)
      modifies this
      ensures Step(r, accounts) == WithdrawStep(old(accounts), signer, amount)
    {
      if signer in accounts {
        match CheckedSub(accounts[signer], amount)
        case Some(rest) =>
          accounts := accounts[signer := rest];
          r := Ok(Tx.Withdraw(signer, amount));
        case None =>
          r := Err(UnderFunded(signer, amount));
      } else {
        r := Err(NotFound(signer));
      }
    }

    /** Withdraws from `sender`, then deposits into `recipient`; the first error is returned, nothing is undone. */
    method Send(sender: string, recipient: string, amount: u64) returns (r: Result<(Tx, Tx)>)
      modifies this
      ensures Step(r, accounts) == SendStep(old(accounts), sender, recipient, amount)
    {
      var w := Withdraw(sender, amount);
      if w.Err? {
        return Err(w.error);
      }
      var d := Deposit(recipient, amount);
      if d.Err? {
        return Err(d.error);
      }
      r := Ok((w.value, d.value));
    }

    /** Like `Send`, but restores the sender's balance when the deposit fails. */
    method SendAtomic(sender: string, recipient: string, amount: u64) returns (r: Result<(Tx, Tx)>)
      modifies this
      ensures Step(r, accounts) == SendAtomicStep(old(accounts), sender, recipient, amount)
      ensures r.Err? ==> accounts == old(accounts)
    {
      if sender !in accounts {
        return Err(NotFound(sender));
      }
      var snapshot := accounts[sender];
      var w := Withdraw(sender, amount);
      if w.Err? {
        return Err(w.error);
      }
      var d := Deposit(recipient, amount);
      if d.Err? {
        accounts := accounts[sender := snapshot];
        return Err(d.error);
      }
      r := Ok((w.value, d.value));
    }
  }
}
