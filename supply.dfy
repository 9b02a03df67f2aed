/**
 * The total of all balances, and how each ledger operation moves it. A send
 * is meant to move money, not create or destroy it; the send as written
 * destroys `amount` when its deposit overflows.
 */
module Supply {
  import opened Uint64
  import opened Errors
  import opened Ledger

  /** The sum of every balance in `m`. */
  ghost function Total(m: Balances): int
    decreases |m|
  {
    if m == map[] then 0
    else
      var k :| k in m;
      m[k] as int + Total(m - {k})
  }

  /** Removing one account takes exactly its balance out of the total, whichever account `Total` picked first. */
  lemma {:induction false} TotalRemove(m: Balances, k: string)
    requires k in m
    ensures Total(m) == m[k] as int + Total(m - {k})
    decreases |m|
  {
    var j :| j in m && Total(m) == m[j] as int + Total(m - {j});
    if j != k {
      var mj, mk := m - {j}, m - {k};
      assert k in mj && j in mk;
      TotalRemove(mj, k);
      TotalRemove(mk, j);
      assert mj - {k} == mk - {j};
    }
  }

  /** Setting the balance of `k` to `v` changes the total by `v` minus the old balance. */
  lemma TotalUpdate(m: Balances, k: string, v: u64)
    ensures Total(m[k := v]) == Total(m) - Bal(m, k) + v as int
  {
    var m' := m[k := v];
    TotalRemove(m', k);
    assert m' - {k} == m - {k};
    if k in m {
      TotalRemove(m, k);
    } else {
      assert m - {k} == m;
    }
  }

  /** A successful deposit adds its amount to the total; a failed one changes nothing. */
  lemma DepositTotal(m: Balances, signer: string, amount: u64)
    ensures var s := DepositStep(m, signer, amount);
      Total(s.balances) == Total(m) + (if s.result.Ok? then amount as int else 0)
  {
    var s := DepositStep(m, signer, amount);
    if s.result.Ok? {
      assert s.balances == m[signer := s.balances[signer]];
      TotalUpdate(m, signer, s.balances[signer]);
    }
  }

  /** A successful withdrawal takes its amount out of the total; a failed one changes nothing. */
  lemma WithdrawTotal(m: Balances, signer: string, amount: u64)
    ensures var s := WithdrawStep(m, signer, amount);
      Total(s.balances) == Total(m) - (if s.result.Ok? then amount as int else 0)
  {
    var s := WithdrawStep(m, signer, amount);
    if s.result.Ok? {
      assert s.balances == m[signer := s.balances[signer]];
      TotalUpdate(m, signer, s.balances[signer]);
    }
  }

  /**
   * The send as written keeps the total when it succeeds or its withdraw fails,
   * but when the deposit overflows the sender's debit is never credited anywhere.
   */
  lemma SendTotal(m: Balances, sender: string, recipient: string, amount: u64)
    ensures var s := SendStep(m, sender, recipient, amount);
      Total(s.balances) == Total(m) - (if s.result.Err? && s.result.error.OverFunded? then amount as int else 0)
  {
    var w := WithdrawStep(m, sender, amount);
    WithdrawTotal(m, sender, amount);
    if w.result.Ok? {
      DepositTotal(w.balances, recipient, amount);
    }
  }

  /** The rolling-back send never changes the total. */
  lemma SendAtomicTotal(m: Balances, sender: string, recipient: string, amount: u64)
    ensures Total(SendAtomicStep(m, sender, recipient, amount).balances) == Total(m)
  {
    SendTotal(m, sender, recipient, amount);
  }
}
