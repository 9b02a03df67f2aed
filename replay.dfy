/**
 * Replaying a log of `Tx` records: each `Deposit` is applied as a deposit and
 * each `Withdraw` as a withdraw, in order. The claim on `Tx` is that replaying
 * the records of a run from an empty ledger rebuilds that run's balances.
 */
module Replay {
  import opened Uint64
  import opened Errors
  import opened Transactions
  import opened Ledger

  /** Re-applies one record as the operation it records. */
  function ApplyTx(m: Balances, tx: Tx): (s: Step<Tx>)
    ensures s.result.Ok? <==> (if tx.Deposit? then CanDeposit(m, tx.account, tx.amount) else CanWithdraw(m, tx.account, tx.amount))
    ensures s.result.Ok? ==> s.result.value == tx
    ensures s.result.Ok? ==> Bal(s.balances, tx.account) == Bal(m, tx.account) + (if tx.Deposit? then tx.amount as int else -(tx.amount as int))
    ensures s.result.Ok? ==> s.balances.Keys == m.Keys + {tx.account} && SameExcept(m, s.balances, {tx.account})
    ensures s.result.Err? ==> s.balances == m
  {
    match tx
    case Deposit(account, amount) => DepositStep(m, account, amount)
    case Withdraw(account, amount) => WithdrawStep(m, account, amount)
  }

  /** Applies `txs` in order from `m`; the first record that fails stops the replay with its error. */
  function ReplayFrom(m: Balances, txs: seq<Tx>): Result<Balances>
    decreases |txs|
  {
    if txs == [] then Ok(m)
    else
      var s := ApplyTx(m, txs[0]);
      if s.result.Err? then Err(s.result.error) else ReplayFrom(s.balances, txs[1..])
  }

  /** Replay from an empty ledger. */
  function Replay(txs: seq<Tx>): Result<Balances>
  {
    ReplayFrom(map[], txs)
  }

  /** Replaying two logs one after the other is replaying their concatenation. */
  lemma {:induction false} ReplayFromAppend(m: Balances, a: seq<Tx>, b: seq<Tx>)
    ensures ReplayFrom(m, a + b) == (if ReplayFrom(m, a).Ok? then ReplayFrom(ReplayFrom(m, a).value, b) else ReplayFrom(m, a))
    decreases |a|
  {
    if a == [] {
      assert a + b == b;
    } else {
      assert (a + b)[0] == a[0];
      assert (a + b)[1..] == a[1..] + b;
      var s := ApplyTx(m, a[0]);
      if s.result.Ok? {
        ReplayFromAppend(s.balances, a[1..], b);
      }
    }
  }

  /** A call a caller can make on the ledger. */
  datatype Command =
    | DepositCmd(signer: string, amount: u64)
    | WithdrawCmd(signer: string, amount: u64)
    | SendCmd(sender: string, recipient: string, amount: u64)

  /** The records a sequence of calls returned, in order, and the balances it left. */
  datatype Session = Session(log: seq<Tx>, balances: Balances)

  /**
   * One call on `m`: its records (one for a deposit or withdraw, two for a
   * send, none on failure) and the new balances. `rollback` chooses the
   * rolling-back send instead of the send as written.
   */
  function Exec(m: Balances, c: Command, rollback: bool): (s: Session)
    ensures c.DepositCmd? ==> s.log == (if CanDeposit(m, c.signer, c.amount) then [Tx.Deposit(c.signer, c.amount)] else [])
    ensures c.WithdrawCmd? ==> s.log == (if CanWithdraw(m, c.signer, c.amount) then [Tx.Withdraw(c.signer, c.amount)] else [])
    ensures c.SendCmd? ==> s.log == (if SendStep(m, c.sender, c.recipient, c.amount).result.Ok?
                                     then [Tx.Withdraw(c.sender, c.amount), Tx.Deposit(c.recipient, c.amount)] else [])
    ensures s.log == [] ==> s.balances == m || (!rollback && Torn(m, c))
  {
    match c
    case DepositCmd(signer, amount) =>
      var st := DepositStep(m, signer, amount);
      Session(if st.result.Ok? then [st.result.value] else [], st.balances)
    case WithdrawCmd(signer, amount) =>
      var st := WithdrawStep(m, signer, amount);
      Session(if st.result.Ok? then [st.result.value] else [], st.balances)
    case SendCmd(sender, recipient, amount) =>
      var st := if rollback then SendAtomicStep(m, sender, recipient, amount)
                else SendStep(m, sender, recipient, amount);
      Session(if st.result.Ok? then [st.result.value.0, st.result.value.1] else [], st.balances)
  }

  /** Calls `cmds` in order from `m`, collecting every record returned. */
  function Run(m: Balances, cmds: seq<Command>, rollback: bool): Session
    decreases |cmds|
  {
    if cmds == [] then Session([], m)
    else
      var first := Exec(m, cmds[0], rollback);
      var rest := Run(first.balances, cmds[1..], rollback);
      Session(first.log + rest.log, rest.balances)
  }

  /** A send whose withdraw succeeds and whose deposit then overflows. */
  predicate Torn(m: Balances, c: Command)
  {
    && c.SendCmd?
    && CanWithdraw(m, c.sender, c.amount)
    && c.sender != c.recipient
    && !CanDeposit(m, c.recipient, c.amount)
  }

  /** No call of the run, in the state it meets, is a torn send. */
  predicate TornFree(m: Balances, cmds: seq<Command>)
    decreases |cmds|
  {
    cmds == [] || (!Torn(m, cmds[0]) && TornFree(Exec(m, cmds[0], false).balances, cmds[1..]))
  }

  /** The records of one call, replayed from the state it started in, give the state it left. */
  lemma ExecReplays(m: Balances, c: Command, rollback: bool)
    requires rollback || !Torn(m, c)
    ensures ReplayFrom(m, Exec(m, c, rollback).log) == Ok(Exec(m, c, rollback).balances)
  {
    if c.SendCmd? {
      var st := SendStep(m, c.sender, c.recipient, c.amount);
      if st.result.Ok? {
        var w := WithdrawStep(m, c.sender, c.amount);
        var d := DepositStep(w.balances, c.recipient, c.amount);
        var log := Exec(m, c, rollback).log;
        assert log == [Tx.Withdraw(c.sender, c.amount), Tx.Deposit(c.recipient, c.amount)];
        assert ApplyTx(m, log[0]) == w;
        assert log[1..] == [Tx.Deposit(c.recipient, c.amount)];
        assert ApplyTx(w.balances, log[1..][0]) == d;
        assert log[1..][1..] == [];
        assert ReplayFrom(w.balances, log[1..]) == Ok(d.balances);
        assert Exec(m, c, rollback).balances == d.balances;
      }
    }
  }

  /** The records of a whole run with no torn send, replayed from its start, rebuild its final balances. */
  lemma {:induction false} RunReplays(m: Balances, cmds: seq<Command>, rollback: bool)
    requires rollback || TornFree(m, cmds)
    ensures ReplayFrom(m, Run(m, cmds, rollback).log) == Ok(Run(m, cmds, rollback).balances)
    decreases |cmds|
  {
    if cmds != [] {
      var first := Exec(m, cmds[0], rollback);
      var rest := Run(first.balances, cmds[1..], rollback);
      ExecReplays(m, cmds[0], rollback);
      RunReplays(first.balances, cmds[1..], rollback);
      ReplayFromAppend(m, first.log, rest.log);
    }
  }

  /** A run made only of deposits and withdrawals has no torn send. */
  lemma {:induction false} NoSendIsTornFree(m: Balances, cmds: seq<Command>)
    requires forall i :: 0 <= i < |cmds| ==> !cmds[i].SendCmd?
    ensures TornFree(m, cmds)
    decreases |cmds|
  {
    if cmds != [] {
      NoSendIsTornFree(Exec(m, cmds[0], false).balances, cmds[1..]);
    }
  }

  /** The claim on `Tx`, for runs of deposits and withdrawals: replay from empty rebuilds the ledger, every step succeeding. */
  lemma ReplayRebuildsLedger(cmds: seq<Command>)
    requires forall i :: 0 <= i < |cmds| ==> !cmds[i].SendCmd?
    ensures Replay(Run(map[], cmds, false).log) == Ok(Run(map[], cmds, false).balances)
  {
    NoSendIsTornFree(map[], cmds);
    RunReplays(map[], cmds, false);
  }

  /** The claim on `Tx` holds for every run once send rolls back. */
  lemma ReplayRebuildsLedgerWithRollback(cmds: seq<Command>)
    ensures Replay(Run(map[], cmds, true).log) == Ok(Run(map[], cmds, true).balances)
  {
    RunReplays(map[], cmds, true);
  }

  /** The two records of a successful send, replayed in order, reproduce that send's effect. */
  lemma SendRecordsReplay(m: Balances, sender: string, recipient: string, amount: u64)
    ensures var s := SendStep(m, sender, recipient, amount);
      s.result.Ok? ==> ReplayFrom(m, [s.result.value.0, s.result.value.1]) == Ok(s.balances)
  {
    if SendStep(m, sender, recipient, amount).result.Ok? {
      ExecReplays(m, SendCmd(sender, recipient, amount), false);
    }
  }

  /**
   * With the send as written the claim fails: alice sends 50 to bob, who
   * already holds the maximum; the send fails but alice stays debited, and the
   * log holds only the two opening deposits, which replay to alice holding 50.
   */
  lemma TornSendBreaksReplay()
    ensures var cmds := [DepositCmd("alice", 50), DepositCmd("bob", MAX as u64), SendCmd("alice", "bob", 50)];
      && Run(map[], cmds, false).balances == map["alice" := 0, "bob" := MAX as u64]
      && Replay(Run(map[], cmds, false).log) == Ok(map["alice" := 50, "bob" := MAX as u64])
  {
    var cmds := [DepositCmd("alice", 50), DepositCmd("bob", MAX as u64), SendCmd("alice", "bob", 50)];
    var m1 := map["alice" := 50 as u64];
    var m2 := m1["bob" := MAX as u64];
    var m3 := m2["alice" := 0];
    assert Exec(map[], cmds[0], false) == Session([Tx.Deposit("alice", 50)], m1);
    assert Exec(m1, cmds[1], false) == Session([Tx.Deposit("bob", MAX as u64)], m2);
    assert Torn(m2, cmds[2]);
    assert Exec(m2, cmds[2], false) == Session([], m3);
    var c2, c1 := cmds[2..], cmds[1..];
    assert c2[0] == cmds[2] && c2[1..] == [];
    assert Run(m2, c2, false) == Session([], m3);
    assert c1[0] == cmds[1] && c1[1..] == c2;
    assert Run(m1, c1, false) == Session([Tx.Deposit("bob", MAX as u64)], m3);
    var log := [Tx.Deposit("alice", 50), Tx.Deposit("bob", MAX as u64)];
    assert Run(map[], cmds, false) == Session(log, m3);
    assert m3 == map["alice" := 0, "bob" := MAX as u64];
    assert ApplyTx(map[], log[0]) == Step(Ok(log[0]), m1);
    assert ApplyTx(m1, log[1..][0]) == Step(Ok(log[1]), m2);
    assert log[1..][1..] == [];
    assert ReplayFrom(m1, log[1..]) == Ok(m2);
    assert m2 == map["alice" := 50, "bob" := MAX as u64];
  }
}
