/** The bank accounts of Banks.py and the two operations that drive them.
    Each `with account.lock:` block is one atomic step here; the locks, the
    processing delays, the threads and the console report are not modelled. */
module Banks {
  import opened BalanceRules

  /** A named account whose balance is updated in place. */
  class BankAccount {
    var name: string
    var balance: int

    constructor (name: string, initialBalance: int)
      ensures this.name == name && balance == initialBalance
    {
      this.name := name;
      balance := initialBalance;
    }

    /** Guarded withdrawal; `ok` is the success or failure the source reports. */
    method Withdraw(amount: int) returns (ok: bool)
      modifies this
      ensures Withdrawal(ok, balance) == Withdrawn(old(balance), amount)
      ensures name == old(name)
    {
      if balance >= amount {
        balance := balance - amount;
        ok := true;
      } else {
        ok := false;
      }
    }

    /** Unconditional deposit. */
    method Deposit(amount: int)
      modifies this
      ensures balance == Deposited(old(balance), amount)
      ensures name == old(name)
    {
      balance := balance + amount;
    }

    method GetBalance() returns (b: int)
      ensures b == balance
    {
      b := balance;
    }

    method GetName() returns (n: string)
      ensures n == name
    {
      n := name;
    }
  }

  /** Withdraws from `from`, then deposits to `to` without looking at the
      outcome of the withdrawal. The two accounts may be one and the same. */
  method Transfer(from: BankAccount, to: BankAccount, amount: int)
    modifies from, to
    ensures from != to ==>
      Pair(from.balance, to.balance) == Transferred(old(from.balance), old(to.balance), amount)
    ensures from == to ==> from.balance == SelfTransferred(old(from.balance), amount)
    ensures from.name == old(from.name) && to.name == old(to.name)
  {
    var withdrew := from.Withdraw(amount);  // the outcome is not consulted
    to.Deposit(amount);
  }

  /** One guarded withdrawal from a single account. */
  method SimpleWithdraw(account: BankAccount, amount: int) returns (ok: bool)
    modifies account
    ensures Withdrawal(ok, account.balance) == Withdrawn(old(account.balance), amount)
    ensures account.name == old(account.name)
  {
    ok := account.Withdraw(amount);
  }

  /** The sequence run by `main`: Account-A opens with 1000 and Account-B with
      500, then 200 goes from A to B, then 150 is withdrawn from B. Both steps
      succeed, and the final balances are 800 and 550. */
  method DepositThenWithdraw() returns (nameA: string, a: int, nameB: string, b: int, withdrew: bool)
    ensures nameA == "Account-A" && a == 800
    ensures nameB == "Account-B" && b == 550
    ensures withdrew
  {
    var accountA := new BankAccount("Account-A", 1000);
    var accountB := new BankAccount("Account-B", 500);
    Transfer(accountA, accountB, 200);
    withdrew := SimpleWithdraw(accountB, 150);
    nameA := accountA.GetName();
    a := accountA.GetBalance();
    nameB := accountB.GetName();
    b := accountB.GetBalance();
  }
}
