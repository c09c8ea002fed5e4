# Bank accounts and transfers, modelled in Dafny

This project models the balance arithmetic of a small demonstration of two bank
accounts (`Banks.py`). A `BankAccount` has a name and a balance. `withdraw`
subtracts only when the balance covers the amount and otherwise reports
insufficient funds. `deposit` adds without any condition. `transfer` withdraws
from one account and then deposits into the other, each step inside that
account's own lock. `simple_withdraw` performs one locked withdrawal. `main`
opens Account-A with 1000 and Account-B with 500, transfers 200 from A to B,
and then withdraws 150 from B.

Each locked block is modelled as one atomic sequential step. Two modules make
up the model:

- `BalanceRules` (balance_rules.dfy) gives each operation's effect on balances
  as a function of values. Its contracts state what the source does on success
  and on failure. It also proves what follows for any sequence of withdrawals
  and deposits on one account, and for any sequence of transfers between two
  accounts.
- `Banks` (banks.dfy) holds the `BankAccount` class, whose methods update
  `balance` in place. It also holds `Transfer` over two account objects that may
  be the same object, `SimpleWithdraw`, and the `main` scenario. Each mutating method's
  postcondition ties the new fields to the `BalanceRules` function of the old
  ones.

Money is an unbounded integer in the source's own unit. `main` passes whole
numbers. No amount is constrained, because the source validates none: a
negative withdrawal passes the guard whenever the balance is non-negative and
adds money, and a negative deposit subtracts. Only the properties that need a
non-negative amount require one.

A transfer whose withdrawal fails is not rolled back. The code (Banks.py:43-49)
ignores the withdrawal's outcome and deposits anyway, so `to` is credited and
money is created. The model follows the code. `Transferred`, `SelfTransferred`
and `RunTotal` state exactly how much money is created.

## Model

| member | source | states |
|---|---|---|
| BalanceRules.Withdrawn | Banks.py:14-20 | success exactly when amount <= balance; on success the balance drops by the amount, on failure it is unchanged; a successful withdrawal never leaves a negative balance, and a non-negative balance stays non-negative for any amount |
| BalanceRules.Deposited | Banks.py:22-25 | the balance grows by exactly the amount, unconditionally; non-negative stays non-negative for a non-negative amount; from a non-negative balance, a withdrawal of the same amount then succeeds and restores the old balance |
| BalanceRules.Transferred | Banks.py:43-49 | distinct accounts: with enough funds, from loses and to gains the amount and the sum is conserved; without, from is unchanged, to still gains the amount and the sum grows by it |
| BalanceRules.SelfTransferred | Banks.py:43-49 | same account as both ends: with enough funds the balance is unchanged; without, it grows by the amount |
| BalanceRules.Replayed | Banks.py:14-25 | any sequence of withdrawals (any amounts) and non-negative deposits applied to a non-negative balance leaves it non-negative |
| BalanceRules.RunTotal | Banks.py:43-49 | after any sequence of transfers between two accounts, the total equals the initial total plus the amounts of exactly those transfers whose withdrawal failed |
| BalanceRules.CoveredRunCreatesNothing | Banks.py:43-49 | if every withdrawal along the sequence succeeds, no money is created |
| BalanceRules.CoveredRunConserves | Banks.py:43-49 | a sequence of transfers whose withdrawals all succeed conserves the total of the two balances |
| BalanceRules.CreatedNonNegative | Banks.py:43-49 | with non-negative amounts, the missing rollback can only add money: the total never decreases along a sequence of transfers |
| BalanceRules.EnoughFundsCoverAll | Banks.py:43-49 | with non-negative amounts, if each account holds at least the sum it will send, every withdrawal in the sequence succeeds, in any sequential order of whole transfers |
| BalanceRules.OppositeTransfersConserve | Banks.py:43-49 | transfers of 10 in both directions between accounts holding 1000 and 500, at most 500 sent each way, in any sequential order of whole transfers: all succeed and the total stays 1500 |
| Banks.BankAccount.constructor | Banks.py:9-12 | the new account holds the given name and initial balance |
| Banks.BankAccount.Withdraw | Banks.py:14-20 | reported outcome and new balance are those of Withdrawn on the old balance; the name is unchanged |
| Banks.BankAccount.Deposit | Banks.py:22-25 | new balance is Deposited of the old one; the name is unchanged |
| Banks.BankAccount.GetBalance | Banks.py:27-29 | returns the current balance and modifies nothing |
| Banks.BankAccount.GetName | Banks.py:31-33 | returns the name and modifies nothing |
| Banks.Transfer | Banks.py:36-51 | distinct accounts end at Transferred of their old balances, including the credit after a failed withdrawal; when from and to are the same object it ends at SelfTransferred; names are unchanged |
| Banks.SimpleWithdraw | Banks.py:54-63 | exactly the effect and outcome of one withdrawal on the account |
| Banks.DepositThenWithdraw | Banks.py:66-102 | the main sequence (1000 and 500, transfer 200 from A to B, withdraw 150 from B) succeeds and ends with Account-A at 800 and Account-B at 550 |

## Left out

- The per-account `threading.Lock` and the `with` blocks. Each locked block is one atomic step here, so deadlock freedom and interleavings are not modelled.
- Thread creation, `start` and `join` in `main`. The two threads run one after the other there, so the scenario is their sequential composition.
- The `time.sleep` processing delays. They affect timing only.
- All console output, including the thread names and the initial and final balance reports in `main`. Withdrawal success or failure is returned as a `bool` instead of being printed.
- Floating-point money and `:.2f` formatting. Amounts are integers.
- The `if __name__ == "__main__"` entry point.
- Rejection of negative amounts and of a transfer from an account to itself. The source does neither, so the model does neither.
