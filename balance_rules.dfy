/** The balance arithmetic of Banks.py as values: what a withdrawal, a deposit
    and a transfer do to the balances involved, and what follows for any
    sequence of them run one after the other (each locked block of the source
    being one atomic step). Amounts are integers in the source's own unit and
    are not constrained: the source accepts any amount, negative ones included. */
module BalanceRules {

  /** What a withdrawal reports, and the balance it leaves behind. */
  datatype Withdrawal = Withdrawal(ok: bool, balance: int)

  /** A withdrawal subtracts only when the balance covers the amount;
      otherwise it reports failure and leaves the balance exactly as it was. */
  function Withdrawn(balance: int, amount: int): (w: Withdrawal)
    ensures w.ok <==> amount <= balance
    ensures w.ok ==> w.balance == balance - amount
    ensures !w.ok ==> w.balance == balance
    // whatever the amount, a successful withdrawal never leaves a debt,
    // and a non-negative balance stays non-negative
    ensures w.ok ==> 0 <= w.balance
    ensures 0 <= balance ==> 0 <= w.balance
  {
    if balance >= amount then Withdrawal(true, balance - amount)
    else Withdrawal(false, balance)
  }

  /** A deposit adds the amount without any condition; from a non-negative
      balance, withdrawing the same amount afterwards succeeds and restores it. */
  function Deposited(balance: int, amount: int): (r: int)
    ensures r - amount == balance
    ensures 0 <= balance && 0 <= amount ==> 0 <= r
    ensures 0 <= balance ==> Withdrawn(r, amount) == Withdrawal(true, balance)
  {
    balance + amount
  }

  /** The balances of the paying and the receiving account. */
  datatype Pair = Pair(from: int, to: int)

  function Total(p: Pair): int
  {
    p.from + p.to
  }

  /** A transfer between two distinct accounts: a withdrawal from `from`
      followed by a deposit to `to`, whatever the withdrawal reported. When
      the funds suffice the sum is conserved; when they do not, `to` is
      credited all the same and the sum grows by the amount. */
  function Transferred(from: int, to: int, amount: int): (r: Pair)
    ensures amount <= from ==> r == Pair(from - amount, to + amount)
    ensures from < amount ==> r == Pair(from, to + amount)
    ensures amount <= from ==> Total(r) == from + to
    ensures from < amount ==> Total(r) == from + to + amount
  {
    Pair(Withdrawn(from, amount).balance, Deposited(to, amount))
  }

  /** A transfer from an account to itself: with enough funds the balance
      ends where it began; without, the deposit alone goes through. */
  function SelfTransferred(balance: int, amount: int): (r: int)
    ensures amount <= balance ==> r == balance
    ensures balance < amount ==> r == balance + amount
  {
    Deposited(Withdrawn(balance, amount).balance, amount)
  }

  // ---------------------------------------------------------------------
  // Sequences of operations on one account

  /** One locked step on the account: a withdrawal (Debit) or a deposit (Credit). */
  datatype Op = Debit(amount: int) | Credit(amount: int)

  function Applied(balance: int, op: Op): int
  {
    match op
    case Debit(x) => Withdrawn(balance, x).balance
    case Credit(x) => Deposited(balance, x)
  }

  predicate NoNegativeDeposits(ops: seq<Op>)
  {
    forall i :: 0 <= i < |ops| ==> ops[i].Credit? ==> 0 <= ops[i].amount
  }

  /** The balance after the operations, applied in order. Starting from a
      non-negative balance, no sequence of withdrawals (of any amounts) and
      non-negative deposits ever drives it below zero. */
  function Replayed(balance: int, ops: seq<Op>): (r: int)
    ensures 0 <= balance && NoNegativeDeposits(ops) ==> 0 <= r
    decreases |ops|
  {
    if ops == [] then balance
    else
      assert NoNegativeDeposits(ops) ==> NoNegativeDeposits(ops[1..]) by {
        if NoNegativeDeposits(ops) {
          forall i | 0 <= i < |ops[1..]| ensures ops[1..][i].Credit? ==> 0 <= ops[1..][i].amount {
            assert ops[1..][i] == ops[i + 1];
          }
        }
      }
      Replayed(Applied(balance, ops[0]), ops[1..])
  }

  // ---------------------------------------------------------------------
  // Sequences of transfers between two distinct accounts A and B

  datatype Direction = AToB | BToA

  datatype Move = Move(dir: Direction, amount: int)

  /** Balances of account A (`from`) and account B (`to`) after one move: a
      whole transfer, both of its locked blocks, run before the next begins. */
  function Step(s: Pair, m: Move): Pair
  {
    match m.dir
    case AToB => Transferred(s.from, s.to, m.amount)
    case BToA =>
      var r := Transferred(s.to, s.from, m.amount);
      Pair(r.to, r.from)
  }

  /** The paying account of the move holds enough for its withdrawal. */
  predicate Covered(s: Pair, m: Move)
  {
    match m.dir
    case AToB => m.amount <= s.from
    case BToA => m.amount <= s.to
  }

  function Run(s: Pair, moves: seq<Move>): Pair
    decreases |moves|
  {
    if moves == [] then s else Run(Step(s, moves[0]), moves[1..])
  }

  /** The sum of the amounts of the moves whose withdrawal failed: the money
      the missing rollback creates along the run. */
  function Created(s: Pair, moves: seq<Move>): int
    decreases |moves|
  {
    if moves == [] then 0
    else (if Covered(s, moves[0]) then 0 else moves[0].amount) + Created(Step(s, moves[0]), moves[1..])
  }

  predicate AllCovered(s: Pair, moves: seq<Move>)
    decreases |moves|
  {
    moves == [] || (Covered(s, moves[0]) && AllCovered(Step(s, moves[0]), moves[1..]))
  }

  predicate NonNegativeAmounts(moves: seq<Move>)
  {
    forall i :: 0 <= i < |moves| ==> 0 <= moves[i].amount
  }

  /** The sum of the amounts that the moves take out of one direction's payer. */
  function Sent(moves: seq<Move>, dir: Direction): int
    decreases |moves|
  {
    if moves == [] then 0
    else (if moves[0].dir == dir then moves[0].amount else 0) + Sent(moves[1..], dir)
  }

  /** The total of the two balances after a run is the total before plus
      exactly the amounts of the transfers whose withdrawal failed. */
  lemma {:induction false} RunTotal(s: Pair, moves: seq<Move>)
    ensures Total(Run(s, moves)) == Total(s) + Created(s, moves)
    decreases |moves|
  {
    if moves != [] {
      RunTotal(Step(s, moves[0]), moves[1..]);
    }
  }

  /** When every withdrawal along the run succeeds, nothing is created. */
  lemma {:induction false} CoveredRunCreatesNothing(s: Pair, moves: seq<Move>)
    requires AllCovered(s, moves)
    ensures Created(s, moves) == 0
    decreases |moves|
  {
    if moves != [] {
      CoveredRunCreatesNothing(Step(s, moves[0]), moves[1..]);
    }
  }

  /** A run in which every withdrawal succeeds conserves the total. */
  lemma CoveredRunConserves(s: Pair, moves: seq<Move>)
    requires AllCovered(s, moves)
    ensures Total(Run(s, moves)) == Total(s)
  {
    RunTotal(s, moves);
    CoveredRunCreatesNothing(s, moves);
  }

  /** With non-negative amounts the missing rollback can only add money. */
  lemma {:induction false} CreatedNonNegative(s: Pair, moves: seq<Move>)
    requires NonNegativeAmounts(moves)
    ensures 0 <= Created(s, moves)
    ensures Total(s) <= Total(Run(s, moves))
    decreases |moves|
  {
    RunTotal(s, moves);
    if moves != [] {
      assert NonNegativeAmounts(moves[1..]) by {
        forall i | 0 <= i < |moves[1..]| ensures 0 <= moves[1..][i].amount {
          assert moves[1..][i] == moves[i + 1];
        }
      }
      CreatedNonNegative(Step(s, moves[0]), moves[1..]);
    }
  }

  lemma {:induction false} SentNonNegative(moves: seq<Move>, dir: Direction)
    requires NonNegativeAmounts(moves)
    ensures 0 <= Sent(moves, dir)
    decreases |moves|
  {
    if moves != [] {
      assert NonNegativeAmounts(moves[1..]) by {
        forall i | 0 <= i < |moves[1..]| ensures 0 <= moves[1..][i].amount {
          assert moves[1..][i] == moves[i + 1];
        }
      }
      SentNonNegative(moves[1..], dir);
    }
  }

  /** With non-negative amounts, if each account holds at least what the run
      will take out of it, every withdrawal succeeds, in any sequential order
      of whole transfers. */
  lemma {:induction false} EnoughFundsCoverAll(s: Pair, moves: seq<Move>)
    requires NonNegativeAmounts(moves)
    requires Sent(moves, AToB) <= s.from && Sent(moves, BToA) <= s.to
    ensures AllCovered(s, moves)
    decreases |moves|
  {
    if moves != [] {
      var rest := moves[1..];
      assert NonNegativeAmounts(rest) by {
        forall i | 0 <= i < |rest| ensures 0 <= rest[i].amount {
          assert rest[i] == moves[i + 1];
        }
      }
      assert 0 <= moves[0].amount;
      SentNonNegative(rest, AToB);
      SentNonNegative(rest, BToA);
      EnoughFundsCoverAll(Step(s, moves[0]), rest);
    }
  }

  /** Opposite transfers of 10 between accounts holding 1000 and 500, at most
      fifty in each direction, in any sequential order of whole transfers:
      every withdrawal succeeds and the two balances still add up to 1500. */
  lemma OppositeTransfersConserve(moves: seq<Move>)
    requires forall i :: 0 <= i < |moves| ==> moves[i].amount == 10
    requires Sent(moves, AToB) <= 500 && Sent(moves, BToA) <= 500
    ensures AllCovered(Pair(1000, 500), moves)
    ensures Total(Run(Pair(1000, 500), moves)) == 1500
  {
    EnoughFundsCoverAll(Pair(1000, 500), moves);
    CoveredRunConserves(Pair(1000, 500), moves);
  }
}
