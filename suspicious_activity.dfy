/**
 * SuspiciousActivityCheckVisitor: counts the transactions that cross their
 * variant's threshold. Each threshold is a strict greater-than, so the
 * boundary value itself is not flagged. The audit line printed for a flagged
 * transaction is console output and is not modelled.
 */
module SuspiciousActivity {
  import opened Transactions

  const DepositLimit: real := 10000.0
  const WithdrawalLimit: real := 10000.0
  const InterestRateLimit: real := 15.0
  const TransferLimit: real := 20000.0

  /** Whether the visit method for `t`'s variant flags it. */
  predicate IsSuspicious(t: Transaction)
  {
    match t
    case Deposit(_, amount) => amount > DepositLimit
    case Withdrawal(_, amount) => amount > WithdrawalLimit
    case Commission(_, _, interestRate) => interestRate > InterestRateLimit
    case Transfer(_, _, amount) => amount > TransferLimit
  }

  /** How many of `ts` are flagged, counted left to right: the value
      `suspiciousCount` reaches when a fresh visitor has visited `ts`. It
      never exceeds the number of transactions. */
  function CountFlagged(ts: seq<Transaction>): (n: nat)
    ensures n <= |ts|
  {
    if ts == [] then 0
    else CountFlagged(ts[..|ts| - 1]) + (if IsSuspicious(ts[|ts| - 1]) then 1 else 0)
  }

  /** The positions in `ts` of the transactions that meet their threshold. */
  ghost function FlaggedIndices(ts: seq<Transaction>): (r: set<nat>)
  {
    set i: nat | i < |ts| && IsSuspicious(ts[i])
  }

  /** The count is exactly the number of positions holding a flagged
      transaction. */
  lemma {:induction false} CountFlaggedIsFlaggedIndices(ts: seq<Transaction>)
    ensures CountFlagged(ts) == |FlaggedIndices(ts)|
  {
    if ts != [] {
      var n := |ts| - 1;
      CountFlaggedIsFlaggedIndices(ts[..n]);
      var before := FlaggedIndices(ts[..n]);
      if IsSuspicious(ts[n]) {
        assert FlaggedIndices(ts) == before + {n};
      } else {
        assert FlaggedIndices(ts) == before;
      }
    }
  }

  /** Counting splits over concatenation. */
  lemma {:induction false} CountFlaggedAppend(a: seq<Transaction>, b: seq<Transaction>)
    ensures CountFlagged(a + b) == CountFlagged(a) + CountFlagged(b)
    decreases |b|
  {
    if b == [] {
      assert a + b == a;
    } else {
      var n := |b| - 1;
      assert (a + b)[..|a + b| - 1] == a + b[..n];
      CountFlaggedAppend(a, b[..n]);
    }
  }

  /** Visiting more transactions never lowers the count, and each further
      transaction raises it by at most one. */
  lemma {:induction false} CountFlaggedMonotone(ts: seq<Transaction>, i: nat, j: nat)
    requires i <= j <= |ts|
    ensures CountFlagged(ts[..i]) <= CountFlagged(ts[..j]) <= CountFlagged(ts[..i]) + (j - i)
    decreases j - i
  {
    if i < j {
      CountFlaggedMonotone(ts, i, j - 1);
      assert ts[..j][..j - 1] == ts[..j - 1];
    }
  }

  /** The count does not depend on the order of the visits. */
  lemma {:induction false} CountFlaggedPermutation(a: seq<Transaction>, b: seq<Transaction>)
    requires multiset(a) == multiset(b)
    ensures CountFlagged(a) == CountFlagged(b)
    decreases |a|
  {
    if a == [] {
      assert |b| == |multiset(b)| == 0;
    } else {
      var n := |a| - 1;
      var j := LastOfPermutation(a, b);
      CountFlaggedPermutation(a[..n], b[..j] + b[j + 1..]);
      assert b == b[..j] + [b[j]] + b[j + 1..];
      CountFlaggedAppend(b[..j] + [b[j]], b[j + 1..]);
      CountFlaggedAppend(b[..j], [b[j]]);
      CountFlaggedAppend(b[..j], b[j + 1..]);
      assert [b[j]][..0] == [];
    }
  }

  /** A Deposit is flagged exactly when its amount exceeds 10000. */
  lemma DepositThreshold(accountNumber: string, amount: real)
    ensures IsSuspicious(Deposit(accountNumber, amount)) <==> amount > 10000.0
  {
  }

  /** A Withdrawal is flagged exactly when its amount exceeds 10000. */
  lemma WithdrawalThreshold(accountNumber: string, amount: real)
    ensures IsSuspicious(Withdrawal(accountNumber, amount)) <==> amount > 10000.0
  {
  }

  /** A Commission is flagged exactly when its rate exceeds 15, whatever its
      amount. */
  lemma CommissionThreshold(accountNumber: string, amount: real, interestRate: real)
    ensures IsSuspicious(Commission(accountNumber, amount, interestRate)) <==> interestRate > 15.0
  {
  }

  /** A Transfer is flagged exactly when its amount exceeds 20000. */
  lemma TransferThreshold(fromAccount: string, toAccount: string, amount: real)
    ensures IsSuspicious(Transfer(fromAccount, toAccount, amount)) <==> amount > 20000.0
  {
  }

  /** The boundaries are exclusive, and the same 15000 that flags a Deposit
      does not flag a Transfer. */
  lemma ThresholdBoundaries(a: string, b: string)
    ensures !IsSuspicious(Deposit(a, 10000.0)) && IsSuspicious(Deposit(a, 10000.01))
    ensures !IsSuspicious(Withdrawal(a, 10000.0)) && IsSuspicious(Withdrawal(a, 10000.01))
    ensures !IsSuspicious(Commission(a, 1000000.0, 15.0)) && IsSuspicious(Commission(a, 0.0, 15.01))
    ensures !IsSuspicious(Transfer(a, b, 20000.0)) && IsSuspicious(Transfer(a, b, 20000.01))
    ensures IsSuspicious(Deposit(a, 15000.0)) && !IsSuspicious(Transfer(a, b, 15000.0))
  {
  }

  /** What `printSummary` reports: the fixed "none detected" message when the
      count is 0, the count otherwise. */
  datatype AuditSummary = NoSuspiciousActivity | SuspiciousActivityFound(count: int)

  class SuspiciousActivityCheckVisitor {
    var suspiciousCount: int
    /** The visitor methods called on this visitor so far, in call order. */
    ghost var calls: seq<VisitorMethod>
    /** The transactions passed to the visit methods so far, in call order. */
    ghost var visited: seq<Transaction>

    /** A fresh visitor has flagged nothing. */
    constructor ()
      ensures suspiciousCount == 0 && calls == [] && visited == []
    {
      suspiciousCount := 0;
      calls := [];
      visited := [];
    }

    method VisitDeposit(deposit: Transaction)
      requires deposit.Deposit?
      modifies this
      ensures suspiciousCount == old(suspiciousCount) + (if IsSuspicious(deposit) then 1 else 0)
      ensures calls == old(calls) + [DepositMethod]
      ensures visited == old(visited) + [deposit]
    {
      if deposit.amount > DepositLimit {
        suspiciousCount := suspiciousCount + 1;
      }
      calls := calls + [DepositMethod];
      visited := visited + [deposit];
    }

    method VisitWithdrawal(withdrawal: Transaction)
      requires withdrawal.Withdrawal?
      modifies this
      ensures suspiciousCount == old(suspiciousCount) + (if IsSuspicious(withdrawal) then 1 else 0)
      ensures calls == old(calls) + [WithdrawalMethod]
      ensures visited == old(visited) + [withdrawal]
    {
      if withdrawal.amount > WithdrawalLimit {
        suspiciousCount := suspiciousCount + 1;
      }
      calls := calls + [WithdrawalMethod];
      visited := visited + [withdrawal];
    }

    /** Handles a Commission; only its interest rate is checked. */
    method VisitLoan(com: Transaction)
      requires com.Commission?
      modifies this
      ensures suspiciousCount == old(suspiciousCount) + (if IsSuspicious(com) then 1 else 0)
      ensures calls == old(calls) + [LoanMethod]
      ensures visited == old(visited) + [com]
    {
      if com.interestRate > InterestRateLimit {
        suspiciousCount := suspiciousCount + 1;
      }
      calls := calls + [LoanMethod];
      visited := visited + [com];
    }

    method VisitTransfer(transfer: Transaction)
      requires transfer.Transfer?
      modifies this
      ensures suspiciousCount == old(suspiciousCount) + (if IsSuspicious(transfer) then 1 else 0)
      ensures calls == old(calls) + [TransferMethod]
      ensures visited == old(visited) + [transfer]
    {
      if transfer.amount > TransferLimit {
        suspiciousCount := suspiciousCount + 1;
      }
      calls := calls + [TransferMethod];
      visited := visited + [transfer];
    }

    /** `t.accept(this)`: calls exactly the visit method of `t`'s variant,
        once, with `t` itself; the count grows by one if `t` is flagged and
        stays put otherwise. */
    method Accept(t: Transaction)
      modifies this
      ensures calls == old(calls) + [AcceptTarget(t)]
      ensures visited == old(visited) + [t]
      ensures suspiciousCount == old(suspiciousCount) + (if IsSuspicious(t) then 1 else 0)
    {
      match AcceptTarget(t)
      case DepositMethod => VisitDeposit(t);
      case WithdrawalMethod => VisitWithdrawal(t);
      case LoanMethod => VisitLoan(t);
      case TransferMethod => VisitTransfer(t);
    }

    /** Takes the "none detected" branch exactly when the count is 0, reports
        the count otherwise, and changes nothing. */
    method PrintSummary() returns (summary: AuditSummary)
      ensures summary.NoSuspiciousActivity? <==> suspiciousCount == 0
      ensures summary.SuspiciousActivityFound? ==> summary.count == suspiciousCount
    {
      if suspiciousCount == 0 {
        summary := NoSuspiciousActivity;
      } else {
        summary := SuspiciousActivityFound(suspiciousCount);
      }
    }
  }
}
