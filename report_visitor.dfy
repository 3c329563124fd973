/**
 * ReportVisitor: counts the transactions it visits and sums their amounts.
 * Every visit method updates both counters unconditionally; the report line
 * each visit prints is console output and is not modelled.
 */
module ReportVisitors {
  import opened Transactions

  /** The sum of the amounts of `ts`, added left to right: the value
      `totalAmount` reaches when a fresh ReportVisitor has visited `ts`. */
  function SumAmounts(ts: seq<Transaction>): (s: real)
  {
    if ts == [] then 0.0 else SumAmounts(ts[..|ts| - 1]) + ts[|ts| - 1].amount
  }

  /** Summing splits over concatenation. */
  lemma {:induction false} SumAmountsAppend(a: seq<Transaction>, b: seq<Transaction>)
    ensures SumAmounts(a + b) == SumAmounts(a) + SumAmounts(b)
    decreases |b|
  {
    if b == [] {
      assert a + b == a;
    } else {
      var n := |b| - 1;
      assert (a + b)[..|a + b| - 1] == a + b[..n];
      SumAmountsAppend(a, b[..n]);
    }
  }

  /** The total does not depend on the order of the visits: any reordering
      of the same transactions yields the same total. */
  lemma {:induction false} SumAmountsPermutation(a: seq<Transaction>, b: seq<Transaction>)
    requires multiset(a) == multiset(b)
    ensures SumAmounts(a) == SumAmounts(b)
    decreases |a|
  {
    if a == [] {
      assert |b| == |multiset(b)| == 0;
    } else {
      var n := |a| - 1;
      var j := LastOfPermutation(a, b);
      SumAmountsPermutation(a[..n], b[..j] + b[j + 1..]);
      assert b == b[..j] + [b[j]] + b[j + 1..];
      SumAmountsAppend(b[..j] + [b[j]], b[j + 1..]);
      SumAmountsAppend(b[..j], [b[j]]);
      SumAmountsAppend(b[..j], b[j + 1..]);
      assert SumAmounts([b[j]]) == b[j].amount by {
        assert [b[j]][..0] == [];
      }
    }
  }

  /** A Commission contributes only its amount: changing its interest rate,
      wherever it stands in the sequence, leaves the total unchanged. */
  lemma {:induction false} InterestRateNeverAffectsTotal(ts: seq<Transaction>, i: nat, rate: real)
    requires i < |ts| && ts[i].Commission?
    ensures SumAmounts(ts[i := ts[i].(interestRate := rate)]) == SumAmounts(ts)
  {
    var us := ts[i := ts[i].(interestRate := rate)];
    assert ts == ts[..i] + [ts[i]] + ts[i + 1..];
    assert us == ts[..i] + [us[i]] + ts[i + 1..];
    SumAmountsAppend(ts[..i] + [ts[i]], ts[i + 1..]);
    SumAmountsAppend(ts[..i] + [us[i]], ts[i + 1..]);
    SumAmountsAppend(ts[..i], [ts[i]]);
    SumAmountsAppend(ts[..i], [us[i]]);
    assert [ts[i]][..0] == [] && [us[i]][..0] == [];
  }

  /** What `printSummary` reports: the transaction count and the total. */
  datatype ReportSummary = ReportSummary(totalTransactions: int, totalAmount: real)

  class ReportVisitor {
    var totalTransactions: int
    var totalAmount: real
    /** The visitor methods called on this visitor so far, in call order. */
    ghost var calls: seq<VisitorMethod>
    /** The transactions passed to the visit methods so far, in call order. */
    ghost var visited: seq<Transaction>

    /** A fresh visitor has seen nothing: count 0, total 0. */
    constructor ()
      ensures totalTransactions == 0 && totalAmount == 0.0 && calls == [] && visited == []
    {
      totalTransactions := 0;
      totalAmount := 0.0;
      calls := [];
      visited := [];
    }

    method VisitDeposit(deposit: Transaction)
      requires deposit.Deposit?
      modifies this
      ensures totalTransactions == old(totalTransactions) + 1
      ensures totalAmount == old(totalAmount) + deposit.amount
      ensures calls == old(calls) + [DepositMethod]
      ensures visited == old(visited) + [deposit]
    {
      totalTransactions := totalTransactions + 1;
      totalAmount := totalAmount + deposit.amount;
      calls := calls + [DepositMethod];
      visited := visited + [deposit];
    }

    method VisitWithdrawal(withdrawal: Transaction)
      requires withdrawal.Withdrawal?
      modifies this
      ensures totalTransactions == old(totalTransactions) + 1
      ensures totalAmount == old(totalAmount) + withdrawal.amount
      ensures calls == old(calls) + [WithdrawalMethod]
      ensures visited == old(visited) + [withdrawal]
    {
      totalTransactions := totalTransactions + 1;
      totalAmount := totalAmount + withdrawal.amount;
      calls := calls + [WithdrawalMethod];
      visited := visited + [withdrawal];
    }

    /** Handles a Commission; only its amount enters the total. */
    method VisitLoan(com: Transaction)
      requires com.Commission?
      modifies this
      ensures totalTransactions == old(totalTransactions) + 1
      ensures totalAmount == old(totalAmount) + com.amount
      ensures calls == old(calls) + [LoanMethod]
      ensures visited == old(visited) + [com]
    {
      totalTransactions := totalTransactions + 1;
      totalAmount := totalAmount + com.amount;
      calls := calls + [LoanMethod];
      visited := visited + [com];
    }

    /** A Transfer names two accounts but is counted once and its amount
        added once. */
    method VisitTransfer(transfer: Transaction)
      requires transfer.Transfer?
      modifies this
      ensures totalTransactions == old(totalTransactions) + 1
      ensures totalAmount == old(totalAmount) + transfer.amount
      ensures calls == old(calls) + [TransferMethod]
      ensures visited == old(visited) + [transfer]
    {
      totalTransactions := totalTransactions + 1;
      totalAmount := totalAmount + transfer.amount;
      calls := calls + [TransferMethod];
      visited := visited + [transfer];
    }

    /** `t.accept(this)`: calls exactly the visit method of `t`'s variant,
        once, with `t` itself. Whatever the variant, the count grows by one
        and the total by `t`'s amount. */
    method Accept(t: Transaction)
      modifies this
      ensures calls == old(calls) + [AcceptTarget(t)]
      ensures visited == old(visited) + [t]
      ensures totalTransactions == old(totalTransactions) + 1
      ensures totalAmount == old(totalAmount) + t.amount
    {
      match AcceptTarget(t)
      case DepositMethod => VisitDeposit(t);
      case WithdrawalMethod => VisitWithdrawal(t);
      case LoanMethod => VisitLoan(t);
      case TransferMethod => VisitTransfer(t);
    }

    /** Reports the count and the total; reads the fields and changes nothing. */
    method PrintSummary() returns (summary: ReportSummary)
      ensures summary.totalTransactions == totalTransactions
      ensures summary.totalAmount == totalAmount
    {
      summary := ReportSummary(totalTransactions, totalAmount);
    }
  }
}
