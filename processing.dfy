/**
 * The program's driver: a list of transactions, one full pass of a fresh
 * ReportVisitor over it, then one full pass of a fresh
 * SuspiciousActivityCheckVisitor, each followed by that visitor's summary.
 */
module Processing {
  import opened Transactions
  import opened ReportVisitors
  import opened SuspiciousActivity

  /** Runs both passes over `transactions`, in list order, and returns the
      announced list size and the two summaries. The report gives the list
      size and the sum of the amounts; the audit, run on its own visitor,
      gives the number of flagged transactions. Both visitors receive one
      `accept` per element, in list order, each with that element itself. */
  method ProcessAll(transactions: seq<Transaction>)
    returns (announced: int, report: ReportSummary, audit: AuditSummary,
             ghost reportCalls: seq<VisitorMethod>, ghost auditCalls: seq<VisitorMethod>,
             ghost reportVisited: seq<Transaction>, ghost auditVisited: seq<Transaction>)
    ensures announced == |transactions|
    ensures report == ReportSummary(|transactions|, SumAmounts(transactions))
    ensures audit.NoSuspiciousActivity? <==> CountFlagged(transactions) == 0
    ensures audit.SuspiciousActivityFound? ==> audit.count == CountFlagged(transactions)
    ensures |reportCalls| == |auditCalls| == |transactions|
    ensures forall k :: 0 <= k < |transactions| ==>
              reportCalls[k] == auditCalls[k] == AcceptTarget(transactions[k])
    ensures reportVisited == transactions && auditVisited == transactions
  {
    announced := |transactions|;
    var reportVisitor := new ReportVisitor();
    var auditVisitor := new SuspiciousActivityCheckVisitor();

    for i := 0 to |transactions|
      invariant reportVisitor.totalTransactions == i
      invariant reportVisitor.totalAmount == SumAmounts(transactions[..i])
      invariant |reportVisitor.calls| == i
      invariant forall k :: 0 <= k < i ==> reportVisitor.calls[k] == AcceptTarget(transactions[k])
      invariant reportVisitor.visited == transactions[..i]
      invariant auditVisitor.suspiciousCount == 0 && auditVisitor.calls == [] && auditVisitor.visited == []
    {
      reportVisitor.Accept(transactions[i]);
      assert transactions[..i + 1][..i] == transactions[..i];
    }
    assert transactions[..|transactions|] == transactions;
    report := reportVisitor.PrintSummary();
    reportCalls, reportVisited := reportVisitor.calls, reportVisitor.visited;

    for i := 0 to |transactions|
      invariant auditVisitor.suspiciousCount == CountFlagged(transactions[..i])
      invariant |auditVisitor.calls| == i
      invariant forall k :: 0 <= k < i ==> auditVisitor.calls[k] == AcceptTarget(transactions[k])
      invariant auditVisitor.visited == transactions[..i]
    {
      auditVisitor.Accept(transactions[i]);
      assert transactions[..i + 1][..i] == transactions[..i];
    }
    audit := auditVisitor.PrintSummary();
    auditCalls, auditVisited := auditVisitor.calls, auditVisitor.visited;
  }

  /** The fixed list the program processes, in the order it is built. */
  function SampleTransactions(): (ts: seq<Transaction>)
    ensures |ts| == 6
  {
    [ Deposit("ACC001", 5000.0),
      Withdrawal("ACC002", 5000.0),
      Commission("ACC002", 5000.0, 5.5),
      Transfer("ACC001", "ACC002", 5000.0),
      Deposit("ACC003", 15000.0),
      Commission("ACC003", 15000.0, 18.0) ]
  }

  /** On the sample list the amounts add up to 50000 (four of 5000 and two
      of 15000), and exactly two
      transactions are flagged: the 15000 Deposit (position 4) and the
      rate-18 Commission (position 5); the 5.5 Commission and the 5000
      Transfer are not. */
  lemma SampleTotals()
    ensures SumAmounts(SampleTransactions()) == 50000.0
    ensures CountFlagged(SampleTransactions()) == 2
    ensures FlaggedIndices(SampleTransactions()) == {4, 5}
  {
    var ts := SampleTransactions();
    assert ts[..5][..4] == ts[..4] && ts[..4][..3] == ts[..3];
    assert ts[..3][..2] == ts[..2] && ts[..2][..1] == ts[..1] && ts[..1][..0] == ts[..0] == [];
    calc {
      SumAmounts(ts);
      SumAmounts(ts[..5]) + 15000.0;
      SumAmounts(ts[..4]) + 15000.0 + 15000.0;
      SumAmounts(ts[..3]) + 5000.0 + 30000.0;
      SumAmounts(ts[..2]) + 5000.0 + 35000.0;
      SumAmounts(ts[..1]) + 5000.0 + 40000.0;
      SumAmounts(ts[..0]) + 5000.0 + 45000.0;
      50000.0;
    }
    CountFlaggedIsFlaggedIndices(ts);
    assert FlaggedIndices(ts) == {4, 5} by {
      forall i: nat | i < 6 ensures IsSuspicious(ts[i]) <==> i == 4 || i == 5 {
      }
    }
  }

  /** The program's main routine: builds the sample list by six successive
      additions, announces 6 transactions, and the two passes report count 6,
      total 50000 and 2 suspicious activities. */
  method RunSample() returns (announced: int, report: ReportSummary, audit: AuditSummary)
    ensures announced == 6
    ensures report == ReportSummary(6, 50000.0)
    ensures audit == SuspiciousActivityFound(2)
  {
    var transactions: seq<Transaction> := [];
    transactions := transactions + [Deposit("ACC001", 5000.0)];
    transactions := transactions + [Withdrawal("ACC002", 5000.0)];
    transactions := transactions + [Commission("ACC002", 5000.0, 5.5)];
    transactions := transactions + [Transfer("ACC001", "ACC002", 5000.0)];
    transactions := transactions + [Deposit("ACC003", 15000.0)];
    transactions := transactions + [Commission("ACC003", 15000.0, 18.0)];
    assert transactions == SampleTransactions();
    SampleTotals();
    ghost var reportCalls, auditCalls, reportVisited, auditVisited;
    announced, report, audit, reportCalls, auditCalls, reportVisited, auditVisited := ProcessAll(transactions);
  }
}
