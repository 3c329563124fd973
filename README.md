# Transaction visitors

A model of a small Java program that demonstrates the visitor pattern on
financial transactions. Four immutable transaction kinds (Deposit,
Withdrawal, Commission, Transfer) each dispatch, through `accept`, to one
method of a visitor. Two visitors accumulate state over a list of
transactions:

- `ReportVisitor` counts the transactions and sums their amounts.
- `SuspiciousActivityCheckVisitor` counts the transactions that cross their
  kind's strict threshold: Deposit or Withdrawal above 10000, Commission with
  an interest rate above 15, Transfer above 20000.

The driver builds a fixed list of six transactions. It runs one full pass
of a fresh report visitor over it, then one full pass of a fresh audit
visitor, and asks each for its summary.

Layout:

- `transactions.dfy` (module `Transactions`) holds the four classes as one
  `datatype Transaction`, whose destructors are the getters. It also holds
  the visitor interface's four methods as `VisitorMethod` and the dispatch
  choice of `accept` as `AcceptTarget`.
- `report_visitor.dfy` (module `ReportVisitors`) has the specification
  function `SumAmounts` and the class `ReportVisitor`.
- `suspicious_activity.dfy` (module `SuspiciousActivity`) has the thresholds,
  `IsSuspicious`, `CountFlagged` and the class
  `SuspiciousActivityCheckVisitor`.
- `processing.dfy` (module `Processing`) has the two passes of the main
  routine (`ProcessAll`) and the fixed sample run (`RunSample`).

Each visitor is a class whose fields the visit methods update in place. A
visit method takes a `Transaction` and requires it to be of its own variant,
just as the Java parameter type does. `Accept(t)` on a visitor stands for
`t.accept(visitor)`, the four `accept` bodies of
src/main/java/com/company/concreteElements/Deposit.java:15-18,
Withdrawal.java:15-18, Commission.java:17-20 and Transfer.java:17-20. It
matches on `AcceptTarget(t)` and calls that one visit method with `t`. Two ghost logs record, in call order, which visit methods ran
(`calls`) and which transactions they were given (`visited`).
The passes loop over a `seq<Transaction>`. Their loop invariants tie the
visitor fields to `SumAmounts`, the prefix length and `CountFlagged` of the
prefix already visited.

On the sample list, the code gives a report total of 50000: four amounts of
5000 and two of 15000. `RunSample` and `SampleTotals` prove count 6, total 50000
and 2 suspicious activities.

## Model

| member | source | states |
|---|---|---|
| `Transactions.AcceptTarget` | src/main/java/com/company/concreteElements/Commission.java:17-20 | each variant is routed to exactly its own visitor method, in both directions: Deposit to visitDeposit, Withdrawal to visitWithdrawal, Commission (and only Commission) to visitLoan, Transfer to visitTransfer |
| `Transactions.AcceptTargetIsOneToOne` | src/main/java/com/company/visitor/TransactionVisitor.java:9-12 | two transactions reach the same visitor method iff they are of the same variant |
| `Transactions.DepositKeepsArguments` | src/main/java/com/company/concreteElements/Deposit.java:10-27 | for any account and any amount (zero or negative too), the getters return the constructor's arguments |
| `Transactions.WithdrawalKeepsArguments` | src/main/java/com/company/concreteElements/Withdrawal.java:10-27 | for any account and any amount, the getters return the constructor's arguments |
| `Transactions.CommissionKeepsArguments` | src/main/java/com/company/concreteElements/Commission.java:11-33 | argument order (account, amount, rate); any amount and rate are stored and returned unchanged |
| `Transactions.TransferKeepsArguments` | src/main/java/com/company/concreteElements/Transfer.java:11-33 | argument order (from, to, amount); from and to may be equal; the getters return the first, second and third arguments |
| `ReportVisitors.SumAmountsPermutation` | src/main/java/com/company/concreteVisitor/ReportVisitor.java:14-44 | the total reached over a sequence does not depend on visit order: any reordering gives the same sum |
| `ReportVisitors.InterestRateNeverAffectsTotal` | src/main/java/com/company/concreteVisitor/ReportVisitor.java:30-34 | changing a Commission's interest rate, at any position, never changes the total |
| `ReportVisitors.ReportVisitor.constructor` | src/main/java/com/company/concreteVisitor/ReportVisitor.java:10-11 | a fresh report visitor has count 0 and total 0 |
| `ReportVisitors.ReportVisitor.VisitDeposit` | src/main/java/com/company/concreteVisitor/ReportVisitor.java:14-19 | count grows by exactly 1; total grows by exactly the deposit's amount, unconditionally |
| `ReportVisitors.ReportVisitor.VisitWithdrawal` | src/main/java/com/company/concreteVisitor/ReportVisitor.java:22-27 | count grows by exactly 1; total grows by exactly the withdrawal's amount |
| `ReportVisitors.ReportVisitor.VisitLoan` | src/main/java/com/company/concreteVisitor/ReportVisitor.java:30-35 | count grows by exactly 1; total grows by the commission's amount only |
| `ReportVisitors.ReportVisitor.VisitTransfer` | src/main/java/com/company/concreteVisitor/ReportVisitor.java:38-44 | a transfer is counted once and its amount added once |
| `ReportVisitors.ReportVisitor.Accept` | src/main/java/com/company/concreteElements/Deposit.java:15-18 | accept calls exactly one visit method, the variant's own, passing the transaction itself; count grows by 1 and total by the amount for every variant |
| `ReportVisitors.ReportVisitor.PrintSummary` | src/main/java/com/company/concreteVisitor/ReportVisitor.java:46-50 | reports the current count and total and modifies nothing |
| `SuspiciousActivity.CountFlagged` | src/main/java/com/company/concreteVisitor/SuspiciousActivityCheckVisitor.java:13-42 | the number flagged never exceeds the number of transactions |
| `SuspiciousActivity.CountFlaggedIsFlaggedIndices` | src/main/java/com/company/concreteVisitor/SuspiciousActivityCheckVisitor.java:13-42 | the count after a pass equals the number of positions whose transaction meets its variant's threshold |
| `SuspiciousActivity.CountFlaggedMonotone` | src/main/java/com/company/concreteVisitor/SuspiciousActivityCheckVisitor.java:14-41 | over a longer prefix the count never decreases and grows by at most one per extra transaction |
| `SuspiciousActivity.CountFlaggedPermutation` | src/main/java/com/company/concreteVisitor/SuspiciousActivityCheckVisitor.java:13-42 | the count does not depend on visit order |
| `SuspiciousActivity.DepositThreshold` | src/main/java/com/company/concreteVisitor/SuspiciousActivityCheckVisitor.java:14-17 | a Deposit is flagged iff its amount > 10000 |
| `SuspiciousActivity.WithdrawalThreshold` | src/main/java/com/company/concreteVisitor/SuspiciousActivityCheckVisitor.java:22-25 | a Withdrawal is flagged iff its amount > 10000 |
| `SuspiciousActivity.CommissionThreshold` | src/main/java/com/company/concreteVisitor/SuspiciousActivityCheckVisitor.java:30-33 | a Commission is flagged iff its interest rate > 15, whatever its amount |
| `SuspiciousActivity.TransferThreshold` | src/main/java/com/company/concreteVisitor/SuspiciousActivityCheckVisitor.java:38-41 | a Transfer is flagged iff its amount > 20000 |
| `SuspiciousActivity.ThresholdBoundaries` | src/main/java/com/company/concreteVisitor/SuspiciousActivityCheckVisitor.java:14-41 | every boundary value itself is not flagged and the value just above it is; 15000 flags a Deposit but not a Transfer |
| `SuspiciousActivity.SuspiciousActivityCheckVisitor.constructor` | src/main/java/com/company/concreteVisitor/SuspiciousActivityCheckVisitor.java:10 | a fresh audit visitor has count 0 |
| `SuspiciousActivity.SuspiciousActivityCheckVisitor.VisitDeposit` | src/main/java/com/company/concreteVisitor/SuspiciousActivityCheckVisitor.java:13-18 | count grows by 1 if the deposit is flagged, else stays the same |
| `SuspiciousActivity.SuspiciousActivityCheckVisitor.VisitWithdrawal` | src/main/java/com/company/concreteVisitor/SuspiciousActivityCheckVisitor.java:21-26 | count grows by 1 if the withdrawal is flagged, else stays the same |
| `SuspiciousActivity.SuspiciousActivityCheckVisitor.VisitLoan` | src/main/java/com/company/concreteVisitor/SuspiciousActivityCheckVisitor.java:29-34 | count grows by 1 if the commission's rate is flagged, else stays the same |
| `SuspiciousActivity.SuspiciousActivityCheckVisitor.VisitTransfer` | src/main/java/com/company/concreteVisitor/SuspiciousActivityCheckVisitor.java:37-42 | count grows by 1 if the transfer is flagged, else stays the same |
| `SuspiciousActivity.SuspiciousActivityCheckVisitor.Accept` | src/main/java/com/company/concreteElements/Transfer.java:17-20 | accept calls exactly the variant's own visit method once, passing the transaction itself; the count grows by 0 or 1, never decreases |
| `SuspiciousActivity.SuspiciousActivityCheckVisitor.PrintSummary` | src/main/java/com/company/concreteVisitor/SuspiciousActivityCheckVisitor.java:44-51 | the "none detected" branch is taken iff the count is 0; otherwise the count is reported; nothing is modified |
| `Processing.ProcessAll` | src/main/java/com/company/Main.java:24-43 | announces the list size; the report pass gives count = length and total = sum of amounts; the audit pass, on its own visitor, gives the flagged count; each visitor gets one accept per element, in list order, and is passed exactly the list's elements in that order |
| `Processing.SampleTransactions` | src/main/java/com/company/Main.java:16-22 | the sample list holds exactly six transactions |
| `Processing.SampleTotals` | src/main/java/com/company/Main.java:17-22 | on the sample list the amounts sum to 50000, two are flagged, and these are the 15000 Deposit and the rate-18 Commission |
| `Processing.RunSample` | src/main/java/com/company/Main.java:15-44 | the main routine announces 6, reports count 6 and total 50000, and finds 2 suspicious activities |

## Left out

- Console output: the report lines, the audit lines, the section banners and the summary wording. The summaries are modelled as values (`ReportSummary`, `AuditSummary`), so the branch that the audit summary takes is kept.
- Java `double` arithmetic: amounts and rates are exact `real`s, so rounding in `totalAmount += …` is not modelled. Every value in the sample list is exactly representable.
- Java `int` wrap-around of the two counters past 2^31 - 1 is not modelled; the counters are unbounded integers.
- The `Transaction` and `TransactionVisitor` interfaces as runtime types: dispatch is a `match` on the datatype (`AcceptTarget`). Each visitor class carries its own `Accept`, because a visitor interface type cannot be expressed here.
- Account-number strings are only stored and returned; nothing reads them.
- Immutability of the transaction objects is by construction: datatype values cannot be changed, so it has no lemma of its own.
