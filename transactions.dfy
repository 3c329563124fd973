/**
 * The transaction elements of the visitor pattern: the four concrete
 * transaction classes and the visitor interface they dispatch to.
 *
 * Every concrete transaction class is an immutable value holder (its fields
 * are assigned once in the constructor and only read afterwards), so each one
 * becomes a constructor of one datatype. Amounts and interest rates are Java
 * `double`s; they are modelled as exact `real`s.
 */
module Transactions {

  /** Deposit, Withdrawal, Commission and Transfer. The destructors are the
      getters: `amount` is `getAmount`, shared by all four variants (it is the
      one accessor of the Transaction interface); `accountNumber` exists on the
      three single-account variants only, `interestRate` on Commission only,
      `fromAccount`/`toAccount` on Transfer only. */
  datatype Transaction =
    | Deposit(accountNumber: string, amount: real)
    | Withdrawal(accountNumber: string, amount: real)
    | Commission(accountNumber: string, amount: real, interestRate: real)
    | Transfer(fromAccount: string, toAccount: string, amount: real)

  /** The four methods of the visitor interface. Commission is the variant
      handled by `visitLoan`. */
  datatype VisitorMethod = DepositMethod | WithdrawalMethod | LoanMethod | TransferMethod

  /** The visitor method that `accept` calls for `t`: each variant picks
      exactly its own method and no other. */
  function AcceptTarget(t: Transaction): (m: VisitorMethod)
    ensures m == DepositMethod <==> t.Deposit?
    ensures m == WithdrawalMethod <==> t.Withdrawal?
    ensures m == LoanMethod <==> t.Commission?
    ensures m == TransferMethod <==> t.Transfer?
  {
    match t
    case Deposit(_, _) => DepositMethod
    case Withdrawal(_, _) => WithdrawalMethod
    case Commission(_, _, _) => LoanMethod
    case Transfer(_, _, _) => TransferMethod
  }

  /** Two transactions dispatch to the same visitor method exactly when they
      are of the same variant: the correspondence is one-to-one. */
  lemma AcceptTargetIsOneToOne(t: Transaction, u: Transaction)
    ensures AcceptTarget(t) == AcceptTarget(u) <==>
              (t.Deposit? && u.Deposit?) || (t.Withdrawal? && u.Withdrawal?) ||
              (t.Commission? && u.Commission?) || (t.Transfer? && u.Transfer?)
  {
  }

  /** The Deposit constructor stores any account number and any amount,
      zero and negative included, and the getters return them. */
  lemma DepositKeepsArguments(accountNumber: string, amount: real)
    ensures Deposit(accountNumber, amount).accountNumber == accountNumber
    ensures Deposit(accountNumber, amount).amount == amount
  {
  }

  /** The Withdrawal constructor stores any account number and any amount,
      and the getters return them. */
  lemma WithdrawalKeepsArguments(accountNumber: string, amount: real)
    ensures Withdrawal(accountNumber, amount).accountNumber == accountNumber
    ensures Withdrawal(accountNumber, amount).amount == amount
  {
  }

  /** The Commission constructor takes (account, amount, rate) in that order,
      stores any amount and any rate, and the getters return them. */
  lemma CommissionKeepsArguments(accountNumber: string, amount: real, interestRate: real)
    ensures Commission(accountNumber, amount, interestRate).accountNumber == accountNumber
    ensures Commission(accountNumber, amount, interestRate).amount == amount
    ensures Commission(accountNumber, amount, interestRate).interestRate == interestRate
  {
  }

  /** The Transfer constructor takes (from, to, amount) in that order; the two
      accounts may be equal and the amount is not validated. */
  lemma TransferKeepsArguments(fromAccount: string, toAccount: string, amount: real)
    ensures Transfer(fromAccount, toAccount, amount).fromAccount == fromAccount
    ensures Transfer(fromAccount, toAccount, amount).toAccount == toAccount
    ensures Transfer(fromAccount, toAccount, amount).amount == amount
  {
  }

  /** When `b` is a reordering of a non-empty `a`, the last element of `a`
      sits at some index `j` of `b`, and what remains on either side is again
      a reordering of the rest. Both visitors' order-independence rests on it. */
  lemma LastOfPermutation(a: seq<Transaction>, b: seq<Transaction>) returns (j: nat)
    requires a != [] && multiset(a) == multiset(b)
    ensures j < |b| && b[j] == a[|a| - 1]
    ensures multiset(a[..|a| - 1]) == multiset(b[..j] + b[j + 1..])
  {
    var n := |a| - 1;
    assert a == a[..n] + [a[n]];
    assert a[n] in multiset(b);
    j :| 0 <= j < |b| && b[j] == a[n];
    assert b == b[..j] + [b[j]] + b[j + 1..];
    calc {
      multiset(a[..n]) + multiset{a[n]};
      multiset(a);
      multiset(b);
      multiset(b[..j]) + multiset{a[n]} + multiset(b[j + 1..]);
      multiset(b[..j] + b[j + 1..]) + multiset{a[n]};
    }
    assert multiset(a[..n]) == multiset(a[..n]) + multiset{a[n]} - multiset{a[n]};
    assert multiset(b[..j] + b[j + 1..])
        == multiset(b[..j] + b[j + 1..]) + multiset{a[n]} - multiset{a[n]};
  }
}
