/** The account hierarchy of the ledger: a base account with a number and a
    balance, a savings variant that accrues interest and a checking variant with
    a second, overdraft-aware withdrawal path.

    Balances, rates and limits are `float` in the C++ program (Project.cpp);
    here they are exact reals, so the rules below hold without rounding. */
module Accounts {

  /** The closed set of account variants. A savings account carries its
      interest rate (a percentage), a checking account its overdraft limit.
      Both are fixed when the account is opened. */
  datatype AccountKind =
    | Plain
    | Savings(interestRate: real)
    | Checking(overdraftLimit: real)

  // ---------------------------------------------------------------------------
  // The balance rules, as functions of the old balance

  /** Admission test of the base withdrawal: the amount is covered by the
      balance, that is, paying it out leaves a balance of at least zero. */
  predicate StrictAdmits(balance: real, amount: real): (ok: bool)
    ensures ok <==> balance - amount >= 0.0
  {
    amount <= balance
  }

  /** Admission test of the overdraft-aware withdrawal of a checking account:
      paying the amount out leaves a balance of at least minus the limit. */
  predicate OverdraftAdmits(balance: real, limit: real, amount: real): (ok: bool)
    ensures ok <==> balance - amount >= -limit
  {
    balance + limit >= amount
  }

  /** Balance after a deposit: deposits are never refused. */
  function Deposited(balance: real, amount: real): (r: real)
    ensures r - balance == amount
    ensures amount >= 0.0 ==> r >= balance
  {
    balance + amount
  }

  /** Balance after the base (strict) withdrawal. */
  function StrictWithdraw(balance: real, amount: real): (r: real)
    ensures r == balance || r == balance - amount
    ensures StrictAdmits(balance, amount) ==> r == balance - amount
    ensures !StrictAdmits(balance, amount) ==> r == balance
    // an admitted withdrawal never takes the balance below zero
    ensures r >= 0.0 || r == balance
  {
    if StrictAdmits(balance, amount) then balance - amount else balance
  }

  /** Balance after the overdraft-aware withdrawal with the given limit. */
  function OverdraftWithdraw(balance: real, limit: real, amount: real): (r: real)
    ensures r == balance || r == balance - amount
    ensures OverdraftAdmits(balance, limit, amount) ==> r == balance - amount
    ensures !OverdraftAdmits(balance, limit, amount) ==> r == balance
    // an admitted overdraft never takes the balance below minus the limit
    ensures r >= -limit || r == balance
  {
    if OverdraftAdmits(balance, limit, amount) then balance - amount else balance
  }

  /** The factor one interest computation multiplies the balance by. */
  function Growth(rate: real): real {
    1.0 + rate / 100.0
  }

  /** Balance after one interest computation at the given percentage rate. */
  function Interest(balance: real, rate: real): (r: real)
    ensures r == balance * Growth(rate)
    ensures balance >= 0.0 && rate >= 0.0 ==> r >= balance
    ensures balance < 0.0 && rate > 0.0 ==> r < balance
  {
    balance + balance * (rate / 100.0)
  }

  /** Balance after `n` consecutive interest computations. */
  function Compounded(balance: real, rate: real, n: nat): real {
    if n == 0 then balance else Interest(Compounded(balance, rate, n - 1), rate)
  }

  /** `Growth(rate)` raised to the power `n`. */
  function GrowthPower(rate: real, n: nat): real {
    if n == 0 then 1.0 else GrowthPower(rate, n - 1) * Growth(rate)
  }

  // ---------------------------------------------------------------------------
  // Properties of the rules

  /** Repeated interest computations compound: `n` of them multiply the
      balance by the growth factor to the `n`-th power. */
  lemma {:induction false} CompoundedIsPower(balance: real, rate: real, n: nat)
    ensures Compounded(balance, rate, n) == balance * GrowthPower(rate, n)
  {
    if n > 0 {
      CompoundedIsPower(balance, rate, n - 1);
      calc {
        Compounded(balance, rate, n);
        Interest(Compounded(balance, rate, n - 1), rate);
        (balance * GrowthPower(rate, n - 1)) * Growth(rate);
        balance * (GrowthPower(rate, n - 1) * Growth(rate));
      }
    }
  }

  /** Two interest computations are not the same as adding the interest of the
      original balance twice: whenever the balance and the rate are non-zero,
      the second computation also earns interest on the first one's interest. */
  lemma InterestTwiceCompounds(balance: real, rate: real)
    requires balance != 0.0 && rate != 0.0
    ensures Interest(Interest(balance, rate), rate)
         == balance + 2.0 * (balance * (rate / 100.0)) + balance * (rate / 100.0) * (rate / 100.0)
    ensures Interest(Interest(balance, rate), rate) != balance + 2.0 * (balance * (rate / 100.0))
  {
    var q := rate / 100.0;
    var once := balance + balance * q;
    assert once * q == balance * q + balance * q * q;
    var twice := Interest(once, rate);
    assert twice == balance + 2.0 * (balance * q) + balance * q * q;
    SecondOrderTermNonZero(balance, q, twice);
  }

  /** Arithmetic step of `InterestTwiceCompounds`: the second-order term of
      two compoundings is what keeps them apart from simple interest. */
  lemma SecondOrderTermNonZero(b: real, q: real, twice: real)
    requires b != 0.0 && q != 0.0
    requires twice == b + 2.0 * (b * q) + b * q * q
    ensures twice != b + 2.0 * (b * q)
  {
    ProductNonZero(b, q);
    ProductNonZero(b * q, q);
  }

  /** A product of non-zero reals is non-zero. This is an arithmetic step for
      the solver, needed only by `SecondOrderTermNonZero`. */
  lemma ProductNonZero(x: real, y: real)
    requires x != 0.0 && y != 0.0
    ensures x * y != 0.0
  {
  }

  /** Whatever the strict rule admits, the overdraft rule admits too, as long
      as the overdraft limit is not negative. */
  lemma StrictAdmitsImpliesOverdraftAdmits(balance: real, limit: real, amount: real)
    requires limit >= 0.0
    requires StrictAdmits(balance, amount)
    ensures OverdraftAdmits(balance, limit, amount)
    ensures StrictWithdraw(balance, amount) == OverdraftWithdraw(balance, limit, amount)
  {
  }

  /** The two withdrawal policies of a checking account really differ: an
      amount above the balance but within the overdraft margin is refused by
      the strict rule and paid by the overdraft rule. */
  lemma PoliciesDiverge(balance: real, limit: real, amount: real)
    requires balance < amount <= balance + limit
    ensures StrictWithdraw(balance, amount) == balance
    ensures OverdraftWithdraw(balance, limit, amount) == balance - amount
    ensures !StrictAdmits(balance, amount) && OverdraftAdmits(balance, limit, amount)
  {
  }

  // ---------------------------------------------------------------------------
  // The account object

  /** An account. Its number and its variant never change (they are `const`);
      its balance changes only through the methods below. */
  class Account {
    const accountNo: int
    const kind: AccountKind
    var balance: real

    /** Opens an account with the given number, initial balance and variant. */
    constructor (accNo: int, initialBalance: real, kind: AccountKind)
      ensures accountNo == accNo && balance == initialBalance && this.kind == kind
    {
      accountNo := accNo;
      this.kind := kind;
      balance := initialBalance;
    }

    /** Adds the amount to the balance; there is no error path. */
    method Deposit(amount: real)
      modifies this
      ensures balance == old(balance) + amount
      ensures balance == Deposited(old(balance), amount)
    {
      balance := balance + amount;
    }

    /** The base withdrawal: pays out only when the amount is covered by the
        balance; otherwise leaves the balance as it was and reports `ok == false`
        (the insufficient-balance notice). */
    method Withdraw(amount: real) returns (ok: bool)
      modifies this
      ensures ok == (amount <= old(balance))
      ensures ok ==> balance == old(balance) - amount
      ensures !ok ==> balance == old(balance)
      ensures balance == StrictWithdraw(old(balance), amount)
    {
      if amount <= balance {
        balance := balance - amount;
        ok := true;
      } else {
        ok := false;
      }
    }

    /** Compounds the balance of a savings account by its interest rate. */
    method CalculateInterest()
      requires kind.Savings?
      modifies this
      ensures balance == old(balance) + old(balance) * (kind.interestRate / 100.0)
      ensures balance == Interest(old(balance), kind.interestRate)
    {
      balance := balance + balance * (kind.interestRate / 100.0);
    }

    /** The overdraft-aware withdrawal of a checking account: pays out when the
        balance plus the overdraft limit covers the amount; otherwise leaves the
        balance as it was and reports `ok == false` (the limit-exceeded notice). */
    method CheckOverdraft(amount: real) returns (ok: bool)
      requires kind.Checking?
      modifies this
      ensures ok == (old(balance) + kind.overdraftLimit >= amount)
      ensures ok ==> balance == old(balance) - amount
      ensures !ok ==> balance == old(balance)
      ensures balance == OverdraftWithdraw(old(balance), kind.overdraftLimit, amount)
    {
      if balance + kind.overdraftLimit >= amount {
        balance := balance - amount;
        ok := true;
      } else {
        ok := false;
      }
    }
  }
}
