/** Transactions: a one-shot, timestamped request to move an amount against
    exactly one account, which the transaction refers to but does not own. */
module Transactions {
  import opened Accounts

  /** Creation time of a transaction (a `time_t` in Project.cpp). The clock is
      not modelled: the caller passes the value in. */
  type Timestamp = int

  /** The closed set of transaction variants. */
  datatype TransactionKind = DepositKind | WithdrawalKind

  /** Balance of the target account after a transaction of the given kind has
      executed against the given balance. A withdrawal always applies the strict
      base rule, whichever variant the target account is. */
  function Executed(kind: TransactionKind, balance: real, amount: real): (r: real)
    ensures kind == DepositKind ==> r == balance + amount
    ensures kind == WithdrawalKind && amount <= balance ==> r == balance - amount
    ensures kind == WithdrawalKind && amount > balance ==> r == balance
  {
    match kind
    case DepositKind => Deposited(balance, amount)
    case WithdrawalKind => StrictWithdraw(balance, amount)
  }

  /** A withdrawal transaction never uses the overdraft margin of a checking
      account: an amount that only the overdraft rule would admit leaves the
      balance as it was. */
  lemma WithdrawalIgnoresOverdraft(balance: real, limit: real, amount: real)
    requires balance < amount <= balance + limit
    ensures Executed(WithdrawalKind, balance, amount) == balance
    ensures OverdraftWithdraw(balance, limit, amount) == balance - amount
  {
    PoliciesDiverge(balance, limit, amount);
  }

  /** A withdrawal of the amount just deposited undoes the deposit exactly
      when the balance before the deposit was not negative; on an overdrawn
      account it is refused and the deposit stays. */
  lemma DepositThenWithdrawal(balance: real, amount: real)
    ensures balance >= 0.0 ==>
      Executed(WithdrawalKind, Executed(DepositKind, balance, amount), amount) == balance
    ensures balance < 0.0 ==>
      Executed(WithdrawalKind, Executed(DepositKind, balance, amount), amount) == balance + amount
  {
  }

  class Transaction {
    const kind: TransactionKind
    const date: Timestamp
    const amount: real
    const account: Account

    /** Binds a transaction to its target account, amount and creation time. */
    constructor (kind: TransactionKind, account: Account, amount: real, date: Timestamp)
      ensures this.kind == kind && this.account == account
      ensures this.amount == amount && this.date == date
    {
      this.kind := kind;
      this.account := account;
      this.amount := amount;
      this.date := date;
    }

    /** Forwards to the target account: a deposit to `Deposit`, a withdrawal
        to the base `Withdraw`. Only the target's balance changes. `declined`
        stands for the insufficient-balance notice the account prints. */
    method Execute() returns (declined: bool)
      modifies account
      ensures account.balance == Executed(kind, old(account.balance), amount)
      ensures declined <==> kind == WithdrawalKind && !StrictAdmits(old(account.balance), amount)
    {
      match kind
      case DepositKind =>
        account.Deposit(amount);
        declined := false;
      case WithdrawalKind =>
        var ok := account.Withdraw(amount);
        declined := !ok;
    }
  }
}
