/** Worked sessions against the object model, as a client of the contracts
    above: each result is determined by those contracts alone. */
module Scenarios {
  import opened Accounts
  import opened Customers
  import opened Teller

  /** A savings account opened with 1000 at 3%: a deposit of 500 gives 1500,
      a withdrawal of 2000 is refused and leaves 1500, and one interest
      computation gives 1545. */
  method SavingsSession() returns (afterDeposit: real, withdrawn: bool, afterWithdrawal: real, afterInterest: real)
    ensures afterDeposit == 1500.0
    ensures !withdrawn && afterWithdrawal == 1500.0
    ensures afterInterest == 1545.0
  {
    var savings := new Account(1, 1000.0, Savings(SAVINGS_RATE));
    savings.Deposit(500.0);
    afterDeposit := savings.balance;
    withdrawn := savings.Withdraw(2000.0);
    afterWithdrawal := savings.balance;
    savings.CalculateInterest();
    afterInterest := savings.balance;
  }

  /** A checking account opened with 100 and a limit of 200: an overdraft
      withdrawal of 250 is paid and leaves -150; a further overdraft withdrawal
      of 100 exceeds the limit (-150 + 200 < 100) and is refused. */
  method CheckingSession() returns (first: bool, afterFirst: real, second: bool, afterSecond: real)
    ensures first && afterFirst == -150.0
    ensures !second && afterSecond == -150.0
  {
    var checking := new Account(2, 100.0, Checking(OVERDRAFT_LIMIT));
    first := checking.CheckOverdraft(250.0);
    afterFirst := checking.balance;
    second := checking.CheckOverdraft(100.0);
    afterSecond := checking.balance;
  }

  /** A customer holding accounts 10 and 20: 30 does not validate, 20 does. */
  method ValidateSession() returns (found30: bool, found20: bool)
    ensures !found30 && found20
  {
    var c := new Customer();
    var a10 := new Account(10, 0.0, Plain);
    c.AddAccount(a10);
    var a20 := new Account(20, 0.0, Plain);
    c.AddAccount(a20);
    assert Numbers(c.accounts) == [10, 20];
    found30 := Validate(c, 30);
    found20 := Validate(c, 20);
  }

  /** Through the teller, a withdrawal of 250 from the checking account
      holding 100 is refused even though its overdraft limit of 200 would
      cover it; the receipt still prints, with the unchanged balance. An
      unknown account number with a value that is not on the menu reports
      the unknown account. */
  method TellerSession() returns (withdrawal: Outcome, unknown: Outcome, checkingBalance: real)
    ensures withdrawal == Printed(Receipt(7, 2, 250.0, 100.0), true)
    ensures unknown == AccountNotFound
    ensures checkingBalance == 100.0
  {
    var c := Open(1, 1000.0, 2, 100.0);
    assert Numbers(c.accounts) == [1, 2];
    assert FirstIndex([1, 2], 2) == Some(1);
    withdrawal := Step(c, Command(WITHDRAW, 2, 250.0, 7));
    unknown := Step(c, Command(9, 5, 0.0, 8));
    checkingBalance := c.accounts[1].balance;
  }

  /** The commands of `LoopSession`: deposit 500 into account 1, withdraw
      250 from account 2, ask for the balance of account 2, exit, and a deposit
      after the exit. */
  const LoopCommands: seq<Command> :=
    [Command(DEPOSIT, 1, 500.0, 1), Command(WITHDRAW, 2, 250.0, 2),
     Command(CHECK_BALANCE, 2, 0.0, 3), Command(EXIT, 0, 0.0, 4),
     Command(DEPOSIT, 2, 50.0, 5)]

  /** The last three of `LoopCommands`, with account 2 holding 100: the
      inquiry shows 100, the exit ends the session, the deposit after it is
      never processed, and no balance changes. */
  lemma LoopCommandsTail(accounts: seq<Account>, bal: map<Account, real>, first: Account, second: Account)
    requires accounts == [first, second] && first != second
    requires first.accountNo == 1 && second.accountNo == 2
    requires first in bal && second in bal && bal[second] == 100.0
    ensures Covers(accounts, bal)
    ensures Session(accounts, bal, LoopCommands[2..]) == ([BalanceShown(100.0), Exited], bal)
  {
    var cmds := LoopCommands[2..];
    assert accounts[0] == first && accounts[1] == second;
    assert Numbers(accounts) == [1, 2];
    assert FirstIndex([1, 2], 2) == Some(1);
    assert Resolved(accounts, 2) == second;
    assert cmds[1..] == [cmds[1], cmds[2]] && [cmds[1], cmds[2]][1..] == [cmds[2]];
    assert Session(accounts, bal, cmds[1..]) == ([Exited], bal);
    assert Expected(accounts, bal, cmds[0]) == BalanceShown(100.0);
    assert Apply(accounts, bal, cmds[0]) == bal;
    assert [BalanceShown(100.0)] + [Exited] == [BalanceShown(100.0), Exited];
  }

  /** The last four of `LoopCommands`, with account 1 holding 1500 and
      account 2 holding 100: the withdrawal of 250 is declined and receipted
      with 100, then the rest goes as in `LoopCommandsTail`. */
  lemma LoopCommandsFromWithdrawal(accounts: seq<Account>, bal: map<Account, real>, first: Account, second: Account)
    requires accounts == [first, second] && first != second
    requires first.accountNo == 1 && second.accountNo == 2
    requires first in bal && second in bal && bal[second] == 100.0
    ensures Covers(accounts, bal)
    ensures Session(accounts, bal, LoopCommands[1..])
         == ([Printed(Receipt(2, 2, 250.0, 100.0), true), BalanceShown(100.0), Exited], bal)
  {
    var cmds := LoopCommands[1..];
    assert accounts[0] == first && accounts[1] == second;
    assert Numbers(accounts) == [1, 2];
    assert FirstIndex([1, 2], 2) == Some(1);
    assert Resolved(accounts, 2) == second;
    assert Apply(accounts, bal, cmds[0]) == bal;
    LoopCommandsTail(accounts, bal, first, second);
    assert cmds[1..] == LoopCommands[2..];
    assert Expected(accounts, bal, cmds[0]) == Printed(Receipt(2, 2, 250.0, 100.0), true);
    assert [Printed(Receipt(2, 2, 250.0, 100.0), true)] + [BalanceShown(100.0), Exited]
        == [Printed(Receipt(2, 2, 250.0, 100.0), true), BalanceShown(100.0), Exited];
  }

  /** `LoopCommands` against accounts 1 (holding 1000) and 2 (holding 100):
      the deposit is receipted with 1500, the withdrawal is declined and
      receipted with 100, the inquiry shows 100, the exit ends the session and
      the last deposit is never processed. */
  lemma LoopCommandsSession(accounts: seq<Account>, bal: map<Account, real>, first: Account, second: Account)
    requires accounts == [first, second] && first != second
    requires first.accountNo == 1 && second.accountNo == 2
    requires first in bal && second in bal && bal[first] == 1000.0 && bal[second] == 100.0
    ensures Covers(accounts, bal)
    ensures Session(accounts, bal, LoopCommands)
         == ([Printed(Receipt(1, 1, 500.0, 1500.0), false),
              Printed(Receipt(2, 2, 250.0, 100.0), true),
              BalanceShown(100.0),
              Exited],
             bal[first := 1500.0])
  {
    var cmds := LoopCommands;
    assert accounts[0] == first && accounts[1] == second;
    assert Numbers(accounts) == [1, 2];
    assert FirstIndex([1, 2], 1) == Some(0);
    assert Resolved(accounts, 1) == first;
    var b1 := bal[first := 1500.0];
    assert Apply(accounts, bal, cmds[0]) == b1;
    LoopCommandsFromWithdrawal(accounts, b1, first, second);
    assert Expected(accounts, bal, cmds[0]) == Printed(Receipt(1, 1, 500.0, 1500.0), false);
    assert [Printed(Receipt(1, 1, 500.0, 1500.0), false)]
           + [Printed(Receipt(2, 2, 250.0, 100.0), true), BalanceShown(100.0), Exited]
        == [Printed(Receipt(1, 1, 500.0, 1500.0), false),
            Printed(Receipt(2, 2, 250.0, 100.0), true), BalanceShown(100.0), Exited];
  }

  /** A whole session through the loop, on the accounts of `Open`; the
      command after the exit is never processed. */
  method LoopSession() returns (outcomes: seq<Outcome>, savingsBalance: real, checkingBalance: real)
    ensures outcomes == [Printed(Receipt(1, 1, 500.0, 1500.0), false),
                         Printed(Receipt(2, 2, 250.0, 100.0), true),
                         BalanceShown(100.0),
                         Exited]
    ensures savingsBalance == 1500.0 && checkingBalance == 100.0
  {
    var c := Open(1, 1000.0, 2, 100.0);
    var savings, checking := c.accounts[0], c.accounts[1];
    assert c.accounts == [savings, checking];
    ghost var b0 := Snapshot(c.accounts);
    LoopCommandsSession(c.accounts, b0, savings, checking);
    outcomes := Run(c, LoopCommands);
    assert Snapshot(c.accounts) == b0[savings := 1500.0];
    savingsBalance, checkingBalance := savings.balance, checking.balance;
    assert Snapshot(c.accounts)[savings] == savingsBalance && Snapshot(c.accounts)[checking] == checkingBalance;
  }
}
