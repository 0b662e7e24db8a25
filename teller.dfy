/** The teller ("ATM"): validates an account number against a customer,
    resolves the account by a second scan, runs a deposit, a withdrawal or a
    balance inquiry on it, and reports the receipt data. One call of `Step` is
    one iteration of the interactive loop; `Run` is the loop itself over a
    finite list of already-parsed commands. Console messages become outcome
    tags. */
module Teller {
  import opened Accounts
  import opened Customers
  import opened Transactions

  /** Menu choices of the interactive loop. */
  const DEPOSIT := 1
  const WITHDRAW := 2
  const CHECK_BALANCE := 3
  const EXIT := 4

  /** Fixed parameters of the two accounts opened at start-up. */
  const SAVINGS_RATE := 3.0
  const OVERDRAFT_LIMIT := 200.0

  /** One parsed command: the menu choice, the account number, the amount
      (read only for deposits and withdrawals) and the clock value a
      transaction created by it is stamped with. */
  datatype Command = Command(choice: int, accountNo: int, amount: real, date: Timestamp)

  /** Receipt data: transaction date, account number, requested amount and the
      account's balance after the transaction executed. */
  datatype Receipt = Receipt(date: Timestamp, accountNo: int, amount: real, newBalance: real)

  /** What one iteration of the loop reports. `Printed` carries the receipt and
      whether the account printed its insufficient-balance notice first. */
  datatype Outcome =
    | Exited
    | AccountNotFound
    | Printed(receipt: Receipt, declined: bool)
    | BalanceShown(balance: real)
    | InvalidChoice

  /** True iff one of the customer's accounts has number `n`; a linear scan
      that returns at the first match and changes nothing. */
  method Validate(c: Customer, n: int) returns (found: bool)
    ensures found <==> n in Numbers(c.accounts)
    ensures c.accounts == [] ==> !found
  {
    var accounts := c.accounts;
    var i := 0;
    while i < |accounts|
      invariant 0 <= i <= |accounts|
      invariant forall j :: 0 <= j < i ==> accounts[j].accountNo != n
    {
      if accounts[i].accountNo == n {
        assert Numbers(accounts)[i] == n;
        return true;
      }
      i := i + 1;
    }
    return false;
  }

  /** Verification hook; it always succeeds. */
  function Verify(c: Customer): (ok: bool)
    ensures ok
  {
    true
  }

  /** Authentication hook; it always succeeds. */
  function Authenticate(c: Customer): (ok: bool)
    ensures ok
  {
    true
  }

  /** The second scan of the loop body: the first account, in collection
      order, whose number is `n`, or `null` when there is none. */
  method Lookup(c: Customer, n: int) returns (acc: Account?)
    ensures acc == null <==> n !in Numbers(c.accounts)
    ensures acc != null ==> acc.accountNo == n
    ensures match FirstIndex(Numbers(c.accounts), n)
      case None => acc == null
      case Some(i) => acc == c.accounts[i]
  {
    var accounts := c.accounts;
    var i := 0;
    while i < |accounts|
      invariant 0 <= i <= |accounts|
      invariant forall j :: 0 <= j < i ==> accounts[j].accountNo != n
    {
      if accounts[i].accountNo == n {
        FirstIndexUnique(Numbers(accounts), n, i);
        return accounts[i];
      }
      i := i + 1;
    }
    return null;
  }

  /** The receipt data of a transaction against an account: the
      transaction's date and requested amount, the account's number and its
      balance at the time the receipt is made. */
  function GetReceipt(t: Transaction, acc: Account): (r: Receipt)
    reads acc
    ensures r.date == t.date && r.amount == t.amount
    ensures r.accountNo == acc.accountNo && r.newBalance == acc.balance
  {
    Receipt(t.date, acc.accountNo, t.amount, acc.balance)
  }

  /** The account a step resolves `n` to: the first one with that number. */
  function Resolved(accounts: seq<Account>, n: int): (r: Account)
    requires n in Numbers(accounts)
    ensures r in accounts && r.accountNo == n
  {
    accounts[FirstIndex(Numbers(accounts), n).value]
  }

  /** An account with number `n` that no earlier account shares the number
      with is the one `n` resolves to. */
  lemma ResolvedIsFirst(accounts: seq<Account>, n: int, k: nat)
    requires k < |accounts| && accounts[k].accountNo == n
    requires forall j :: 0 <= j < k ==> accounts[j].accountNo != n
    ensures n in Numbers(accounts)
    ensures Resolved(accounts, n) == accounts[k]
  {
    var numbers := Numbers(accounts);
    assert numbers[k] == n;
    forall j | 0 <= j < k
      ensures numbers[j] != n
    {
      assert numbers[j] == accounts[j].accountNo;
    }
    FirstIndexUnique(numbers, n, k);
  }

  /** Opening another account never changes which account an already-owned
      number resolves to: the earlier account still wins the scan. */
  lemma ResolvedAfterAppend(accounts: seq<Account>, acc: Account, n: int)
    requires n in Numbers(accounts)
    ensures n in Numbers(accounts + [acc])
    ensures Resolved(accounts + [acc], n) == Resolved(accounts, n)
  {
    NumbersAppend(accounts, acc);
    FirstIndexAppend(Numbers(accounts), acc.accountNo, n);
    var i := FirstIndex(Numbers(accounts), n).value;
    assert (accounts + [acc])[i] == accounts[i];
  }

  /** The transaction a menu choice creates. */
  function KindOf(choice: int): TransactionKind
    requires choice == DEPOSIT || choice == WITHDRAW
  {
    if choice == DEPOSIT then DepositKind else WithdrawalKind
  }

  // ---------------------------------------------------------------------------
  // Reference semantics of the loop on values: balances keyed by account
  // object, so that an account listed twice is one entry

  /** The current balance of every account of the list. */
  function Snapshot(accounts: seq<Account>): (m: map<Account, real>)
    reads accounts
    ensures forall i :: 0 <= i < |accounts| ==> accounts[i] in m && m[accounts[i]] == accounts[i].balance
    ensures forall a :: a in m ==> a in accounts
  {
    map a | a in accounts :: a.balance
  }

  /** `bal` has a balance for every account of the list. */
  predicate Covers(accounts: seq<Account>, bal: map<Account, real>) {
    forall i :: 0 <= i < |accounts| ==> accounts[i] in bal
  }

  /** The balances after one command: a deposit or a withdrawal of an owned
      number executes against the first account with that number; every other
      command leaves the balances as they are. */
  function Apply(accounts: seq<Account>, bal: map<Account, real>, cmd: Command): (r: map<Account, real>)
    requires Covers(accounts, bal)
    ensures r.Keys == bal.Keys
    ensures forall a :: a in bal && (cmd.accountNo !in Numbers(accounts) || a != Resolved(accounts, cmd.accountNo)) ==> r[a] == bal[a]
    ensures cmd.choice != DEPOSIT && cmd.choice != WITHDRAW ==> r == bal
  {
    if (cmd.choice == DEPOSIT || cmd.choice == WITHDRAW) && cmd.accountNo in Numbers(accounts) then
      var acc := Resolved(accounts, cmd.accountNo);
      bal[acc := Executed(KindOf(cmd.choice), bal[acc], cmd.amount)]
    else
      bal
  }

  /** What one command reports, given the balances before it. */
  function Expected(accounts: seq<Account>, bal: map<Account, real>, cmd: Command): (o: Outcome)
    requires Covers(accounts, bal)
    ensures Responds(cmd, Numbers(accounts), o)
    // a receipt shows the balance after the transaction has executed, and a
    // withdrawal is declined exactly when the strict rule refuses it
    ensures o.Printed? ==>
      var acc := Resolved(accounts, cmd.accountNo);
      && o.receipt.newBalance == Executed(KindOf(cmd.choice), bal[acc], cmd.amount)
      && (o.declined <==> cmd.choice == WITHDRAW && !StrictAdmits(bal[acc], cmd.amount))
    ensures o.BalanceShown? ==> o.balance == bal[Resolved(accounts, cmd.accountNo)]
  {
    if cmd.choice == EXIT then Exited
    else if cmd.accountNo !in Numbers(accounts) then AccountNotFound
    else
      var acc := Resolved(accounts, cmd.accountNo);
      if cmd.choice == DEPOSIT || cmd.choice == WITHDRAW then
        Printed(Receipt(cmd.date, cmd.accountNo, cmd.amount, Apply(accounts, bal, cmd)[acc]),
                cmd.choice == WITHDRAW && !StrictAdmits(bal[acc], cmd.amount))
      else if cmd.choice == CHECK_BALANCE then BalanceShown(bal[acc])
      else InvalidChoice
  }

  /** The interactive loop on values: the outcomes of the commands, in order,
      up to and including the first exit, and the balances afterwards. */
  function Session(accounts: seq<Account>, bal: map<Account, real>, cmds: seq<Command>)
    : (r: (seq<Outcome>, map<Account, real>))
    requires Covers(accounts, bal)
    ensures r.1.Keys == bal.Keys
    decreases |cmds|
  {
    if cmds == [] then ([], bal)
    else
      var o := Expected(accounts, bal, cmds[0]);
      var next := Apply(accounts, bal, cmds[0]);
      if o == Exited then ([o], next)
      else
        var rest := Session(accounts, next, cmds[1..]);
        ([o] + rest.0, rest.1)
  }

  /** Extending a processed prefix of a session by one command: the outcome
      of that command is appended, and the session either ends with it (an
      exit) or goes on from the balances it leaves. */
  lemma SessionExtend(accounts: seq<Account>, start: map<Account, real>, cmds: seq<Command>,
                      i: nat, done: seq<Outcome>, bal: map<Account, real>)
    requires Covers(accounts, start) && Covers(accounts, bal)
    requires i < |cmds|
    requires Session(accounts, start, cmds)
          == (done + Session(accounts, bal, cmds[i..]).0, Session(accounts, bal, cmds[i..]).1)
    ensures Covers(accounts, Apply(accounts, bal, cmds[i]))
    ensures Expected(accounts, bal, cmds[i]) == Exited ==>
      Session(accounts, start, cmds) == (done + [Exited], Apply(accounts, bal, cmds[i]))
    ensures Expected(accounts, bal, cmds[i]) != Exited ==>
      var next := Apply(accounts, bal, cmds[i]);
      Session(accounts, start, cmds)
        == (done + [Expected(accounts, bal, cmds[i])] + Session(accounts, next, cmds[i + 1..]).0,
            Session(accounts, next, cmds[i + 1..]).1)
  {
    assert cmds[i..][0] == cmds[i] && cmds[i..][1..] == cmds[i + 1..];
    var o := Expected(accounts, bal, cmds[i]);
    var next := Apply(accounts, bal, cmds[i]);
    if o != Exited {
      var tail := Session(accounts, next, cmds[i + 1..]);
      Regrouped(done, o, tail.0);
    }
  }

  /** Appending one outcome and then the rest is appending both at once. */
  lemma Regrouped(done: seq<Outcome>, o: Outcome, rest: seq<Outcome>)
    ensures done + ([o] + rest) == done + [o] + rest
  {
  }

  /** The session reports one outcome per command processed, each of the
      shape `Responds` describes, and stops exactly after the first exit. */
  lemma {:induction false} SessionShape(accounts: seq<Account>, bal: map<Account, real>, cmds: seq<Command>,
                                        os: seq<Outcome>)
    requires Covers(accounts, bal)
    requires os == Session(accounts, bal, cmds).0
    ensures |os| <= |cmds|
    ensures forall k :: 0 <= k < |os| ==> Responds(cmds[k], Numbers(accounts), os[k])
    ensures forall k :: 0 <= k < |os| - 1 ==> cmds[k].choice != EXIT
    ensures |os| < |cmds| ==> |os| > 0 && os[|os| - 1] == Exited
    decreases |cmds|
  {
    if cmds != [] {
      var o := Expected(accounts, bal, cmds[0]);
      var next := Apply(accounts, bal, cmds[0]);
      if o != Exited {
        var rest := Session(accounts, next, cmds[1..]).0;
        SessionShape(accounts, next, cmds[1..], rest);
        assert os == [o] + rest;
        forall k | 0 <= k < |os|
          ensures Responds(cmds[k], Numbers(accounts), os[k])
          ensures k < |os| - 1 ==> cmds[k].choice != EXIT
        {
          if k > 0 {
            assert os[k] == rest[k - 1] && cmds[k] == cmds[1..][k - 1];
          }
        }
      }
    }
  }

  /** A session with no deposit and no withdrawal leaves every balance as it was. */
  lemma {:induction false} SessionWithoutTransfers(accounts: seq<Account>, bal: map<Account, real>, cmds: seq<Command>)
    requires Covers(accounts, bal)
    requires forall k :: 0 <= k < |cmds| ==> cmds[k].choice != DEPOSIT && cmds[k].choice != WITHDRAW
    ensures Session(accounts, bal, cmds).1 == bal
    decreases |cmds|
  {
    if cmds != [] && Expected(accounts, bal, cmds[0]) != Exited {
      SessionWithoutTransfers(accounts, bal, cmds[1..]);
    }
  }

  /** The shape of the outcome of one command against a customer whose
      account numbers are `numbers`: exit comes first, then the ownership test,
      and only then the menu choice, so an unknown account number is reported
      even for a menu value that is not on the menu. */
  predicate Responds(cmd: Command, numbers: seq<int>, o: Outcome) {
    if cmd.choice == EXIT then o == Exited
    else if cmd.accountNo !in numbers then o == AccountNotFound
    else if cmd.choice == DEPOSIT || cmd.choice == WITHDRAW then
      && o.Printed?
      && o.receipt.date == cmd.date
      && o.receipt.accountNo == cmd.accountNo
      && o.receipt.amount == cmd.amount
      && (cmd.choice == DEPOSIT ==> !o.declined)
    else if cmd.choice == CHECK_BALANCE then o.BalanceShown?
    else o == InvalidChoice
  }

  /** One iteration of the interactive loop. */
  method Step(c: Customer, cmd: Command) returns (outcome: Outcome)
    modifies c.accounts
    // the reference semantics, on the balances before and after
    ensures Covers(c.accounts, old(Snapshot(c.accounts)))
    ensures outcome == Expected(c.accounts, old(Snapshot(c.accounts)), cmd)
    ensures Snapshot(c.accounts) == Apply(c.accounts, old(Snapshot(c.accounts)), cmd)
    ensures Responds(cmd, Numbers(c.accounts), outcome)
    // exit, an unknown account, a balance inquiry and an invalid choice change nothing
    ensures (|| cmd.choice == EXIT
             || cmd.accountNo !in Numbers(c.accounts)
             || (cmd.choice != DEPOSIT && cmd.choice != WITHDRAW)) ==>
      forall a :: a in c.accounts ==> a.balance == old(a.balance)
    // a deposit or withdrawal changes the resolved account only, as the
    // transaction rules say, and the receipt shows the balance afterwards
    ensures (cmd.choice == DEPOSIT || cmd.choice == WITHDRAW) && cmd.accountNo in Numbers(c.accounts) ==>
      var acc := Resolved(c.accounts, cmd.accountNo);
      && acc.balance == Executed(KindOf(cmd.choice), old(acc.balance), cmd.amount)
      && (forall a :: a in c.accounts && a != acc ==> a.balance == old(a.balance))
      && outcome == Printed(Receipt(cmd.date, cmd.accountNo, cmd.amount, acc.balance),
                            cmd.choice == WITHDRAW && !StrictAdmits(old(acc.balance), cmd.amount))
    ensures cmd.choice == CHECK_BALANCE && cmd.accountNo in Numbers(c.accounts) ==>
      outcome == BalanceShown(Resolved(c.accounts, cmd.accountNo).balance)
  {
    ghost var before := Snapshot(c.accounts);
    if cmd.choice == EXIT {
      return Exited;
    }
    var found := Validate(c, cmd.accountNo);
    if !found {
      return AccountNotFound;
    }
    if !Verify(c) || !Authenticate(c) {
      // the hooks always succeed: the verification-failed branch is dead
      assert false;
    }
    var acc := Lookup(c, cmd.accountNo);
    if acc == null {
      // validation succeeded, so the second scan finds the account
      assert false;
    }
    if cmd.choice == DEPOSIT {
      var deposit := new Transaction(DepositKind, acc, cmd.amount, cmd.date);
      var declined := deposit.Execute();
      outcome := Printed(GetReceipt(deposit, acc), declined);
    } else if cmd.choice == WITHDRAW {
      var withdrawal := new Transaction(WithdrawalKind, acc, cmd.amount, cmd.date);
      var declined := withdrawal.Execute();
      outcome := Printed(GetReceipt(withdrawal, acc), declined);
    } else if cmd.choice == CHECK_BALANCE {
      outcome := BalanceShown(acc.balance);
    } else {
      outcome := InvalidChoice;
    }
    ghost var after := Apply(c.accounts, before, cmd);
    assert Snapshot(c.accounts).Keys == after.Keys;
  }

  /** The interactive loop over a finite list of commands: it computes what
      `Session` says, outcome by outcome and balance by balance, stopping right
      after the first exit. */
  method Serve(c: Customer, commands: seq<Command>) returns (outcomes: seq<Outcome>)
    modifies c.accounts
    ensures Covers(c.accounts, old(Snapshot(c.accounts)))
    ensures (outcomes, Snapshot(c.accounts)) == Session(c.accounts, old(Snapshot(c.accounts)), commands)
  {
    ghost var start := Snapshot(c.accounts);
    ghost var bal := start;
    outcomes := [];
    var i := 0;
    var exited := false;
    assert commands[0..] == commands;
    assert Session(c.accounts, start, commands).0 == [] + Session(c.accounts, start, commands).0;
    while i < |commands| && !exited
      invariant 0 <= i <= |commands|
      invariant bal == Snapshot(c.accounts) && Covers(c.accounts, bal)
      invariant !exited ==>
        Session(c.accounts, start, commands)
          == (outcomes + Session(c.accounts, bal, commands[i..]).0, Session(c.accounts, bal, commands[i..]).1)
      invariant exited ==> Session(c.accounts, start, commands) == (outcomes, bal)
    {
      SessionExtend(c.accounts, start, commands, i, outcomes, bal);
      var outcome := Step(c, commands[i]);
      outcomes := outcomes + [outcome];
      bal := Apply(c.accounts, bal, commands[i]);
      exited := outcome == Exited;
      i := i + 1;
    }
    if !exited {
      assert commands[i..] == [];
      assert outcomes + [] == outcomes;
    }
  }

  /** The interactive session as a whole: the loop, with what `Session`
      implies about its outcomes and balances stated outright. */
  method Run(c: Customer, commands: seq<Command>) returns (outcomes: seq<Outcome>)
    modifies c.accounts
    ensures Covers(c.accounts, old(Snapshot(c.accounts)))
    ensures (outcomes, Snapshot(c.accounts)) == Session(c.accounts, old(Snapshot(c.accounts)), commands)
    ensures |outcomes| <= |commands|
    ensures forall k :: 0 <= k < |outcomes| ==> Responds(commands[k], Numbers(c.accounts), outcomes[k])
    ensures forall k :: 0 <= k < |outcomes| - 1 ==> commands[k].choice != EXIT
    ensures |outcomes| < |commands| ==> |outcomes| > 0 && outcomes[|outcomes| - 1] == Exited
    // with no deposit or withdrawal among the commands, no balance changes
    ensures (forall k :: 0 <= k < |commands| ==> commands[k].choice != DEPOSIT && commands[k].choice != WITHDRAW) ==>
      Snapshot(c.accounts) == old(Snapshot(c.accounts))
  {
    ghost var start := Snapshot(c.accounts);
    outcomes := Serve(c, commands);
    SessionShape(c.accounts, start, commands, outcomes);
    if forall k :: 0 <= k < |commands| ==> commands[k].choice != DEPOSIT && commands[k].choice != WITHDRAW {
      SessionWithoutTransfers(c.accounts, start, commands);
    }
  }

  /** Start-up: a customer with a savings account at the fixed rate and a
      checking account with the fixed overdraft limit, in that order. */
  method Open(savingsNo: int, savingsBalance: real, checkingNo: int, checkingBalance: real)
    returns (c: Customer)
    ensures fresh(c) && |c.accounts| == 2
    ensures fresh(c.accounts[0]) && fresh(c.accounts[1])
    ensures c.accounts[0].accountNo == savingsNo && c.accounts[0].balance == savingsBalance
    ensures c.accounts[0].kind == Savings(SAVINGS_RATE)
    ensures c.accounts[1].accountNo == checkingNo && c.accounts[1].balance == checkingBalance
    ensures c.accounts[1].kind == Checking(OVERDRAFT_LIMIT)
  {
    c := new Customer();
    var savings := new Account(savingsNo, savingsBalance, Savings(SAVINGS_RATE));
    c.AddAccount(savings);
    var checking := new Account(checkingNo, checkingBalance, Checking(OVERDRAFT_LIMIT));
    c.AddAccount(checking);
  }
}
