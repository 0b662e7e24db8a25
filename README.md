# Bank ledger with a teller loop — Dafny model

This project models the account ledger and the teller ("ATM") dispatch of a
small banking simulation written in C++ (`Project.cpp`).

- **Accounts.** A base account has a number and a balance and supports
  `deposit` and a strict `withdraw`. A savings account adds
  `calculateInterest`. A checking account adds `checkOverdraft`, a second
  withdrawal path with its own admission test.
- **Customers.** A customer owns an ordered list of accounts that only grows,
  by appending.
- **Transactions.** A `Deposit` or `Withdrawal` binds one account and an
  amount, is stamped with a date, and forwards `execute` to the account.
- **Teller.** The teller validates an account number with a linear scan. It
  calls two authentication hooks that always succeed. It then resolves the
  account with a second scan, runs the chosen operation and reports the
  receipt data.

Layout, one module per component of `Project.cpp`:

- `accounts.dfy` (module `Accounts`). The balance rules as functions of the
  old balance: `Deposited`, `StrictWithdraw`, `OverdraftWithdraw`, `Interest`.
  Lemmas about these rules. The class `Account`, whose variant is a `const`
  tag `AccountKind` (`Plain`, `Savings(interestRate)`,
  `Checking(overdraftLimit)`). Its methods update `balance` in place.
- `customers.dfy` (module `Customers`). `Numbers` lists the account numbers
  of a list of accounts. `FirstIndex` specifies the first-match scan. The
  class `Customer` holds the account list, a `seq` that `AddAccount` extends.
- `transactions.dfy` (module `Transactions`). The class `Transaction`, whose
  variant is a `const` tag (`DepositKind`, `WithdrawalKind`). `Executed` is
  the balance a transaction leaves behind.
- `teller.dfy` (module `Teller`). `Validate`, `Verify`, `Authenticate`,
  `Lookup` and the receipt data. `Step` is one iteration of the `main` loop
  body. `Serve` is the loop over a finite list of parsed commands, and `Run`
  is that loop with the consequences of its contract spelled out. `Open` is
  the start-up with the fixed rate 3.0 and limit 200.0.
- The same module also gives the loop's meaning on values. The balances are
  a `map` from account object to balance (`Snapshot` reads them from the
  heap), so an account listed twice is one entry. `Apply` gives the balances
  after one command and `Expected` its outcome. `Session` runs a command list
  up to and including the first exit. `Step`, `Serve` and `Run` are proved to
  compute exactly these.
- `scenarios.dfy` (module `Scenarios`). Worked sessions whose results follow
  from the contracts alone.

Modelling choices:

- Balances, interest rates and overdraft limits are `real`, so interest is
  exact.
- Each printed notice becomes a result:
  - `withdraw` and `checkOverdraft` return `ok`; `false` stands for the
    "Insufficient balance." or "Overdraft limit exceeded." message;
  - a teller step returns an `Outcome`: `Exited`, `AccountNotFound`,
    `Printed(receipt, declined)`, `BalanceShown(balance)` or `InvalidChoice`.
- The getters `getBalance`, `getAccountNo`, `getAmount`, `getDate`,
  `getAccount` and `getAccounts` become reads of the fields `balance`,
  `accountNo`, `amount`, `date`, `account` and `accounts`.
- `accountNo`, the account variant and all transaction fields are `const`,
  so no method can change them.
- `GetReceipt` (Project.cpp:136-143) builds the receipt data from a
  transaction and an account. `printReceipt` only forwards to it, so it has no
  model of its own.

Two behaviours of the program that the model keeps as they are:

- The code accepts negative amounts. Nothing stops a negative deposit or a
  negative transaction amount, so the model has no such precondition.
- A `Withdrawal` transaction always uses the strict rule (Project.cpp:107-109
  calls the base `withdraw`), even on a checking account. The overdraft path
  is reachable only by calling `CheckOverdraft` directly. `PoliciesDiverge`
  and `WithdrawalIgnoresOverdraft` show the difference, and `TellerSession`
  shows it through the teller.

## Model

| member | source | states |
|---|---|---|
| `Accounts.Deposited` | Project.cpp:13-15 | a deposit raises the balance by exactly the amount; a non-negative amount never lowers it |
| `Accounts.StrictAdmits` | Project.cpp:17 | the base withdrawal is admitted iff paying the amount out leaves a balance of at least zero |
| `Accounts.OverdraftAdmits` | Project.cpp:47 | the overdraft withdrawal is admitted iff paying the amount out leaves a balance of at least minus the limit |
| `Accounts.StrictWithdraw` | Project.cpp:16-22 | an admitted withdrawal (amount <= balance) subtracts the amount and a refused one leaves the balance, so the rule holds both ways; it never takes the balance below zero unless the balance was already there and stays unchanged |
| `Accounts.OverdraftWithdraw` | Project.cpp:46-52 | an admitted overdraft withdrawal (balance + limit >= amount) subtracts the amount and a refused one leaves the balance, both ways; it never takes the balance below minus the limit unless unchanged |
| `Accounts.Interest` | Project.cpp:36-38 | one interest computation multiplies the balance by 1 + rate/100; a non-negative balance at a non-negative rate never shrinks; a negative one at a positive rate grows more negative |
| `Accounts.CompoundedIsPower` | Project.cpp:36-38 | n consecutive interest computations multiply the balance by (1 + rate/100) to the n-th power |
| `Accounts.InterestTwiceCompounds` | Project.cpp:36-38 | two interest computations give b + 2bq + bq² (q = rate/100), which is never the simple-interest b + 2bq when b and the rate are non-zero |
| `Accounts.StrictAdmitsImpliesOverdraftAdmits` | Project.cpp:46-52 | with a non-negative limit, every amount the strict rule admits the overdraft rule admits too, with the same resulting balance |
| `Accounts.PoliciesDiverge` | Project.cpp:46-52 | an amount above the balance but within balance + limit is refused by the strict rule and paid by the overdraft rule |
| `Accounts.Account.constructor` | Project.cpp:12 | an account is opened with the given number, initial balance and variant |
| `Accounts.Account.Deposit` | Project.cpp:13-15 | balance' = balance + amount; the number never changes (it is `const`) |
| `Accounts.Account.Withdraw` | Project.cpp:16-22 | ok iff amount <= balance; if ok, balance' = balance - amount; otherwise the balance is unchanged |
| `Accounts.Account.CalculateInterest` | Project.cpp:36-38 | on a savings account, balance' = balance + balance * (rate / 100) |
| `Accounts.Account.CheckOverdraft` | Project.cpp:46-52 | on a checking account, ok iff balance + limit >= amount; if ok, balance' = balance - amount; otherwise unchanged |
| `Customers.FirstIndex` | Project.cpp:190-195 | the scan finds a position iff the number occurs; the position holds the number and no earlier position does |
| `Customers.NumbersAppend` | Project.cpp:61-63 | appending an account appends its number to the customer's list of numbers |
| `Customers.FirstIndexAppend` | Project.cpp:61-63 | after appending, a number already present is found at the same position, and an absent one only at the new position |
| `Customers.FirstIndexUnique` | Project.cpp:190-195 | any position holding the number with no earlier match is the position the scan returns |
| `Customers.Customer.constructor` | Project.cpp:60 | a new customer has no accounts |
| `Customers.Customer.AddAccount` | Project.cpp:61-63 | the account list becomes the old list plus the new account at the end; there is no uniqueness check |
| `Transactions.WithdrawalIgnoresOverdraft` | Project.cpp:107-109 | a withdrawal transaction leaves the balance unchanged for an amount that only the overdraft rule would pay |
| `Transactions.Executed` | Project.cpp:94-109 | a deposit adds the amount; a withdrawal subtracts it when amount <= balance and otherwise leaves the balance; the overdraft limit plays no part |
| `Transactions.DepositThenWithdrawal` | Project.cpp:94-109 | withdrawing the amount just deposited restores the balance when that balance was not negative; on a negative balance the withdrawal is refused and the balance ends at balance + amount |
| `Transactions.Transaction.constructor` | Project.cpp:77-79 | a transaction is bound to its account, amount and creation time |
| `Transactions.Transaction.Execute` | Project.cpp:94-109 | a deposit adds the amount; a withdrawal applies the strict rule, whatever the account variant; only the target account changes; declined iff a withdrawal was not covered |
| `Teller.Validate` | Project.cpp:117-124 | true iff some account of the customer has the number; false for a customer with no accounts; changes nothing |
| `Teller.Verify` | Project.cpp:126-129 | the verification hook always succeeds |
| `Teller.Authenticate` | Project.cpp:131-134 | the authentication hook always succeeds |
| `Teller.Lookup` | Project.cpp:189-195 | returns null iff no account has the number; otherwise returns the first account in list order with that number |
| `Teller.GetReceipt` | Project.cpp:136-143 | the receipt carries the transaction's date and amount and the account's number and current balance |
| `Teller.Apply` | Project.cpp:200-218 | only a deposit or withdrawal of an owned number changes a balance, and only that of the first account with the number; every other command leaves all balances as they are |
| `Teller.Expected` | Project.cpp:178-224 | the reference outcome of one command follows the branch order of the loop body: exit first, then the unknown-account test, then the menu choice (the shape `Responds` describes); a receipt carries the date, number and requested amount and the balance after the transaction has executed, and is marked declined exactly when a withdrawal fails the strict rule; a balance inquiry shows the resolved account's balance |
| `Teller.Session` | Project.cpp:175-226 | running a command list never changes which accounts have a balance |
| `Teller.SessionExtend` | Project.cpp:175-226 | after a prefix of the commands, the next command's outcome is appended to the outcomes so far, and the session either ends there on an exit or goes on from the balances that command leaves |
| `Teller.SessionShape` | Project.cpp:175-226 | a session reports at most one outcome per command, each of the shape `Responds` describes, and stops exactly after the first exit |
| `Teller.SessionWithoutTransfers` | Project.cpp:175-226 | a session with no deposit and no withdrawal leaves every balance as it was |
| `Teller.Resolved` | Project.cpp:189-195 | an owned number resolves to an account of the list that carries that number |
| `Teller.ResolvedIsFirst` | Project.cpp:189-195 | the account a number resolves to is the first in list order with that number (the scan breaks at the first match) |
| `Teller.ResolvedAfterAppend` | Project.cpp:189-195 | opening another account never changes which account an owned number resolves to |
| `Teller.Step` | Project.cpp:178-226 | the outcome is `Expected` and the new balances are `Apply` of the old ones. Spelled out: choice 4 exits and changes nothing; an unknown number reports not-found, before any invalid-choice check, and changes nothing; a deposit or withdrawal changes only the resolved account, as `Executed` says, and its receipt carries the date, the number, the requested amount and the balance after execution, also when a withdrawal is declined; choice 3 shows the balance; other choices report an invalid choice; neither changes anything; the dead not-found and verification-failed branches are proved unreachable |
| `Teller.Serve` | Project.cpp:175-226 | the outcomes and the final balances are exactly those of `Session` on the balances before the loop |
| `Teller.Run` | Project.cpp:175-226 | the outcomes and the final balances are exactly those of `Session` on the balances before the loop, so every receipt, every shown balance and every final balance is determined; one outcome per command processed, stopping right after the first exit; without deposits or withdrawals no balance changes |
| `Teller.Open` | Project.cpp:154-170 | start-up yields a fresh customer holding, in order, a fresh savings account at 3% and a fresh checking account with limit 200, with the given numbers and balances |
| `Scenarios.SavingsSession` | Project.cpp:13-38 | savings account opened with 1000 at 3%: deposit 500 gives 1500, withdrawing 2000 is refused and leaves 1500, interest gives 1545 |
| `Scenarios.CheckingSession` | Project.cpp:46-52 | checking account opened with 100, limit 200: overdraft 250 is paid, leaving -150; overdraft 100 is then refused, leaving -150 |
| `Scenarios.ValidateSession` | Project.cpp:117-124 | with accounts 10 and 20, number 30 does not validate and 20 does |
| `Scenarios.TellerSession` | Project.cpp:210-218 | through the teller, withdrawing 250 from a checking account holding 100 is declined despite the 200 limit; the receipt shows 100; an unknown number with an off-menu choice reports not-found |
| `Scenarios.LoopCommandsTail` | Project.cpp:178-226 | with account 2 holding 100, an inquiry on 2, an exit and a deposit show 100, then exit, leave every balance as it was and never process the deposit |
| `Scenarios.LoopCommandsFromWithdrawal` | Project.cpp:199-224 | with account 2 holding 100, a withdrawal of 250 from it is declined and receipted with 100, followed by the outcomes of `LoopCommandsTail` |
| `Scenarios.LoopCommandsSession` | Project.cpp:175-226 | on two distinct accounts numbered 1 (holding 1000) and 2 (holding 100), the session of deposit 500 into 1, withdrawal of 250 from 2, inquiry on 2, exit and a deposit is the two receipts (1500, and 100 declined), the balance 100 and the exit, with only account 1's balance changed, to 1500 |
| `Scenarios.LoopSession` | Project.cpp:175-226 | a loop run of deposit 500, a withdrawal of 250 from 100, a balance inquiry, exit and one more deposit reports the two receipts (1500, and 100 declined), the balance 100 and the exit, and never processes the deposit after the exit |

## Left out

- Console I/O: the prompts and the printed messages are not modelled. Each
  message is an outcome tag or a returned flag instead.
- Input parsing: `Run` takes already-parsed commands. Malformed input is not
  modelled.
- End of input: `Run` stops when its finite command list runs out. `Project.cpp`
  loops until choice 4 is read.
- The clock: `time(0)` is a `Timestamp` passed in with each command. The
  `ctime` formatting of the receipt date is not modelled.
- `float` arithmetic: all amounts are exact reals, so rounding and
  single-precision overflow are not modelled.
- Pointer lifetime: `new`/`delete` of the two accounts at the end of `main` is
  not modelled. Transactions and customers keep Dafny object references,
  which never dangle.
- The customer's name and `getName`: they are display-only.
- The "Verification or authentication failed." branch: it is dead because the
  hooks always succeed. So is the second "Account not found." branch, because
  validation already succeeded. They have no outcome tag of their own; `Step`
  proves both unreachable.
- Polymorphism: the C++ class hierarchies become a single class each, with a
  `const` variant tag. A call of a variant's own method requires that variant
  (`requires kind.Savings?`, `requires kind.Checking?`), which is what the
  C++ static types enforce.
