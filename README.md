# Bank account withdrawal model

A Dafny model of the `BankAccount` class of a small C# console banking
program. An account holds one balance. It is set when the account is opened,
and a negative initial balance is refused. After that it changes only through
`Withdraw`. `Withdraw` checks two guards in a fixed order before it subtracts:
a non-positive amount is an invalid amount, and an amount above the balance is
insufficient funds. The model proves that the balance is never negative, that
a refused withdrawal changes nothing, and what the balance is after a
successful one.

The model has three modules:

- `AccountSpec` (`account_spec.dfy`): the failure kinds (`Error`), a `Result`
  type used in place of the two exception classes, and the value-level
  meaning of opening an account (`OpenBalance`) and of one withdrawal
  (`WithdrawStep`).
- `Bank` (`bank_account.dfy`): the class `BankAccount` with its mutable
  `balance` field, the invariant `Valid()` (`balance >= 0`), a factory `Open`
  that plays the role of the throwing C# constructor, `Withdraw` (which
  `modifies this` and is proved against `WithdrawStep`) and `DisplayBalance`
  as a pure read. `Scenarios` is a caller that checks example scenarios from the
  contracts alone: it opens an account with the program's demo balance of
  1000.00 (bankapp.cs:53-56), withdraws 1500.00, 0 and 500.00, and tries to
  open one with -1.
- `Withdrawals` (`withdrawals.dfy`): `Replay`, the balance after a series of
  withdrawal requests against one account, each handled by `WithdrawStep`.
  The link to the class goes through `Withdraw`'s postcondition
  `r == WithdrawStep(old(balance), amount)`: each call moves the balance
  exactly as one step of `Replay` does. Its lemmas cover the whole life of an account: the invariant holds
  throughout, invalid amounts never matter, and a refused request can be
  repeated any number of times without effect.

Amounts are `real`. C# `decimal` is exact base-10 arithmetic and `real` is
exact too, so comparisons agree with the source for every amount, and subtraction
agrees for every difference `decimal` represents exactly. Dafny constructors cannot return a
failure, so `Open` checks the guard and then calls the constructor `Init`,
whose precondition is exactly that guard. No account object is allocated on
failure. `Withdraw` returns the new balance on success: this is the value
the source reports after a withdrawal.

No member of the model other than the constructor `Init` and `Withdraw`
writes `balance`, and every operation on an account requires `Valid()`, so an
account whose balance was set to a negative value by other means can no
longer be used.

## Model

| member | source | states |
|---|---|---|
| `AccountSpec.OpenBalance` | bankapp.cs:19-24 | opening succeeds exactly when the initial balance is non-negative, and the account then holds exactly that balance; a negative initial balance fails with `InvalidAmount` |
| `AccountSpec.WithdrawStep` | bankapp.cs:26-34 | a non-positive amount fails with `InvalidAmount` whatever the balance; `InsufficientFunds` exactly when the amount is positive and above the balance; success exactly when `0 < amount <= balance`, and then the new balance is non-negative, strictly lower, and plus the amount equals the old balance |
| `AccountSpec.WithdrawWholeBalance` | bankapp.cs:31-34 | withdrawing exactly the whole positive balance is allowed and leaves a balance of zero |
| `Bank.BankAccount.Init` | bankapp.cs:23 | the new account satisfies the invariant and holds the given initial balance |
| `Bank.BankAccount.Open` | bankapp.cs:19-24 | a negative initial balance fails with `InvalidAmount` and no account is produced; otherwise a fresh account satisfying the invariant holds exactly the initial balance; the outcome and the opening balance are the ones `OpenBalance` gives |
| `Bank.BankAccount.Withdraw` | bankapp.cs:26-35 | keeps the invariant `balance >= 0`; the result is `WithdrawStep` of the old balance; a failure leaves the balance unchanged; a success sets the balance to the old balance minus the amount and returns it |
| `Bank.BankAccount.DisplayBalance` | bankapp.cs:38-41 | returns the current balance, which is non-negative, and changes nothing |
| `Withdrawals.Replay` | bankapp.cs:26-34 | after any series of withdrawal requests on a valid account the balance is non-negative and no higher than at the start |
| `Withdrawals.ReplayConcat` | bankapp.cs:17 | the balance is the only state carried from one withdrawal to the next: two series in a row act as their concatenation |
| `Withdrawals.ReplayInvalidAmounts` | bankapp.cs:28-29 | a series made only of requests for zero or negative amounts leaves any valid balance unchanged |
| `Withdrawals.ReplayDropInvalid` | bankapp.cs:28-29 | a request for a zero or negative amount anywhere in a series can be removed without changing the final balance |
| `Withdrawals.ReplayRepeatedFailure` | bankapp.cs:28-32 | a refused withdrawal repeated any number of times leaves the balance unchanged |

## Left out

- Console output in `Withdraw` and `DisplayBalance`, including the currency formatting of the balance: it is display only and changes no state. `DisplayBalance` returns the value it would print.
- `Program.Main` and its menu loop: console reads and writes, `decimal.TryParse` of the typed amount, and the exception filters, catch-all and `finally` handlers. This is the interactive shell around the account. `Withdrawals.Replay` stands for its effect on the balance: the shell catches every failure and carries on, so a refused request leaves the balance for the next one.
- `Bank.BankAccount.Withdraw`: C# `decimal` holds at most 28-29 significant digits and rounds a difference that needs more; the model subtracts exactly. The two agree whenever the exact difference fits in `decimal`'s precision.
- `Bank.BankAccount`: Dafny has no private setter, so the model does not stop client code from assigning `balance` directly, as the private setter of `Balance` does (bankapp.cs:17). It only guarantees that no member of the model other than `Init` and `Withdraw` writes it.
- The exception message texts: each exception is modelled by its kind only (`InvalidAmount`, `InsufficientFunds`).
- Concurrency: the source is single-threaded and has no synchronisation.
