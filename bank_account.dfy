/** The `BankAccount` object: a single mutable balance, set once when the
    account is opened and changed afterwards only by `Withdraw`. */
module Bank {
  import opened AccountSpec

  class BankAccount {
    /** The current balance. Of the members below only `Init` and `Withdraw`
        write it. */
    var balance: real

    /** The account invariant: the balance is never negative. */
    ghost predicate Valid()
      reads this
    {
      balance >= 0.0
    }

    /** Stores an initial balance that `Open` has already checked. */
    constructor Init(initialBalance: real)
      requires initialBalance >= 0.0
      ensures Valid() && balance == initialBalance
    {
      balance := initialBalance;
    }

    /** Opens an account. A negative initial balance is refused with
        `InvalidAmount` and no account is allocated; otherwise the new
        account holds exactly the initial balance. */
    static method Open(initialBalance: real) returns (r: Result<BankAccount>)
      ensures initialBalance < 0.0 ==> r == Fail(InvalidAmount)
      ensures initialBalance >= 0.0 ==>
                r.Ok? && fresh(r.value) && r.value.Valid() &&
                r.value.balance == initialBalance
      ensures r.Ok? ==> OpenBalance(initialBalance) == Ok(r.value.balance)
      ensures r.Fail? ==> OpenBalance(initialBalance) == Fail(r.error)
    {
      if initialBalance < 0.0 {
        return Fail(InvalidAmount);
      }
      var account := new BankAccount.Init(initialBalance);
      return Ok(account);
    }

    /** Withdraws `amount`. A non-positive amount fails with `InvalidAmount`,
        an amount above the balance with `InsufficientFunds`, and in both
        cases the balance is unchanged; otherwise the amount is subtracted
        and the new balance returned. */
    method Withdraw(amount: real) returns (r: Result<real>)
      requires Valid()
      modifies this
      ensures Valid()
      ensures r == WithdrawStep(old(balance), amount)
      ensures r.Fail? ==> balance == old(balance)
      ensures r.Ok? ==> balance == r.value == old(balance) - amount
    {
      if amount <= 0.0 {
        return Fail(InvalidAmount);
      }
      if amount > balance {
        return Fail(InsufficientFunds);
      }
      balance := balance - amount;
      return Ok(balance);
    }

    /** The balance as the account shows it; reading it changes nothing. */
    method DisplayBalance() returns (shown: real)
      requires Valid()
      ensures shown == balance && shown >= 0.0
    {
      shown := balance;
    }
  }

  /** A caller that opens an account with the program's demo balance of
      1000.00 and tries a few example withdrawals, relying on the contracts
      above alone. */
  method Scenarios()
  {
    var refused := BankAccount.Open(-1.0);
    assert refused == Fail(InvalidAmount);

    var opening := BankAccount.Open(1000.0);
    var account := opening.value;

    var r := account.Withdraw(1500.0);
    assert r == Fail(InsufficientFunds) && account.balance == 1000.0;

    r := account.Withdraw(0.0);
    assert r == Fail(InvalidAmount) && account.balance == 1000.0;

    r := account.Withdraw(500.0);
    assert r == Ok(500.0) && account.balance == 500.0;

    r := account.Withdraw(500.0);
    assert r == Ok(0.0) && account.balance == 0.0;

    var shown := account.DisplayBalance();
    assert shown == 0.0;
  }
}
