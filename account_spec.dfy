/** Value-level specification of a bank account's balance: what opening an
    account and withdrawing from it do to a balance, with the two failure kinds
    the account reports in place of throwing. */
module AccountSpec {

  /** The two failure kinds: `InvalidAmountException` and
      `InsufficientFundsException`. */
  datatype Error = InvalidAmount | InsufficientFunds

  /** The outcome of an operation that either yields a value or fails with an
      `Error` and changes nothing. */
  datatype Result<T> = Ok(value: T) | Fail(error: Error)

  /** The balance a new account starts with, or the failure opening it
      reports. A negative initial balance is refused; zero is accepted. */
  function OpenBalance(initialBalance: real): (r: Result<real>)
    ensures r.Ok? <==> initialBalance >= 0.0
    ensures r.Ok? ==> r.value == initialBalance && r.value >= 0.0
    ensures r.Fail? ==> r.error == InvalidAmount
  {
    if initialBalance < 0.0 then Fail(InvalidAmount) else Ok(initialBalance)
  }

  /** One withdrawal of `amount` from `balance`: the amount guard runs first,
      the funds guard second, and only then is the amount subtracted. On
      success the result carries the new balance. */
  function WithdrawStep(balance: real, amount: real): (r: Result<real>)
    // a non-positive amount is always reported as invalid, whatever the balance
    ensures amount <= 0.0 ==> r == Fail(InvalidAmount)
    ensures r == Fail(InsufficientFunds) <==> 0.0 < amount && balance < amount
    ensures r.Ok? <==> 0.0 < amount <= balance
    // a success never overdraws, strictly lowers the balance and conserves money
    ensures r.Ok? ==> 0.0 <= r.value < balance && r.value + amount == balance
  {
    if amount <= 0.0 then Fail(InvalidAmount)
    else if amount > balance then Fail(InsufficientFunds)
    else Ok(balance - amount)
  }

  /** Withdrawing exactly the whole (positive) balance is allowed and empties
      the account. */
  lemma WithdrawWholeBalance(balance: real)
    requires balance > 0.0
    ensures WithdrawStep(balance, balance) == Ok(0.0)
  {
  }
}
