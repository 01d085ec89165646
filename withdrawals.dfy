/** What a series of withdrawal requests does to one account: each request is
    handled as `Withdraw` handles it, and a refused request leaves the balance
    as it was before the next one is made. */
module Withdrawals {
  import opened AccountSpec

  /** The balance left after the requests `amounts`, made in order against an
      account holding `balance`. It never goes negative and never grows. */
  function Replay(balance: real, amounts: seq<real>): (final: real)
    requires balance >= 0.0
    ensures 0.0 <= final <= balance
    decreases |amounts|
  {
    if amounts == [] then balance
    else
      match WithdrawStep(balance, amounts[0])
      case Ok(next) => Replay(next, amounts[1..])
      case Fail(_) => Replay(balance, amounts[1..])
  }

  /** Making `first` and then `rest` is the same as making them as one
      series: the balance is the only state carried between requests. */
  lemma {:induction false} ReplayConcat(balance: real, first: seq<real>, rest: seq<real>)
    requires balance >= 0.0
    ensures Replay(balance, first + rest) == Replay(Replay(balance, first), rest)
    decreases |first|
  {
    if first == [] {
      assert first + rest == rest;
    } else {
      assert (first + rest)[0] == first[0];
      assert (first + rest)[1..] == first[1..] + rest;
      match WithdrawStep(balance, first[0])
      case Ok(next) => ReplayConcat(next, first[1..], rest);
      case Fail(_) => ReplayConcat(balance, first[1..], rest);
    }
  }

  /** A series made only of requests for zero or negative amounts leaves the
      balance unchanged, whatever the balance. */
  lemma {:induction false} ReplayInvalidAmounts(balance: real, amounts: seq<real>)
    requires balance >= 0.0
    requires forall i :: 0 <= i < |amounts| ==> amounts[i] <= 0.0
    ensures Replay(balance, amounts) == balance
  {
    if amounts != [] {
      assert amounts[0] <= 0.0;
      ReplayInvalidAmounts(balance, amounts[1..]);
    }
  }

  /** A request for a zero or negative amount can be removed from anywhere in
      a series without changing the final balance. */
  lemma ReplayDropInvalid(balance: real, before: seq<real>, amount: real, after: seq<real>)
    requires balance >= 0.0
    requires amount <= 0.0
    ensures Replay(balance, before + [amount] + after) == Replay(balance, before + after)
  {
    var middle := Replay(balance, before);
    ReplayConcat(balance, before + [amount], after);
    ReplayConcat(balance, before, [amount]);
    ReplayInvalidAmounts(middle, [amount]);
    ReplayConcat(balance, before, after);
  }

  /** A refused request, repeated any number of times, is refused every time
      and leaves the balance unchanged. */
  lemma {:induction false} ReplayRepeatedFailure(balance: real, amount: real, n: nat)
    requires balance >= 0.0
    requires WithdrawStep(balance, amount).Fail?
    ensures Replay(balance, seq(n, _ => amount)) == balance
  {
    if n > 0 {
      var repeated := seq(n, _ => amount);
      assert repeated[0] == amount;
      assert repeated[1..] == seq(n - 1, _ => amount);
      ReplayRepeatedFailure(balance, amount, n - 1);
    }
  }
}
