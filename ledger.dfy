/**
 * The player's chips: a standing total and the current bet, both 32-bit
 * signed integers, and the rule that a bet may not exceed the total.
 */
module Ledger {
  import opened Wrappers

  const I32_MIN: int := -0x8000_0000
  const I32_MAX: int := 0x7FFF_FFFF

  predicate IsI32(x: int) {
    I32_MIN <= x <= I32_MAX
  }

  /** A value the betting prompt's `parse::<i32>()` can produce. */
  type I32 = x: int | I32_MIN <= x <= I32_MAX

  /**
   * The position of the first bet attempt that does not exceed `total`, the
   * one the betting prompt accepts; None when every attempt is too large.
   */
  function FirstAffordable(attempts: seq<int>, total: int): (r: Option<nat>)
    ensures r.Some? ==> r.value < |attempts| && attempts[r.value] <= total
    ensures r.Some? ==> forall j :: 0 <= j < r.value ==> attempts[j] > total
    ensures r.None? <==> forall j :: 0 <= j < |attempts| ==> attempts[j] > total
  {
    if attempts == [] then None
    else if attempts[0] <= total then Some(0)
    else match FirstAffordable(attempts[1..], total)
      case None => None
      case Some(k) => Some(k + 1)
  }

  class Chips {
    var total: int
    var bet: int

    constructor (total: int, bet: int)
      ensures this.total == total && this.bet == bet
    {
      this.total, this.bet := total, bet;
    }

    /**
     * Adds the bet to the total. The 32-bit addition panics on overflow; then
     * `ok` is false and nothing changes.
     */
    method WinBet() returns (ok: bool)
      modifies this
      ensures ok == IsI32(old(total) + old(bet))
      ensures total == if ok then old(total) + old(bet) else old(total)
      ensures bet == old(bet)
    {
      ok := IsI32(total + bet);
      if ok {
        total := total + bet;
      }
    }

    /**
     * Subtracts the bet from the total. The 32-bit subtraction panics on
     * overflow; then `ok` is false and nothing changes.
     */
    method LoseBet() returns (ok: bool)
      modifies this
      ensures ok == IsI32(old(total) - old(bet))
      ensures total == if ok then old(total) - old(bet) else old(total)
      ensures bet == old(bet)
    {
      ok := IsI32(total - bet);
      if ok {
        total := total - bet;
      }
    }
  }

  /**
   * The betting prompt: reads attempts in order until one does not exceed the
   * total and stores it as the bet. `accepted` is false when the attempts run
   * out first; then the bet is unchanged.
   */
  method TakeBet(chips: Chips, attempts: seq<I32>) returns (accepted: bool)
    modifies chips
    ensures chips.total == old(chips.total)
    ensures accepted <==> FirstAffordable(attempts, old(chips.total)).Some?
    ensures accepted ==> chips.bet == attempts[FirstAffordable(attempts, old(chips.total)).value]
    ensures !accepted ==> chips.bet == old(chips.bet)
  {
    var i := 0;
    while i < |attempts|
      invariant 0 <= i <= |attempts|
      invariant forall j :: 0 <= j < i ==> attempts[j] > chips.total
      invariant chips.total == old(chips.total) && chips.bet == old(chips.bet)
    {
      if attempts[i] > chips.total {
        // "your bet can't exceed the total": ask again
        i := i + 1;
      } else {
        chips.bet := attempts[i];
        return true;
      }
    }
    return false;
  }
}
