/**
  The item of the first Java market: a lot on sale for 60 seconds,
  timed in whole epoch seconds (the clock is the `nowSecond` parameter).
*/
module JavaItemV1 {
  import opened Wrappers
  import opened Errors
  import PurchaseRule

  /** Every sale lasts this many seconds. */
  const MaxSaleDuration: int := 60

  /** Whole seconds left: `max(0, 60 - elapsed)`. */
  function RemainingSeconds(startSecond: int, nowSecond: int): (r: int)
    ensures r >= 0
    ensures r > 0 ==> r == MaxSaleDuration - (nowSecond - startSecond)
    ensures nowSecond >= startSecond ==> r <= MaxSaleDuration
  {
    if 0 >= MaxSaleDuration - (nowSecond - startSecond) then 0 else MaxSaleDuration - (nowSecond - startSecond)
  }

  /** An item is expired when no time is left. */
  predicate ExpiredAt(startSecond: int, nowSecond: int)
  {
    RemainingSeconds(startSecond, nowSecond) <= 0
  }

  /**
    An item expires exactly when a full 60 seconds have elapsed, so
    at elapsed == 60 it is already expired.
  */
  lemma ExpiredIffFullDuration(startSecond: int, nowSecond: int)
    ensures ExpiredAt(startSecond, nowSecond) <==> nowSecond - startSecond >= MaxSaleDuration
  {
  }

  class Item {
    const id: string
    const name: string
    const sellerId: string
    const startSecond: int
    var quantity: real

    constructor (id: string, name: string, quantity: real, sellerId: string, nowSecond: int)
      ensures this.id == id && this.name == name && this.sellerId == sellerId
      ensures this.quantity == quantity && startSecond == nowSecond
    {
      this.id := id;
      this.name := name;
      this.quantity := quantity;
      this.sellerId := sellerId;
      this.startSecond := nowSecond;
    }

    function GetRemainingTime(nowSecond: int): int
    {
      RemainingSeconds(startSecond, nowSecond)
    }

    predicate IsExpired(nowSecond: int)
    {
      ExpiredAt(startSecond, nowSecond)
    }

    /** Take `amount` if the item still holds that much; a non-positive amount is refused. */
    method TryPurchase(amount: real) returns (r: Result<bool, JavaError>)
      modifies this
      ensures amount <= 0.0 <==> r.Failure?
      ensures r.Failure? ==> r.error == IllegalArgumentException(PurchaseRule.NonPositiveMessage)
      ensures r.Success? ==> (r.value <==> amount <= old(quantity))
      ensures quantity == PurchaseRule.After(old(quantity), amount)
    {
      if amount <= 0.0 {
        return Failure(IllegalArgumentException(PurchaseRule.NonPositiveMessage));
      }
      if quantity >= amount {
        quantity := quantity - amount;
        return Success(true);
      }
      return Success(false);
    }
  }
}
