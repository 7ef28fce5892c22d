/**
  The item of the second Java market: a lot on sale for a positive number
  of seconds, timed in epoch milliseconds (the `nowMillis` parameter),
  which the manager can close before its time is up.
*/
module JavaItemV2 {
  import opened Wrappers
  import opened Errors
  import PurchaseRule

  /** Milliseconds left: none once closed, otherwise `max(0, duration - elapsed)`. */
  function RemainingMillis(startMillis: int, durationMillis: int, forceClosed: bool, nowMillis: int): (r: int)
    ensures r >= 0
    ensures forceClosed ==> r == 0
    ensures r > 0 ==> r == durationMillis - (nowMillis - startMillis)
    ensures nowMillis >= startMillis && durationMillis >= 0 ==> r <= durationMillis
  {
    if forceClosed then 0
    else if 0 >= durationMillis - (nowMillis - startMillis) then 0
    else durationMillis - (nowMillis - startMillis)
  }

  predicate ExpiredAt(startMillis: int, durationMillis: int, forceClosed: bool, nowMillis: int)
  {
    RemainingMillis(startMillis, durationMillis, forceClosed, nowMillis) <= 0 || forceClosed
  }

  /** An item is expired once closed, or once its whole duration has elapsed. */
  lemma ExpiredIff(startMillis: int, durationMillis: int, forceClosed: bool, nowMillis: int)
    ensures ExpiredAt(startMillis, durationMillis, forceClosed, nowMillis)
        <==> forceClosed || nowMillis - startMillis >= durationMillis
  {
  }

  /** What `new Item(...)` throws for a duration that is not positive. */
  const NonPositiveDurationMessage := "Sale duration must be positive"

  class Item {
    const id: string
    const name: string
    const sellerId: string
    const startMillis: int
    const durationMillis: int
    var quantity: real
    var forceClosed: bool

    /** The constructor's body, once its duration check has passed. */
    constructor (id: string, name: string, quantity: real, sellerId: string, durationSeconds: int, nowMillis: int)
      requires durationSeconds > 0
      ensures this.id == id && this.name == name && this.sellerId == sellerId && this.quantity == quantity
      ensures startMillis == nowMillis && durationMillis == durationSeconds * 1000 && !forceClosed
    {
      this.id := id;
      this.name := name;
      this.quantity := quantity;
      this.sellerId := sellerId;
      this.startMillis := nowMillis;
      this.durationMillis := durationSeconds * 1000;
      this.forceClosed := false;
    }

    /** `new Item(...)`: a non-positive duration throws. */
    static method Create(id: string, name: string, quantity: real, sellerId: string, durationSeconds: int, nowMillis: int)
      returns (r: Result<Item, JavaError>)
      ensures durationSeconds <= 0 ==> r == Failure(IllegalArgumentException(NonPositiveDurationMessage))
      ensures durationSeconds > 0 ==>
        && r.Success? && fresh(r.value)
        && r.value.id == id && r.value.name == name && r.value.sellerId == sellerId
        && r.value.quantity == quantity && r.value.startMillis == nowMillis
        && r.value.durationMillis == durationSeconds * 1000 && !r.value.forceClosed
    {
      if durationSeconds <= 0 {
        return Failure(IllegalArgumentException(NonPositiveDurationMessage));
      }
      var item := new Item(id, name, quantity, sellerId, durationSeconds, nowMillis);
      return Success(item);
    }

    function GetRemainingTime(nowMillis: int): int
      reads this
    {
      RemainingMillis(startMillis, durationMillis, forceClosed, nowMillis)
    }

    predicate IsExpired(nowMillis: int)
      reads this
    {
      ExpiredAt(startMillis, durationMillis, forceClosed, nowMillis)
    }

    /**
      Take `amount` if the item is still open and holds that much; a
      non-positive amount throws before anything else is looked at.
    */
    method TryPurchase(amount: real, nowMillis: int) returns (r: Result<bool, JavaError>)
      modifies this
      ensures forceClosed == old(forceClosed)
      ensures amount <= 0.0 <==> r.Failure?
      ensures r.Failure? ==> r.error == IllegalArgumentException(PurchaseRule.NonPositiveMessage)
      ensures old(IsExpired(nowMillis)) ==> quantity == old(quantity) && (r.Success? ==> !r.value)
      ensures !old(IsExpired(nowMillis)) ==>
        && quantity == PurchaseRule.After(old(quantity), amount)
        && (r.Success? ==> (r.value <==> amount <= old(quantity)))
    {
      if amount <= 0.0 {
        return Failure(IllegalArgumentException(PurchaseRule.NonPositiveMessage));
      }
      if IsExpired(nowMillis) || forceClosed {
        return Success(false);
      }
      var current := quantity;
      if current >= amount {
        // The compare-and-set cannot fail: the method is synchronized and
        // nothing else writes the quantity.
        quantity := current - amount;
        return Success(true);
      }
      return Success(false);
    }

    method ForceClose()
      modifies this`forceClosed
      ensures forceClosed
    {
      forceClosed := true;
    }
  }

  /** A closed item refuses every purchase, whatever the time. */
  lemma ClosedItemNeverSells(startMillis: int, durationMillis: int, nowMillis: int)
    ensures ExpiredAt(startMillis, durationMillis, true, nowMillis)
    ensures RemainingMillis(startMillis, durationMillis, true, nowMillis) == 0
  {
  }
}
