/**
  The Python market's item on sale: a commodity lot offered by one seller
  for a limited time, from which buyers take amounts.
  The wall clock is the `now` parameter.
*/
module PyMarketItem {
  import opened Wrappers
  import opened Errors
  import opened ItemTypes
  import PurchaseRule

  /** Default sale duration, in seconds. */
  const DefaultSaleDuration: int := 60

  /** Seconds of a sale left at `now`: `max(0, duration - elapsed)`. */
  function RemainingAt(start: real, duration: int, now: real): (r: real)
    ensures r >= 0.0
    ensures now - start < duration as real ==> r == duration as real - (now - start)
    ensures r == 0.0 <==> now - start >= duration as real
    ensures start <= now && duration >= 0 ==> r <= duration as real
  {
    var left := duration as real - (now - start);
    if 0.0 >= left then 0.0 else left
  }

  /** A sale is over once strictly more than its duration has elapsed. */
  predicate ExpiredAt(start: real, duration: int, now: real)
  {
    now - start > duration as real
  }

  /**
    Expiry and remaining time agree, except at the exact end of the sale:
    an expired item has no time left and an item with time left is not
    expired, but at elapsed == duration the remaining time is already 0
    while the item is not yet expired.
  */
  lemma ExpiryAgreesWithRemaining(start: real, duration: int, now: real)
    ensures ExpiredAt(start, duration, now) ==> RemainingAt(start, duration, now) == 0.0
    ensures RemainingAt(start, duration, now) > 0.0 ==> !ExpiredAt(start, duration, now)
    ensures now == start + duration as real ==>
      RemainingAt(start, duration, now) == 0.0 && !ExpiredAt(start, duration, now)
  {
  }

  /** `to_dict()`: the fields of an item as they are sent to clients. */
  datatype ItemDict = ItemDict(
    itemId: string, name: string, quantity: real, sellerId: string,
    saleStartTime: real, maxSaleDuration: int, remainingTime: real)

  class MarketItem {
    const itemId: string
    const itemType: ItemType
    const sellerId: string
    const saleStartTime: real
    const maxSaleDuration: int
    var quantity: real

    /** A new item; the sale starts at `now`. */
    constructor (itemId: string, itemType: ItemType, quantity: real, sellerId: string,
                 maxSaleDuration: int, now: real)
      ensures this.itemId == itemId && this.itemType == itemType && this.sellerId == sellerId
      ensures this.quantity == quantity && this.maxSaleDuration == maxSaleDuration
      ensures saleStartTime == now
    {
      this.itemId := itemId;
      this.itemType := itemType;
      this.quantity := quantity;
      this.sellerId := sellerId;
      this.saleStartTime := now;
      this.maxSaleDuration := maxSaleDuration;
    }

    function IsExpired(now: real): bool
    {
      ExpiredAt(saleStartTime, maxSaleDuration, now)
    }

    function GetRemainingTime(now: real): real
    {
      RemainingAt(saleStartTime, maxSaleDuration, now)
    }

    /**
      The dictionary form: the item's own fields, its commodity by value
      (which parses back to the commodity) and the time left at `now`,
      which never exceeds the duration once the sale has begun.
    */
    function ToDict(now: real): (d: ItemDict)
      reads this
      ensures d.itemId == itemId && d.sellerId == sellerId && d.quantity == quantity
      ensures d.saleStartTime == saleStartTime && d.maxSaleDuration == maxSaleDuration
      ensures d.name == Value(itemType) && FromString(d.name) == Success(itemType)
      ensures d.remainingTime == GetRemainingTime(now)
      ensures d.remainingTime >= 0.0
      ensures saleStartTime <= now && maxSaleDuration >= 0 ==> d.remainingTime <= maxSaleDuration as real
    {
      FromStringValue(itemType);
      ItemDict(itemId, Value(itemType), quantity, sellerId, saleStartTime, maxSaleDuration,
               GetRemainingTime(now))
    }

    /** Take `amount` if the item still holds that much. */
    method TryPurchase(amount: real) returns (r: Result<bool, PyError>)
      modifies this
      ensures amount <= 0.0 <==> r.Failure?
      ensures r.Failure? ==> r.error == ValueError(PurchaseRule.NonPositiveMessage)
      ensures r.Success? ==> (r.value <==> amount <= old(quantity))
      ensures quantity == PurchaseRule.After(old(quantity), amount)
    {
      if amount <= 0.0 {
        return Failure(ValueError(PurchaseRule.NonPositiveMessage));
      }
      if quantity >= amount {
        quantity := quantity - amount;
        return Success(true);
      }
      return Success(false);
    }
  }
}
