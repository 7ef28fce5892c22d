/** A seller's stock of one commodity, validated on construction. */
module ItemStocks {
  import opened Wrappers
  import opened Errors
  import opened ItemTypes

  datatype ItemStock = ItemStock(itemType: ItemType, quantity: real, maxQuantity: real)

  /** What construction guarantees of a stock record. */
  predicate WellFormed(s: ItemStock)
  {
    0.0 <= s.quantity <= s.maxQuantity
  }

  /**
    `ItemStock(...)` with its post-init checks, made in the order the
    dataclass makes them: negative quantity, negative maximum, quantity
    above the maximum.
  */
  function NewItemStock(t: ItemType, quantity: real, maxQuantity: real): (r: Result<ItemStock, PyError>)
    ensures r.Success? <==> 0.0 <= quantity <= maxQuantity
    ensures r.Success? ==> WellFormed(r.value) && r.value == ItemStock(t, quantity, maxQuantity)
    ensures quantity < 0.0 ==> r == Failure(ValueError("Quantity cannot be negative"))
    ensures 0.0 <= quantity && maxQuantity < 0.0 ==> r == Failure(ValueError("Max quantity cannot be negative"))
    ensures 0.0 <= quantity && 0.0 <= maxQuantity < quantity ==> r == Failure(ValueError("Quantity cannot exceed max quantity"))
  {
    if quantity < 0.0 then Failure(ValueError("Quantity cannot be negative"))
    else if maxQuantity < 0.0 then Failure(ValueError("Max quantity cannot be negative"))
    else if quantity > maxQuantity then Failure(ValueError("Quantity cannot exceed max quantity"))
    else Success(ItemStock(t, quantity, maxQuantity))
  }

  /** A record built with quantity equal to its maximum, as a seller's opening stock is. */
  lemma FullStockAccepted(t: ItemType, q: real)
    requires q >= 0.0
    ensures NewItemStock(t, q, q) == Success(ItemStock(t, q, q))
    ensures WellFormed(ItemStock(t, q, q))
  {
  }
}
