/**
  The purchase rule every item class in the repository shares: a
  non-positive amount is refused with an error, an amount the item still
  holds is taken off, anything larger is declined and changes nothing.
*/
module PurchaseRule {

  datatype Outcome =
    | InvalidAmount          // amount <= 0: the caller raises or throws
    | Declined               // not enough left; quantity unchanged
    | Accepted(remaining: real)

  /** The error text all versions use for a non-positive amount. */
  const NonPositiveMessage: string := "Purchase amount must be positive"

  function Attempt(quantity: real, amount: real): (r: Outcome)
    ensures r.InvalidAmount? <==> amount <= 0.0
    ensures r.Accepted? <==> 0.0 < amount <= quantity
    ensures r.Accepted? ==> r.remaining == quantity - amount && 0.0 <= r.remaining < quantity
  {
    if amount <= 0.0 then InvalidAmount
    else if quantity >= amount then Accepted(quantity - amount)
    else Declined
  }

  /** The quantity after an attempt: changed only when it is accepted. */
  function After(quantity: real, amount: real): (q: real)
    ensures q <= quantity
    ensures quantity >= 0.0 ==> q >= 0.0
  {
    match Attempt(quantity, amount)
    case Accepted(rest) => rest
    case _ => quantity
  }

  /** The quantity left after a run of attempts, erroneous ones included. */
  function Remaining(quantity: real, amounts: seq<real>): real
    decreases |amounts|
  {
    if |amounts| == 0 then quantity
    else Remaining(After(quantity, amounts[0]), amounts[1..])
  }

  /** The total of the accepted amounts in a run of attempts. */
  function Sold(quantity: real, amounts: seq<real>): real
    decreases |amounts|
  {
    if |amounts| == 0 then 0.0
    else
      var sold0 := if Attempt(quantity, amounts[0]).Accepted? then amounts[0] else 0.0;
      sold0 + Sold(After(quantity, amounts[0]), amounts[1..])
  }

  /**
    Over any run of purchase attempts on an item that starts non-negative,
    the quantity never goes negative, never more is sold than was offered,
    and what is left is exactly what was offered less what was sold.
  */
  lemma {:induction false} RunConserves(quantity: real, amounts: seq<real>)
    requires quantity >= 0.0
    ensures Remaining(quantity, amounts) >= 0.0
    ensures 0.0 <= Sold(quantity, amounts) <= quantity
    ensures Remaining(quantity, amounts) == quantity - Sold(quantity, amounts)
    decreases |amounts|
  {
    if |amounts| > 0 {
      RunConserves(After(quantity, amounts[0]), amounts[1..]);
    }
  }
}
