/**
  `SellerBehavior`: what a simulated Java seller sells next, how much, at
  what price and for how long. The items are taken round robin; the
  quantity, price and duration come from a random source, whose draws are
  parameters here: `draw` for `nextDouble` (in [0, 1)) and for
  `nextLong(bound)` (in [0, bound)). Doubles are modelled as reals.
*/
module SellerBehaviors {
  import opened Wrappers
  import opened Errors

  /** The delay before the first sale, in milliseconds. */
  const InitialDelayMillis := 1000
  /** The delay between two sales, in milliseconds. */
  const DelayBetweenSalesMillis := 2000

  /** The index after `i` in a list of `n` items: `(i + 1) % n`. */
  function NextIndex(i: int, n: nat): (r: nat)
    requires n > 0 && -1 <= i < n
    ensures r < n
    ensures i + 1 < n ==> r == i + 1
    ensures i + 1 == n ==> r == 0
  {
    (i + 1) % n
  }

  /** The index after `k` calls on a fresh behaviour with `n` items. */
  function IndexAfter(n: nat, k: nat): (r: int)
    requires n > 0
    ensures -1 <= r < n
  {
    if k == 0 then -1 else NextIndex(IndexAfter(n, k - 1), n)
  }

  /** `lo + draw * (hi - lo)`: a value drawn between `lo` and `hi`. */
  function Between(lo: real, hi: real, draw: real): (r: real)
    requires 0.0 <= draw < 1.0
    ensures lo <= hi ==> lo <= r <= hi
    ensures lo < hi ==> r < hi
    ensures hi < lo ==> hi < r <= lo
    ensures lo == hi ==> r == lo
  {
    var span := hi - lo;
    if span > 0.0 then
      assert (1.0 - draw) * span > 0.0;
      lo + draw * span
    else if span < 0.0 then
      assert (1.0 - draw) * -span > 0.0;
      assert draw * -span >= 0.0;
      lo + draw * span
    else
      lo + draw * span
  }

  class SellerBehavior {
    /** A copy of the list the behaviour was given. */
    const itemTypes: seq<string>
    const minQuantity: real
    const maxQuantity: real
    const minPrice: real
    const maxPrice: real
    const minSaleDurationMillis: int
    const maxSaleDurationMillis: int
    /** The index of the item last returned; -1 before the first. */
    var currentItemIndex: int

    /** The index always names an item, or is -1 before the first. */
    predicate Valid()
      reads this
    {
      && -1 <= currentItemIndex
      && (|itemTypes| > 0 ==> currentItemIndex < |itemTypes|)
      && (|itemTypes| == 0 ==> currentItemIndex == -1)
    }

    constructor (itemTypes: seq<string>, minQuantity: real, maxQuantity: real, minPrice: real, maxPrice: real,
                 minSaleDurationMillis: int, maxSaleDurationMillis: int)
      ensures Valid() && currentItemIndex == -1
      ensures this.itemTypes == itemTypes
      ensures this.minQuantity == minQuantity && this.maxQuantity == maxQuantity
      ensures this.minPrice == minPrice && this.maxPrice == maxPrice
      ensures this.minSaleDurationMillis == minSaleDurationMillis
      ensures this.maxSaleDurationMillis == maxSaleDurationMillis
    {
      this.itemTypes := itemTypes;
      this.minQuantity := minQuantity;
      this.maxQuantity := maxQuantity;
      this.minPrice := minPrice;
      this.maxPrice := maxPrice;
      this.minSaleDurationMillis := minSaleDurationMillis;
      this.maxSaleDurationMillis := maxSaleDurationMillis;
      this.currentItemIndex := -1;
    }

    /**
      `getNextItem`: the item after the last one returned, wrapping round;
      with no items the remainder divides by zero.
    */
    method GetNextItem() returns (r: Result<string, JavaError>)
      requires Valid()
      modifies `currentItemIndex
      ensures Valid()
      ensures |itemTypes| == 0 ==>
        r == Failure(ArithmeticException("/ by zero")) && currentItemIndex == old(currentItemIndex)
      ensures |itemTypes| > 0 ==>
        && currentItemIndex == NextIndex(old(currentItemIndex), |itemTypes|)
        && r == Success(itemTypes[currentItemIndex])
    {
      if |itemTypes| == 0 {
        return Failure(ArithmeticException("/ by zero"));
      }
      currentItemIndex := (currentItemIndex + 1) % |itemTypes|;
      r := Success(itemTypes[currentItemIndex]);
    }

    /** `generateQuantity`: a quantity between the bounds. */
    function GenerateQuantity(draw: real): (r: real)
      requires 0.0 <= draw < 1.0
      ensures minQuantity <= maxQuantity ==> minQuantity <= r <= maxQuantity
      ensures minQuantity < maxQuantity ==> r < maxQuantity
    {
      Between(minQuantity, maxQuantity, draw)
    }

    /** `generatePrice`: a price between the bounds. */
    function GeneratePrice(draw: real): (r: real)
      requires 0.0 <= draw < 1.0
      ensures minPrice <= maxPrice ==> minPrice <= r <= maxPrice
      ensures minPrice < maxPrice ==> r < maxPrice
    {
      Between(minPrice, maxPrice, draw)
    }

    /** The bound given to `nextLong`: the width of the duration range. */
    function DurationSpan(): int
    {
      maxSaleDurationMillis - minSaleDurationMillis
    }

    /**
      `getSaleDuration` in milliseconds, with `draw` the value of
      `nextLong(DurationSpan())`: at least the minimum and below the
      maximum. An empty or inverted range is refused by `nextLong`.
    */
    function GetSaleDuration(draw: int): (r: Result<int, JavaError>)
      requires DurationSpan() <= 0 || 0 <= draw < DurationSpan()
      ensures r.Failure? <==> maxSaleDurationMillis <= minSaleDurationMillis
      ensures r.Failure? ==> r.error == IllegalArgumentException("bound must be positive")
      ensures r.Success? ==> minSaleDurationMillis <= r.value < maxSaleDurationMillis
    {
      if DurationSpan() <= 0 then Failure(IllegalArgumentException("bound must be positive"))
      else Success(minSaleDurationMillis + draw)
    }
  }

  /** The first round: the `k`-th call returns item `k - 1`. */
  lemma {:induction false} FirstRound(n: nat, k: nat)
    requires 0 < k <= n
    ensures IndexAfter(n, k) == k - 1
  {
    if k > 1 {
      FirstRound(n, k - 1);
    }
  }

  /**
    Round robin: calls `n` apart return the same item, so with the first
    round every item comes once in any `n` successive calls.
  */
  lemma {:induction false} Periodic(n: nat, k: nat)
    requires n > 0 && k > 0
    ensures IndexAfter(n, k + n) == IndexAfter(n, k)
  {
    if k == 1 {
      FirstRound(n, n);
    } else {
      Periodic(n, k - 1);
      assert k + n - 1 == (k - 1) + n;
    }
  }
}
