/**
  The Python market manager: the registry of sellers' stocks and of the
  items on sale, with the operations that start, end, buy from and rotate
  sales. The mutex that guards every public operation is modelled by
  running each operation atomically; where the program acquires it twice
  on one thread the model says so (`Call.Blocked`).
*/
module PyMarketManager {
  import opened Wrappers
  import opened Errors
  import opened ItemTypes
  import opened ItemStocks
  import opened PyMarketItem
  import PurchaseRule

  /** The stock a seller receives when registering. */
  const DefaultInitialQuantity: real := 5.0

  /** One seller's stock, by commodity. */
  type Stocks = map<ItemType, ItemStock>

  /** How a call ends: a value, an exception, or blocked forever on the manager's own lock. */
  datatype Call<+T> = Returned(value: T) | Raised(error: PyError) | Blocked

  /** The opening stock: every commodity at `q`, with `q` as its maximum. */
  function FullStock(q: real): (s: Stocks)
    ensures forall t :: t in s && s[t] == ItemStock(t, q, q)
  {
    AllTypesComplete();
    map t | t in AllTypes :: ItemStock(t, q, q)
  }

  /** The first `n` commodities, each at `q`: the stock as registration builds it. */
  function PartialStock(q: real, n: nat): Stocks
    requires n <= |AllTypes|
  {
    map t | t in AllTypes[..n] :: ItemStock(t, q, q)
  }

  lemma PartialStockStep(q: real, i: nat)
    requires i < |AllTypes|
    ensures PartialStock(q, i + 1) == PartialStock(q, i)[AllTypes[i] := ItemStock(AllTypes[i], q, q)]
  {
    assert AllTypes[..i + 1] == AllTypes[..i] + [AllTypes[i]];
  }

  lemma PartialStockEnds(q: real)
    ensures PartialStock(q, 0) == map[]
    ensures PartialStock(q, |AllTypes|) == FullStock(q)
  {
    assert AllTypes[..|AllTypes|] == AllTypes;
  }

  /** The item ids of a seller are `item_<seller>_<clock>`. */
  function SaleId(sellerId: string, clock: string): string
  {
    "item_" + sellerId + "_" + clock
  }

  // ---------------------------------------------------------------------
  // Choosing the next commodity to sell

  /**
    The first commodity of `order` with positive stock, examining them in
    order; looking up a commodity the seller has no record for raises
    KeyError.
  */
  function FirstStocked(stocks: Stocks, order: seq<ItemType>): (r: Result<Option<ItemType>, PyError>)
    ensures r.Success? && r.value.Some? ==>
      r.value.value in order && r.value.value in stocks && stocks[r.value.value].quantity > 0.0
    ensures r.Success? && r.value.None? ==>
      forall t | t in order :: t in stocks && stocks[t].quantity <= 0.0
    ensures (forall t | t in order :: t in stocks) ==> r.Success?
    ensures r.Failure? ==> exists t | t in order :: t !in stocks && r.error == KeyError(Value(t))
  {
    if |order| == 0 then Success(None)
    else if order[0] !in stocks then Failure(KeyError(Value(order[0])))
    else if stocks[order[0]].quantity > 0.0 then Success(Some(order[0]))
    else FirstStocked(stocks, order[1..])
  }

  /** FirstStocked picks the earliest stocked commodity of the order. */
  lemma {:induction false} FirstStockedIsFirst(stocks: Stocks, order: seq<ItemType>, i: nat)
    requires i < |order|
    requires forall j | 0 <= j < i :: order[j] in stocks && stocks[order[j]].quantity <= 0.0
    requires order[i] in stocks && stocks[order[i]].quantity > 0.0
    ensures FirstStocked(stocks, order) == Success(Some(order[i]))
  {
    if i > 0 {
      FirstStockedIsFirst(stocks, order[1..], i - 1);
    }
  }

  /** A commodity without stock is passed over. */
  lemma FirstStockedSkip(stocks: Stocks, order: seq<ItemType>)
    requires |order| > 0 && order[0] in stocks && stocks[order[0]].quantity <= 0.0
    ensures FirstStocked(stocks, order) == FirstStocked(stocks, order[1..])
  {
  }

  /** Examining two orders one after the other. */
  lemma {:induction false} FirstStockedAppend(stocks: Stocks, a: seq<ItemType>, b: seq<ItemType>)
    ensures FirstStocked(stocks, a + b) ==
      if FirstStocked(stocks, a) == Success(None) then FirstStocked(stocks, b) else FirstStocked(stocks, a)
  {
    if |a| > 0 {
      assert (a + b)[0] == a[0];
      assert (a + b)[1..] == a[1..] + b;
      FirstStockedAppend(stocks, a[1..], b);
    } else {
      assert a + b == b;
    }
  }

  /** Position of a commodity in declaration order. */
  function IndexOf(t: ItemType): (k: nat)
    ensures k < |AllTypes| && AllTypes[k] == t
  {
    match t
    case Flower => 0
    case Sugar => 1
    case Potato => 2
    case Oil => 3
  }

  /**
    The order rotate_seller_items examines commodities in: every commodity
    after the current one, then those before it; all of them in
    declaration order when there is no current one.
  */
  function RotationOrder(current: Option<ItemType>): seq<ItemType>
  {
    match current
    case None => AllTypes
    case Some(c) => AllTypes[IndexOf(c) + 1..] + AllTypes[..IndexOf(c)]
  }

  /** The rotation examines every commodity except the current one, each once. */
  lemma RotationOrderCoversOthers(current: Option<ItemType>)
    ensures forall t :: t in RotationOrder(current) <==> (current.None? || t != current.value)
    ensures |RotationOrder(current)| == if current.None? then 4 else 3
  {
    if current.Some? {
      var k := IndexOf(current.value);
      forall t ensures t in RotationOrder(current) <==> t != current.value {
        var j := IndexOf(t);
        if j < k {
          assert RotationOrder(current)[|AllTypes| - 1 - k + j] == t;
        } else if j > k {
          assert RotationOrder(current)[j - k - 1] == t;
        }
      }
    } else {
      forall t ensures t in RotationOrder(current) {
        assert AllTypes[IndexOf(t)] == t;
      }
    }
  }

  /** The commodity rotation picks next. */
  function NextType(stocks: Stocks, current: Option<ItemType>): Result<Option<ItemType>, PyError>
  {
    FirstStocked(stocks, RotationOrder(current))
  }

  /**
    Rotation never picks the commodity being sold, and it picks something
    whenever some other commodity of a fully recorded stock is left.
  */
  lemma RotationMovesOn(stocks: Stocks, current: Option<ItemType>, other: ItemType)
    requires forall t :: t in stocks
    requires current.None? || other != current.value
    requires stocks[other].quantity > 0.0
    ensures NextType(stocks, current).Success? && NextType(stocks, current).value.Some?
    ensures current.Some? ==> NextType(stocks, current).value.value != current.value
  {
    RotationOrderCoversOthers(current);
  }

  /**
    The rotation's selection loops: first the commodities after the
    current one (skipping up to and including it), then, wrapping around,
    those before it.
  */
  method SelectRotationType(stocks: Stocks, current: Option<ItemType>) returns (r: Result<Option<ItemType>, PyError>)
    ensures r == NextType(stocks, current)
  {
    var k := if current.Some? then IndexOf(current.value) else 0;
    ghost var rest := RotationOrder(current);
    var foundNext := false;
    var i := 0;
    while i < |AllTypes|
      invariant 0 <= i <= |AllTypes|
      invariant NextType(stocks, current) == FirstStocked(stocks, rest)
      invariant current.Some? ==> (foundNext <==> i > k)
      invariant current.None? ==> rest == AllTypes[i..]
      invariant current.Some? && !foundNext ==> rest == RotationOrder(current)
      invariant current.Some? && foundNext ==> rest == AllTypes[i..] + AllTypes[..k]
    {
      var t := AllTypes[i];
      if current.Some? && !foundNext {
        if t == current.value {
          foundNext := true;
        }
      } else {
        TailOfConcat(AllTypes[i..], if current.Some? then AllTypes[..k] else []);
        assert rest[0] == t && rest[1..] == AllTypes[i + 1..] + (if current.Some? then AllTypes[..k] else []);
        if t !in stocks {
          return Failure(KeyError(Value(t)));
        }
        if stocks[t].quantity > 0.0 {
          return Success(Some(t));
        }
        rest := rest[1..];
      }
      i := i + 1;
    }
    if current.Some? {
      assert rest == AllTypes[..k];
      r := WrapAroundPass(stocks, current.value);
      return;
    }
    assert rest == [];
    return Success(None);
  }

  /**
    The rotation's second loop: the commodities before the current one,
    up to the current one.
  */
  method WrapAroundPass(stocks: Stocks, current: ItemType) returns (r: Result<Option<ItemType>, PyError>)
    ensures r == FirstStocked(stocks, AllTypes[..IndexOf(current)])
  {
    var k := IndexOf(current);
    ghost var rest := AllTypes[..k];
    var i := 0;
    while i < |AllTypes|
      invariant 0 <= i <= k
      invariant rest == AllTypes[i..k]
      invariant FirstStocked(stocks, AllTypes[..k]) == FirstStocked(stocks, rest)
    {
      var t := AllTypes[i];
      if t == current {
        assert i == k by {
          AllTypesComplete();
        }
        break;
      }
      assert i < k;
      assert rest[0] == t && rest[1..] == AllTypes[i + 1..k];
      if t !in stocks {
        return Failure(KeyError(Value(t)));
      }
      if stocks[t].quantity > 0.0 {
        return Success(Some(t));
      }
      rest := rest[1..];
      i := i + 1;
    }
    assert rest == [];
    return Success(None);
  }

  lemma TailOfConcat<T>(a: seq<T>, b: seq<T>)
    requires |a| > 0
    ensures (a + b)[0] == a[0] && (a + b)[1..] == a[1..] + b
  {
  }

  // ---------------------------------------------------------------------
  // Returning unsold quantities

  /**
    Give `q` units of `t` back to a seller's stock when `q` is positive;
    a seller or commodity without a record raises KeyError.
  */
  function Restock(stocks: map<string, Stocks>, sellerId: string, t: ItemType, q: real)
    : (r: Result<map<string, Stocks>, PyError>)
    ensures q <= 0.0 ==> r == Success(stocks)
    ensures q > 0.0 && sellerId !in stocks ==> r == Failure(KeyError(sellerId))
    ensures q > 0.0 && sellerId in stocks && t !in stocks[sellerId] ==> r == Failure(KeyError(Value(t)))
    ensures r.Success? ==> r.value.Keys == stocks.Keys
    ensures r.Success? && q > 0.0 ==>
      && sellerId in stocks && t in stocks[sellerId] && sellerId in r.value && t in r.value[sellerId]
      && r.value[sellerId] == stocks[sellerId][t := r.value[sellerId][t]]
      && r.value[sellerId][t].quantity == stocks[sellerId][t].quantity + q
      && r.value[sellerId][t].maxQuantity == stocks[sellerId][t].maxQuantity
    ensures r.Success? ==> forall s | s in stocks && s != sellerId :: r.value[s] == stocks[s]
  {
    if q <= 0.0 then Success(stocks)
    else if sellerId !in stocks then Failure(KeyError(sellerId))
    else if t !in stocks[sellerId] then Failure(KeyError(Value(t)))
    else
      var old_ := stocks[sellerId][t];
      Success(stocks[sellerId := stocks[sellerId][t := old_.(quantity := old_.quantity + q)]])
  }

  /**
    Since start_sale takes nothing out of stock, returning an unsold
    remainder to a full stock leaves more than its maximum: the record is
    no longer one ItemStock's own checks would accept.
  */
  lemma RestockOverfills(stocks: map<string, Stocks>, sellerId: string, t: ItemType, q: real)
    requires sellerId in stocks && t in stocks[sellerId]
    requires stocks[sellerId][t].quantity == stocks[sellerId][t].maxQuantity
    requires q > 0.0
    ensures Restock(stocks, sellerId, t, q).Success?
    ensures !WellFormed(Restock(stocks, sellerId, t, q).value[sellerId][t])
  {
  }

  /** `{type.value: quantity}` for one seller's stock. */
  function StockLevels(stocks: Stocks): (m: map<string, real>)
    ensures forall t | t in stocks :: Value(t) in m && m[Value(t)] == stocks[t].quantity
    ensures forall name | name in m ::
      FromString(name).Success? && FromString(name).value in stocks
      && m[name] == stocks[FromString(name).value].quantity
  {
    ValuesRoundTrip();
    map t | t in stocks :: Value(t) := stocks[t].quantity
  }

  /**
    Whether `_start_next_item` reaches start_sale for a seller with these
    stocks, which, under the lock end_sale holds, never returns.
  */
  predicate Deadlocks(stocks: Stocks)
  {
    FirstStocked(stocks, AllTypes).Success? && FirstStocked(stocks, AllTypes).value.Some?
  }

  /** Stocks that record every commodity, none below zero. */
  predicate Complete(stocks: Stocks)
  {
    forall t :: t in stocks && stocks[t].quantity >= 0.0
  }

  /**
    As written, every expiry of an item that still has something left
    deadlocks the manager: returning the remainder leaves that commodity
    with positive stock, so rotation always finds something to start.
  */
  lemma AutoRotateDeadlocksOnRemainder(stocks: map<string, Stocks>, sellerId: string, t: ItemType, q: real)
    requires sellerId in stocks && Complete(stocks[sellerId])
    requires q > 0.0
    ensures Restock(stocks, sellerId, t, q).Success?
    ensures Deadlocks(Restock(stocks, sellerId, t, q).value[sellerId])
  {
    var after := Restock(stocks, sellerId, t, q).value[sellerId];
    AllTypesComplete();
    assert t in AllTypes && after[t].quantity > 0.0;
  }

  /**
    The commodity rotate_seller_items believes the seller is selling: it
    indexes the item map, keyed by item id, with the seller id.
  */
  function CurrentTypeAsWritten(items: map<string, MarketItem>, sellerId: string): (c: Option<ItemType>)
    ensures c.Some? <==> sellerId in items
  {
    if sellerId in items then Some(items[sellerId].itemType) else None
  }

  /** The commodity the seller is actually selling, as rotation evidently means. */
  ghost function CurrentTypeOfSeller(items: map<string, MarketItem>, sellerId: string): (c: Option<ItemType>)
    ensures c.Some? <==> exists k | k in items :: items[k].sellerId == sellerId
    ensures c.Some? ==> exists k | k in items :: items[k].sellerId == sellerId && items[k].itemType == c.value
  {
    if exists k | k in items :: items[k].sellerId == sellerId then
      var k :| k in items && items[k].sellerId == sellerId;
      Some(items[k].itemType)
    else None
  }

  /**
    Item ids have the form `item_<seller>_<clock>`, so unless a seller id
    is itself such a string the as-written lookup finds nothing: rotation
    then starts from the first commodity in declaration order, even when
    the seller is selling it, and picks the commodity on sale again.
  */
  lemma RotationIgnoresCurrentSale(items: map<string, MarketItem>, sellerId: string, stocks: Stocks)
    requires forall k | k in items :: items[k].itemId == k
    requires forall k | k in items :: |k| >= 5 && k[..5] == "item_"
    requires |sellerId| < 5 || sellerId[..5] != "item_"
    requires exists k | k in items :: items[k].sellerId == sellerId
    requires Complete(stocks)
    requires CurrentTypeOfSeller(items, sellerId).Some?
    requires var c := CurrentTypeOfSeller(items, sellerId).value;
      stocks[c].quantity > 0.0 && forall t | t != c :: stocks[t].quantity == 0.0
    ensures CurrentTypeAsWritten(items, sellerId).None?
    ensures NextType(stocks, CurrentTypeAsWritten(items, sellerId)) == Success(CurrentTypeOfSeller(items, sellerId))
    ensures NextType(stocks, CurrentTypeOfSeller(items, sellerId)) == Success(None)
  {
    var c := CurrentTypeOfSeller(items, sellerId).value;
    assert sellerId !in items;
    FirstStockedIsFirst(stocks, AllTypes, IndexOf(c));
    RotationOrderCoversOthers(Some(c));
    assert forall t | t in RotationOrder(Some(c)) :: stocks[t].quantity <= 0.0;
  }

  // ---------------------------------------------------------------------
  // The manager

  class MarketManager {
    var activeItems: map<string, MarketItem>
    var sellerStocks: map<string, Stocks>
    /** The ids that have an expiry timer; the timers themselves are not modelled. */
    var timers: set<string>
    var saleHistory: map<string, seq<MarketItem>>

    /** Items are filed under their own id, and no seller has two items on sale. */
    ghost predicate Valid()
      reads this
    {
      && (forall k | k in activeItems :: activeItems[k].itemId == k)
      && (forall k, k' | k in activeItems && k' in activeItems ::
            activeItems[k].sellerId == activeItems[k'].sellerId ==> k == k')
    }

    /** Whether the seller has an item on sale. */
    predicate HasActiveSale(sellerId: string)
      reads this
    {
      exists k | k in activeItems :: activeItems[k].sellerId == sellerId
    }

    constructor ()
      ensures Valid()
      ensures activeItems == map[] && sellerStocks == map[] && timers == {} && saleHistory == map[]
    {
      activeItems := map[];
      sellerStocks := map[];
      timers := {};
      saleHistory := map[];
    }

    /**
      Register a seller's opening stock, replacing any previous one. A
      negative quantity fails on the first commodity and leaves the seller
      with an empty stock.
    */
    method InitializeSellerStock(sellerId: string, initialQuantity: real) returns (raised: Option<PyError>)
      modifies this
      ensures activeItems == old(activeItems) && timers == old(timers) && saleHistory == old(saleHistory)
      ensures initialQuantity >= 0.0 ==>
        raised.None? && sellerStocks == old(sellerStocks)[sellerId := FullStock(initialQuantity)]
      ensures initialQuantity < 0.0 ==>
        raised == Some(ValueError("Quantity cannot be negative"))
        && sellerStocks == old(sellerStocks)[sellerId := map[]]
    {
      sellerStocks := sellerStocks[sellerId := map[]];
      PartialStockEnds(initialQuantity);
      for i := 0 to |AllTypes|
        invariant activeItems == old(activeItems) && timers == old(timers) && saleHistory == old(saleHistory)
        invariant sellerStocks == old(sellerStocks)[sellerId := PartialStock(initialQuantity, i)]
        invariant i > 0 ==> initialQuantity >= 0.0
      {
        var t := AllTypes[i];
        var stock := NewItemStock(t, initialQuantity, initialQuantity);
        if stock.Failure? {
          return Some(stock.error);
        }
        PartialStockStep(initialQuantity, i);
        sellerStocks := sellerStocks[sellerId := sellerStocks[sellerId][t := stock.value]];
      }
      return None;
    }

    /**
      start_sale as written: after its two checks it builds the item and
      starts the expiry timer through `threading.Timer`, a name the module
      never imports, so the call always raises NameError and nothing is
      put on sale.
    */
    method StartSaleAsWritten(sellerId: string, itemType: ItemType, quantity: real, clock: string, now: real)
      returns (raised: PyError)
      ensures sellerId !in sellerStocks ==>
        raised == RuntimeError("Seller " + sellerId + " not found. Have they registered?")
      ensures sellerId in sellerStocks && HasActiveSale(sellerId) ==>
        raised == RuntimeError("Seller already has an active sale")
      ensures sellerId in sellerStocks && !HasActiveSale(sellerId) ==> raised == NameError("threading")
    {
      if sellerId !in sellerStocks {
        return RuntimeError("Seller " + sellerId + " not found. Have they registered?");
      }
      if HasActiveSale(sellerId) {
        return RuntimeError("Seller already has an active sale");
      }
      var item := new MarketItem(SaleId(sellerId, clock), itemType, quantity, sellerId, DefaultSaleDuration, now);
      return NameError("threading");
    }

    /**
      start_sale with a working timer: a registered seller without an item
      on sale puts `quantity` of a commodity on sale for the default
      duration. The stock is not touched and the quantity is not checked.
    */
    method StartSale(sellerId: string, itemType: ItemType, quantity: real, clock: string, now: real)
      returns (r: Result<MarketItem, PyError>)
      requires Valid()
      modifies this
      ensures Valid()
      ensures r.Success? <==> sellerId in old(sellerStocks) && !old(HasActiveSale(sellerId))
      ensures sellerId !in old(sellerStocks) ==>
        r == Failure(RuntimeError("Seller " + sellerId + " not found. Have they registered?"))
      ensures sellerId in old(sellerStocks) && old(HasActiveSale(sellerId)) ==>
        r == Failure(RuntimeError("Seller already has an active sale"))
      ensures r.Failure? ==> unchanged(this)
      ensures r.Success? ==>
        && fresh(r.value)
        && r.value.itemId == SaleId(sellerId, clock) && r.value.itemType == itemType
        && r.value.quantity == quantity && r.value.sellerId == sellerId
        && r.value.saleStartTime == now && r.value.maxSaleDuration == DefaultSaleDuration
        && activeItems == old(activeItems)[r.value.itemId := r.value]
        && timers == old(timers) + {r.value.itemId}
        && sellerStocks == old(sellerStocks) && saleHistory == old(saleHistory)
        && HasActiveSale(sellerId)
    {
      if sellerId !in sellerStocks {
        return Failure(RuntimeError("Seller " + sellerId + " not found. Have they registered?"));
      }
      if HasActiveSale(sellerId) {
        return Failure(RuntimeError("Seller already has an active sale"));
      }
      var id := SaleId(sellerId, clock);
      var item := new MarketItem(id, itemType, quantity, sellerId, DefaultSaleDuration, now);
      timers := timers + {id};
      activeItems := activeItems[id := item];
      assert activeItems[id].sellerId == sellerId;
      return Success(item);
    }

    /**
      end_sale without rotation: an unknown id is ignored; otherwise a
      positive remainder goes back to the seller's stock, and the item and
      its timer are removed. A stock record that is missing raises KeyError
      before anything changes.
    */
    method EndSale(itemId: string) returns (raised: Option<PyError>)
      requires Valid()
      modifies this
      ensures Valid()
      ensures itemId !in old(activeItems) ==> raised.None? && unchanged(this)
      ensures itemId in old(activeItems) ==>
        var item := old(activeItems)[itemId];
        var back := Restock(old(sellerStocks), item.sellerId, item.itemType, item.quantity);
        && (back.Failure? ==> raised == Some(back.error) && unchanged(this))
        && (back.Success? ==>
              && raised.None?
              && sellerStocks == back.value
              && activeItems == old(activeItems) - {itemId}
              && timers == old(timers) - {itemId}
              && saleHistory == old(saleHistory)
              && !HasActiveSale(item.sellerId))
    {
      if itemId !in activeItems {
        return None;
      }
      var item := activeItems[itemId];
      var back := Restock(sellerStocks, item.sellerId, item.itemType, item.quantity);
      if back.Failure? {
        return Some(back.error);
      }
      sellerStocks := back.value;
      activeItems := activeItems - {itemId};
      timers := timers - {itemId};
      return None;
    }

    /**
      end_sale with rotation, as it would run if the manager's lock could
      be taken again by the thread that holds it: after ending the sale,
      the seller's first commodity in declaration order with stock left is
      put on sale with its whole stock quantity (which also stays in
      stock). The per-commodity retry of `_start_next_item` is never needed
      here: the seller's only item was just removed, so start_sale cannot
      fail.
    */
    method EndSaleAutoRotate(itemId: string, clock: string, now: real)
      returns (r: Result<Option<MarketItem>, PyError>)
      requires Valid()
      modifies this
      ensures Valid()
      ensures itemId !in old(activeItems) ==> r == Success(None) && unchanged(this)
      ensures itemId in old(activeItems) ==>
        var item := old(activeItems)[itemId];
        var back := Restock(old(sellerStocks), item.sellerId, item.itemType, item.quantity);
        && (back.Failure? ==> r == Failure(back.error) && unchanged(this))
        && (back.Success? ==>
              && sellerStocks == back.value
              && saleHistory == old(saleHistory)
              && (item.sellerId in back.value ==>
                    var next := FirstStocked(back.value[item.sellerId], AllTypes);
                    && (next.Failure? ==>
                          && r == Failure(next.error)
                          && activeItems == old(activeItems) - {itemId}
                          && timers == old(timers) - {itemId})
                    && (next.Success? && next.value.None? ==>
                          && r == Success(None)
                          && activeItems == old(activeItems) - {itemId}
                          && timers == old(timers) - {itemId})
                    && (next.Success? && next.value.Some? ==>
                          && r.Success? && r.value.Some? && fresh(r.value.value)
                          && r.value.value.sellerId == item.sellerId
                          && r.value.value.itemType == next.value.value
                          && r.value.value.quantity == back.value[item.sellerId][next.value.value].quantity
                          && activeItems == (old(activeItems) - {itemId})[r.value.value.itemId := r.value.value]
                          && timers == (old(timers) - {itemId}) + {r.value.value.itemId}))
              && (item.sellerId !in back.value ==>
                    && r == Success(None)
                    && activeItems == old(activeItems) - {itemId}
                    && timers == old(timers) - {itemId}))
    {
      if itemId !in activeItems {
        return Success(None);
      }
      var sellerId := activeItems[itemId].sellerId;
      var raised := EndSale(itemId);
      if raised.Some? {
        return Failure(raised.value);
      }
      if sellerId !in sellerStocks {
        return Success(None);
      }
      var next := FirstStocked(sellerStocks[sellerId], AllTypes);
      if next.Failure? {
        return Failure(next.error);
      }
      if next.value.None? {
        return Success(None);
      }
      var t := next.value.value;
      var started := StartSale(sellerId, t, sellerStocks[sellerId][t].quantity, clock, now);
      if started.Failure? {
        assert false;
      }
      return Success(Some(started.value));
    }

    /**
      end_sale with rotation as written: the sale is ended, then
      `_start_next_item` calls start_sale while end_sale still holds the
      manager's non-reentrant lock, so as soon as the seller has a
      commodity with stock left the thread blocks forever (holding the
      lock, which stops every other operation of the manager too).
    */
    method EndSaleAutoRotateAsWritten(itemId: string) returns (r: Call<Option<MarketItem>>)
      requires Valid()
      modifies this
      ensures Valid()
      ensures itemId !in old(activeItems) ==> r == Returned(None) && unchanged(this)
      ensures itemId in old(activeItems) ==>
        var item := old(activeItems)[itemId];
        var back := Restock(old(sellerStocks), item.sellerId, item.itemType, item.quantity);
        && (back.Failure? ==> r == Raised(back.error))
        && (back.Success? ==>
              && sellerStocks == back.value
              && activeItems == old(activeItems) - {itemId}
              && (r.Blocked? <==> item.sellerId in back.value && Deadlocks(back.value[item.sellerId])))
    {
      if itemId !in activeItems {
        return Returned(None);
      }
      var sellerId := activeItems[itemId].sellerId;
      var raised := EndSale(itemId);
      if raised.Some? {
        return Raised(raised.value);
      }
      if sellerId !in sellerStocks {
        return Returned(None);
      }
      var next := FirstStocked(sellerStocks[sellerId], AllTypes);
      if next.Failure? {
        return Raised(next.error);
      }
      if next.value.None? {
        return Returned(None);
      }
      return Blocked;
    }

    /** Buy `quantity` of an active item. */
    method TryPurchase(itemId: string, quantity: real) returns (r: Result<bool, PyError>)
      modifies if itemId in activeItems then {activeItems[itemId]} else {}
      ensures itemId !in activeItems ==> r == Failure(ValueError("Item not found"))
      ensures itemId in activeItems ==>
        var item := activeItems[itemId];
        && (quantity <= 0.0 <==> r.Failure?)
        && (r.Failure? ==> r.error == ValueError(PurchaseRule.NonPositiveMessage))
        && (r.Success? ==> (r.value <==> quantity <= old(item.quantity)))
        && item.quantity == PurchaseRule.After(old(item.quantity), quantity)
    {
      if itemId !in activeItems {
        return Failure(ValueError("Item not found"));
      }
      var item := activeItems[itemId];
      if quantity <= 0.0 {
        return Failure(ValueError(PurchaseRule.NonPositiveMessage));
      }
      if item.quantity >= quantity {
        item.quantity := item.quantity - quantity;
        return Success(true);
      }
      return Success(false);
    }

    /** Every item on sale, expired or not: no expiry filter is applied. */
    method GetActiveItems() returns (items: set<MarketItem>)
      ensures forall k | k in activeItems :: activeItems[k] in items
      ensures forall it | it in items :: exists k | k in activeItems :: activeItems[k] == it
    {
      items := activeItems.Values;
    }

    /** A seller's stock levels by wire name. */
    method GetSellerStock(sellerId: string) returns (r: Result<map<string, real>, PyError>)
      ensures sellerId !in sellerStocks ==> r == Failure(RuntimeError("Seller " + sellerId + " not found"))
      ensures sellerId in sellerStocks ==> r == Success(StockLevels(sellerStocks[sellerId]))
    {
      if sellerId !in sellerStocks {
        return Failure(RuntimeError("Seller " + sellerId + " not found"));
      }
      return Success(StockLevels(sellerStocks[sellerId]));
    }

    /**
      Return an expired item's remainder to stock and record it in the
      seller's history; the item itself stays on sale.
    */
    method HandleUnsoldItems(item: MarketItem) returns (raised: Option<PyError>)
      requires Valid()
      modifies `sellerStocks, `saleHistory
      ensures Valid()
      ensures activeItems == old(activeItems) && timers == old(timers)
      ensures item.quantity <= 0.0 ==> raised.None? && unchanged(this)
      ensures item.quantity > 0.0 ==>
        var back := Restock(old(sellerStocks), item.sellerId, item.itemType, item.quantity);
        && (back.Failure? ==> raised == Some(back.error) && unchanged(this))
        && (back.Success? ==>
              && raised.None? && sellerStocks == back.value
              && saleHistory == old(saleHistory)[item.sellerId :=
                   (if item.sellerId in old(saleHistory) then old(saleHistory)[item.sellerId] else []) + [item]])
    {
      if item.quantity <= 0.0 {
        return None;
      }
      var back := Restock(sellerStocks, item.sellerId, item.itemType, item.quantity);
      if back.Failure? {
        return Some(back.error);
      }
      sellerStocks := back.value;
      if item.sellerId !in saleHistory {
        saleHistory := saleHistory[item.sellerId := []];
      }
      saleHistory := saleHistory[item.sellerId := saleHistory[item.sellerId] + [item]];
      return None;
    }

    /**
      rotate_seller_items as written. The commodity being sold is looked
      up with the seller id as key of the item map, so it is found only if
      some item id happens to equal the seller id. The chosen commodity is
      then put on sale through start_sale while the lock is held, which
      blocks forever.
    */
    method RotateSellerItems(sellerId: string) returns (r: Call<Option<MarketItem>>)
      ensures sellerId !in sellerStocks ==> r == Returned(None)
      ensures sellerId in sellerStocks ==>
        var next := NextType(sellerStocks[sellerId], CurrentTypeAsWritten(activeItems, sellerId));
        && (next.Failure? ==> r == Raised(next.error))
        && (next.Success? && next.value.None? ==> r == Returned(None))
        && (next.Success? && next.value.Some? ==> r == Blocked)
    {
      if sellerId !in sellerStocks {
        return Returned(None);
      }
      var current := CurrentTypeAsWritten(activeItems, sellerId);
      var next := SelectRotationType(sellerStocks[sellerId], current);
      if next.Failure? {
        return Raised(next.error);
      }
      if next.value.None? {
        return Returned(None);
      }
      return Blocked;
    }
  }
}
