/**
  The first Java market manager: sellers' stocks by commodity name and
  the items on sale, each item a sale of 60 seconds. Its bookkeeping is
  the shared stock ledger, with each offer's start second as its extra.
  The clock is a parameter: `nowSecond` for expiry, and `clock`, the
  decimal text of the current milliseconds, for item ids.
*/
module JavaMarketManagerV1 {
  import opened Wrappers
  import opened Errors
  import opened StockLedger
  import opened JavaItemV1
  import PurchaseRule
  import opened MapFacts

  /** Every commodity a registering seller is given, and how much of each. */
  const StockNames: seq<string> := ["flower", "sugar", "potato", "oil"]
  const InitialQuantity: real := 5.0

  function InitialStock(q: real): (m: map<string, real>)
    ensures m.Keys == set n | n in StockNames
    ensures forall n | n in m :: m[n] == q
  {
    map["flower" := q, "sugar" := q, "potato" := q, "oil" := q]
  }

  /** How the ledger sees an item. */
  ghost function OfferOf(item: Item): Offer<int>
    reads item`quantity
  {
    Offer(item.sellerId, item.name, item.quantity, item.startSecond)
  }

  /** The ledger's offers: one per item. */
  ghost function OffersOf(items: map<string, Item>): map<string, Offer<int>>
    reads items.Values`quantity
  {
    map k | k in items :: OfferOf(items[k])
  }

  lemma OffersRemove(items: map<string, Item>, id: string)
    ensures OffersOf(items - {id}) == OffersOf(items) - {id}
  {
  }

  lemma OffersPut(items: map<string, Item>, id: string, item: Item)
    ensures OffersOf(items[id := item]) == OffersOf(items)[id := OfferOf(item)]
  {
  }

  /** Item ids are `sale_<seller>_<millis>`. */
  function SaleId(sellerId: string, clock: string): string
  {
    "sale_" + sellerId + "_" + clock
  }

  class MarketManager {
    var activeItems: map<string, Item>
    var sellerStocks: map<string, map<string, real>>

    /** Every item is filed under its own id (so no item is filed twice). */
    ghost predicate Valid()
      reads this
    {
      forall k | k in activeItems :: activeItems[k].id == k
    }

    /** The ledger this manager keeps. */
    ghost function State(): Ledger<int>
      reads this, activeItems.Values`quantity
    {
      Ledger(OffersOf(activeItems), sellerStocks)
    }

    constructor ()
      ensures Valid() && activeItems == map[] && sellerStocks == map[]
    {
      activeItems := map[];
      sellerStocks := map[];
    }

    /** Give a seller 5 of every commodity, replacing any stock it had. */
    method InitializeSellerStock(sellerId: string)
      modifies this
      ensures activeItems == old(activeItems)
      ensures sellerStocks == old(sellerStocks)[sellerId := InitialStock(InitialQuantity)]
    {
      sellerStocks := sellerStocks[sellerId := InitialStock(InitialQuantity)];
    }

    /** Start a sale: the quantity moves from the seller's stock to a new item. */
    method StartSale(sellerId: string, itemName: string, quantity: real, clock: string, nowSecond: int)
      returns (r: Result<Item, JavaError>)
      requires Valid()
      modifies this
      ensures Valid()
      ensures var started := Open(old(State()), sellerId, itemName, quantity, SaleId(sellerId, clock), nowSecond);
        && (started.Failure? ==> r == Failure(started.error) && unchanged(this))
        && (started.Success? ==>
              && r.Success? && fresh(r.value) && r.value.id == SaleId(sellerId, clock)
              && activeItems == old(activeItems)[r.value.id := r.value]
              && State() == started.value)
    {
      ghost var before := State();
      if sellerId !in sellerStocks {
        return Failure(IllegalStateException("Seller not found: " + sellerId));
      }
      var stock := sellerStocks[sellerId];
      if itemName !in stock || stock[itemName] < quantity {
        return Failure(IllegalStateException("Insufficient stock for " + itemName));
      }
      ghost var stocks := sellerStocks[sellerId := stock[itemName := stock[itemName] - quantity]];
      assert stocks == Open(before, sellerId, itemName, quantity, SaleId(sellerId, clock), nowSecond).value.stocks;
      sellerStocks := sellerStocks[sellerId := stock[itemName := stock[itemName] - quantity]];
      var itemId := SaleId(sellerId, clock);
      var item := new Item(itemId, itemName, quantity, sellerId, nowSecond);
      assert OfferOf(item) == Offer(sellerId, itemName, quantity, nowSecond);
      OffersPut(activeItems, itemId, item);
      activeItems := activeItems[itemId := item];
      ghost var started := Open(before, sellerId, itemName, quantity, itemId, nowSecond).value;
      assert OffersOf(activeItems) == started.offers;
      return Success(item);
    }

    /**
      A buyer's request: an unknown or expired item is refused; otherwise
      the item's purchase rule decides, and a non-positive amount throws.
      `buyerId` appears only in log lines.
    */
    method HandleBuyRequest(itemId: string, quantity: real, buyerId: string, nowSecond: int)
      returns (r: Result<bool, JavaError>)
      requires Valid()
      modifies if itemId in activeItems then {activeItems[itemId]} else {}
      ensures Valid()
      ensures itemId !in activeItems ==> r == Success(false) && State() == old(State())
      ensures itemId in activeItems && activeItems[itemId].IsExpired(nowSecond) ==>
        r == Success(false) && State() == old(State())
      ensures itemId in activeItems && !activeItems[itemId].IsExpired(nowSecond) ==>
        && (quantity <= 0.0 ==> r == Failure(IllegalArgumentException(PurchaseRule.NonPositiveMessage)))
        && (quantity > 0.0 ==> r == Success(quantity <= old(activeItems[itemId].quantity)))
        && State() == Take(old(State()), itemId, quantity)
    {
      if itemId !in activeItems {
        return Success(false);
      }
      var item := activeItems[itemId];
      if item.IsExpired(nowSecond) {
        return Success(false);
      }
      r := item.TryPurchase(quantity);
      assert State().offers == Take(old(State()), itemId, quantity).offers;
    }

    /** End a sale: the item goes, and a positive remainder returns to its seller's stock. */
    method EndSale(itemId: string)
      requires Valid()
      modifies this
      ensures Valid()
      ensures activeItems == old(activeItems) - {itemId}
      ensures State() == Close(old(State()), itemId)
    {
      if itemId in activeItems {
        var item := activeItems[itemId];
        activeItems := activeItems - {itemId};
        if item.quantity > 0.0 && item.sellerId in sellerStocks {
          sellerStocks := sellerStocks[item.sellerId := Merge(sellerStocks[item.sellerId], item.name, item.quantity)];
        }
      }
    }

    /** The ids of the expired items. */
    function ExpiredIds(nowSecond: int): (ids: set<string>)
      reads this
      ensures forall k :: k in ids <==> k in activeItems && activeItems[k].IsExpired(nowSecond)
    {
      set k | k in activeItems && activeItems[k].IsExpired(nowSecond)
    }

    /** The items still on sale: exactly the active items that are not expired. */
    method GetActiveItems(nowSecond: int) returns (items: set<Item>)
      ensures forall k | k in activeItems :: activeItems[k] in items <==> !activeItems[k].IsExpired(nowSecond)
      ensures forall it | it in items :: it in activeItems.Values
    {
      items := set k | k in activeItems && !activeItems[k].IsExpired(nowSecond) :: activeItems[k];
    }

    /** End the sales of `ids` one by one, as the loop of cleanupExpiredItems does. */
    method EndAll(ids: set<string>)
      requires Valid() && ids <= activeItems.Keys
      modifies this
      ensures Valid()
      ensures activeItems == old(activeItems) - ids
      ensures sellerStocks.Keys == old(sellerStocks).Keys
      ensures (forall k | k in ids :: old(activeItems[k].quantity) >= 0.0 && old(activeItems[k]).sellerId in old(sellerStocks)) ==>
        SameHoldings(State(), old(State()))
    {
      ghost var safe := forall k | k in ids :: activeItems[k].quantity >= 0.0 && activeItems[k].sellerId in sellerStocks;
      ghost var start := State();
      ghost var done: set<string> := {};
      var pending := ids;
      while pending != {}
        invariant Valid()
        invariant done !! pending && done + pending == ids
        invariant activeItems == old(activeItems) - done
        invariant sellerStocks.Keys == old(sellerStocks).Keys
        invariant safe ==> SameHoldings(State(), start)
        decreases pending
      {
        var id :| id in pending;
        ghost var before := State();
        if safe {
          assert activeItems[id].quantity >= 0.0 && activeItems[id].sellerId in sellerStocks;
          CloseKeepsHeld(before, id);
        }
        EndSale(id);
        RemoveOneMore(old(activeItems), done, id);
        if safe {
          SameHoldingsTransitive(State(), before, start);
        }
        done := done + {id};
        pending := pending - {id};
      }
    }

    /**
      The periodic sweep: end every expired sale. When every expired item
      has a non-negative remainder and a seller with a stock map, each
      seller's holding of each commodity is unchanged.
    */
    method CleanupExpiredItems(nowSecond: int)
      requires Valid()
      modifies this
      ensures Valid()
      ensures activeItems == old(activeItems) - old(ExpiredIds(nowSecond))
      ensures sellerStocks.Keys == old(sellerStocks).Keys
      ensures (forall k | k in old(ExpiredIds(nowSecond)) ::
                 old(activeItems[k]).quantity >= 0.0 && old(activeItems[k]).sellerId in old(sellerStocks)) ==>
        SameHoldings(State(), old(State()))
    {
      var expired := ExpiredIds(nowSecond);
      EndAll(expired);
    }
  }
}
