/**
  The second Java market manager. It keeps the same ledger as the first
  one, gives registering sellers 1000 of each commodity, times sales in
  milliseconds, ends sales by seller, and closes an item before removing
  it. Each offer's extra is its start and duration in milliseconds.
*/
module JavaMarketManagerV2 {
  import opened Wrappers
  import opened Errors
  import opened StockLedger
  import opened JavaItemV2
  import PurchaseRule
  import opened MapFacts

  const StockNames: seq<string> := ["flower", "sugar", "potato", "oil"]
  const InitialQuantity: real := 1000.0
  /** The duration, in seconds, every sale is started with. */
  const SaleDurationSeconds: int := 60

  datatype Timing = Timing(startMillis: int, durationMillis: int)

  function InitialStock(q: real): (m: map<string, real>)
    ensures m.Keys == set n | n in StockNames
    ensures forall n | n in m :: m[n] == q
  {
    map["flower" := q, "sugar" := q, "potato" := q, "oil" := q]
  }

  /** How the ledger sees an item. */
  ghost function OfferOf(item: Item): Offer<Timing>
    reads item`quantity
  {
    Offer(item.sellerId, item.name, item.quantity, Timing(item.startMillis, item.durationMillis))
  }

  /** The ledger's offers: one per item. */
  ghost function OffersOf(items: map<string, Item>): map<string, Offer<Timing>>
    reads items.Values`quantity
  {
    map k | k in items :: OfferOf(items[k])
  }

  lemma OffersRemove(items: map<string, Item>, id: string)
    ensures OffersOf(items - {id}) == OffersOf(items) - {id}
  {
  }

  lemma OffersPut(items: map<string, Item>, id: string, item: Item)
    ensures OffersOf(items[id := item]) == OffersOf(items)[id := OfferOf(item)]
  {
  }

  function SaleId(sellerId: string, clock: string): string
  {
    "sale_" + sellerId + "_" + clock
  }

  class MarketManager {
    var activeItems: map<string, Item>
    var sellerStocks: map<string, map<string, real>>

    /** Items are filed under their own id, and an item is closed only as it is removed. */
    ghost predicate Valid()
      reads this, activeItems.Values
    {
      forall k | k in activeItems :: activeItems[k].id == k && !activeItems[k].forceClosed
    }

    ghost function State(): Ledger<Timing>
      reads this, activeItems.Values`quantity
    {
      Ledger(OffersOf(activeItems), sellerStocks)
    }

    constructor ()
      ensures Valid() && activeItems == map[] && sellerStocks == map[]
    {
      activeItems := map[];
      sellerStocks := map[];
    }

    /** Give a seller 1000 of every commodity, replacing any stock it had. */
    method InitializeSellerStock(sellerId: string)
      modifies this
      ensures activeItems == old(activeItems)
      ensures sellerStocks == old(sellerStocks)[sellerId := InitialStock(InitialQuantity)]
    {
      sellerStocks := sellerStocks[sellerId := InitialStock(InitialQuantity)];
    }

    /** Start a 60-second sale: the quantity moves from the seller's stock to a new item. */
    method StartSale(sellerId: string, itemName: string, quantity: real, clock: string, nowMillis: int)
      returns (r: Result<Item, JavaError>)
      requires Valid()
      modifies this
      ensures Valid()
      ensures var started := Open(old(State()), sellerId, itemName, quantity, SaleId(sellerId, clock),
                                  Timing(nowMillis, SaleDurationSeconds * 1000));
        && (started.Failure? ==> r == Failure(started.error) && unchanged(this))
        && (started.Success? ==>
              && r.Success? && fresh(r.value) && r.value.id == SaleId(sellerId, clock)
              && activeItems == old(activeItems)[r.value.id := r.value]
              && State() == started.value)
    {
      ghost var before := State();
      if sellerId !in sellerStocks {
        return Failure(IllegalStateException("Seller not found: " + sellerId));
      }
      var stock := sellerStocks[sellerId];
      if itemName !in stock || stock[itemName] < quantity {
        return Failure(IllegalStateException("Insufficient stock for " + itemName));
      }
      ghost var stocks := sellerStocks[sellerId := stock[itemName := stock[itemName] - quantity]];
      assert stocks == Open(before, sellerId, itemName, quantity, SaleId(sellerId, clock), Timing(nowMillis, SaleDurationSeconds * 1000)).value.stocks;
      sellerStocks := sellerStocks[sellerId := stock[itemName := stock[itemName] - quantity]];
      var itemId := SaleId(sellerId, clock);
      var created := Item.Create(itemId, itemName, quantity, sellerId, SaleDurationSeconds, nowMillis);
      var item := created.value;
      assert OfferOf(item) == Offer(sellerId, itemName, quantity, Timing(nowMillis, SaleDurationSeconds * 1000));
      OffersPut(activeItems, itemId, item);
      activeItems := activeItems[itemId := item];
      ghost var started := Open(before, sellerId, itemName, quantity, itemId, Timing(nowMillis, SaleDurationSeconds * 1000)).value;
      assert OffersOf(activeItems) == started.offers;
      return Success(item);
    }

    /**
      A buyer's request: an unknown or expired item is refused; otherwise
      the item's purchase rule decides, and a non-positive amount throws.
      `buyerId` appears only in log lines.
    */
    method HandleBuyRequest(itemId: string, quantity: real, buyerId: string, nowMillis: int)
      returns (r: Result<bool, JavaError>)
      requires Valid()
      modifies if itemId in activeItems then {activeItems[itemId]} else {}
      ensures Valid()
      ensures itemId !in activeItems ==> r == Success(false) && State() == old(State())
      ensures itemId in activeItems && old(activeItems[itemId].IsExpired(nowMillis)) ==>
        r == Success(false) && State() == old(State())
      ensures itemId in activeItems && !old(activeItems[itemId].IsExpired(nowMillis)) ==>
        && (quantity <= 0.0 ==> r == Failure(IllegalArgumentException(PurchaseRule.NonPositiveMessage)))
        && (quantity > 0.0 ==> r == Success(quantity <= old(activeItems[itemId].quantity)))
        && State() == Take(old(State()), itemId, quantity)
    {
      if itemId !in activeItems {
        return Success(false);
      }
      var item := activeItems[itemId];
      if item.IsExpired(nowMillis) {
        return Success(false);
      }
      r := item.TryPurchase(quantity, nowMillis);
      assert State().offers == Take(old(State()), itemId, quantity).offers;
    }

    /**
      `endSingleSale`: close the item, remove it, and return a positive
      remainder to its seller's stock.
    */
    method EndSingleSale(itemId: string)
      requires Valid()
      modifies this, (if itemId in activeItems then {activeItems[itemId]} else {})`forceClosed
      ensures Valid()
      ensures activeItems == old(activeItems) - {itemId}
      ensures itemId in old(activeItems) ==> old(activeItems[itemId]).forceClosed
      ensures sellerStocks.Keys == old(sellerStocks).Keys
      ensures State() == Close(old(State()), itemId)
    {
      if itemId in activeItems {
        var item := activeItems[itemId];
        ghost var before := State();
        assert before.offers[itemId] == OfferOf(item);
        OffersRemove(activeItems, itemId);
        var rest := activeItems - {itemId};
        ghost var offers := OffersOf(rest);
        item.ForceClose();
        assert OffersOf(rest) == offers;
        activeItems := rest;
        ReturnRemainder(item.sellerId, item.name, item.quantity);
        assert OffersOf(rest) == offers;
        assert sellerStocks == Close(before, itemId).stocks;
      }
    }

    /** A positive remainder is merged into its seller's stock, when the seller has one. */
    method ReturnRemainder(sellerId: string, name: string, remaining: real)
      modifies `sellerStocks
      ensures remaining > 0.0 && sellerId in old(sellerStocks) ==>
        sellerStocks == old(sellerStocks)[sellerId := Merge(old(sellerStocks)[sellerId], name, remaining)]
      ensures !(remaining > 0.0 && sellerId in old(sellerStocks)) ==> sellerStocks == old(sellerStocks)
    {
      if remaining > 0.0 && sellerId in sellerStocks {
        sellerStocks := sellerStocks[sellerId := Merge(sellerStocks[sellerId], name, remaining)];
      }
    }

    /** The ids of a seller's items on sale. */
    function SellerItemIds(sellerId: string): (ids: set<string>)
      reads this
      ensures forall k :: k in ids <==> k in activeItems && activeItems[k].sellerId == sellerId
    {
      set k | k in activeItems && activeItems[k].sellerId == sellerId
    }

    /**
      `endSale(sellerId)`: end every sale of the seller (none is an
      ordinary outcome). When every one of them has a non-negative
      remainder and the seller has a stock map, each holding is unchanged.
    */
    method EndSale(sellerId: string)
      requires Valid()
      modifies this, activeItems.Values`forceClosed
      ensures Valid()
      ensures activeItems == old(activeItems) - old(SellerItemIds(sellerId))
      ensures sellerStocks.Keys == old(sellerStocks).Keys
      ensures (sellerId in old(sellerStocks) &&
               forall k | k in old(SellerItemIds(sellerId)) :: old(activeItems[k].quantity) >= 0.0) ==>
        SameHoldings(State(), old(State()))
    {
      var sellerItems := SellerItemIds(sellerId);
      if sellerItems == {} {
        return;
      }
      EndAll(sellerItems);
    }

    /** End the sales of `ids` one by one, as the loops of endSale and cleanupExpiredItems do. */
    method EndAll(ids: set<string>)
      requires Valid() && ids <= activeItems.Keys
      modifies this, activeItems.Values`forceClosed
      ensures Valid()
      ensures activeItems == old(activeItems) - ids
      ensures sellerStocks.Keys == old(sellerStocks).Keys
      ensures (forall k | k in ids :: old(activeItems[k].quantity) >= 0.0 && old(activeItems[k]).sellerId in old(sellerStocks)) ==>
        SameHoldings(State(), old(State()))
    {
      ghost var safe := forall k | k in ids :: activeItems[k].quantity >= 0.0 && activeItems[k].sellerId in sellerStocks;
      ghost var start := State();
      ghost var done: set<string> := {};
      var pending := ids;
      while pending != {}
        invariant Valid()
        invariant done !! pending && done + pending == ids
        invariant activeItems == old(activeItems) - done
        invariant sellerStocks.Keys == old(sellerStocks).Keys
        invariant safe ==> SameHoldings(State(), start)
        decreases pending
      {
        var id :| id in pending;
        ghost var before := State();
        if safe {
          assert activeItems[id].quantity >= 0.0 && activeItems[id].sellerId in sellerStocks;
          CloseKeepsHeld(before, id);
        }
        EndSingleSale(id);
        RemoveOneMore(old(activeItems), done, id);
        if safe {
          SameHoldingsTransitive(State(), before, start);
        }
        done := done + {id};
        pending := pending - {id};
      }
    }

    /** The ids of the expired items. */
    function ExpiredIds(nowMillis: int): (ids: set<string>)
      reads this, activeItems.Values
      ensures forall k :: k in ids <==> k in activeItems && activeItems[k].IsExpired(nowMillis)
    {
      set k | k in activeItems && activeItems[k].IsExpired(nowMillis)
    }

    /** The items still on sale: exactly the active items that are not expired. */
    method GetActiveItems(nowMillis: int) returns (items: set<Item>)
      ensures forall k | k in activeItems :: activeItems[k] in items <==> !activeItems[k].IsExpired(nowMillis)
      ensures forall it | it in items :: it in activeItems.Values
    {
      items := set k | k in activeItems && !activeItems[k].IsExpired(nowMillis) :: activeItems[k];
    }

    /** The seller of an active item, or null. */
    method GetSellerIdForItem(itemId: string) returns (r: Option<string>)
      ensures r.Some? <==> itemId in activeItems
      ensures r.Some? ==> r.value == activeItems[itemId].sellerId
    {
      if itemId in activeItems {
        return Some(activeItems[itemId].sellerId);
      }
      return None;
    }

    /**
      The periodic sweep: close and end every expired sale. When every
      expired item has a non-negative remainder and a seller with a stock
      map, each seller's holding of each commodity is unchanged.
    */
    method CleanupExpiredItems(nowMillis: int)
      requires Valid()
      modifies this, activeItems.Values`forceClosed
      ensures Valid()
      ensures activeItems == old(activeItems) - old(ExpiredIds(nowMillis))
      ensures sellerStocks.Keys == old(sellerStocks).Keys
      ensures (forall k | k in old(ExpiredIds(nowMillis)) ::
                 old(activeItems[k].quantity) >= 0.0 && old(activeItems[k]).sellerId in old(sellerStocks)) ==>
        SameHoldings(State(), old(State()))
    {
      var expired := set k | k in activeItems && activeItems[k].IsExpired(nowMillis);
      EndAll(expired);
    }
  }
}
