/**
  The bookkeeping both Java market managers share: sellers' stocks by
  commodity name, and the offers (items on sale) taken out of them.
  A sale takes its quantity out of stock, purchases take from the offer,
  and ending a sale gives a positive remainder back. `Held` is what a
  seller has of one commodity in stock and on sale together; the lemmas
  say how each operation changes it.
*/
module StockLedger {
  import opened Wrappers
  import opened Errors
  import PurchaseRule

  /** An item on sale; `extra` is what a manager version adds (its timing). */
  datatype Offer<X> = Offer(sellerId: string, name: string, quantity: real, extra: X)

  datatype Ledger<X> = Ledger(offers: map<string, Offer<X>>, stocks: map<string, map<string, real>>)

  // ---------------------------------------------------------------------
  // Sums over maps

  ghost function SumValues(m: map<string, real>): real
    decreases |m|
  {
    if m == map[] then 0.0
    else
      var k :| k in m;
      m[k] + SumValues(m - {k})
  }

  /** The sum does not depend on the order in which keys are taken. */
  lemma {:induction false} SumValuesRemove(m: map<string, real>, k: string)
    requires k in m
    ensures SumValues(m) == m[k] + SumValues(m - {k})
    decreases |m|
  {
    var k' :| k' in m && SumValues(m) == m[k'] + SumValues(m - {k'});
    if k' != k {
      SumValuesRemove(m - {k'}, k);
      SumValuesRemove(m - {k}, k');
      assert m - {k'} - {k} == m - {k} - {k'};
    }
  }

  lemma SumValuesPut(m: map<string, real>, k: string, v: real)
    ensures SumValues(m[k := v]) == SumValues(m) - (if k in m then m[k] else 0.0) + v
  {
    SumValuesRemove(m[k := v], k);
    assert m[k := v] - {k} == m - {k};
    if k in m {
      SumValuesRemove(m, k);
    } else {
      assert m - {k} == m;
    }
  }

  // ---------------------------------------------------------------------
  // What a seller holds

  function StockOf<X>(l: Ledger<X>, s: string, n: string): real
  {
    if s in l.stocks && n in l.stocks[s] then l.stocks[s][n] else 0.0
  }

  /** The quantities of a seller's offers of one commodity, by item id. */
  function Offered<X>(l: Ledger<X>, s: string, n: string): map<string, real>
  {
    map k | k in l.offers && l.offers[k].sellerId == s && l.offers[k].name == n :: l.offers[k].quantity
  }

  /** A seller's holding of one commodity: in stock plus on sale. */
  ghost function Held<X>(l: Ledger<X>, s: string, n: string): real
  {
    StockOf(l, s, n) + SumValues(Offered(l, s, n))
  }

  // ---------------------------------------------------------------------
  // Operations

  /**
    Start a sale (`startSale`): the seller must have a stock map and at
    least `quantity` of the commodity; the quantity moves from stock to a
    new offer filed under `id` (replacing any offer already filed there).
    The quantity itself is not checked.
  */
  function Open<X>(l: Ledger<X>, sellerId: string, name: string, quantity: real, id: string, extra: X)
    : (r: Result<Ledger<X>, JavaError>)
    ensures sellerId !in l.stocks ==> r == Failure(IllegalStateException("Seller not found: " + sellerId))
    ensures sellerId in l.stocks && (name !in l.stocks[sellerId] || l.stocks[sellerId][name] < quantity) ==>
      r == Failure(IllegalStateException("Insufficient stock for " + name))
    ensures r.Success? <==>
      sellerId in l.stocks && name in l.stocks[sellerId] && l.stocks[sellerId][name] >= quantity
    ensures r.Success? ==>
      && r.value.offers == l.offers[id := Offer(sellerId, name, quantity, extra)]
      && r.value.stocks.Keys == l.stocks.Keys
      && r.value.stocks[sellerId] == l.stocks[sellerId][name := l.stocks[sellerId][name] - quantity]
      && forall s | s in l.stocks && s != sellerId :: r.value.stocks[s] == l.stocks[s]
  {
    if sellerId !in l.stocks then Failure(IllegalStateException("Seller not found: " + sellerId))
    else if name !in l.stocks[sellerId] || l.stocks[sellerId][name] < quantity then
      Failure(IllegalStateException("Insufficient stock for " + name))
    else
      var stock := l.stocks[sellerId];
      Success(Ledger(l.offers[id := Offer(sellerId, name, quantity, extra)],
                     l.stocks[sellerId := stock[name := stock[name] - quantity]]))
  }

  /** A purchase attempt on offer `id`: the quantity drops only if it is accepted. */
  function Take<X>(l: Ledger<X>, id: string, amount: real): (r: Ledger<X>)
    requires id in l.offers
    ensures r.stocks == l.stocks && r.offers.Keys == l.offers.Keys
    ensures r.offers[id].quantity == PurchaseRule.After(l.offers[id].quantity, amount)
    ensures forall k | k in l.offers && k != id :: r.offers[k] == l.offers[k]
  {
    var o := l.offers[id];
    Ledger(l.offers[id := o.(quantity := PurchaseRule.After(o.quantity, amount))], l.stocks)
  }

  /**
    `stock.merge(name, q, Double::sum)`: add `q` to the entry, creating it
    when the commodity has none.
  */
  function Merge(stock: map<string, real>, name: string, q: real): (r: map<string, real>)
    ensures r.Keys == stock.Keys + {name}
    ensures r[name] == (if name in stock then stock[name] else 0.0) + q
    ensures forall n | n in stock && n != name :: r[n] == stock[n]
  {
    stock[name := if name in stock then stock[name] + q else q]
  }

  /**
    End the sale of offer `id`: the offer goes, and a positive remainder
    goes back to its seller's stock when the seller has one.
  */
  function Close<X>(l: Ledger<X>, id: string): (r: Ledger<X>)
    ensures r.offers == l.offers - {id}
    ensures r.stocks.Keys == l.stocks.Keys
    ensures id in l.offers && l.offers[id].quantity > 0.0 && l.offers[id].sellerId in l.stocks ==>
      var o := l.offers[id];
      r.stocks == l.stocks[o.sellerId := Merge(l.stocks[o.sellerId], o.name, o.quantity)]
    ensures !(id in l.offers && l.offers[id].quantity > 0.0 && l.offers[id].sellerId in l.stocks) ==>
      r.stocks == l.stocks
  {
    if id in l.offers && l.offers[id].quantity > 0.0 && l.offers[id].sellerId in l.stocks then
      var o := l.offers[id];
      Ledger(l.offers - {id}, l.stocks[o.sellerId := Merge(l.stocks[o.sellerId], o.name, o.quantity)])
    else
      Ledger(l.offers - {id}, l.stocks)
  }

  // ---------------------------------------------------------------------
  // Conservation

  /** Replacing offer `id` by one of the same seller and commodity changes only that entry of `Offered`. */
  lemma OfferedReplace<X>(l: Ledger<X>, l': Ledger<X>, id: string, o: Offer<X>, s: string, n: string)
    requires id in l.offers && l.offers[id].sellerId == o.sellerId && l.offers[id].name == o.name
    requires l'.offers == l.offers[id := o]
    ensures o.sellerId == s && o.name == n ==> Offered(l', s, n) == Offered(l, s, n)[id := o.quantity]
    ensures !(o.sellerId == s && o.name == n) ==> Offered(l', s, n) == Offered(l, s, n)
  {
    assert Offered(l', s, n).Keys == Offered(l, s, n).Keys;
  }

  /** Filing a new offer under a fresh id adds at most that entry to `Offered`. */
  lemma OfferedInsert<X>(l: Ledger<X>, l': Ledger<X>, id: string, o: Offer<X>, s: string, n: string)
    requires id !in l.offers && l'.offers == l.offers[id := o]
    ensures o.sellerId == s && o.name == n ==> Offered(l', s, n) == Offered(l, s, n)[id := o.quantity]
    ensures !(o.sellerId == s && o.name == n) ==> Offered(l', s, n) == Offered(l, s, n)
  {
    assert forall k | k in l.offers :: l'.offers[k] == l.offers[k];
    if o.sellerId == s && o.name == n {
      assert Offered(l', s, n).Keys == Offered(l, s, n).Keys + {id};
    } else {
      assert Offered(l', s, n).Keys == Offered(l, s, n).Keys;
    }
  }

  /** Removing offer `id` removes at most that entry from `Offered`. */
  lemma OfferedRemove<X>(l: Ledger<X>, l': Ledger<X>, id: string, s: string, n: string)
    requires id in l.offers && l'.offers == l.offers - {id}
    ensures l.offers[id].sellerId == s && l.offers[id].name == n ==> Offered(l', s, n) == Offered(l, s, n) - {id}
    ensures !(l.offers[id].sellerId == s && l.offers[id].name == n) ==> Offered(l', s, n) == Offered(l, s, n)
  {
    if l.offers[id].sellerId == s && l.offers[id].name == n {
      assert Offered(l', s, n).Keys == Offered(l, s, n).Keys - {id};
    } else {
      assert Offered(l', s, n).Keys == Offered(l, s, n).Keys;
    }
  }

  /** Starting a sale under a fresh id moves stock onto the market: nothing is created or lost. */
  lemma OpenConserves<X>(l: Ledger<X>, sellerId: string, name: string, quantity: real, id: string, extra: X, s: string, n: string)
    requires Open(l, sellerId, name, quantity, id, extra).Success?
    requires id !in l.offers
    ensures Held(Open(l, sellerId, name, quantity, id, extra).value, s, n) == Held(l, s, n)
  {
    var l' := Open(l, sellerId, name, quantity, id, extra).value;
    OfferedInsert(l, l', id, Offer(sellerId, name, quantity, extra), s, n);
    if s == sellerId && n == name {
      SumValuesPut(Offered(l, s, n), id, quantity);
    }
  }

  /**
    Starting a sale under an id already in use replaces that offer: its
    quantity, neither sold nor returned, disappears from the holding.
  */
  lemma OpenOverwriteLoses<X>(l: Ledger<X>, sellerId: string, name: string, quantity: real, id: string, extra: X)
    requires Open(l, sellerId, name, quantity, id, extra).Success?
    requires id in l.offers && l.offers[id].sellerId == sellerId && l.offers[id].name == name
    ensures Held(Open(l, sellerId, name, quantity, id, extra).value, sellerId, name)
         == Held(l, sellerId, name) - l.offers[id].quantity
  {
    var l' := Open(l, sellerId, name, quantity, id, extra).value;
    OfferedReplace(l, l', id, Offer(sellerId, name, quantity, extra), sellerId, name);
    SumValuesPut(Offered(l, sellerId, name), id, quantity);
  }

  /** A purchase takes exactly the amount sold out of the seller's holding. */
  lemma TakeConserves<X>(l: Ledger<X>, id: string, amount: real, s: string, n: string)
    requires id in l.offers
    ensures var o := l.offers[id];
      Held(Take(l, id, amount), s, n) == Held(l, s, n)
        - (if o.sellerId == s && o.name == n then o.quantity - PurchaseRule.After(o.quantity, amount) else 0.0)
  {
    var o := l.offers[id];
    var o' := o.(quantity := PurchaseRule.After(o.quantity, amount));
    OfferedReplace(l, Take(l, id, amount), id, o', s, n);
    if o.sellerId == s && o.name == n {
      SumValuesPut(Offered(l, s, n), id, o'.quantity);
    }
  }

  /**
    Ending a sale of a seller who has a stock map gives a positive
    remainder back, so the holding is unchanged; a negative remainder
    (possible, since a sale's quantity is never checked) is dropped,
    which raises the holding by its size.
  */
  lemma CloseConserves<X>(l: Ledger<X>, id: string, s: string, n: string)
    requires id in l.offers && l.offers[id].sellerId in l.stocks
    ensures var o := l.offers[id];
      Held(Close(l, id), s, n) == Held(l, s, n)
        - (if o.sellerId == s && o.name == n && o.quantity <= 0.0 then o.quantity else 0.0)
  {
    OfferedRemove(l, Close(l, id), id, s, n);
    var o := l.offers[id];
    if o.sellerId == s && o.name == n {
      SumValuesRemove(Offered(l, s, n), id);
    }
  }

  /** Every seller holds as much of every commodity in `a` as in `b`. */
  ghost predicate SameHoldings<X, Y>(a: Ledger<X>, b: Ledger<Y>)
  {
    forall s, n :: Held(a, s, n) == Held(b, s, n)
  }

  lemma SameHoldingsTransitive<X, Y, Z>(a: Ledger<X>, b: Ledger<Y>, c: Ledger<Z>)
    requires SameHoldings(a, b) && SameHoldings(b, c)
    ensures SameHoldings(a, c)
  {
  }

  /** Ending a sale with a non-negative remainder keeps every holding. */
  lemma CloseKeepsHeld<X>(l: Ledger<X>, id: string)
    requires id in l.offers && l.offers[id].sellerId in l.stocks && l.offers[id].quantity >= 0.0
    ensures SameHoldings(Close(l, id), l)
  {
    forall s, n ensures Held(Close(l, id), s, n) == Held(l, s, n) {
      CloseConserves(l, id, s, n);
    }
  }

  /**
    Because the quantity of a sale is never checked, a seller can start a
    sale of a negative quantity and end it at once, and come out with more
    stock than before.
  */
  lemma NegativeSaleCreatesStock<X>(l: Ledger<X>, sellerId: string, name: string, quantity: real, id: string, extra: X)
    requires sellerId in l.stocks && name in l.stocks[sellerId] && l.stocks[sellerId][name] >= 0.0
    requires quantity < 0.0 && id !in l.offers
    ensures Open(l, sellerId, name, quantity, id, extra).Success?
    ensures var l' := Close(Open(l, sellerId, name, quantity, id, extra).value, id);
      Held(l', sellerId, name) == Held(l, sellerId, name) - quantity > Held(l, sellerId, name)
  {
    var l1 := Open(l, sellerId, name, quantity, id, extra).value;
    OpenConserves(l, sellerId, name, quantity, id, extra, sellerId, name);
    CloseConserves(l1, id, sellerId, name);
  }
}
