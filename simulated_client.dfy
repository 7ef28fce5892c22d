/**
  The Python `SimulatedClient`: a buyer driven by the simulation, which
  hands its messages to the simulation controller instead of a socket.
  The messages handed over are the sequence `sent`; what the controller
  does with them is not part of this model.

  `connected` is an attribute only `connect` creates, so before that
  reading it raises AttributeError; it is an `Option<bool>` here, None
  while the attribute does not exist. The list of items is whatever value
  the last LIST_ITEMS reply held, a JSON value, since nothing checks that
  it is a list. The clock and the random draws are parameters.
*/
module PySimulatedClient {
  import opened Wrappers
  import opened Errors
  import opened JsonText
  import opened MessageTypes
  import opened MessageEncoder
  import opened PyValues

  /** One entry of `purchase_history`. */
  datatype Purchase = Purchase(timestamp: real, itemId: Json, quantity: Decimal)

  /** `get_statistics`, without the random behaviour pattern it also reports. */
  datatype Statistics = Statistics(totalPurchases: nat, totalQuantity: Decimal, lastPurchase: Option<real>)

  /** The least time between two purchases, in seconds. */
  const PurchaseInterval: real := 1.0

  /** The sum of the quantities bought, as numbers. */
  ghost function QuantitySum(h: seq<Purchase>): real
  {
    if |h| == 0 then 0.0 else QuantitySum(h[..|h| - 1]) + Value(h[|h| - 1].quantity)
  }

  /** `sum(p["quantity"] for p in history)`, added from the left. */
  function TotalQuantity(h: seq<Purchase>): (r: Decimal)
    ensures Value(r) == QuantitySum(h)
  {
    if |h| == 0 then Zero else Add(TotalQuantity(h[..|h| - 1]), h[|h| - 1].quantity)
  }

  // ---------------------------------------------------------------------
  // The item with the most stock

  /** `x["quantity"]` is a number. */
  ghost predicate HasQuantity(x: Json)
  {
    Index(x, "quantity").Success? && AsNumber(Index(x, "quantity").value).Some?
  }

  /** The number `x["quantity"]` stands for. */
  ghost function Quantity(x: Json): real
    requires HasQuantity(x)
  {
    Value(AsNumber(Index(x, "quantity").value).value)
  }

  /**
    The rest of `max(items, key=lambda x: x["quantity"])` from position
    `i`, with `items[b]` the greatest so far: a later item replaces it
    only when its key is strictly greater. Numbers (and booleans) compare
    by value; any other key is taken as a TypeError here, although Python
    also orders two strings or two lists. The result is the position of
    the item `max` returns.
  */
  function MaxIndex(items: seq<Json>, b: nat, i: nat): (r: Result<nat, PyError>)
    requires b < i <= |items| && Index(items[b], "quantity").Success?
    ensures r.Success? ==> b <= r.value < |items|
    decreases |items| - i
  {
    if i == |items| then Success(b)
    else match Index(items[i], "quantity")
      case Failure(e) => Failure(e)
      case Success(k) =>
        match (AsNumber(k), AsNumber(Index(items[b], "quantity").value))
        case (Some(a), Some(c)) =>
          if Less(c, a) then MaxIndex(items, i, i + 1) else MaxIndex(items, b, i + 1)
        case _ => Failure(TypeError)
  }

  /** `_find_best_stock_item`: None for no items. */
  function BestStockItem(items: seq<Json>): (r: Result<Option<Json>, PyError>)
    ensures r == Success(None) <==> |items| == 0
    ensures |items| == 1 ==>
              r == if Index(items[0], "quantity").Success? then Success(Some(items[0]))
                   else Failure(Index(items[0], "quantity").error)
    ensures r.Success? && r.value.Some? ==> r.value.value in items
  {
    if |items| == 0 then Success(None)
    else match Index(items[0], "quantity")
      case Failure(e) => Failure(e)
      case Success(_) =>
        match MaxIndex(items, 0, 1)
        case Failure(e) => Failure(e)
        case Success(k) => Success(Some(items[k]))
  }

  // ---------------------------------------------------------------------
  // Stock updates

  /** `x["item_id"] != data["item_id"]`, both ids present. */
  predicate OtherId(x: Json, data: Json)
  {
    Index(x, "item_id").Success? && Index(data, "item_id").Success?
    && !PyEq(Index(x, "item_id").value, Index(data, "item_id").value)
  }

  /**
    `[item for item in items if item["item_id"] != data["item_id"]]`:
    each item's id is read before the update's, and the update's only
    when there is an item to compare it with.
  */
  function KeepOthers(items: seq<Json>, data: Json): (r: Result<seq<Json>, PyError>)
    ensures r.Success? <==>
              (|items| == 0 || Index(data, "item_id").Success?) && forall x | x in items :: Index(x, "item_id").Success?
    ensures r.Success? ==> forall x | x in r.value :: x in items && OtherId(x, data)
    ensures r.Success? ==> forall x | x in items && OtherId(x, data) :: x in r.value
  {
    if |items| == 0 then Success([])
    else match (Index(items[0], "item_id"), Index(data, "item_id"))
      case (Failure(e), _) => Failure(e)
      case (_, Failure(e)) => Failure(e)
      case (Success(a), Success(b)) =>
        assert items == [items[0]] + items[1..];
        match KeepOthers(items[1..], data)
        case Failure(e) => Failure(e)
        case Success(kept) => Success(if !PyEq(a, b) then [items[0]] + kept else kept)
  }

  /**
    `_handle_stock_update`: the new list of items, and the exception if
    one was raised. The old entries are dropped before the quantity is
    read, so a bad quantity leaves the filtered list. After an update
    that raised nothing, no entry but the last has the update's id, and
    the last is the update itself when its quantity is positive.
  */
  function AfterStockUpdate(available: Json, data: Json): (r: (Json, Option<PyError>))
    ensures r.1.None? ==> r.0.JArray? && Iterate(available).Success? && HasQuantity(data)
    ensures r.1.None? && Value(AsNumber(Index(data, "quantity").value).value) > 0.0 ==>
              |r.0.items| > 0 && r.0.items[|r.0.items| - 1] == data
              && forall i | 0 <= i < |r.0.items| - 1 ::
                   r.0.items[i] in Iterate(available).value && OtherId(r.0.items[i], data)
    ensures r.1.None? && Value(AsNumber(Index(data, "quantity").value).value) <= 0.0 ==>
              forall x | x in r.0.items :: x in Iterate(available).value && OtherId(x, data)
    ensures r.1.None? ==>
              forall x | x in Iterate(available).value && OtherId(x, data) :: x in r.0.items
  {
    match Iterate(available)
    case Failure(e) => (available, Some(e))
    case Success(items) =>
      match KeepOthers(items, data)
      case Failure(e) => (available, Some(e))
      case Success(kept) =>
        match Index(data, "quantity")
        case Failure(e) => (JArray(kept), Some(e))
        case Success(q) =>
          match GreaterThan(q, Zero)
          case Failure(e) => (JArray(kept), Some(e))
          case Success(positive) =>
            assert forall i | 0 <= i < |kept| :: (kept + [data])[i] == kept[i];
            (JArray(if positive then kept + [data] else kept), None)
  }

  /** `process_update`: STOCK_UPDATE and LIST_ITEMS change the items. */
  function AfterUpdate(available: Json, update: Message): (r: Json)
    ensures update.msgType !in {StockUpdate, ListItems} ==> r == available
    ensures update.msgType == ListItems && update.data.JObject? ==>
              r == (if Lookup(update.data.members, "items").Some? then Lookup(update.data.members, "items").value else JArray([]))
  {
    if update.msgType == StockUpdate then AfterStockUpdate(available, update.data).0
    else if update.msgType == ListItems then
      match Get(update.data, "items", JArray([]))
      case Success(v) => v
      case Failure(_) => available
    else available
  }

  // ---------------------------------------------------------------------
  // Messages

  function RegisterMessage(): Message
  {
    Message(Register, JObject([("client_type", JString("buyer"))]), JString("unregistered"))
  }

  function ListItemsMessage(nodeId: Json): Message
  {
    Message(ListItems, JObject([]), nodeId)
  }

  function BuyMessage(nodeId: Json, itemId: Json, quantity: Json): Message
  {
    Message(BuyRequest, JObject([("item_id", itemId), ("quantity", quantity)]), nodeId)
  }

  /**
    `min(uniform, listed)`: the first argument unless the second is
    strictly smaller; TypeError when `listed` is not a number.
  */
  function MinQuantity(uniform: Decimal, listed: Json): (r: Result<Json, PyError>)
    ensures r.Success? <==> AsNumber(listed).Some?
    ensures r.Success? ==>
              && (r.value == listed || r.value == JNumber(uniform))
              && AsNumber(r.value).Some?
              && Value(AsNumber(r.value).value) <= Value(uniform)
              && Value(AsNumber(r.value).value) <= Value(AsNumber(listed).value)
  {
    match AsNumber(listed)
    case None => Failure(TypeError)
    case Some(l) =>
      LessValue(l, uniform);
      Success(if Less(l, uniform) then listed else JNumber(uniform))
  }

  /**
    The request `simulate_purchase` builds, if any: a LIST_ITEMS when
    there are no items, otherwise a BUY_REQUEST for the item at `pick` of
    `min(uniform, item.get("quantity", 0))`. Anything that raises on the
    way builds nothing, since the method catches every exception.
  */
  function PurchaseRequest(available: Json, pick: nat, uniform: Decimal, nodeId: Json): (r: Option<Message>)
    ensures !Truthy(available) ==> r == Some(ListItemsMessage(nodeId))
    ensures Truthy(available) && r.Some? ==>
              && available.JArray?
              && var item := available.items[pick % |available.items|];
                 && Index(item, "item_id").Success?
                 && Get(item, "quantity", JNumber(Zero)).Success?
                 && MinQuantity(uniform, Get(item, "quantity", JNumber(Zero)).value).Success?
                 && r.value == BuyMessage(nodeId, Index(item, "item_id").value,
                                          MinQuantity(uniform, Get(item, "quantity", JNumber(Zero)).value).value)
    ensures Truthy(available) && available.JArray? ==>
              var item := available.items[pick % |available.items|];
              (r.Some? <==>
                 && Index(item, "item_id").Success?
                 && Get(item, "quantity", JNumber(Zero)).Success?
                 && MinQuantity(uniform, Get(item, "quantity", JNumber(Zero)).value).Success?)
  {
    if !Truthy(available) then Some(ListItemsMessage(nodeId))
    else if !available.JArray? then None
    else
      var item := available.items[pick % |available.items|];
      match Get(item, "quantity", JNumber(Zero))
      case Failure(_) => None
      case Success(listed) =>
        match MinQuantity(uniform, listed)
        case Failure(_) => None
        case Success(q) =>
          match Index(item, "item_id")
          case Failure(_) => None
          case Success(id) => Some(BuyMessage(nodeId, id, q))
  }

  /** A purchase at `now` comes within a second of the last one. */
  predicate Throttled(last: Option<real>, now: real)
  {
    last.Some? && now - last.value < PurchaseInterval
  }

  class SimulatedClient {
    var nodeId: Json
    /** None while the `connected` attribute does not exist. */
    var connected: Option<bool>
    var registered: bool
    var availableItems: Json
    var lastPurchaseTime: Option<real>
    var purchaseHistory: seq<Purchase>
    /** The messages handed to the controller. */
    var sent: seq<Message>

    constructor(id: string)
      ensures nodeId == JString(id) && connected.None? && !registered
      ensures availableItems == JArray([]) && lastPurchaseTime.None?
      ensures purchaseHistory == [] && sent == []
    {
      nodeId := JString(id);
      connected := None;
      registered := false;
      availableItems := JArray([]);
      lastPurchaseTime := None;
      purchaseHistory := [];
      sent := [];
    }

    /** `send_message`: only a connected client hands a message over. */
    method SendMessage(m: Message) returns (r: Result<(), PyError>)
      modifies this
      ensures old(connected).None? ==> r == Failure(AttributeError("connected"))
      ensures old(connected) == Some(false) ==> r == Failure(ConnectionError("Not connected"))
      ensures r.Success? <==> old(connected) == Some(true)
      ensures sent == if r.Success? then old(sent) + [m] else old(sent)
      ensures nodeId == old(nodeId) && connected == old(connected) && registered == old(registered)
      ensures availableItems == old(availableItems) && lastPurchaseTime == old(lastPurchaseTime)
      ensures purchaseHistory == old(purchaseHistory)
    {
      if connected.None? {
        return Failure(AttributeError("connected"));
      }
      if !connected.value {
        return Failure(ConnectionError("Not connected"));
      }
      sent := sent + [m];
      r := Success(());
    }

    /** `register`: a connected client that is not registered sends REGISTER once. */
    method Register() returns (r: Result<(), PyError>)
      modifies this
      ensures old(connected).None? ==> r == Failure(AttributeError("connected")) && sent == old(sent)
      ensures old(connected).Some? ==> r.Success?
      ensures old(connected) == Some(true) && !old(registered) ==>
                sent == old(sent) + [RegisterMessage()] && registered
      ensures !(old(connected) == Some(true) && !old(registered)) ==>
                sent == old(sent) && registered == old(registered)
      ensures nodeId == old(nodeId) && connected == old(connected)
      ensures availableItems == old(availableItems) && lastPurchaseTime == old(lastPurchaseTime)
      ensures purchaseHistory == old(purchaseHistory)
    {
      if connected.None? {
        return Failure(AttributeError("connected"));
      }
      r := Success(());
      if connected.value && !registered {
        r := SendMessage(RegisterMessage());
        registered := true;
      }
    }

    /** `connect`: connects without a socket, then registers. */
    method Connect()
      modifies this
      ensures connected == Some(true) && registered
      ensures sent == old(sent) + (if old(registered) then [] else [RegisterMessage()])
      ensures nodeId == old(nodeId) && availableItems == old(availableItems)
      ensures lastPurchaseTime == old(lastPurchaseTime) && purchaseHistory == old(purchaseHistory)
    {
      connected := Some(true);
      var _ := Register();
    }

    /** `_request_item_list`. */
    method RequestItemList() returns (r: Result<(), PyError>)
      modifies this
      ensures r.Success? <==> old(connected) == Some(true)
      ensures sent == if r.Success? then old(sent) + [ListItemsMessage(nodeId)] else old(sent)
      ensures nodeId == old(nodeId) && connected == old(connected) && registered == old(registered)
      ensures availableItems == old(availableItems) && lastPurchaseTime == old(lastPurchaseTime)
      ensures purchaseHistory == old(purchaseHistory)
    {
      r := SendMessage(ListItemsMessage(nodeId));
    }

    /**
      `_attempt_purchase` at time `now`: within a second of the last
      purchase nothing happens; otherwise one BUY_REQUEST is sent and,
      if sending did not raise, recorded in the history.
    */
    method AttemptPurchase(itemId: Json, quantity: Decimal, now: real) returns (r: Result<(), PyError>)
      modifies this
      ensures Throttled(old(lastPurchaseTime), now) ==> r.Success? && sent == old(sent)
      ensures !Throttled(old(lastPurchaseTime), now) ==> (r.Success? <==> old(connected) == Some(true))
      ensures !Throttled(old(lastPurchaseTime), now) && r.Success? ==>
                && sent == old(sent) + [BuyMessage(nodeId, itemId, JNumber(quantity))]
                && lastPurchaseTime == Some(now)
                && purchaseHistory == old(purchaseHistory) + [Purchase(now, itemId, quantity)]
      ensures Throttled(old(lastPurchaseTime), now) || r.Failure? ==>
                && sent == old(sent)
                && lastPurchaseTime == old(lastPurchaseTime)
                && purchaseHistory == old(purchaseHistory)
      ensures nodeId == old(nodeId) && connected == old(connected) && registered == old(registered)
      ensures availableItems == old(availableItems)
    {
      if Throttled(lastPurchaseTime, now) {
        return Success(());
      }
      r := SendMessage(BuyMessage(nodeId, itemId, JNumber(quantity)));
      if r.Failure? {
        return;
      }
      lastPurchaseTime := Some(now);
      purchaseHistory := purchaseHistory + [Purchase(now, itemId, quantity)];
    }

    /** `process_update`: STOCK_UPDATE and LIST_ITEMS change the items. */
    method ProcessUpdate(update: Message)
      modifies this
      ensures availableItems == AfterUpdate(old(availableItems), update)
      ensures nodeId == old(nodeId) && connected == old(connected) && registered == old(registered)
      ensures lastPurchaseTime == old(lastPurchaseTime) && purchaseHistory == old(purchaseHistory)
      ensures sent == old(sent)
    {
      availableItems := AfterUpdate(availableItems, update);
    }

    /** `get_statistics`. */
    function GetStatistics(): (r: Statistics)
      reads this
      ensures r.totalPurchases == |purchaseHistory|
      ensures Value(r.totalQuantity) == QuantitySum(purchaseHistory)
      ensures r.lastPurchase == lastPurchaseTime
    {
      Statistics(|purchaseHistory|, TotalQuantity(purchaseHistory), lastPurchaseTime)
    }

    /**
      `simulate_purchase` with the random choices as `pick` (the index
      drawn) and `uniform` (the quantity drawn): at most one message is
      sent, and a failed send is caught.
    */
    method SimulatePurchase(pick: nat, uniform: Decimal)
      modifies this
      ensures var request := PurchaseRequest(old(availableItems), pick, uniform, nodeId);
              sent == old(sent) + (if old(connected) == Some(true) && request.Some? then [request.value] else [])
      ensures nodeId == old(nodeId) && connected == old(connected) && registered == old(registered)
      ensures availableItems == old(availableItems)
      ensures lastPurchaseTime == old(lastPurchaseTime) && purchaseHistory == old(purchaseHistory)
    {
      var request := PurchaseRequest(availableItems, pick, uniform, nodeId);
      if request.Some? {
        var _ := SendMessage(request.value);
      }
    }

    /** `process_message_update`: only an ACK carrying `node_id` changes anything. */
    method ProcessMessageUpdate(m: Message)
      modifies this
      ensures m.msgType == Ack && Index(m.data, "node_id").Success? ==>
                nodeId == Index(m.data, "node_id").value && registered
      ensures !(m.msgType == Ack && Index(m.data, "node_id").Success?) ==>
                nodeId == old(nodeId) && registered == old(registered)
      ensures connected == old(connected) && availableItems == old(availableItems)
      ensures lastPurchaseTime == old(lastPurchaseTime) && purchaseHistory == old(purchaseHistory)
      ensures sent == old(sent)
    {
      if m.msgType == Ack && Contains(m.data, "node_id") == Success(true) {
        var id := Index(m.data, "node_id");
        if id.Success? {
          nodeId := id.value;
          registered := true;
        }
      }
    }
  }

  // ---------------------------------------------------------------------
  // Properties

  /** `k` is the first position of the greatest number of `q[..n]`. */
  ghost predicate FirstGreatest(q: seq<real>, k: nat, n: nat)
    requires k < n <= |q|
  {
    && (forall j | 0 <= j < n :: q[j] <= q[k])
    && (forall j | 0 <= j < k :: q[j] < q[k])
  }

  /** One step of `max`: a strictly greater number takes the lead. */
  lemma FirstGreatestStep(q: seq<real>, k: nat, n: nat)
    requires k < n < |q| && FirstGreatest(q, k, n)
    ensures FirstGreatest(q, if q[k] < q[n] then n else k, n + 1)
  {
  }

  /** The quantities of the items, 0 where an item has none. */
  ghost function Quantities(items: seq<Json>): (q: seq<real>)
    ensures |q| == |items|
    ensures forall j | 0 <= j < |items| && HasQuantity(items[j]) :: q[j] == Quantity(items[j])
  {
    if |items| == 0 then []
    else
      var front := items[..|items| - 1];
      var last := items[|items| - 1];
      assert forall j | 0 <= j < |front| :: front[j] == items[j];
      Quantities(front) + [if HasQuantity(last) then Quantity(last) else 0.0]
  }

  /** `q` holds the quantity of every item that has one. */
  ghost predicate QuantitiesOf(items: seq<Json>, q: seq<real>)
  {
    && |q| == |items|
    && forall j | 0 <= j < |items| && HasQuantity(items[j]) :: q[j] == Quantity(items[j])
  }

  /** Every item before position `i` has a numeric quantity. */
  ghost predicate QuantifiedUpTo(items: seq<Json>, i: nat)
    requires i <= |items|
  {
    forall j | 0 <= j < i :: HasQuantity(items[j])
  }

  /**
    One step of the scan: the item at `i` has a quantity, and the scan
    goes on from the first greatest of `items[..i + 1]`.
  */
  lemma MaxIndexStep(items: seq<Json>, b: nat, i: nat, q: seq<real>) returns (n: nat)
    requires b < i < |items| && Index(items[b], "quantity").Success?
    requires QuantitiesOf(items, q) && QuantifiedUpTo(items, i) && FirstGreatest(q, b, i)
    requires MaxIndex(items, b, i).Success?
    ensures n < i + 1 && Index(items[n], "quantity").Success?
    ensures QuantifiedUpTo(items, i + 1) && FirstGreatest(q, n, i + 1)
    ensures MaxIndex(items, n, i + 1) == MaxIndex(items, b, i)
  {
    assert HasQuantity(items[b]);
    var c := AsNumber(Index(items[b], "quantity").value).value;
    var a := AsNumber(Index(items[i], "quantity").value).value;
    assert HasQuantity(items[i]);
    assert q[i] == Quantity(items[i]) == Value(a) && q[b] == Quantity(items[b]) == Value(c);
    LessValue(c, a);
    FirstGreatestStep(q, b, i);
    n := if Less(c, a) then i else b;
  }

  /**
    What `max` keeps while it scans: `items[b]` is the first of
    `items[..i]` with the greatest quantity. It then returns the first
    item with the greatest quantity of the whole list.
  */
  lemma {:induction false} MaxIndexFirstGreatest(items: seq<Json>, b: nat, i: nat, q: seq<real>)
    requires b < i <= |items| && Index(items[b], "quantity").Success?
    requires QuantitiesOf(items, q) && QuantifiedUpTo(items, i) && FirstGreatest(q, b, i)
    requires MaxIndex(items, b, i).Success?
    ensures QuantifiedUpTo(items, |items|)
    ensures FirstGreatest(q, MaxIndex(items, b, i).value, |items|)
    decreases |items| - i
  {
    if i < |items| {
      var n := MaxIndexStep(items, b, i, q);
      MaxIndexFirstGreatest(items, n, i + 1, q);
      assert MaxIndex(items, b, i).value == MaxIndex(items, n, i + 1).value;
    } else {
      assert MaxIndex(items, b, i) == Success(b);
    }
  }

  /** `_find_best_stock_item` over two or more items: the first with the most stock. */
  lemma BestStockItemFirstGreatest(items: seq<Json>) returns (k: nat)
    requires |items| > 1 && BestStockItem(items).Success?
    ensures k < |items| && BestStockItem(items) == Success(Some(items[k]))
    ensures forall j | 0 <= j < |items| :: HasQuantity(items[j])
    ensures FirstGreatest(Quantities(items), k, |items|)
  {
    var key := Index(items[0], "quantity").value;
    assert BestStockItem(items) == Success(Some(items[MaxIndex(items, 0, 1).value]));
    assert Index(items[1], "quantity").Success? && AsNumber(key).Some?;
    assert HasQuantity(items[0]);
    var q := Quantities(items);
    assert FirstGreatest(q, 0, 1);
    k := MaxIndex(items, 0, 1).value;
    assert QuantitiesOf(items, q) && QuantifiedUpTo(items, 1);
    assert MaxIndex(items, 0, 1).Success?;
    MaxIndexFirstGreatest(items, 0, 1, q);
  }

  /**
    The quantity `simulate_purchase` asks for is at most the quantity
    drawn and at most the quantity listed.
  */
  lemma PurchaseWithinListed(available: Json, pick: nat, uniform: Decimal, nodeId: Json)
    requires Truthy(available) && PurchaseRequest(available, pick, uniform, nodeId).Some?
    ensures var m := PurchaseRequest(available, pick, uniform, nodeId).value;
      var item := available.items[pick % |available.items|];
      && m.msgType == BuyRequest
      && Lookup(m.data.members, "quantity").Some?
      && AsNumber(Lookup(m.data.members, "quantity").value).Some?
      && Value(AsNumber(Lookup(m.data.members, "quantity").value).value) <= Value(uniform)
      && AsNumber(Get(item, "quantity", JNumber(Zero)).value).Some?
      && Value(AsNumber(Lookup(m.data.members, "quantity").value).value)
           <= Value(AsNumber(Get(item, "quantity", JNumber(Zero)).value).value)
  {
  }
}
