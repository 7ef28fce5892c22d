/**
  The server of the second Java market (`MarketServer`). Each connection
  gets a `ClientHandler`; the first message must register the client,
  and every later message is answered from the `MarketManager`. A sale
  that starts and a purchase that succeeds are broadcast, as the list of
  items still running, to every registered buyer.

  The socket becomes the handler's `outbox`, the messages it has written.
  A handler whose stream fails (`failing`) or whose socket is closed
  writes nothing; the server swallows that failure. Threads, the
  accept loop, the clock and the random client ids are parameters or
  left out: `nowMillis` and `clock` stand for the two readings of the
  clock, `freshId` for the id a registration draws.
*/
module JavaMarketServer {
  import opened Wrappers
  import opened Errors
  import opened JavaMessages
  import opened JavaItemV2
  import opened StockLedger
  import opened JavaMarketManagerV2
  import PurchaseRule

  // ---------------------------------------------------------------------
  // The messages the server writes

  function FromServer(t: MessageType, data: map<string, Value>): Message
  {
    Message(t, data, Some("server"))
  }

  function AckMessage(clientId: string): Message
  {
    FromServer(Ack, map["clientId" := Str(clientId)])
  }

  function ErrorMessage(error: string): Message
  {
    FromServer(Error, map["error" := Str(error)])
  }

  function ItemsMessage(t: MessageType, items: seq<ItemView>): Message
  {
    FromServer(t, map["items" := ItemList(items)])
  }

  function SaleStartedMessage(itemId: string, name: string, quantity: real, remainingMillis: int): Message
  {
    FromServer(SaleStart, map["success" := Bool(true), "itemId" := Str(itemId), "name" := Str(name),
                              "quantity" := Num(quantity), "remainingTime" := Long(remainingMillis)])
  }

  function BuyResponseMessage(success: bool, itemId: string, quantity: real): Message
  {
    FromServer(BuyResponse, map["success" := Bool(success), "itemId" := Str(itemId), "quantity" := Num(quantity)])
  }

  /** How an item travels to a client. */
  function View(item: Item): ItemView
    reads item
  {
    ItemView(item.id, item.name, item.quantity, item.sellerId)
  }

  // ---------------------------------------------------------------------
  // What a request asks for, and what the manager answers

  /**
    The role a REGISTER names: `ClientType.valueOf` of the text of its
    `clientType` entry. A missing entry throws NullPointerException;
    only the strings "BUYER" and "SELLER" name a role. (The text of a
    value that is not a string is never a role's name; the message of
    that exception is not observed.)
  */
  function RegisteredType(m: Message): (r: Result<ClientType, JavaError>)
    ensures r == Success(Buyer) <==> Field(m, "clientType") == Some(Str("BUYER"))
    ensures r == Success(Seller) <==> Field(m, "clientType") == Some(Str("SELLER"))
    ensures Field(m, "clientType").None? ==> r == Failure(NullPointerException)
    ensures r.Failure? ==> r.error.NullPointerException? || r.error.IllegalArgumentException?
  {
    match Field(m, "clientType")
    case None => Failure(NullPointerException)
    case Some(Str(s)) => ClientTypeOf(s)
    case Some(_) => Failure(IllegalArgumentException("No enum constant ClientType"))
  }

  /**
    The fields of a SALE_START or BUY_REQUEST: `(String) data.get(key)`,
    which may be null, and `((Number) data.get("quantity")).doubleValue()`.
  */
  function RequestFields(m: Message, key: string): (r: Result<(Option<string>, real), JavaError>)
    ensures r.Success? <==> AsString(Field(m, key)).Success? && AsNumber(Field(m, "quantity")).Success?
    ensures r.Success? ==> r.value == (AsString(Field(m, key)).value, AsNumber(Field(m, "quantity")).value)
    ensures AsString(Field(m, key)).Failure? ==> r == Failure(ClassCastException)
  {
    match AsString(Field(m, key))
    case Failure(e) => Failure(e)
    case Success(s) =>
      match AsNumber(Field(m, "quantity"))
      case Failure(e) => Failure(e)
      case Success(q) => Success((s, q))
  }

  /** An offer of the ledger is over once its duration has elapsed. */
  predicate TimedOut(t: Timing, nowMillis: int)
  {
    ExpiredAt(t.startMillis, t.durationMillis, false, nowMillis)
  }

  /**
    `handleSaleStart` on ledger `l` for seller `sellerId`: the new
    ledger, or the exception it throws. A null name is looked up in the
    seller's concurrent stock map, which throws NullPointerException.
  */
  function SaleStartOutcome(l: Ledger<Timing>, sellerId: string, m: Message, clock: string, nowMillis: int)
    : (r: Result<Ledger<Timing>, JavaError>)
  {
    match RequestFields(m, "name")
    case Failure(e) => Failure(e)
    case Success((None, _)) =>
      if sellerId !in l.stocks then Failure(IllegalStateException("Seller not found: " + sellerId))
      else Failure(NullPointerException)
    case Success((Some(name), q)) =>
      Open(l, sellerId, name, q, SaleId(sellerId, clock), Timing(nowMillis, SaleDurationSeconds * 1000))
  }

  /**
    `handleBuyRequest` on ledger `l`: the new ledger and whether the
    purchase succeeded, or the exception thrown. A null item id is looked
    up in the concurrent map of items, which throws NullPointerException.
  */
  function BuyOutcome(l: Ledger<Timing>, m: Message, nowMillis: int): (r: Result<(Ledger<Timing>, bool), JavaError>)
  {
    match RequestFields(m, "itemId")
    case Failure(e) => Failure(e)
    case Success((None, _)) => Failure(NullPointerException)
    case Success((Some(id), q)) => BuyOn(l, id, q, nowMillis)
  }

  /**
    The manager's `handleBuyRequest` on ledger `l`: an unknown or expired
    item is refused; otherwise the purchase rule decides.
  */
  function BuyOn(l: Ledger<Timing>, id: string, q: real, nowMillis: int): (r: Result<(Ledger<Timing>, bool), JavaError>)
    ensures r.Failure? <==> id in l.offers && !TimedOut(l.offers[id].extra, nowMillis) && q <= 0.0
    ensures r.Success? && r.value.1 ==>
      id in l.offers && id in r.value.0.offers && r.value.0.offers[id].quantity == l.offers[id].quantity - q
    ensures r.Success? && !r.value.1 ==> r.value.0 == l
  {
    if id !in l.offers || TimedOut(l.offers[id].extra, nowMillis) then Success((l, false))
    else if q <= 0.0 then Failure(IllegalArgumentException(PurchaseRule.NonPositiveMessage))
    else
      var o := l.offers[id];
      assert q > o.quantity ==> Take(l, id, q).offers == l.offers[id := o];
      Success((Take(l, id, q), q <= o.quantity))
  }

  /** The items a client is sent: one view per offer still running. */
  ghost function ActiveViews(l: Ledger<Timing>, nowMillis: int): set<ItemView>
  {
    set id | id in l.offers && !TimedOut(l.offers[id].extra, nowMillis) ::
      ItemView(id, l.offers[id].name, l.offers[id].quantity, l.offers[id].sellerId)
  }

  /** A STOCK_UPDATE from the server listing the items of `l` running at `nowMillis`. */
  ghost predicate IsStockUpdate(u: Message, l: Ledger<Timing>, nowMillis: int)
  {
    && u.msgType == StockUpdate && u.senderId == Some("server") && u.data.Keys == {"items"}
    && u.data["items"].ItemList?
    && (set v | v in u.data["items"].items) == ActiveViews(l, nowMillis)
  }

  // ---------------------------------------------------------------------
  // Handlers and the server

  class ClientHandler {
    var clientId: Option<string>
    var clientType: Option<ClientType>
    /** The messages written to the client, in order. */
    var outbox: seq<Message>
    /** Whether writing to this client's stream fails. */
    const failing: bool
    var socketClosed: bool

    constructor (failing: bool)
      ensures clientId.None? && clientType.None? && outbox == []
      ensures this.failing == failing && !socketClosed
    {
      clientId := None;
      clientType := None;
      outbox := [];
      this.failing := failing;
      socketClosed := false;
    }

    /** Whether a message written to this client arrives. */
    predicate Delivers()
      reads this
    {
      !failing && !socketClosed
    }

    /** A registered buyer that can be written to: what a broadcast reaches. */
    predicate Receives()
      reads this
    {
      clientType == Some(Buyer) && Delivers()
    }

    /**
      What this client is written when `h` is answered with `reply` and
      `update`, if any, is broadcast: the reply if it is `h`, the update
      if it is a buyer; each only if it arrives.
    */
    function Gets(h: ClientHandler, reply: Message, update: Option<Message>): seq<Message>
      reads this
    {
      (if this == h && Delivers() then [reply] else []) + (if update.Some? && Receives() then [update.value] else [])
    }

    /** `sendMessage`: a write that fails is logged and dropped. */
    method SendMessage(m: Message)
      modifies `outbox
      ensures outbox == old(outbox) + (if Delivers() then [m] else [])
    {
      if !failing && !socketClosed {
        outbox := outbox + [m];
      }
    }

    /** `sendError`: `Map.of` refuses a null message with NullPointerException. */
    method SendError(error: Option<string>) returns (r: Result<(), JavaError>)
      modifies `outbox
      ensures error.None? ==> r == Failure(NullPointerException) && outbox == old(outbox)
      ensures error.Some? ==> r == Success(()) && outbox == old(outbox) + (if Delivers() then [ErrorMessage(error.value)] else [])
    {
      if error.None? {
        return Failure(NullPointerException);
      }
      SendMessage(ErrorMessage(error.value));
      r := Success(());
    }
  }

  /** A message as it arrives, with the two clock readings its handling takes. */
  datatype Arrival = Arrival(msg: Message, clock: string, nowMillis: int)

  class MarketServer {
    const manager: MarketManager
    /** Whether the JVM describes the null-pointer exceptions it raises. */
    const detailedNulls: bool
    var clients: map<string, ClientHandler>

    /** Every client is filed under its own id, with its role. */
    ghost predicate Valid()
      reads this, manager, manager.activeItems.Values, clients.Values
    {
      && manager.Valid()
      && forall k | k in clients :: clients[k].clientId == Some(k) && clients[k].clientType.Some?
    }

    constructor (detailedNulls: bool)
      ensures Valid() && clients == map[] && this.detailedNulls == detailedNulls
      ensures fresh(manager) && manager.activeItems == map[] && manager.sellerStocks == map[]
    {
      manager := new MarketManager();
      this.detailedNulls := detailedNulls;
      clients := map[];
    }

    /**
      `handleRegistration` with the registration `m`: a REGISTER naming
      a role files the handler under `freshId`, gives a seller its
      initial stock and acknowledges with the id; anything else throws
      and changes nothing.
    */
    method HandleRegistration(h: ClientHandler, m: Message, freshId: string) returns (r: Result<(), JavaError>)
      requires Valid() && h.clientId.None?
      modifies this, manager, h
      ensures Valid()
      ensures m.msgType != Register ==> r == Failure(IllegalStateException("First message must be registration"))
      ensures m.msgType == Register && RegisteredType(m).Failure? ==> r == Failure(RegisteredType(m).error)
      ensures r.Success? <==> m.msgType == Register && RegisteredType(m).Success?
      ensures r.Failure? ==> unchanged(this, manager, h)
      ensures r.Success? ==>
        && h.clientId == Some(freshId) && h.clientType == Some(RegisteredType(m).value)
        && clients == old(clients)[freshId := h]
        && manager.activeItems == old(manager.activeItems)
        && manager.sellerStocks == (if h.clientType == Some(Seller)
                                    then old(manager.sellerStocks)[freshId := InitialStock(InitialQuantity)]
                                    else old(manager.sellerStocks))
        && h.outbox == old(h.outbox) + (if h.Delivers() then [AckMessage(freshId)] else [])
        && h.socketClosed == old(h.socketClosed)
    {
      if m.msgType != Register {
        return Failure(IllegalStateException("First message must be registration"));
      }
      var role := RegisteredType(m);
      if role.Failure? {
        return Failure(role.error);
      }
      h.clientType := Some(role.value);
      h.clientId := Some(freshId);
      clients := clients[freshId := h];
      if role.value == Seller {
        manager.InitializeSellerStock(freshId);
      }
      h.SendMessage(AckMessage(freshId));
      r := Success(());
    }

    /**
      `getActiveItems` as it travels: the views of exactly the items
      still running, whatever order the map yields them in.
    */
    method ActiveList(nowMillis: int) returns (vs: seq<ItemView>)
      requires Valid()
      ensures (set v | v in vs) == ActiveViews(manager.State(), nowMillis)
    {
      var items := manager.GetActiveItems(nowMillis);
      vs := [];
      var rest := items;
      while rest != {}
        invariant rest <= items
        invariant forall v :: v in vs <==> exists it :: it in items - rest && v == View(it)
        decreases rest
      {
        var it :| it in rest;
        vs := vs + [View(it)];
        rest := rest - {it};
      }
      ghost var l := manager.State();
      forall v | v in vs
        ensures v in ActiveViews(l, nowMillis)
      {
        var it :| it in items && v == View(it);
        var k :| k in manager.activeItems && manager.activeItems[k] == it;
        assert l.offers[k] == OfferOf(it);
      }
      forall v | v in ActiveViews(l, nowMillis)
        ensures v in vs
      {
        var k :| k in l.offers && !TimedOut(l.offers[k].extra, nowMillis)
                 && v == ItemView(k, l.offers[k].name, l.offers[k].quantity, l.offers[k].sellerId);
        var it := manager.activeItems[k];
        assert l.offers[k] == OfferOf(it);
        assert !it.forceClosed && it.id == k;
        assert it in items - rest && v == View(it);
      }
    }

    /**
      `broadcastStockUpdate`: the list of running items goes to every
      registered buyer, once, and to no one else.
    */
    method BroadcastStockUpdate(nowMillis: int) returns (update: Message)
      requires Valid()
      modifies clients.Values`outbox
      ensures Valid()
      ensures IsStockUpdate(update, manager.State(), nowMillis)
      ensures forall k | k in clients ::
        clients[k].outbox == old(clients[k].outbox) + (if clients[k].Receives() then [update] else [])
    {
      var vs := ActiveList(nowMillis);
      update := ItemsMessage(StockUpdate, vs);
      var pending := clients.Keys;
      while pending != {}
        invariant pending <= clients.Keys
        invariant forall k | k in clients ::
          clients[k].outbox == old(clients[k].outbox) + (if k !in pending && clients[k].Receives() then [update] else [])
        decreases pending
      {
        var k :| k in pending;
        var c := clients[k];
        if c.clientType == Some(Buyer) {
          c.SendMessage(update);
        }
        pending := pending - {k};
      }
    }

    /** `handleListItems`: the running items go back to the asking client. */
    method HandleListItems(h: ClientHandler, nowMillis: int) returns (items: seq<ItemView>)
      requires Valid()
      modifies h`outbox
      ensures (set v | v in items) == ActiveViews(manager.State(), nowMillis)
      ensures h.outbox == old(h.outbox) + (if h.Delivers() then [ItemsMessage(ListItems, items)] else [])
    {
      var vs := ActiveList(nowMillis);
      items := vs;
      h.SendMessage(ItemsMessage(ListItems, vs));
    }

    /** A registered handler: filed under its own id. */
    ghost predicate Registered(h: ClientHandler)
      reads this, h
    {
      h.clientId.Some? && h.clientId.value in clients && clients[h.clientId.value] == h
    }

    /**
      The end of both handlers: `reply` goes to `h`, then, if `broadcast`,
      the list of running items goes to every buyer.
    */
    method Answer(h: ClientHandler, reply: Message, broadcast: bool, nowMillis: int) returns (update: Option<Message>)
      requires Valid() && Registered(h)
      modifies clients.Values`outbox
      ensures Valid()
      ensures update.Some? <==> broadcast
      ensures update.Some? ==> IsStockUpdate(update.value, manager.State(), nowMillis)
      ensures forall k | k in clients :: clients[k].outbox == old(clients[k].outbox) + clients[k].Gets(h, reply, update)
    {
      h.SendMessage(reply);
      if broadcast {
        var u := BroadcastStockUpdate(nowMillis);
        update := Some(u);
      } else {
        update := None;
      }
    }

    /** The manager's `handleBuyRequest`, seen on the ledger. */
    method Buy(itemId: string, q: real, buyerId: string, nowMillis: int) returns (r: Result<bool, JavaError>)
      requires Valid()
      modifies manager.activeItems.Values
      ensures Valid()
      ensures var o := BuyOn(old(manager.State()), itemId, q, nowMillis);
        && (o.Failure? ==> r == Failure(o.error) && manager.State() == old(manager.State()))
        && (o.Success? ==> r == Success(o.value.1) && manager.State() == o.value.0)
    {
      ghost var before := manager.State();
      if itemId in manager.activeItems {
        assert before.offers[itemId] == OfferOf(manager.activeItems[itemId]);
        assert !manager.activeItems[itemId].forceClosed;
      }
      r := manager.HandleBuyRequest(itemId, q, buyerId, nowMillis);
      if r.Failure? {
        assert before.offers[itemId].(quantity := before.offers[itemId].quantity) == before.offers[itemId];
        assert Take(before, itemId, q) == before;
      }
    }

    /** The manager's `startSale`, seen on the ledger. */
    method Start(sellerId: string, name: string, q: real, clock: string, nowMillis: int) returns (r: Result<Item, JavaError>)
      requires Valid()
      modifies manager
      ensures forall it | it in manager.activeItems.Values :: it in old(manager.activeItems.Values) || fresh(it)
      ensures Valid()
      ensures var o := Open(old(manager.State()), sellerId, name, q, SaleId(sellerId, clock),
                            Timing(nowMillis, SaleDurationSeconds * 1000));
        && (o.Failure? ==> r == Failure(o.error) && manager.State() == old(manager.State()))
        && (o.Success? ==>
              && r.Success? && manager.State() == o.value
              && r.value.id == SaleId(sellerId, clock) && r.value.name == name && r.value.quantity == q
              && r.value.GetRemainingTime(nowMillis) == SaleDurationSeconds * 1000)
    {
      r := manager.StartSale(sellerId, name, q, clock, nowMillis);
      if r.Success? {
        var item := r.value;
        assert manager.State().offers[item.id] == OfferOf(item);
        assert !item.forceClosed;
      }
    }

    /**
      `handleSaleStart` for the registered client `h`: when the manager
      accepts the sale, the ledger becomes the one `SaleStartOutcome`
      names, `h` is told the item's id, name, quantity and full 60 seconds,
      and the buyers get the new item list; otherwise the exception
      thrown is returned and nothing changes.
    */
    method HandleSaleStart(h: ClientHandler, m: Message, clock: string, nowMillis: int)
      returns (r: Result<(), JavaError>, update: Option<Message>)
      requires Valid() && Registered(h)
      modifies manager, clients.Values`outbox
      ensures forall it | it in manager.activeItems.Values :: it in old(manager.activeItems.Values) || fresh(it)
      ensures Valid() && clients == old(clients)
      ensures var o := SaleStartOutcome(old(manager.State()), h.clientId.value, m, clock, nowMillis);
        && (o.Failure? ==>
              && r == Failure(o.error) && update.None?
              && manager.State() == old(manager.State())
              && forall k | k in clients :: clients[k].outbox == old(clients[k].outbox))
        && (o.Success? ==>
              && r.Success? && manager.State() == o.value
              && update.Some? && IsStockUpdate(update.value, o.value, nowMillis)
              && var (name, q) := RequestFields(m, "name").value;
                 var reply := SaleStartedMessage(SaleId(h.clientId.value, clock), name.value, q, SaleDurationSeconds * 1000);
                 forall k | k in clients :: clients[k].outbox == old(clients[k].outbox) + clients[k].Gets(h, reply, update))
    {
      var sellerId := h.clientId.value;
      var fields := RequestFields(m, "name");
      if fields.Failure? {
        return Failure(fields.error), None;
      }
      var (name, q) := fields.value;
      if name.None? {
        // `stock.get(null)` on the seller's concurrent map.
        if sellerId !in manager.sellerStocks {
          return Failure(IllegalStateException("Seller not found: " + sellerId)), None;
        }
        return Failure(NullPointerException), None;
      }
      var started := Start(sellerId, name.value, q, clock, nowMillis);
      if started.Failure? {
        return Failure(started.error), None;
      }
      var item := started.value;
      update := Answer(h, SaleStartedMessage(item.id, item.name, item.quantity, item.GetRemainingTime(nowMillis)), true, nowMillis);
      r := Success(());
    }

    /**
      `handleBuyRequest` from the registered client `h`: the ledger
      becomes the one `BuyOutcome` names, `h` is told whether the purchase
      succeeded, and only a success sends the buyers the new item list;
      a request that throws changes nothing.
    */
    method HandleBuyRequest(h: ClientHandler, m: Message, nowMillis: int)
      returns (r: Result<(), JavaError>, update: Option<Message>)
      requires Valid() && Registered(h)
      modifies manager.activeItems.Values, clients.Values`outbox
      ensures forall it | it in manager.activeItems.Values :: it in old(manager.activeItems.Values) || fresh(it)
      ensures Valid() && clients == old(clients)
      ensures var o := BuyOutcome(old(manager.State()), m, nowMillis);
        && (o.Failure? ==>
              && r == Failure(o.error) && update.None?
              && manager.State() == old(manager.State())
              && forall k | k in clients :: clients[k].outbox == old(clients[k].outbox))
        && (o.Success? ==>
              && r.Success? && manager.State() == o.value.0
              && (update.Some? <==> o.value.1)
              && (update.Some? ==> IsStockUpdate(update.value, o.value.0, nowMillis))
              && var (id, q) := RequestFields(m, "itemId").value;
                 var reply := BuyResponseMessage(o.value.1, id.value, q);
                 forall k | k in clients :: clients[k].outbox == old(clients[k].outbox) + clients[k].Gets(h, reply, update))
    {
      var fields := RequestFields(m, "itemId");
      if fields.Failure? {
        return Failure(fields.error), None;
      }
      var (id, q) := fields.value;
      if id.None? {
        // `activeItems.get(null)` on the concurrent map of items.
        return Failure(NullPointerException), None;
      }
      var bought := Buy(id.value, q, h.clientId.value, nowMillis);
      if bought.Failure? {
        return Failure(bought.error), None;
      }
      update := Answer(h, BuyResponseMessage(bought.value, id.value, q), bought.value, nowMillis);
      r := Success(());
    }

    /**
      What the handlers of `m` throw when `h` (filed under `sellerId`)
      sends it on ledger `l`; None when nothing is thrown.
    */
    function Thrown(l: Ledger<Timing>, sellerId: string, m: Message, clock: string, nowMillis: int): Option<JavaError>
    {
      match m.msgType
      case SaleStart =>
        var o := SaleStartOutcome(l, sellerId, m, clock, nowMillis);
        if o.Failure? then Some(o.error) else None
      case BuyRequest =>
        var o := BuyOutcome(l, m, nowMillis);
        if o.Failure? then Some(o.error) else None
      case _ => None
    }

    /**
      The `switch` of `handleMessage`: SALE_START, BUY_REQUEST and
      LIST_ITEMS go to their handlers, and every other type (HEARTBEAT
      included) changes nothing. Returns what a handler throws.
    */
    method Dispatch(h: ClientHandler, m: Message, clock: string, nowMillis: int) returns (thrown: Option<JavaError>)
      requires Valid() && Registered(h)
      modifies manager, manager.activeItems.Values, clients.Values`outbox
      ensures forall it | it in manager.activeItems.Values :: it in old(manager.activeItems.Values) || fresh(it)
      ensures Valid() && clients == old(clients)
      ensures thrown == Thrown(old(manager.State()), h.clientId.value, m, clock, nowMillis)
      ensures m.msgType == SaleStart && thrown.None? ==>
        manager.State() == SaleStartOutcome(old(manager.State()), h.clientId.value, m, clock, nowMillis).value
      ensures m.msgType == BuyRequest && thrown.None? ==>
        manager.State() == BuyOutcome(old(manager.State()), m, nowMillis).value.0
      ensures m.msgType !in {SaleStart, BuyRequest} || thrown.Some? ==> manager.State() == old(manager.State())
      ensures m.msgType !in {SaleStart, BuyRequest, ListItems} || thrown.Some? ==>
        forall k | k in clients :: clients[k].outbox == old(clients[k].outbox)
    {
      thrown := None;
      match m.msgType {
        case SaleStart =>
          var r, sent := HandleSaleStart(h, m, clock, nowMillis);
          if r.Failure? {
            thrown := Some(r.error);
          }
        case BuyRequest =>
          var r, sent := HandleBuyRequest(h, m, nowMillis);
          if r.Failure? {
            thrown := Some(r.error);
          }
        case ListItems =>
          var _ := HandleListItems(h, nowMillis);
        case _ =>
      }
    }

    /**
      `handleMessage`: the message is dispatched, and an exception a
      handler throws is caught and its message sent back as an ERROR; an
      exception without a message makes `sendError` throw
      NullPointerException, which is returned.
    */
    method HandleMessage(h: ClientHandler, m: Message, clock: string, nowMillis: int) returns (r: Result<(), JavaError>)
      requires Valid() && Registered(h)
      modifies manager, manager.activeItems.Values, clients.Values`outbox
      ensures forall it | it in manager.activeItems.Values :: it in old(manager.activeItems.Values) || fresh(it)
      ensures Valid() && clients == old(clients)
      ensures m.msgType == SaleStart && SaleStartOutcome(old(manager.State()), h.clientId.value, m, clock, nowMillis).Success? ==>
        manager.State() == SaleStartOutcome(old(manager.State()), h.clientId.value, m, clock, nowMillis).value
      ensures m.msgType == BuyRequest && BuyOutcome(old(manager.State()), m, nowMillis).Success? ==>
        manager.State() == BuyOutcome(old(manager.State()), m, nowMillis).value.0
      ensures m.msgType !in {SaleStart, BuyRequest} ==> manager.State() == old(manager.State())
      ensures m.msgType !in {SaleStart, BuyRequest, ListItems} ==>
        r.Success? && forall k | k in clients :: clients[k].outbox == old(clients[k].outbox)
      ensures var e := Thrown(old(manager.State()), h.clientId.value, m, clock, nowMillis);
        && (e.None? ==> r.Success?)
        && (e.Some? ==>
              && manager.State() == old(manager.State())
              && (forall k | k in clients && clients[k] != h :: clients[k].outbox == old(clients[k].outbox))
              && var text := JavaMessage(e.value, detailedNulls);
                 && (text.Some? ==>
                       r.Success? && h.outbox == old(h.outbox) + (if h.Delivers() then [ErrorMessage(text.value)] else []))
                 && (text.None? ==> r == Failure(NullPointerException) && h.outbox == old(h.outbox)))
    {
      var thrown := Dispatch(h, m, clock, nowMillis);
      if thrown.Some? {
        r := h.SendError(JavaMessage(thrown.value, detailedNulls));
      } else {
        r := Success(());
      }
    }

    /**
      `close` as written: `clients.remove(clientId)` throws
      NullPointerException when the handler never registered, before the
      socket is closed.
    */
    method CloseAsWritten(h: ClientHandler) returns (r: Result<(), JavaError>)
      modifies this, h
      ensures h.clientId == old(h.clientId) && h.outbox == old(h.outbox)
      ensures h.clientId.None? ==> r == Failure(NullPointerException) && clients == old(clients) && h.socketClosed == old(h.socketClosed)
      ensures h.clientId.Some? ==> r.Success? && clients == old(clients) - {h.clientId.value} && h.socketClosed
    {
      if h.clientId.None? {
        return Failure(NullPointerException);
      }
      clients := clients - {h.clientId.value};
      h.socketClosed := true;
      r := Success(());
    }

    /** `close`, corrected: the socket is closed whether or not the client registered. */
    method Close(h: ClientHandler)
      requires Valid()
      modifies this, h
      ensures Valid()
      ensures h.clientId == old(h.clientId) && h.clientType == old(h.clientType) && h.outbox == old(h.outbox)
      ensures clients == if h.clientId.Some? then old(clients) - {h.clientId.value} else old(clients)
      ensures h.socketClosed
    {
      if h.clientId.Some? {
        clients := clients - {h.clientId.value};
      }
      h.socketClosed := true;
    }

    /** `handleMessage` as one step of the session: what may escape it. */
    method Step(h: ClientHandler, a: Arrival) returns (r: Result<(), JavaError>)
      requires Valid() && Registered(h)
      modifies manager, manager.activeItems.Values, clients.Values`outbox
      ensures forall it | it in manager.activeItems.Values :: it in old(manager.activeItems.Values) || fresh(it)
      ensures Valid() && clients == old(clients)
      ensures r.Failure? ==> r.error == NullPointerException
    {
      r := HandleMessage(h, a.msg, a.clock, a.nowMillis);
    }

    /**
      The loop of `run` for the registered client `h`: the arrivals are
      handled in turn until an exception escapes. `handled` counts those
      handled; `escaped` is the exception that ended the loop, if any.
    */
    method HandleAll(h: ClientHandler, arrivals: seq<Arrival>) returns (handled: nat, escaped: Option<JavaError>)
      requires Valid() && Registered(h)
      modifies manager, manager.activeItems.Values, clients.Values`outbox
      ensures Valid() && clients == old(clients)
      ensures handled <= |arrivals|
      ensures escaped.None? <==> handled == |arrivals|
      ensures escaped.Some? ==> escaped == Some(NullPointerException)
    {
      handled, escaped := 0, None;
      while handled < |arrivals|
        invariant Valid() && Registered(h) && clients == old(clients)
        invariant forall it | it in manager.activeItems.Values :: it in old(manager.activeItems.Values) || fresh(it)
        invariant handled <= |arrivals|
        decreases |arrivals| - handled
      {
        var r := Step(h, arrivals[handled]);
        if r.Failure? {
          escaped := Some(r.error);
          return;
        }
        handled := handled + 1;
      }
    }

    /**
      `run`, with the corrected `close`: the first arrival must register
      the client; then each arrival is handled in turn until an exception
      escapes `handleMessage` or the arrivals end (the read that finds the
      stream closed throws IOException, which is caught). `handled` counts
      the messages handled after the registration; `escaped` is the
      exception that ended the session, if any. Whatever happens, the
      socket is closed and the client is no longer filed.
    */
    method Serve(h: ClientHandler, inbound: seq<Arrival>, freshId: string)
      returns (handled: nat, escaped: Option<JavaError>)
      requires Valid() && h.clientId.None?
      modifies this, manager, manager.activeItems.Values, h, clients.Values`outbox
      ensures Valid()
      ensures h.socketClosed
      ensures var registers := |inbound| > 0 && inbound[0].msg.msgType == Register && RegisteredType(inbound[0].msg).Success?;
        && clients == (if registers then old(clients) - {freshId} else old(clients))
        && (!registers ==> handled == 0 && escaped == (if |inbound| == 0 then None
                                                       else if inbound[0].msg.msgType != Register
                                                       then Some(IllegalStateException("First message must be registration"))
                                                       else Some(RegisteredType(inbound[0].msg).error)))
        && (registers ==> handled < |inbound|
                          && (escaped.None? <==> handled == |inbound| - 1)
                          && (escaped.Some? ==> escaped == Some(NullPointerException)))
    {
      handled, escaped := 0, None;
      if |inbound| == 0 {
        Close(h);
        return;
      }
      var registration := HandleRegistration(h, inbound[0].msg, freshId);
      if registration.Failure? {
        escaped := Some(registration.error);
        Close(h);
        return;
      }
      handled, escaped := HandleAll(h, inbound[1..]);
      Close(h);
    }
  }

  /**
    A connection whose first message is not a registration: with `close`
    as written, the exception from `clients.remove(null)` leaves the
    socket open.
  */
  method UnregisteredCloseLeaks() returns (socketClosed: bool)
    ensures !socketClosed
  {
    var server := new MarketServer(true);
    var h := new ClientHandler(false);
    var registration := server.HandleRegistration(h, Message(Heartbeat, map[], None), "c0ffee00");
    assert registration.Failure?;
    var closing := server.CloseAsWritten(h);
    socketClosed := h.socketClosed;
  }
}
