/**
  The Python `SimulatedSeller`: a seller driven by the simulation, which
  hands its messages to the simulation controller. The messages handed
  over are the sequence `sent`.

  Like the simulated buyer, it reads a `connected` attribute that only a
  `connect` override would create; this class has none, and the base
  client's `connect` opens a socket without creating it. `connected` is
  None here until something outside the class sets it, and while it is
  None every message fails with AttributeError, which the callers catch.
  The clock and the random draws are parameters.
*/
module PySimulatedSeller {
  import opened Wrappers
  import opened Errors
  import opened JsonText
  import opened MessageTypes
  import opened MessageEncoder
  import opened PyValues
  import ItemTypes

  /** The seller's behaviour: what it sells, how much and for how long. */
  datatype Behavior = Behavior(
    specialty: ItemTypes.ItemType,
    restockRate: real,
    minQuantity: Decimal,
    maxQuantity: Decimal,
    saleDuration: int)

  /** The behaviour a seller gets when none is given; the specialty is drawn at random. */
  function DefaultBehavior(specialty: ItemTypes.ItemType): (r: Behavior)
    ensures r.specialty == specialty && r.saleDuration == 45
    ensures Value(r.minQuantity) == 3.0 && Value(r.maxQuantity) == 8.0
  {
    assert Value(Decimal(30, -1)) == 3.0 by { ScaleStep(-1, 0); }
    assert Value(Decimal(80, -1)) == 8.0 by { ScaleStep(-1, 0); }
    Behavior(specialty, 0.15, Decimal(30, -1), Decimal(80, -1), 45)
  }

  /** `current_sale`: the item the server accepted, and when. */
  datatype Sale = Sale(itemId: Json, name: Json, quantity: Json, startTime: real)

  /**
    The SALE_START a seller with behaviour `b` sends: its specialty, the
    quantity drawn between the bounds of `b`, and the sale duration.
  */
  function SaleStartMessage(nodeId: Json, b: Behavior, quantity: Decimal): Message
  {
    Message(SaleStart,
            JObject([("name", JString(ItemTypes.Value(b.specialty))),
                     ("quantity", JNumber(quantity)),
                     ("duration", JNumber(Int(b.saleDuration)))]),
            nodeId)
  }

  /**
    The sale a successful SALE_START reply opens at time `now`; None when
    the reply does not report success; an error when a field is missing.
  */
  function StartedSale(data: Json, now: real): (r: Result<Option<Sale>, PyError>)
    ensures Get(data, "success", JNull).Failure? ==> r.Failure?
    ensures Get(data, "success", JNull).Success? && !Truthy(Get(data, "success", JNull).value) ==> r == Success(None)
    ensures r.Success? && r.value.Some? ==>
              && Truthy(Get(data, "success", JNull).value)
              && Some(r.value.value.itemId) == Lookup(data.members, "item_id")
              && Some(r.value.value.name) == Lookup(data.members, "name")
              && Some(r.value.value.quantity) == Lookup(data.members, "quantity")
              && r.value.value.startTime == now
    ensures (&& Get(data, "success", JNull).Success? && Truthy(Get(data, "success", JNull).value)
             && Lookup(data.members, "item_id").Some? && Lookup(data.members, "name").Some?
             && Lookup(data.members, "quantity").Some?) ==>
              r.Success? && r.value.Some?
  {
    match Get(data, "success", JNull)
    case Failure(e) => Failure(e)
    case Success(ok) =>
      if !Truthy(ok) then Success(None)
      else match (Index(data, "item_id"), Index(data, "name"), Index(data, "quantity"))
        case (Success(id), Success(n), Success(q)) => Success(Some(Sale(id, n, q, now)))
        case (Failure(e), _, _) => Failure(e)
        case (_, Failure(e), _) => Failure(e)
        case (_, _, Failure(e)) => Failure(e)
  }

  /**
    `current_sale["quantity"] -= data.get("quantity", 0)`: the quantity
    left after a sale, when both are numbers.
  */
  function AfterBuyResponse(sale: Sale, data: Json): (r: Result<Sale, PyError>)
    ensures r.Success? <==>
              data.JObject? && AsNumber(sale.quantity).Some?
              && AsNumber(Get(data, "quantity", JNumber(Zero)).value).Some?
    ensures r.Success? ==>
              && r.value == sale.(quantity := r.value.quantity)
              && r.value.quantity.JNumber?
              && Value(r.value.quantity.n)
                 == Value(AsNumber(sale.quantity).value) - Value(AsNumber(Get(data, "quantity", JNumber(Zero)).value).value)
  {
    match Get(data, "quantity", JNumber(Zero))
    case Failure(e) => Failure(e)
    case Success(sold) =>
      match Minus(sale.quantity, sold)
      case Failure(e) => Failure(e)
      case Success(left) => Success(sale.(quantity := left))
  }

  class SimulatedSeller {
    var nodeId: Json
    /** None while the `connected` attribute does not exist. */
    var connected: Option<bool>
    const behavior: Behavior
    var registered: bool
    var currentSale: Option<Sale>
    /** The messages handed to the controller. */
    var sent: seq<Message>

    constructor(id: string, b: Behavior)
      ensures nodeId == JString(id) && connected.None? && behavior == b
      ensures !registered && currentSale.None? && sent == []
    {
      nodeId := JString(id);
      connected := None;
      behavior := b;
      registered := false;
      currentSale := None;
      sent := [];
    }

    /** `send_message`: only a connected seller hands a message over. */
    method SendMessage(m: Message) returns (r: Result<(), PyError>)
      modifies this
      ensures old(connected).None? ==> r == Failure(AttributeError("connected"))
      ensures old(connected) == Some(false) ==> r == Failure(ConnectionError("Not connected"))
      ensures r.Success? <==> old(connected) == Some(true)
      ensures sent == if r.Success? then old(sent) + [m] else old(sent)
      ensures nodeId == old(nodeId) && connected == old(connected)
      ensures registered == old(registered) && currentSale == old(currentSale)
    {
      if connected.None? {
        return Failure(AttributeError("connected"));
      }
      if !connected.value {
        return Failure(ConnectionError("Not connected"));
      }
      sent := sent + [m];
      r := Success(());
    }

    /**
      `start_new_sale` with `quantity` the draw between the bounds of the
      behaviour: a seller with a sale open sends nothing; otherwise it
      sends one SALE_START, if it can send at all.
    */
    method StartNewSale(quantity: Decimal)
      modifies this
      ensures sent == old(sent) + (if old(currentSale).None? && old(connected) == Some(true)
                                   then [SaleStartMessage(nodeId, behavior, quantity)] else [])
      ensures nodeId == old(nodeId) && connected == old(connected)
      ensures registered == old(registered) && currentSale == old(currentSale)
    {
      if currentSale.Some? {
        return;
      }
      var _ := SendMessage(SaleStartMessage(nodeId, behavior, quantity));
    }

    /**
      `process_message_update` at time `now`, with `quantity` the draw a
      new sale would use. An ACK naming a node id registers the seller
      and starts a sale; a successful SALE_START opens the sale; a
      BUY_RESPONSE lowers its quantity; a SALE_END closes it and starts
      another. Every exception is caught and leaves what was already
      done.
    */
    method ProcessMessageUpdate(m: Message, now: real, quantity: Decimal)
      modifies this
      ensures connected == old(connected)
      ensures m.msgType == Ack ==>
                && currentSale == old(currentSale)
                && registered == (old(registered) || Contains(m.data, "node_id") == Success(true))
                && (Contains(m.data, "node_id") == Success(true) && Index(m.data, "node_id").Success? ==>
                      nodeId == Index(m.data, "node_id").value
                      && sent == old(sent) + (if old(currentSale).None? && connected == Some(true)
                                              then [SaleStartMessage(nodeId, behavior, quantity)] else []))
                && (!(Contains(m.data, "node_id") == Success(true) && Index(m.data, "node_id").Success?) ==>
                      nodeId == old(nodeId) && sent == old(sent))
      ensures m.msgType == SaleStart ==>
                && nodeId == old(nodeId) && registered == old(registered) && sent == old(sent)
                && currentSale == match StartedSale(m.data, now)
                                  case Success(Some(s)) => Some(s)
                                  case _ => old(currentSale)
      ensures m.msgType == BuyResponse ==>
                && nodeId == old(nodeId) && registered == old(registered) && sent == old(sent)
                && currentSale == if old(currentSale).Some? && AfterBuyResponse(old(currentSale).value, m.data).Success?
                                  then Some(AfterBuyResponse(old(currentSale).value, m.data).value)
                                  else old(currentSale)
      ensures m.msgType == SaleEnd ==>
                && nodeId == old(nodeId) && registered == old(registered) && currentSale.None?
                && sent == old(sent) + (if connected == Some(true) then [SaleStartMessage(nodeId, behavior, quantity)] else [])
      ensures m.msgType !in {Ack, SaleStart, BuyResponse, SaleEnd} ==>
                nodeId == old(nodeId) && registered == old(registered)
                && currentSale == old(currentSale) && sent == old(sent)
    {
      match m.msgType
      case Ack =>
        if Contains(m.data, "node_id") == Success(true) {
          registered := true;
          var id := Index(m.data, "node_id");
          if id.Success? {
            nodeId := id.value;
            StartNewSale(quantity);
          }
        }
      case SaleStart =>
        var started := StartedSale(m.data, now);
        if started.Success? && started.value.Some? {
          currentSale := started.value;
        }
      case BuyResponse =>
        if currentSale.Some? {
          var after := AfterBuyResponse(currentSale.value, m.data);
          if after.Success? {
            currentSale := Some(after.value);
          }
        }
      case SaleEnd =>
        currentSale := None;
        StartNewSale(quantity);
      case _ =>
    }
  }

  // ---------------------------------------------------------------------
  // Properties

  /**
    A sale opened by a SALE_START reply and then sold from by a
    BUY_RESPONSE keeps its id, name and start time, and its quantity
    drops by what was sold.
  */
  lemma OpenThenSell(reply: Json, sold: Json, now: real)
    requires StartedSale(reply, now).Success? && StartedSale(reply, now).value.Some?
    requires AfterBuyResponse(StartedSale(reply, now).value.value, sold).Success?
    ensures var s := AfterBuyResponse(StartedSale(reply, now).value.value, sold).value;
      && Some(s.itemId) == Lookup(reply.members, "item_id")
      && Some(s.name) == Lookup(reply.members, "name")
      && s.startTime == now
      && Value(s.quantity.n)
         == Value(AsNumber(Lookup(reply.members, "quantity").value).value)
            - Value(AsNumber(Get(sold, "quantity", JNumber(Zero)).value).value)
  {
  }
}
