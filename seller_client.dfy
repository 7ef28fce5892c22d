/**
  The Python `SellerClient`: the seller's current sale as the replies of
  the server set, update and clear it, and the three requests that are
  guarded by that state.

  Two attributes the class uses are never defined: `response_lock`, which
  every reply handler enters to record the reply, and `wait_for_response`,
  which every request calls after sending. Both are modelled as written
  and as evidently intended.
*/
module PySellerClient {
  import opened Wrappers
  import opened Errors
  import opened JsonText
  import opened MessageTypes
  import opened MessageEncoder
  import opened PyValues
  import opened PyClient
  import ItemTypes

  /** The `current_item` dict: the sale the server confirmed. */
  datatype CurrentItem = CurrentItem(itemId: Json, name: Json, quantity: Json, remainingTime: Json)

  /** `60.0`, the `remaining_time` a reply without one is given. */
  const DefaultRemaining := JNumber(Decimal(600, -1))

  /** The seller's state that messages change, `node_id` included. */
  datatype SellerState = SellerState(
    nodeId: Json,
    registered: bool,
    currentItem: Option<CurrentItem>,
    registrationSignalled: bool,
    lastResponse: Option<Message>,
    responseReceived: bool)

  /** The sale a successful SALE_START reply describes. */
  function ItemFromReply(data: Json): (r: Result<CurrentItem, PyError>)
    ensures r.Success? <==> (data.JObject? && Lookup(data.members, "item_id").Some?
                             && Lookup(data.members, "name").Some? && Lookup(data.members, "quantity").Some?)
    ensures r.Success? ==> (Some(r.value.itemId) == Lookup(data.members, "item_id")
                            && Some(r.value.name) == Lookup(data.members, "name")
                            && Some(r.value.quantity) == Lookup(data.members, "quantity"))
    ensures r.Success? && Lookup(data.members, "remaining_time").None? ==> r.value.remainingTime == DefaultRemaining
  {
    match (Index(data, "item_id"), Index(data, "name"), Index(data, "quantity"))
    case (Success(id), Success(n), Success(q)) =>
      Success(CurrentItem(id, n, q, Get(data, "remaining_time", DefaultRemaining).value))
    case (Failure(e), _, _) => Failure(e)
    case (_, Failure(e), _) => Failure(e)
    case (_, _, Failure(e)) => Failure(e)
  }

  /**
    `_handle_buy_response`: with a current sale, its quantity goes down by
    the reply's quantity (0 when absent). A reply that is not a dict, or a
    quantity that cannot be subtracted, raises before anything changes.
  */
  function AfterBuyResponse(item: Option<CurrentItem>, data: Json): (r: Result<Option<CurrentItem>, PyError>)
    ensures item.None? ==> r == Success(None)
    ensures r.Success? && item.Some? ==>
              r.value.Some? && r.value.value == item.value.(quantity := r.value.value.quantity)
    ensures r.Success? && item.Some? ==>
              data.JObject? && AsNumber(item.value.quantity).Some? && AsNumber(r.value.value.quantity).Some?
              && AsNumber(Sold(data)).Some?
              && Value(AsNumber(r.value.value.quantity).value)
                 == Value(AsNumber(item.value.quantity).value) - Value(AsNumber(Sold(data)).value)
  {
    match item
    case None => Success(None)
    case Some(it) =>
      match Get(data, "quantity", JNumber(Zero))
      case Failure(e) => Failure(e)
      case Success(sold) =>
        match Minus(it.quantity, sold)
        case Failure(e) => Failure(e)
        case Success(left) => AsNumberOfNumber(left); Success(Some(it.(quantity := left)))
  }

  /** `data.get("quantity", 0)` on a dict. */
  function Sold(data: Json): Json
    requires data.JObject?
  {
    match Lookup(data.members, "quantity")
    case Some(q) => q
    case None => JNumber(Zero)
  }

  /** A number is its own numeric value. */
  lemma {:induction false} AsNumberOfNumber(v: Json)
    requires v.JNumber?
    ensures AsNumber(v) == Some(v.n)
  {
  }

  /**
    `_handle_stock_update`: the quantity and remaining time are overwritten
    when the update names the current item; every exception is caught
    inside, so a malformed update changes nothing.
  */
  function AfterStockUpdate(item: Option<CurrentItem>, data: Json): (r: Option<CurrentItem>)
    ensures item.None? ==> r.None?
    ensures r != item ==>
              item.Some? && data.JObject? && Lookup(data.members, "quantity").Some? && r.Some?
              && r.value == item.value.(quantity := Lookup(data.members, "quantity").value,
                                        remainingTime := r.value.remainingTime)
    ensures (item.Some? && data.JObject? && Lookup(data.members, "item_id").Some?
             && PyEq(Lookup(data.members, "item_id").value, item.value.itemId)
             && Lookup(data.members, "quantity").Some?) ==>
              r.Some? && r.value.quantity == Lookup(data.members, "quantity").value
  {
    match item
    case None => None
    case Some(it) =>
      match Get(data, "item_id", JNull)
      case Failure(_) => item
      case Success(id) =>
        if !PyEq(id, it.itemId) then item
        else match Index(data, "quantity")
          case Failure(_) => item
          case Success(q) => Some(it.(quantity := q, remainingTime := Get(data, "remaining_time", DefaultRemaining).value))
  }

  /**
    What `process_message_update` does to the state before it reaches the
    reply-recording step, and whether it reaches that step. An exception
    on the way is caught and logged, so it only stops the handler.
  */
  function Dispatch(s: SellerState, m: Message): (r: (SellerState, bool))
    ensures r.0.lastResponse == s.lastResponse && r.0.responseReceived == s.responseReceived
    ensures r.0.nodeId != s.nodeId || r.0.registered != s.registered ==> m.msgType == Ack
    ensures m.msgType == Ack ==> r.0.currentItem == s.currentItem
    ensures r.1 <==>
              || (m.msgType == SaleStart && Get(m.data, "success", JNull).Success?
                  && (Truthy(Get(m.data, "success", JNull).value) ==> ItemFromReply(m.data).Success?))
              || (m.msgType == BuyResponse && AfterBuyResponse(s.currentItem, m.data).Success?)
              || m.msgType == SaleEnd || m.msgType == Error
  {
    match m.msgType
    case Ack =>
      (match Contains(m.data, "node_id")
       case Success(true) =>
         (match Index(m.data, "node_id")
          case Success(id) => (s.(nodeId := id, registered := true, registrationSignalled := true), false)
          case Failure(_) => (s, false))
       case _ => (s, false))
    case SaleStart =>
      (match Get(m.data, "success", JNull)
       case Failure(_) => (s, false)
       case Success(flag) =>
         if !Truthy(flag) then (s, true)
         else match ItemFromReply(m.data)
           case Failure(_) => (s, false)
           case Success(it) => (s.(currentItem := Some(it)), true))
    case StockUpdate => (s.(currentItem := AfterStockUpdate(s.currentItem, m.data)), false)
    case BuyResponse =>
      (match AfterBuyResponse(s.currentItem, m.data)
       case Failure(_) => (s, false)
       case Success(it) => (s.(currentItem := it), true))
    case SaleEnd => (s.(currentItem := None), true)
    case Error => (s, true)
    case _ => (s, false)
  }

  /**
    `process_message_update` as written: the reply-recording step enters
    `self.response_lock`, which the class never defines, so it raises
    AttributeError, which the handler catches. No reply is ever recorded.
  */
  function ProcessAsWritten(s: SellerState, m: Message): (r: SellerState)
    ensures r.lastResponse == s.lastResponse && !(r.responseReceived && !s.responseReceived)
  {
    Dispatch(s, m).0
  }

  /**
    `process_message_update` as intended: every SALE_START, BUY_RESPONSE,
    SALE_END and ERROR that the handler gets through is recorded as the
    last reply and signalled to the waiting request.
  */
  function Process(s: SellerState, m: Message): (r: SellerState)
    ensures Dispatch(s, m).1 ==> r.lastResponse == Some(m) && r.responseReceived
    ensures !Dispatch(s, m).1 ==> r.lastResponse == s.lastResponse && r.responseReceived == s.responseReceived
    ensures r.(lastResponse := s.lastResponse, responseReceived := s.responseReceived) == ProcessAsWritten(s, m)
  {
    var (t, recorded) := Dispatch(s, m);
    if recorded then t.(lastResponse := Some(m), responseReceived := true) else t
  }

  /** The exception a request raises for a reply: an ERROR reply's text. */
  function ErrorReply(reply: Message): (r: Option<PyError>)
    ensures r.Some? <==> reply.msgType == Error
  {
    if reply.msgType != Error then None
    else match Get(reply.data, "error", JString("Unknown error"))
      case Failure(e) => Some(e)
      case Success(v) => Some(RuntimeError(Str(v)))
  }

  /** The RuntimeError a request re-raises around what went wrong. */
  function Failed(action: string, e: PyError): PyError
  {
    RuntimeError("Failed to " + action + ": " + Text(e))
  }

  /**
    How the wait for a reply ends: the exception the request raises, if
    any. `start_sale` also requires that a reply came at all.
  */
  function ReplyOutcome(wait: Result<Option<Message>, PyError>, replyRequired: bool): (r: Option<PyError>)
    ensures r.None? <==> wait.Success?
                         && (wait.value.None? ==> !replyRequired)
                         && (wait.value.Some? ==> wait.value.value.msgType != Error)
  {
    match wait
    case Failure(e) => Some(e)
    case Success(None) => if replyRequired then Some(RuntimeError("No response received from server")) else None
    case Success(Some(reply)) => ErrorReply(reply)
  }

  /** The result of a request whose `try` block ended with `e`. */
  function Outcome(action: string, e: Option<PyError>): (r: Result<(), PyError>)
    ensures r.Success? <==> e.None?
    ensures r.Failure? ==> r.error == Failed(action, e.value)
  {
    match e
    case None => Success(())
    case Some(x) => Failure(Failed(action, x))
  }

  /** What `self.wait_for_response()` raises as written: no such attribute. */
  const MissingWait: Result<Option<Message>, PyError> := Failure(AttributeError("wait_for_response"))

  function RegisterMessage(): Message
  {
    Message(Register, JObject([("client_type", JString("seller"))]), JString("unregistered"))
  }

  function SaleStartMessage(nodeId: Json, name: string, quantity: Decimal): Message
  {
    Message(SaleStart, JObject([("name", JString(name)), ("quantity", JNumber(quantity))]), nodeId)
  }

  function StockUpdateMessage(nodeId: Json, itemId: Json, quantity: Decimal): Message
  {
    Message(StockUpdate, JObject([("item_id", itemId), ("quantity", JNumber(quantity))]), nodeId)
  }

  function SaleEndMessage(nodeId: Json, itemId: Json): Message
  {
    Message(SaleEnd, JObject([("item_id", itemId)]), nodeId)
  }

  class SellerClient {
    const conn: Client
    var currentItem: Option<CurrentItem>
    var registered: bool
    /** `registration_event`. */
    var registrationSignalled: bool
    var lastResponse: Option<Message>
    /** `response_received`. */
    var responseReceived: bool

    function View(): SellerState
      reads this, conn
    {
      SellerState(conn.nodeId, registered, currentItem, registrationSignalled, lastResponse, responseReceived)
    }

    constructor()
      ensures fresh(conn) && !conn.Open() && conn.outbox == [] && conn.nodeId == JNull
      ensures View() == SellerState(JNull, false, None, false, None, false)
    {
      conn := new Client();
      currentItem := None;
      registered := false;
      registrationSignalled := false;
      lastResponse := None;
      responseReceived := false;
    }

    method SetView(t: SellerState)
      modifies this, conn
      ensures View() == t
      ensures conn.connected == old(conn.connected) && conn.closed == old(conn.closed) && conn.outbox == old(conn.outbox)
      ensures conn.inbound == old(conn.inbound) && conn.isRunning == old(conn.isRunning)
    {
      conn.nodeId := t.nodeId;
      registered := t.registered;
      currentItem := t.currentItem;
      registrationSignalled := t.registrationSignalled;
      lastResponse := t.lastResponse;
      responseReceived := t.responseReceived;
    }

    /** `process_message_update` as written. */
    method ProcessMessageUpdateAsWritten(m: Message)
      modifies this, conn
      ensures View() == ProcessAsWritten(old(View()), m)
      ensures conn.connected == old(conn.connected) && conn.closed == old(conn.closed) && conn.outbox == old(conn.outbox)
      ensures conn.inbound == old(conn.inbound) && conn.isRunning == old(conn.isRunning)
    {
      SetView(ProcessAsWritten(View(), m));
    }

    /** `process_message_update` with the reply recorded under a lock. */
    method ProcessMessageUpdate(m: Message)
      modifies this, conn
      ensures View() == Process(old(View()), m)
      ensures conn.connected == old(conn.connected) && conn.closed == old(conn.closed) && conn.outbox == old(conn.outbox)
      ensures conn.inbound == old(conn.inbound) && conn.isRunning == old(conn.isRunning)
    {
      SetView(Process(View(), m));
    }

    /**
      `register`: clears the registration event, sends REGISTER as a
      seller and waits up to five seconds; `acked` says whether an ACK set
      the event in that time. A failed send is re-raised as it is.
    */
    method Register(acked: bool) returns (r: Result<(), PyError>)
      modifies this, conn
      ensures !registrationSignalled
      ensures r.Success? ==> Sent(old(conn.outbox), conn.outbox, RegisterMessage()) && acked
      ensures old(conn.Open()) && |Serialize(RegisterMessage())| < HeaderLimit && !acked ==>
                r == Failure(TimeoutError("Registration timed out"))
      ensures !old(conn.connected) ==> r == Failure(RuntimeError("Not connected to server"))
      ensures conn.nodeId == old(conn.nodeId) && registered == old(registered) && currentItem == old(currentItem)
      ensures lastResponse == old(lastResponse) && responseReceived == old(responseReceived)
    {
      registrationSignalled := false;
      r := conn.SendMessage(RegisterMessage());
      if r.Success? && !acked {
        r := Failure(TimeoutError("Registration timed out"));
      }
    }

    /** `start_sale` passes its guards and its request can be sent. */
    predicate CanStartSale(itemName: string, quantity: Decimal)
      reads this, conn
    {
      && registered && currentItem.None? && ItemTypes.FromString(itemName).Success?
      && conn.Open() && |Serialize(SaleStartMessage(conn.nodeId, itemName, quantity))| < HeaderLimit
    }

    /**
      `start_sale`, with `wait` the outcome of waiting for the reply: the
      guards raise before anything is sent, the item name is checked
      before the send, and every later failure is re-raised as
      "Failed to start sale: ...". A reply is required. The sale itself is
      recorded by the SALE_START reply handler, not here.
    */
    method StartSale(itemName: string, quantity: Decimal, wait: Result<Option<Message>, PyError>)
      returns (r: Result<(), PyError>)
      modifies conn
      ensures !registered ==> r == Failure(RuntimeError("Not registered with server"))
      ensures registered && currentItem.Some? ==> r == Failure(RuntimeError("Already have active sale"))
      ensures registered && currentItem.None? && ItemTypes.FromString(itemName).Failure? ==>
                r == Failure(Failed("start sale", ItemTypes.FromString(itemName).error))
      ensures r.Failure? ==> r.error.RuntimeError?
      ensures old(CanStartSale(itemName, quantity)) ==>
                Sent(old(conn.outbox), conn.outbox, SaleStartMessage(conn.nodeId, itemName, quantity))
                && r == Outcome("start sale", ReplyOutcome(wait, true))
      ensures !old(CanStartSale(itemName, quantity)) ==> conn.outbox == old(conn.outbox) && r.Failure?
      ensures conn.connected == old(conn.connected) && conn.closed == old(conn.closed) && conn.inbound == old(conn.inbound)
      ensures conn.nodeId == old(conn.nodeId) && conn.isRunning == old(conn.isRunning)
    {
      if !registered {
        return Failure(RuntimeError("Not registered with server"));
      }
      if currentItem.Some? {
        return Failure(RuntimeError("Already have active sale"));
      }
      var itemType := ItemTypes.FromString(itemName);
      if itemType.Failure? {
        return Failure(Failed("start sale", itemType.error));
      }
      var sent := conn.SendMessage(SaleStartMessage(conn.nodeId, itemName, quantity));
      if sent.Failure? {
        return Failure(Failed("start sale", sent.error));
      }
      r := Outcome("start sale", ReplyOutcome(wait, true));
    }

    /**
      `start_sale` as written: once the guards pass and the request is
      sent, the call to the missing `wait_for_response` raises, so the
      caller is told the sale failed although the server received it.
    */
    method StartSaleAsWritten(itemName: string, quantity: Decimal) returns (r: Result<(), PyError>)
      modifies conn
      ensures r.Failure?
      ensures old(CanStartSale(itemName, quantity)) ==>
                Sent(old(conn.outbox), conn.outbox, SaleStartMessage(conn.nodeId, itemName, quantity))
                && r == Failure(Failed("start sale", AttributeError("wait_for_response")))
    {
      r := StartSale(itemName, quantity, MissingWait);
    }

    /** `update_stock` and `end_sale` pass their guards. */
    predicate HasSale()
      reads this
    {
      registered && currentItem.Some?
    }

    /**
      `update_stock`: the guards and the negative-quantity check raise
      before anything is sent, the last as a plain ValueError; after the
      send, only a failed wait or an ERROR reply makes it fail.
    */
    method UpdateStock(quantity: Decimal, wait: Result<Option<Message>, PyError>) returns (r: Result<(), PyError>)
      modifies conn
      ensures !registered ==> r == Failure(RuntimeError("Not registered with server"))
      ensures registered && currentItem.None? ==> r == Failure(RuntimeError("No active sale"))
      ensures HasSale() && Negative(quantity) ==> r == Failure(ValueError("Quantity cannot be negative"))
      ensures HasSale() && !Negative(quantity) && old(conn.Open())
              && |Serialize(StockUpdateMessage(conn.nodeId, currentItem.value.itemId, quantity))| < HeaderLimit ==>
                Sent(old(conn.outbox), conn.outbox, StockUpdateMessage(conn.nodeId, currentItem.value.itemId, quantity))
                && r == Outcome("update stock", ReplyOutcome(wait, false))
      ensures r.Success? ==>
                HasSale() && !Negative(quantity) && old(conn.Open())
                && |Serialize(StockUpdateMessage(conn.nodeId, currentItem.value.itemId, quantity))| < HeaderLimit
      ensures r.Failure? && conn.outbox != old(conn.outbox) ==> r.error.RuntimeError?
      ensures conn.connected == old(conn.connected) && conn.closed == old(conn.closed) && conn.inbound == old(conn.inbound)
      ensures conn.nodeId == old(conn.nodeId) && conn.isRunning == old(conn.isRunning)
    {
      if !registered {
        return Failure(RuntimeError("Not registered with server"));
      }
      if currentItem.None? {
        return Failure(RuntimeError("No active sale"));
      }
      if Negative(quantity) {
        return Failure(ValueError("Quantity cannot be negative"));
      }
      var sent := conn.SendMessage(StockUpdateMessage(conn.nodeId, currentItem.value.itemId, quantity));
      if sent.Failure? {
        return Failure(Failed("update stock", sent.error));
      }
      r := Outcome("update stock", ReplyOutcome(wait, false));
    }

    /** `update_stock` as written: it can never report success. */
    method UpdateStockAsWritten(quantity: Decimal) returns (r: Result<(), PyError>)
      modifies conn
      ensures r.Failure?
    {
      r := UpdateStock(quantity, MissingWait);
    }

    /**
      `end_sale`: the guards raise before anything is sent; after the
      SALE_END request, a failed wait or an ERROR reply keeps the current
      sale, and anything else clears it.
    */
    method EndSale(wait: Result<Option<Message>, PyError>) returns (r: Result<(), PyError>)
      modifies this, conn
      ensures !old(registered) ==> r == Failure(RuntimeError("Not registered with server"))
      ensures old(registered) && old(currentItem).None? ==> r == Failure(RuntimeError("No active sale"))
      ensures old(HasSale()) && old(conn.Open())
              && |Serialize(SaleEndMessage(conn.nodeId, old(currentItem).value.itemId))| < HeaderLimit ==>
                Sent(old(conn.outbox), conn.outbox, SaleEndMessage(conn.nodeId, old(currentItem).value.itemId))
                && r == Outcome("end sale", ReplyOutcome(wait, false))
      ensures r.Success? ==>
                old(HasSale()) && old(conn.Open()) && currentItem.None?
                && |Serialize(SaleEndMessage(conn.nodeId, old(currentItem).value.itemId))| < HeaderLimit
      ensures r.Failure? ==> currentItem == old(currentItem)
      ensures registered == old(registered) && lastResponse == old(lastResponse)
      ensures responseReceived == old(responseReceived) && registrationSignalled == old(registrationSignalled)
      ensures conn.connected == old(conn.connected) && conn.closed == old(conn.closed) && conn.inbound == old(conn.inbound)
      ensures conn.nodeId == old(conn.nodeId) && conn.isRunning == old(conn.isRunning)
    {
      if !registered {
        return Failure(RuntimeError("Not registered with server"));
      }
      if currentItem.None? {
        return Failure(RuntimeError("No active sale"));
      }
      var sent := conn.SendMessage(SaleEndMessage(conn.nodeId, currentItem.value.itemId));
      if sent.Failure? {
        return Failure(Failed("end sale", sent.error));
      }
      r := Outcome("end sale", ReplyOutcome(wait, false));
      if r.Success? {
        currentItem := None;
      }
    }

    /**
      `end_sale` as written: it always raises after sending, so it never
      clears the current sale itself.
    */
    method EndSaleAsWritten() returns (r: Result<(), PyError>)
      modifies this, conn
      ensures r.Failure? && currentItem == old(currentItem)
    {
      r := EndSale(MissingWait);
    }
  }

  // ---------------------------------------------------------------------
  // Properties of the reply handler

  /**
    A SALE_START reply with a truthy `success` and the three item fields
    makes that item the current sale; without `success` the current sale
    is untouched.
  */
  lemma {:induction false} SaleStartReply(s: SellerState, m: Message)
    requires m.msgType == SaleStart
    ensures var flag := Get(m.data, "success", JNull);
      && (flag.Success? && Truthy(flag.value) && ItemFromReply(m.data).Success? ==>
            Process(s, m).currentItem == Some(ItemFromReply(m.data).value) && Process(s, m).lastResponse == Some(m))
      && (!(flag.Success? && Truthy(flag.value)) ==> Process(s, m).currentItem == s.currentItem)
  {
  }

  /** A SALE_END reply always clears the current sale and is recorded. */
  lemma {:induction false} SaleEndReply(s: SellerState, m: Message)
    requires m.msgType == SaleEnd
    ensures Process(s, m).currentItem.None? && Process(s, m).lastResponse == Some(m)
  {
  }

  /**
    Only the four reply types are ever recorded, and as written none is:
    the difference between the two handlers is exactly the recording.
  */
  lemma {:induction false} RecordedReplies(s: SellerState, m: Message)
    ensures Process(s, m).lastResponse != s.lastResponse ==> m.msgType in {SaleStart, BuyResponse, SaleEnd, Error}
    ensures ProcessAsWritten(s, m).lastResponse == s.lastResponse
    ensures m.msgType in {SaleEnd, Error} ==> Process(s, m).lastResponse == Some(m)
  {
  }
}
