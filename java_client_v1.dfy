/**
  The first Java seller client: `MarketClient`, the connection every
  client shares, and `SellerClient`, which extends it with one sale at a
  time. A receiver thread reads the server's messages: an ACK sets the
  client's id, every other message goes to the response queue, from
  which `waitForResponse` takes the answer to a request.

  Threads are not modelled. The messages the receiver has read by the
  time an answer is awaited are the argument of `Receive`; a wait that
  finds the queue empty times out. The socket becomes `outbox`, the
  messages written; the heartbeat's schedule is left out and `Heartbeat`
  is one of its ticks.
*/
module JavaClientV1 {
  import opened Wrappers
  import opened Errors
  import opened JavaMessages
  import JsonText

  /** How long a seller waits for an answer, in seconds. */
  const ResponseTimeoutSeconds: nat := 5

  function TimeoutText(seconds: nat): string
  {
    "No response received within " + JsonText.NatText(seconds) + " SECONDS"
  }

  function RegisterMessage(): Message
  {
    Message(Register, map["clientType" := Str("SELLER")], Some("unregistered"))
  }

  function SaleStartRequest(name: string, quantity: real, sender: Option<string>): Message
  {
    Message(SaleStart, map["name" := Str(name), "quantity" := Num(quantity)], sender)
  }

  function SaleEndRequest(itemId: string, sender: Option<string>): Message
  {
    Message(SaleEnd, map["itemId" := Str(itemId)], sender)
  }

  function HeartbeatMessage(clientId: string, nowMillis: int): Message
  {
    Message(Heartbeat, map["timestamp" := Long(nowMillis)], Some(clientId))
  }

  /**
    The seller's record of its sale: what `new Item(...)` is given. Each
    field read from a reply may be null.
  */
  datatype SaleItem = SaleItem(id: Option<string>, name: Option<string>, quantity: real, sellerId: Option<string>)

  function FromView(v: ItemView): SaleItem
  {
    SaleItem(Some(v.id), Some(v.name), v.quantity, Some(v.sellerId))
  }

  // ---------------------------------------------------------------------
  // What a received message does

  /**
    `MarketClient.handleMessage` on the id: an ACK with a `clientId`
    entry sets it; a value that is not a string fails the cast, which is
    caught, and leaves the id as it was.
  */
  function AckedId(m: Message, current: Option<string>): (r: Option<string>)
    ensures m.msgType != Ack || "clientId" !in m.data || !m.data["clientId"].Str? ==> r == current
    ensures m.msgType == Ack && "clientId" in m.data && m.data["clientId"].Str? ==> r == Some(m.data["clientId"].s)
  {
    if m.msgType == Ack && "clientId" in m.data then
      match AsString(Field(m, "clientId"))
      case Success(id) => id
      case Failure(_) => current
    else current
  }

  /** `MarketClient.handleMessage` on the queue: every message but an ACK is queued. */
  function Queued(m: Message): seq<Message>
  {
    if m.msgType == Ack then [] else [m]
  }

  /** The index of the first view whose id is `id`. */
  function FirstWithId(vs: seq<ItemView>, id: Option<string>): (r: Option<nat>)
    ensures r.Some? ==> r.value < |vs| && Some(vs[r.value].id) == id
    ensures r.Some? ==> forall j | 0 <= j < r.value :: Some(vs[j].id) != id
    ensures r.None? ==> forall j | 0 <= j < |vs| :: Some(vs[j].id) != id
    decreases |vs|
  {
    if |vs| == 0 then None
    else if Some(vs[0].id) == id then Some(0)
    else match FirstWithId(vs[1..], id)
      case None => None
      case Some(i) => Some(i + 1)
  }

  /**
    `SellerClient.handleMessage`'s own part: a STOCK_UPDATE, while a sale
    is on, replaces the sale's record with the first listed item of the
    same id, and keeps it when no item has that id. A missing list
    throws a NullPointerException, a value that is not a list a
    ClassCastException.
  */
  function UpdatedItem(m: Message, current: Option<SaleItem>): (r: Result<Option<SaleItem>, JavaError>)
    ensures m.msgType != StockUpdate || current.None? ==> r == Success(current)
    ensures m.msgType == StockUpdate && current.Some? && Field(m, "items").None? ==>
      r == Failure(NullPointerException)
    ensures m.msgType == StockUpdate && current.Some? && Field(m, "items").Some? && !Field(m, "items").value.ItemList? ==>
      r == Failure(ClassCastException)
    ensures m.msgType == StockUpdate && current.Some? && Field(m, "items").Some? && Field(m, "items").value.ItemList? ==>
      var vs := Field(m, "items").value.items;
      && ((forall j | 0 <= j < |vs| :: Some(vs[j].id) != current.value.id) ==> r == Success(current))
      && (forall i | 0 <= i < |vs| && Some(vs[i].id) == current.value.id
                     && (forall j | 0 <= j < i :: Some(vs[j].id) != current.value.id) ::
            r == Success(Some(FromView(vs[i]))))
    ensures r.Success? && r.value.Some? ==> current.Some? && r.value.value.id == current.value.id
    ensures r.Success? && r.value != current ==>
      exists v :: Field(m, "items").Some? && Field(m, "items").value.ItemList?
                  && v in Field(m, "items").value.items && r.value == Some(FromView(v))
  {
    if m.msgType != StockUpdate || current.None? then Success(current)
    else match Field(m, "items")
      case None => Failure(NullPointerException)
      case Some(ItemList(vs)) =>
        (match FirstWithId(vs, current.value.id)
         case None => Success(current)
         case Some(i) => Success(Some(FromView(vs[i]))))
      case Some(_) => Failure(ClassCastException)
  }

  /** What the receiver of a seller keeps: its id, its response queue and its sale. */
  datatype SellerState = SellerState(clientId: Option<string>, queue: seq<Message>, item: Option<SaleItem>)

  /**
    One message handled by the seller's `handleMessage`: the base class's
    part, then the seller's; an exception of the seller's part is caught
    by the receiver and leaves the sale as it was.
  */
  function Received(s: SellerState, m: Message): SellerState
  {
    SellerState(AckedId(m, s.clientId), s.queue + Queued(m),
                match UpdatedItem(m, s.item) case Success(i) => i case Failure(_) => s.item)
  }

  /** The messages `ms` handled in order. */
  function ReceivedAll(s: SellerState, ms: seq<Message>): SellerState
    decreases |ms|
  {
    if |ms| == 0 then s else Received(ReceivedAll(s, ms[..|ms| - 1]), ms[|ms| - 1])
  }

  /** The messages of `ms` that are not ACKs, in order. */
  function NonAcks(ms: seq<Message>): (r: seq<Message>)
    ensures |r| <= |ms|
    ensures forall m | m in r :: m in ms && m.msgType != Ack
    decreases |ms|
  {
    if |ms| == 0 then [] else NonAcks(ms[..|ms| - 1]) + Queued(ms[|ms| - 1])
  }

  // ---------------------------------------------------------------------
  // Answers to requests

  /**
    The answer to a SALE_START: the sale's record when the reply reports
    success, None when it reports failure, and otherwise the exception
    `startSale` throws, an ERROR's text included.
  */
  function StartReply(reply: Message, clientId: Option<string>): (r: Result<Option<SaleItem>, JavaError>)
    ensures r.Success? ==> reply.msgType == SaleStart && AsBool(Field(reply, "success")).Success?
    ensures r.Success? ==> (r.value.Some? <==> AsBool(Field(reply, "success")).value)
    ensures r.Success? && r.value.Some? ==>
      && r.value.value.sellerId == clientId
      && AsString(Field(reply, "itemId")) == Success(r.value.value.id)
      && AsString(Field(reply, "name")) == Success(r.value.value.name)
      && Field(reply, "quantity") == Some(Num(r.value.value.quantity))
    ensures reply.msgType == Error && Field(reply, "error").Some? && Field(reply, "error").value.Str? ==>
      r == Failure(RuntimeException(Some(Field(reply, "error").value.s)))
    ensures reply.msgType !in {SaleStart, Error} ==>
      r == Failure(RuntimeException(Some("Unexpected response type: " + TypeName(reply.msgType))))
  {
    match reply.msgType
    case SaleStart =>
      (match AsBool(Field(reply, "success"))
       case Failure(e) => Failure(e)
       case Success(false) => Success(None)
       case Success(true) =>
         match (AsString(Field(reply, "itemId")), AsString(Field(reply, "name")), AsDouble(Field(reply, "quantity")))
         case (Success(id), Success(name), Success(q)) => Success(Some(SaleItem(id, name, q, clientId)))
         case (Failure(e), _, _) => Failure(e)
         case (_, Failure(e), _) => Failure(e)
         case (_, _, Failure(e)) => Failure(e))
    case Error =>
      (match AsString(Field(reply, "error"))
       case Success(text) => Failure(RuntimeException(text))
       case Failure(e) => Failure(e))
    case _ => Failure(RuntimeException(Some("Unexpected response type: " + TypeName(reply.msgType))))
  }

  /**
    The answer to a SALE_END: whether the reply reports success, or the
    exception `endSale` throws.
  */
  function EndReply(reply: Message): (r: Result<bool, JavaError>)
    ensures r.Success? <==> reply.msgType == SaleEnd && AsBool(Field(reply, "success")).Success?
    ensures r.Success? ==> r.value == AsBool(Field(reply, "success")).value
    ensures reply.msgType == Error && Field(reply, "error").Some? && Field(reply, "error").value.Str? ==>
      r == Failure(RuntimeException(Some(Field(reply, "error").value.s)))
    ensures reply.msgType !in {SaleEnd, Error} ==>
      r == Failure(RuntimeException(Some("Unexpected response type: " + TypeName(reply.msgType))))
  {
    match reply.msgType
    case SaleEnd => AsBool(Field(reply, "success"))
    case Error =>
      (match AsString(Field(reply, "error"))
       case Success(text) => Failure(RuntimeException(text))
       case Failure(e) => Failure(e))
    case _ => Failure(RuntimeException(Some("Unexpected response type: " + TypeName(reply.msgType))))
  }

  // ---------------------------------------------------------------------
  // The classes

  class MarketClient {
    var clientId: Option<string>
    var running: bool
    /** Whether `connect` has opened the streams. */
    var connected: bool
    var socketClosed: bool
    var responseQueue: seq<Message>
    /** The messages written to the server, in order. */
    var outbox: seq<Message>

    constructor ()
      ensures clientId.None? && !running && !connected && !socketClosed
      ensures responseQueue == [] && outbox == []
    {
      clientId := None;
      running := false;
      connected := false;
      socketClosed := false;
      responseQueue := [];
      outbox := [];
    }

    /** What writing throws: NullPointerException before `connect`, IOException once closed. */
    function SendFailure(): (r: Option<JavaError>)
      reads this
      ensures r.None? <==> connected && !socketClosed
    {
      if !connected then Some(NullPointerException)
      else if socketClosed then Some(IOException("Socket closed"))
      else None
    }

    /** `sendMessage`. */
    method SendMessage(m: Message) returns (r: Result<(), JavaError>)
      modifies `outbox
      ensures SendFailure().Some? ==> r == Failure(SendFailure().value) && outbox == old(outbox)
      ensures SendFailure().None? ==> r == Success(()) && outbox == old(outbox) + [m]
    {
      var failure := SendFailure();
      if failure.Some? {
        return Failure(failure.value);
      }
      outbox := outbox + [m];
      r := Success(());
    }

    /** `handleMessage`: an ACK may set the id; anything else is queued. */
    method HandleMessage(m: Message)
      modifies `clientId, `responseQueue
      ensures clientId == AckedId(m, old(clientId))
      ensures responseQueue == old(responseQueue) + Queued(m)
    {
      if m.msgType == Ack {
        if "clientId" in m.data {
          var id := AsString(Field(m, "clientId"));
          if id.Success? {
            clientId := id.value;
          }
        }
      } else {
        responseQueue := responseQueue + [m];
      }
    }

    /** `waitForResponse`: the oldest queued message, or a timeout. */
    method WaitForResponse(timeoutSeconds: nat) returns (r: Result<Message, JavaError>)
      modifies `responseQueue
      ensures old(responseQueue) == [] ==>
        r == Failure(TimeoutException(TimeoutText(timeoutSeconds))) && responseQueue == []
      ensures old(responseQueue) != [] ==>
        r == Success(old(responseQueue)[0]) && responseQueue == old(responseQueue)[1..]
    {
      if responseQueue == [] {
        return Failure(TimeoutException(TimeoutText(timeoutSeconds)));
      }
      r := Success(responseQueue[0]);
      responseQueue := responseQueue[1..];
    }

    /** The heartbeat's condition: running, and registered. */
    predicate HeartbeatDue()
      reads this
    {
      running && clientId.Some?
    }

    /** One heartbeat tick at `nowMillis`; a failure to write is caught. */
    method Heartbeat(nowMillis: int)
      modifies `outbox
      ensures outbox == old(outbox) + (if HeartbeatDue() && SendFailure().None?
                                       then [HeartbeatMessage(clientId.value, nowMillis)] else [])
    {
      if running && clientId.Some? {
        var _ := SendMessage(HeartbeatMessage(clientId.value, nowMillis));
      }
    }

    /** `close`: stop, and close the socket if there is one. */
    method Close()
      modifies `running, `socketClosed
      ensures !running
      ensures socketClosed == (old(socketClosed) || connected)
    {
      running := false;
      if connected {
        socketClosed := true;
      }
    }
  }

  class SellerClient {
    const base: MarketClient
    var currentItem: Option<SaleItem>

    constructor ()
      ensures fresh(base) && currentItem.None?
      ensures base.clientId.None? && !base.running && !base.connected && !base.socketClosed
      ensures base.responseQueue == [] && base.outbox == []
    {
      base := new MarketClient();
      currentItem := None;
    }

    ghost function State(): SellerState
      reads this, base
    {
      SellerState(base.clientId, base.responseQueue, currentItem)
    }

    /** `register`: announce a seller, under the sender "unregistered". */
    method Register() returns (r: Result<(), JavaError>)
      modifies base`outbox
      ensures base.SendFailure().Some? ==> r == Failure(base.SendFailure().value) && base.outbox == old(base.outbox)
      ensures base.SendFailure().None? ==> r == Success(()) && base.outbox == old(base.outbox) + [RegisterMessage()]
    {
      r := base.SendMessage(RegisterMessage());
    }

    /** `connect`: open the streams, start receiving, and register. */
    method Connect() returns (r: Result<(), JavaError>)
      modifies base`connected, base`socketClosed, base`running, base`outbox
      ensures base.connected && !base.socketClosed && base.running
      ensures r == Success(()) && base.outbox == old(base.outbox) + [RegisterMessage()]
    {
      base.connected := true;
      base.socketClosed := false;
      base.running := true;
      r := Register();
    }

    /**
      `handleMessage`: the base class's part, then, for a STOCK_UPDATE,
      the seller's own.
    */
    method HandleMessage(m: Message) returns (r: Result<(), JavaError>)
      modifies base`clientId, base`responseQueue, `currentItem
      ensures State() == Received(old(State()), m)
      ensures r.Failure? <==> UpdatedItem(m, old(currentItem)).Failure?
    {
      base.HandleMessage(m);
      var updated := UpdatedItem(m, currentItem);
      if updated.Failure? {
        return Failure(updated.error);
      }
      currentItem := updated.value;
      r := Success(());
    }

    /**
      `receiveMessages` over the messages `incoming`: while running, each
      is handled in turn and an exception is logged; the end of the
      stream stops the client.
    */
    method Receive(incoming: seq<Message>)
      modifies base`clientId, base`responseQueue, base`running, `currentItem
      ensures old(base.running) ==> State() == ReceivedAll(old(State()), incoming)
      ensures !old(base.running) ==> State() == old(State())
      ensures !base.running
    {
      if !base.running {
        return;
      }
      var i := 0;
      while i < |incoming|
        invariant i <= |incoming|
        invariant State() == ReceivedAll(old(State()), incoming[..i])
      {
        assert incoming[..i + 1][..i] == incoming[..i];
        var _ := HandleMessage(incoming[i]);
        i := i + 1;
      }
      assert incoming[..i] == incoming;
      base.running := false;
    }

    /**
      `startSale`: with no sale on, send a SALE_START and take the
      answer; a success records the sale.
    */
    method StartSale(name: string, quantity: real) returns (r: Result<(), JavaError>)
      modifies `currentItem, base`outbox, base`responseQueue
      ensures old(currentItem).Some? ==>
        && r == Failure(IllegalStateException("Already have active sale"))
        && unchanged(this) && base.outbox == old(base.outbox) && base.responseQueue == old(base.responseQueue)
      ensures old(currentItem).None? && base.SendFailure().Some? ==>
        && r == Failure(base.SendFailure().value)
        && currentItem.None? && base.outbox == old(base.outbox) && base.responseQueue == old(base.responseQueue)
      ensures old(currentItem).None? && base.SendFailure().None? ==>
        && base.outbox == old(base.outbox) + [SaleStartRequest(name, quantity, base.clientId)]
        && (old(base.responseQueue) == [] ==>
              r == Failure(TimeoutException(TimeoutText(ResponseTimeoutSeconds))) && currentItem.None?
              && base.responseQueue == [])
        && (old(base.responseQueue) != [] ==>
              && base.responseQueue == old(base.responseQueue)[1..]
              && var answer := StartReply(old(base.responseQueue)[0], base.clientId);
                 && (answer.Failure? ==> r == Failure(answer.error) && currentItem.None?)
                 && (answer.Success? ==> r == Success(()) && currentItem == answer.value))
    {
      if currentItem.Some? {
        return Failure(IllegalStateException("Already have active sale"));
      }
      var sent := base.SendMessage(SaleStartRequest(name, quantity, base.clientId));
      if sent.Failure? {
        return sent;
      }
      var response := base.WaitForResponse(ResponseTimeoutSeconds);
      if response.Failure? {
        return Failure(response.error);
      }
      var answer := StartReply(response.value, base.clientId);
      if answer.Failure? {
        return Failure(answer.error);
      }
      currentItem := answer.value;
      r := Success(());
    }

    /**
      `endSale`: with a sale on, send a SALE_END for its id and take the
      answer; a reported success clears the sale. A record without an id
      makes `Map.of` throw before anything is sent.
    */
    method EndSale() returns (r: Result<(), JavaError>)
      modifies `currentItem, base`outbox, base`responseQueue
      ensures old(currentItem).None? ==>
        r == Failure(IllegalStateException("No active sale")) && unchanged(this)
        && base.outbox == old(base.outbox) && base.responseQueue == old(base.responseQueue)
      ensures old(currentItem).Some? && old(currentItem).value.id.None? ==>
        r == Failure(NullPointerException) && unchanged(this)
        && base.outbox == old(base.outbox) && base.responseQueue == old(base.responseQueue)
      ensures old(currentItem).Some? && old(currentItem).value.id.Some? ==>
        && (base.SendFailure().Some? ==>
              r == Failure(base.SendFailure().value) && unchanged(this)
              && base.outbox == old(base.outbox) && base.responseQueue == old(base.responseQueue))
        && (base.SendFailure().None? ==>
              && base.outbox == old(base.outbox) + [SaleEndRequest(old(currentItem).value.id.value, base.clientId)]
              && (old(base.responseQueue) == [] ==>
                    r == Failure(TimeoutException(TimeoutText(ResponseTimeoutSeconds)))
                    && unchanged(this) && base.responseQueue == [])
              && (old(base.responseQueue) != [] ==>
                    && base.responseQueue == old(base.responseQueue)[1..]
                    && var answer := EndReply(old(base.responseQueue)[0]);
                       && (answer.Failure? ==> r == Failure(answer.error) && unchanged(this))
                       && (answer.Success? ==> r == Success(()) && currentItem == if answer.value then None else old(currentItem))))
    {
      if currentItem.None? {
        return Failure(IllegalStateException("No active sale"));
      }
      if currentItem.value.id.None? {
        return Failure(NullPointerException);
      }
      var sent := base.SendMessage(SaleEndRequest(currentItem.value.id.value, base.clientId));
      if sent.Failure? {
        return sent;
      }
      var response := base.WaitForResponse(ResponseTimeoutSeconds);
      if response.Failure? {
        return Failure(response.error);
      }
      var answer := EndReply(response.value);
      if answer.Failure? {
        return Failure(answer.error);
      }
      if answer.value {
        currentItem := None;
      }
      r := Success(());
    }
  }

  // ---------------------------------------------------------------------
  // Properties of the receiver

  /** The response queue grows by exactly the messages that are not ACKs, in order. */
  lemma {:induction false} ReceivedQueue(s: SellerState, ms: seq<Message>)
    ensures ReceivedAll(s, ms).queue == s.queue + NonAcks(ms)
    decreases |ms|
  {
    if |ms| > 0 {
      ReceivedQueue(s, ms[..|ms| - 1]);
    }
  }

  /**
    Stock updates never start or end a sale, and never change which
    item it is: the record's id stays the same.
  */
  lemma {:induction false} ReceivedKeepsSale(s: SellerState, ms: seq<Message>)
    ensures ReceivedAll(s, ms).item.None? <==> s.item.None?
    ensures s.item.Some? ==> ReceivedAll(s, ms).item.value.id == s.item.value.id
    decreases |ms|
  {
    if |ms| > 0 {
      ReceivedKeepsSale(s, ms[..|ms| - 1]);
    }
  }

  /**
    A stock update received during a sale: the record becomes the first
    listed item with the sale's id, and stays as it was when none has it
    or when the update carries no list.
  */
  lemma StockUpdateReplacesSale(s: SellerState, m: Message)
    requires m.msgType == StockUpdate && s.item.Some?
    ensures Field(m, "items").Some? && Field(m, "items").value.ItemList? ==>
      var vs := Field(m, "items").value.items;
      match FirstWithId(vs, s.item.value.id)
      case Some(i) => Received(s, m).item == Some(FromView(vs[i]))
      case None => Received(s, m).item == s.item
    ensures !(Field(m, "items").Some? && Field(m, "items").value.ItemList?) ==> Received(s, m).item == s.item
  {
  }

  /** An ACK carrying a string id leaves the client with that id, whatever came before. */
  lemma AckSetsId(s: SellerState, ms: seq<Message>, id: string)
    requires |ms| > 0 && ms[|ms| - 1] == Message(Ack, map["clientId" := Str(id)], Some("server"))
    ensures ReceivedAll(s, ms).clientId == Some(id)
  {
  }
}
