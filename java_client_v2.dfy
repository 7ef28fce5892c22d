/**
  The second Java seller client. It has no receiver thread: every request
  reads its answer from the stream itself. `MarketClient` is the
  connection; `SellerClient` adds one sale at a time, which it tracks
  with the flag `activeSale` and the record `currentItem`.

  The socket becomes two sequences: `inbox`, the messages the server has
  written that the client has not yet read, and `outbox`, the messages the
  client has written. A read from an empty inbox is the end of the stream.
*/
module JavaClientV2 {
  import opened Wrappers
  import opened Errors
  import opened JavaMessages
  import JavaItemV2

  function RegisterMessage(): Message
  {
    Message(Register, map["clientType" := Str("SELLER")], None)
  }

  function SaleStartRequest(name: string, quantity: real, sender: Option<string>): Message
  {
    Message(SaleStart, map["name" := Str(name), "quantity" := Num(quantity)], sender)
  }

  /** A SALE_END carries no data: it does not name the sale it ends. */
  function SaleEndRequest(sender: Option<string>): Message
  {
    Message(SaleEnd, map[], sender)
  }

  /**
    The seller's record of its sale: what `new Item(...)` is given, with
    the time the record was made. The id read from the reply may be null.
  */
  datatype SaleRecord = SaleRecord(
    id: Option<string>, name: string, quantity: real, sellerId: Option<string>,
    startMillis: int, durationMillis: int)

  /**
    The id a reply to REGISTER assigns: an ACK's `clientId`, null
    included; any other reply fails the registration.
  */
  function RegisteredId(reply: Message): (r: Result<Option<string>, JavaError>)
    ensures reply.msgType != Ack ==> r == Failure(IOException("Registration failed"))
    ensures r.Success? <==> reply.msgType == Ack && ("clientId" !in reply.data || reply.data["clientId"].Str?)
    ensures r.Success? && "clientId" in reply.data ==> r.value == Some(reply.data["clientId"].s)
    ensures r.Success? && "clientId" !in reply.data ==> r.value.None?
  {
    if reply.msgType == Ack then AsString(Field(reply, "clientId"))
    else Failure(IOException("Registration failed"))
  }

  /**
    The answer to a SALE_START sent for `quantity` of `name`: whether the
    sale started and, if it did, the record made at `nowMillis` for a sale
    of `durationSeconds`. A reply of another type means no sale; a
    missing or mistyped field, or a duration that is not positive, throws.
  */
  function StartAnswer(reply: Message, name: string, quantity: real, clientId: Option<string>,
                       durationSeconds: int, nowMillis: int): (r: Result<(bool, Option<SaleRecord>), JavaError>)
    ensures reply.msgType != SaleStart ==> r == Success((false, None))
    ensures reply.msgType == SaleStart && AsBool(Field(reply, "success")).Failure? ==>
      r == Failure(AsBool(Field(reply, "success")).error)
    ensures r.Success? && reply.msgType == SaleStart ==> AsBool(Field(reply, "success")) == Success(r.value.0)
    ensures r.Success? ==> (r.value.1.Some? <==> r.value.0)
    ensures r.Success? && r.value.1.Some? ==>
      && durationSeconds > 0 && AsString(Field(reply, "itemId")).Success?
      && r.value.1.value == SaleRecord(AsString(Field(reply, "itemId")).value, name, quantity, clientId,
                                       nowMillis, durationSeconds * 1000)
    ensures (&& reply.msgType == SaleStart && AsBool(Field(reply, "success")) == Success(true)
             && AsString(Field(reply, "itemId")).Success? && durationSeconds <= 0) ==>
      r == Failure(IllegalArgumentException(JavaItemV2.NonPositiveDurationMessage))
  {
    if reply.msgType != SaleStart then Success((false, None))
    else match AsBool(Field(reply, "success"))
      case Failure(e) => Failure(e)
      case Success(false) => Success((false, None))
      case Success(true) =>
        match AsString(Field(reply, "itemId"))
        case Failure(e) => Failure(e)
        case Success(id) =>
          if durationSeconds <= 0 then Failure(IllegalArgumentException(JavaItemV2.NonPositiveDurationMessage))
          else Success((true, Some(SaleRecord(id, name, quantity, clientId, nowMillis, durationSeconds * 1000))))
  }

  class MarketClient {
    /** The server's port. */
    const port: int
    var clientId: Option<string>
    var connected: bool
    /** Whether `connect` has opened the streams. */
    var streamsOpen: bool
    var socketClosed: bool
    /** What the server has written and the client has not read yet. */
    var inbox: seq<Message>
    /** What the client has written. */
    var outbox: seq<Message>

    constructor (port: int)
      ensures this.port == port && clientId.None? && !connected && !streamsOpen && !socketClosed
      ensures inbox == [] && outbox == []
    {
      this.port := port;
      clientId := None;
      connected := false;
      streamsOpen := false;
      socketClosed := false;
      inbox := [];
      outbox := [];
    }

    /** What writing throws: NullPointerException before `connect`, IOException once closed. */
    function SendFailure(): (r: Option<JavaError>)
      reads this
      ensures r.None? <==> streamsOpen && !socketClosed
    {
      if !streamsOpen then Some(NullPointerException)
      else if socketClosed then Some(IOException("Socket closed"))
      else None
    }

    /** What reading throws: as writing does, and at the end of the stream. */
    function ReadFailure(): (r: Option<JavaError>)
      reads this
      ensures r.None? <==> streamsOpen && !socketClosed && inbox != []
      ensures SendFailure().Some? ==> r == SendFailure()
    {
      if SendFailure().Some? then SendFailure()
      else if inbox == [] then Some(EOFException)
      else None
    }

    /** `sendMessage`. */
    method SendMessage(m: Message) returns (r: Result<(), JavaError>)
      modifies `outbox
      ensures SendFailure().Some? ==> r == Failure(SendFailure().value) && outbox == old(outbox)
      ensures SendFailure().None? ==> r == Success(()) && outbox == old(outbox) + [m]
    {
      var failure := SendFailure();
      if failure.Some? {
        return Failure(failure.value);
      }
      outbox := outbox + [m];
      r := Success(());
    }

    /** `readMessage`: the oldest unread message. */
    method ReadMessage() returns (r: Result<Message, JavaError>)
      modifies `inbox
      ensures old(ReadFailure()).Some? ==> r == Failure(old(ReadFailure()).value) && inbox == old(inbox)
      ensures old(ReadFailure()).None? ==> r == Success(old(inbox)[0]) && inbox == old(inbox)[1..]
    {
      var failure := ReadFailure();
      if failure.Some? {
        return Failure(failure.value);
      }
      r := Success(inbox[0]);
      inbox := inbox[1..];
    }

    /** `close`: no longer connected, and the socket closed if it was opened. */
    method Close()
      modifies `connected, `socketClosed
      ensures !connected
      ensures socketClosed == (old(socketClosed) || streamsOpen)
    {
      connected := false;
      if streamsOpen {
        socketClosed := true;
      }
    }
  }

  class SellerClient {
    const base: MarketClient
    var currentItem: Option<SaleRecord>
    var activeSale: bool

    /** A sale is on exactly when there is a record of it. */
    predicate Valid()
      reads this
    {
      activeSale <==> currentItem.Some?
    }

    constructor (port: int)
      ensures Valid() && fresh(base) && !activeSale
      ensures base.port == port && base.clientId.None? && !base.connected && !base.streamsOpen && !base.socketClosed
      ensures base.inbox == [] && base.outbox == []
    {
      base := new MarketClient(port);
      currentItem := None;
      activeSale := false;
    }

    /** `hasActiveSale`. */
    predicate HasActiveSale()
      reads this
    {
      activeSale
    }

    /** `register`: announce a seller and read the id the server assigns. */
    method Register() returns (r: Result<(), JavaError>)
      modifies base`outbox, base`inbox, base`clientId
      ensures base.SendFailure().Some? ==>
        r == Failure(base.SendFailure().value) && unchanged(base)
      ensures base.SendFailure().None? ==>
        && base.outbox == old(base.outbox) + [RegisterMessage()]
        && (old(base.inbox) == [] ==>
              r == Failure(EOFException) && base.inbox == [] && base.clientId == old(base.clientId))
        && (old(base.inbox) != [] ==>
              && base.inbox == old(base.inbox)[1..]
              && var id := RegisteredId(old(base.inbox)[0]);
                 && (id.Failure? ==> r == Failure(id.error) && base.clientId == old(base.clientId))
                 && (id.Success? ==> r == Success(()) && base.clientId == id.value))
    {
      r := base.SendMessage(RegisterMessage());
      if r.Failure? {
        return;
      }
      var response := base.ReadMessage();
      if response.Failure? {
        return Failure(response.error);
      }
      var id := RegisteredId(response.value);
      if id.Failure? {
        return Failure(id.error);
      }
      base.clientId := id.value;
    }

    /** `connect`: open the streams and register. */
    method Connect() returns (r: Result<(), JavaError>)
      modifies base`connected, base`streamsOpen, base`socketClosed, base`outbox, base`inbox, base`clientId
      ensures base.connected && base.streamsOpen && !base.socketClosed
      ensures base.outbox == old(base.outbox) + [RegisterMessage()]
      ensures old(base.inbox) == [] ==> r == Failure(EOFException) && base.clientId == old(base.clientId)
      ensures old(base.inbox) != [] ==>
        && base.inbox == old(base.inbox)[1..]
        && var id := RegisteredId(old(base.inbox)[0]);
           && (id.Failure? ==> r == Failure(id.error) && base.clientId == old(base.clientId))
           && (id.Success? ==> r == Success(()) && base.clientId == id.value)
    {
      base.connected := true;
      base.streamsOpen := true;
      base.socketClosed := false;
      r := Register();
    }

    /**
      `startSale` at `nowMillis`: with no sale on, send a SALE_START and
      read the answer. A reported success records the sale, with the
      seller's own name and quantity and the port number as its duration
      in seconds.
    */
    method StartSale(name: string, quantity: real, nowMillis: int) returns (r: Result<bool, JavaError>)
      requires Valid()
      modifies this, base`outbox, base`inbox
      ensures Valid()
      ensures old(activeSale) ==>
        r == Success(false) && unchanged(this) && unchanged(base)
      ensures !old(activeSale) && base.SendFailure().Some? ==>
        r == Failure(base.SendFailure().value) && unchanged(this) && unchanged(base)
      ensures !old(activeSale) && base.SendFailure().None? ==>
        && base.outbox == old(base.outbox) + [SaleStartRequest(name, quantity, base.clientId)]
        && (old(base.inbox) == [] ==> r == Failure(EOFException) && unchanged(this) && base.inbox == [])
        && (old(base.inbox) != [] ==>
              && base.inbox == old(base.inbox)[1..]
              && var answer := StartAnswer(old(base.inbox)[0], name, quantity, base.clientId, base.port, nowMillis);
                 && (answer.Failure? ==> r == Failure(answer.error) && unchanged(this))
                 && (answer.Success? ==> r == Success(answer.value.0))
                 && (answer.Success? && answer.value.0 ==> activeSale && currentItem == answer.value.1)
                 && (answer.Success? && !answer.value.0 ==> unchanged(this)))
    {
      if activeSale {
        return Success(false);
      }
      var sent := base.SendMessage(SaleStartRequest(name, quantity, base.clientId));
      if sent.Failure? {
        return Failure(sent.error);
      }
      var response := base.ReadMessage();
      if response.Failure? {
        return Failure(response.error);
      }
      var answer := StartAnswer(response.value, name, quantity, base.clientId, base.port, nowMillis);
      if answer.Failure? {
        return Failure(answer.error);
      }
      if answer.value.0 {
        currentItem := answer.value.1;
        activeSale := true;
      }
      r := Success(answer.value.0);
    }

    /**
      `endSale`: with a sale on, send a SALE_END and forget the sale
      without waiting for an answer. A failure to write leaves the sale on.
    */
    method EndSale() returns (r: Result<bool, JavaError>)
      requires Valid()
      modifies this, base`outbox
      ensures Valid()
      ensures !old(activeSale) ==> r == Success(false) && unchanged(this) && unchanged(base)
      ensures old(activeSale) && base.SendFailure().Some? ==>
        r == Failure(base.SendFailure().value) && unchanged(this) && unchanged(base)
      ensures old(activeSale) && base.SendFailure().None? ==>
        && r == Success(true) && !activeSale && currentItem.None?
        && base.outbox == old(base.outbox) + [SaleEndRequest(base.clientId)]
    {
      if !activeSale {
        return Success(false);
      }
      var sent := base.SendMessage(SaleEndRequest(base.clientId));
      if sent.Failure? {
        return Failure(sent.error);
      }
      activeSale := false;
      currentItem := None;
      r := Success(true);
    }
  }

  /**
    A record made from a successful answer always carries the seller's own
    name and quantity, whatever the reply says, and a duration of
    `durationSeconds`, which `startSale` sets to the port number.
  */
  lemma RecordIsTheRequest(reply: Message, name: string, quantity: real, clientId: Option<string>,
                           port: int, nowMillis: int)
    requires StartAnswer(reply, name, quantity, clientId, port, nowMillis).Success?
    requires StartAnswer(reply, name, quantity, clientId, port, nowMillis).value.0
    ensures var record := StartAnswer(reply, name, quantity, clientId, port, nowMillis).value.1.value;
      && record.name == name && record.quantity == quantity && record.sellerId == clientId
      && record.durationMillis == port * 1000 && port > 0
      && reply.msgType == SaleStart && Field(reply, "success") == Some(Bool(true))
  {
  }
}
