/**
  The Python `BuyerClient`: three request builders, the message loop and
  the local list of items on sale that STOCK_UPDATE and LIST_ITEMS keep
  current.

  The items are the server-side `MarketItem` records of
  src/core/Server/market_item.py, built with `MarketItem(**item_data)`
  from whatever dict the server sent; the dataclass checks the key set
  but not the value types.
*/
module PyBuyerClient {
  import opened Wrappers
  import opened Errors
  import opened JsonText
  import opened MessageTypes
  import opened MessageEncoder
  import opened PyValues
  import opened PyClient

  datatype MarketItem = MarketItem(
    itemId: Json, name: Json, quantity: Json,
    sellerId: Json, saleStartTime: Json, maxSaleDuration: Json)

  /** The dataclass fields, the last one with its default. */
  const Fields: seq<string> := ["item_id", "name", "quantity", "seller_id", "sale_start_time", "max_sale_duration"]

  /** `60.0`, the default `max_sale_duration`. */
  const DefaultDuration := JNumber(Decimal(600, -1))

  /** Every key names a dataclass field, so `**` passes no unexpected keyword. */
  predicate KeysAreFields(members: seq<(string, Json)>)
  {
    forall i | 0 <= i < |members| :: members[i].0 in Fields
  }

  /** The dict holds the five fields that have no default. */
  predicate HasRequiredFields(members: seq<(string, Json)>)
  {
    && Lookup(members, "item_id").Some? && Lookup(members, "name").Some?
    && Lookup(members, "quantity").Some? && Lookup(members, "seller_id").Some?
    && Lookup(members, "sale_start_time").Some?
  }

  /**
    `x` holds the dict's values of the five required fields, and its
    `max_sale_duration` or the default when the dict has none.
  */
  predicate Carries(x: MarketItem, members: seq<(string, Json)>)
  {
    && Some(x.itemId) == Lookup(members, "item_id")
    && Some(x.name) == Lookup(members, "name")
    && Some(x.quantity) == Lookup(members, "quantity")
    && Some(x.sellerId) == Lookup(members, "seller_id")
    && Some(x.saleStartTime) == Lookup(members, "sale_start_time")
    && x.maxSaleDuration == (match Lookup(members, "max_sale_duration") case Some(d) => d case None => DefaultDuration)
  }

  /**
    `MarketItem(**v)`: TypeError unless `v` is a dict whose every key is a
    field and which holds the five fields without a default.
  */
  function MakeItem(v: Json): (r: Result<MarketItem, PyError>)
    ensures r.Success? <==> v.JObject? && KeysAreFields(v.members) && HasRequiredFields(v.members)
    ensures r.Failure? ==> r.error == TypeError
    ensures r.Success? ==> Carries(r.value, v.members)
  {
    if v.JObject? && KeysAreFields(v.members) && HasRequiredFields(v.members) then Success(ItemOf(v.members))
    else Failure(TypeError)
  }

  /** The item the dataclass builds from a dict that holds its required fields. */
  function ItemOf(members: seq<(string, Json)>): (x: MarketItem)
    requires HasRequiredFields(members)
    ensures Carries(x, members)
  {
    var d := match Lookup(members, "max_sale_duration") case Some(x) => x case None => DefaultDuration;
    MarketItem(Lookup(members, "item_id").value, Lookup(members, "name").value, Lookup(members, "quantity").value,
               Lookup(members, "seller_id").value, Lookup(members, "sale_start_time").value, d)
  }

  /** The values of `rs` in order, or the error of the first failure among them. */
  function FirstFailure<T>(rs: seq<Result<T, PyError>>): (r: Result<seq<T>, PyError>)
    ensures r.Success? ==> |r.value| == |rs| && forall i | 0 <= i < |rs| :: rs[i] == Success(r.value[i])
    ensures r.Failure? <==> exists i | 0 <= i < |rs| :: rs[i].Failure?
    ensures r.Failure? ==>
              exists i | 0 <= i < |rs| :: rs[i] == Failure(r.error) && forall j | 0 <= j < i :: rs[j].Success?
  {
    if |rs| == 0 then Success([])
    else match rs[0]
      case Failure(e) => Failure(e)
      case Success(x) =>
        match FirstFailure(rs[1..])
        case Failure(e) =>
          assert forall i | 0 <= i < |rs| - 1 :: rs[1..][i] == rs[i + 1];
          assert exists i | 0 <= i < |rs| :: rs[i] == Failure(e) && forall j | 0 <= j < i :: rs[j].Success? by {
            var k :| 0 <= k < |rs| - 1 && rs[1..][k] == Failure(e) && forall j | 0 <= j < k :: rs[1..][j].Success?;
            assert rs[k + 1] == Failure(e) && forall j | 0 <= j < k + 1 :: rs[j].Success?;
          }
          Failure(e)
        case Success(xs) =>
          assert forall i | 1 <= i < |rs| :: rs[i] == rs[1..][i - 1];
          Success([x] + xs)
  }

  /**
    `[MarketItem(**d) for d in ds]`: one item per dict, in order, unless a
    dict fails, and then the first failure stops the comprehension.
  */
  function MakeItems(ds: seq<Json>): (r: Result<seq<MarketItem>, PyError>)
    ensures r.Success? ==> |r.value| == |ds|
    ensures r.Success? ==> forall i | 0 <= i < |ds| :: MakeItem(ds[i]) == Success(r.value[i])
    ensures r.Failure? <==> exists i | 0 <= i < |ds| :: MakeItem(ds[i]).Failure?
  {
    var rs := seq(|ds|, i requires 0 <= i < |ds| => MakeItem(ds[i]));
    assert forall i | 0 <= i < |ds| :: rs[i] == MakeItem(ds[i]);
    FirstFailure(rs)
  }

  /** The items whose id is not `id`, in their order. */
  function WithoutId(items: seq<MarketItem>, id: Json): (r: seq<MarketItem>)
    ensures |r| <= |items|
    ensures forall x | x in r :: x in items && !PyEq(x.itemId, id)
    ensures forall x | x in items && !PyEq(x.itemId, id) :: x in r
  {
    if |items| == 0 then []
    else if !PyEq(items[0].itemId, id) then [items[0]] + WithoutId(items[1..], id)
    else WithoutId(items[1..], id)
  }

  /**
    `_handle_stock_update(data)`: the list after the update, and the
    exception if one was raised. A malformed item changes nothing; a
    quantity that cannot be compared with 0 is found only after the old
    entries have been dropped.
  */
  function ApplyStockUpdate(items: seq<MarketItem>, data: Json): (r: (seq<MarketItem>, Option<PyError>))
  {
    match MakeItem(data)
    case Failure(e) => (items, Some(e))
    case Success(u) =>
      var kept := WithoutId(items, u.itemId);
      match GreaterThan(u.quantity, Zero)
      case Failure(e) => (kept, Some(e))
      case Success(positive) => (if positive then kept + [u] else kept, None)
  }

  /** The buyer's state between messages: `node_id` and `available_items`. */
  datatype State = State(nodeId: Json, items: seq<MarketItem>)

  /**
    The effect of one message in `handle_messages`: the new state, and the
    exception if one was raised (which ends the loop).
  */
  function OnMessage(s: State, m: Message): (r: (State, Option<PyError>))
    ensures m.msgType !in {Ack, ListItems, StockUpdate, Error} ==> r == (s, None)
    ensures m.msgType != StockUpdate && r.1.Some? ==> r.0 == s
  {
    match m.msgType
    case Ack =>
      (match Index(m.data, "node_id")
       case Failure(e) => (s, Some(e))
       case Success(id) => (s.(nodeId := id), None))
    case ListItems =>
      (match Index(m.data, "items")
       case Failure(e) => (s, Some(e))
       case Success(v) =>
         match Iterate(v)
         case Failure(e) => (s, Some(e))
         case Success(ds) =>
           match MakeItems(ds)
           case Failure(e) => (s, Some(e))
           case Success(xs) => (s.(items := xs), None))
    case StockUpdate =>
      var (xs, e) := ApplyStockUpdate(s.items, m.data);
      (s.(items := xs), e)
    case Error =>
      (match Index(m.data, "error")
       case Failure(e) => (s, Some(e))
       case Success(_) => (s, None))
    case _ => (s, None)
  }

  /**
    One pass of the loop over the unread bytes `inbound`: the new state,
    whether the loop goes on, and the bytes left unread. A read that fails
    or a message that raises ends the loop.
  */
  function Step(s: State, inbound: seq<byte>): (r: (State, bool, seq<byte>))
    ensures r.1 ==> |r.2| < |inbound|
  {
    match Receive(inbound)
    case (Failure(_), rest) => (s, false, rest)
    case (Success(m), rest) =>
      var (t, e) := OnMessage(s, m);
      (t, e.None?, rest)
  }

  /**
    The state at the end of a session that reads the messages in
    `inbound` one by one until the loop stops.
  */
  function Session(s: State, inbound: seq<byte>): State
    decreases |inbound|
  {
    var (t, go, rest) := Step(s, inbound);
    if go then Session(t, rest) else t
  }

  function RegisterMessage(): Message
  {
    Message(Register, JObject([("client_type", JString("buyer"))]), JString("unregistered"))
  }

  function ListItemsMessage(nodeId: Json): Message
  {
    Message(ListItems, JObject([]), nodeId)
  }

  function BuyMessage(nodeId: Json, itemId: Json, quantity: Json): Message
  {
    Message(BuyRequest, JObject([("item_id", itemId), ("quantity", quantity)]), nodeId)
  }

  class BuyerClient {
    const conn: Client
    var availableItems: seq<MarketItem>

    constructor()
      ensures fresh(conn) && !conn.Open() && conn.outbox == [] && conn.nodeId == JNull
      ensures !conn.isRunning && availableItems == []
    {
      conn := new Client();
      availableItems := [];
    }

    /** `register`: REGISTER as a buyer, from "unregistered". */
    method Register() returns (r: Result<(), PyError>)
      modifies conn
      ensures r.Success? ==> Sent(old(conn.outbox), conn.outbox, RegisterMessage())
      ensures r.Failure? ==> conn.outbox == old(conn.outbox)
      ensures conn.inbound == old(conn.inbound) && conn.nodeId == old(conn.nodeId)
    {
      r := conn.SendMessage(RegisterMessage());
    }

    /** `list_items`: LIST_ITEMS with empty data, from `node_id`. */
    method ListItems() returns (r: Result<(), PyError>)
      modifies conn
      ensures r.Success? ==> Sent(old(conn.outbox), conn.outbox, ListItemsMessage(old(conn.nodeId)))
      ensures r.Failure? ==> conn.outbox == old(conn.outbox)
      ensures conn.inbound == old(conn.inbound) && conn.nodeId == old(conn.nodeId)
    {
      r := conn.SendMessage(ListItemsMessage(conn.nodeId));
    }

    /** `buy_item`: BUY_REQUEST with the item id and quantity, from `node_id`. */
    method BuyItem(itemId: string, quantity: Decimal) returns (r: Result<(), PyError>)
      modifies conn
      ensures r.Success? ==> Sent(old(conn.outbox), conn.outbox, BuyMessage(old(conn.nodeId), JString(itemId), JNumber(quantity)))
      ensures r.Failure? ==> conn.outbox == old(conn.outbox)
      ensures conn.inbound == old(conn.inbound) && conn.nodeId == old(conn.nodeId)
    {
      r := conn.SendMessage(BuyMessage(conn.nodeId, JString(itemId), JNumber(quantity)));
    }

    /** `_handle_stock_update`. */
    method HandleStockUpdate(data: Json) returns (e: Option<PyError>)
      modifies this
      ensures (availableItems, e) == ApplyStockUpdate(old(availableItems), data)
    {
      var r := ApplyStockUpdate(availableItems, data);
      availableItems := r.0;
      e := r.1;
    }

    /**
      `handle_messages` as written: it calls `self.receive_message()`, but
      `receive_message` is a module-level function, not a method, so the
      first iteration raises AttributeError, which the loop catches by
      clearing `is_running`. No message is ever read.
    */
    method HandleMessagesAsWritten()
      modifies conn
      ensures !conn.isRunning
      ensures conn.inbound == old(conn.inbound) && conn.outbox == old(conn.outbox)
      ensures conn.nodeId == old(conn.nodeId) && conn.connected == old(conn.connected) && conn.closed == old(conn.closed)
    {
      while conn.isRunning
        invariant conn.inbound == old(conn.inbound) && conn.outbox == old(conn.outbox)
        invariant conn.nodeId == old(conn.nodeId) && conn.connected == old(conn.connected) && conn.closed == old(conn.closed)
        decreases conn.isRunning
      {
        var failed: Result<Message, PyError> := Failure(AttributeError("receive_message"));
        if failed.Failure? {
          conn.isRunning := false;
        }
      }
    }

    /** The body of the loop after a successful read: `m` is handled. */
    method Handle(m: Message) returns (e: Option<PyError>)
      modifies this, conn
      ensures (State(conn.nodeId, availableItems), e) == OnMessage(State(old(conn.nodeId), old(availableItems)), m)
      ensures conn.connected == old(conn.connected) && conn.closed == old(conn.closed) && conn.outbox == old(conn.outbox)
      ensures conn.inbound == old(conn.inbound) && conn.isRunning == old(conn.isRunning)
    {
      var (t, raised) := OnMessage(State(conn.nodeId, availableItems), m);
      conn.nodeId := t.nodeId;
      availableItems := t.items;
      e := raised;
    }

    /**
      `handle_messages` as intended, reading with `receive_message(self)`:
      messages are handled one by one until a read fails or a message
      raises, which clears `is_running`. On a closed socket the first read
      fails, so nothing is handled.
    */
    method HandleMessages()
      requires conn.connected
      modifies this, conn
      ensures !conn.isRunning && conn.outbox == old(conn.outbox) && conn.closed == old(conn.closed)
      ensures old(conn.isRunning) && !old(conn.closed) ==>
        State(conn.nodeId, availableItems) == Session(State(old(conn.nodeId), old(availableItems)), old(conn.inbound))
      ensures !old(conn.isRunning) || old(conn.closed) ==>
        conn.nodeId == old(conn.nodeId) && availableItems == old(availableItems)
    {
      if !conn.isRunning {
        return;
      }
      ghost var goal := Session(State(conn.nodeId, availableItems), conn.inbound);
      while conn.isRunning
        invariant conn.connected && conn.outbox == old(conn.outbox) && conn.closed == old(conn.closed)
        invariant conn.closed ==> conn.nodeId == old(conn.nodeId) && availableItems == old(availableItems)
        invariant !conn.closed && conn.isRunning ==> Session(State(conn.nodeId, availableItems), conn.inbound) == goal
        invariant !conn.closed && !conn.isRunning ==> State(conn.nodeId, availableItems) == goal
        decreases |conn.inbound|, conn.isRunning
      {
        ghost var s := State(conn.nodeId, availableItems);
        ghost var before := conn.inbound;
        var m := ReceiveMessage(conn);
        if m.Failure? {
          conn.isRunning := false;
        } else {
          var e := Handle(m.value);
          if e.Some? {
            conn.isRunning := false;
          }
        }
        assert !conn.closed ==> Step(s, before) == (State(conn.nodeId, availableItems), conn.isRunning, conn.inbound);
      }
    }
  }

  // ---------------------------------------------------------------------
  // Properties of the stock update

  /** Dropping an id leaves no item with that id. */
  lemma {:induction false} WithoutIdDrops(items: seq<MarketItem>, id: Json)
    ensures forall i | 0 <= i < |WithoutId(items, id)| :: !PyEq(WithoutId(items, id)[i].itemId, id)
  {
  }

  /**
    After an update that raised nothing, the updated id occurs at most
    once, and it occurs exactly when the new quantity is above zero, at
    the end of the list.
  */
  lemma {:induction false} StockUpdatePlacement(items: seq<MarketItem>, data: Json)
    requires ApplyStockUpdate(items, data).1.None?
    ensures var u := MakeItem(data).value;
      var r := ApplyStockUpdate(items, data).0;
      var kept := WithoutId(items, u.itemId);
      && (Value(AsNumber(u.quantity).value) > 0.0 ==> r == kept + [u])
      && (Value(AsNumber(u.quantity).value) <= 0.0 ==> r == kept)
      && (forall x | x in r && PyEq(x.itemId, u.itemId) :: x == u && Value(AsNumber(u.quantity).value) > 0.0)
  {
    var u := MakeItem(data).value;
    WithoutIdDrops(items, u.itemId);
  }

  /**
    Dropping an id works element by element, so the items with other ids
    stay in their original order.
  */
  lemma {:induction false} WithoutIdConcat(a: seq<MarketItem>, b: seq<MarketItem>, id: Json)
    ensures WithoutId(a + b, id) == WithoutId(a, id) + WithoutId(b, id)
    decreases |a|
  {
    if |a| > 0 {
      assert (a + b)[1..] == a[1..] + b;
      WithoutIdConcat(a[1..], b, id);
    } else {
      assert a + b == b;
    }
  }

  /** A list with no item of that id is left as it is. */
  lemma {:induction false} WithoutIdAbsent(items: seq<MarketItem>, id: Json)
    requires forall i | 0 <= i < |items| :: !PyEq(items[i].itemId, id)
    ensures WithoutId(items, id) == items
    decreases |items|
  {
    if |items| > 0 {
      WithoutIdAbsent(items[1..], id);
    }
  }

  /**
    Ids are compared with Python's `!=`: an update with id `5.0` drops the
    item listed with id `5`.
  */
  lemma {:induction false} NumericIdsMatch(it: MarketItem)
    requires it.itemId == JNumber(Int(5))
    ensures WithoutId([it], JNumber(Decimal(50, -1))) == []
  {
    NumericEquality();
  }

  /** A malformed item leaves the list as it was. */
  lemma {:induction false} MalformedUpdateIgnored(items: seq<MarketItem>, data: Json)
    requires MakeItem(data).Failure?
    ensures ApplyStockUpdate(items, data).0 == items
  {
  }
}
