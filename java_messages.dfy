/**
  The messages of the Java market: a type, a map of named values and
  the sender's id. On the wire they are Java-serialized objects; that
  encoding is not part of this model, so a message is its value. The
  timestamp each message carries is never read and is left out.
*/
module JavaMessages {
  import opened Wrappers
  import opened Errors

  datatype MessageType =
    | Register | Ack | SaleStart | SaleEnd | BuyRequest | BuyResponse
    | ListItems | StockUpdate | Error | Heartbeat | PurchaseNotification

  /** The name of a message type, as `toString` writes it. */
  function TypeName(t: MessageType): (name: string)
    ensures |name| > 0
  {
    match t
    case Register => "REGISTER"
    case Ack => "ACK"
    case SaleStart => "SALE_START"
    case SaleEnd => "SALE_END"
    case BuyRequest => "BUY_REQUEST"
    case BuyResponse => "BUY_RESPONSE"
    case ListItems => "LIST_ITEMS"
    case StockUpdate => "STOCK_UPDATE"
    case Error => "ERROR"
    case Heartbeat => "HEARTBEAT"
    case PurchaseNotification => "PURCHASE_NOTIFICATION"
  }

  /** Different types have different names. */
  lemma TypeNamesDistinct(t: MessageType, u: MessageType)
    ensures TypeName(t) == TypeName(u) <==> t == u
  {
  }

  /** The two roles a client registers as. */
  datatype ClientType = Buyer | Seller

  /** `ClientType.valueOf`: the constant with exactly that name. */
  function ClientTypeOf(name: string): (r: Result<ClientType, JavaError>)
    ensures r == Success(Buyer) <==> name == "BUYER"
    ensures r == Success(Seller) <==> name == "SELLER"
    ensures r.Failure? ==> r.error == IllegalArgumentException("No enum constant ClientType." + name)
  {
    if name == "BUYER" then Success(Buyer)
    else if name == "SELLER" then Success(Seller)
    else Failure(IllegalArgumentException("No enum constant ClientType." + name))
  }

  /** An item as a client receives it: the fields clients read. */
  datatype ItemView = ItemView(id: string, name: string, quantity: real, sellerId: string)

  /** The values a message's data map holds. */
  datatype Value =
    | Str(s: string)
    | Num(x: real)
    | Long(n: int)
    | Bool(b: bool)
    | ItemList(items: seq<ItemView>)

  datatype Message = Message(msgType: MessageType, data: map<string, Value>, senderId: Option<string>)

  /** `data.get(key)`: None stands for null. */
  function Field(m: Message, key: string): Option<Value>
  {
    if key in m.data then Some(m.data[key]) else None
  }

  /** `(String) v`: null stays null; anything but a string fails the cast. */
  function AsString(v: Option<Value>): (r: Result<Option<string>, JavaError>)
    ensures r.Success? <==> v.None? || v.value.Str?
    ensures r.Success? && v.Some? ==> r.value == Some(v.value.s)
    ensures v.None? ==> r == Success(None)
  {
    match v
    case None => Success(None)
    case Some(Str(s)) => Success(Some(s))
    case Some(_) => Failure(ClassCastException)
  }

  /** `(Boolean) v` used as a `boolean`: null fails to unbox. */
  function AsBool(v: Option<Value>): (r: Result<bool, JavaError>)
    ensures v.None? ==> r == Failure(NullPointerException)
    ensures r.Success? <==> v.Some? && v.value.Bool?
    ensures r.Success? ==> r.value == v.value.b
  {
    match v
    case None => Failure(NullPointerException)
    case Some(Bool(b)) => Success(b)
    case Some(_) => Failure(ClassCastException)
  }

  /** `(Double) v` used as a `double`: only a boxed double passes. */
  function AsDouble(v: Option<Value>): (r: Result<real, JavaError>)
    ensures v.None? ==> r == Failure(NullPointerException)
    ensures r.Success? <==> v.Some? && v.value.Num?
    ensures r.Success? ==> r.value == v.value.x
  {
    match v
    case None => Failure(NullPointerException)
    case Some(Num(x)) => Success(x)
    case Some(_) => Failure(ClassCastException)
  }

  /** `((Number) v).doubleValue()`: a double or a long. */
  function AsNumber(v: Option<Value>): (r: Result<real, JavaError>)
    ensures v.None? ==> r == Failure(NullPointerException)
    ensures r.Success? <==> v.Some? && (v.value.Num? || v.value.Long?)
    ensures r.Success? ==> r.value == if v.value.Num? then v.value.x else v.value.n as real
  {
    match v
    case None => Failure(NullPointerException)
    case Some(Num(x)) => Success(x)
    case Some(Long(n)) => Success(n as real)
    case Some(_) => Failure(ClassCastException)
  }
}
