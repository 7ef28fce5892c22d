/**
  The ten kinds of message of the Python protocol and their wire strings
  (the values of the `MessageType` enum).
*/
module MessageTypes {
  import opened Wrappers
  import opened Errors

  datatype MessageType =
    | ListItems | ItemUpdate | BuyRequest | BuyResponse | StockUpdate
    | SaleStart | SaleEnd | Error | Ack | Register

  /** Every member once, in declaration order. */
  const AllMessageTypes: seq<MessageType> :=
    [ListItems, ItemUpdate, BuyRequest, BuyResponse, StockUpdate, SaleStart, SaleEnd, Error, Ack, Register]

  /** The wire string of a member (`t.value`). */
  function Wire(t: MessageType): string
  {
    match t
    case ListItems => "list_items"
    case ItemUpdate => "item_update"
    case BuyRequest => "buy_request"
    case BuyResponse => "buy_response"
    case StockUpdate => "stock_update"
    case SaleStart => "sale_start"
    case SaleEnd => "sale_end"
    case Error => "error"
    case Ack => "acknowledgment"
    case Register => "register"
  }

  /**
    The enum lookup `MessageType(v)`: the member whose wire string is `v`,
    or ValueError.
  */
  function FromWire(v: string): (r: Result<MessageType, PyError>)
    ensures r.Success? ==> Wire(r.value) == v
    ensures r.Failure? ==> r.error == ValueError("'" + v + "' is not a valid MessageType")
  {
    if v == "list_items" then Success(ListItems)
    else if v == "item_update" then Success(ItemUpdate)
    else if v == "buy_request" then Success(BuyRequest)
    else if v == "buy_response" then Success(BuyResponse)
    else if v == "stock_update" then Success(StockUpdate)
    else if v == "sale_start" then Success(SaleStart)
    else if v == "sale_end" then Success(SaleEnd)
    else if v == "error" then Success(Error)
    else if v == "acknowledgment" then Success(Ack)
    else if v == "register" then Success(Register)
    else Failure(ValueError("'" + v + "' is not a valid MessageType"))
  }

  /** Every member is listed, once. */
  lemma AllMessageTypesComplete()
    ensures |AllMessageTypes| == 10
    ensures forall t :: t in AllMessageTypes
    ensures forall i, j :: 0 <= i < j < |AllMessageTypes| ==> AllMessageTypes[i] != AllMessageTypes[j]
  {
    forall t ensures t in AllMessageTypes {
      match t
      case ListItems => assert AllMessageTypes[0] == t;
      case ItemUpdate => assert AllMessageTypes[1] == t;
      case BuyRequest => assert AllMessageTypes[2] == t;
      case BuyResponse => assert AllMessageTypes[3] == t;
      case StockUpdate => assert AllMessageTypes[4] == t;
      case SaleStart => assert AllMessageTypes[5] == t;
      case SaleEnd => assert AllMessageTypes[6] == t;
      case Error => assert AllMessageTypes[7] == t;
      case Ack => assert AllMessageTypes[8] == t;
      case Register => assert AllMessageTypes[9] == t;
    }
  }

  /** Looking a member up by its wire string gives that member back. */
  lemma FromWireRoundTrip(t: MessageType)
    ensures FromWire(Wire(t)) == Success(t)
  {
  }

  /** The ten wire strings are pairwise distinct. */
  lemma WireInjective(a: MessageType, b: MessageType)
    ensures Wire(a) == Wire(b) ==> a == b
  {
    FromWireRoundTrip(a);
    FromWireRoundTrip(b);
  }

  /** Exactly the ten wire strings are accepted. */
  lemma FromWireAcceptsExactlyWires(v: string)
    ensures FromWire(v).Success? <==> exists t :: Wire(t) == v
  {
    if FromWire(v).Success? {
      assert Wire(FromWire(v).value) == v;
    } else if exists t :: Wire(t) == v {
      var t :| Wire(t) == v;
      FromWireRoundTrip(t);
    }
  }
}
