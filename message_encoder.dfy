/**
  The Python wire message and `MessageEncoder`: a message travels as the
  UTF-8 bytes of the JSON object {"type": ..., "data": ..., "sender_id": ...},
  with the type written as its wire string.

  `data` and `sender_id` are kept as JSON values: the Python dataclass
  annotates them (a dict, a str) but nothing checks the annotation, so
  `deserialize` hands back whatever value the key holds.
*/
module MessageEncoder {
  import opened Wrappers
  import opened Errors
  import opened MessageTypes
  import opened JsonText
  import Utf8

  datatype Message = Message(msgType: MessageType, data: Json, senderId: Json)

  /** The dict `serialize` builds, keys in the order it writes them. */
  function ToJson(m: Message): (j: Json)
    ensures j.JObject? && |j.members| == 3
  {
    JObject([("type", JString(Wire(m.msgType))), ("data", m.data), ("sender_id", m.senderId)])
  }

  /** `MessageEncoder.serialize`: `json.dumps(msg_dict).encode('utf-8')`. */
  function Serialize(m: Message): seq<Utf8.byte>
  {
    Utf8.Encode(Dump(ToJson(m)))
  }

  const Prefix := "Failed to deserialize message: "

  /** The exception `deserialize` raises, wrapping the one it caught. */
  function Wrapped(reason: string): PyError
  {
    ValueError(Prefix + reason)
  }

  /** `str(KeyError(key))`: the key in quotes. */
  function MissingKey(key: string): string
  {
    "'" + key + "'"
  }

  /** `MessageType(v)` on a decoded JSON value: only a wire string is accepted. */
  function TypeOf(v: Json): (r: Result<MessageType, PyError>)
    ensures r.Success? <==> v.JString? && exists t :: Wire(t) == v.s
    ensures r.Success? ==> v == JString(Wire(r.value))
  {
    match v
    case JString(s) =>
      FromWireAcceptsExactlyWires(s);
      FromWire(s)
    case _ => Failure(ValueError("not a valid MessageType"))
  }

  /**
    The three reads of `deserialize` on a decoded value, in the order the
    keyword arguments are evaluated: the type (looked up and converted),
    then the data, then the sender. Indexing anything but a dict is a
    TypeError.
  */
  function FromJson(v: Json): (r: Result<Message, PyError>)
  {
    if !v.JObject? then Failure(TypeError)
    else match Lookup(v.members, "type")
      case None => Failure(KeyError("type"))
      case Some(tv) =>
        match TypeOf(tv)
        case Failure(e) => Failure(e)
        case Success(t) =>
          match Lookup(v.members, "data")
          case None => Failure(KeyError("data"))
          case Some(d) =>
            match Lookup(v.members, "sender_id")
            case None => Failure(KeyError("sender_id"))
            case Some(s) => Success(Message(t, d, s))
  }

  /**
    `bs` is UTF-8 for one JSON object whose last "type", "data" and
    "sender_id" entries are `m`'s wire type, data and sender.
  */
  ghost predicate Carries(bs: seq<Utf8.byte>, m: Message)
  {
    Utf8.Decode(bs).Success?
    && Parse(Utf8.Decode(bs).value).Success?
    && var v := Parse(Utf8.Decode(bs).value).value;
    v.JObject?
    && Lookup(v.members, "type") == Some(JString(Wire(m.msgType)))
    && Lookup(v.members, "data") == Some(m.data)
    && Lookup(v.members, "sender_id") == Some(m.senderId)
  }

  /**
    The text of a caught exception, as the f-string shows it. A TypeError
    is given the text CPython uses when the top-level value is a string;
    for a list, a number or null its text differs.
  */
  function Reason(e: PyError): string
  {
    match e
    case KeyError(k) => MissingKey(k)
    case ValueError(m) => m
    case TypeError => "string indices must be integers"
    case _ => ""
  }

  /**
    `MessageEncoder.deserialize`: every failure on the way — bytes that are
    not UTF-8, text that is not one JSON value, a value that is not an
    object, a missing key, an unknown type — is re-raised as one ValueError.
  */
  function Deserialize(bs: seq<Utf8.byte>): (r: Result<Message, PyError>)
    ensures r.Failure? ==> r.error.ValueError? && Prefix <= r.error.msg
  {
    match Utf8.Decode(bs)
    case Failure(e) => Failure(Wrapped(e))
    case Success(text) =>
      match Parse(text)
      case Failure(e) => Failure(Wrapped(e))
      case Success(v) =>
        match FromJson(v)
        case Failure(e) => Failure(Wrapped(Reason(e)))
        case Success(m) => Success(m)
  }

  // ---------------------------------------------------------------------
  // Properties

  /** Reading a message back from its own dict gives the message. */
  lemma {:induction false} FromJsonToJson(m: Message)
    ensures FromJson(ToJson(m)) == Success(m)
  {
    ToJsonKeys(m);
    FromWireRoundTrip(m.msgType);
  }

  /** The three keys of the dict `serialize` builds. */
  lemma {:induction false} ToJsonKeys(m: Message)
    ensures Lookup(ToJson(m).members, "type") == Some(JString(Wire(m.msgType)))
    ensures Lookup(ToJson(m).members, "data") == Some(m.data)
    ensures Lookup(ToJson(m).members, "sender_id") == Some(m.senderId)
  {
    var ms := ToJson(m).members;
    assert ms[..2] == [ms[0], ms[1]];
    assert ms[..2][..1] == [ms[0]];
    assert [ms[0]][..0] == [];
  }

  /**
    `deserialize` accepts exactly the bytes that carry a message, and
    returns that message.
  */
  lemma {:induction false} DeserializeAccepts(bs: seq<Utf8.byte>, m: Message)
    ensures Deserialize(bs).Success? ==> Carries(bs, Deserialize(bs).value)
    ensures Carries(bs, m) ==> Deserialize(bs) == Success(m)
  {
    if Utf8.Decode(bs).Success? && Parse(Utf8.Decode(bs).value).Success? {
      var v := Parse(Utf8.Decode(bs).value).value;
      if v.JObject? && Lookup(v.members, "type").Some? {
        if Carries(bs, m) {
          FromWireRoundTrip(m.msgType);
        }
      }
    }
  }

  /** `deserialize(serialize(m)) == m` for every message. */
  lemma {:induction false} DeserializeSerialize(m: Message)
    ensures Deserialize(Serialize(m)) == Success(m)
  {
    Utf8.RoundTrip(Dump(ToJson(m)));
    ParseDump(ToJson(m));
    FromJsonToJson(m);
    ToJsonKeys(m);
  }

  /**
    The bytes `serialize` writes decode to a JSON object whose keys are
    exactly "type", "data" and "sender_id", the type as its wire string.
  */
  lemma {:induction false} SerializeShape(m: Message)
    ensures Utf8.Decode(Serialize(m)).Success?
    ensures Parse(Utf8.Decode(Serialize(m)).value) == Success(ToJson(m))
    ensures ToJson(m).members[0] == ("type", JString(Wire(m.msgType)))
    ensures ToJson(m).members[1] == ("data", m.data)
    ensures ToJson(m).members[2] == ("sender_id", m.senderId)
  {
    Utf8.RoundTrip(Dump(ToJson(m)));
    ParseDump(ToJson(m));
  }
}
