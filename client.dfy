/**
  The Python `Client` base class and its wire framing: every message is
  sent as a 4-byte big-endian length followed by the serialized payload,
  and read back by the module-level `receive_message`, which reads the
  header and then the payload in chunks of at most 4096 bytes.

  The socket is two byte streams: `outbox`, everything written so far, and
  `inbound`, everything the peer has sent that has not been read yet. A
  read of `n` bytes returns the next `min(n, |inbound|)` bytes, so a read
  returns nothing exactly when the peer has closed and everything it sent
  has been read.
*/
module PyClient {
  import opened Wrappers
  import opened Errors
  import opened JsonText
  import opened MessageEncoder
  import Utf8

  type byte = Utf8.byte

  /** The most bytes one read of the payload asks for. */
  const ChunkSize := 4096

  /** `length.to_bytes(4, byteorder='big')` needs `length < 2^32`. */
  const HeaderLimit := 0x1_0000_0000

  function Min(a: int, b: int): int { if a < b then a else b }

  /** `int.from_bytes(bs, byteorder='big')`. */
  function BigEndian(bs: seq<byte>): (n: nat)
    ensures n < Pow256(|bs|)
  {
    if |bs| == 0 then 0 else BigEndian(bs[..|bs| - 1]) * 256 + bs[|bs| - 1] as int
  }

  function Pow256(k: nat): (r: nat)
    ensures r >= 1
  {
    if k == 0 then 1 else 256 * Pow256(k - 1)
  }

  /** `n.to_bytes(4, byteorder='big')`, for `n < 2^32`. */
  function Header(n: nat): (h: seq<byte>)
    requires n < HeaderLimit
    ensures |h| == 4
  {
    var q1 := n / 256;
    var q2 := q1 / 256;
    var q3 := q2 / 256;
    [q3 as byte, (q2 % 256) as byte, (q1 % 256) as byte, (n % 256) as byte]
  }

  /** The bytes `send_message` writes for a payload it can frame. */
  function Frame(payload: seq<byte>): seq<byte>
    requires |payload| < HeaderLimit
  {
    Header(|payload|) + payload
  }

  /** `after` is `before` with the frame of `m` written at its end. */
  ghost predicate Sent(before: seq<byte>, after: seq<byte>, m: Message)
  {
    |Serialize(m)| < HeaderLimit && after == before + Frame(Serialize(m))
  }

  /**
    What `receive_message` does to the unread bytes `inbound` of a connected
    socket: the result it returns or raises, and the bytes left unread.
    A header read returns up to four bytes, and its big-endian value is the
    payload length, whatever its size.
  */
  function Receive(inbound: seq<byte>): (r: (Result<Message, PyError>, seq<byte>))
    ensures |inbound| > 0 ==> |r.1| < |inbound|
    ensures |inbound| == 0 ==> r.0.Failure?
  {
    if |inbound| == 0 then (Failure(ConnectionError("Server closed connection")), inbound)
    else
      var h := Min(4, |inbound|);
      var length := BigEndian(inbound[..h]);
      var rest := inbound[h..];
      if |rest| < length then (Failure(ConnectionError("Connection closed during receive")), [])
      else (Deserialize(rest[..length]), rest[length..])
  }

  class Client {
    /** `self.socket is not None`. */
    var connected: bool
    /** The socket has been closed by `disconnect`; the object stays in `self.socket`. */
    var closed: bool
    var outbox: seq<byte>
    var inbound: seq<byte>
    /** `self.node_id`; None is JSON null. */
    var nodeId: Json
    var isRunning: bool

    /** `Client(host, port)`: no socket yet, no id, not running. */
    constructor()
      ensures !connected && !closed && outbox == [] && inbound == []
      ensures nodeId == JNull && !isRunning
    {
      connected := false;
      closed := false;
      outbox := [];
      inbound := [];
      nodeId := JNull;
      isRunning := false;
    }

    /** A socket exists and has not been closed: sends and reads reach the peer. */
    predicate Open()
      reads this
    {
      connected && !closed
    }

    /**
      `connect` once the socket is open: a new socket replaces any earlier
      one, the peer's bytes become readable and the client is running. The message thread's target is
      `self.handle_messages`, which only a subclass that defines it has
      (`handlesMessages`); for any other client the lookup raises an
      AttributeError, re-raised after the socket is already open.
      Running the thread is not part of this model.
    */
    method Connect(peer: seq<byte>, handlesMessages: bool) returns (r: Result<(), PyError>)
      modifies this
      ensures Open() && isRunning && inbound == peer
      ensures outbox == old(outbox) && nodeId == old(nodeId)
      ensures r.Success? <==> handlesMessages
      ensures r.Failure? ==> r.error == AttributeError("handle_messages")
    {
      connected := true;
      closed := false;
      isRunning := true;
      inbound := peer;
      if !handlesMessages {
        return Failure(AttributeError("handle_messages"));
      }
      r := Success(());
    }

    /**
      `disconnect`: stops the loop and closes the socket, if there is one.
      The closed socket object is kept, so the later `if not self.socket`
      checks pass and the next send or read fails on the closed socket.
    */
    method Disconnect()
      modifies this
      ensures !isRunning && !Open()
      ensures closed == (old(closed) || old(connected))
      ensures connected == old(connected) && outbox == old(outbox)
      ensures inbound == old(inbound) && nodeId == old(nodeId)
    {
      isRunning := false;
      if connected {
        closed := true;
      }
    }

    /** One `socket.send`. */
    method Write(bs: seq<byte>)
      modifies this
      ensures outbox == old(outbox) + bs
      ensures connected == old(connected) && closed == old(closed) && inbound == old(inbound)
      ensures nodeId == old(nodeId) && isRunning == old(isRunning)
    {
      outbox := outbox + bs;
    }

    /** One `socket.recv(n)`. */
    method Read(n: nat) returns (chunk: seq<byte>)
      modifies this
      ensures chunk == old(inbound)[..Min(n, |old(inbound)|)]
      ensures inbound == old(inbound)[|chunk|..]
      ensures connected == old(connected) && closed == old(closed) && outbox == old(outbox)
      ensures nodeId == old(nodeId) && isRunning == old(isRunning)
    {
      chunk := inbound[..Min(n, |inbound|)];
      inbound := inbound[|chunk|..];
    }

    /**
      `send_message`: RuntimeError without a socket; OverflowError when the
      payload is too long for a 4-byte header (nothing is written, since the
      header is computed before the first send); OSError when the socket
      has been closed (the first send fails, so nothing is written);
      otherwise the header and the payload.
    */
    method SendMessage(m: Message) returns (r: Result<(), PyError>)
      modifies this
      ensures !old(connected) ==> r == Failure(RuntimeError("Not connected to server"))
      ensures old(connected) && |Serialize(m)| >= HeaderLimit ==> r == Failure(OverflowError)
      ensures old(connected) && |Serialize(m)| < HeaderLimit && old(closed) ==> r == Failure(ClosedSocket)
      ensures r.Failure? ==> outbox == old(outbox)
      ensures r.Success? <==> old(Open()) && |Serialize(m)| < HeaderLimit
      ensures r.Success? ==> outbox == old(outbox) + Frame(Serialize(m))
      ensures connected == old(connected) && closed == old(closed) && inbound == old(inbound)
      ensures nodeId == old(nodeId) && isRunning == old(isRunning)
    {
      if !connected {
        return Failure(RuntimeError("Not connected to server"));
      }
      var data := Serialize(m);
      var length := |data|;
      if length >= HeaderLimit {
        return Failure(OverflowError);
      }
      if closed {
        return Failure(ClosedSocket);
      }
      Write(Header(length));
      Write(data);
      r := Success(());
    }
  }

  /**
    `receive_message(self)`: defined at module level in `client.py`, not as
    a method of `Client`. A closed socket raises OSError on its first
    read. Otherwise it reads the header, then asks for at most
    `min(length - len(data), 4096)` bytes at a time until `length` bytes
    have arrived, and deserializes them.
  */
  method ReceiveMessage(c: Client) returns (r: Result<Message, PyError>)
    modifies c
    ensures !old(c.connected) ==> r == Failure(RuntimeError("Not connected to server")) && c.inbound == old(c.inbound)
    ensures old(c.connected) && old(c.closed) ==> r == Failure(ClosedSocket) && c.inbound == old(c.inbound)
    ensures old(c.Open()) ==> (r, c.inbound) == Receive(old(c.inbound))
    ensures c.connected == old(c.connected) && c.closed == old(c.closed) && c.outbox == old(c.outbox)
    ensures c.nodeId == old(c.nodeId) && c.isRunning == old(c.isRunning)
  {
    if !c.connected {
      return Failure(RuntimeError("Not connected to server"));
    }
    if c.closed {
      return Failure(ClosedSocket);
    }
    ghost var all := c.inbound;
    var lengthBytes := c.Read(4);
    if |lengthBytes| == 0 {
      return Failure(ConnectionError("Server closed connection"));
    }
    var length := BigEndian(lengthBytes);
    ghost var rest := c.inbound;
    var data: seq<byte> := [];
    while |data| < length
      invariant |data| <= length
      invariant rest == all[|lengthBytes|..]
      invariant |data| <= |rest| && data == rest[..|data|]
      invariant c.inbound == rest[|data|..]
      invariant c.connected == old(c.connected) && c.closed == old(c.closed) && c.outbox == old(c.outbox)
      invariant c.nodeId == old(c.nodeId) && c.isRunning == old(c.isRunning)
      decreases length - |data|
    {
      var chunk := c.Read(Min(length - |data|, ChunkSize));
      if |chunk| == 0 {
        assert |rest| < length;
        return Failure(ConnectionError("Connection closed during receive"));
      }
      assert rest[..|data| + |chunk|] == data + chunk;
      data := data + chunk;
    }
    r := Deserialize(data);
  }

  // ---------------------------------------------------------------------
  // Properties

  lemma {:induction false} BigEndianSnoc(bs: seq<byte>, b: byte)
    ensures BigEndian(bs + [b]) == BigEndian(bs) * 256 + b as int
  {
    assert (bs + [b])[..|bs|] == bs;
  }

  /** The big-endian value of four bytes, digit by digit. */
  lemma {:induction false} BigEndianFour(bs: seq<byte>)
    requires |bs| == 4
    ensures BigEndian(bs[..1]) == bs[0] as int
    ensures BigEndian(bs[..2]) == BigEndian(bs[..1]) * 256 + bs[1] as int
    ensures BigEndian(bs[..3]) == BigEndian(bs[..2]) * 256 + bs[2] as int
    ensures BigEndian(bs) == BigEndian(bs[..3]) * 256 + bs[3] as int
  {
    assert bs[..3][..2] == bs[..2];
    assert bs[..2][..1] == bs[..1];
    assert bs[..1][..0] == [];
  }

  /** The receiver's reading of a header is the length the sender wrote. */
  lemma {:induction false} HeaderRoundTrip(n: nat)
    requires n < HeaderLimit
    ensures BigEndian(Header(n)) == n
  {
    var h := Header(n);
    BigEndianFour(h);
    var q1 := n / 256;
    var q2 := q1 / 256;
    var q3 := q2 / 256;
    assert BigEndian(h[..1]) == q3;
    assert BigEndian(h[..2]) == q2;
    assert BigEndian(h[..3]) == q1;
  }

  /** Every four bytes are the header of their own big-endian value. */
  lemma {:induction false} HeaderOfBigEndian(bs: seq<byte>)
    requires |bs| == 4
    ensures BigEndian(bs) < HeaderLimit
    ensures Header(BigEndian(bs)) == bs
  {
    BigEndianFour(bs);
    var n := BigEndian(bs);
    var q1, q2, q3 := BigEndian(bs[..3]), BigEndian(bs[..2]), BigEndian(bs[..1]);
    assert n / 256 == q1 && n % 256 == bs[3] as int;
    assert q1 / 256 == q2 && q1 % 256 == bs[2] as int;
    assert q2 / 256 == q3 && q2 % 256 == bs[1] as int;
  }

  /**
    A framed payload followed by anything is read back as the payload's
    message, and exactly the bytes after the frame stay unread.
  */
  lemma {:induction false} ReceiveFrame(payload: seq<byte>, more: seq<byte>)
    requires |payload| < HeaderLimit
    ensures Receive(Frame(payload) + more) == (Deserialize(payload), more)
  {
    var all := Frame(payload) + more;
    HeaderRoundTrip(|payload|);
    assert all[..4] == Header(|payload|);
    assert all[4..] == payload + more;
    assert (payload + more)[..|payload|] == payload;
    assert (payload + more)[|payload|..] == more;
  }

  /** What one client sends, the other reads back as the same message. */
  lemma {:induction false} SendThenReceive(m: Message, more: seq<byte>)
    requires |Serialize(m)| < HeaderLimit
    ensures Receive(Frame(Serialize(m)) + more) == (Success(m), more)
  {
    ReceiveFrame(Serialize(m), more);
    DeserializeSerialize(m);
  }

  /** A stream that ends inside a payload raises, and is read to its end. */
  lemma {:induction false} TruncatedFrame(payload: seq<byte>, cut: nat)
    requires |payload| < HeaderLimit && cut < |payload|
    ensures Receive(Header(|payload|) + payload[..cut])
      == (Failure(ConnectionError("Connection closed during receive")), [])
  {
    var all := Header(|payload|) + payload[..cut];
    HeaderRoundTrip(|payload|);
    assert all[..4] == Header(|payload|);
    assert all[4..] == payload[..cut];
  }
}
