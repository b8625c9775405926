/** Cutting a byte stream into packets, however the bytes arrive. */
module Framing {
  import opened Protocol
  import opened Wire

  /** The two readers take the payload length from the size field differently: the client
      treats sizes below the header's as header-only, the game server lets them wrap. */
  datatype Reader = ClientReader | ServerReader

  function PayloadLength(reader: Reader, size: U16): U16 {
    match reader
    case ClientReader => if size > HEADER_SIZE then size - HEADER_SIZE else 0
    case ServerReader => (size - HEADER_SIZE) % 0x1_0000
  }

  function FirstLength(reader: Reader, bytes: Text): nat
    requires |bytes| >= HEADER_SIZE
  {
    HEADER_SIZE + PayloadLength(reader, GetU16(bytes[..2]))
  }

  /** A whole packet is at the front. */
  predicate HasPacket(reader: Reader, bytes: Text) {
    |bytes| >= HEADER_SIZE && |bytes| >= FirstLength(reader, bytes)
  }

  function FirstPacket(reader: Reader, bytes: Text): Packet
    requires HasPacket(reader, bytes)
  {
    Packet(GetU16(bytes[..2]), GetU16(bytes[2..4]), bytes[HEADER_SIZE..FirstLength(reader, bytes)])
  }

  /** The complete packets at the front of a byte string, and what is left after them. */
  function Frames(reader: Reader, bytes: Text): seq<Packet>
    decreases |bytes|
  {
    if HasPacket(reader, bytes)
    then [FirstPacket(reader, bytes)] + Frames(reader, bytes[FirstLength(reader, bytes)..])
    else []
  }

  function Leftover(reader: Reader, bytes: Text): (r: Text)
    ensures !HasPacket(reader, r)
    decreases |bytes|
  {
    if HasPacket(reader, bytes) then Leftover(reader, bytes[FirstLength(reader, bytes)..]) else bytes
  }

  /** Cutting as bytes come in is cutting the whole. */
  lemma {:induction false} FramesConcat(reader: Reader, a: Text, b: Text)
    ensures Frames(reader, a + b) == Frames(reader, a) + Frames(reader, Leftover(reader, a) + b)
    ensures Leftover(reader, a + b) == Leftover(reader, Leftover(reader, a) + b)
    decreases |a|
  {
    if HasPacket(reader, a) {
      var n := FirstLength(reader, a);
      assert (a + b)[..2] == a[..2] && (a + b)[2..4] == a[2..4];
      assert (a + b)[HEADER_SIZE..n] == a[HEADER_SIZE..n];
      assert (a + b)[n..] == a[n..] + b;
      FramesConcat(reader, a[n..], b);
    }
  }

  function Flatten(chunks: seq<Text>): Text {
    if chunks == [] then [] else Flatten(chunks[..|chunks| - 1]) + chunks[|chunks| - 1]
  }

  function EncodeAll(ps: seq<Packet>): Text {
    if ps == [] then [] else Encode(ps[0]) + EncodeAll(ps[1..])
  }

  lemma FirstOfEncoded(reader: Reader, p: Packet, rest: Text)
    requires WellFormed(p)
    ensures var bytes := Encode(p) + rest;
            HasPacket(reader, bytes) && FirstLength(reader, bytes) == p.size && FirstPacket(reader, bytes) == p &&
            bytes[p.size..] == rest
  {
    var bytes := Encode(p) + rest;
    HeaderAhead(p.size, p.opcode, p.payload + rest);
    assert bytes == PutU16(p.size) + PutU16(p.opcode) + (p.payload + rest);
    assert PayloadLength(reader, p.size) == p.size - HEADER_SIZE;
    assert bytes[HEADER_SIZE..p.size] == p.payload;
  }

  /** Both readers cut the bytes of well-formed packets back into those packets. */
  lemma {:induction false} FramesOfEncoded(reader: Reader, ps: seq<Packet>)
    requires forall p | p in ps :: WellFormed(p)
    ensures Frames(reader, EncodeAll(ps)) == ps && Leftover(reader, EncodeAll(ps)) == []
  {
    if ps != [] {
      assert ps[0] in ps;
      FirstOfEncoded(reader, ps[0], EncodeAll(ps[1..]));
      FramesOfEncoded(reader, ps[1..]);
    }
  }

  /** A size below the header's own four bytes: the client takes the header for a packet of its own and
      goes on behind it. */
  lemma RuntOnClient(size: U16, opcode: U16, rest: Text)
    requires size < 4
    ensures Frames(ClientReader, PutU16(size) + PutU16(opcode) + rest) ==
            [Packet(size, opcode, [])] + Frames(ClientReader, rest)
  {
    HeaderAhead(size, opcode, rest);
    var bytes := PutU16(size) + PutU16(opcode) + rest;
    assert FirstLength(ClientReader, bytes) == 4;
    assert FirstPacket(ClientReader, bytes) == Packet(size, opcode, []);
  }

  /** The game server waits for the size less four modulo 2^16: at least 65532 bytes more. */
  lemma RuntOnServer(size: U16, opcode: U16, rest: Text)
    requires size < 4
    ensures var bytes := PutU16(size) + PutU16(opcode) + rest;
            && (HasPacket(ServerReader, bytes) <==> |rest| >= 65532 + size)
            && (HasPacket(ServerReader, bytes) ==>
                  FirstPacket(ServerReader, bytes) == Packet(size, opcode, rest[..65532 + size]))
  {
    HeaderAhead(size, opcode, rest);
    var bytes, n := PutU16(size) + PutU16(opcode) + rest, 65532 + size;
    assert PayloadLength(ServerReader, size) == n;
    if |rest| >= n {
      assert bytes[4..4 + n] == rest[..n];
    }
  }

  /** The mailbox between the network thread and the logic thread. */
  class ThreadSafeQueue<T> {
    var queue: seq<T>

    constructor ()
      ensures queue == []
    {
      queue := [];
    }

    method Push(item: T)
      modifies this
      ensures queue == old(queue) + [item]
    {
      queue := queue + [item];
    }

    method TryPop() returns (item: Option<T>)
      modifies this
      ensures old(queue) == [] ==> item == None && queue == []
      ensures old(queue) != [] ==> item == Some(old(queue)[0]) && queue == old(queue)[1..]
    {
      if queue == [] {
        return None;
      }
      item := Some(queue[0]);
      queue := queue[1..];
    }
  }

  /** NetworkManager.  On the read side one read is always armed: for the header, or for a
      payload of known length. */
  class NetworkManager {
    const inbound: ThreadSafeQueue<Packet>
    var open: bool
    var written: Text
    var socketBytes: Text
    var incomingSize: U16
    var incomingOpcode: U16
    var incomingPayload: Text
    var awaitingPayload: bool

    constructor ()
      ensures Valid() && Unparsed() == [] && inbound.queue == [] && fresh(inbound) && written == [] && !open
    {
      inbound := new ThreadSafeQueue<Packet>();
      written, open := [], false;
      socketBytes, incomingPayload := [], [];
      incomingSize, incomingOpcode := 0, 0;
      awaitingPayload := false;
    }

    ghost predicate Valid()
      reads this
    {
      awaitingPayload ==> incomingSize > HEADER_SIZE
    }

    /** What has arrived but is in no pushed packet: a header already read, then the socket. */
    ghost function Unparsed(): Text
      reads this
    {
      if awaitingPayload then PutU16(incomingSize) + PutU16(incomingOpcode) + socketBytes else socketBytes
    }

    /** A new connection is up: nothing of the old one's bytes is left, packets already queued stay. */
    method OnConnect()
      modifies this
      ensures Valid() && open && written == [] && Unparsed() == []
    {
      open, written, socketBytes := true, [], [];
      incomingPayload, awaitingPayload := [], false;
    }

    /** disconnect. */
    method Disconnect()
      modifies this`open
      ensures !open
    {
      open := false;
    }

    /** sendPacket: the header's four bytes and the payload go out in one write; without an open socket
        the packet is dropped. */
    method SendPacket(size: U16, opcode: U16, payload: Text)
      modifies this`written
      ensures written == if open then old(written) + Encode(Packet(size, opcode, payload)) else old(written)
    {
      var buffer := PutU16(size) + PutU16(opcode);
      if |payload| > 0 {
        buffer := buffer + payload;
      }
      if !open {
        return;
      }
      written := written + buffer;
    }

    /** Completion of the armed header read. */
    method OnHeader()
      requires Valid() && !awaitingPayload && |socketBytes| >= HEADER_SIZE
      modifies this`socketBytes, this`incomingSize, this`incomingOpcode, this`incomingPayload, this`awaitingPayload,
               inbound
      ensures Valid()
      ensures if awaitingPayload then Unparsed() == old(Unparsed()) && inbound.queue == old(inbound.queue)
              else HasPacket(ClientReader, old(Unparsed())) &&
                   Unparsed() == old(Unparsed())[FirstLength(ClientReader, old(Unparsed()))..] &&
                   inbound.queue == old(inbound.queue) + [FirstPacket(ClientReader, old(Unparsed()))]
      ensures |socketBytes| < old(|socketBytes|)
    {
      ghost var all := socketBytes;
      HeaderReadsBack(all);
      incomingSize := GetU16(socketBytes[..2]);
      incomingOpcode := GetU16(socketBytes[2..4]);
      socketBytes := socketBytes[4..];
      if incomingSize > HEADER_SIZE {
        awaitingPayload := true;
        assert PutU16(incomingSize) + PutU16(incomingOpcode) + socketBytes == all;
      } else {
        assert all[HEADER_SIZE..HEADER_SIZE] == [];
        inbound.Push(Packet(incomingSize, incomingOpcode, []));
      }
    }

    /** Completion of the armed payload read. */
    method OnPayload()
      requires Valid() && awaitingPayload && |socketBytes| >= incomingSize - HEADER_SIZE
      modifies this`socketBytes, this`incomingSize, this`incomingOpcode, this`incomingPayload, this`awaitingPayload,
               inbound
      ensures Valid() && !awaitingPayload && |socketBytes| < old(|socketBytes|)
      ensures HasPacket(ClientReader, old(Unparsed()))
      ensures Unparsed() == old(Unparsed())[FirstLength(ClientReader, old(Unparsed()))..]
      ensures inbound.queue == old(inbound.queue) + [FirstPacket(ClientReader, old(Unparsed()))]
    {
      ghost var all := Unparsed();
      HeaderAhead(incomingSize, incomingOpcode, socketBytes);
      var n := incomingSize - HEADER_SIZE;
      incomingPayload := socketBytes[..n];
      socketBytes := socketBytes[n..];
      awaitingPayload := false;
      assert all[HEADER_SIZE..incomingSize] == incomingPayload && all[incomingSize..] == socketBytes;
      inbound.Push(Packet(incomingSize, incomingOpcode, incomingPayload));
    }

    predicate CanRead()
      reads this
    {
      if awaitingPayload then |socketBytes| >= incomingSize - HEADER_SIZE else |socketBytes| >= HEADER_SIZE
    }

    /** The armed read completes and the next is armed. */
    method OnRead()
      requires Valid() && CanRead()
      modifies this`socketBytes, this`incomingSize, this`incomingOpcode, this`incomingPayload, this`awaitingPayload,
               inbound
      ensures Valid() && |socketBytes| < old(|socketBytes|)
      ensures inbound.queue + Frames(ClientReader, Unparsed()) ==
              old(inbound.queue) + Frames(ClientReader, old(Unparsed()))
      ensures Leftover(ClientReader, Unparsed()) == Leftover(ClientReader, old(Unparsed()))
    {
      ghost var queue, bytes := inbound.queue, Unparsed();
      if awaitingPayload {
        OnPayload();
      } else {
        OnHeader();
      }
      if inbound.queue != queue {
        assert inbound.queue + Frames(ClientReader, Unparsed()) ==
          queue + ([FirstPacket(ClientReader, bytes)] + Frames(ClientReader, Unparsed()));
      }
    }

    /** A chunk of bytes arrives; every read that can complete does. */
    method OnBytes(chunk: Text)
      requires Valid()
      modifies this`socketBytes, this`incomingSize, this`incomingOpcode, this`incomingPayload, this`awaitingPayload,
               inbound
      ensures Valid()
      ensures inbound.queue == old(inbound.queue) + Frames(ClientReader, old(Unparsed()) + chunk)
      ensures Unparsed() == Leftover(ClientReader, old(Unparsed()) + chunk)
    {
      ghost var all := Unparsed() + chunk;
      socketBytes := socketBytes + chunk;
      assert Unparsed() == all;
      while CanRead()
        invariant Valid()
        invariant inbound.queue + Frames(ClientReader, Unparsed()) == old(inbound.queue) + Frames(ClientReader, all)
        invariant Leftover(ClientReader, Unparsed()) == Leftover(ClientReader, all)
        decreases |socketBytes|
      {
        OnRead();
      }
      NothingWhole();
    }

    lemma NothingWhole()
      requires Valid() && !CanRead()
      ensures !HasPacket(ClientReader, Unparsed())
    {
      if awaitingPayload {
        HeaderAhead(incomingSize, incomingOpcode, socketBytes);
      }
    }
  }

  lemma HeaderReadsBack(bytes: Text)
    requires |bytes| >= HEADER_SIZE
    ensures PutU16(GetU16(bytes[..2])) + PutU16(GetU16(bytes[2..4])) + bytes[4..] == bytes
  {
    var a, b := bytes[..2], bytes[2..4];
    assert PutU16(GetU16(a)) == a && PutU16(GetU16(b)) == b;
    assert a + b + bytes[4..] == bytes;
  }

  lemma HeaderAhead(size: U16, opcode: U16, rest: Text)
    ensures var all := PutU16(size) + PutU16(opcode) + rest;
            |all| == HEADER_SIZE + |rest| && GetU16(all[..2]) == size && GetU16(all[2..4]) == opcode && all[4..] == rest
  {
    var all := PutU16(size) + PutU16(opcode) + rest;
    assert all[..2] == PutU16(size) && all[2..4] == PutU16(opcode);
    U16RoundTrip(size);
    U16RoundTrip(opcode);
  }

  /** A connection's whole life: the chunks in the order they arrive. */
  method Deliver(net: NetworkManager, chunks: seq<Text>)
    requires net.Valid() && net.Unparsed() == [] && net.inbound.queue == []
    modifies net, net.inbound
    ensures net.Valid()
    ensures net.inbound.queue == Frames(ClientReader, Flatten(chunks))
    ensures net.Unparsed() == Leftover(ClientReader, Flatten(chunks))
  {
    for n := 0 to |chunks|
      invariant net.Valid()
      invariant net.inbound.queue == Frames(ClientReader, Flatten(chunks[..n]))
      invariant net.Unparsed() == Leftover(ClientReader, Flatten(chunks[..n]))
    {
      FramesConcat(ClientReader, Flatten(chunks[..n]), chunks[n]);
      assert chunks[..n + 1][..n] == chunks[..n];
      net.OnBytes(chunks[n]);
    }
    assert chunks[..|chunks|] == chunks;
  }

  /** Framing round trip: whatever the chunking of the bytes of well-formed packets, exactly
      those packets are delivered, in order, with nothing left over.  And after any prefix of
      the bytes, exactly the packets complete by then have been delivered. */
  lemma ChunkingDoesNotMatter(ps: seq<Packet>, chunks: seq<Text>, more: Text)
    requires forall p | p in ps :: WellFormed(p)
    requires Flatten(chunks) + more == EncodeAll(ps)
    ensures Frames(ClientReader, Flatten(chunks)) <= ps
    ensures more == [] ==> Frames(ClientReader, Flatten(chunks)) == ps && Leftover(ClientReader, Flatten(chunks)) == []
  {
    FramesOfEncoded(ClientReader, ps);
    FramesConcat(ClientReader, Flatten(chunks), more);
    assert Flatten(chunks) + [] == Flatten(chunks);
  }
}
