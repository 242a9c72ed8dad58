/**
 * TCP receive path: the fixed 20-byte header of section 3.1 of RFC 793
 * (section 3.1 of RFC 9293), its Data Offset field, and the dispatch of a
 * received segment to the connection, proto-connection and server tables.
 */
module Tcp {
  import opened Wrappers
  import opened Machine

  datatype PktHeader = PktHeader(
    sourcePort: u16,
    destPort: u16,
    sequenceNumber: u32,
    acknowledgementNumber: u32,
    // top 4 bits: header size in 32-bit words; bottom 4: reserved
    dataOffset: u8,
    // bit 0 FIN, 1 SYN, 2 RST, 3 PSH, 4 ACK, 5 URG, 6 ECE, 7 CWR
    flags: u8,
    windowSize: u16,
    checksum: u16,
    urgentPointer: u16)

  const HEADER_BYTES: nat := 20
  const FLAG_SYN: u8 := 2   // 1 << 1
  const FLAG_ACK: u8 := 16  // 1 << 4

  function Pow2(i: nat): (p: nat)
    ensures p > 0
  {
    if i == 0 then 1 else 2 * Pow2(i - 1)
  }

  /** Bit `i` of a byte. */
  function Bit(x: u8, i: nat): bool
    requires i < 8
  {
    (x / Pow2(i)) % 2 == 1
  }

  /** The two flag constants have exactly the SYN bit (1) and the ACK bit (4) set. */
  lemma FlagConstantsAreSingleBits()
    ensures forall i :: 0 <= i < 8 ==> (Bit(FLAG_SYN, i) <==> i == 1)
    ensures forall i :: 0 <= i < 8 ==> (Bit(FLAG_ACK, i) <==> i == 4)
  {
    assert Pow2(1) == 2 && Pow2(2) == 4 && Pow2(3) == 8;
    assert Pow2(4) == 16 && Pow2(5) == 32 && Pow2(6) == 64 && Pow2(7) == 128;
  }

  // ---- Network byte order ----

  function BE16(hi: u8, lo: u8): u16
  {
    hi * 0x100 + lo
  }

  function BE32(b0: u8, b1: u8, b2: u8, b3: u8): u32
  {
    ((b0 * 0x100 + b1) * 0x100 + b2) * 0x100 + b3
  }

  function Bytes16(x: u16): (b: seq<u8>)
    ensures |b| == 2
  {
    [x / 0x100, x % 0x100]
  }

  function Bytes32(x: u32): (b: seq<u8>)
    ensures |b| == 4
  {
    [x / 0x100_0000, (x / 0x1_0000) % 0x100, (x / 0x100) % 0x100, x % 0x100]
  }

  /** The header fields, in order, from the first 20 bytes (16- and 32-bit fields big-endian). */
  function DecodeHeader(b: seq<u8>): PktHeader
    requires |b| >= HEADER_BYTES
  {
    PktHeader(
      BE16(b[0], b[1]),
      BE16(b[2], b[3]),
      BE32(b[4], b[5], b[6], b[7]),
      BE32(b[8], b[9], b[10], b[11]),
      b[12],
      b[13],
      BE16(b[14], b[15]),
      BE16(b[16], b[17]),
      BE16(b[18], b[19]))
  }

  /** The wire image of a header: field widths 2, 2, 4, 4, 1, 1, 2, 2, 2. */
  function EncodeHeader(h: PktHeader): (b: seq<u8>)
    ensures |b| == HEADER_BYTES
  {
    Bytes16(h.sourcePort) + Bytes16(h.destPort)
    + Bytes32(h.sequenceNumber) + Bytes32(h.acknowledgementNumber)
    + [h.dataOffset, h.flags]
    + Bytes16(h.windowSize) + Bytes16(h.checksum) + Bytes16(h.urgentPointer)
  }

  lemma BE16Inverse(x: u16)
    ensures BE16(Bytes16(x)[0], Bytes16(x)[1]) == x
  {
  }

  lemma BE32Inverse(x: u32)
    ensures BE32(Bytes32(x)[0], Bytes32(x)[1], Bytes32(x)[2], Bytes32(x)[3]) == x
  {
  }

  /** Decoding an encoded header gives the header back. */
  lemma DecodeEncode(h: PktHeader)
    ensures DecodeHeader(EncodeHeader(h)) == h
  {
    var b := EncodeHeader(h);
    BE16Inverse(h.sourcePort);
    BE16Inverse(h.destPort);
    BE32Inverse(h.sequenceNumber);
    BE32Inverse(h.acknowledgementNumber);
    BE16Inverse(h.windowSize);
    BE16Inverse(h.checksum);
    BE16Inverse(h.urgentPointer);
    assert b[0..2] == Bytes16(h.sourcePort) && b[2..4] == Bytes16(h.destPort);
    assert b[4..8] == Bytes32(h.sequenceNumber) && b[8..12] == Bytes32(h.acknowledgementNumber);
    assert b[14..16] == Bytes16(h.windowSize) && b[16..18] == Bytes16(h.checksum);
    assert b[18..20] == Bytes16(h.urgentPointer);
  }

  lemma BE16Bytes(hi: u8, lo: u8)
    ensures Bytes16(BE16(hi, lo)) == [hi, lo]
  {
  }

  lemma BE32Bytes(b0: u8, b1: u8, b2: u8, b3: u8)
    ensures Bytes32(BE32(b0, b1, b2, b3)) == [b0, b1, b2, b3]
  {
  }

  /** Every 20-byte string is the image of the header it decodes to. */
  lemma EncodeDecode(b: seq<u8>)
    requires |b| == HEADER_BYTES
    ensures EncodeHeader(DecodeHeader(b)) == b
  {
    BE16Bytes(b[0], b[1]);
    BE16Bytes(b[2], b[3]);
    BE32Bytes(b[4], b[5], b[6], b[7]);
    BE32Bytes(b[8], b[9], b[10], b[11]);
    BE16Bytes(b[14], b[15]);
    BE16Bytes(b[16], b[17]);
    BE16Bytes(b[18], b[19]);
    assert b == [b[0], b[1]] + [b[2], b[3]] + [b[4], b[5], b[6], b[7]] + [b[8], b[9], b[10], b[11]]
              + [b[12], b[13]] + [b[14], b[15]] + [b[16], b[17]] + [b[18], b[19]];
  }

  // ---- Header size ----

  /** The header length in bytes, from the Data Offset field (the top nibble of `dataOffset`). */
  function HeaderSize(h: PktHeader): (n: nat)
    ensures n % 4 == 0 && n <= 60
    ensures n / 4 == h.dataOffset / 16
  {
    (h.dataOffset / 16) * 4
  }

  /** Only the Data Offset nibble decides the header size; the reserved nibble does not. */
  lemma HeaderSizeDependsOnlyOnOffsetNibble(h: PktHeader, h': PktHeader)
    ensures HeaderSize(h) == HeaderSize(h') <==> h.dataOffset / 16 == h'.dataOffset / 16
  {
  }

  // ---- The packet reader ----

  /**
   * A received packet as its bytes plus a read cursor. A read that does not
   * fit in what remains fails and consumes nothing.
   */
  class PacketReader {
    const data: seq<u8>
    var pos: nat

    ghost predicate Valid()
      reads this
    {
      pos <= |data|
    }

    constructor (data: seq<u8>)
      ensures this.data == data && pos == 0 && Valid()
    {
      this.data := data;
      pos := 0;
    }

    function Remain(): nat
      reads this
      requires Valid()
    {
      |data| - pos
    }

    method Clone() returns (c: PacketReader)
      requires Valid()
      ensures fresh(c) && c.Valid() && c.data == data && c.pos == pos
    {
      c := new PacketReader(data);
      c.pos := pos;
    }

    method ReadU8() returns (r: Result<u8, ()>)
      requires Valid()
      modifies this
      ensures Valid()
      ensures r.Success? <==> old(Remain()) >= 1
      ensures r.Success? ==> r.value == data[old(pos)] && pos == old(pos) + 1
      ensures r.Failure? ==> pos == old(pos)
    {
      if pos + 1 > |data| {
        return Failure(());
      }
      r := Success(data[pos]);
      pos := pos + 1;
    }

    method ReadU16n() returns (r: Result<u16, ()>)
      requires Valid()
      modifies this
      ensures Valid()
      ensures r.Success? <==> old(Remain()) >= 2
      ensures r.Success? ==> r.value == BE16(data[old(pos)], data[old(pos) + 1]) && pos == old(pos) + 2
      ensures r.Failure? ==> pos == old(pos)
    {
      if pos + 2 > |data| {
        return Failure(());
      }
      r := Success(BE16(data[pos], data[pos + 1]));
      pos := pos + 2;
    }

    method ReadU32n() returns (r: Result<u32, ()>)
      requires Valid()
      modifies this
      ensures Valid()
      ensures r.Success? <==> old(Remain()) >= 4
      ensures r.Success? ==>
        r.value == BE32(data[old(pos)], data[old(pos) + 1], data[old(pos) + 2], data[old(pos) + 3]) &&
        pos == old(pos) + 4
      ensures r.Failure? ==> pos == old(pos)
    {
      if pos + 4 > |data| {
        return Failure(());
      }
      r := Success(BE32(data[pos], data[pos + 1], data[pos + 2], data[pos + 3]));
      pos := pos + 4;
    }
  }

  /**
   * How far `PktHeader::read` gets with `rem` bytes left: the offset of the
   * first field that does not fit (field offsets 0, 2, 4, 8, 12, 13, 14, 16, 18).
   */
  function HeaderBytesRead(rem: nat): (n: nat)
    ensures n <= rem && n <= HEADER_BYTES
    ensures rem >= HEADER_BYTES <==> n == HEADER_BYTES
  {
    if rem < 2 then 0
    else if rem < 4 then 2
    else if rem < 8 then 4
    else if rem < 12 then 8
    else if rem < 13 then 12
    else if rem < 14 then 13
    else if rem < 16 then 14
    else if rem < 18 then 16
    else if rem < 20 then 18
    else 20
  }

  /**
   * Read the header field by field. It fails exactly when fewer than 20 bytes
   * remain; otherwise it consumes exactly 20 and decodes them.
   */
  method ReadHeader(reader: PacketReader) returns (r: Result<PktHeader, ()>)
    requires reader.Valid()
    modifies reader
    ensures reader.Valid()
    ensures r.Success? <==> old(reader.Remain()) >= HEADER_BYTES
    ensures reader.pos == old(reader.pos) + HeaderBytesRead(old(reader.Remain()))
    ensures r.Success? ==> r.value == DecodeHeader(reader.data[old(reader.pos)..reader.pos])
  {
    var sourcePort :- reader.ReadU16n();
    var destPort :- reader.ReadU16n();
    var sequenceNumber :- reader.ReadU32n();
    var acknowledgementNumber :- reader.ReadU32n();
    var dataOffset :- reader.ReadU8();
    var flags :- reader.ReadU8();
    var windowSize :- reader.ReadU16n();
    var checksum :- reader.ReadU16n();
    var urgentPointer :- reader.ReadU16n();
    return Success(PktHeader(sourcePort, destPort, sequenceNumber, acknowledgementNumber,
                             dataOffset, flags, windowSize, checksum, urgentPointer));
  }

  // ---- Receive dispatch ----

  datatype Address = Ipv4(addr: u32)

  /** (source address, source port, destination address, destination port) */
  datatype Quad = Quad(srcAddr: Address, srcPort: u16, destAddr: Address, destPort: u16)

  /** A listening server's key: a bound address, or none for every address, and a port. */
  datatype ServerKey = ServerKey(addr: Option<Address>, port: u16)

  datatype Connection = Connection
  datatype ProtoConnection = ProtoConnection(seenSeq: u32, sentSeq: u32)
  datatype Server = Server

  function Lookup<K, V>(m: map<K, V>, k: K): (r: Option<V>)
    ensures r.Some? <==> k in m
    ensures r.Some? ==> r.value == m[k]
  {
    if k in m then Some(m[k]) else Option.None
  }

  /** The server for a SYN: one bound to the destination address first, else a wildcard one. */
  function FindServer(servers: map<ServerKey, Server>, dest: Address, port: u16): (r: Option<Server>)
    ensures r.Some? <==> ServerKey(Some(dest), port) in servers || ServerKey(Option.None, port) in servers
    ensures ServerKey(Some(dest), port) in servers ==> r == Some(servers[ServerKey(Some(dest), port)])
    ensures ServerKey(Some(dest), port) !in servers && ServerKey(Option.None, port) in servers ==>
              r == Some(servers[ServerKey(Option.None, port)])
  {
    Lookup(servers, ServerKey(Some(dest), port)).Or(Lookup(servers, ServerKey(Option.None, port)))
  }

  datatype LengthVerdict = LengthRejected | LengthUnderflow | LengthAccepted

  /**
   * The length guard and the option-skip bound of `rx_handler`, as written:
   * the packet is rejected when the header is SHORTER than the packet, and
   * `total - hdrLen` underflows when it is longer, so only a packet whose
   * header fills it exactly (no payload) gets through.
   */
  function CheckLength(hdrLen: nat, total: nat): (v: LengthVerdict)
    ensures v == LengthRejected <==> hdrLen < total
    ensures v == LengthUnderflow <==> total < hdrLen
    ensures v == LengthAccepted <==> hdrLen == total
  {
    if hdrLen < total then LengthRejected
    else if total < hdrLen then LengthUnderflow
    else LengthAccepted
  }

  const SUBTRACT_OVERFLOW := Panic("attempt to subtract with overflow")

  datatype RxOutcome =
    | UndersizedPacket
    | InvalidHeaderLength(hdrLen: nat, packetLen: nat)
    | Panicked(panic: Panic)
    | Dispatched(header: PktHeader, connection: Option<Connection>,
                 proto: Option<ProtoConnection>, server: Option<Server>)

  /** The three protocol tables (CONNECTIONS, PROTO_CONNECTIONS, SERVERS). */
  class TcpTables {
    var connections: map<Quad, Connection>
    var protoConnections: map<Quad, ProtoConnection>
    var servers: map<ServerKey, Server>

    constructor ()
      ensures connections == map[] && protoConnections == map[] && servers == map[]
    {
      connections, protoConnections, servers := map[], map[], map[];
    }

    /**
     * Receive one segment. Dispatch compares `flags` for equality, in three
     * independent steps: the connection table is consulted for every packet,
     * an ACK takes its quad out of the proto-connection table, and a SYN looks
     * for a server. The connection and server tables are only read.
     */
    method RxHandler(srcAddr: Address, destAddr: Address, pkt: PacketReader) returns (r: RxOutcome)
      requires pkt.Valid()
      modifies this`protoConnections, pkt
      ensures pkt.Valid()
      ensures old(pkt.Remain()) < HEADER_BYTES ==>
        r == UndersizedPacket && protoConnections == old(protoConnections)
      ensures old(pkt.Remain()) >= HEADER_BYTES ==>
        var hdr := DecodeHeader(pkt.data[old(pkt.pos)..old(pkt.pos) + HEADER_BYTES]);
        var total := old(pkt.Remain());
        var quad := Quad(srcAddr, hdr.sourcePort, destAddr, hdr.destPort);
        match CheckLength(HeaderSize(hdr), total)
        case LengthRejected =>
          r == InvalidHeaderLength(HeaderSize(hdr), total) && protoConnections == old(protoConnections)
        case LengthUnderflow =>
          r == Panicked(SUBTRACT_OVERFLOW) && protoConnections == old(protoConnections)
        case LengthAccepted =>
          && pkt.Remain() == total - HeaderSize(hdr)
          && r == Dispatched(hdr, Lookup(connections, quad),
                             if hdr.flags == FLAG_ACK then Lookup(old(protoConnections), quad) else Option.None,
                             if hdr.flags == FLAG_SYN then FindServer(servers, destAddr, hdr.destPort) else Option.None)
          && protoConnections == if hdr.flags == FLAG_ACK then old(protoConnections) - {quad} else old(protoConnections)
    {
      var preHeaderReader := pkt.Clone();
      var total := preHeaderReader.Remain();
      var read := ReadHeader(pkt);
      if read.Failure? {
        return UndersizedPacket;
      }
      var hdr := read.value;
      var hdrLen := HeaderSize(hdr);
      if hdrLen < total {
        return InvalidHeaderLength(hdrLen, total);
      }

      // Options: the loop guard computes `remain - hdrLen` in unsigned arithmetic.
      if total < hdrLen {
        return Panicked(SUBTRACT_OVERFLOW);
      }
      while pkt.Remain() > total - hdrLen
        modifies pkt
        invariant pkt.Valid() && pkt.Remain() >= total - hdrLen
        decreases pkt.Remain()
      {
        var b := pkt.ReadU8();
        assert b.Success?;  // the unwrap never fails
      }

      var quad := Quad(srcAddr, hdr.sourcePort, destAddr, hdr.destPort);
      var connection := Lookup(connections, quad);  // Connection::handle does nothing
      var proto: Option<ProtoConnection> := Option.None;
      if hdr.flags == FLAG_ACK {
        proto := Lookup(protoConnections, quad);
        protoConnections := protoConnections - {quad};
      }
      var server: Option<Server> := Option.None;
      if hdr.flags == FLAG_SYN {
        server := FindServer(servers, destAddr, hdr.destPort);
      }
      r := Dispatched(hdr, connection, proto, server);
    }
  }
}
