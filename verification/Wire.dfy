/** The virtio_vsock_hdr wire structure of VIRTIO 1.1 section 5.10.6 and its codec. */
module Wire {
  import opened Bytes

  const TYPE_STREAM: u16 := 1

  const OP_REQUEST: u16 := 1
  const OP_RESPONSE: u16 := 2
  const OP_RESET: u16 := 3
  const OP_SHUTDOWN: u16 := 4
  const OP_READ_WRITE: u16 := 5
  const OP_CREDIT_UPDATE: u16 := 6
  const OP_CREDIT_REQUEST: u16 := 7

  const SHUTDOWN_BOTH: u32 := 3

  const HEADER_SIZE := 44
  const MAX_PACKET_PAYLOAD := 64 * 1024

  datatype Header = Header(
    srcCID: u64, dstCID: u64, srcPort: u32, dstPort: u32, len: u32,
    typ: u16, op: u16, flags: u32, bufAlloc: u32, fwdCnt: u32)

  /** A header as the endpoint fills it in, with the payload that is to follow it. */
  datatype Packet = Packet(header: Header, payload: seq<byte>)

  /** The three parts of the 44-byte header: addresses, description, credit. */
  function EncodeAddresses(h: Header): (b: seq<byte>)
    ensures |b| == 24
  {
    LittleEndian(8, h.srcCID) + LittleEndian(8, h.dstCID) +
    LittleEndian(4, h.srcPort) + LittleEndian(4, h.dstPort)
  }

  function EncodeDescription(h: Header): (b: seq<byte>)
    ensures |b| == 8
  {
    LittleEndian(4, h.len) + LittleEndian(2, h.typ) + LittleEndian(2, h.op)
  }

  function EncodeCredit(h: Header): (b: seq<byte>)
    ensures |b| == 12
  {
    LittleEndian(4, h.flags) + LittleEndian(4, h.bufAlloc) + LittleEndian(4, h.fwdCnt)
  }

  function EncodeHeader(h: Header): (b: seq<byte>)
    ensures |b| == HEADER_SIZE
  {
    EncodeAddresses(h) + EncodeDescription(h) + EncodeCredit(h)
  }

  function Field64(b: seq<byte>): u64
    requires |b| == 8
  {
    Pow256Widths();
    FromLittleEndian(b)
  }

  function Field32(b: seq<byte>): u32
    requires |b| == 4
  {
    Pow256Widths();
    FromLittleEndian(b)
  }

  function Field16(b: seq<byte>): u16
    requires |b| == 2
  {
    Pow256Widths();
    FromLittleEndian(b)
  }

  function DecodeHeader(b: seq<byte>): Header
    requires |b| == HEADER_SIZE
  {
    Header(Field64(b[0..8]), Field64(b[8..16]),
           Field32(b[16..20]), Field32(b[20..24]), Field32(b[24..28]),
           Field16(b[28..30]), Field16(b[30..32]),
           Field32(b[32..36]), Field32(b[36..40]), Field32(b[40..44]))
  }

  function Decode(packet: seq<byte>): Result<Packet>
  {
    if |packet| < HEADER_SIZE then Error
    else
      var header := DecodeHeader(packet[..HEADER_SIZE]);
      if header.len > |packet| - HEADER_SIZE then Error
      else Ok(Packet(header, packet[HEADER_SIZE..HEADER_SIZE + header.len]))
  }

  function Encode(p: Packet): (b: seq<byte>)
    ensures |b| == HEADER_SIZE + |p.payload|
  {
    EncodeHeader(p.header.(len := Wrap32(|p.payload|))) + p.payload
  }

  function EncodeAll(ps: seq<Packet>): (bs: seq<seq<byte>>)
    ensures |bs| == |ps|
    ensures forall i :: 0 <= i < |ps| ==> bs[i] == Encode(ps[i])
  {
    seq(|ps|, i requires 0 <= i < |ps| => Encode(ps[i]))
  }

  lemma AddressFields(h: Header)
    ensures
      var b := EncodeAddresses(h);
      Field64(b[0..8]) == h.srcCID && Field64(b[8..16]) == h.dstCID &&
      Field32(b[16..20]) == h.srcPort && Field32(b[20..24]) == h.dstPort
  {
    hide LittleEndian, FromLittleEndian;
    Pow256Widths();
    LittleEndianValue(8, h.srcCID);
    LittleEndianValue(8, h.dstCID);
    LittleEndianValue(4, h.srcPort);
    LittleEndianValue(4, h.dstPort);
    var b := EncodeAddresses(h);
    assert b[0..8] == LittleEndian(8, h.srcCID);
    assert b[8..16] == LittleEndian(8, h.dstCID);
    assert b[16..20] == LittleEndian(4, h.srcPort);
    assert b[20..24] == LittleEndian(4, h.dstPort);
  }

  lemma DescriptionFields(h: Header)
    ensures
      var b := EncodeDescription(h);
      Field32(b[0..4]) == h.len && Field16(b[4..6]) == h.typ && Field16(b[6..8]) == h.op
  {
    Pow256Widths();
    LittleEndianValue(4, h.len);
    LittleEndianValue(2, h.typ);
    LittleEndianValue(2, h.op);
    var b := EncodeDescription(h);
    assert b[0..4] == LittleEndian(4, h.len);
    assert b[4..6] == LittleEndian(2, h.typ);
    assert b[6..8] == LittleEndian(2, h.op);
  }

  lemma CreditFields(h: Header)
    ensures
      var b := EncodeCredit(h);
      Field32(b[0..4]) == h.flags && Field32(b[4..8]) == h.bufAlloc && Field32(b[8..12]) == h.fwdCnt
  {
    Pow256Widths();
    LittleEndianValue(4, h.flags);
    LittleEndianValue(4, h.bufAlloc);
    LittleEndianValue(4, h.fwdCnt);
    var b := EncodeCredit(h);
    assert b[0..4] == LittleEndian(4, h.flags);
    assert b[4..8] == LittleEndian(4, h.bufAlloc);
    assert b[8..12] == LittleEndian(4, h.fwdCnt);
  }

  /** A slice of a slice, as a slice. */
  lemma Within(b: seq<byte>, lo: nat, hi: nat, i: nat, j: nat)
    requires lo <= hi <= |b| && i <= j <= hi - lo
    ensures b[lo + i..lo + j] == b[lo..hi][i..j]
  {
    assert forall k :: 0 <= k < j - i ==> b[lo..hi][i..j][k] == b[lo + i..lo + j][k];
  }

  lemma HeaderRoundTrip(h: Header)
    ensures DecodeHeader(EncodeHeader(h)) == h
  {
    var b := EncodeHeader(h);
    assert b[0..24] == EncodeAddresses(h);
    assert b[24..32] == EncodeDescription(h);
    assert b[32..44] == EncodeCredit(h);
    AddressFields(h);
    Within(b, 0, 24, 0, 8);
    Within(b, 0, 24, 8, 16);
    Within(b, 0, 24, 16, 20);
    Within(b, 0, 24, 20, 24);
    DescriptionFields(h);
    Within(b, 24, 32, 0, 4);
    Within(b, 24, 32, 4, 6);
    Within(b, 24, 32, 6, 8);
    CreditFields(h);
    Within(b, 32, 44, 0, 4);
    Within(b, 32, 44, 4, 8);
    Within(b, 32, 44, 8, 12);
  }

  lemma HeaderBytes(b: seq<byte>)
    requires |b| == HEADER_SIZE
    ensures EncodeHeader(DecodeHeader(b)) == b
  {
    hide LittleEndian, FromLittleEndian;
    var h := DecodeHeader(b);
    LittleEndianBytes(b[0..8]);
    LittleEndianBytes(b[8..16]);
    LittleEndianBytes(b[16..20]);
    LittleEndianBytes(b[20..24]);
    assert EncodeAddresses(h) == b[0..24];
    LittleEndianBytes(b[24..28]);
    LittleEndianBytes(b[28..30]);
    LittleEndianBytes(b[30..32]);
    assert EncodeDescription(h) == b[24..32];
    LittleEndianBytes(b[32..36]);
    LittleEndianBytes(b[36..40]);
    LittleEndianBytes(b[40..44]);
    assert EncodeCredit(h) == b[32..44];
    assert b == b[0..24] + b[24..32] + b[32..44];
  }

  /** Decoding an encoded packet, for every payload: the length field holds the payload
      length modulo 2^32, and exactly that much of the payload comes back. */
  lemma DecodeEncode(p: Packet)
    ensures
      var n := |p.payload| % W32;
      Decode(Encode(p)) == Ok(Packet(p.header.(len := n), p.payload[..n]))
    ensures |p.payload| < W32 ==>
              Decode(Encode(p)) == Ok(p.(header := p.header.(len := |p.payload|)))
  {
    var n := Wrap32(|p.payload|);
    var h := p.header.(len := n);
    var b := Encode(p);
    HeaderRoundTrip(h);
    assert b[..HEADER_SIZE] == EncodeHeader(h);
    assert b[HEADER_SIZE..HEADER_SIZE + n] == p.payload[..n];
    if |p.payload| < W32 {
      assert p.payload[..n] == p.payload;
    }
  }

  /** Re-encoding an accepted packet reproduces the bytes that were read. */
  lemma EncodeDecode(b: seq<byte>)
    requires Decode(b).Ok?
    ensures
      var p := Decode(b).value;
      p.header.len == |p.payload| && HEADER_SIZE + p.header.len <= |b| &&
      Encode(p) == b[..HEADER_SIZE + p.header.len]
  {
    var p := Decode(b).value;
    HeaderBytes(b[..HEADER_SIZE]);
    assert p.header.(len := Wrap32(|p.payload|)) == p.header;
    assert b[..HEADER_SIZE + p.header.len] == b[..HEADER_SIZE] + p.payload;
  }

  // ------------------------------------------------------------------------- layout

  /** The n bytes from at on, as a number with the least significant byte first. */
  function Number(b: seq<byte>, at: nat, n: nat): nat
    requires at + n <= |b|
    decreases n
  {
    if n == 0 then 0 else b[at] + 0x100 * Number(b, at + 1, n - 1)
  }

  lemma {:induction false} NumberIs(b: seq<byte>, at: nat, n: nat)
    requires at + n <= |b|
    ensures FromLittleEndian(b[at..at + n]) == Number(b, at, n)
    decreases n
  {
    if n > 0 {
      NumberIs(b, at + 1, n - 1);
      assert b[at..at + n][1..] == b[at + 1..at + n];
    }
  }

  /** Where each field of the header stands, and how wide it is. */
  lemma HeaderLayout(b: seq<byte>)
    requires |b| == 44
    ensures
      var h := DecodeHeader(b);
      && h.srcCID == Number(b, 0, 8) && h.dstCID == Number(b, 8, 8)
      && h.srcPort == Number(b, 16, 4) && h.dstPort == Number(b, 20, 4)
      && h.len == Number(b, 24, 4) && h.typ == Number(b, 28, 2) && h.op == Number(b, 30, 2)
      && h.flags == Number(b, 32, 4) && h.bufAlloc == Number(b, 36, 4) && h.fwdCnt == Number(b, 40, 4)
  {
    hide Number, FromLittleEndian;
    NumberIs(b, 0, 8);
    NumberIs(b, 8, 8);
    NumberIs(b, 16, 4);
    NumberIs(b, 20, 4);
    NumberIs(b, 24, 4);
    NumberIs(b, 28, 2);
    NumberIs(b, 30, 2);
    NumberIs(b, 32, 4);
    NumberIs(b, 36, 4);
    NumberIs(b, 40, 4);
  }

  lemma {:induction false} NumberFront(b: seq<byte>, m: nat, at: nat, n: nat)
    requires at + n <= m <= |b|
    ensures Number(b[..m], at, n) == Number(b, at, n)
    decreases n
  {
    if n > 0 { NumberFront(b, m, at + 1, n - 1); }
  }

  /** A packet is accepted exactly when it has a header and all the payload that this declares;
      bytes behind that are ignored. */
  lemma DecodesExactly(packet: seq<byte>)
    ensures Decode(packet).Ok? <==> |packet| >= 44 && 44 + Number(packet, 24, 4) <= |packet|
    ensures Decode(packet).Ok? ==>
              && Decode(packet).value.header == DecodeHeader(packet[..44])
              && Decode(packet).value.payload == packet[44..44 + Number(packet, 24, 4)]
  {
    if |packet| >= 44 {
      HeaderLayout(packet[..44]);
      NumberFront(packet, 44, 24, 4);
    }
    hide Number, DecodeHeader;
  }
}
