/** The Ethernet frames of the DHCP client: the ones it builds (RFC 2131 section 3.1) and the
    server frames it parses. */
module Frames {
  import opened Bytes
  import opened Buffers
  import opened Options
  import opened Checksums

  const BOOTP_FIXED_LENGTH := 236
  const DHCP_MIN_LENGTH := 300
  const CLIENT_PORT: u16 := 68
  const SERVER_PORT: u16 := 67

  const DISCOVER: byte := 1
  const OFFER: byte := 2
  const REQUEST: byte := 3
  const ACK: byte := 5
  const NAK: byte := 6

  function Cookie(): seq<byte> { [99, 130, 83, 99] }

  /** netip.Addr: the zero Addr, an IPv4 or an IPv6 address. */
  datatype Addr = NoAddr | V4(bytes: seq<byte>) | V6(bits: seq<byte>)

  type Mac = m: seq<byte> | |m| == 6 witness [0, 0, 0, 0, 0, 0]

  function Addr4(data: seq<byte>): Addr {
    if |data| < 4 then NoAddr else V4(data[..4])
  }

  /** Is4(), which in Go implies four bytes. */
  predicate Is4(a: Addr) { a.V4? && |a.bytes| == 4 }

  // -------------------------------------------------------------- building a frame

  /** The fixed BOOTP part of the payload with the magic cookie behind it. */
  function ClientFixed(mac: Mac, xid: u32): (s: seq<byte>)
    ensures |s| == DHCP_MIN_LENGTH
  {
    Splice(Splice(Splice(Splice(Splice(Zeros(DHCP_MIN_LENGTH), 0, [1, 1, 6]),
      4, BigEndian32(xid)), 10, BigEndian16(0x8000)), 28, mac), BOOTP_FIXED_LENGTH, Cookie())
  }

  /** The options in the order in which the client appends them. */
  function ClientOptions(mac: Mac, messageType: byte, requested: Addr, server: Addr, hostname: seq<byte>): seq<Opt> {
    [Opt(53, [messageType]), Opt(61, [1] + mac)]
    + (if messageType == REQUEST && Is4(requested) then [Opt(50, requested.bytes)] else [])
    + (if messageType == REQUEST && Is4(server) then [Opt(54, server.bytes)] else [])
    + (if hostname != [] then [Opt(12, if |hostname| > 63 then hostname[..63] else hostname)] else [])
    + [Opt(55, [1, 3, 6, 15, 51, 54]), Opt(57, [0x05, 0xdc])]
  }

  function ClientArea(mac: Mac, xid: u32, messageType: byte, requested: Addr, server: Addr,
      hostname: seq<byte>): (r: (seq<byte>, nat))
    ensures |r.0| == DHCP_MIN_LENGTH - BOOTP_FIXED_LENGTH - 4
  {
    AppendAll(ClientFixed(mac, xid)[BOOTP_FIXED_LENGTH + 4..], 0,
        ClientOptions(mac, messageType, requested, server, hostname))
  }

  lemma AreaEnds(mac: Mac, xid: u32, messageType: byte, requested: Addr, server: Addr, hostname: seq<byte>)
    ensures
      var r := ClientArea(mac, xid, messageType, requested, server, hostname);
      r.1 < |r.0|
  {
    hide Splice;
    AppendAllIs(ClientFixed(mac, xid)[BOOTP_FIXED_LENGTH + 4..], 0,
        ClientOptions(mac, messageType, requested, server, hostname));
  }

  function ClientPayload(mac: Mac, xid: u32, messageType: byte, requested: Addr, server: Addr,
      hostname: seq<byte>): (s: seq<byte>)
    ensures |s| == DHCP_MIN_LENGTH
  {
    AreaEnds(mac, xid, messageType, requested, server, hostname);
    var r := ClientArea(mac, xid, messageType, requested, server, hostname);
    ClientFixed(mac, xid)[..BOOTP_FIXED_LENGTH + 4] + r.0[r.1 := END]
  }

  function IpHeaderBeforeChecksum(xid: u32, length: u16): (s: seq<byte>)
    ensures |s| == 20
  {
    Splice(Splice(Splice(Splice(Splice(Zeros(20), 0, [0x45]), 8, [64, 17]),
      2, BigEndian16(length)), 4, BigEndian16(Wrap16(xid))), 16, [255, 255, 255, 255])
  }

  function IpHeader(xid: u32, length: u16): (s: seq<byte>)
    ensures |s| == 20
  {
    var h := IpHeaderBeforeChecksum(xid, length);
    Splice(h, 10, BigEndian16(Checksum(h)))
  }

  function UdpHeader(source: u16, destination: u16, length: u16): (s: seq<byte>)
    ensures |s| == 8
  {
    BigEndian16(source) + BigEndian16(destination) + BigEndian16(length) + [0, 0]
  }

  function ClientFrame(mac: Mac, xid: u32, messageType: byte, requested: Addr, server: Addr,
      hostname: seq<byte>): (s: seq<byte>)
    ensures |s| == 342
  {
    [255, 255, 255, 255, 255, 255] + mac + BigEndian16(0x0800)
    + IpHeader(xid, 328) + UdpHeader(CLIENT_PORT, SERVER_PORT, 308)
    + ClientPayload(mac, xid, messageType, requested, server, hostname)
  }

  /** The payload part of buildClientFrame. */
  method BuildPayload(mac: Mac, xid: u32, messageType: byte, requested: Addr, server: Addr, hostname: seq<byte>)
    returns (payload: array<byte>)
    ensures fresh(payload) && payload[..] == ClientPayload(mac, xid, messageType, requested, server, hostname)
  {
    hide Splice, Append, AppendAll, Zeros, BigEndian32, BigEndian16;
    payload := new byte[DHCP_MIN_LENGTH](i => 0);
    ZeroArray(payload);
    Copy(payload, 0, [1, 1, 6]);
    Copy(payload, 4, BigEndian32(xid));
    Copy(payload, 10, BigEndian16(0x8000));
    Copy(payload, 28, mac);
    Copy(payload, BOOTP_FIXED_LENGTH, Cookie());
    ghost var fixed := payload[..];
    assert fixed == ClientFixed(mac, xid);
    var base := BOOTP_FIXED_LENGTH + 4;
    assert payload[..base] == fixed[..base] && payload[base..] == fixed[base..];
    var pos := AppendAllOptions(payload, base, ClientOptions(mac, messageType, requested, server, hostname));
    AreaEnds(mac, xid, messageType, requested, server, hostname);
    payload[base + pos] := END;
    ghost var r := ClientArea(mac, xid, messageType, requested, server, hostname);
    assert payload[base..] == r.0[r.1 := END];
    assert payload[..] == payload[..base] + payload[base..];
  }

  lemma ZeroArray(a: array<byte>)
    requires forall i :: 0 <= i < a.Length ==> a[i] == 0
    ensures a[..] == Zeros(a.Length)
  {
  }

  /** The calls of appendOption, one behind the other. */
  method AppendAllOptions(buffer: array<byte>, base: nat, opts: seq<Opt>) returns (pos: nat)
    requires base <= buffer.Length
    modifies buffer
    ensures
      var r := AppendAll(old(buffer[base..]), 0, opts);
      buffer[..base] == old(buffer[..base]) && buffer[base..] == r.0 && pos == r.1
  {
    hide Append;
    pos := 0;
    assert opts[0..] == opts;
    for i := 0 to |opts|
      invariant buffer[..base] == old(buffer[..base])
      invariant AppendAll(buffer[base..], pos, opts[i..]) == AppendAll(old(buffer[base..]), 0, opts)
    {
      assert opts[i..][0] == opts[i] && opts[i..][1..] == opts[i + 1..];
      pos := AppendOption(buffer, base, pos, opts[i].code, opts[i].value);
    }
  }

  /** The IP header, written in place into the frame. */
  method FillIpHeader(frame: array<byte>, xid: u32, length: u16)
    requires frame.Length >= 34 && frame[14..34] == Zeros(20)
    modifies frame
    ensures frame[..] == Splice(old(frame[..]), 14, IpHeader(xid, length))
  {
    hide Splice, Zeros, Checksum, BigEndian16;
    ghost var before := frame[..];
    assert frame[14..34] == before[14..34];
    SpliceSame(before, 14, 20);
    ghost var h := Zeros(20);
    Copy(frame, 14, [0x45]);
    SpliceInside(before, 14, h, 0, [0x45]);
    h := Splice(h, 0, [0x45]);
    Copy(frame, 22, [64, 17]);
    SpliceInside(before, 14, h, 8, [64, 17]);
    h := Splice(h, 8, [64, 17]);
    Copy(frame, 16, BigEndian16(length));
    SpliceInside(before, 14, h, 2, BigEndian16(length));
    h := Splice(h, 2, BigEndian16(length));
    Copy(frame, 18, BigEndian16(Wrap16(xid)));
    SpliceInside(before, 14, h, 4, BigEndian16(Wrap16(xid)));
    h := Splice(h, 4, BigEndian16(Wrap16(xid)));
    Copy(frame, 30, [255, 255, 255, 255]);
    SpliceInside(before, 14, h, 16, [255, 255, 255, 255]);
    h := Splice(h, 16, [255, 255, 255, 255]);
    assert h == IpHeaderBeforeChecksum(xid, length);
    SpliceAt(before, 14, h);
    assert frame[14..34] == frame[..][14..34];
    var c := InternetChecksum(frame[14..34]);
    Copy(frame, 24, BigEndian16(c));
    SpliceInside(before, 14, h, 10, BigEndian16(c));
  }

  lemma FourParts(s: seq<byte>, a: seq<byte>, b: seq<byte>, c: seq<byte>, d: seq<byte>)
    requires |s| == |a| + |b| + |c| + |d|
    ensures Splice(Splice(Splice(Splice(s, 0, a), |a|, b), |a| + |b|, c), |a| + |b| + |c|, d) == a + b + c + d
  {
    SpliceTwice(s, 0, a, b);
    SpliceTwice(s, 0, a + b, c);
    SpliceTwice(s, 0, a + b + c, d);
  }

  method BuildClientFrame(mac: Mac, xid: u32, messageType: byte, requested: Addr, server: Addr, hostname: seq<byte>)
    returns (frame: array<byte>)
    ensures fresh(frame) && frame[..] == ClientFrame(mac, xid, messageType, requested, server, hostname)
  {
    hide Splice, Zeros, Checksum, BigEndian16, IpHeader, ClientPayload;
    var payload := BuildPayload(mac, xid, messageType, requested, server, hostname);
    var udpLen: u16 := 8 + payload.Length;
    var ipLen: u16 := 20 + udpLen;
    frame := new byte[14 + ipLen](i => 0);
    ZeroArray(frame);
    var ethernet := [255, 255, 255, 255, 255, 255] + mac + BigEndian16(0x0800);
    Copy(frame, 0, ethernet);
    ghost var zeros := Zeros(342);
    SpliceElsewhere(zeros, 0, ethernet, 14, 34);
    ZeroSlice(342, 14, 34);
    assert frame[14..34] == frame[..][14..34];
    FillIpHeader(frame, xid, ipLen);
    Copy(frame, 34, UdpHeader(CLIENT_PORT, SERVER_PORT, udpLen));
    Copy(frame, 42, payload[..]);
    FourParts(zeros, ethernet, IpHeader(xid, ipLen), UdpHeader(CLIENT_PORT, SERVER_PORT, udpLen), payload[..]);
  }

  lemma ZeroSlice(n: nat, i: nat, j: nat)
    requires i <= j <= n
    ensures Zeros(n)[i..j] == Zeros(j - i)
  {
  }
}
