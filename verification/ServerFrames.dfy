/** Parsing of DHCP server frames, and the fact that it inverts the wire layout. */
module ServerFrames {
  import opened Bytes
  import opened Seqs
  import opened Options
  import opened Frames

  /** The fields of a server message; the mask has four bytes, the lease is in nanoseconds. */
  datatype Message = Message(
    messageType: byte, address: Addr, server: Addr, mask: seq<byte>, router: Addr, dns: seq<Addr>, lease: nat)

  datatype Reply = Reply(message: Message, xid: u32, mac: seq<byte>)

  const SECOND: nat := 1_000_000_000

  function Value(options: OptionMap, code: byte): seq<byte> {
    if code in options then options[code] else []
  }

  /** The complete four-byte addresses at the front of v. */
  function Addresses(v: seq<byte>): (dns: seq<Addr>)
    ensures |dns| == |v| / 4
  {
    if |v| < 4 then [] else [V4(v[..4])] + Addresses(v[4..])
  }

  /** What the options say, on top of the addresses in the fixed part. */
  function Interpret(fixedAddress: seq<byte>, fixedServer: seq<byte>, options: OptionMap): Message
    requires |fixedAddress| == 4 && |fixedServer| == 4
  {
    Message(
      if |Value(options, 53)| == 1 then Value(options, 53)[0] else 0,
      V4(fixedAddress),
      if |Value(options, 54)| == 4 then V4(Value(options, 54)) else V4(fixedServer),
      if |Value(options, 1)| == 4 then Value(options, 1) else [0, 0, 0, 0],
      if |Value(options, 3)| >= 4 then V4(Value(options, 3)[..4]) else NoAddr,
      Addresses(Value(options, 6)),
      if |Value(options, 51)| == 4 then FromBigEndian32(Value(options, 51)) * SECOND else 0)
  }

  predicate HasIpHeader(ip: seq<byte>) {
    |ip| > 9 && (ip[0] as int) / 16 == 4 && HeaderLength(ip) >= 20 && |ip| >= HeaderLength(ip) + 8 && ip[9] == 17
  }

  function HeaderLength(ip: seq<byte>): nat
    requires |ip| > 0
  {
    (ip[0] as int) % 16 * 4
  }

  predicate IsBootReply(payload: seq<byte>)
    requires |payload| >= 240
  {
    payload[0] == 2 && payload[1] == 1 && payload[2] == 6 && payload[236..240] == Cookie()
  }

  /** The checks that do not concern the options, and the BOOTP payload that passes them. */
  function Payload(frame: seq<byte>): (p: Option<seq<byte>>)
    ensures p.Some? ==> |p.value| >= 240 && IsBootReply(p.value)
  {
    if |frame| < 14 + 20 + 8 + 240 || FromBigEndian16(frame[12..14]) != 0x0800 then None
    else
      var ip := frame[14..];
      if !HasIpHeader(ip) then None
      else
        var udp := ip[HeaderLength(ip)..];
        if FromBigEndian16(udp[0..2]) != SERVER_PORT || FromBigEndian16(udp[2..4]) != CLIENT_PORT then None
        else
          var length := FromBigEndian16(udp[4..6]);
          if length < 8 + 240 || length > |udp| then None
          else if IsBootReply(udp[8..length]) then Some(udp[8..length])
          else None
  }

  function Read(payload: seq<byte>): Result<Reply>
    requires |payload| >= 240
  {
    match Parse(payload[240..], map[])
    case Error => Error
    case Ok(options) =>
      Ok(Reply(Interpret(payload[16..20], payload[20..24], options),
               FromBigEndian32(payload[4..8]), payload[28..34]))
  }

  function ServerFrame(frame: seq<byte>): Result<Reply> {
    match Payload(frame)
    case None => Error
    case Some(payload) => Read(payload)
  }

  /** parseServerFrame; every index is in bounds on every input. */
  method ParseServerFrame(frame: seq<byte>) returns (reply: Result<Reply>)
    ensures reply == ServerFrame(frame)
  {
    hide Parse, FromBigEndian32;
    if |frame| < 14 + 20 + 8 + BOOTP_FIXED_LENGTH + 4 || FromBigEndian16(frame[12..14]) != 0x0800 {
      return Error;
    }
    var ip := frame[14..];
    var ihl := (ip[0] as int) % 16 * 4;
    if (ip[0] as int) / 16 != 4 || ihl < 20 || |ip| < ihl + 8 || ip[9] != 17 {
      return Error;
    }
    var udp := ip[ihl..];
    if FromBigEndian16(udp[0..2]) != SERVER_PORT || FromBigEndian16(udp[2..4]) != CLIENT_PORT {
      return Error;
    }
    var udpLen := FromBigEndian16(udp[4..6]);
    if udpLen < 8 + BOOTP_FIXED_LENGTH + 4 || udpLen > |udp| {
      return Error;
    }
    var payload := udp[8..udpLen];
    if payload[0] != 2 || payload[1] != 1 || payload[2] != 6 || payload[236..240] != Cookie() {
      return Error;
    }
    var parsed := ParseOptions(payload[240..]);
    if parsed.Error? {
      return Error;
    }
    var options := parsed.value;
    var message := Message(0, Addr4(payload[16..20]), Addr4(payload[20..24]), [0, 0, 0, 0], NoAddr, [], 0);
    if |Value(options, 53)| == 1 {
      message := message.(messageType := Value(options, 53)[0]);
    }
    if |Value(options, 54)| == 4 {
      message := message.(server := Addr4(Value(options, 54)));
    }
    if |Value(options, 1)| == 4 {
      message := message.(mask := Value(options, 1));
    }
    if |Value(options, 3)| >= 4 {
      message := message.(router := Addr4(Value(options, 3)[..4]));
    }
    var dns := ReadAddresses(Value(options, 6));
    message := message.(dns := dns);
    if |Value(options, 51)| == 4 {
      message := message.(lease := FromBigEndian32(Value(options, 51)) * SECOND);
    }
    WholeSlices(Value(options, 54), Value(options, 3), payload[16..20], payload[20..24]);
    return Ok(Reply(message, FromBigEndian32(payload[4..8]), payload[28..34]));
  }

  lemma WholeSlices(a: seq<byte>, b: seq<byte>, c: seq<byte>, d: seq<byte>)
    ensures |a| == 4 ==> a[..4] == a
    ensures |b| >= 4 ==> b[..4][..4] == b[..4]
    ensures |c| == 4 ==> c[..4] == c
    ensures |d| == 4 ==> d[..4] == d
  {
  }

  /** The loop over the DNS option. */
  method ReadAddresses(value: seq<byte>) returns (dns: seq<Addr>)
    ensures dns == Addresses(value)
  {
    dns := [];
    var v := value;
    while |v| >= 4
      invariant dns + Addresses(v) == Addresses(value)
      decreases |v|
    {
      assert Addr4(v[..4]) == V4(v[..4]) by { assert v[..4][..4] == v[..4]; }
      Assoc(dns, [V4(v[..4])], Addresses(v[4..]));
      dns := dns + [Addr4(v[..4])];
      v := v[4..];
    }
    Empty(dns);
  }

  // ------------------------------------------------------------- the wire layout

  /** A UDP datagram of a server, and what follows it on the wire. */
  function Udp(udpChecksum: seq<byte>, payload: seq<byte>, padding: seq<byte>): seq<byte>
    requires 8 + |payload| < W16
  {
    BigEndian16(SERVER_PORT) + BigEndian16(CLIENT_PORT) + BigEndian16(8 + |payload|) + udpChecksum + payload + padding
  }

  /** A server frame: 12 bytes of Ethernet addresses, an IP header of 20 to 60 bytes whose
      options are arbitrary, a UDP header, the BOOTP part, options, and trailing padding. */
  function Frame(ethernet: seq<byte>, ip: seq<byte>, udpChecksum: seq<byte>, payload: seq<byte>,
      padding: seq<byte>): seq<byte>
    requires 8 + |payload| < W16
  {
    ethernet + BigEndian16(0x0800) + ip + Udp(udpChecksum, payload, padding)
  }

  lemma UdpFields(udpChecksum: seq<byte>, payload: seq<byte>, padding: seq<byte>)
    requires |udpChecksum| == 2 && 8 + |payload| < W16
    ensures
      var u := Udp(udpChecksum, payload, padding);
      && |u| >= 8 + |payload| && u[8..8 + |payload|] == payload
      && u[0..2] == BigEndian16(SERVER_PORT) && u[2..4] == BigEndian16(CLIENT_PORT)
          && u[4..6] == BigEndian16(8 + |payload|)
  {
    hide BigEndian16;
  }

  lemma FrameFields(ethernet: seq<byte>, ip: seq<byte>, rest: seq<byte>)
    requires |ethernet| == 12 && |ip| >= 20
    ensures
      var f := ethernet + BigEndian16(0x0800) + ip + rest;
      && |f| == 14 + |ip| + |rest| && f[12..14] == BigEndian16(0x0800)
      && f[14..] == ip + rest && f[14..][|ip|..] == rest && f[14..][0] == ip[0] && f[14..][9] == ip[9]
  {
    hide BigEndian16;
  }

  lemma Decimal16(v: u16)
    ensures FromBigEndian16(BigEndian16(v)) == v
  {
  }

  /** The payload comes back out of the frame, for every IP header length and every padding. */
  lemma PayloadOfFrame(ethernet: seq<byte>, ip: seq<byte>, udpChecksum: seq<byte>, payload: seq<byte>,
      padding: seq<byte>)
    requires |ethernet| == 12 && |udpChecksum| == 2
    requires 20 <= |ip| <= 60 && |ip| % 4 == 0 && ip[0] == 0x40 + |ip| / 4 && ip[9] == 17
    requires 240 <= |payload| && 8 + |payload| < W16 && IsBootReply(payload)
    ensures Payload(Frame(ethernet, ip, udpChecksum, payload, padding)) == Some(payload)
  {
    hide BigEndian16, FromBigEndian16, Udp, IsBootReply;
    Decimal16(0x0800);
    Decimal16(SERVER_PORT);
    Decimal16(CLIENT_PORT);
    Decimal16(8 + |payload|);
    UdpFields(udpChecksum, payload, padding);
    FrameFields(ethernet, ip, Udp(udpChecksum, payload, padding));
  }

  /** Parsing inverts the layout: the fixed fields and the last value of every option come back
      exactly, whatever the IP options, the checksum field, the bytes behind the end marker and
      the padding behind the UDP datagram. */
  lemma ServerFrameRoundTrip(
    ethernet: seq<byte>, ip: seq<byte>, udpChecksum: seq<byte>, fixed: seq<byte>, opts: seq<Opt>, rest: seq<byte>,
        padding: seq<byte>)
    requires |ethernet| == 12 && |udpChecksum| == 2
    requires 20 <= |ip| <= 60 && |ip| % 4 == 0 && ip[0] == 0x40 + |ip| / 4 && ip[9] == 17
    requires |fixed| == 240 && IsBootReply(fixed)
    requires Encodable(opts) && Plain(opts)
    requires 8 + 240 + |Encode(opts)| + 1 + |rest| < W16
    ensures
      var payload := fixed + Encode(opts) + [END] + rest;
      ServerFrame(Frame(ethernet, ip, udpChecksum, payload, padding)) ==
        Ok(Reply(Interpret(fixed[16..20], fixed[20..24], LastValues(map[], opts)),
                 FromBigEndian32(fixed[4..8]), fixed[28..34]))
  {
    hide Parse, FromBigEndian32, Interpret, LastValues, Frame, Encode;
    var area := Encode(opts) + [END] + rest;
    var payload := fixed + Encode(opts) + [END] + rest;
    assert payload == fixed + area;
    assert payload[240..] == area;
    SameFront(fixed, area);
    PayloadOfFrame(ethernet, ip, udpChecksum, payload, padding);
    ParseEncoded(opts, rest, map[]);
  }

  lemma SameFront(fixed: seq<byte>, area: seq<byte>)
    requires |fixed| == 240
    ensures
      var p := fixed + area;
      && p[0] == fixed[0] && p[1] == fixed[1] && p[2] == fixed[2]
      && p[236..240] == fixed[236..240] && p[16..20] == fixed[16..20] && p[20..24] == fixed[20..24]
      && p[4..8] == fixed[4..8] && p[28..34] == fixed[28..34]
  {
  }

  /** Bytes past the UDP length have no influence on a frame that is accepted. */
  lemma PaddingIgnored(frame: seq<byte>, padding: seq<byte>)
    requires ServerFrame(frame).Ok?
    ensures ServerFrame(frame + padding) == ServerFrame(frame)
  {
    hide Parse, FromBigEndian16, Read;
    var long := frame + padding;
    assert long[12..14] == frame[12..14];
    var ip := frame[14..];
    assert long[14..] == ip + padding;
    var n := HeaderLength(ip);
    var udp := ip[n..];
    assert long[14..][n..] == udp + padding;
    assert (udp + padding)[0..2] == udp[0..2] && (udp + padding)[2..4] == udp[2..4]
        && (udp + padding)[4..6] == udp[4..6];
    var length := FromBigEndian16(udp[4..6]);
    assert (udp + padding)[8..length] == udp[8..length];
  }

  /** Every accepted message names a server: without option 54, and even with a malformed one,
      the fixed field stands in, which may be 0.0.0.0. The client's check for an offer without
      a server therefore never fires. */
  lemma ServerNeverMissing(frame: seq<byte>)
    requires ServerFrame(frame).Ok?
    ensures Is4(ServerFrame(frame).value.message.server) && Is4(ServerFrame(frame).value.message.address)
  {
    hide Payload, Addresses;
  }

  /** The i-th group of four bytes, as an address. */
  function Group(v: seq<byte>, i: nat): Addr
    requires 4 * i + 4 <= |v|
  {
    V4(v[4 * i..4 * i + 4])
  }

  /** The i-th address of an option is its i-th group of four bytes. */
  lemma {:induction false} AddressAt(v: seq<byte>, i: nat)
    requires 4 * i + 4 <= |v|
    ensures Addresses(v)[i] == Group(v, i)
  {
    if i > 0 {
      AddressAt(v[4..], i - 1);
      assert v[4..][4 * (i - 1)..4 * (i - 1) + 4] == v[4 * i..4 * i + 4];
    }
  }

  // --------------------------------------------------------- what the options mean

  predicate Mentions(opts: seq<Opt>, code: byte) {
    exists i :: 0 <= i < |opts| && opts[i].code == code
  }

  /** The last option with this code has value v. */
  predicate Says(opts: seq<Opt>, code: byte, v: seq<byte>) {
    exists i :: 0 <= i < |opts| && opts[i] == Opt(code, v) && forall j :: i < j < |opts| ==> opts[j].code != code
  }

  lemma ValueOf(opts: seq<Opt>, code: byte, v: seq<byte>)
    ensures Says(opts, code, v) ==> Value(LastValues(map[], opts), code) == v
    ensures !Mentions(opts, code) ==> Value(LastValues(map[], opts), code) == []
  {
    LastValuesMeaning(map[], opts, code);
  }

  /** How the message type, the server, the mask and the first router are understood: from the
      last option of their code, whatever else there is and in whatever order. */
  lemma AddressesUnderstood(address: seq<byte>, server: seq<byte>, opts: seq<Opt>, v: seq<byte>)
    requires |address| == 4 && |server| == 4
    ensures
      var m := Interpret(address, server, LastValues(map[], opts));
      && (Says(opts, 53, v) ==> m.messageType == if |v| == 1 then v[0] else 0)
      && (!Mentions(opts, 53) ==> m.messageType == 0)
      && (Says(opts, 54, v) ==> m.server == V4(if |v| == 4 then v else server))
      && (!Mentions(opts, 54) ==> m.server == V4(server))
      && (Says(opts, 1, v) ==> m.mask == if |v| == 4 then v else [0, 0, 0, 0])
      && (!Mentions(opts, 1) ==> m.mask == [0, 0, 0, 0])
      && (Says(opts, 3, v) ==> m.router == if |v| >= 4 then V4(v[..4]) else NoAddr)
      && (!Mentions(opts, 3) ==> m.router == NoAddr)
      && m.address == V4(address)
  {
    ValueOf(opts, 53, v);
    ValueOf(opts, 54, v);
    ValueOf(opts, 1, v);
    ValueOf(opts, 3, v);
    hide LastValues, Addresses, FromBigEndian32, Says, Mentions;
  }

  /** How the name servers and the lease time are understood. */
  lemma TimesUnderstood(address: seq<byte>, server: seq<byte>, opts: seq<Opt>, v: seq<byte>, seconds: u32)
    requires |address| == 4 && |server| == 4
    ensures
      var m := Interpret(address, server, LastValues(map[], opts));
      && (Says(opts, 6, v) ==> |m.dns| == |v| / 4 && forall i :: 0 <= i < |v| / 4 ==> m.dns[i] == Group(v, i))
      && (!Mentions(opts, 6) ==> m.dns == [])
      && (Says(opts, 51, BigEndian32(seconds)) ==> m.lease == seconds * SECOND)
      && ((Says(opts, 51, v) && |v| != 4) || !Mentions(opts, 51) ==> m.lease == 0)
  {
    ValueOf(opts, 6, v);
    ValueOf(opts, 51, v);
    ValueOf(opts, 51, BigEndian32(seconds));
    BigEndian32Value(seconds);
    hide LastValues, FromBigEndian32, BigEndian32, Says, Mentions;
    forall i | 0 <= i < |v| / 4 ensures Addresses(v)[i] == Group(v, i) {
      AddressAt(v, i);
    }
  }

  /** What a server says is what the client understands: in a frame with any options, in any
      order and number, every field of the message has the meaning of the last option with its
      code, or its default where there is none or its length is wrong. */
  lemma FrameUnderstood(
    ethernet: seq<byte>, ip: seq<byte>, udpChecksum: seq<byte>, fixed: seq<byte>, opts: seq<Opt>, rest: seq<byte>,
    padding: seq<byte>, v: seq<byte>, seconds: u32)
    requires |ethernet| == 12 && |udpChecksum| == 2
    requires 20 <= |ip| <= 60 && |ip| % 4 == 0 && ip[0] == 0x40 + |ip| / 4 && ip[9] == 17
    requires |fixed| == 240 && IsBootReply(fixed)
    requires Encodable(opts) && Plain(opts)
    requires 8 + 240 + |Encode(opts)| + 1 + |rest| < W16
    ensures
      var frame := Frame(ethernet, ip, udpChecksum, fixed + Encode(opts) + [END] + rest, padding);
      ServerFrame(frame).Ok?
      && var m := ServerFrame(frame).value.message;
         && m.address == V4(fixed[16..20])
         && (Says(opts, 53, v) ==> m.messageType == if |v| == 1 then v[0] else 0)
         && (!Mentions(opts, 53) ==> m.messageType == 0)
         && (Says(opts, 54, v) ==> m.server == V4(if |v| == 4 then v else fixed[20..24]))
         && (!Mentions(opts, 54) ==> m.server == V4(fixed[20..24]))
         && (Says(opts, 1, v) ==> m.mask == if |v| == 4 then v else [0, 0, 0, 0])
         && (!Mentions(opts, 1) ==> m.mask == [0, 0, 0, 0])
         && (Says(opts, 3, v) ==> m.router == if |v| >= 4 then V4(v[..4]) else NoAddr)
         && (!Mentions(opts, 3) ==> m.router == NoAddr)
         && (Says(opts, 6, v) ==> |m.dns| == |v| / 4 && forall i :: 0 <= i < |v| / 4 ==> m.dns[i] == Group(v, i))
         && (!Mentions(opts, 6) ==> m.dns == [])
         && (Says(opts, 51, BigEndian32(seconds)) ==> m.lease == seconds * SECOND)
         && ((Says(opts, 51, v) && |v| != 4) || !Mentions(opts, 51) ==> m.lease == 0)
  {
    ServerFrameRoundTrip(ethernet, ip, udpChecksum, fixed, opts, rest, padding);
    AddressesUnderstood(fixed[16..20], fixed[20..24], opts, v);
    TimesUnderstood(fixed[16..20], fixed[20..24], opts, v, seconds);
    hide ServerFrame, Frame, Encode, Says, Mentions, Interpret, LastValues;
  }

  // ------------------------------------------------------------ which frames are accepted

  /** The big-endian number in the two bytes at i. */
  function Pair(frame: seq<byte>, i: nat): nat
    requires i + 2 <= |frame|
  {
    (frame[i] as int) * 0x100 + frame[i + 1] as int
  }

  /** The length of the IP header that a frame declares. */
  function IpLength(frame: seq<byte>): nat
    requires |frame| > 14
  {
    (frame[14] as int) % 16 * 4
  }

  /** Ethernet carries IPv4 with at least five words of header, that carries UDP, and there is
      room for the UDP header. */
  predicate IsUdp(frame: seq<byte>) {
    && |frame| >= 282 && frame[12] == 8 && frame[13] == 0
    && (frame[14] as int) / 16 == 4 && IpLength(frame) >= 20 && frame[23] == 17
    && 14 + IpLength(frame) + 8 <= |frame|
  }

  /** UDP goes from port 67 to port 68, and its length covers the fixed part of the message and
      nothing beyond the frame. */
  predicate IsDhcp(frame: seq<byte>)
    requires IsUdp(frame)
  {
    var u := 14 + IpLength(frame);
    Pair(frame, u) == 67 && Pair(frame, u + 2) == 68 && 248 <= Pair(frame, u + 4) <= |frame| - u
  }

  /** The message is a reply for Ethernet with the magic cookie. */
  predicate IsReply(frame: seq<byte>)
    requires IsUdp(frame) && IsDhcp(frame)
  {
    var p := 14 + IpLength(frame) + 8;
    && frame[p] == 2 && frame[p + 1] == 1 && frame[p + 2] == 6
    && frame[p + 236] == 99 && frame[p + 237] == 130 && frame[p + 238] == 83 && frame[p + 239] == 99
  }

  lemma PairIs(frame: seq<byte>, i: nat, s: seq<byte>, j: nat)
    requires j + 2 <= |s| && i + 2 <= |frame| && s[j] == frame[i] && s[j + 1] == frame[i + 1]
    ensures FromBigEndian16(s[j..j + 2]) == Pair(frame, i)
  {
  }

  lemma BootReplyIs(frame: seq<byte>, p: nat, payload: seq<byte>)
    requires |payload| >= 240 && p + |payload| <= |frame| && payload == frame[p..p + |payload|]
    ensures
      IsBootReply(payload) <==>
      && frame[p] == 2 && frame[p + 1] == 1 && frame[p + 2] == 6
      && frame[p + 236] == 99 && frame[p + 237] == 130 && frame[p + 238] == 83 && frame[p + 239] == 99
  {
    var cookie := payload[236..240];
    assert cookie == [frame[p + 236], frame[p + 237], frame[p + 238], frame[p + 239]];
    assert Cookie()[0] == 99 && Cookie()[1] == 130 && Cookie()[2] == 83 && Cookie()[3] == 99;
  }

  lemma UdpExactly(frame: seq<byte>)
    requires |frame| >= 282
    ensures FromBigEndian16(frame[12..14]) == 0x0800 && HasIpHeader(frame[14..]) <==> IsUdp(frame)
    ensures IsUdp(frame) ==>
              && HeaderLength(frame[14..]) == IpLength(frame)
              && frame[14..][IpLength(frame)..] == frame[14 + IpLength(frame)..]
  {
    PairIs(frame, 12, frame, 12);
    Ipv4Type(frame);
    hide FromBigEndian16, Pair;
  }

  lemma UdpNumbers(frame: seq<byte>, u: nat)
    requires u + 8 <= |frame|
    ensures
      var udp := frame[u..];
      && FromBigEndian16(udp[0..2]) == Pair(frame, u) && FromBigEndian16(udp[2..4]) == Pair(frame, u + 2)
      && FromBigEndian16(udp[4..6]) == Pair(frame, u + 4)
  {
    hide FromBigEndian16, Pair;
    PairIs(frame, u, frame[u..], 0);
    PairIs(frame, u + 2, frame[u..], 2);
    PairIs(frame, u + 4, frame[u..], 4);
  }

  /** The checks on the frame, byte by byte; the payload is what the UDP length covers. */
  lemma PayloadExactly(frame: seq<byte>)
    ensures Payload(frame).Some? <==> IsUdp(frame) && IsDhcp(frame) && IsReply(frame)
    ensures Payload(frame).Some? ==>
              var u := 14 + IpLength(frame);
              Payload(frame) == Some(frame[u + 8..u + Pair(frame, u + 4)])
  {
    hide FromBigEndian16, HasIpHeader, IsBootReply, Pair, HeaderLength;
    if |frame| >= 282 {
      UdpExactly(frame);
      if IsUdp(frame) {
        var u := 14 + IpLength(frame);
        UdpNumbers(frame, u);
        if IsDhcp(frame) {
          var n := Pair(frame, u + 4);
          assert frame[u..][8..n] == frame[u + 8..u + n];
          BootReplyIs(frame, u + 8, frame[u + 8..u + n]);
        }
      }
    }
  }

  lemma Ipv4Type(frame: seq<byte>)
    requires |frame| >= 14
    ensures Pair(frame, 12) == 0x0800 <==> frame[12] == 8 && frame[13] == 0
  {
  }

  /** What is read from an accepted frame: the options from byte 240 on, and the fixed fields at
      their places; broken options make the frame unacceptable. */
  lemma FrameReads(frame: seq<byte>)
    ensures Payload(frame).None? ==> ServerFrame(frame).Error?
    ensures Payload(frame).Some? ==>
              var p := Payload(frame).value;
              var options := Parse(p[240..], map[]);
              if options.Error? then ServerFrame(frame).Error?
              else
                ServerFrame(frame) == Ok(Reply(Interpret(p[16..20], p[20..24], options.value),
                                               FromBigEndian32(p[4..8]), p[28..34]))
  {
    hide Payload, Parse, Interpret;
  }
}
