/** Every byte of a client frame: the three headers, the fixed part of the message, and what of
    the options a server finds in it. */
module ClientBytes {
  import opened Bytes
  import opened Seqs
  import opened Buffers
  import opened Options
  import opened Checksums
  import opened Frames
  import opened ClientFrames

  // ------------------------------------------------------------------------- headers

  lemma SpliceEach(s: seq<byte>, at: nat, b: seq<byte>)
    requires at + |b| <= |s|
    ensures forall i :: 0 <= i < |s| ==> Splice(s, at, b)[i] == if at <= i < at + |b| then b[i - at] else s[i]
  {
  }

  lemma ZeroEach(n: nat)
    ensures forall i :: 0 <= i < n ==> Zeros(n)[i] == 0
  {
  }

  /** The IP header: version 4 with five words, TTL 64, UDP, from 0.0.0.0 to 255.255.255.255. */
  lemma IpHeaderBytes(xid: u32, length: u16)
    ensures
      var h := IpHeader(xid, length);
      && |h| == 20 && h[0] == 0x45 && h[1] == 0
      && h[2] == length / 0x100 && h[3] == length % 0x100
      && h[4] == xid % 0x1_0000 / 0x100 && h[5] == xid % 0x100
      && h[6] == 0 && h[7] == 0 && h[8] == 64 && h[9] == 17
      && (forall i :: 12 <= i < 16 ==> h[i] == 0) && (forall i :: 16 <= i < 20 ==> h[i] == 255)
  {
    hide Splice, Zeros, Checksum;
    var s0 := Zeros(20);
    var s1 := Splice(s0, 0, [0x45]);
    var s2 := Splice(s1, 8, [64, 17]);
    var s3 := Splice(s2, 2, BigEndian16(length));
    var s4 := Splice(s3, 4, BigEndian16(Wrap16(xid)));
    var s5 := Splice(s4, 16, [255, 255, 255, 255]);
    ZeroEach(20);
    SpliceEach(s0, 0, [0x45]);
    SpliceEach(s1, 8, [64, 17]);
    SpliceEach(s2, 2, BigEndian16(length));
    SpliceEach(s3, 4, BigEndian16(Wrap16(xid)));
    SpliceEach(s4, 16, [255, 255, 255, 255]);
    SpliceEach(s5, 10, BigEndian16(Checksum(s5)));
    LowByte(xid);
  }

  lemma LowByte(xid: u32)
    ensures Wrap16(xid) % 0x100 == xid % 0x100
  {
    var q, r := xid / W16, xid % W16;
    assert xid == (q * 0x100 + r / 0x100) * 0x100 + r % 0x100;
  }

  /** The fixed part: a request over Ethernet with the client's transaction and address, which
      asks for broadcast replies; everything else in it is zero, up to the magic cookie. */
  lemma ClientFixedBytes(mac: Mac, xid: u32)
    ensures
      var p := ClientFixed(mac, xid);
      && p[0] == 1 && p[1] == 1 && p[2] == 6 && p[3] == 0
      && p[4] == xid / 0x100_0000 && p[5] == xid / 0x1_0000 % 0x100
      && p[6] == xid / 0x100 % 0x100 && p[7] == xid % 0x100
      && p[8] == 0 && p[9] == 0 && p[10] == 0x80 && (forall i :: 11 <= i < 28 ==> p[i] == 0)
      && (forall i :: 0 <= i < 6 ==> p[28 + i] == mac[i]) && (forall i :: 34 <= i < 236 ==> p[i] == 0)
      && p[236] == 99 && p[237] == 130 && p[238] == 83 && p[239] == 99
      && (forall i :: 240 <= i < 300 ==> p[i] == 0)
  {
    hide Splice, Zeros;
    var s0 := Zeros(300);
    var s1 := Splice(s0, 0, [1, 1, 6]);
    var s2 := Splice(s1, 4, BigEndian32(xid));
    var s3 := Splice(s2, 10, BigEndian16(0x8000));
    var s4 := Splice(s3, 28, mac);
    ZeroEach(300);
    SpliceEach(s0, 0, [1, 1, 6]);
    SpliceEach(s1, 4, BigEndian32(xid));
    SpliceEach(s2, 10, BigEndian16(0x8000));
    SpliceEach(s3, 28, mac);
    SpliceEach(s4, 236, Cookie());
  }

  lemma ClientFrameParts(mac: Mac, xid: u32, messageType: byte, requested: Addr, server: Addr, hostname: seq<byte>)
    ensures
      var f := ClientFrame(mac, xid, messageType, requested, server, hostname);
      && f[..6] == [255, 255, 255, 255, 255, 255] && f[6..12] == mac && f[12] == 8 && f[13] == 0
      && f[14..34] == IpHeader(xid, 328)
      && f[34..42] == [0, 68, 0, 67, 308 / 0x100, 308 % 0x100, 0, 0]
      && f[42..] == ClientPayload(mac, xid, messageType, requested, server, hostname)
  {
    hide IpHeader, ClientPayload;
    var f := ClientFrame(mac, xid, messageType, requested, server, hostname);
    assert f[12..14] == BigEndian16(0x0800);
    assert f[12] == f[12..14][0] && f[13] == f[12..14][1];
    assert f[34..42] == UdpHeader(68, 67, 308);
  }

  /** A client frame, byte by byte: broadcast Ethernet, IPv4 and UDP from port 68 to port 67 with
      the lengths of the frame itself, no UDP checksum, and the fixed part of the message. */
  lemma ClientFrameBytes(mac: Mac, xid: u32, messageType: byte, requested: Addr, server: Addr, hostname: seq<byte>)
    ensures
      var f := ClientFrame(mac, xid, messageType, requested, server, hostname);
      && |f| == 342
      && (forall i :: 0 <= i < 6 ==> f[i] == 255) && (forall i :: 0 <= i < 6 ==> f[6 + i] == mac[i])
      && f[12] == 8 && f[13] == 0 && f[14] == 0x45 && f[15] == 0
      && (f[16] as int) * 0x100 + f[17] as int == |f| - 14
      && (f[18] as int) * 0x100 + f[19] as int == xid % 0x1_0000
      && f[20] == 0 && f[21] == 0 && f[22] == 64 && f[23] == 17
      && (forall i :: 26 <= i < 30 ==> f[i] == 0) && (forall i :: 30 <= i < 34 ==> f[i] == 255)
      && f[34] == 0 && f[35] == 68 && f[36] == 0 && f[37] == 67
      && (f[38] as int) * 0x100 + f[39] as int == |f| - 34 && f[40] == 0 && f[41] == 0
      && f[42..282] == ClientFixed(mac, xid)[..240]
  {
    hide IpHeader, ClientFixed, ClientFrame, ClientArea;
    var f := ClientFrame(mac, xid, messageType, requested, server, hostname);
    ClientFrameParts(mac, xid, messageType, requested, server, hostname);
    IpHeaderBytes(xid, 328);
    var e, h, u := f[..6], f[14..34], f[34..42];
    assert forall i :: 0 <= i < 6 ==> e[i] == f[i];
    assert forall i :: 0 <= i < 6 ==> f[6..12][i] == f[6 + i];
    assert forall i :: 0 <= i < 20 ==> h[i] == f[14 + i];
    assert forall i :: 0 <= i < 8 ==> u[i] == f[34 + i];
    assert forall i :: 26 <= i < 34 ==> f[i] == h[i - 14];
    assert xid % 0x1_0000 / 0x100 * 0x100 + xid % 0x100 == xid % 0x1_0000 by { LowByte(xid); }
    assert f[42..282] == f[42..][..240];
  }

  // ------------------------------------------------------------------------- options

  /** The name that is sent: at most 63 bytes. */
  function Name(hostname: seq<byte>): seq<byte> {
    if |hostname| > 63 then hostname[..63] else hostname
  }

  /** The host name is sent if there is one and it fits, with the end marker behind it. */
  predicate SendsName(e: nat, hostname: seq<byte>) {
    hostname != [] && e + 2 + |Name(hostname)| < 60
  }

  function NameEnd(e: nat, hostname: seq<byte>): nat {
    if SendsName(e, hostname) then e + 2 + |Name(hostname)| else e
  }

  /** The list of wanted options takes eight bytes, and the message size four behind it. */
  predicate SendsList(e: nat, hostname: seq<byte>) { NameEnd(e, hostname) + 8 < 60 }

  predicate SendsSize(e: nat, hostname: seq<byte>) {
    NameEnd(e, hostname) + (if SendsList(e, hostname) then 8 else 0) + 4 < 60
  }

  /** The optional ones that are sent. */
  function Sent(e: nat, hostname: seq<byte>): seq<Opt> {
    (if SendsName(e, hostname) then [Opt(12, Name(hostname))] else [])
    + (if SendsList(e, hostname) then [Opt(55, [1, 3, 6, 15, 51, 54])] else [])
    + (if SendsSize(e, hostname) then [Opt(57, [0x05, 0xdc])] else [])
  }

  lemma AcceptedStep(size: nat, pos: nat, o: Opt, rest: seq<Opt>)
    ensures
      Accepted(size, pos, [o] + rest) ==
      if Fits(size, pos, o.value) then [o] + Accepted(size, pos + 2 + |o.value|, rest) else Accepted(size, pos, rest)
  {
    assert ([o] + rest)[1..] == rest;
  }

  lemma NoneAccepted(size: nat, pos: nat)
    ensures Accepted(size, pos, []) == []
  {
  }

  const LIST := Opt(55, [1, 3, 6, 15, 51, 54])
  const SIZE := Opt(57, [0x05, 0xdc])

  lemma ListSent(p: nat)
    ensures
      Accepted(60, p, [LIST] + [SIZE]) ==
      (if p + 8 < 60 then [LIST] else []) + (if p + (if p + 8 < 60 then 8 else 0) + 4 < 60 then [SIZE] else [])
  {
    var q := if p + 8 < 60 then p + 8 else p;
    AcceptedStep(60, p, LIST, [SIZE]);
    AcceptedStep(60, q, SIZE, []);
    NoneAccepted(60, q);
    NoneAccepted(60, q + 4);
    assert [SIZE] + [] == [SIZE];
    hide Accepted;
  }

  lemma OptionalSent(e: nat, hostname: seq<byte>)
    ensures Accepted(60, e, Optional(hostname)) == Sent(e, hostname)
  {
    hide Accepted;
    var name := Opt(12, Name(hostname));
    ListSent(NameEnd(e, hostname));
    if hostname != [] {
      assert Optional(hostname) == [name] + ([LIST] + [SIZE]);
      AcceptedStep(60, e, name, [LIST] + [SIZE]);
      if SendsName(e, hostname) {
        Assoc([name], if SendsList(e, hostname) then [LIST] else [], if SendsSize(e, hostname) then [SIZE] else []);
      }
    } else {
      assert Optional(hostname) == [LIST] + [SIZE];
    }
  }

  predicate Lacks(opts: seq<Opt>, code: byte) { forall i :: 0 <= i < |opts| ==> opts[i].code != code }

  predicate AtMostOne(opts: seq<Opt>, code: byte) { opts == [] || (|opts| == 1 && opts[0].code == code) }

  ghost predicate Holds(m: OptionMap, own: seq<Opt>, code: byte)
    requires AtMostOne(own, code)
  {
    (code in m <==> own != []) && (code in m ==> m[code] == own[0].value)
  }

  /** Of three groups of options, only the middle one, which has at most one, has code. */
  lemma OwnValue(front: seq<Opt>, own: seq<Opt>, behind: seq<Opt>, code: byte)
    requires Lacks(front, code) && Lacks(behind, code) && AtMostOne(own, code)
    ensures Holds(LastValues(map[], front + own + behind), own, code)
  {
    hide LastValues;
    var opts := front + own + behind;
    if own == [] {
      Absent(opts, code);
    } else {
      assert opts[|front|] == own[0];
      Present(opts, |front|);
    }
  }

  lemma LacksBoth(a: seq<Opt>, b: seq<Opt>, code: byte)
    requires Lacks(a, code) && Lacks(b, code)
    ensures Lacks(a + b, code)
  {
  }

  lemma OtherLacks(own: seq<Opt>, x: byte, y: byte)
    requires AtMostOne(own, x) && x != y
    ensures Lacks(own, y)
  {
  }

  lemma ThreeValues(front: seq<Opt>, a: seq<Opt>, b: seq<Opt>, c: seq<Opt>)
    requires Lacks(front, 12) && Lacks(front, 55) && Lacks(front, 57)
    requires AtMostOne(a, 12) && AtMostOne(b, 55) && AtMostOne(c, 57)
    ensures
      var m := LastValues(map[], front + (a + b + c));
      Holds(m, a, 12) && Holds(m, b, 55) && Holds(m, c, 57)
  {
    hide LastValues, Lacks, AtMostOne, Holds;
    OtherLacks(a, 12, 55);
    OtherLacks(a, 12, 57);
    OtherLacks(b, 55, 12);
    OtherLacks(b, 55, 57);
    OtherLacks(c, 57, 12);
    OtherLacks(c, 57, 55);
    LacksBoth(front, a, 55);
    LacksBoth(front, a, 57);
    LacksBoth(front + a, b, 57);
    LacksBoth(b, c, 12);
    assert Lacks([], 57) by { NoneLacks(57); }
    OwnValue(front, a, b + c, 12);
    OwnValue(front + a, b, c, 55);
    OwnValue(front + a + b, c, [], 57);
    Assoc(front + a, b, c);
    Assoc(front, a, b + c);
    Assoc(a, b, c);
    Empty(front + a + b + c);
  }

  lemma NoneLacks(code: byte)
    ensures Lacks([], code)
  {
  }

  lemma SentValues(front: seq<Opt>, e: nat, hostname: seq<byte>)
    requires Lacks(front, 12) && Lacks(front, 55) && Lacks(front, 57)
    ensures
      var m := LastValues(map[], front + Sent(e, hostname));
      && (12 in m <==> SendsName(e, hostname)) && (12 in m ==> m[12] == Name(hostname))
      && (55 in m <==> SendsList(e, hostname)) && (55 in m ==> m[55] == [1, 3, 6, 15, 51, 54])
      && (57 in m <==> SendsSize(e, hostname)) && (57 in m ==> m[57] == [0x05, 0xdc])
  {
    hide LastValues, SendsName, SendsList, SendsSize, Name, Lacks;
    ThreeValues(front, if SendsName(e, hostname) then [Opt(12, Name(hostname))] else [],
        if SendsList(e, hostname) then [LIST] else [], if SendsSize(e, hostname) then [SIZE] else []);
  }

  /** A server that parses the options finds the host name, cut to 63 bytes, the list of wanted
      options and the message size exactly when they fit into the 60 bytes with the end marker. */
  lemma OptionalRecovered(mac: Mac, xid: u32, messageType: byte, requested: Addr, server: Addr, hostname: seq<byte>)
    ensures
      var f := ClientFrame(mac, xid, messageType, requested, server, hostname);
      var r, e := Parse(f[282..], map[]), EssentialEnd(messageType, requested, server);
      && r.Ok?
      && (12 in r.value <==> SendsName(e, hostname)) && (12 in r.value ==> r.value[12] == Name(hostname))
      && (55 in r.value <==> SendsList(e, hostname)) && (55 in r.value ==> r.value[55] == [1, 3, 6, 15, 51, 54])
      && (57 in r.value <==> SendsSize(e, hostname)) && (57 in r.value ==> r.value[57] == [0x05, 0xdc])
  {
    hide Parse, ClientFrame, LastValues, Encode, Accepted, Optional, Sent, SendsName, SendsList, SendsSize, Name;
    var more := FrameOptions(mac, xid, messageType, requested, server, hostname);
    EssentialFits(mac, messageType, requested, server);
    OptionalSent(EssentialEnd(messageType, requested, server), hostname);
    SentValues(Essential(mac, messageType, requested, server), EssentialEnd(messageType, requested, server), hostname);
  }

  /** The option area is the options one behind the other, the end marker, and zeros. */
  lemma OptionBytes(mac: Mac, xid: u32, messageType: byte, requested: Addr, server: Addr, hostname: seq<byte>)
    ensures
      var f := ClientFrame(mac, xid, messageType, requested, server, hostname);
      var sent := Essential(mac, messageType, requested, server)
                  + Sent(EssentialEnd(messageType, requested, server), hostname);
      Encodable(sent) && |Encode(sent)| < 60 && f[282..] == Encode(sent) + [255] + Zeros(59 - |Encode(sent)|)
  {
    hide Encode, ClientFrame, Sent, Essential, Optional, Accepted, ClientOptions, AppendAll, ClientFixed;
    var essential, e := Essential(mac, messageType, requested, server), EssentialEnd(messageType, requested, server);
    var area := ClientFixed(mac, xid)[240..];
    OptionalSent(e, hostname);
    EssentialFits(mac, messageType, requested, server);
    OptionsSplit(mac, messageType, requested, server, hostname);
    AcceptedConcat(60, 0, essential, Optional(hostname));
    AppendAllIs(area, 0, ClientOptions(mac, messageType, requested, server, hostname));
    AreaInFrame(mac, xid, messageType, requested, server, hostname);
    ClientFixedBytes(mac, xid);
    var kept := Encode(essential + Sent(e, hostname));
    assert area == Zeros(60) by { assert forall i :: 0 <= i < 60 ==> area[i] == ClientFixed(mac, xid)[240 + i]; }
    MarkEnd(kept);
  }

  lemma MarkEnd(kept: seq<byte>)
    requires |kept| < 60
    ensures Splice(Zeros(60), 0, kept)[|kept| := 255] == kept + [255] + Zeros(59 - |kept|)
  {
  }
}
