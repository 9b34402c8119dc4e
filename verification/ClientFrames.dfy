/** What a server can read from every frame that the client builds. */
module ClientFrames {
  import opened Bytes
  import opened Seqs
  import opened Buffers
  import opened Options
  import opened Checksums
  import opened Frames

  // ---------------------------------------------------------------------- headers

  lemma ChecksumFieldIsZero(xid: u32, length: u16)
    ensures IpHeaderBeforeChecksum(xid, length)[10] == 0 && IpHeaderBeforeChecksum(xid, length)[11] == 0
  {
    hide Splice;
    var s0 := Zeros(20);
    var s1 := Splice(s0, 0, [0x45]);
    var s2 := Splice(s1, 8, [64, 17]);
    var s3 := Splice(s2, 2, BigEndian16(length));
    var s4 := Splice(s3, 4, BigEndian16(Wrap16(xid)));
    var s5 := Splice(s4, 16, [255, 255, 255, 255]);
    SpliceElsewhere(s0, 0, [0x45], 10, 12);
    SpliceElsewhere(s1, 8, [64, 17], 10, 12);
    SpliceElsewhere(s2, 2, BigEndian16(length), 10, 12);
    SpliceElsewhere(s3, 4, BigEndian16(Wrap16(xid)), 10, 12);
    SpliceElsewhere(s4, 16, [255, 255, 255, 255], 10, 12);
    assert s5[10..12] == s0[10..12];
    assert s5[10] == s5[10..12][0] && s5[11] == s5[10..12][1];
  }

  /** The IP header of every client frame carries its length and verifies. */
  lemma IpHeaderVerifies(xid: u32, length: u16)
    ensures Checksum(IpHeader(xid, length)) == 0
    ensures FromBigEndian16(IpHeader(xid, length)[2..4]) == length
  {
    hide Splice, WordSum, Fold;
    var h := IpHeaderBeforeChecksum(xid, length);
    var c := Checksum(h);
    ChecksumFieldIsZero(xid, length);
    StoredChecksumVerifies(h, 10);
    StoreIsSplice(h, 10, c);
    var s2 := Splice(Splice(Zeros(20), 0, [0x45]), 8, [64, 17]);
    var s3 := Splice(s2, 2, BigEndian16(length));
    var s4 := Splice(s3, 4, BigEndian16(Wrap16(xid)));
    SpliceAt(s2, 2, BigEndian16(length));
    SpliceElsewhere(s3, 4, BigEndian16(Wrap16(xid)), 2, 4);
    SpliceElsewhere(s4, 16, [255, 255, 255, 255], 2, 4);
    SpliceElsewhere(h, 10, BigEndian16(c), 2, 4);
  }

  lemma StoreIsSplice(s: seq<byte>, at: nat, word: u16)
    requires at + 2 <= |s|
    ensures Splice(s, at, BigEndian16(word)) == s[at := word / 0x100][at + 1 := word % 0x100]
  {
  }

  /** Lengths and checksum of a client frame agree with the frame itself. */
  lemma ClientFrameHeaders(mac: Mac, xid: u32, messageType: byte, requested: Addr, server: Addr, hostname: seq<byte>)
    ensures
      var f := ClientFrame(mac, xid, messageType, requested, server, hostname);
      && FromBigEndian16(f[12..14]) == 0x0800 && f[6..12] == mac
      && Checksum(f[14..34]) == 0
      && FromBigEndian16(f[16..18]) == |f| - 14
      && FromBigEndian16(f[34..36]) == CLIENT_PORT && FromBigEndian16(f[36..38]) == SERVER_PORT
      && FromBigEndian16(f[38..40]) == |f| - 34
      && f[42..] == ClientPayload(mac, xid, messageType, requested, server, hostname)
  {
    hide IpHeader, ClientPayload, Checksum;
    var f := ClientFrame(mac, xid, messageType, requested, server, hostname);
    IpHeaderVerifies(xid, 328);
    assert f[14..34] == IpHeader(xid, 328);
    assert f[16..18] == f[14..34][2..4];
    assert f[34..42] == UdpHeader(CLIENT_PORT, SERVER_PORT, 308);
    assert f[34..36] == f[34..42][0..2] && f[36..38] == f[34..42][2..4] && f[38..40] == f[34..42][4..6];
  }

  /** The fixed part identifies the client and the exchange. */
  lemma ClientFixedFields(mac: Mac, xid: u32)
    ensures
      var p := ClientFixed(mac, xid);
      p[0..3] == [1, 1, 6] && FromBigEndian32(p[4..8]) == xid && p[28..34] == mac && p[236..240] == Cookie()
  {
    hide Splice, Zeros, BigEndian32, FromBigEndian32, BigEndian16;
    var s0 := Zeros(DHCP_MIN_LENGTH);
    var s1 := Splice(s0, 0, [1, 1, 6]);
    var s2 := Splice(s1, 4, BigEndian32(xid));
    var s3 := Splice(s2, 10, BigEndian16(0x8000));
    var s4 := Splice(s3, 28, mac);
    SpliceAt(s0, 0, [1, 1, 6]);
    SpliceElsewhere(s1, 4, BigEndian32(xid), 0, 3);
    SpliceElsewhere(s2, 10, BigEndian16(0x8000), 0, 3);
    SpliceElsewhere(s3, 28, mac, 0, 3);
    SpliceElsewhere(s4, 236, Cookie(), 0, 3);
    SpliceAt(s1, 4, BigEndian32(xid));
    SpliceElsewhere(s2, 10, BigEndian16(0x8000), 4, 8);
    SpliceElsewhere(s3, 28, mac, 4, 8);
    SpliceElsewhere(s4, 236, Cookie(), 4, 8);
    BigEndian32Value(xid);
    SpliceAt(s3, 28, mac);
    SpliceElsewhere(s4, 236, Cookie(), 28, 34);
    SpliceAt(s4, 236, Cookie());
  }

  // ---------------------------------------------------------------------- options

  lemma {:induction false} EncodeConcat(a: seq<Opt>, b: seq<Opt>)
    requires Encodable(a) && Encodable(b)
    ensures Encodable(a + b) && |Encode(a + b)| == |Encode(a)| + |Encode(b)|
  {
    if a == [] {
      Empty(b);
    } else {
      Tail(a, b);
      EncodeConcat(a[1..], b);
    }
  }

  /** Options that fit are kept in front of what is kept of the others. */
  lemma {:induction false} AcceptedConcat(size: nat, pos: nat, a: seq<Opt>, b: seq<Opt>)
    requires Encodable(a) && pos + |Encode(a)| < size
    ensures Accepted(size, pos, a + b) == a + Accepted(size, pos + |Encode(a)|, b)
    decreases |a|
  {
    hide EncodeOption, Encode, Accepted;
    EncodeNone();
    if a == [] {
      Empty(b);
      Empty(Accepted(size, pos, b));
    } else {
      var o, rest := a[0], a[1..];
      assert a == [o] + rest;
      EncodeCons(o, rest);
      AcceptedCons(size, pos, o, rest + b);
      AcceptedConcat(size, pos + 2 + |o.value|, rest, b);
      Assoc([o], rest, b);
      Assoc([o], rest, Accepted(size, pos + |Encode(a)|, b));
    }
  }

  lemma AcceptedCons(size: nat, pos: nat, o: Opt, rest: seq<Opt>)
    requires Fits(size, pos, o.value)
    ensures Accepted(size, pos, [o] + rest) == [o] + Accepted(size, pos + 2 + |o.value|, rest)
  {
    assert ([o] + rest)[1..] == rest;
  }

  /** The options that are never skipped. */
  function Essential(mac: Mac, messageType: byte, requested: Addr, server: Addr): (opts: seq<Opt>)
    ensures Encodable(opts)
  {
    [Opt(53, [messageType]), Opt(61, [1] + mac)]
    + (if messageType == REQUEST && Is4(requested) then [Opt(50, requested.bytes)] else [])
    + (if messageType == REQUEST && Is4(server) then [Opt(54, server.bytes)] else [])
  }

  function Optional(hostname: seq<byte>): seq<Opt> {
    (if hostname != [] then [Opt(12, if |hostname| > 63 then hostname[..63] else hostname)] else [])
    + [Opt(55, [1, 3, 6, 15, 51, 54]), Opt(57, [0x05, 0xdc])]
  }

  lemma OptionsSplit(mac: Mac, messageType: byte, requested: Addr, server: Addr, hostname: seq<byte>)
    ensures ClientOptions(mac, messageType, requested, server, hostname)
         == Essential(mac, messageType, requested, server) + Optional(hostname)
  {
    var a := Essential(mac, messageType, requested, server);
    var b := if hostname != [] then [Opt(12, if |hostname| > 63 then hostname[..63] else hostname)] else [];
    Assoc(a, b, [Opt(55, [1, 3, 6, 15, 51, 54]), Opt(57, [0x05, 0xdc])]);
  }

  lemma One(o: Opt)
    requires |o.value| <= 255
    ensures Encodable([o]) && |Encode([o])| == 2 + |o.value|
  {
    assert [o][1..] == [];
  }

  /** Where the options that are never skipped end. */
  function EssentialEnd(messageType: byte, requested: Addr, server: Addr): nat {
    12 + (if messageType == 3 && Is4(requested) then 6 else 0) + (if messageType == 3 && Is4(server) then 6 else 0)
  }

  lemma LengthOfTwo(a: seq<Opt>, b: seq<Opt>)
    requires Encodable(a) && (b == [] || (|b| == 1 && |b[0].value| <= 255))
    ensures Encodable(a + b) && |Encode(a + b)| == |Encode(a)| + if b == [] then 0 else 2 + |b[0].value|
  {
    hide EncodeOption;
    EncodeNone();
    if b != [] {
      assert b == [b[0]];
      One(b[0]);
    }
    EncodeConcat(a, b);
  }

  lemma EssentialFits(mac: Mac, messageType: byte, requested: Addr, server: Addr)
    ensures |Encode(Essential(mac, messageType, requested, server))| == EssentialEnd(messageType, requested, server)
  {
    hide Encode;
    var a, b := [Opt(53, [messageType])], [Opt(61, [1] + mac)];
    var c := if messageType == REQUEST && Is4(requested) then [Opt(50, requested.bytes)] else [];
    var d := if messageType == REQUEST && Is4(server) then [Opt(54, server.bytes)] else [];
    One(a[0]);
    LengthOfTwo(a, b);
    LengthOfTwo(a + b, c);
    LengthOfTwo(a + b + c, d);
    assert [Opt(53, [messageType]), Opt(61, [1] + mac)] == a + b;
  }

  lemma AcceptedCodes(kept: seq<Opt>, opts: seq<Opt>)
    requires forall o :: o in kept ==> o in opts
    requires forall i :: 0 <= i < |opts| ==> opts[i].code in {12, 55, 57}
    ensures forall i :: 0 <= i < |kept| ==> kept[i].code in {12, 55, 57}
  {
    forall i | 0 <= i < |kept| ensures kept[i].code in {12, 55, 57} {
      assert kept[i] in opts;
    }
  }

  lemma OptionalCodes(hostname: seq<byte>)
    ensures forall i :: 0 <= i < |Optional(hostname)| ==> Optional(hostname)[i].code in {12, 55, 57}
  {
  }

  lemma PlainOptions(mac: Mac, messageType: byte, requested: Addr, server: Addr, hostname: seq<byte>)
    ensures Plain(ClientOptions(mac, messageType, requested, server, hostname))
  {
  }

  /** The options of the frame are the essential ones and some of the others. */
  lemma FrameOptions(mac: Mac, xid: u32, messageType: byte, requested: Addr, server: Addr, hostname: seq<byte>)
    returns (more: seq<Opt>)
    ensures Minor(more)
    ensures more == Accepted(60, |Encode(Essential(mac, messageType, requested, server))|, Optional(hostname))
    ensures
      var f := ClientFrame(mac, xid, messageType, requested, server, hostname);
      Parse(f[282..], map[]) == Ok(LastValues(map[], Essential(mac, messageType, requested, server) + more))
  {
    hide Parse, Accepted, Encode, ClientFrame, AppendAll, LastValues, Essential, Optional, ClientOptions, ClientFixed,
        Plain;
    var opts := ClientOptions(mac, messageType, requested, server, hostname);
    var essential, optional := Essential(mac, messageType, requested, server), Optional(hostname);
    OptionalCodes(hostname);
    OptionsSplit(mac, messageType, requested, server, hostname);
    PlainOptions(mac, messageType, requested, server, hostname);
    AreaInFrame(mac, xid, messageType, requested, server, hostname);
    EssentialFits(mac, messageType, requested, server);
    AcceptedConcat(60, 0, essential, optional);
    WriteThenParse(ClientFixed(mac, xid)[240..], 0, opts);
    more := Accepted(60, |Encode(essential)|, optional);
    AcceptedCodes(more, optional);
    var r := AppendAll(ClientFixed(mac, xid)[240..], 0, opts);
    assert r.0[r.1 := END][0..] == r.0[r.1 := END];
  }

  lemma Present(opts: seq<Opt>, i: nat)
    requires i < |opts| && forall j :: i < j < |opts| ==> opts[j].code != opts[i].code
    ensures opts[i].code in LastValues(map[], opts) && LastValues(map[], opts)[opts[i].code] == opts[i].value
  {
    LastValuesMeaning(map[], opts, opts[i].code);
  }

  lemma Absent(opts: seq<Opt>, code: byte)
    requires forall j :: 0 <= j < |opts| ==> opts[j].code != code
    ensures code !in LastValues(map[], opts)
  {
    LastValuesMeaning(map[], opts, code);
  }

  /** The options behind the essential ones have codes of their own. */
  ghost predicate Minor(more: seq<Opt>) {
    forall i :: 0 <= i < |more| ==> more[i].code in {12, 55, 57}
  }

  lemma PresentInFront(essential: seq<Opt>, more: seq<Opt>, i: nat)
    requires Minor(more) && i < |essential| && essential[i].code !in {12, 55, 57}
    requires forall j :: i < j < |essential| ==> essential[j].code != essential[i].code
    ensures
      var m := LastValues(map[], essential + more);
      essential[i].code in m && m[essential[i].code] == essential[i].value
  {
    Present(essential + more, i);
  }

  lemma AbsentInFront(essential: seq<Opt>, more: seq<Opt>, code: byte)
    requires Minor(more) && code !in {12, 55, 57} && forall j :: 0 <= j < |essential| ==> essential[j].code != code
    ensures code !in LastValues(map[], essential + more)
  {
    Absent(essential + more, code);
  }

  lemma EssentialShape(mac: Mac, messageType: byte, requested: Addr, server: Addr)
    ensures
      var e := Essential(mac, messageType, requested, server);
      var hasRequested := messageType == REQUEST && Is4(requested);
      var hasServer := messageType == REQUEST && Is4(server);
      && |e| == 2 + (if hasRequested then 1 else 0) + (if hasServer then 1 else 0)
      && e[0] == Opt(53, [messageType]) && e[1] == Opt(61, [1] + mac)
      && (hasRequested ==> e[2] == Opt(50, requested.bytes))
      && (hasServer ==> e[|e| - 1] == Opt(54, server.bytes))
  {
  }

  lemma EssentialValues(mac: Mac, messageType: byte, requested: Addr, server: Addr, more: seq<Opt>)
    requires Minor(more)
    ensures
      var m := LastValues(map[], Essential(mac, messageType, requested, server) + more);
      && 53 in m && m[53] == [messageType]
      && 61 in m && m[61] == [1] + mac
      && (50 in m <==> messageType == REQUEST && Is4(requested))
      && (50 in m ==> m[50] == requested.bytes)
      && (54 in m <==> messageType == REQUEST && Is4(server))
      && (54 in m ==> m[54] == server.bytes)
  {
    hide LastValues, Essential, Is4, Minor;
    EssentialShape(mac, messageType, requested, server);
    var e := Essential(mac, messageType, requested, server);
    PresentInFront(e, more, 0);
    PresentInFront(e, more, 1);
    if messageType == REQUEST && Is4(requested) { PresentInFront(e, more, 2); } else { AbsentInFront(e, more, 50); }
    if messageType == REQUEST && Is4(server) { PresentInFront(e, more, |e| - 1); } else { AbsentInFront(e, more, 54); }
  }

  /** Well-formedness: the end marker always has a place behind the accepted options, and
      parsing the option area recovers the message type and the client identifier always, and
      the requested address and the server exactly when a request carries IPv4 addresses,
      whatever the hostname pushes out. */
  lemma ClientOptionsRecovered(mac: Mac, xid: u32, messageType: byte, requested: Addr, server: Addr,
      hostname: seq<byte>)
    ensures
      var f := ClientFrame(mac, xid, messageType, requested, server, hostname);
      var r := Parse(f[282..], map[]);
      && r.Ok?
      && 53 in r.value && r.value[53] == [messageType]
      && 61 in r.value && r.value[61] == [1] + mac
      && (50 in r.value <==> messageType == REQUEST && Is4(requested))
      && (50 in r.value ==> r.value[50] == requested.bytes)
      && (54 in r.value <==> messageType == REQUEST && Is4(server))
      && (54 in r.value ==> r.value[54] == server.bytes)
  {
    hide Parse, ClientFrame, LastValues, Essential;
    var more := FrameOptions(mac, xid, messageType, requested, server, hostname);
    EssentialValues(mac, messageType, requested, server, more);
  }

  lemma AreaInFrame(mac: Mac, xid: u32, messageType: byte, requested: Addr, server: Addr, hostname: seq<byte>)
    ensures
      var f := ClientFrame(mac, xid, messageType, requested, server, hostname);
      var r := AppendAll(ClientFixed(mac, xid)[240..], 0, ClientOptions(mac, messageType, requested, server, hostname));
      r.1 < |r.0| && f[282..] == r.0[r.1 := END]
  {
    ClientFrameHeaders(mac, xid, messageType, requested, server, hostname);
    AreaEnds(mac, xid, messageType, requested, server, hostname);
    var f := ClientFrame(mac, xid, messageType, requested, server, hostname);
    hide ClientFrame, ClientFixed, AppendAll;
    assert f[282..] == f[42..][240..];
  }
}
