/** From an offer and an acknowledgement to a lease (dhcp.go, mergeLease). */
module Leases {
  import opened Bytes
  import opened Bits
  import opened Buffers
  import opened Frames
  import opened ServerFrames

  datatype Lease = Lease(
    address: Addr, prefixLen: nat, gateway: Addr, dns: seq<Addr>, server: Addr, duration: nat, mac: seq<byte>)

  predicate IsUnspecified(a: Addr) {
    a == V4([0, 0, 0, 0]) || a == V6(Zeros(16))
  }

  // -------------------------------------------------------------------- masks

  /** The leading ones of a byte that has nothing but zeros behind them. */
  function ByteOnes(v: byte): Option<nat>
    decreases v
  {
    if v == 0 then Some(0)
    else if v < 128 then None
    else
      match ByteOnes(2 * v - 256)
      case None => None
      case Some(n) => Some(n + 1)
  }

  /** net.IPMask.Size: the number of leading ones, unless a one follows a zero. */
  function MaskSize(mask: seq<byte>): Option<nat> {
    if mask == [] then Some(0)
    else if mask[0] == 255 then
      match MaskSize(mask[1..])
      case None => None
      case Some(n) => Some(n + 8)
    else if mask[1..] == Zeros(|mask| - 1) then ByteOnes(mask[0])
    else None
  }

  function MaskValue(mask: seq<byte>): nat {
    if mask == [] then 0 else mask[0] * Pow256(|mask| - 1) + MaskValue(mask[1..])
  }

  lemma MulLe(a: int, b: int, p: nat)
    requires a <= b
    ensures a * p <= b * p
  {
    var d := b - a;
    assert d * p >= 0;
    assert b * p == (a + d) * p == a * p + d * p;
  }

  lemma Pow256Step(n: nat)
    requires n > 0
    ensures Pow256(n) == 256 * Pow256(n - 1)
  {
  }

  lemma {:induction false} ValueBound(mask: seq<byte>)
    ensures MaskValue(mask) < Pow256(|mask|)
  {
    hide Pow256;
    if mask == [] {
      assert MaskValue(mask) == 0;
    } else {
      ValueBound(mask[1..]);
      Pow256Step(|mask|);
      MulLe(mask[0], 255, Pow256(|mask| - 1));
    }
  }

  lemma {:induction false} ValueZero(mask: seq<byte>)
    ensures MaskValue(mask) == 0 <==> mask == Zeros(|mask|)
  {
    hide Pow256, Zeros;
    if mask == [] {
      FirstZeroNone();
    } else {
      ValueZero(mask[1..]);
      FirstZero(mask);
      if mask[0] > 0 { MulLe(1, mask[0], Pow256(|mask| - 1)); }
    }
  }

  lemma FirstZeroNone()
    ensures Zeros(0) == []
  {
  }

  lemma FirstZero(mask: seq<byte>)
    requires mask != []
    ensures mask == Zeros(|mask|) <==> mask[0] == 0 && mask[1..] == Zeros(|mask| - 1)
  {
    if mask[0] == 0 && mask[1..] == Zeros(|mask| - 1) {
      assert mask == [mask[0]] + mask[1..];
    }
    if mask == Zeros(|mask|) {
      assert mask[1..] == Zeros(|mask|)[1..];
    }
  }

  lemma {:induction false} Pow2Grows(m: nat, n: nat)
    requires m < n
    ensures 2 * Pow2(m) <= Pow2(n)
    decreases n
  {
    if m < n - 1 { Pow2Grows(m, n - 1); }
  }

  lemma {:induction false} Pow256Is(n: nat)
    ensures Pow256(n) == Pow2(8 * n)
  {
    if n > 0 {
      Pow256Is(n - 1);
      Pow2Add(8, 8 * (n - 1));
      assert Pow2(8) == 256;
    }
  }

  lemma {:induction false} ByteOnesMeaning(v: byte, n: nat)
    ensures ByteOnes(v) == Some(n) <==> n <= 8 && 256 - v == Pow2(8 - n)
    decreases v
  {
    assert Pow2(8) == 256 && Pow2(7) == 128;
    if v == 0 {
      if 0 < n <= 8 { Pow2Grows(8 - n, 8); }
    } else if v < 128 {
      if 1 < n <= 8 { Pow2Grows(8 - n, 7); }
    } else {
      if n > 0 {
        ByteOnesMeaning(2 * v - 256, n - 1);
        if n <= 8 { assert Pow2(8 - (n - 1)) == 2 * Pow2(8 - n); }
      }
      if n == 9 { ByteOnesMeaning(2 * v - 256, 8); }
    }
  }

  /** What a mask is short of all ones, plus one. */
  function Gap(mask: seq<byte>): (g: nat)
    ensures g > 0
  {
    ValueBound(mask);
    Pow256(|mask|) - MaskValue(mask)
  }

  lemma Distribute(a: int, b: int, p: int)
    ensures (a + b) * p == a * p + b * p
  {
  }

  lemma GapStep(mask: seq<byte>)
    requires mask != []
    ensures
      var p := Pow256(|mask| - 1);
      var m := mask[0] as int;
      Gap(mask) == (255 - m) * p + Gap(mask[1..]) && 0 < Gap(mask[1..]) <= p
    ensures Gap(mask[1..]) == Pow256(|mask| - 1) <==> mask[1..] == Zeros(|mask| - 1)
  {
    hide Pow256, Zeros, Value;
    var p := Pow256(|mask| - 1);
    Pow256Step(|mask|);
    ValueZero(mask[1..]);
    ValueBound(mask[1..]);
    ValueStep(mask);
    GapArithmetic(mask[0], p, MaskValue(mask[1..]));
  }

  lemma ValueStep(mask: seq<byte>)
    requires mask != []
    ensures MaskValue(mask) == (mask[0] as int) * Pow256(|mask| - 1) + MaskValue(mask[1..])
  {
  }

  lemma GapArithmetic(m: int, p: int, v: int)
    ensures 256 * p - (m * p + v) == (255 - m) * p + (p - v)
  {
    Distribute(255 - m, m, p);
  }

  /** No power of two lies strictly between two neighbouring multiples of 2^e other than 0. */
  lemma BetweenMultiples(k: nat, e: nat, g: nat, n: nat)
    requires k > 0 && k * Pow2(e) < g < k * Pow2(e) + Pow2(e)
    ensures g != Pow2(n)
  {
    var p := Pow2(e);
    MulLe(1, k, p);
    if n <= e {
      if n < e { Pow2Grows(n, e); }
    } else {
      Pow2Add(n - e, e);
      var q := Pow2(n - e);
      hide Pow2;
      Distribute(k, 1, p);
      if q <= k { MulLe(q, k, p); } else { MulLe(k + 1, q, p); }
    }
  }

  /** MaskSize gives n exactly for the mask that is n ones followed by zeros. */
  lemma {:induction false} MaskSizeMeaning(mask: seq<byte>, n: nat)
    ensures MaskSize(mask) == Some(n) <==> n <= 8 * |mask| && Gap(mask) == Pow2(8 * |mask| - n)
    decreases |mask|
  {
    hide Gap, Value, Zeros, ByteOnes, Pow2;
    if mask == [] {
      EmptyGap(n);
    } else {
      var l := |mask| - 1;
      var rest := mask[1..];
      var p := Pow2(8 * l);
      var gap := 255 - mask[0] as int;
      Pow256Is(l);
      GapStep(mask);
      if mask[0] == 255 {
        if n >= 8 {
          MaskSizeMeaning(rest, n - 8);
        } else {
          NotBelow8(rest, n);
          assert mask == [255] + rest;
          Pow2Grows(8 * l, 8 * |mask| - n);
        }
      } else if rest == Zeros(l) {
        ByteOnesMeaning(mask[0], n);
        Distribute(gap, 1, p);
        if n <= 8 {
          Pow2Add(8 - n, 8 * l);
          Cancel(gap + 1, Pow2(8 - n), p);
        } else if n <= 8 * |mask| {
          Pow2Grows(8 * |mask| - n, 8 * l);
          MulLe(1, gap + 1, p);
        }
      } else {
        if n <= 8 * |mask| {
          BetweenMultiples(gap, 8 * l, Gap(mask), 8 * |mask| - n);
        }
      }
    }
  }

  lemma EmptyGap(n: nat)
    ensures MaskSize([]) == Some(n) <==> n <= 0 && Gap([]) == Pow2(0 - n)
  {
  }

  lemma NotBelow8(rest: seq<byte>, n: nat)
    requires n < 8
    ensures MaskSize([255] + rest) != Some(n)
  {
    assert ([255] + rest)[1..] == rest;
  }

  lemma Cancel(a: int, b: int, p: nat)
    requires p > 0
    ensures a * p == b * p <==> a == b
  {
    if a < b { MulLe(a + 1, b, p); Distribute(a, 1, p); }
    if b < a { MulLe(b + 1, a, p); Distribute(b, 1, p); }
  }

  // -------------------------------------------------------------------- merging

  function OrElse(a: Addr, b: Addr): Addr { if a == NoAddr then b else a }

  /** The acknowledgement, with what it leaves out taken from the offer. */
  function Merge(offer: Message, ack: Message): Message {
    Message(
      ack.messageType,
      if ack.address == NoAddr || IsUnspecified(ack.address) then offer.address else ack.address,
      OrElse(ack.server, offer.server),
      if ack.mask == [0, 0, 0, 0] then offer.mask else ack.mask,
      OrElse(ack.router, offer.router),
      if ack.dns == [] then offer.dns else ack.dns,
      if ack.lease == 0 then offer.lease else ack.lease)
  }

  function MergeLease(mac: seq<byte>, offer: Message, ack: Message): Result<Lease> {
    var m := Merge(offer, ack);
    if !Is4(m.address) || |m.mask| != 4 || MaskSize(m.mask).None? then Error
    else Ok(Lease(m.address, MaskSize(m.mask).value, m.router, m.dns, m.server, m.lease, mac))
  }

  /** A lease has an IPv4 address of the acknowledgement or else of the offer, and a prefix
      length of at most 32 that counts exactly the leading ones of its mask; no mask at all
      (four zero bytes) gives prefix length 0. */
  lemma LeaseIsSound(mac: seq<byte>, offer: Message, ack: Message)
    requires MergeLease(mac, offer, ack).Ok?
    ensures
      var l := MergeLease(mac, offer, ack).value;
      var mask := if ack.mask == [0, 0, 0, 0] then offer.mask else ack.mask;
      && Is4(l.address) && l.address in {offer.address, ack.address}
      && (l.address != ack.address ==> ack.address == NoAddr || IsUnspecified(ack.address))
      && |mask| == 4 && l.prefixLen <= 32
      && MaskValue(mask) == Pow256(4) - Pow2(32 - l.prefixLen)
      && (mask == [0, 0, 0, 0] <==> l.prefixLen == 0)
      && l.mac == mac
  {
    var l := MergeLease(mac, offer, ack).value;
    var mask := if ack.mask == [0, 0, 0, 0] then offer.mask else ack.mask;
    MaskSizeMeaning(mask, l.prefixLen);
    MaskSizeMeaning(mask, 0);
    ValueZero(mask);
    Pow256Is(4);
    assert Zeros(4) == [0, 0, 0, 0];
    hide MaskSize, MaskValue, Pow256, Pow2;
  }

  /** The address of the lease: the acknowledgement's, unless that is missing or unspecified. */
  function LeaseAddress(offer: Message, ack: Message): Addr {
    if ack.address == NoAddr || ack.address == V4([0, 0, 0, 0]) || ack.address == V6(Zeros(16)) then offer.address
    else ack.address
  }

  /** Offer and acknowledgement make a lease exactly when there is an IPv4 address and a mask of n
      ones followed by zeros; that n is the prefix length. */
  lemma MergesExactly(mac: seq<byte>, offer: Message, ack: Message, n: nat)
    ensures
      var r := MergeLease(mac, offer, ack);
      var mask := if ack.mask == [0, 0, 0, 0] then offer.mask else ack.mask;
      r.Ok? && r.value.prefixLen == n <==>
        Is4(LeaseAddress(offer, ack)) && |mask| == 4 && n <= 32 && MaskValue(mask) == Pow256(4) - Pow2(32 - n)
  {
    var mask := if ack.mask == [0, 0, 0, 0] then offer.mask else ack.mask;
    MaskSizeMeaning(mask, n);
    hide MaskSize, MaskValue, Pow256, Pow2;
  }

  /** Where each field of a lease comes from. */
  lemma LeaseFields(mac: seq<byte>, offer: Message, ack: Message)
    requires MergeLease(mac, offer, ack).Ok?
    ensures
      var l := MergeLease(mac, offer, ack).value;
      && l.address == LeaseAddress(offer, ack) && l.mac == mac
      && l.gateway == (if ack.router == NoAddr then offer.router else ack.router)
      && l.dns == (if ack.dns == [] then offer.dns else ack.dns)
      && l.server == (if ack.server == NoAddr then offer.server else ack.server)
      && l.duration == (if ack.lease == 0 then offer.lease else ack.lease)
  {
    hide MaskSize;
  }
}
