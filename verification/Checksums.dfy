/** The Internet checksum of RFC 1071 as dhcp.go computes it, in 32-bit arithmetic. */
module Checksums {
  import opened Bytes

  /** The sum of the big-endian 16-bit words; an odd last byte is the high half of a word. */
  function WordSum(data: seq<byte>): nat {
    if |data| >= 2 then FromBigEndian16(data[..2]) + WordSum(data[2..])
    else if |data| == 1 then (data[0] as int) * 0x100
    else 0
  }

  /** The end-around carries of the second loop. */
  function Fold(sum: nat): u16
    decreases sum
  {
    if sum / W16 != 0 then Fold(sum % W16 + sum / W16) else sum
  }

  function Checksum(data: seq<byte>): u16 {
    0xffff - Fold(Wrap32(WordSum(data)))
  }

  method InternetChecksum(data: seq<byte>) returns (c: u16)
    ensures c == Checksum(data)
  {
    hide Fold, FromBigEndian16;
    var sum: u32 := 0;
    var rest := data;
    while |rest| >= 2
      invariant Wrap32(sum + WordSum(rest)) == Wrap32(WordSum(data))
      decreases |rest|
    {
      var word := FromBigEndian16(rest[..2]);
      WrapAdd(sum + word, WordSum(rest[2..]));
      sum := Wrap32(sum + word);
      rest := rest[2..];
    }
    if |rest| == 1 {
      sum := Wrap32(sum + (rest[0] as int) * 0x100);
    }
    c := FoldLoop(sum);
  }

  /** The folding loop terminates, in 32 bits. */
  method FoldLoop(start: u32) returns (c: u16)
    ensures c == 0xffff - Fold(start)
  {
    var sum: u32 := start;
    while sum / W16 != 0
      invariant Fold(sum) == Fold(start)
      decreases sum
    {
      sum := sum % W16 + sum / W16;
    }
    c := 0xffff - sum;
  }

  lemma WrapAdd(a: int, b: int)
    ensures Wrap32(Wrap32(a) + b) == Wrap32(a + b)
  {
  }

  /** Folding keeps the sum modulo 65535, and yields zero only for zero. */
  lemma {:induction false} FoldValue(sum: nat)
    ensures Fold(sum) == if sum == 0 then 0 else (sum - 1) % 0xffff + 1
    decreases sum
  {
    if sum / W16 != 0 {
      var next := sum % W16 + sum / W16;
      FoldValue(next);
      assert sum == next + 0xffff * (sum / W16);
      Shift(next - 1, sum / W16);
    }
  }

  lemma {:induction false} Shift(x: int, k: nat)
    ensures (x + 0xffff * k) % 0xffff == x % 0xffff
    decreases k
  {
    if k > 0 {
      Shift(x, k - 1);
      assert (x + 0xffff * (k - 1) + 0xffff) % 0xffff == (x + 0xffff * (k - 1)) % 0xffff;
    }
  }

  lemma FullWord(sum: nat)
    requires sum > 0
    ensures (sum - 1) % 0xffff + 1 == 0xffff <==> sum % 0xffff == 0
  {
    var q, r := (sum - 1) / 0xffff, (sum - 1) % 0xffff;
    assert sum == 0xffff * q + (r + 1);
    Shift(r + 1, q);
  }

  /** The one's complement brings a sum to the next multiple of 65535. */
  lemma Complement(sum: nat)
    ensures
      var folded := if sum == 0 then 0 else (sum - 1) % 0xffff + 1;
      sum + (0xffff - folded) > 0 && (sum + (0xffff - folded)) % 0xffff == 0
  {
    if sum > 0 {
      var q := (sum - 1) / 0xffff;
      assert sum - (sum - 1) % 0xffff - 1 == 0xffff * q;
      Shift(0, q + 1);
    }
  }

  /** A checksum of zero means that the words sum to a multiple of 65535 other than zero. */
  lemma ResidualZero(data: seq<byte>)
    requires WordSum(data) < W32
    ensures Checksum(data) == 0 <==> WordSum(data) > 0 && WordSum(data) % 0xffff == 0
  {
    hide WordSum, Fold;
    var sum := WordSum(data);
    FoldValue(sum);
    if sum > 0 { FullWord(sum); }
  }

  lemma {:induction false} WordSumBound(data: seq<byte>)
    ensures WordSum(data) <= 0xffff * ((|data| + 1) / 2)
    decreases |data|
  {
    if |data| >= 2 { WordSumBound(data[2..]); }
  }

  /** Storing a word where there was none adds its value to the sum. */
  lemma {:induction false} WordSumStore(data: seq<byte>, at: nat, word: u16)
    requires at % 2 == 0 && at + 1 < |data| && data[at] == 0 && data[at + 1] == 0
    ensures WordSum(data[at := word / 0x100][at + 1 := word % 0x100]) == WordSum(data) + word
    decreases at
  {
    var stored := data[at := word / 0x100][at + 1 := word % 0x100];
    if at == 0 {
      assert stored[2..] == data[2..];
      assert stored[..2] == BigEndian16(word);
    } else {
      WordSumStore(data[2..], at - 2, word);
      assert stored[..2] == data[..2];
      assert stored[2..] == data[2..][at - 2 := word / 0x100][at - 1 := word % 0x100];
    }
  }

  /** Soundness: in any block of up to 131070 bytes, storing the checksum at an even offset that
      held zero makes the checksum of the whole block zero. */
  lemma StoredChecksumVerifies(data: seq<byte>, at: nat)
    requires |data| <= 2 * 0xffff
    requires at % 2 == 0 && at + 1 < |data| && data[at] == 0 && data[at + 1] == 0
    ensures
      var c := Checksum(data);
      Checksum(data[at := c / 0x100][at + 1 := c % 0x100]) == 0
  {
    hide WordSum, Fold;
    var c := Checksum(data);
    WordSumBound(data);
    WordSumStore(data, at, c);
    FoldValue(WordSum(data));
    Complement(WordSum(data));
    ResidualZero(data[at := c / 0x100][at + 1 := c % 0x100]);
  }

  // ----------------------------------------------------------------------- closed form

  /** Bytes at even positions count 256 times, those at odd positions once. */
  function ByteSum(data: seq<byte>): nat {
    if data == [] then 0
    else
      var l := |data| - 1;
      ByteSum(data[..l]) + (data[l] as int) * if l % 2 == 0 then 0x100 else 1
  }

  lemma {:induction false} SumBehind(word: seq<byte>, rest: seq<byte>)
    requires |word| == 2
    ensures ByteSum(word + rest) == (word[0] as int) * 0x100 + word[1] as int + ByteSum(rest)
    decreases |rest|
  {
    if rest == [] {
      assert word + rest == word && word[..1] == [word[0]] && [word[0]][..0] == [];
      assert ByteSum([word[0]]) == (word[0] as int) * 0x100;
    } else {
      var l := |rest| - 1;
      assert (word + rest)[..|word + rest| - 1] == word + rest[..l];
      SumBehind(word, rest[..l]);
    }
  }

  lemma {:induction false} WordSumIs(data: seq<byte>)
    ensures WordSum(data) == ByteSum(data)
    decreases |data|
  {
    if |data| >= 2 {
      WordSumIs(data[2..]);
      SumBehind(data[..2], data[2..]);
      assert data == data[..2] + data[2..];
    } else if |data| == 1 {
      assert data[..0] == [];
    }
  }

  /** The checksum of every block: the complement of the sum modulo 65535, in 32 bits, where a sum
      that is not zero folds to a value that is not zero. */
  lemma ChecksumExactly(data: seq<byte>)
    ensures
      var sum := ByteSum(data) % 0x1_0000_0000;
      Checksum(data) == if sum == 0 then 0xffff else 0xfffe - (sum - 1) % 0xffff
  {
    WordSumIs(data);
    FoldValue(Wrap32(WordSum(data)));
    hide WordSum, Fold, ByteSum;
  }
}
