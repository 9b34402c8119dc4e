/** Writing into the middle of a buffer. */
module Buffers {
  import opened Bytes

  function Zeros(n: nat): (s: seq<byte>)
    ensures |s| == n
  {
    seq(n, i => 0)
  }

  /** s with b at offset at. */
  function Splice(s: seq<byte>, at: nat, b: seq<byte>): (r: seq<byte>)
    requires at + |b| <= |s|
    ensures |r| == |s|
  {
    s[..at] + b + s[at + |b|..]
  }

  /** Go's copy into a buffer that has room for all of src. */
  method Copy(buffer: array<byte>, at: nat, src: seq<byte>)
    requires at + |src| <= buffer.Length
    modifies buffer
    ensures buffer[..] == Splice(old(buffer[..]), at, src)
  {
    ghost var before := buffer[..];
    for i := 0 to |src|
      invariant forall j :: 0 <= j < buffer.Length ==>
        buffer[j] == if at <= j < at + i then src[j - at] else before[j]
    {
      buffer[at + i] := src[i];
    }
    assert forall j :: 0 <= j < buffer.Length ==> Splice(before, at, src)[j] == buffer[j];
  }

  /** Splicing behind base, seen from base. */
  lemma SpliceBehind(s: seq<byte>, base: nat, at: nat, b: seq<byte>)
    requires base + at + |b| <= |s|
    ensures Splice(s, base + at, b)[..base] == s[..base]
    ensures Splice(s, base + at, b)[base..] == Splice(s[base..], at, b)
  {
    var r := Splice(s, base + at, b);
    assert forall i :: 0 <= i < |s| - base ==> r[base..][i] == Splice(s[base..], at, b)[i];
  }

  lemma SpliceNothing(s: seq<byte>, at: nat)
    requires at <= |s|
    ensures Splice(s, at, []) == s
  {
  }

  lemma SpliceTwice(s: seq<byte>, at: nat, a: seq<byte>, b: seq<byte>)
    requires at + |a| + |b| <= |s|
    ensures Splice(Splice(s, at, a), at + |a|, b) == Splice(s, at, a + b)
  {
    var once := Splice(s, at, a);
    assert once[..at + |a|] == s[..at] + a;
    assert once[at + |a| + |b|..] == s[at + |a| + |b|..];
    assert s[..at] + a + b == s[..at] + (a + b);
  }

  /** Writing inside a block that was spliced in. */
  lemma SpliceInside(s: seq<byte>, base: nat, x: seq<byte>, at: nat, y: seq<byte>)
    requires base + |x| <= |s| && at + |y| <= |x|
    ensures Splice(Splice(s, base, x), base + at, y) == Splice(s, base, Splice(x, at, y))
  {
    var l, r := Splice(Splice(s, base, x), base + at, y), Splice(s, base, Splice(x, at, y));
    assert forall i :: 0 <= i < |s| ==> l[i] == r[i];
  }

  lemma SpliceAt(s: seq<byte>, at: nat, b: seq<byte>)
    requires at + |b| <= |s|
    ensures Splice(s, at, b)[at..at + |b|] == b
  {
  }

  lemma SpliceElsewhere(s: seq<byte>, at: nat, b: seq<byte>, i: nat, j: nat)
    requires at + |b| <= |s| && i <= j <= |s| && (j <= at || at + |b| <= i)
    ensures Splice(s, at, b)[i..j] == s[i..j]
  {
    assert forall m :: 0 <= m < j - i ==> Splice(s, at, b)[i..j][m] == s[i..j][m];
  }

  lemma SpliceSame(s: seq<byte>, at: nat, n: nat)
    requires at + n <= |s|
    ensures Splice(s, at, s[at..at + n]) == s
  {
  }
}
