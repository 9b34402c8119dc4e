/** A file written field by field, at rising offsets, into a buffer of zeros. */
module Patches {
  import opened Bytes
  import opened Seqs
  import opened Buffers

  datatype Patch = Patch(at: nat, bytes: seq<byte>) {
    function End(): nat { at + |bytes| }
  }

  /** No patch reaches into the next one. */
  predicate Rising(ps: seq<Patch>) {
    forall i :: 0 <= i < |ps| - 1 ==> ps[i].End() <= ps[i + 1].at
  }

  predicate Fits(ps: seq<Patch>, size: nat) {
    forall i :: 0 <= i < |ps| ==> ps[i].End() <= size
  }

  function Apply(s: seq<byte>, ps: seq<Patch>): (r: seq<byte>)
    requires Fits(ps, |s|)
    ensures |r| == |s|
  {
    if ps == [] then s
    else
      var last := ps[|ps| - 1];
      Splice(Apply(s, ps[..|ps| - 1]), last.at, last.bytes)
  }

  lemma ApplyNext(s: seq<byte>, ps: seq<Patch>, p: Patch)
    requires Fits(ps + [p], |s|)
    ensures Fits(ps, |s|) && p.End() <= |s|
    ensures Apply(s, ps + [p]) == Splice(Apply(s, ps), p.at, p.bytes)
  {
    Last(ps, p);
    assert forall i :: 0 <= i < |ps| ==> ps[i] == (ps + [p])[i];
    assert (ps + [p])[|ps|] == p;
  }

  lemma RisingJoin(a: seq<Patch>, b: seq<Patch>)
    requires Rising(a) && Rising(b)
    requires a != [] && b != [] ==> a[|a| - 1].End() <= b[0].at
    ensures Rising(a + b)
  {
  }

  lemma FitsJoin(a: seq<Patch>, b: seq<Patch>, size: nat)
    requires Fits(a, size) && Fits(b, size)
    ensures Fits(a + b, size)
  {
  }

  lemma FitsMore(ps: seq<Patch>, m: nat, n: nat)
    requires Fits(ps, m) && m <= n
    ensures Fits(ps, n)
  {
  }

  lemma One(p: Patch, size: nat)
    requires p.End() <= size
    ensures Rising([p]) && Fits([p], size)
  {
  }

  lemma {:induction false} LaterStarts(ps: seq<Patch>, k: nat, j: nat)
    requires Rising(ps) && k < j < |ps|
    ensures ps[k].End() <= ps[j].at
  {
    if k + 1 < j { LaterStarts(ps, k, j - 1); }
  }

  /** Every field reads back as it was written. */
  lemma {:induction false} PatchRead(s: seq<byte>, ps: seq<Patch>, k: nat)
    requires Fits(ps, |s|) && Rising(ps) && k < |ps|
    ensures ps[k].End() <= |s| && Apply(s, ps)[ps[k].at..ps[k].End()] == ps[k].bytes
  {
    var n := |ps| - 1;
    var before := Apply(s, ps[..n]);
    if k == n {
      SpliceAt(before, ps[n].at, ps[n].bytes);
    } else {
      PatchRead(s, ps[..n], k);
      LaterStarts(ps, k, n);
      SpliceElsewhere(before, ps[n].at, ps[n].bytes, ps[k].at, ps[k].End());
    }
  }

  /** What no field covers stays as it was. */
  lemma {:induction false} Untouched(s: seq<byte>, ps: seq<Patch>, i: nat)
    requires Fits(ps, |s|) && i < |s|
    requires forall k :: 0 <= k < |ps| ==> !(ps[k].at <= i < ps[k].End())
    ensures Apply(s, ps)[i] == s[i]
  {
    if ps != [] {
      var n := |ps| - 1;
      Untouched(s, ps[..n], i);
      assert !(ps[n].at <= i < ps[n].End());
    }
  }
}
