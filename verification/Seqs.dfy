/** Facts about sequences that the solver should not have to rediscover. */
module Seqs {
  lemma Tail<T>(a: seq<T>, b: seq<T>)
    requires a != []
    ensures (a + b)[0] == a[0] && (a + b)[1..] == a[1..] + b
  {
  }

  lemma Assoc<T>(a: seq<T>, b: seq<T>, c: seq<T>)
    ensures (a + b) + c == a + (b + c)
  {
  }

  lemma Empty<T>(a: seq<T>)
    ensures a + [] == a && [] + a == a
  {
  }

  /** Two adjacent slices make one. */
  lemma Join<T>(a: seq<T>, i: nat, j: nat, k: nat)
    requires i <= j <= k <= |a|
    ensures a[i..j] + a[j..k] == a[i..k]
  {
  }

  lemma Last<T>(a: seq<T>, x: T)
    ensures (a + [x])[..|a|] == a && (a + [x])[|a|] == x
  {
  }
}
