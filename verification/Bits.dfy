/** The bitwise operators that the code generators use, on non-negative integers. Masks with
    2^k - 1 and shifts are written as remainders, products and quotients. */
module Bits {
  function Pow2(n: nat): (p: nat)
    ensures p > 0
  {
    if n == 0 then 1 else 2 * Pow2(n - 1)
  }

  lemma {:induction false} Pow2Add(m: nat, n: nat)
    ensures Pow2(m + n) == Pow2(m) * Pow2(n)
  {
    if m > 0 {
      Pow2Add(m - 1, n);
      MulAssoc(2, Pow2(m - 1), Pow2(n));
    }
  }

  /** The field positions of the instructions. */
  lemma Pow2Values()
    ensures Pow2(5) == 0x20 && Pow2(21) == 0x20_0000 && Pow2(26) == 0x400_0000
    ensures Pow2(28) == 0x1000_0000 && Pow2(29) == 0x2000_0000 && Pow2(32) == 0x1_0000_0000
  {
    assert Pow2(8) == 0x100;
    Pow2Add(8, 8);
    Pow2Add(16, 5);
    Pow2Add(21, 5);
    Pow2Add(21, 7);
    Pow2Add(21, 8);
    Pow2Add(16, 16);
  }

  lemma MulAssoc(x: int, y: int, z: int)
    ensures (x * y) * z == x * (y * z)
  {
  }

  /** a | b */
  function Or(a: nat, b: nat): (r: nat) {
    if a == 0 then b
    else if b == 0 then a
    else 2 * Or(a / 2, b / 2) + (if a % 2 == 1 || b % 2 == 1 then 1 else 0)
  }

  lemma {:induction false} OrCommutes(a: nat, b: nat)
    ensures Or(a, b) == Or(b, a)
  {
    if a != 0 && b != 0 {
      OrCommutes(a / 2, b / 2);
    }
  }

  lemma {:induction false} OrBound(a: nat, b: nat, k: nat)
    requires a < Pow2(k) && b < Pow2(k)
    ensures Or(a, b) < Pow2(k)
  {
    if a != 0 && b != 0 {
      OrBound(a / 2, b / 2, k - 1);
    }
  }

  /** Fields that do not overlap add up. */
  lemma {:induction false} OrDisjoint(high: nat, k: nat, low: nat)
    requires low < Pow2(k)
    ensures Or(high * Pow2(k), low) == high * Pow2(k) + low
  {
    if k > 0 && high * Pow2(k) != 0 && low != 0 {
      var h := high * Pow2(k - 1);
      assert high * Pow2(k) == 2 * h by {
        MulAssoc(2, high, Pow2(k - 1));
        assert high * (2 * Pow2(k - 1)) == 2 * high * Pow2(k - 1);
      }
      OrDisjoint(high, k - 1, low / 2);
    }
  }
}
