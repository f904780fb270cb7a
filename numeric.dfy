/**
 * Unsigned machine integers and the arithmetic on them that the codec
 * relies on: powers of two and of 256, and bitwise OR on naturals (the
 * `|=` that the shift-and-OR reader uses).
 */
module Numeric {

  type u8 = x: int | 0 <= x < 0x100
  type u16 = x: int | 0 <= x < 0x1_0000
  type u32 = x: int | 0 <= x < 0x1_0000_0000
  type u64 = x: int | 0 <= x < 0x1_0000_0000_0000_0000

  /** The byte widths that have a big-endian conversion: u8, u16, u32, u64. */
  predicate IsWidth(n: nat) {
    n == 1 || n == 2 || n == 4 || n == 8
  }

  function Pow2(n: nat): (r: nat)
    ensures r >= 1
  {
    if n == 0 then 1 else 2 * Pow2(n - 1)
  }

  function Pow256(n: nat): (r: nat)
    ensures r >= 1
  {
    if n == 0 then 1 else 256 * Pow256(n - 1)
  }

  lemma Pow256Widths()
    ensures Pow256(1) == 0x100 && Pow256(2) == 0x1_0000
    ensures Pow256(4) == 0x1_0000_0000 && Pow256(8) == 0x1_0000_0000_0000_0000
  {
  }

  lemma {:induction false} Pow2Add(a: nat, b: nat)
    ensures Pow2(a + b) == Pow2(a) * Pow2(b)
  {
    if a > 0 {
      Pow2Add(a - 1, b);
      assert Pow2(a + b) == 2 * Pow2(a - 1 + b);
    }
  }

  /** A shift by 8k bits is a multiplication by 256^k. */
  lemma {:induction false} Pow256IsPow2(k: nat)
    ensures Pow256(k) == Pow2(8 * k)
  {
    if k > 0 {
      Pow256IsPow2(k - 1);
      Pow2Add(8, 8 * (k - 1));
      assert Pow2(8) == 256;
      assert 8 * k == 8 + 8 * (k - 1);
    }
  }

  lemma {:induction false} Pow256Add(a: nat, b: nat)
    ensures Pow256(a + b) == Pow256(a) * Pow256(b)
  {
    if a > 0 {
      Pow256Add(a - 1, b);
      assert Pow256(a + b) == 256 * Pow256(a - 1 + b);
    }
  }

  lemma {:induction false} Pow256Monotone(a: nat, b: nat)
    requires a <= b
    ensures Pow256(a) <= Pow256(b)
  {
    if a < b {
      Pow256Monotone(a, b - 1);
    }
  }

  /** Bitwise OR of two naturals, bit by bit from the least significant end. */
  function BitOr(a: nat, b: nat): nat
    decreases a + b
  {
    if a == 0 then b
    else if b == 0 then a
    else 2 * BitOr(a / 2, b / 2) + (if a % 2 == 1 || b % 2 == 1 then 1 else 0)
  }

  /** Left shift of an unsigned integer of `bits` bits: high bits fall off. */
  function Shl(x: nat, s: nat, bits: nat): (r: nat)
    ensures r < Pow2(bits)
  {
    (x * Pow2(s)) % Pow2(bits)
  }

  /**
   * OR-ing a value below 2^m into a multiple of 2^m is addition: the two
   * operands have no set bit in common.
   */
  lemma {:induction false} BitOrDisjoint(c: nat, t: nat, m: nat)
    requires t < Pow2(m)
    ensures BitOr(c * Pow2(m), t) == c * Pow2(m) + t
  {
    var a := c * Pow2(m);
    if m == 0 {
      assert t == 0;
    } else if a == 0 || t == 0 {
    } else {
      var h := c * Pow2(m - 1);
      assert a == 2 * h;
      assert a / 2 == h && a % 2 == 0;
      assert t / 2 < Pow2(m - 1);
      BitOrDisjoint(c, t / 2, m - 1);
      assert BitOr(a, t) == 2 * BitOr(h, t / 2) + (if t % 2 == 1 then 1 else 0);
    }
  }

  /** A shift that keeps every bit of its operand is a multiplication. */
  lemma ShlNoOverflow(x: nat, s: nat, bits: nat)
    requires x * Pow2(s) < Pow2(bits)
    ensures Shl(x, s, bits) == x * Pow2(s)
  {
    ModOfSmall(x * Pow2(s), Pow2(bits));
  }

  lemma ModOfSmall(a: nat, m: nat)
    requires a < m
    ensures a % m == a
  {
  }
}
