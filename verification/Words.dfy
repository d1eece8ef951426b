/** Unsigned machine words as naturals: the bitwise operators digit by digit, and what they do to single bits. */
module Words {
  function Pow2(n: nat): (p: nat)
    ensures p > 0
  {
    if n == 0 then 1 else 2 * Pow2(n - 1)
  }

  const U64_LIMIT: nat := 0x1_0000_0000_0000_0000

  type u64 = w: nat | w < U64_LIMIT

  /** `w >> k`. */
  function Shr(w: nat, k: nat): nat {
    if k == 0 then w else Shr(w / 2, k - 1)
  }

  /** The bit test `(w >> k) & 1 == 1`. */
  predicate Has(w: nat, k: nat) {
    Shr(w, k) % 2 == 1
  }

  /** `a & b`. */
  function And(a: nat, b: nat): (r: nat)
    ensures r <= a && r <= b
  {
    if a == 0 || b == 0 then 0 else 2 * And(a / 2, b / 2) + (if a % 2 == 1 && b % 2 == 1 then 1 else 0)
  }

  /** `a | b`. */
  function Or(a: nat, b: nat): nat
    decreases a + b
  {
    if a == 0 && b == 0 then 0 else 2 * Or(a / 2, b / 2) + (if a % 2 == 1 || b % 2 == 1 then 1 else 0)
  }

  /** `!a` in a word of `width` bits. */
  function Not(width: nat, a: nat): nat
    requires a < Pow2(width)
  {
    Pow2(width) - 1 - a
  }

  lemma {:induction false} ShrSum(w: nat, a: nat, b: nat)
    ensures Shr(w, a + b) == Shr(Shr(w, a), b)
    decreases a
  {
    if a > 0 { ShrSum(w / 2, a - 1, b); }
  }

  lemma {:induction false} HasAnd(a: nat, b: nat, k: nat)
    ensures Has(And(a, b), k) <==> Has(a, k) && Has(b, k)
    decreases k
  {
    var r := And(a, b);
    assert a == 0 || b == 0 ==> r == 0;
    assert r / 2 == And(a / 2, b / 2);
    if k > 0 { HasAnd(a / 2, b / 2, k - 1); }
  }

  lemma {:induction false} HasOr(a: nat, b: nat, k: nat)
    ensures Has(Or(a, b), k) <==> Has(a, k) || Has(b, k)
    decreases k
  {
    assert Or(a, b) / 2 == Or(a / 2, b / 2);
    if k > 0 { HasOr(a / 2, b / 2, k - 1); }
  }

  lemma {:induction false} HasPow2(n: nat, k: nat)
    ensures Has(Pow2(n), k) <==> n == k
    decreases k
  {
    if n == 0 {
      if k > 0 { ZeroHasNothing(k - 1); }
    } else if k > 0 {
      assert Pow2(n) / 2 == Pow2(n - 1);
      HasPow2(n - 1, k - 1);
    }
  }

  lemma {:induction false} ZeroHasNothing(k: nat)
    ensures !Has(0, k)
  {
    if k > 0 { ZeroHasNothing(k - 1); }
  }

  lemma {:induction false} HasNot(width: nat, a: nat, k: nat)
    requires a < Pow2(width) && k < width
    ensures Has(Not(width, a), k) <==> !Has(a, k)
    decreases k
  {
    if k > 0 {
      assert Not(width, a) / 2 == Not(width - 1, a / 2);
      HasNot(width - 1, a / 2, k - 1);
    }
  }

  lemma {:induction false} OrFits(width: nat, a: nat, b: nat)
    requires a < Pow2(width) && b < Pow2(width)
    ensures Or(a, b) < Pow2(width)
    decreases width
  {
    if width > 0 { OrFits(width - 1, a / 2, b / 2); }
  }

  lemma {:induction false} Pow2Grows(n: nat, m: nat)
    requires n < m
    ensures Pow2(n) < Pow2(m)
  {
    if n + 1 < m { Pow2Grows(n, m - 1); }
  }

  lemma Pow2Doubled(n: nat, p: nat)
    requires Pow2(n) == p
    ensures Pow2(2 * n) == p * p
  {
    Pow2Sum(n, n);
  }

  lemma {:induction false} Pow2Sum(n: nat, m: nat)
    ensures Pow2(n + m) == Pow2(n) * Pow2(m)
  {
    if n > 0 {
      Pow2Sum(n - 1, m);
      assert 2 * (Pow2(n - 1) * Pow2(m)) == Pow2(n) * Pow2(m);
    }
  }

  lemma Pow2Of64()
    ensures Pow2(64) == U64_LIMIT
  {
    assert Pow2(8) == 256;
    Pow2Doubled(8, 256);
    Pow2Doubled(16, 0x1_0000);
    Pow2Doubled(32, 0x1_0000_0000);
  }

  // ----- the word operations of the mask -----

  /** The word `1 << k`. */
  function Bit(k: nat): u64
    requires k < 64
  {
    Pow2Of64();
    Pow2Grows(k, 64);
    Pow2(k)
  }

  /** `w | (1 << k)`. */
  function WithBit(w: u64, k: nat): u64
    requires k < 64
  {
    Pow2Of64();
    OrFits(64, w, Bit(k));
    Or(w, Bit(k))
  }

  /** `w & !(1 << k)`. */
  function WithoutBit(w: u64, k: nat): u64
    requires k < 64
  {
    Pow2Of64();
    And(w, Not(64, Bit(k)))
  }

  lemma HasWithBit(w: u64, k: nat, j: nat)
    requires k < 64 && j < 64
    ensures Has(WithBit(w, k), j) <==> j == k || Has(w, j)
  {
    HasOr(w, Bit(k), j);
    HasPow2(k, j);
  }

  lemma HasWithoutBit(w: u64, k: nat, j: nat)
    requires k < 64 && j < 64
    ensures Has(WithoutBit(w, k), j) <==> j != k && Has(w, j)
  {
    Pow2Of64();
    HasAnd(w, Not(64, Bit(k)), j);
    HasNot(64, Bit(k), j);
    HasPow2(k, j);
  }

  // ----- little-endian bytes -----

  /** Byte `o` of `w.to_le_bytes()`. */
  function LeByte(w: u64, o: nat): (b: nat)
    ensures b < 256
  {
    And(Shr(w, 8 * o), 255)
  }

  lemma LeByteHas(w: u64, o: nat, k: nat)
    requires k < 8
    ensures Has(LeByte(w, o), k) <==> Has(w, 8 * o + k)
  {
    assert Pow2(8) == 256 && Not(8, 0) == 255;
    ShrSum(w, 8 * o, k);
    HasAnd(Shr(w, 8 * o), 255, k);
    HasNot(8, 0, k);
    ZeroHasNothing(k);
  }
}
