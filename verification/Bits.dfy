/** Bitwise operations of the unsigned machine words, on the naturals they denote. */
module Bits {

  /** Width of a machine word and the number of its values. */
  const WORD_BITS: nat := 64
  const RADIX: nat := 0x1_0000_0000_0000_0000

  function Pow2(n: nat): (r: nat)
    ensures r > 0
  {
    if n == 0 then 1 else 2 * Pow2(n - 1)
  }

  /** Bit k of x. */
  predicate Bit(x: nat, k: nat)
  {
    if k == 0 then x % 2 == 1 else Bit(x / 2, k - 1)
  }

  function Or(a: nat, b: nat): (result: nat)
    decreases a + b
  {
    if a == 0 then b
    else if b == 0 then a
    else 2 * Or(a / 2, b / 2) + (if a % 2 == 1 || b % 2 == 1 then 1 else 0)
  }

  function And(a: nat, b: nat): (result: nat)
  {
    if a == 0 || b == 0 then 0
    else 2 * And(a / 2, b / 2) + (if a % 2 == 1 && b % 2 == 1 then 1 else 0)
  }

  /** Left shift without a word boundary. */
  function Shl(x: nat, n: nat): (result: nat)
  {
    if n == 0 then x else 2 * Shl(x, n - 1)
  }

  function Shr(x: nat, n: nat): (result: nat)
  {
    if n == 0 then x else Shr(x / 2, n - 1)
  }

  /** The low m bits. */
  function Low(x: nat, m: nat): (result: nat)
  {
    if m == 0 then 0 else 2 * Low(x / 2, m - 1) + x % 2
  }

  /** The number whose low m bits are lo and whose remaining bits are hi. */
  function Join(lo: nat, hi: nat, m: nat): (result: nat)
  {
    if m == 0 then hi else 2 * Join(lo / 2, hi, m - 1) + lo % 2
  }

  // ---- shifts and masks as arithmetic ----

  lemma {:induction false} PowAdd(a: nat, b: nat)
    ensures Pow2(a + b) == Pow2(a) * Pow2(b)
  {
    if a > 0 {
      PowAdd(a - 1, b);
      assert Pow2(a + b) == 2 * (Pow2(a - 1) * Pow2(b));
    }
  }

  lemma {:induction false} PowMonotone(a: nat, b: nat)
    requires a <= b
    ensures Pow2(a) <= Pow2(b)
  {
    if a < b { PowMonotone(a, b - 1); }
  }

  lemma PowRadix()
    ensures Pow2(WORD_BITS) == RADIX
  {
    var four, eight, sixteen, half := 4, 8, 16, 32;
    assert Pow2(2) == 4;
    PowAdd(2, 2);
    PowAdd(four, four);
    PowAdd(eight, eight);
    PowAdd(sixteen, sixteen);
    PowAdd(half, half);
    assert half + half == WORD_BITS;
  }

  lemma {:induction false} ShlMul(x: nat, n: nat)
    ensures Shl(x, n) == x * Pow2(n)
  {
    if n > 0 {
      ShlMul(x, n - 1);
      assert x * Pow2(n) == 2 * (x * Pow2(n - 1));
    }
  }

  lemma {:induction false} ShlAdd(x: nat, y: nat, n: nat)
    ensures Shl(x + y, n) == Shl(x, n) + Shl(y, n)
  {
    if n > 0 { ShlAdd(x, y, n - 1); }
  }

  lemma {:induction false} ShlShl(x: nat, m: nat, n: nat)
    ensures Shl(Shl(x, m), n) == Shl(x, m + n)
    decreases n
  {
    if n > 0 { ShlShl(x, m, n - 1); }
  }

  lemma {:induction false} ShlSwap(x: nat, n: nat)
    ensures Shl(2 * x, n) == 2 * Shl(x, n)
  {
    if n > 0 { ShlSwap(x, n - 1); }
  }

  lemma {:induction false} ShlZero(n: nat)
    ensures Shl(0, n) == 0
  {
    if n > 0 { ShlZero(n - 1); }
  }

  lemma {:induction false} ShrDiv(x: nat, n: nat)
    ensures Shr(x, n) == x / Pow2(n)
    decreases n
  {
    if n > 0 {
      ShrDiv(x / 2, n - 1);
      HalveDiv(x, Pow2(n - 1));
    }
  }

  lemma HalveDiv(x: nat, p: nat)
    requires p > 0
    ensures (x / 2) / p == x / (2 * p)
    ensures (x / 2) % p == (x % (2 * p)) / 2
    ensures (x % (2 * p)) % 2 == x % 2
  {
    var q, r := x / (2 * p), x % (2 * p);
    assert x == 2 * (p * q) + r;
    assert r / 2 < p;
    DivModUnique(x / 2, p, q, r / 2);
  }

  lemma {:induction false} LowMod(x: nat, m: nat)
    ensures Low(x, m) == x % Pow2(m)
    decreases m
  {
    if m > 0 {
      LowMod(x / 2, m - 1);
      HalveDiv(x, Pow2(m - 1));
    }
  }

  lemma {:induction false} LowBound(x: nat, m: nat)
    ensures Low(x, m) < Pow2(m)
    decreases m
  {
    if m > 0 { LowBound(x / 2, m - 1); }
  }

  lemma {:induction false} LowSmall(x: nat, m: nat)
    requires x < Pow2(m)
    ensures Low(x, m) == x
    decreases m
  {
    if m > 0 { LowSmall(x / 2, m - 1); }
  }

  /** What lies above bit m does not reach the low m bits. */
  lemma {:induction false} LowJoin(lo: nat, hi: nat, m: nat)
    requires lo < Pow2(m)
    ensures Low(lo + Shl(hi, m), m) == lo
    decreases m
  {
    if m > 0 {
      assert (lo + Shl(hi, m)) / 2 == lo / 2 + Shl(hi, m - 1);
      LowJoin(lo / 2, hi, m - 1);
    }
  }

  lemma {:induction false} JoinShl(lo: nat, hi: nat, m: nat)
    requires lo < Pow2(m)
    ensures Join(lo, hi, m) == lo + Shl(hi, m)
    decreases m
  {
    if m > 0 { JoinShl(lo / 2, hi, m - 1); }
  }

  lemma {:induction false} LowShl(x: nat, b: nat, m: nat)
    ensures Low(Shl(x, b), b + m) == Shl(Low(x, m), b)
    decreases b
  {
    if b > 0 {
      assert Shl(x, b) / 2 == Shl(x, b - 1) && Shl(x, b) % 2 == 0;
      LowShl(x, b - 1, m);
    }
  }

  lemma {:induction false} ShrShl(x: nat, b: nat, m: nat)
    ensures Shr(Shl(x, b), b + m) == Shr(x, m)
    decreases b
  {
    if b > 0 {
      assert Shl(x, b) / 2 == Shl(x, b - 1);
      ShrShl(x, b - 1, m);
    }
  }

  lemma {:induction false} ShrBound(x: nat, m: nat, n: nat)
    requires x < Pow2(m + n)
    ensures Shr(x, m) < Pow2(n)
    decreases m
  {
    if m > 0 { ShrBound(x / 2, m - 1, n); }
  }

  lemma {:induction false} ShlBound(x: nat, n: nat, m: nat)
    requires x < Pow2(n)
    ensures Shl(x, m) + Pow2(m) <= Pow2(m + n)
    decreases m
  {
    if m > 0 { ShlBound(x, n, m - 1); }
  }

  /** Shifting by a whole word multiplies by the radix. */
  lemma {:induction false} ShlWord(x: nat, m: nat, n: nat)
    requires n == m + WORD_BITS
    ensures Shl(x, n) == RADIX * Shl(x, m)
  {
    ShlShl(x, m, WORD_BITS);
    ShlMul(Shl(x, m), WORD_BITS);
    PowRadix();
  }

  lemma DivModUnique(x: nat, d: nat, q: nat, r: nat)
    requires d > 0 && r < d && x == d * q + r
    ensures x / d == q && x % d == r
  {
    var q', r' := x / d, x % d;
    assert x == d * q' + r';
    assert d * (q' - q) == r - r';
    SmallMultiple(d, q' - q);
  }

  lemma SmallMultiple(d: int, k: int)
    requires d > 0 && -d < d * k < d
    ensures k == 0
  {
    if k > 0 {
      AtLeastOnce(d, k);
    } else if k < 0 {
      AtLeastOnce(d, -k);
    }
  }

  lemma {:induction false} AtLeastOnce(d: int, k: int)
    requires d > 0 && k >= 1
    ensures d * k >= d
    decreases k
  {
    if k > 1 {
      AtLeastOnce(d, k - 1);
      assert d * k == d * (k - 1) + d;
    }
  }

  // ---- single bits ----

  lemma {:induction false} ZeroBits(k: nat)
    ensures !Bit(0, k)
  {
    if k > 0 { ZeroBits(k - 1); }
  }

  lemma {:induction false} BitOr(a: nat, b: nat, k: nat)
    ensures Bit(Or(a, b), k) == (Bit(a, k) || Bit(b, k))
    decreases k
  {
    ZeroBits(k);
    if a != 0 && b != 0 && k > 0 {
      BitOr(a / 2, b / 2, k - 1);
      assert Or(a, b) / 2 == Or(a / 2, b / 2);
    }
  }

  /** The machine test `x & (1 << k) != 0` reads bit k. */
  lemma {:induction false} AndTestsBit(x: nat, k: nat)
    ensures (And(x, Pow2(k)) != 0) == Bit(x, k)
    decreases k
  {
    if x == 0 {
      ZeroBits(k);
    } else if k == 0 {
      assert Pow2(0) / 2 == 0;
    } else {
      AndTestsBit(x / 2, k - 1);
      assert Pow2(k) / 2 == Pow2(k - 1) && Pow2(k) % 2 == 0;
    }
  }

  lemma {:induction false} BitPow2(d: nat, k: nat)
    ensures Bit(Pow2(d), k) == (k == d)
    decreases k
  {
    if k == 0 {
    } else if d == 0 {
      ZeroBits(k - 1);
    } else {
      assert Pow2(d) / 2 == Pow2(d - 1);
      BitPow2(d - 1, k - 1);
    }
  }

  /** Shifting moves every bit up n places. */
  lemma {:induction false} BitShl(x: nat, n: nat, k: nat)
    ensures Bit(Shl(x, n), k) == (k >= n && Bit(x, k - n))
    decreases n
  {
    if n > 0 && k > 0 {
      assert Shl(x, n) / 2 == Shl(x, n - 1);
      BitShl(x, n - 1, k - 1);
    }
  }

  /** Masking keeps exactly the bits below m. */
  lemma {:induction false} BitLow(x: nat, m: nat, k: nat)
    ensures Bit(Low(x, m), k) == (k < m && Bit(x, k))
    decreases m
  {
    if m == 0 {
      ZeroBits(k);
    } else if k > 0 {
      assert Low(x, m) / 2 == Low(x / 2, m - 1);
      BitLow(x / 2, m - 1, k - 1);
    }
  }

  lemma {:induction false} BitJoin(lo: nat, hi: nat, m: nat, k: nat)
    requires lo < Pow2(m)
    ensures Bit(Join(lo, hi, m), k) == if k < m then Bit(lo, k) else Bit(hi, k - m)
    decreases m
  {
    if m > 0 {
      var j := Join(lo / 2, hi, m - 1);
      assert Join(lo, hi, m) == 2 * j + lo % 2;
      if k > 0 {
        BitJoin(lo / 2, hi, m - 1, k - 1);
        assert Bit(Join(lo, hi, m), k) == Bit(j, k - 1) by { assert (2 * j + lo % 2) / 2 == j; }
      }
    }
  }

  // ---- disjoint parts ----

  lemma {:induction false} OrHalves(a: nat, b: nat)
    ensures Or(a, b) == 2 * Or(a / 2, b / 2) + (if a % 2 == 1 || b % 2 == 1 then 1 else 0)
  {
  }

  /** Or works on the low m bits and the rest independently. */
  lemma {:induction false} OrJoin(lo1: nat, hi1: nat, lo2: nat, hi2: nat, m: nat)
    requires lo1 < Pow2(m) && lo2 < Pow2(m)
    ensures Or(lo1, lo2) < Pow2(m)
    ensures Or(Join(lo1, hi1, m), Join(lo2, hi2, m)) == Join(Or(lo1, lo2), Or(hi1, hi2), m)
    decreases m
  {
    if m > 0 {
      OrJoin(lo1 / 2, hi1, lo2 / 2, hi2, m - 1);
      OrHalves(Join(lo1, hi1, m), Join(lo2, hi2, m));
      OrHalves(lo1, lo2);
    }
  }

  /** Two words whose bits do not overlap are joined by addition. */
  lemma {:induction false} OrDisjoint(a: nat, b: nat, m: nat)
    requires b < Pow2(m)
    ensures Or(Shl(a, m), b) == Shl(a, m) + b
  {
    JoinShl(0, a, m);
    JoinShl(b, 0, m);
    ShlZero(m);
    OrJoin(0, a, b, 0, m);
    JoinShl(b, a, m);
  }

  // ---- a word and the words above it ----

  lemma {:induction false} WordJoin(lo: nat, hi: nat)
    requires lo < RADIX
    ensures Join(lo, hi, WORD_BITS) == lo + RADIX * hi
  {
    PowRadix();
    JoinShl(lo, hi, WORD_BITS);
    ShlMul(hi, WORD_BITS);
  }

  lemma WordBit(lo: nat, hi: nat, k: nat)
    requires lo < RADIX
    ensures Bit(lo + RADIX * hi, k) == if k < WORD_BITS then Bit(lo, k) else Bit(hi, k - WORD_BITS)
  {
    PowRadix();
    WordJoin(lo, hi);
    BitJoin(lo, hi, WORD_BITS, k);
  }

  lemma WordOr(lo1: nat, hi1: nat, lo2: nat, hi2: nat)
    requires lo1 < RADIX && lo2 < RADIX
    ensures Or(lo1, lo2) < RADIX
    ensures Or(lo1 + RADIX * hi1, lo2 + RADIX * hi2) == Or(lo1, lo2) + RADIX * Or(hi1, hi2)
  {
    PowRadix();
    WordJoin(lo1, hi1);
    WordJoin(lo2, hi2);
    OrJoin(lo1, hi1, lo2, hi2, WORD_BITS);
    WordJoin(Or(lo1, lo2), Or(hi1, hi2));
  }
}
