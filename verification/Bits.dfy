/** JavaScript's bit operators on 32-bit words, as functions of natural numbers, and what they mean. */
module Bits {

  function Pow2(n: nat): (p: nat)
    ensures p > 0
  {
    if n == 0 then 1 else 2 * Pow2(n - 1)
  }

  const WORD: nat := 0x1_0000_0000

  function And(a: nat, b: nat): nat {
    if a == 0 || b == 0 then 0 else 2 * And(a / 2, b / 2) + (if a % 2 == 1 && b % 2 == 1 then 1 else 0)
  }

  function Or(a: nat, b: nat): nat
    decreases a + b
  {
    if a == 0 then b else if b == 0 then a
    else 2 * Or(a / 2, b / 2) + (if a % 2 == 1 || b % 2 == 1 then 1 else 0)
  }

  /** `<<` on an unsigned 32-bit word: the count is taken modulo 32 and the word wraps. */
  function ShiftLeft(a: nat, n: nat): (r: nat)
    ensures r < WORD
  {
    a * Pow2(n % 32) % WORD
  }

  // ---------- Powers ----------

  lemma {:induction false} Pow2Sum(m: nat, n: nat)
    ensures Pow2(m + n) == Pow2(m) * Pow2(n)
  {
    if m == 0 {
      assert Pow2(0) * Pow2(n) == Pow2(n);
    } else {
      Pow2Sum(m - 1, n);
      assert Pow2(m + n) == 2 * Pow2(m - 1 + n);
      MulAssoc(2, Pow2(m - 1), Pow2(n));
    }
  }

  lemma MulAssoc(a: int, b: int, c: int)
    ensures a * (b * c) == (a * b) * c
  {
  }

  lemma Pow2Values()
    ensures Pow2(0) == 1 && Pow2(4) == 16 && Pow2(6) == 64 && Pow2(8) == 256 && Pow2(9) == 512 && Pow2(16) == 0x1_0000
    ensures Pow2(32) == WORD
  {
    assert Pow2(4) == 16;
    assert Pow2(8) == 256;
    assert Pow2(12) == 4096;
    assert Pow2(16) == 65536;
    Pow2Sum(16, 16);
  }

  lemma Distributes(d: int, x: int, y: int)
    ensures d * (x + y) == d * x + d * y
  {
  }

  lemma AtLeastOnce(d: nat, x: nat)
    requires x > 0
    ensures d * x >= d
  {
    Distributes(d, 1, x - 1);
  }

  lemma QuotientIsUnique(d: nat, q: nat, r: nat, q': nat, r': nat)
    requires r < d && r' < d && d * q + r == d * q' + r'
    ensures q == q' && r == r'
  {
    if q > q' {
      Distributes(d, q', q - q');
      AtLeastOnce(d, q - q');
    } else if q < q' {
      Distributes(d, q, q' - q);
      AtLeastOnce(d, q' - q);
    }
  }

  lemma QuotientIs(v: nat, d: nat, q: nat, r: nat)
    requires r < d && v == d * q + r
    ensures v / d == q && v % d == r
  {
    DivisionIs(v, d);
    QuotientIsUnique(d, v / d, v % d, q, r);
  }

  lemma DivisionIs(v: nat, d: nat)
    requires d > 0
    ensures v == d * (v / d) + v % d && v % d < d
  {
  }

  lemma WrappedProduct(w: nat, p: nat)
    requires 0 < p <= w
    ensures (w - 1) * p % w == w - p
  {
    Distributes(p, w, -1);
    Distributes(w, p, -1);
    QuotientIs((w - 1) * p, w, p - 1, w - p);
  }

  /** A shift that loses no bit multiplies. */
  lemma ShiftLeftMultiplies(a: nat, n: nat)
    requires n < 32 && a * Pow2(n) < WORD
    ensures ShiftLeft(a, n) == a * Pow2(n)
  {
    hide Pow2;
    assert n % 32 == n;
    QuotientIs(a * Pow2(n), WORD, 0, a * Pow2(n));
  }

  lemma Pow2InWord(n: nat)
    requires n <= 32
    ensures Pow2(n) <= WORD
  {
    Pow2Values();
    Pow2Sum(n, 32 - n);
    AtLeastOnce(Pow2(n), Pow2(32 - n));
  }

  /** All ones shifted left: the word's highest bits. */
  lemma ShiftedOnes(n: nat)
    requires n < 32
    ensures Pow2(n) <= WORD && ShiftLeft(WORD - 1, n) == WORD - Pow2(n)
  {
    Pow2InWord(n);
    WrappedProduct(WORD, Pow2(n));
    hide Pow2;
    assert n % 32 == n;
  }

  // ---------- Halving ----------

  /** `>>` on an unsigned word. */
  function ShiftRight(a: nat, k: nat): nat {
    if k == 0 then a else ShiftRight(a / 2, k - 1)
  }

  function LowBits(a: nat, k: nat): (r: nat)
    ensures r < Pow2(k)
  {
    if k == 0 then 0 else 2 * LowBits(a / 2, k - 1) + a % 2
  }

  lemma {:induction false} BitsSplit(a: nat, k: nat)
    ensures a == Pow2(k) * ShiftRight(a, k) + LowBits(a, k)
  {
    if k > 0 {
      BitsSplit(a / 2, k - 1);
      MulAssoc(2, Pow2(k - 1), ShiftRight(a, k));
    }
  }

  /** Shifting right divides; the bits shifted out are the remainder. */
  lemma ShiftRightDivides(a: nat, k: nat)
    ensures ShiftRight(a, k) == a / Pow2(k) && LowBits(a, k) == a % Pow2(k)
  {
    BitsSplit(a, k);
    QuotientIs(a, Pow2(k), ShiftRight(a, k), LowBits(a, k));
  }

  lemma {:induction false} ShiftRightTwice(a: nat, j: nat, k: nat)
    ensures ShiftRight(ShiftRight(a, j), k) == ShiftRight(a, j + k)
  {
    if j > 0 {
      ShiftRightTwice(a / 2, j - 1, k);
    }
  }

  lemma {:induction false} ShiftRightBack(q: nat, r: nat, k: nat)
    requires r < Pow2(k)
    ensures ShiftRight(Pow2(k) * q + r, k) == q && LowBits(Pow2(k) * q + r, k) == r
  {
    BitsSplit(Pow2(k) * q + r, k);
    QuotientIsUnique(Pow2(k), ShiftRight(Pow2(k) * q + r, k), LowBits(Pow2(k) * q + r, k), q, r);
  }

  // ---------- Masks ----------

  lemma AndOdd(a: nat, m: nat)
    ensures And(a, 2 * m + 1) == 2 * And(a / 2, m) + a % 2
  {
    assert (2 * m + 1) / 2 == m && (2 * m + 1) % 2 == 1;
  }

  /** A mask of the lowest bits keeps the remainder. */
  lemma {:induction false} AndLowMask(a: nat, k: nat)
    ensures And(a, Pow2(k) - 1) == LowBits(a, k)
  {
    if k > 0 {
      AndLowMask(a / 2, k - 1);
      AndOdd(a, Pow2(k - 1) - 1);
      hide And;
    }
  }

  lemma AndEven(a: nat, m: nat)
    ensures And(a, 2 * m) == 2 * And(a / 2, m)
  {
    assert (2 * m) / 2 == m && (2 * m) % 2 == 0;
  }

  lemma AllOnes(a: nat, w: nat)
    requires a < Pow2(w)
    ensures And(a, Pow2(w) - 1) == a
  {
    AndLowMask(a, w);
    hide And;
    BitsSplit(a, w);
    QuotientIsUnique(Pow2(w), ShiftRight(a, w), LowBits(a, w), 0, a);
  }

  /** One more low zero bit in the mask, one more bit in the word. */
  lemma MaskStep(a: nat, p: nat, q: nat, m: nat)
    requires And(a / 2, m) == p * q
    ensures And(a, 2 * m) == (2 * p) * q
  {
    AndEven(a, m);
    hide And;
    MulAssoc(2, p, q);
  }

  /** A mask of the highest bits of a word keeps the quotient. */
  lemma {:induction false} AndHighMask(a: nat, w: nat, k: nat)
    requires k <= w && a < Pow2(w)
    ensures Pow2(k) <= Pow2(w) && And(a, Pow2(w) - Pow2(k)) == Pow2(k) * ShiftRight(a, k)
  {
    hide And;
    if k == 0 {
      AllOnes(a, w);
    } else {
      AndHighMask(a / 2, w - 1, k - 1);
      MaskStep(a, Pow2(k - 1), ShiftRight(a / 2, k - 1), Pow2(w - 1) - Pow2(k - 1));
    }
  }

  lemma {:induction false} Doubled(a: nat, k: nat)
    requires k > 0
    ensures a * Pow2(k) == 2 * (a * Pow2(k - 1))
  {
    MulAssoc(a, 2, Pow2(k - 1));
    MulAssoc(2, a, Pow2(k - 1));
  }

  lemma PositiveProduct(a: nat, b: nat)
    requires a > 0 && b > 0
    ensures a * b > 0
  {
  }

  /** Words that share no bit are put together by adding. */
  lemma {:induction false} OrDisjoint(a: nat, b: nat, k: nat)
    requires b < Pow2(k)
    ensures Or(a * Pow2(k), b) == a * Pow2(k) + b
  {
    if k > 0 && a > 0 {
      OrDisjoint(a, b / 2, k - 1);
      Doubled(a, k);
      PositiveProduct(a, Pow2(k - 1));
      OrEven(a * Pow2(k - 1), b);
    }
  }

  lemma OrEven(x: nat, b: nat)
    requires x > 0
    ensures Or(2 * x, b) == 2 * Or(x, b / 2) + b % 2
  {
    assert (2 * x) / 2 == x && (2 * x) % 2 == 0;
  }
}
