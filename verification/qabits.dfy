/** Bit logic on the integer quality-assessment bands.

    `BitAnd` is the `bitwiseAnd` of the image algebra on unsigned values;
    `TestBit` is the reference meaning of "bit k is set". The lemmas show
    that `bitwiseAnd(1 << k) == 0` tests exactly bit k, which is what both
    cloud masks rely on. */
module QaBits {

  /** `1 << k` for the shift distances used here (all below 31, where the
      32-bit shift of the script equals 2^k). */
  function Pow2(k: nat): (r: nat)
    ensures r >= 1
  {
    if k == 0 then 1 else 2 * Pow2(k - 1)
  }

  /** Bitwise AND of two unsigned integers, one binary digit at a time.
      Clearing bits never makes a number larger. */
  function BitAnd(a: nat, b: nat): (r: nat)
    ensures r <= a && r <= b
    decreases a
  {
    if a == 0 || b == 0 then 0
    else 2 * BitAnd(a / 2, b / 2) + (if a % 2 == 1 && b % 2 == 1 then 1 else 0)
  }

  /** Bit k of q is set. */
  predicate TestBit(q: nat, k: nat)
    decreases k
  {
    if k == 0 then q % 2 == 1 else TestBit(q / 2, k - 1)
  }

  /** Zero has no bit set. */
  lemma {:induction false} NoBitOfZero(k: nat)
    ensures !TestBit(0, k)
  {
    if k > 0 {
      NoBitOfZero(k - 1);
    }
  }

  /** `BitAnd` is the bitwise AND: bit k of the result is set iff it is set
      in both operands. */
  lemma {:induction false} BitAndIsBitwise(a: nat, b: nat, k: nat)
    ensures TestBit(BitAnd(a, b), k) <==> TestBit(a, k) && TestBit(b, k)
    decreases a
  {
    if a == 0 || b == 0 {
      NoBitOfZero(k);
    } else {
      var h := BitAnd(a / 2, b / 2);
      var low := if a % 2 == 1 && b % 2 == 1 then 1 else 0;
      assert BitAnd(a, b) == 2 * h + low;
      assert (2 * h + low) % 2 == low && (2 * h + low) / 2 == h;
      if k > 0 {
        BitAndIsBitwise(a / 2, b / 2, k - 1);
      }
    }
  }

  /** `1 << k` has exactly one bit set, bit k. */
  lemma {:induction false} Pow2IsSingleBit(k: nat, j: nat)
    ensures TestBit(Pow2(k), j) <==> j == k
    decreases k
  {
    if k == 0 {
      if j > 0 {
        NoBitOfZero(j - 1);
      }
    } else if j > 0 {
      assert Pow2(k) / 2 == Pow2(k - 1);
      Pow2IsSingleBit(k - 1, j - 1);
    }
  }

  /** Masking with a single bit gives zero iff that bit is clear. */
  lemma {:induction false} SingleBitMask(q: nat, k: nat)
    ensures BitAnd(q, Pow2(k)) == 0 <==> !TestBit(q, k)
    decreases k
  {
    if k == 0 {
      assert BitAnd(q / 2, 0) == 0;
    } else {
      assert Pow2(k) / 2 == Pow2(k - 1) && Pow2(k) % 2 == 0;
      SingleBitMask(q / 2, k - 1);
      if q == 0 {
        assert BitAnd(q, Pow2(k)) == 0;
      } else {
        assert BitAnd(q, Pow2(k)) == 2 * BitAnd(q / 2, Pow2(k - 1));
      }
    }
  }

  /** Dividing by 2 and then by m is dividing by 2m. */
  lemma DivTwice(q: nat, m: nat)
    requires m > 0
    ensures (q / 2) / m == q / (2 * m)
  {
    var h := q / 2;
    var x := h / m;
    assert q == 2 * m * x + (2 * (h % m) + q % 2);
    assert 0 <= 2 * (h % m) + q % 2 < 2 * m;
    DivUnique(q, 2 * m, x, 2 * (h % m) + q % 2);
  }

  lemma DivUnique(q: nat, d: nat, x: nat, r: nat)
    requires d > 0 && r < d && q == d * x + r
    ensures q / d == x
  {
    var k := q / d - x;
    assert d * k == r - q % d;
    MulAwayFromZero(d, k);
  }

  lemma MulAwayFromZero(d: nat, k: int)
    requires d > 0
    ensures k >= 1 ==> d * k >= d
    ensures k <= -1 ==> d * k <= -(d as int)
  {
  }

  /** The reference `TestBit` agrees with the positional definition: bit k
      is the k-th binary digit, `(q / 2^k) % 2`. */
  lemma {:induction false} TestBitIsDigit(q: nat, k: nat)
    ensures TestBit(q, k) <==> (q / Pow2(k)) % 2 == 1
    decreases k
  {
    if k > 0 {
      TestBitIsDigit(q / 2, k - 1);
      DivTwice(q, Pow2(k - 1));
    }
  }
}
