/** What dtoa hands to the digit loop for a double, and what the loop makes of it.

    A positive double is M * 2^e with 0 < M < 2^53; M has all its 53 bits unless e is
    -1074, the exponent of the denormalized numbers.  It is scaled by 10^k into the
    range below ten.  The margin mhi is half a unit of M; mlo is the same, or half of
    that below a power of two. */
module DoubleDigits {
  import opened BignumValue
  import opened Bignum
  import opened BignumPow5
  import opened ShortestDigits

  const MinExponent: int := -1074

  function Plus(x: int): nat { if x > 0 then x else 0 }

  /** Numerator and denominator of 2^e / 10^k. */
  function Num(e: int, k: int): nat { Pow(2, Plus(e)) * Pow(10, Plus(-k)) }

  function Den(e: int, k: int): nat { Pow(2, Plus(-e)) * Pow(10, Plus(k)) }

  ghost predicate Double(M: nat, e: int) {
    0 < M < Pow(2, 53) && e >= MinExponent && (Pow(2, 52) <= M || e == MinExponent)
  }

  /** b / S is the double over 10^k, mhi / S half of its unit over 10^k. */
  ghost predicate Scaled(M: nat, e: int, k: int, b: nat, S: nat, mlo: nat, mhi: nat) {
    && S > 0 && b < 10 * S && mlo > 0
    && b * Den(e, k) == S * (M * Num(e, k))
    && 2 * mhi * Den(e, k) == S * Num(e, k)
    && (mlo == mhi || 2 * mlo == mhi)
  }

  lemma DenPositive(e: int, k: int)
    ensures Den(e, k) > 0
  {
    PowAbove(2, Plus(-e));
    PowAbove(10, Plus(k));
    assert Pow(2, Plus(-e)) * Pow(10, Plus(k)) > 0;
  }

  lemma {:induction false} PowAbove(b: nat, n: nat)
    requires b > 0
    ensures Pow(b, n) > 0
  {
    if n > 0 {
      PowAbove(b, n - 1);
      assert b * Pow(b, n - 1) > 0;
    }
  }

  /** The margin in terms of the number. */
  lemma MarginIs(M: nat, e: int, k: int, b: nat, S: nat, mlo: nat, mhi: nat)
    requires Scaled(M, e, k, b, S, mlo, mhi)
    ensures b == 2 * M * mhi
  {
    DenPositive(e, k);
    Cross(b, Den(e, k), S, M, Num(e, k), mhi);
  }

  lemma Cross(b: nat, den: nat, S: nat, M: nat, num: nat, mhi: nat)
    requires den > 0 && b * den == S * (M * num) && 2 * mhi * den == S * num
    ensures b == 2 * M * mhi
  {
    assert S * (M * num) == M * (S * num);
    assert M * (2 * mhi * den) == (2 * M * mhi) * den;
    Cancel(b, 2 * M * mhi, den);
  }

  lemma Cancel(x: int, y: int, z: int)
    requires z > 0 && x * z == y * z
    ensures x == y
  {
    assert (x - y) * z == 0;
  }

  /** Half a unit of a number with M >= 10 is less than half of S. */
  lemma SmallMargin(M: nat, b: nat, S: nat, mhi: nat)
    requires b == 2 * M * mhi && b < 10 * S && M >= 10
    ensures 2 * mhi < S
  {
    assert 2 * M * mhi >= 20 * mhi by { assert (2 * M - 20) * mhi >= 0; }
  }

  /** A power of two is even or one, and no multiple of five. */
  lemma {:induction false} PowTwo(n: nat)
    ensures n > 0 ==> Pow(2, n) % 2 == 0
    ensures Pow(2, n) % 5 != 0
  {
    if n > 0 { PowTwo(n - 1); }
  }

  /** M = 1 to 9, in the smallest unit: the upper end of the interval, M + 1/2 units,
      is not a power of ten. */
  lemma TinyUpperEnd(M: nat, e: int, k: int)
    requires M < 10 && e <= 0
    ensures (2 * M + 1) * Num(e, k) != 20 * Den(e, k)
  {
    var n := Plus(-e);
    assert Num(e, k) == Pow(10, Plus(-k)) && Den(e, k) == Pow(2, n) * Pow(10, Plus(k));
    if k >= 0 { NotAbove(M, n, k); } else { NotBelow(2 * M + 1, n, -k - 1); }
  }

  lemma NotAbove(M: nat, n: nat, k: nat)
    requires M < 10
    ensures (2 * M + 1) * Pow(10, 0) < 20 * (Pow(2, n) * Pow(10, k))
  {
    PowAbove(2, n);
    PowAbove(10, k);
    assert Pow(2, n) * Pow(10, k) >= 1;
  }

  lemma NotBelow(x: nat, n: nat, j: nat)
    requires x % 2 == 1
    ensures x * Pow(10, j + 1) != 20 * (Pow(2, n) * Pow(10, 0))
  {
    var y, z := x * Pow(10, j), Pow(2, n + 1);
    Swap(x, Pow(10, j));
    PowTwo(n + 1);
    OddOrFive(x, j);
    assert x * Pow(10, j + 1) == 10 * y && 20 * (Pow(2, n) * Pow(10, 0)) == 10 * z;
  }

  lemma Swap(x: nat, y: nat)
    ensures x * (10 * y) == 10 * (x * y)
  {
  }

  lemma PowStep(j: nat)
    requires j > 0
    ensures Pow(10, j) == 10 * Pow(10, j - 1)
  {
  }

  lemma OddOrFive(x: nat, j: nat)
    requires x % 2 == 1
    ensures (x * Pow(10, j)) % 2 == 1 || (x * Pow(10, j)) % 5 == 0
  {
    if j > 0 {
      PowStep(j);
      Swap(x, Pow(10, j - 1));
      Tens(x * Pow(10, j - 1));
    } else {
      assert Pow(10, 0) == 1;
    }
  }

  lemma Tens(y: nat)
    ensures (10 * y) % 5 == 0
  {
  }

  /** What the exception of the first digit would need. */
  lemma OvershootNeeds(b: nat, S: nat, mlo: nat, mhi: nat, ends: bool, single: bool)
    requires S > 0 && Overshoots(b, S, mlo, mhi, ends, single)
    ensures b + mhi == 10 * S && 2 * mhi > S
  {
  }

  /** No double runs into it. */
  lemma NeverOvershoots(M: nat, e: int, k: int, b: nat, S: nat, mlo: nat, mhi: nat, ends: bool, single: bool)
    requires Double(M, e) && Scaled(M, e, k, b, S, mlo, mhi)
    ensures !Overshoots(b, S, mlo, mhi, ends, single)
  {
    MarginIs(M, e, k, b, S, mlo, mhi);
    if Overshoots(b, S, mlo, mhi, ends, single) {
      OvershootNeeds(b, S, mlo, mhi, ends, single);
      if M >= 10 {
        SmallMargin(M, b, S, mhi);
      } else {
        SmallMantissa(M);
        assert e == MinExponent;
        UpperEnd(M, mhi, S, Num(e, k), Den(e, k));
        TinyUpperEnd(M, e, k);
      }
      assert false;
    }
  }

  lemma SmallMantissa(M: nat)
    requires M < 10
    ensures M < Pow(2, 52)
  {
    assert Pow(2, 4) == 16;
    PowAdd(2, 4, 48);
    PowAbove(2, 48);
    assert 16 * Pow(2, 48) >= 16;
  }

  lemma UpperEnd(M: nat, mhi: nat, S: nat, num: nat, den: nat)
    requires S > 0 && 2 * M * mhi + mhi == 10 * S && 2 * mhi * den == S * num
    ensures (2 * M + 1) * num == 20 * den
  {
    assert (2 * M + 1) * mhi == 10 * S;
    assert ((2 * M + 1) * num) * S == (2 * M + 1) * (S * num);
    assert (2 * M + 1) * (2 * mhi * den) == 2 * den * ((2 * M + 1) * mhi);
    assert 2 * den * (10 * S) == (20 * den) * S;
    Cancel((2 * M + 1) * num, 20 * den, S);
  }

  /** Among all decimals in the interval with as many places that are as near, e is the
      even one. */
  ghost predicate TiesToEven(b: int, S: int, mlo: int, mhi: int, ends: bool, p: nat, e: int) {
    forall e' :: Tied(b, S, mlo, mhi, ends, p, e, e') ==> e % 2 == 0
  }

  /** If half a unit of the double is half a unit in the last place, the number itself
      is a decimal with that many places. */
  lemma HalfAwayExact(M: nat, b: nat, S: nat, mhi: nat, ends: bool, p: nat)
    requires S > 0 && b == 2 * M * mhi && HalfAway(S, mhi, ends, p)
    ensures Floor(b, S, p) == M && Far(b, S, p, M) == 0
  {
    var t := Pow(10, p);
    assert b * t == M * S by { assert (2 * M * mhi) * t == M * (2 * mhi * t); }
    Quotient(b * t, S, M, 0);
  }

  lemma ExactIsAlone(b: nat, S: nat, p: nat, M: nat, e': int)
    requires S > 0 && Far(b, S, p, M) == 0 && Far(b, S, p, e') == 0
    ensures e' == M
  {
    Cancel(e', M, S);
  }

  lemma DoubleTies(M: nat, b: nat, S: nat, mlo: nat, mhi: nat, ends: bool, p: nat, e: int)
    requires S > 0 && b == 2 * M * mhi && TieRule(b, S, mlo, mhi, ends, p, e, true)
    ensures TiesToEven(b, S, mlo, mhi, ends, p, e)
  {
    hide Inside;
    forall e' | Tied(b, S, mlo, mhi, ends, p, e, e') ensures e % 2 == 0 {
      if HalfAway(S, mhi, ends, p) {
        HalfAwayExact(M, b, S, mhi, ends, p);
        if e == M { ExactIsAlone(b, S, p, M, e'); }
      }
    }
  }

  /** For every double the loop ends with a decimal in the interval, such that none in
      it has fewer places, none with as many is nearer, and of two that are equally near
      it is the even one. */
  lemma DoubleNearest(M: nat, e: int, k: int, b: nat, S: nat, mlo: nat, mhi: nat, ends: bool, single: bool) returns (p: nat, x: nat)
    requires Double(M, e) && Scaled(M, e, k, b, S, mlo, mhi)
    ensures Gives(Loop(b, S, mlo, mhi, ends, single, []), p, x)
    ensures Inside(b, S, mlo, mhi, ends, p, x) && NoShorter(b, S, mlo, mhi, ends, p) && Closest(b, S, mlo, mhi, ends, p, x)
    ensures TiesToEven(b, S, mlo, mhi, ends, p, x)
  {
    hide Inside, NoShorter, Closest, TieRule, TiesToEven;
    NeverOvershoots(M, e, k, b, S, mlo, mhi, ends, single);
    MarginIs(M, e, k, b, S, mlo, mhi);
    p, x := Shortest(b, S, mlo, mhi, ends, single);
    DoubleTies(M, b, S, mlo, mhi, ends, p, x);
  }
}
