/** The shift that gives the divisor four leading zero bits. */
module BignumAlign {
  import opened BignumValue
  import opened Bignum
  import opened BignumShift

  /** x is x0 shifted left by k bits. */
  ghost predicate ShiftedBy(x0: int, x: int, k: nat) { x == x0 * Pow(2, k) }

  lemma ShiftMore(x0: int, x: int, k: nat, j: nat)
    requires ShiftedBy(x0, x, k)
    ensures ShiftedBy(x0, x * Pow(2, j), k + j)
  {
    PowAdd2(k, j);
    Assoc(x0, Pow(2, k), Pow(2, j));
  }

  lemma SmallPowers()
    ensures Pow(2, 0) == 1 && Pow(2, 1) == 2 && Pow(2, 2) == 4 && Pow(2, 4) == 16 && Pow(2, 8) == 256 && Pow(2, 16) == 65536
  {
    PowAdd2(8, 8);
    assert Pow(2, 8) == 256;
  }

  lemma ShiftedZero(x0: int, x: int, k: nat)
    requires ShiftedBy(x0, x, k) && x0 >= 0
    ensures x == 0 <==> x0 == 0
  {
    PowPositive(k);
    if x0 > 0 { MulMono(1, x0, Pow(2, k)); }
  }

  /** The number of leading zero bits of a word. */
  method Hi0bits(x0: Word) returns (k: nat)
    ensures k <= 32 && (x0 == 0 <==> k == 32)
    ensures x0 != 0 ==> 0x8000_0000 <= x0 * Pow(2, k) < BASE
  {
    var x: Word := x0;
    k := 0;
    SmallPowers();
    assert ShiftedBy(x0, x, k);
    if x < 0x1_0000 { ShiftMore(x0, x, k, 16); k, x := 16, x * 0x1_0000; }
    assert ShiftedBy(x0, x, k) && (x == 0 || x >= 0x1_0000);
    if x < 0x100_0000 { ShiftMore(x0, x, k, 8); k, x := k + 8, x * 0x100; }
    assert ShiftedBy(x0, x, k) && (x == 0 || x >= 0x100_0000);
    if x < 0x1000_0000 { ShiftMore(x0, x, k, 4); k, x := k + 4, x * 0x10; }
    assert ShiftedBy(x0, x, k) && (x == 0 || x >= 0x1000_0000);
    if x < 0x4000_0000 { ShiftMore(x0, x, k, 2); k, x := k + 2, x * 4; }
    assert ShiftedBy(x0, x, k) && (x == 0 || x >= 0x4000_0000);
    ShiftedZero(x0, x, k);
    if x < 0x8000_0000 {
      ShiftMore(x0, x, k, 1);
      k := k + 1;
      if x < 0x4000_0000 { return 32; }
    }
  }

  lemma ModShift(k: int, p: int)
    ensures (p + (k - p) % 32) % 32 == k % 32
  {
  }

  /** The shift count for a divisor that is to be shifted by p2 bits anyway. */
  method Dshift(b: Bigint, p2: nat) returns (i: nat, ghost h: nat)
    requires b.Valid() && Normal(b.Words()) && b.Value() > 0
    ensures h < 32 && 0x8000_0000 <= b.x[b.wds - 1] * Pow(2, h) < BASE
    ensures i < 32 && (p2 + i) % 32 == (h - 4) % 32
  {
    TopWord(b.Words());
    var k := Hi0bits(b.x[b.wds - 1]);
    h := k;
    ModShift(k - 4, p2);
    i := (k - 4 - p2) % 32;
  }

  lemma SixteenTimes(t: nat, h: nat) returns (j: nat)
    requires h < 32 && t % 32 == (h - 4) % 32
    ensures 16 * Pow(2, t) == Pow(2, h) * Place(j)
  {
    j := (t + 4 - h) / 32;
    assert t + 4 == h + 32 * j;
    PowAdd2(4, t);
    PowAdd2(h, 32 * j);
    PlaceIsPow(j);
    assert Pow(2, 4) == 16;
  }

  lemma Pin(v: int, top: int, p: int, lo: int, hi: int)
    requires top * p <= v < (top + 1) * p && lo * p <= v < hi * p && p > 0
    ensures lo <= top < hi
  {
    if top < lo { MulMono(top + 1, lo, p); }
    if top >= hi { MulMono(hi, top, p); }
  }

  lemma Longer(r: seq<Word>, n: nat)
    requires Normal(r) && |r| > n + 1
    ensures Val(r) >= BASE * Place(n)
  {
    ValTop(r);
    MulMono(1, r[|r| - 1], Place(|r| - 1));
    PlaceMono(n + 1, |r| - 1);
  }

  lemma Shorter(r: seq<Word>, n: nat)
    requires |r| < n + 1
    ensures Val(r) < Place(n)
  {
    ValBound(r);
    PlaceMono(|r|, n);
  }

  /** A normalised number in this range has a top word with four leading zero bits. */
  lemma TopFromRange(r: seq<Word>, n: nat)
    requires Normal(r) && 0x800_0000 * Place(n) <= Val(r) < 0x1000_0000 * Place(n)
    ensures |r| == n + 1 && 0x800_0000 <= r[n] < 0x1000_0000
  {
    if |r| > n + 1 {
      Longer(r, n);
    } else if |r| < n + 1 {
      Shorter(r, n);
    } else {
      ValTop(r);
      Pin(Val(r), r[n], Place(n), 0x800_0000, 0x1000_0000);
    }
  }

  lemma Regroup(v: int, a: int, b: int)
    requires 16 * a == b
    ensures 16 * (v * a) == v * b
  {
  }

  /** Bounds of a number by its top word, after a multiplication. */
  lemma TopTimes(v: int, top: int, p: int, m: int, q: int)
    requires top * p <= v < (top + 1) * p && 0x8000_0000 <= top * m && (top + 1) * m <= BASE && m > 0 && p > 0 && q > 0
    ensures 0x8000_0000 * (p * q) <= v * (m * q) < BASE * (p * q)
  {
    calc <= {
      0x8000_0000 * (p * q);
      { MulMono(0x8000_0000, top * m, p * q); }
      (top * m) * (p * q);
      { assert (top * m) * (p * q) == (top * p) * (m * q); MulMono(top * p, v, m * q); }
      v * (m * q);
    }
    assert v * (m * q) < ((top + 1) * p) * (m * q) by {
      MulMono(v + 1, (top + 1) * p, m * q);
      assert (v + 1) * (m * q) == v * (m * q) + m * q && m * q > 0;
    }
    assert ((top + 1) * p) * (m * q) == ((top + 1) * m) * (p * q);
    MulMono((top + 1) * m, BASE, p * q);
  }

  lemma RoomAbove(top: Word, h: nat)
    requires h < 32 && top * Pow(2, h) < BASE
    ensures (top + 1) * Pow(2, h) <= BASE
  {
    ShiftFits(h);
    var m, d := Pow(2, h), Pow(2, 32 - h);
    assert d * m == m * d;
    if top + 1 > d { MulMono(d, top, m); }
    MulMono(top + 1, d, m);
  }

  /** Shifting a divisor by the count of Dshift aligns it for the division. */
  lemma Aligned(s: seq<Word>, r: seq<Word>, t: nat, h: nat)
    requires Normal(s) && Normal(r) && h < 32 && 0x8000_0000 <= s[|s| - 1] * Pow(2, h) < BASE
    requires t % 32 == (h - 4) % 32 && Val(r) == Val(s) * Pow(2, t)
    ensures 0x800_0000 <= r[|r| - 1] < 0x1000_0000
  {
    var w, top, m := |s| - 1, s[|s| - 1], Pow(2, h);
    var j := SixteenTimes(t, h);
    PowPositive(h);
    RoomAbove(top, h);
    ValTop(s);
    TopTimes(Val(s), top, Place(w), m, Place(j));
    PlaceAdd(w, j);
    Regroup(Val(s), Pow(2, t), m * Place(j));
    TopFromRange(r, w + j);
  }

  /** The divisor as it enters the digit loop. */
  method AlignDivisor(S: Bigint, s2: nat) returns (T: Bigint, i: nat)
    requires S.Valid() && Normal(S.Words()) && S.Value() > 0
    ensures T.Valid() && Normal(T.Words()) && T.Value() == S.Value() * Pow(2, s2 + i) && i < 32
    ensures 0x800_0000 <= T.x[T.wds - 1] < 0x1000_0000
    ensures T == S || (fresh(T) && fresh(T.x))
  {
    ghost var h;
    i, h := Dshift(S, s2);
    if s2 + i > 0 {
      T := Lshift(S, s2 + i);
    } else {
      T := S;
      assert Pow(2, 0) == 1;
    }
    Aligned(S.Words(), T.Words(), s2 + i, h);
  }
}
