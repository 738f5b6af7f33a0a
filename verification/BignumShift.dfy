/** Difference and left shift of big integers. */
module BignumShift {
  import opened BignumValue
  import opened Bignum
  import opened BignumDivide

  // ---------------------------------------------------------------------- diff

  lemma DiffStep(before: seq<Word>, after: seq<Word>, i: nat, out: Word, x: seq<Word>, u: int, w: int, borrow: int, borrow': int)
    requires |before| == |after| && i < |before| && i < |x| && after == before[i := out]
    requires x[i] - w - borrow == out - borrow' * BASE
    requires Val(before[..i]) == Val(x[..i]) - u + borrow * Place(i)
    ensures Val(after[..i + 1]) == Val(x[..i + 1]) - (u + w * Place(i)) + borrow' * Place(i + 1)
  {
    var p := Place(i);
    ValSnoc(after, i);
    ValSnoc(x, i);
    assert after[..i] == before[..i];
    hide Val;
    assert out * p == x[i] * p - w * p - borrow * p + borrow' * (p * BASE) by {
      assert out == x[i] - w - borrow + borrow' * BASE;
      assert (x[i] - w - borrow + borrow' * BASE) * p == x[i] * p - w * p - borrow * p + borrow' * BASE * p;
    }
  }

  /** The words of y, read as if it went on with zero words. */
  function Digit(y: seq<Word>, i: nat): Word { if i < |y| then y[i] else 0 }

  function Low(y: seq<Word>, i: nat): nat { if i < |y| then Val(y[..i]) else Val(y) }

  lemma LowStep(y: seq<Word>, i: nat)
    ensures Low(y, i + 1) == Low(y, i) + Digit(y, i) * Place(i)
  {
    if i < |y| { ValSnoc(y, i); assert y[..|y|] == y; }
  }

  /** What the word i of the difference does to the part done so far. */
  lemma DiffNext(before: seq<Word>, after: seq<Word>, i: nat, out: Word, x: seq<Word>, y: seq<Word>, borrow: nat, borrow': nat)
    requires |before| == |after| && i < |before| && i < |x| && after == before[i := out]
    requires x[i] - Digit(y, i) - borrow == out - borrow' * BASE
    requires Val(before[..i]) == Val(x[..i]) - Low(y, i) + borrow * Place(i)
    ensures Val(after[..i + 1]) == Val(x[..i + 1]) - Low(y, i + 1) + borrow' * Place(i + 1)
  {
    LowStep(y, i);
    DiffStep(before, after, i, out, x, Low(y, i), Digit(y, i), borrow, borrow');
  }

  /** x - y into c; the words of y may be fewer. */
  method DiffLoop(c: array<Word>, x: array<Word>, wa: nat, y: array<Word>, wb: nat) returns (borrow: nat)
    requires wb <= wa <= x.Length && wa <= c.Length && wb <= y.Length && c != x && c != y
    modifies c
    ensures Val(c[..wa]) == Val(x[..wa]) - Val(y[..wb]) + borrow * Place(wa)
  {
    ghost var xs, ys := x[..wa], y[..wb];
    var i: nat := 0;
    borrow := 0;
    assert Low(ys, 0) == 0;
    while i < wa
      invariant i <= wa && borrow <= 1 && xs == x[..wa] && ys == y[..wb]
      invariant Val(c[..i]) == Val(xs[..i]) - Low(ys, i) + borrow * Place(i)
    {
      ghost var before := c[..];
      var out, borrow' := SubtractWord(x[i], if i < wb then y[i] else 0, borrow);
      c[i] := out;
      DiffNext(before, c[..], i, out, xs, ys, borrow, borrow');
      borrow := borrow';
      i := i + 1;
    }
    assert xs[..wa] == xs && Low(ys, wa) == Val(ys);
  }

  method DiffWords(c: array<Word>, x: array<Word>, wa: nat, y: array<Word>, wb: nat)
    requires wb <= wa <= x.Length && wa <= c.Length && wb <= y.Length && c != x && c != y
    requires Val(y[..wb]) <= Val(x[..wa])
    modifies c
    ensures Val(c[..wa]) == Val(x[..wa]) - Val(y[..wb])
  {
    var borrow := DiffLoop(c, x, wa, y, wb);
    ValBound(c[..wa]);
    ValBound(x[..wa]);
    NoDebt(Val(c[..wa]), Val(x[..wa]) - Val(y[..wb]), borrow, Place(wa));
  }

  method DiffOrdered(a: Bigint, b: Bigint) returns (c: Bigint)
    requires a.Valid() && b.Valid() && Normal(a.Words()) && Normal(b.Words()) && a.Value() > b.Value()
    ensures c.Valid() && fresh(c) && fresh(c.x) && !c.sign
    ensures Normal(c.Words()) && c.Value() == a.Value() - b.Value()
  {
    if b.wds > a.wds { LongerIsLarger(b.Words(), a.Words()); }
    c := new Bigint(a.k);
    DiffWords(c.x, a.x, a.wds, b.x, b.wds);
    var n := StripAll(c.x, a.wds);
    c.wds := n;
  }

  /** The absolute difference; the sign tells whether a is the smaller one. */
  method Diff(a: Bigint, b: Bigint) returns (c: Bigint)
    requires a.Valid() && b.Valid() && Normal(a.Words()) && Normal(b.Words())
    ensures c.Valid() && fresh(c) && fresh(c.x)
    ensures Normal(c.Words()) && c.Value() == (if a.Value() < b.Value() then b.Value() - a.Value() else a.Value() - b.Value())
    ensures c.sign <==> a.Value() < b.Value()
  {
    var i := Cmp(a, b);
    if i == 0 {
      c := new Bigint(0);
      c.x[0] := 0;
      c.wds := 1;
      ValSnoc(c.Words(), 0);
      assert c.Words()[..1] == c.Words() && c.Words()[..0] == [];
    } else if i < 0 {
      c := DiffOrdered(b, a);
      c.sign := true;
    } else {
      c := DiffOrdered(a, b);
    }
  }

  // -------------------------------------------------------------------- lshift

  lemma {:induction false} PowAdd2(m: nat, n: nat)
    ensures Pow(2, m + n) == Pow(2, m) * Pow(2, n)
  {
    if m > 0 {
      PowAdd2(m - 1, n);
      assert 2 * (Pow(2, m - 1) * Pow(2, n)) == (2 * Pow(2, m - 1)) * Pow(2, n);
    }
  }

  lemma Pow32()
    ensures Pow(2, 32) == BASE
  {
    assert Pow(2, 8) == 256;
    PowAdd2(8, 8);
    PowAdd2(16, 16);
  }

  lemma {:induction false} PlaceIsPow(n: nat)
    ensures Place(n) == Pow(2, 32 * n)
  {
    if n > 0 {
      PlaceIsPow(n - 1);
      PowAdd2(32 * (n - 1), 32);
      Pow32();
    }
  }

  lemma ShiftFits(s: nat)
    requires s < 32
    ensures 1 <= Pow(2, s) < BASE && Pow(2, s) * Pow(2, 32 - s) == BASE
  {
    PowAdd2(s, 32 - s);
    Pow32();
    PowPositive(s);
    PowPositive(32 - s - 1);
    assert Pow(2, 32 - s) >= 2;
    assert Pow(2, s) * 2 <= Pow(2, s) * Pow(2, 32 - s) by { MulMono(2, Pow(2, 32 - s), Pow(2, s)); }
  }

  /** The shift is a multiplication row: x << s | z goes out and x >> (32 - s) is
      carried, for m = 2^s and d = 2^(32 - s). */
  lemma SplitShift(x: int, m: int, d: int, h: int, l: int, z: int)
    requires x == h * d + l && 0 <= l < d && m > 0 && m * d == BASE && 0 <= x < BASE && 0 <= z < m
    ensures (x * m) % BASE + z < BASE && (x * m + z) % BASE == (x * m) % BASE + z && (x * m + z) / BASE == h < m
  {
    assert x * m == h * BASE + l * m by { assert (h * d + l) * m == h * (m * d) + l * m; }
    assert l * m + m <= BASE by { MulMono(l + 1, d, m); assert (l + 1) * m == l * m + m; }
    assert h < m by { if h >= m { MulMono(m, h, d); } }
    assert l * m >= 0;
    SplitWord(x * m + z, h, l * m + z);
    SplitWord(x * m, h, l * m);
  }

  lemma SplitWord(y: int, h: int, l: int)
    requires y == h * BASE + l && 0 <= l < BASE
    ensures y / BASE == h && y % BASE == l
  {
  }

  /** x << s | z and x >> (32 - s) in 32-bit arithmetic; for s == 0 the word is copied. */
  method ShiftWord(x: Word, s: nat, z: Word) returns (out: Word, z': Word)
    requires s < 32 && z < Pow(2, s)
    ensures z' < Pow(2, s) && out + z' * BASE == x * Pow(2, s) + z
  {
    if s == 0 { return x, 0; }
    ghost var m := Pow(2, s);
    var d := Pow(2, 32 - s);
    ShiftFits(s);
    PowPositive(32 - s);
    var h := x / d;
    SplitShift(x, m, d, h, x % d, z);
    out := (x * Pow(2, s)) % BASE + z;
    z' := h;
  }

  /** The first i words of x have been shifted by n words and multiplied by m, up to
      the carry z. */
  ghost predicate Shifted(c: seq<Word>, x: seq<Word>, i: nat, n: nat, m: Word, z: Word) {
    n + i <= |c| && i <= |x| && Val(c[..n + i]) + z * Place(n + i) == Val(x[..i]) * m * Place(n)
  }

  lemma ShiftNext(before: seq<Word>, after: seq<Word>, x: seq<Word>, i: nat, n: nat, m: Word, z: Word, out: Word, z': Word)
    requires |before| == |after| && n + i < |before| && i < |x| && after == before[n + i := out]
    requires out + z' * BASE == x[i] * m + z
    requires Shifted(before, x, i, n, m, z) && m > 0
    ensures Shifted(after, x, i + 1, n, m, z')
    ensures z' == 0 && x[i] != 0 ==> out != 0
  {
    ProductPositive(x[i], m);
    ValSnoc(after, n + i);
    ValSnoc(x, i);
    assert after[..n + i] == before[..n + i];
    PlaceAdd(i, n);
    AddRowArith(Val(before[..n + i]), z, 0, Val(x[..i]), x[i], 0, m, Place(i), Place(n), Place(n + i),
                x[i] * m + z, z', out, BASE);
  }

  /** The words of x shifted left by n words and s bits; m is 2^s. */
  method ShiftWords(c: array<Word>, x: array<Word>, w: nat, n: nat, s: nat, ghost m: Word) returns (z: Word)
    requires s < 32 && m == Pow(2, s) > 0 && 1 <= w <= x.Length && n + w <= c.Length && c != x
    modifies c
    ensures Val(c[..n + w]) + z * Place(n + w) == Val(x[..w]) * m * Place(n)
    ensures z == 0 && x[w - 1] != 0 ==> c[n + w - 1] != 0
  {
    Zero(c, n);
    ValZeros(c[..n], 0);
    assert c[..n][..0] == [] && c[..][..n] == c[..n];
    ghost var xs := x[..];
    var i: nat := 0;
    z := 0;
    while i < w
      invariant i <= w && z < m && xs == x[..]
      invariant Shifted(c[..], xs, i, n, m, z)
      invariant i > 0 && z == 0 && xs[i - 1] != 0 ==> c[n + i - 1] != 0
    {
      ghost var before := c[..];
      var out, z' := ShiftWord(x[i], s, z);
      c[n + i] := out;
      ShiftNext(before, c[..], xs, i, n, m, z, out, z');
      z := z';
      i := i + 1;
    }
    assert xs[..w] == x[..w] && c[..][..n + w] == c[..n + w];
  }

  /** Room for n words: the size is doubled until it is enough. */
  method Room(b: Bigint, n: nat) returns (k: nat)
    requires b.Valid()
    ensures n <= Pow(2, k)
  {
    var i := b.x.Length;
    k := b.k;
    PowPositive(k);
    while n > i
      invariant i == Pow(2, k) >= 1
      decreases n - i
    {
      i := 2 * i;
      k := k + 1;
    }
  }

  /** The last carry becomes a word of its own unless it is zero. */
  method PutCarry(r: Bigint, w: nat, z: Word)
    requires r.Valid() && 1 <= w < r.x.Length
    modifies r, r.x
    ensures r.Valid() && r.wds >= 1 && r.Value() == old(Val(r.x[..w])) + z * Place(w)
    ensures z != 0 || old(r.x[w - 1]) != 0 ==> Normal(r.Words())
  {
    ghost var low := r.x[..w];
    if z != 0 {
      r.x[w] := z;
      r.wds := w + 1;
      ValSnoc(r.Words(), w);
      assert r.Words()[..w] == low && r.Words()[..w + 1] == r.Words();
    } else {
      r.wds := w;
    }
  }

  /** b * 2^k, in a new number. */
  method Lshift(b: Bigint, k: nat) returns (r: Bigint)
    requires b.Valid() && b.wds >= 1
    ensures r.Valid() && fresh(r) && fresh(r.x) && r.wds >= 1
    ensures r.Value() == b.Value() * Pow(2, k)
    ensures b.Value() > 0 && Trim(b.Words()) ==> Normal(r.Words())
  {
    var n, s, w := k / 32, k % 32, b.wds;
    var k1 := Room(b, n + w + 1);
    r := new Bigint(k1);
    ghost var v := b.Value();
    ShiftFits(s);
    var z := ShiftWords(r.x, b.x, w, n, s, Pow(2, s));
    ShiftSplit(v, k);
    assert b.Value() == v;
    PutCarry(r, n + w, z);
    if Trim(b.Words()) && v > 0 { TopWord(b.Words()); }
  }

  lemma ShiftSplit(v: int, k: nat)
    ensures v * Pow(2, k % 32) * Place(k / 32) == v * Pow(2, k)
  {
    PlaceIsPow(k / 32);
    PowAdd2(k % 32, 32 * (k / 32));
    Assoc(v, Pow(2, k % 32), Place(k / 32));
  }
}
