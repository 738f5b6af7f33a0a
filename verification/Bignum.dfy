/** The big integers of dtoa.c: word arrays with carry and borrow loops.  Words
    have 32 bits; products and differences are computed in 64 bits. */
module Bignum {
  import opened BignumValue

  /** Room for 2^k words, of which the first wds are in use. */
  class Bigint {
    const k: nat
    const x: array<Word>
    var wds: nat
    var sign: bool

    ghost predicate Valid() reads this { x.Length == Pow(2, k) && wds <= x.Length }

    ghost function Words(): seq<Word>
      reads this, x
      requires Valid()
    {
      x[..wds]
    }

    ghost function Value(): nat
      reads this, x
      requires Valid()
    {
      Val(Words())
    }

    constructor (k: nat)
      ensures Valid() && this.k == k && wds == 0 && !sign && fresh(x)
    {
      this.k := k;
      x := new Word[Pow(2, k)];
      wds, sign := 0, false;
      new;
      PowPositive(k);
    }
  }

  lemma {:induction false} PowPositive(k: nat)
    ensures Pow(2, k) >= 1
  {
    if k > 0 { PowPositive(k - 1); }
  }

  method I2b(i: Word) returns (b: Bigint)
    ensures b.Valid() && fresh(b) && fresh(b.x) && b.Words() == [i] && b.Value() == i && !b.sign
  {
    b := new Bigint(1);
    b.x[0] := i;
    b.wds := 1;
    ValSnoc([i], 0);
    assert [i][..1] == [i] && [i][..0] == [];
  }

  // ------------------------------------------------------------------- multadd

  /** One step of a multiplication row: the low word of y goes out, the high one
      is carried.  The digits done so far are v, of u, and p is the place value. */
  lemma RowStep(v: int, c: int, u: int, w: int, m: int, a: int, p: int, y: int, hi: int, lo: int, base: int)
    requires v + c * p == u * m + a && y == w * m + c && y == lo + hi * base
    ensures v + lo * p + hi * (p * base) == (u + w * p) * m + a
  {
    calc {
      v + lo * p + hi * (p * base);
      v + lo * p + hi * base * p;
      v + (lo + hi * base) * p;
      v + (w * m + c) * p;
      v + c * p + w * m * p;
      u * m + a + w * p * m;
      (u + w * p) * m + a;
    }
  }

  /** x * y + c + carry in 64 bits, split into its two words. */
  method MulAddWord(x: Word, y: Word, c: Word, carry: Word) returns (lo: Word, hi: Word)
    ensures lo + hi * BASE == x * y + c + carry
  {
    ProductFits(x, y, c, carry);
    var z := x * y + c + carry;
    lo, hi := z % BASE, z / BASE;
  }

  lemma CarryFits(w: int, m: int, carry: int)
    requires 0 <= w < BASE && 0 <= m < BASE && 0 <= carry < BASE
    ensures 0 <= w * m + carry < BASE * BASE && (w * m + carry) / BASE < BASE
  {
    MulMono(w, BASE - 1, m);
    MulMono(m, BASE - 1, BASE - 1);
    var y := w * m + carry;
    assert y <= (BASE - 1) * (BASE - 1) + (BASE - 1);
  }

  /** The first i words have been multiplied by m, with a added, up to the carry. */
  ghost predicate ScaledBy(x: seq<Word>, was: seq<Word>, i: nat, m: Word, a: Word, carry: int) {
    i <= |x| == |was| && Val(x[..i]) + carry * Place(i) == Val(was[..i]) * m + a
  }

  /** The multiplication row itself, in place on the first n words. */
  method ScaleWords(x: array<Word>, n: nat, m: Word, a: Word) returns (carry: Word)
    requires 1 <= n <= x.Length
    modifies x
    ensures Val(x[..n]) + carry * Place(n) == Val(old(x[..n])) * m + a
    ensures carry == 0 && m > 0 && old(x[n - 1]) != 0 ==> x[n - 1] != 0
  {
    ghost var was := x[..];
    var i := 0;
    carry := a;
    while i < n
      invariant i <= n <= |was| == x.Length
      invariant x[i..] == was[i..]
      invariant ScaledBy(x[..], was, i, m, a, carry)
      invariant i > 0 && carry == 0 && m > 0 && was[i - 1] != 0 ==> x[i - 1] != 0
    {
      ghost var before := x[..];
      var w := x[i];
      assert w == was[i..][0];
      var lo, hi := MulAddWord(w, m, 0, carry);
      x[i] := lo;
      MultaddStep(before, x[..], was, i, m, a, carry, lo, hi);
      carry := hi;
      i := i + 1;
    }
    assert was[..n] == old(x[..n]) && x[..][..n] == x[..n];
  }

  /** b * m + a, in place; a word is added if the product overflows the words in use. */
  method Multadd(b: Bigint, m: Word, a: Word) returns (r: Bigint)
    requires b.Valid() && b.wds >= 1
    modifies b, b.x
    ensures r.Valid() && r.wds >= 1
    ensures r.Value() == old(b.Value()) * m + a
    ensures r == b || (fresh(r) && fresh(r.x))
    ensures m > 0 && Trim(old(b.Words())) && old(b.Value()) > 0 ==> Normal(r.Words())
  {
    ghost var was := b.Words();
    var n := b.wds;
    var carry := ScaleWords(b.x, n, m, a);
    ghost var low := b.Words();
    r := b;
    if carry != 0 {
      if n >= b.x.Length {
        r := new Bigint(b.k + 1);
        CopyWords(r, b);
      }
      assert r.x.Length > r.wds by { PowPositive(b.k); }
      r.x[n] := carry;
      r.wds := n + 1;
      ValSnoc(r.Words(), n);
      assert r.Words()[..n] == low && r.Words()[..n + 1] == r.Words();
    }
    if Trim(was) && Val(was) > 0 { TopWord(was); }
  }

  lemma TopWord(s: seq<Word>)
    requires Trim(s) && Val(s) > 0
    ensures s != [] && s[|s| - 1] != 0
  {
    if |s| == 1 { ValSnoc(s, 0); assert s[..1] == s && s[..0] == []; }
  }

  lemma MultaddStep(before: seq<Word>, after: seq<Word>, was: seq<Word>, i: nat, m: Word, a: Word, carry: Word, lo: Word, hi: Word)
    requires |before| == |after| == |was| && i < |was| && before[i] == was[i] && after == before[i := lo]
    requires lo + hi * BASE == was[i] * m + carry
    requires ScaledBy(before, was, i, m, a, carry)
    ensures ScaledBy(after, was, i + 1, m, a, hi)
    ensures hi == 0 && m > 0 && was[i] != 0 ==> lo != 0
  {
    ValSnoc(after, i);
    ValSnoc(was, i);
    assert after[..i] == before[..i];
    ProductPositive(was[i], m);
    RowStep(Val(before[..i]), carry, Val(was[..i]), was[i], m, a, Place(i), was[i] * m + carry, hi, lo, BASE);
  }

  lemma ProductPositive(w: int, m: int)
    requires w >= 0 && m >= 0
    ensures w > 0 && m > 0 ==> w * m > 0
  {
  }

  /** Bcopy. */
  method CopyWords(r: Bigint, b: Bigint)
    requires r.Valid() && b.Valid() && r != b && r.x != b.x && b.wds <= r.x.Length
    modifies r, r.x
    ensures r.Valid() && r.wds == b.wds && r.sign == b.sign && r.Words() == b.Words()
  {
    r.sign := b.sign;
    r.wds := b.wds;
    var i := 0;
    while i < b.wds
      invariant i <= b.wds == r.wds && r.x[..i] == b.x[..i]
      invariant r.sign == b.sign
    {
      r.x[i] := b.x[i];
      i := i + 1;
    }
  }

  // ---------------------------------------------------------------------- mult

  lemma ProductFits(w: int, y: int, c: int, carry: int)
    requires 0 <= w < BASE && 0 <= y < BASE && 0 <= c < BASE && 0 <= carry < BASE
    ensures 0 <= w * y + c + carry < BASE * BASE && (w * y + c + carry) / BASE < BASE
  {
    MulMono(w, BASE - 1, y);
    MulMono(y, BASE - 1, BASE - 1);
    assert w * y + c + carry <= (BASE - 1) * (BASE - 1) + 2 * (BASE - 1);
  }

  /** The first i words of a, times y, have been added at offset j, up to the carry. */
  ghost predicate RowAdded(c: seq<Word>, was: seq<Word>, a: seq<Word>, i: nat, j: nat, y: Word, carry: int) {
    && i + j <= |c| == |was| && i <= |a|
    && Val(c[..i + j]) + carry * Place(i + j) == Val(was[..i + j]) + Val(a[..i]) * y * Place(j)
  }

  /** One word of a product row added into c at offset j. */
  lemma AddRowStep(before: seq<Word>, after: seq<Word>, was: seq<Word>, a: seq<Word>, i: nat, j: nat, y: Word, carry: Word,
                   lo: Word, hi: Word)
    requires |before| == |after| == |was| && i + j < |was| && i < |a| && before[i + j] == was[i + j]
    requires after == before[i + j := lo] && lo + hi * BASE == a[i] * y + was[i + j] + carry
    requires RowAdded(before, was, a, i, j, y, carry)
    ensures RowAdded(after, was, a, i + 1, j, y, hi)
  {
    ValSnoc(after, i + j);
    ValSnoc(was, i + j);
    ValSnoc(a, i);
    assert after[..i + j] == before[..i + j];
    PlaceAdd(i, j);
    AddRowArith(Val(before[..i + j]), carry, Val(was[..i + j]), Val(a[..i]), a[i], was[i + j], y, Place(i), Place(j),
                Place(i + j), a[i] * y + was[i + j] + carry, hi, lo, BASE);
  }

  lemma AddRowArith(v: int, c: int, u: int, ua: int, w: int, x: int, y: int, pi: int, pj: int, p: int,
                    z: int, hi: int, lo: int, base: int)
    requires v + c * p == u + ua * y * pj && z == w * y + x + c && z == lo + hi * base && p == pi * pj
    ensures v + lo * p + hi * (p * base) == u + x * p + (ua + w * pi) * y * pj
  {
    calc {
      v + lo * p + hi * (p * base);
      v + lo * p + hi * base * p;
      v + (lo + hi * base) * p;
      v + (w * y + x + c) * p;
      v + c * p + x * p + w * y * p;
      u + ua * y * pj + x * p + w * y * p;
      { assert w * y * (pi * pj) == w * pi * y * pj; }
      u + x * p + ua * y * pj + w * pi * y * pj;
      { assert (ua + w * pi) * y * pj == (ua * y + w * pi * y) * pj == ua * y * pj + w * pi * y * pj; }
      u + x * p + (ua + w * pi) * y * pj;
    }
  }

  /** Adds a * y at offset j, into words of c that are zero from offset j + |a| on. */
  method AddRow(c: array<Word>, x: array<Word>, wa: nat, y: Word, j: nat)
    requires 1 <= wa <= x.Length && j + wa < c.Length && c != x && c[j + wa] == 0
    modifies c
    ensures Val(c[..j + wa + 1]) == Val(old(c[..j + wa])) + Val(x[..wa]) * y * Place(j)
    ensures c[j + wa + 1..] == old(c[j + wa + 1..])
  {
    ghost var was, xs := c[..], x[..];
    var i: nat, carry: Word := 0, 0;
    while i < wa
      invariant i <= wa && |was| == c.Length && xs == x[..]
      invariant c[i + j..] == was[i + j..]
      invariant RowAdded(c[..], was, xs, i, j, y, carry)
    {
      ghost var before := c[..];
      assert c[i + j] == c[i + j..][0] && was[i + j] == was[i + j..][0];
      var lo, hi := MulAddWord(x[i], y, c[i + j], carry);
      c[i + j] := lo;
      AddRowStep(before, c[..], was, xs, i, j, y, carry, lo, hi);
      assert before[i + j..][1..] == before[i + j + 1..] && was[i + j..][1..] == was[i + j + 1..];
      assert c[i + j + 1..] == before[i + j + 1..];
      carry := hi;
      i := i + 1;
    }
    ghost var low := c[..wa + j];
    assert c[..][..wa + j] == low;
    c[wa + j] := carry;
    ValSnoc(c[..], wa + j);
    assert c[..][..wa + j] == low && c[..][..wa + j + 1] == c[..j + wa + 1];
    assert was[..wa + j] == old(c[..j + wa]) && xs[..wa] == x[..wa];
  }

  lemma RowSum(v: int, u: int, y: int, p: int)
    ensures v * u + v * y * p == v * (u + y * p)
  {
  }

  method Zero(c: array<Word>, n: nat)
    requires n <= c.Length
    modifies c
    ensures forall i :: 0 <= i < n ==> c[i] == 0
  {
    var i := 0;
    while i < n
      invariant i <= n && forall j :: 0 <= j < i ==> c[j] == 0
    {
      c[i] := 0;
      i := i + 1;
    }
  }

  /** A row is skipped when its factor is zero. */
  method MulRow(c: array<Word>, x: array<Word>, wa: nat, y: Word, j: nat)
    requires 1 <= wa <= x.Length && j + wa < c.Length && c != x && c[j + wa] == 0
    modifies c
    ensures Val(c[..j + wa + 1]) == Val(old(c[..j + wa])) + Val(x[..wa]) * y * Place(j)
    ensures forall i :: j + wa < i < c.Length ==> c[i] == old(c[i])
  {
    ghost var before := c[..];
    if y != 0 {
      AddRow(c, x, wa, y, j);
      assert forall i :: j + wa < i < c.Length ==> c[i] == c[j + wa + 1..][i - (j + wa + 1)] == before[i];
    } else {
      ValSnoc(c[..], wa + j);
      assert c[..][..wa + j] == c[..wa + j] && c[..][..wa + j + 1] == c[..j + wa + 1];
    }
  }

  lemma MulStep(va: int, ys: seq<Word>, j: nat, v: int)
    requires j < |ys| && v == va * Val(ys[..j])
    ensures v + va * ys[j] * Place(j) == va * Val(ys[..j + 1])
  {
    ValSnoc(ys, j);
    RowSum(va, Val(ys[..j]), ys[j], Place(j));
  }

  /** Schoolbook multiplication, row by row. */
  method MulWords(c: array<Word>, x: array<Word>, wa: nat, y: array<Word>, wb: nat)
    requires wb <= wa <= x.Length && wb <= y.Length && wa + wb <= c.Length && c != x && c != y
    modifies c
    ensures Val(c[..wa + wb]) == Val(x[..wa]) * Val(y[..wb])
  {
    Zero(c, wa + wb);
    ValZeros(c[..wa], 0);
    assert c[..wa][..0] == [];
    ghost var ys, va := y[..], Val(x[..wa]);
    var j := 0;
    while j < wb
      invariant j <= wb && ys == y[..] && va == Val(x[..wa])
      invariant forall i :: wa + j <= i < wa + wb ==> c[i] == 0
      invariant Val(c[..wa + j]) == va * Val(ys[..j])
    {
      MulStep(va, ys, j, Val(c[..wa + j]));
      MulRow(c, x, wa, y[j], j);
      j := j + 1;
    }
    assert ys[..wb] == y[..wb];
  }

  lemma Positive(s: seq<Word>)
    requires s != [] && s[|s| - 1] != 0
    ensures Val(s) > 0
  {
    ValTop(s);
    MulMono(1, s[|s| - 1], Place(|s| - 1));
  }

  method MultOrdered(a: Bigint, b: Bigint) returns (c: Bigint)
    requires a.Valid() && b.Valid() && a.wds >= b.wds
    ensures c.Valid() && fresh(c) && fresh(c.x) && !c.sign
    ensures c.Value() == a.Value() * b.Value()
    ensures c.wds > 0 ==> c.Words()[c.wds - 1] != 0
  {
    var k := if a.wds + b.wds > a.x.Length then a.k + 1 else a.k;
    c := new Bigint(k);
    ghost var va, vb := a.Value(), b.Value();
    MulWords(c.x, a.x, a.wds, b.x, b.wds);
    var wc := StripAll(c.x, a.wds + b.wds);
    assert Val(c.x[..wc]) == va * vb;
    c.wds := wc;
    assert c.Words() == c.x[..wc];
    assert a.Value() == va && b.Value() == vb;
  }

  /** The product, in a new number without leading zero words; the product with a
      zero factor has no words at all. */
  method Mult(a: Bigint, b: Bigint) returns (c: Bigint)
    requires a.Valid() && b.Valid()
    ensures c.Valid() && fresh(c) && fresh(c.x) && !c.sign
    ensures c.Value() == a.Value() * b.Value()
    ensures c.wds > 0 ==> c.Words()[c.wds - 1] != 0
    ensures c.wds == 0 <==> c.Value() == 0
  {
    hide Val;
    assert b.Value() * a.Value() == a.Value() * b.Value();
    if a.wds < b.wds {
      c := MultOrdered(b, a);
    } else {
      c := MultOrdered(a, b);
    }
    if c.wds > 0 { Positive(c.Words()); } else { NoWords(c.Words()); }
  }

  lemma NoWords(s: seq<Word>)
    requires s == []
    ensures Val(s) == 0
  {
  }

  /** Drops leading zero words. */
  method StripAll(x: array<Word>, w: nat) returns (n: nat)
    requires w <= x.Length
    ensures n <= w && Val(x[..n]) == Val(x[..w])
    ensures n > 0 ==> x[n - 1] != 0
  {
    n := w;
    while n > 0 && x[n - 1] == 0
      invariant n <= w && Val(x[..n]) == Val(x[..w])
    {
      ValSnoc(x[..], n - 1);
      assert x[..][..n - 1] == x[..n - 1] && x[..][..n - 1 + 1] == x[..n];
      n := n - 1;
    }
  }
}
