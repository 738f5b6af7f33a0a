/** Comparison, difference, shift and the one-digit division of dtoa.c. */
module BignumDivide {
  import opened BignumValue
  import opened Bignum

  // ----------------------------------------------------------------------- cmp

  /** How cmp sees the order: by value, except that a number without words counts
      as less than zero. */
  function Order(s: seq<Word>): int { if s == [] then -1 else Val(s) }

  /** Compares numbers without leading zero words, by length first. */
  method Cmp(a: Bigint, b: Bigint) returns (i: int)
    requires a.Valid() && b.Valid() && Trim(a.Words()) && Trim(b.Words()) && (a.wds > 0 || b.wds > 0)
    ensures i < 0 <==> Order(a.Words()) < Order(b.Words())
    ensures i == 0 <==> Order(a.Words()) == Order(b.Words())
  {
    ghost var s, t := a.Words(), b.Words();
    if a.wds != b.wds {
      if |s| > |t| > 0 { LongerIsLarger(s, t); }
      if |t| > |s| > 0 { LongerIsLarger(t, s); }
      return a.wds - b.wds;
    }
    var j: nat := a.wds;
    while j > 0
      invariant j <= a.wds == |s| == |t| && s[j..] == t[j..] && s == a.Words() && t == b.Words()
    {
      j := j - 1;
      if a.x[j] != b.x[j] {
        assert s[j] == a.x[j] && t[j] == b.x[j];
        if s[j] < t[j] { TopDecides(s, t, j); } else { TopDecides(t, s, j); }
        return if a.x[j] < b.x[j] then -1 else 1;
      }
      assert s[j..] == [s[j]] + s[j + 1..] && t[j..] == [t[j]] + t[j + 1..];
    }
    assert s == s[0..] && t == t[0..];
    return 0;
  }

  // ----------------------------------------------------------------- borrow chains

  /** A difference of 64-bit words: the low word and the borrow bit. */
  lemma BorrowBits(d: int)
    requires -2 * BASE < d < BASE
    ensures var y := d % (BASE * BASE);
            && y % BASE == d % BASE
            && (d >= 0 ==> (y / BASE) % 2 == 0)
            && (-BASE <= d < 0 ==> (y / BASE) % 2 == 1 && d % BASE == d + BASE)
  {
    if d >= 0 {
      assert d % (BASE * BASE) == d;
    } else {
      assert d % (BASE * BASE) == d + BASE * BASE;
      assert (d + BASE * BASE) % BASE == d % BASE;
      if -BASE <= d { assert (d + BASE * BASE) / BASE == BASE - 1; }
    }
  }

  /** y = x - d - borrow in 64 bits; the low word and bit 32 of it. */
  method SubtractWord(x: Word, d: Word, borrow: nat) returns (out: Word, borrow': nat)
    requires borrow <= 1
    ensures borrow' <= 1 && x - d - borrow == out - borrow' * BASE
  {
    BorrowBits(x - d - borrow);
    var y := (x - d - borrow) % (BASE * BASE);
    out, borrow' := y % BASE, (y / BASE) % 2;
  }

  /** One word of b - q * s: digits done v, of ub and us; the debts c (carry of the
      product) and e (borrow) at place p. */
  lemma BorrowStep(v: int, ub: int, us: int, q: int, c: int, e: int, p: int,
                   wb: int, ws: int, hi: int, lo: int, out: int, e': int, base: int)
    requires v == ub - q * us + (c + e) * p
    requires ws * q + c == lo + hi * base && wb - lo - e == out - e' * base
    ensures v + out * p == ub + wb * p - q * (us + ws * p) + (hi + e') * (p * base)
  {
    calc {
      v + out * p;
      ub - q * us + (c + e) * p + (wb - lo - e + e' * base) * p;
      ub - q * us + (c + e + wb - lo - e + e' * base) * p;
      ub - q * us + (wb + c - (ws * q + c - hi * base) + e' * base) * p;
      ub - q * us + (wb - ws * q + (hi + e') * base) * p;
      ub - q * us + wb * p - ws * q * p + (hi + e') * base * p;
      { assert q * (us + ws * p) == q * us + ws * q * p; assert (hi + e') * base * p == (hi + e') * (p * base); }
      ub + wb * p - q * (us + ws * p) + (hi + e') * (p * base);
    }
  }

  /** q * s has been subtracted on the first i words, up to what is still owed. */
  ghost predicate Subtracted(b: seq<Word>, was: seq<Word>, s: seq<Word>, i: nat, q: Word, debt: int) {
    && i <= |b| == |was| && i <= |s|
    && Val(b[..i]) == Val(was[..i]) - q * Val(s[..i]) + debt * Place(i)
  }

  lemma SubStep(before: seq<Word>, after: seq<Word>, was: seq<Word>, s: seq<Word>, i: nat, q: Word,
                carry: Word, borrow: int, ys: int, out: Word, borrow': int)
    requires |before| == |after| == |was| && i < |was| && i < |s| && before[i] == was[i] && 0 <= borrow <= 1
    requires ys == s[i] * q + carry && after == before[i := out]
    requires was[i] - ys % BASE - borrow == out - borrow' * BASE
    requires Subtracted(before, was, s, i, q, carry + borrow)
    ensures Subtracted(after, was, s, i + 1, q, ys / BASE + borrow')
  {
    ValSnoc(after, i);
    ValSnoc(was, i);
    ValSnoc(s, i);
    assert after[..i] == before[..i];
    BorrowStep(Val(before[..i]), Val(was[..i]), Val(s[..i]), q, carry, borrow, Place(i), was[i], s[i],
               ys / BASE, ys % BASE, out, borrow', BASE);
  }

  /** b - q * s on the first n words, in place; the debt left over at the end is
      carry and borrow together. */
  method SubWords(b: array<Word>, s: array<Word>, n: nat, q: Word) returns (debt: nat)
    requires n <= b.Length && n <= s.Length && b != s
    modifies b
    ensures Val(b[..n]) == Val(old(b[..n])) - q * Val(s[..n]) + debt * Place(n)
    ensures b[n..] == old(b[n..])
  {
    ghost var was, ss := b[..], s[..];
    var i: nat, borrow: nat, carry: Word := 0, 0, 0;
    assert Subtracted(b[..], was, ss, 0, q, 0);
    while i < n
      invariant i <= n && 0 <= borrow <= 1 && |was| == b.Length && ss == s[..]
      invariant b[i..] == was[i..]
      invariant Subtracted(b[..], was, ss, i, q, carry + borrow)
    {
      ghost var before := b[..];
      assert b[i] == b[i..][0] && was[i] == was[i..][0];
      CarryFits(s[i], q, carry);
      var ys := s[i] * q + carry;
      var out, borrow' := SubtractWord(b[i], ys % BASE, borrow);
      b[i] := out;
      SubStep(before, b[..], was, ss, i, q, carry, borrow, ys, out, borrow');
      assert before[i..][1..] == before[i + 1..] && was[i..][1..] == was[i + 1..];
      assert b[i + 1..] == before[i + 1..];
      borrow := borrow';
      carry := ys / BASE;
      i := i + 1;
    }
    debt := carry + borrow;
    assert was[..n] == old(b[..n]) && ss[..n] == s[..n] && b[..][..n] == b[..n];
  }

  // -------------------------------------------------------------------- quorem

  /** The one-word estimate is never too large and short by at most one. */
  lemma Estimate(b: int, s: int, bt: int, st: int, p: int, q: int)
    requires 0 <= bt < BASE && 0x800_0000 <= st < 0x1000_0000 && p > 0
    requires bt * p <= b < (bt + 1) * p && st * p <= s < (st + 1) * p
    requires q >= 0 && q * (st + 1) <= bt < (q + 1) * (st + 1)
    ensures q < 32 && q * s <= b && b - q * s < 2 * s
  {
    assert q < 32 by { if q >= 32 { MulMono(32, q, st + 1); } }
    calc <= {
      q * s;
      { assert q * s <= q * ((st + 1) * p) by { MulMono(s, (st + 1) * p, q); } }
      q * ((st + 1) * p);
      { assert q * ((st + 1) * p) == q * (st + 1) * p; MulMono(q * (st + 1), bt, p); }
      bt * p;
      b;
    }
    assert bt + 1 <= (q + 2) * st by {
      assert (q + 1) * (st + 1) == (q + 1) * st + (q + 1) && (q + 2) * st == (q + 1) * st + st;
    }
    assert (bt + 1) * p <= (q + 2) * st * p by { MulMono(bt + 1, (q + 2) * st, p); }
    assert (q + 2) * st * p == (q + 2) * (st * p);
    MulMono(st * p, s, q + 2);
    assert (q + 2) * s == q * s + 2 * s;
  }

  lemma NoDebt(v: int, rest: int, debt: int, p: int)
    requires v == rest + debt * p && 0 <= v < p && 0 <= rest < p && debt >= 0
    ensures debt == 0
  {
    if debt >= 1 { MulMono(1, debt, p); }
  }

  lemma DivideIs(b: int, s: int, q: int, r: int)
    requires b == q * s + r && 0 <= r < s
    ensures b / s == q && b % s == r
  {
    assert (q - b / s) * s == b % s - r;
    if q > b / s { MulMono(1, q - b / s, s); }
    if q < b / s { MulMono(q - b / s, -1, s); }
  }

  /** Drops leading zero words of a number of n + 1 words, but the lowest word only
      when it is the only one. */
  method StripTop(b: Bigint, n: nat)
    requires b.Valid() && b.wds == n + 1
    modifies b
    ensures b.Valid() && b.wds <= n + 1 && Val(b.x[..b.wds]) == Val(b.x[..n + 1])
    ensures Trim(b.Words()) && (b.wds == 0 <==> n == 0 && b.x[0] == 0)
    ensures b.wds == n + 1 <==> b.x[n] != 0
  {
    if b.x[n] == 0 {
      ghost var x := b.x[..];
      ValSnoc(x, n);
      var i := n - 1;
      var m := n;
      while i > 0 && b.x[i] == 0
        invariant i < n && m == i + 1 && 0 <= m && (n > 0 ==> i >= 0) && x == b.x[..]
        invariant Val(x[..m]) == Val(x[..n + 1])
      {
        ValSnoc(x, i);
        m := m - 1;
        i := i - 1;
      }
      b.wds := m;
      assert x[..m] == b.x[..m] && x[..n + 1] == b.x[..n + 1];
    }
  }

  /** b - q * S, provided that this is not negative. */
  method SubMultiple(b: Bigint, S: Bigint, q: Word)
    requires b.Valid() && S.Valid() && b != S && b.x != S.x && b.wds == S.wds && b.wds > 0
    requires q * S.Value() <= b.Value()
    modifies b, b.x
    ensures b.Valid() && b.Value() == old(b.Value()) - q * S.Value()
    ensures Trim(b.Words()) && (b.wds == 0 <==> S.wds == 1 && b.Value() == 0)
    ensures b.wds <= S.wds && (b.wds == 0 ==> b.x[0] == 0)
  {
    var n := S.wds - 1;
    ghost var v, s := b.Value(), S.Value();
    ValBound(b.Words());
    var debt := SubWords(b.x, S.x, n + 1, q);
    ValBound(b.x[..n + 1]);
    assert q * s >= 0;
    NoDebt(Val(b.x[..n + 1]), v - q * s, debt, Place(n + 1));
    StripTop(b, n);
    if n == 0 { ValSnoc(b.x[..], 0); assert b.x[..][..1] == b.x[..1] && b.x[..][..0] == []; }
  }

  lemma EstimateWords(b: seq<Word>, s: seq<Word>, q: int)
    requires |b| == |s| > 0 && 0x800_0000 <= s[|s| - 1] < 0x1000_0000
    requires q >= 0 && q * (s[|s| - 1] + 1) <= b[|s| - 1] < (q + 1) * (s[|s| - 1] + 1)
    ensures q < 32 && q * Val(s) <= Val(b) && Val(b) - q * Val(s) < 2 * Val(s)
  {
    var n := |s| - 1;
    ValTop(b);
    ValTop(s);
    Estimate(Val(b), Val(s), b[n], s[n], Place(n), q);
  }

  method DivideWords(a: Word, d: nat) returns (q: nat)
    requires d > 0
    ensures q * d <= a < (q + 1) * d
  {
    q := a / d;
    assert a == (a / d) * d + a % d;
  }

  /** The estimate, and what it leaves. */
  method FirstGuess(b: Bigint, S: Bigint) returns (q: Word)
    requires b.Valid() && S.Valid() && b != S && b.x != S.x && b.wds == S.wds > 0 && Normal(b.Words())
    requires 0x800_0000 <= S.x[S.wds - 1] < 0x1000_0000
    modifies b, b.x
    ensures q < 32 && b.Valid() && old(b.Value()) == q * S.Value() + b.Value() && b.Value() < 2 * S.Value()
    ensures Trim(b.Words()) && b.wds <= S.wds
    ensures b.wds == 0 <==> S.wds == 1 && q > 0 && b.Value() == 0
    ensures b.wds == 0 ==> b.x[0] == 0
  {
    ghost var v, s := b.Value(), S.Value();
    var n := S.wds - 1;
    var guess := DivideWords(b.x[n], S.x[n] + 1);
    EstimateWords(b.Words(), S.Words(), guess);
    q := guess;
    ghost var product := q * s;
    if q != 0 { SubMultiple(b, S, q); }
    assert v == product + b.Value();
  }

  /** Divides b by S, leaving the remainder in b.  A remainder of zero has no words
      at all when S is a single word. */
  method Quorem(b: Bigint, S: Bigint) returns (q: nat)
    requires b.Valid() && S.Valid() && b != S && b.x != S.x
    requires Normal(b.Words()) && Normal(S.Words()) && b.wds <= S.wds
    requires 0x800_0000 <= S.x[S.wds - 1] < 0x1000_0000
    modifies b, b.x
    ensures S.Value() > 0 && q == old(b.Value()) / S.Value() && q < 33
    ensures b.Valid() && b.Value() == old(b.Value()) % S.Value()
    ensures Trim(b.Words()) && (b.wds == 0 <==> S.wds == 1 && q > 0 && b.Value() == 0)
    ensures b.wds == 0 ==> b.x[0] == 0
  {
    ghost var v, s := b.Value(), S.Value();
    Positive(S.Words());
    if b.wds < S.wds {
      LongerIsLarger(S.Words(), b.Words());
      DivideIs(v, s, 0, v);
      return 0;
    }
    q := FirstGuess(b, S);
    GuessIs(v, s, q, b.Value());
    var c := Cmp(b, S);
    if c >= 0 {
      assert b.wds == S.wds by { if b.wds < S.wds { LongerIsLarger(S.Words(), b.Words()); } }
      SubMultiple(b, S, 1);
      q := q + 1;
    }
  }

  lemma GuessIs(b: int, s: int, q: int, rest: int)
    requires b == q * s + rest && 0 <= rest < 2 * s
    ensures rest < s ==> b / s == q && b % s == rest
    ensures rest >= s ==> b / s == q + 1 && b % s == rest - s
  {
    if rest < s { DivideIs(b, s, q, rest); } else { DivideIs(b, s, q + 1, rest - s); }
  }

  /** A divisor of one word and a multiple of it: the remainder has no words left. */
  method QuoremExample() returns (q: nat, b: Bigint)
    ensures q == 2 && fresh(b) && b.Valid() && b.Value() == 0 && b.wds == 0
  {
    var S := I2b(0x800_0000);
    b := I2b(0x1000_0000);
    OneWord(b);
    OneWord(S);
    q := Quorem(b, S);
    assert 0x1000_0000 / 0x800_0000 == 2 && 0x1000_0000 % 0x800_0000 == 0;
  }

  lemma OneWord(a: Bigint)
    requires a.Valid() && |a.Words()| == 1 && a.Words()[0] > 0
    ensures Normal(a.Words()) && a.wds == 1 && a.x[0] == a.Words()[0]
  {
  }
}
