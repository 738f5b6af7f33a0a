/** The digit loop of dtoa on big integers refines the loop on values. */
module DigitLoop {
  import opened BignumValue
  import opened Bignum
  import opened BignumDivide
  import opened BignumShift
  import opened ShortestDigits

  ghost predicate Positive1(b: Bigint)
    reads b, b.x
  {
    b.Valid() && Normal(b.Words()) && b.Value() > 0
  }

  /** The divisor has four leading zero bits. */
  ghost predicate Divisor(S: Bigint)
    reads S, S.x
  {
    Positive1(S) && 0x800_0000 <= S.x[S.wds - 1] < 0x1000_0000
  }

  lemma TenFits(v: int, top: int, p: int)
    requires v < (top + 1) * p && top < 0x1000_0000 && p > 0
    ensures 10 * v < BASE * p
  {
    MulMono(top + 1, 0x1000_0000, p);
  }

  /** A number below ten times the divisor has no more words than the divisor. */
  lemma NoLonger(b: seq<Word>, s: seq<Word>)
    requires Normal(b) && Normal(s) && s[|s| - 1] < 0x1000_0000 && Val(b) < 10 * Val(s)
    ensures |b| <= |s|
  {
    ValTop(s);
    TenFits(Val(s), s[|s| - 1], Place(|s| - 1));
    ValTop(b);
    MulMono(if |b| > 1 then 1 else 0, b[|b| - 1], Place(|b| - 1));
    if |b| > |s| { PlaceMono(|s|, |b| - 1); }
  }

  /** The comparison of the remainder with S - mhi. */
  method CompareUpper(b: Bigint, S: Bigint, mhi: Bigint) returns (j1: int)
    requires b.Valid() && Trim(b.Words()) && Positive1(S) && Positive1(mhi)
    ensures var u := Upper(b.Value(), S.Value(), mhi.Value(), b.wds == 0);
            (j1 < 0 <==> u < 0) && (j1 == 0 <==> u == 0)
  {
    var delta := Diff(S, mhi);
    if delta.sign { return 1; }
    j1 := Cmp(b, delta);
  }

  /** Twice the remainder against the divisor, ties to the even digit. */
  method NearerAbove(b: Bigint, S: Bigint, d: nat) returns (up: bool)
    requires Positive1(b) && Positive1(S)
    ensures up <==> 2 * b.Value() > S.Value() || (2 * b.Value() == S.Value() && d % 2 == 1)
  {
    var b2 := Lshift(b, 1);
    assert Pow(2, 1) == 2;
    var j1 := Cmp(b2, S);
    up := j1 > 0 || (j1 == 0 && d % 2 == 1);
  }

  /** The tests after the division. */
  method Decide(b: Bigint, S: Bigint, mlo: Bigint, mhi: Bigint, d: nat, ends: bool) returns (v: Verdict)
    requires b.Valid() && Trim(b.Words()) && Positive1(S) && Positive1(mlo) && Positive1(mhi)
    requires b.x.Length > 0 && (b.x[0] == 0 || b.wds > 0)
    ensures v == Judge(d, b.Value(), S.Value(), mlo.Value(), mhi.Value(), ends, b.wds == 0)
  {
    var j := Cmp(b, mlo);
    var j1 := CompareUpper(b, S, mhi);
    assert j < 0 <==> b.Value() < mlo.Value();
    assert j == 0 <==> b.Value() == mlo.Value();
    if j1 == 0 && ends {
      if d == 9 { return High; }
      return if j > 0 then High else Low;
    }
    if j < 0 || (j == 0 && ends) {
      ZeroWord(b);
      if b.x[0] == 0 && b.wds <= 1 { return Low; }
      if j1 > 0 {
        var up := NearerAbove(b, S, d);
        if up { return High; }
      }
      return Low;
    }
    return if j1 > 0 then High else More;
  }

  lemma ZeroWord(b: Bigint)
    requires b.Valid() && Trim(b.Words()) && b.x.Length > 0 && (b.x[0] == 0 || b.wds > 0)
    ensures b.Value() == 0 <==> b.wds <= 1 && b.x[0] == 0
  {
    if b.wds == 1 {
      ValSnoc(b.Words(), 0);
      assert b.Words()[..1] == b.Words() && b.Words()[..0] == [];
    } else if b.wds > 1 {
      Positive(b.Words());
    }
  }

  /** The carry loop over the digit buffer. */
  method RoundUp(buffer: seq<nat>) returns (digits: seq<nat>, up: bool)
    ensures Out(digits, up) == Roundoff(buffer)
    ensures (forall d :: d in buffer ==> d <= 9) ==>
              if up then DigitsValue(buffer) + 1 == Pow(10, |buffer|)
              else |digits| <= |buffer| && DigitsValue(digits) * Pow(10, |buffer| - |digits|) == DigitsValue(buffer) + 1
  {
    if forall d :: d in buffer ==> d <= 9 { RoundoffValue(buffer); }
    var s := buffer;
    while s != [] && s[|s| - 1] == 9
      invariant Roundoff(s) == Roundoff(buffer)
      decreases |s|
    {
      s := s[..|s| - 1];
    }
    if s == [] { return [1], true; }
    return s[..|s| - 1] + [s[|s| - 1] + 1], false;
  }

  /** The numbers of the loop are apart, except that mlo and mhi may be one. */
  ghost predicate Separate(b: Bigint, S: Bigint, mlo: Bigint, mhi: Bigint) {
    && b != S && b != mlo && b != mhi && S != mlo && S != mhi
    && b.x != S.x && b.x != mlo.x && b.x != mhi.x && S.x != mlo.x && S.x != mhi.x
    && (mlo != mhi ==> mlo.x != mhi.x)
  }

  /** Multiplication of both margins by ten. */
  method WidenMargins(mlo: Bigint, mhi: Bigint) returns (lo: Bigint, hi: Bigint)
    requires Positive1(mlo) && Positive1(mhi) && (mlo != mhi ==> mlo.x != mhi.x)
    modifies mlo, mlo.x, mhi, mhi.x
    ensures Positive1(lo) && Positive1(hi) && (lo != hi ==> lo.x != hi.x)
    ensures lo.Value() == 10 * old(mlo.Value()) && hi.Value() == 10 * old(mhi.Value())
    ensures (lo == mlo || lo == mhi || (fresh(lo) && fresh(lo.x))) && (hi == mhi || (fresh(hi) && fresh(hi.x)))
  {
    if mlo == mhi {
      hi := Multadd(mhi, 10, 0);
      lo := hi;
    } else {
      lo := Multadd(mlo, 10, 0);
      hi := Multadd(mhi, 10, 0);
    }
  }

  /** What the loop works on. */
  ghost predicate Ready(b: Bigint, S: Bigint, mlo: Bigint, mhi: Bigint)
    reads b, b.x, S, S.x, mlo, mlo.x, mhi, mhi.x
  {
    && b.Valid() && Normal(b.Words()) && Divisor(S) && Positive1(mlo) && Positive1(mhi)
    && Separate(b, S, mlo, mhi) && b.Value() < 10 * S.Value()
  }

  /** The division and the tests of one digit. */
  method OneDigit(b: Bigint, S: Bigint, mlo: Bigint, mhi: Bigint, ends: bool) returns (d: nat, v: Verdict)
    requires Ready(b, S, mlo, mhi)
    modifies b, b.x
    ensures S.Value() > 0 && d == old(b.Value()) / S.Value() && b.Valid() && b.Value() == old(b.Value()) % S.Value()
    ensures v == Judge(d, b.Value(), S.Value(), mlo.Value(), mhi.Value(), ends, S.wds == 1 && d > 0)
    ensures v == More ==> Positive1(b)
  {
    NoLonger(b.Words(), S.Words());
    d := Quorem(b, S);
    PowPositive(b.k);
    v := Decide(b, S, mlo, mhi, d, ends);
    BareAgrees(d, b.Value(), S.Value(), mlo.Value(), mhi.Value(), ends, b.wds == 0, S.wds == 1 && d > 0);
  }

  /** Whether the remainder is without words matters only when it is zero. */
  lemma BareAgrees(d: int, r: int, S: int, mlo: int, mhi: int, ends: bool, empty: bool, bare: bool)
    requires empty <==> bare && r == 0
    requires r >= 0 && mlo > 0
    ensures Judge(d, r, S, mlo, mhi, ends, empty) == Judge(d, r, S, mlo, mhi, ends, bare)
    ensures Judge(d, r, S, mlo, mhi, ends, bare) == More ==> r > 0
  {
  }

  /** Everything but the divisor is multiplied by ten. */
  method Advance(b: Bigint, S: Bigint, mlo: Bigint, mhi: Bigint) returns (c: Bigint, lo: Bigint, hi: Bigint)
    requires Positive1(b) && Divisor(S) && Positive1(mlo) && Positive1(mhi) && Separate(b, S, mlo, mhi) && b.Value() < S.Value()
    modifies b, b.x, mlo, mlo.x, mhi, mhi.x
    ensures Ready(c, S, lo, hi) && c.Value() == 10 * old(b.Value())
    ensures lo.Value() == 10 * old(mlo.Value()) && hi.Value() == 10 * old(mhi.Value())
    ensures c == b || (fresh(c) && fresh(c.x))
    ensures (lo == mlo || lo == mhi || (fresh(lo) && fresh(lo.x))) && (hi == mhi || (fresh(hi) && fresh(hi.x)))
  {
    c := Multadd(b, 10, 0);
    lo, hi := WidenMargins(mlo, mhi);
  }

  /** The loop on values, started here, comes to the target. */
  ghost predicate Heads(b: nat, S: nat, mlo: nat, mhi: nat, ends: bool, single: bool, s: seq<nat>, target: Out) {
    S > 0 && mlo > 0 && Loop(b, S, mlo, mhi, ends, single, s) == target
  }

  lemma OneRound(b: nat, S: nat, mlo: nat, mhi: nat, ends: bool, single: bool, s: seq<nat>, target: Out, d: nat, r: nat, v: Verdict)
    requires Heads(b, S, mlo, mhi, ends, single, s, target) && d == b / S && r == b % S
    requires v == Judge(d, r, S, mlo, mhi, ends, single && d > 0)
    ensures v == Low ==> target == Out(s + [d], false)
    ensures v == High ==> target == if d == 9 then Roundoff(s + [9]) else Out(s + [d + 1], false)
    ensures v == More ==> Heads(10 * r, S, 10 * mlo, 10 * mhi, ends, single, s + [d], target) && mlo < S && r < S
  {
  }

  /** One round of the loop: it either ends with the digits of the target, or goes
      on with one more digit in the buffer. */
  method Round(b: Bigint, S: Bigint, mlo: Bigint, mhi: Bigint, ends: bool, s: seq<nat>, ghost target: Out)
      returns (stop: bool, digits: seq<nat>, up: bool, c: Bigint, lo: Bigint, hi: Bigint)
    requires Ready(b, S, mlo, mhi) && Heads(b.Value(), S.Value(), mlo.Value(), mhi.Value(), ends, S.wds == 1, s, target)
    modifies b, b.x, mlo, mlo.x, mhi, mhi.x
    ensures lo.Valid() && (stop ==> Out(digits, up) == target)
    ensures !stop ==> Ready(c, S, lo, hi) && Heads(c.Value(), S.Value(), lo.Value(), hi.Value(), ends, S.wds == 1, digits, target)
    ensures !stop ==> old(mlo.Value()) < lo.Value() && old(mlo.Value()) < S.Value()
    ensures c == b || (fresh(c) && fresh(c.x))
    ensures (lo == mlo || lo == mhi || (fresh(lo) && fresh(lo.x))) && (hi == mhi || (fresh(hi) && fresh(hi.x)))
  {
    c, lo, hi, up := b, mlo, mhi, false;
    ghost var before, size, l, h := b.Value(), S.Value(), mlo.Value(), mhi.Value();
    var d, v := OneDigit(b, S, mlo, mhi, ends);
    OneRound(before, size, l, h, ends, S.wds == 1, s, target, d, b.Value(), v);
    stop := v != More;
    if v == High && d == 9 {
      digits, up := RoundUp(s + [9]);
    } else {
      digits := s + [if v == High then d + 1 else d];
    }
    if v == More {
      c, lo, hi := Advance(b, S, mlo, mhi);
    }
  }

  /** The loop in place: one digit after another into the buffer. */
  method RunLoop(b0: Bigint, S: Bigint, mlo0: Bigint, mhi0: Bigint, ends: bool, ghost target: Out) returns (digits: seq<nat>, up: bool)
    requires Ready(b0, S, mlo0, mhi0)
    requires Heads(b0.Value(), S.Value(), mlo0.Value(), mhi0.Value(), ends, S.wds == 1, [], target)
    modifies b0, b0.x, mlo0, mlo0.x, mhi0, mhi0.x
    ensures Out(digits, up) == target
  {
    var b, mlo, mhi := b0, mlo0, mhi0;
    var stop := false;
    digits, up := [], false;
    while !stop
      invariant b == b0 || (fresh(b) && fresh(b.x))
      invariant mlo == mlo0 || mlo == mhi0 || (fresh(mlo) && fresh(mlo.x))
      invariant mhi == mhi0 || (fresh(mhi) && fresh(mhi.x))
      invariant S.Valid() && S.Value() == old(S.Value()) && mlo.Valid()
      invariant stop ==> Out(digits, up) == target
      invariant !stop ==> Ready(b, S, mlo, mhi)
      invariant !stop ==> Heads(b.Value(), S.Value(), mlo.Value(), mhi.Value(), ends, S.wds == 1, digits, target)
      decreases !stop, if mlo.Value() < S.Value() then S.Value() - mlo.Value() else 0
    {
      stop, digits, up, b, mlo, mhi := Round(b, S, mlo, mhi, ends, digits, target);
    }
  }

  lemma Target(b: nat, S: nat, mlo: nat, mhi: nat, ends: bool, single: bool) returns (target: Out)
    requires S > 0 && mlo > 0 && mhi > 0 && b < 10 * S
    ensures target == Loop(b, S, mlo, mhi, ends, single, []) && Heads(b, S, mlo, mhi, ends, single, [], target)
    ensures IsShortest(target, b, S, mlo, mhi, ends)
  {
    LoopIsShortest(b, S, mlo, mhi, ends, single);
    target := Loop(b, S, mlo, mhi, ends, single, []);
  }

  /** The digits of dtoa in modes 0 and 1: the result is that of the loop on values,
      and so the shortest decimal in the interval. */
  method Digits(b: Bigint, S: Bigint, mlo: Bigint, mhi: Bigint, ends: bool) returns (digits: seq<nat>, up: bool)
    requires Ready(b, S, mlo, mhi)
    modifies b, b.x, mlo, mlo.x, mhi, mhi.x
    ensures Out(digits, up) == Loop(old(b.Value()), old(S.Value()), old(mlo.Value()), old(mhi.Value()), ends, S.wds == 1, [])
    ensures IsShortest(Out(digits, up), old(b.Value()), old(S.Value()), old(mlo.Value()), old(mhi.Value()), ends)
  {
    ghost var vb, vS, vl, vh, single := b.Value(), S.Value(), mlo.Value(), mhi.Value(), S.wds == 1;
    ghost var target := Target(vb, vS, vl, vh, ends, single);
    digits, up := RunLoop(b, S, mlo, mhi, ends, target);
  }
}
