/** The digit loop of dtoa in modes 0 and 1, on values.

    The number is b / S with 0 <= b < 10 * S.  Decimals that lie between
    (b - mlo) / S and (b + mhi) / S read back as the same number; the end points do
    so only for an even mantissa in mode 0 (`ends`). */
module ShortestDigits {
  import opened BignumValue

  /** The digits, and whether the decimal exponent goes up by one. */
  datatype Out = Out(digits: seq<nat>, up: bool)

  /** Rounding the last digit up, with the carry into the digits before it. */
  function Roundoff(digits: seq<nat>): Out
    ensures var o := Roundoff(digits); o.up ==> o.digits == [1]
  {
    if digits == [] then Out([1], true)
    else
      var n := |digits| - 1;
      if digits[n] == 9 then Roundoff(digits[..n]) else Out(digits[..n] + [digits[n] + 1], false)
  }

  /** A comparison of the remainder r with S - mhi.  After an exact division by a
      one-word divisor the remainder has no words, and then counts as less than a
      difference of zero. */
  function Upper(r: int, S: int, mhi: int, bare: bool): int {
    if bare && r == 0 && S == mhi then -1 else r + mhi - S
  }

  /** What the loop does with the remainder r after the digit d. */
  datatype Verdict = Low | High | More

  function Judge(d: int, r: int, S: int, mlo: int, mhi: int, ends: bool, bare: bool): Verdict {
    var j, j1 := r - mlo, Upper(r, S, mhi, bare);
    if j1 == 0 && ends then (if d == 9 || j > 0 then High else Low)
    else if j < 0 || (j == 0 && ends) then
      if r == 0 then Low
      else if j1 > 0 && (2 * r > S || (2 * r == S && d % 2 == 1)) then High
      else Low
    else if j1 > 0 then High
    else More
  }

  /** The loop, after the digits in `done`. */
  function Loop(b: nat, S: nat, mlo: nat, mhi: nat, ends: bool, single: bool, done: seq<nat>): Out
    requires S > 0 && mlo > 0
    decreases if mlo < S then S - mlo else 0
  {
    var d, r := b / S, b % S;
    match Judge(d, r, S, mlo, mhi, ends, single && d > 0)
    case Low => Out(done + [d], false)
    case High => if d == 9 then Roundoff(done + [9]) else Out(done + [d + 1], false)
    case More => Loop(10 * r, S, 10 * mlo, 10 * mhi, ends, single, done + [d])
  }

  // -------------------------------------------------------------- what is promised

  function DigitsValue(s: seq<nat>): nat { if s == [] then 0 else 10 * DigitsValue(s[..|s| - 1]) + s[|s| - 1] }

  /** e / 10^p lies in the interval. */
  predicate Inside(b: int, S: int, mlo: int, mhi: int, ends: bool, p: nat, e: int) {
    var t := Pow(10, p);
    if ends then (b - mlo) * t <= e * S <= (b + mhi) * t else (b - mlo) * t < e * S < (b + mhi) * t
  }

  /** No decimal with fewer than p places lies in the interval. */
  ghost predicate NoShorter(b: int, S: int, mlo: int, mhi: int, ends: bool, p: nat) {
    forall q: nat, e: int :: q < p ==> !Inside(b, S, mlo, mhi, ends, q, e)
  }

  /** The result, as a number of places and a numerator. */
  predicate Gives(o: Out, p: nat, e: int) {
    if o.up then p == 0 && e == 10 else |o.digits| == p + 1 && e == DigitsValue(o.digits)
  }

  // -------------------------------------------------------------------- one digit

  /** Dividing out the first digit moves the interval. */
  lemma InsideStep(b: int, S: int, mlo: int, mhi: int, ends: bool, d: int, r: int, p: nat, e: int)
    requires b == d * S + r && p > 0
    ensures Inside(b, S, mlo, mhi, ends, p, e) <==>
            Inside(10 * r, S, 10 * mlo, 10 * mhi, ends, p - 1, e - d * Pow(10, p))
  {
    var t, u := Pow(10, p), Pow(10, p - 1);
    assert t == 10 * u;
    Shift(b, S, -mlo, d, r, t, u, e);
    Shift(b, S, mhi, d, r, t, u, e);
  }

  lemma Shift(b: int, S: int, m: int, d: int, r: int, t: int, u: int, e: int)
    requires b == d * S + r && t == 10 * u
    ensures (b + m) * t - e * S == (10 * r + 10 * m) * u - (e - d * t) * S
  {
    calc {
      (b + m) * t - e * S;
      (d * S + r + m) * t - e * S;
      { assert (d * S + r + m) * t == d * S * t + (r + m) * t; }
      d * S * t + (r + m) * t - e * S;
      { assert (r + m) * (10 * u) == (10 * r + 10 * m) * u; }
      d * S * t + (10 * r + 10 * m) * u - e * S;
      { assert (e - d * t) * S == e * S - d * t * S; assert d * t * S == d * S * t; }
      (10 * r + 10 * m) * u - (e - d * t) * S;
    }
  }

  /** Without places: which integers lie in the interval. */
  lemma InsideWhole(b: int, S: int, mlo: int, mhi: int, ends: bool, d: int, r: int, e: int)
    requires b == d * S + r && 0 <= r < S && mlo > 0 && mhi > 0
    ensures var k := e - d;
            Inside(b, S, mlo, mhi, ends, 0, e) <==>
            if ends then r - mlo <= k * S <= r + mhi else r - mlo < k * S < r + mhi
  {
    assert Pow(10, 0) == 1;
    assert e * S == d * S + (e - d) * S by { assert (d + (e - d)) * S == d * S + (e - d) * S; }
  }

  /** The verdict is right: the digit below or above lies in the interval, and when
      the loop goes on no integer does. */
  lemma JudgeRight(b: int, S: int, mlo: int, mhi: int, ends: bool, d: int, r: int, bare: bool, e: int)
    requires b == d * S + r && 0 <= r < S && mlo > 0 && mhi > 0
    ensures var v := Judge(d, r, S, mlo, mhi, ends, bare);
            && (v == Low ==> Inside(b, S, mlo, mhi, ends, 0, d))
            && (v == High ==> Inside(b, S, mlo, mhi, ends, 0, d + 1))
            && (v == More ==> !Inside(b, S, mlo, mhi, ends, 0, e))
  {
    InsideWhole(b, S, mlo, mhi, ends, d, r, d);
    InsideWhole(b, S, mlo, mhi, ends, d, r, d + 1);
    InsideWhole(b, S, mlo, mhi, ends, d, r, e);
    var v := Judge(d, r, S, mlo, mhi, ends, bare);
    if v == More {
      if e <= d { MulMono(e - d, 0, S); } else { MulMono(1, e - d, S); }
    }
  }

  // ---------------------------------------------------------------- the whole loop

  /** The upper end of the interval is not above ten: true of every digit but the
      first, because the loop went on. */
  predicate Fits(b: int, S: int, mhi: int, ends: bool) {
    if ends then b + mhi < 10 * S else b + mhi <= 10 * S
  }

  lemma DigitBound(b: nat, S: nat)
    requires S > 0 && b < 10 * S
    ensures var d, r := b / S, b % S; b == d * S + r && 0 <= r < S && d <= 9
  {
    var d := b / S;
    assert b == d * S + b % S;
    if d >= 10 { MulMono(10, d, S); }
  }

  /** Then the last digit never carries. */
  lemma NoCarry(b: int, S: int, mlo: int, mhi: int, ends: bool, d: int, r: int, bare: bool)
    requires b == d * S + r && 0 <= r < S && mlo > 0 && mhi > 0 && Fits(b, S, mhi, ends) && d <= 9
    ensures Judge(d, r, S, mlo, mhi, ends, bare) == High ==> d < 9
    ensures Judge(d, r, S, mlo, mhi, ends, bare) == More ==> Fits(10 * r, S, 10 * mhi, ends)
  {
  }

  lemma {:induction false} DigitsValueCons(d: nat, s: seq<nat>)
    ensures DigitsValue([d] + s) == d * Pow(10, |s|) + DigitsValue(s)
  {
    if s == [] {
      assert [d] + s == [d] && [d][..0] == [];
    } else {
      var n := |s| - 1;
      assert ([d] + s)[..n + 1] == [d] + s[..n];
      DigitsValueCons(d, s[..n]);
      assert 10 * (d * Pow(10, n)) == d * Pow(10, n + 1);
    }
  }

  lemma Single(d: nat)
    ensures DigitsValue([d]) == d
  {
    assert [d][..0] == [];
  }

  lemma TenTimes(v: int, t: int, u: int)
    requires v * t == u + 1
    ensures v * (10 * t) == 10 * u + 10
  {
    assert v * (10 * t) == 10 * (v * t);
  }

  /** Rounding up adds one in the last place: nines at the end are dropped, and if
      there is nothing else the sum is a power of ten. */
  lemma {:induction false} RoundoffValue(digits: seq<nat>)
    requires forall d :: d in digits ==> d <= 9
    ensures var o := Roundoff(digits);
            if o.up then DigitsValue(digits) + 1 == Pow(10, |digits|)
            else |o.digits| <= |digits| && DigitsValue(o.digits) * Pow(10, |digits| - |o.digits|) == DigitsValue(digits) + 1
    decreases |digits|
  {
    if digits != [] {
      var n := |digits| - 1;
      var o := Roundoff(digits);
      assert digits[n] in digits && forall d :: d in digits[..n] ==> d in digits;
      if digits[n] == 9 {
        RoundoffValue(digits[..n]);
        if !o.up { TenTimes(DigitsValue(o.digits), Pow(10, n - |o.digits|), DigitsValue(digits[..n])); }
      } else {
        assert o.digits[..n] == digits[..n];
        assert Pow(10, 0) == 1;
      }
    }
  }

  function Abs(x: int): nat { if x < 0 then -x else x }

  /** The distance of e / 10^p from the number, in units of 1 / (S * 10^p). */
  function Far(b: int, S: int, p: nat, e: int): nat { Abs(e * S - b * Pow(10, p)) }

  ghost predicate Closest(b: int, S: int, mlo: int, mhi: int, ends: bool, p: nat, e: int) {
    forall e' :: Inside(b, S, mlo, mhi, ends, p, e') ==> Far(b, S, p, e) <= Far(b, S, p, e')
  }

  /** Another decimal in the interval, with as many places, is just as near. */
  predicate Tied(b: int, S: int, mlo: int, mhi: int, ends: bool, p: nat, e: int, e': int) {
    e' != e && Inside(b, S, mlo, mhi, ends, p, e') && Far(b, S, p, e') == Far(b, S, p, e)
  }

  /** The upper end of the interval is half a unit in the last place away, and counts. */
  predicate HalfAway(S: int, mhi: int, ends: bool, p: nat) { ends && 2 * mhi * Pow(10, p) == S }

  function Floor(b: int, S: int, p: nat): int
    requires S > 0
  {
    b * Pow(10, p) / S
  }

  /** How a tie is decided: towards the even digit, except that the lower one is taken
      if the upper end of the interval is half a unit away, unless it is a first digit
      nine. */
  ghost predicate TieRule(b: int, S: int, mlo: int, mhi: int, ends: bool, p: nat, e: int, first: bool)
    requires S > 0
  {
    forall e' :: Tied(b, S, mlo, mhi, ends, p, e, e') ==>
      if HalfAway(S, mhi, ends, p) then e == Floor(b, S, p) + (if first && p == 0 && Floor(b, S, p) == 9 then 1 else 0)
      else e % 2 == 0
  }

  lemma FarStep(b: int, S: int, d: int, r: int, p: nat, e: int)
    requires b == d * S + r && p > 0
    ensures Far(b, S, p, e) == Far(10 * r, S, p - 1, e - d * Pow(10, p))
  {
    var t, u := Pow(10, p), Pow(10, p - 1);
    Shift(b, S, 0, d, r, t, u, e);
    assert b + 0 == b && 10 * r + 10 * 0 == 10 * r;
  }

  lemma FarWhole(b: int, S: int, d: int, r: int, e: int)
    requires b == d * S + r
    ensures Far(b, S, 0, e) == Abs((e - d) * S - r)
  {
    assert Pow(10, 0) == 1;
    assert (e - d) * S == e * S - d * S;
  }

  /** The first digit is 9, rounding it up lands exactly on the upper end, and the
      digit itself would be in the interval and nearer. */
  predicate Overshoots(b: int, S: int, mlo: int, mhi: int, ends: bool, single: bool)
    requires S > 0
  {
    var d, r := b / S, b % S;
    d == 9 && ends && r + mhi == S && !(single && r == 0) && r <= mlo && 2 * r < S
  }

  /** Of the two neighbours the nearer one in the interval is taken. */
  lemma JudgeNearest(b: int, S: int, mlo: int, mhi: int, ends: bool, d: int, r: int, bare: bool, e: int)
    requires b == d * S + r && 0 <= r < S && 0 < mlo <= mhi && Inside(b, S, mlo, mhi, ends, 0, e)
    ensures Judge(d, r, S, mlo, mhi, ends, bare) == Low ==> Far(b, S, 0, d) <= Far(b, S, 0, e)
    ensures Judge(d, r, S, mlo, mhi, ends, bare) == High ==>
              Far(b, S, 0, d + 1) <= Far(b, S, 0, e) || (d == 9 && Upper(r, S, mhi, bare) == 0 && ends && r <= mlo && 2 * r < S)
  {
    InsideWhole(b, S, mlo, mhi, ends, d, r, e);
    FarWhole(b, S, d, r, d);
    FarWhole(b, S, d, r, d + 1);
    FarWhole(b, S, d, r, e);
    hide Far, Inside;
    if e <= d { MulMono(e - d, 0, S); } else { MulMono(1, e - d, S); }
    if e == d { assert (e - d) * S == 0; }
    if e < d { MulMono(e - d, -1, S); }
  }

  lemma FloorWhole(b: int, S: int, d: int, r: int)
    requires b == d * S + r && 0 <= r < S
    ensures Floor(b, S, 0) == d
  {
    assert b * Pow(10, 0) == b;
    Quotient(b, S, d, r);
  }

  lemma Quotient(b: int, S: int, d: int, r: int)
    requires b == d * S + r && 0 <= r < S
    ensures b / S == d
  {
    var q := b / S;
    assert b == q * S + b % S;
    if q < d { MulMono(q + 1, d, S); }
    if q > d { MulMono(d + 1, q, S); }
  }

  /** Where a tie can be: between the two neighbours of a number in the middle, or
      around an integer whose upper neighbour was taken. */
  lemma TieWhere(b: int, S: int, mlo: int, mhi: int, ends: bool, d: int, r: int, e: int, e': int)
    requires b == d * S + r && 0 <= r < S && e in {d, d + 1} && Tied(b, S, mlo, mhi, ends, 0, e, e')
    ensures (2 * r == S && e' == 2 * d + 1 - e) || (r == 0 && e == d + 1 && e' == d - 1)
  {
    hide Inside;
    FarWhole(b, S, d, r, e);
    FarWhole(b, S, d, r, e');
    hide Far;
    SameDistance(S, r, e - d, e' - d);
  }

  lemma SameDistance(S: int, r: int, k: int, k': int)
    requires 0 <= r < S && k in {0, 1} && k' != k && Abs(k' * S - r) == Abs(k * S - r)
    ensures (2 * r == S && k' == 1 - k) || (r == 0 && k == 1 && k' == -1)
  {
    if k' >= 2 { MulMono(2, k', S); }
    if k' <= -2 { MulMono(k', -2, S); }
  }

  /** A tie is decided as it should be. */
  lemma JudgeTie(b: int, S: int, mlo: int, mhi: int, ends: bool, d: int, r: int, bare: bool, e: int, e': int)
    requires b == d * S + r && 0 <= r < S && 0 < mlo <= mhi && d <= 9
    requires var v := Judge(d, r, S, mlo, mhi, ends, bare); (v == Low && e == d) || (v == High && e == d + 1)
    requires Tied(b, S, mlo, mhi, ends, 0, e, e')
    ensures if HalfAway(S, mhi, ends, 0) then e == d + (if d == 9 then 1 else 0) else e % 2 == 0
  {
    TieWhere(b, S, mlo, mhi, ends, d, r, e, e');
    InsideWhole(b, S, mlo, mhi, ends, d, r, e');
    assert Pow(10, 0) == 1;
  }

  lemma LastTie(b: int, S: int, mlo: int, mhi: int, ends: bool, d: int, r: int, bare: bool, e: int, first: bool)
    requires b == d * S + r && 0 <= r < S && 0 < mlo <= mhi && d <= 9
    requires var v := Judge(d, r, S, mlo, mhi, ends, bare); (v == Low && e == d) || (v == High && e == d + 1)
    requires first || e <= 9
    ensures TieRule(b, S, mlo, mhi, ends, 0, e, first)
  {
    FloorWhole(b, S, d, r);
    hide Judge, Inside, Floor, Far;
    forall e' | Tied(b, S, mlo, mhi, ends, 0, e, e')
      ensures if HalfAway(S, mhi, ends, 0) then e == d + (if first && d == 9 then 1 else 0) else e % 2 == 0
    {
      JudgeTie(b, S, mlo, mhi, ends, d, r, bare, e, e');
    }
  }

  lemma TiedStep(b: int, S: int, mlo: int, mhi: int, ends: bool, d: int, r: int, p: nat, e: int, e': int)
    requires b == d * S + r && p > 0
    ensures Tied(b, S, mlo, mhi, ends, p, e, e') <==>
            Tied(10 * r, S, 10 * mlo, 10 * mhi, ends, p - 1, e - d * Pow(10, p), e' - d * Pow(10, p))
  {
    hide Inside, Far;
    InsideStep(b, S, mlo, mhi, ends, d, r, p, e');
    FarStep(b, S, d, r, p, e);
    FarStep(b, S, d, r, p, e');
  }

  lemma HalfStep(S: int, mhi: int, ends: bool, p: nat)
    requires p > 0
    ensures HalfAway(S, mhi, ends, p) <==> HalfAway(S, 10 * mhi, ends, p - 1)
  {
    var t, u := Pow(10, p), Pow(10, p - 1);
    assert t == 10 * u;
    assert (2 * (10 * mhi)) * u == 2 * mhi * t;
  }

  lemma EvenStep(d: int, p: nat) returns (h: int)
    requires p > 0
    ensures d * Pow(10, p) == 2 * h
  {
    var u := Pow(10, p - 1);
    h := 5 * (d * u);
    Tenfold(d, u);
  }

  lemma Tenfold(d: int, u: int)
    ensures d * (10 * u) == 2 * (5 * (d * u))
  {
  }

  /** The rule for the rest of the digits is the rule for all of them, if what has been
      divided out, y, is even. */
  lemma TieLift(b: int, S: int, mlo: int, mhi: int, ends: bool, p: nat, e: int, c: int, lo: int, hi: int, y: int, h: int)
    requires S > 0 && p > 0 && y == 2 * h && TieRule(c, S, lo, hi, ends, p - 1, e - y, false)
    requires Floor(b, S, p) == y + Floor(c, S, p - 1) && (HalfAway(S, mhi, ends, p) <==> HalfAway(S, hi, ends, p - 1))
    requires forall e' :: Tied(b, S, mlo, mhi, ends, p, e, e') ==> Tied(c, S, lo, hi, ends, p - 1, e - y, e' - y)
    ensures TieRule(b, S, mlo, mhi, ends, p, e, true) && TieRule(b, S, mlo, mhi, ends, p, e, false)
  {
    hide Tied, HalfAway, Floor;
    forall e' | Tied(b, S, mlo, mhi, ends, p, e, e')
      ensures if HalfAway(S, mhi, ends, p) then e == Floor(b, S, p) else e % 2 == 0
    {
      assert Tied(c, S, lo, hi, ends, p - 1, e - y, e' - y);
    }
  }

  lemma TieStep(b: int, S: int, mlo: int, mhi: int, ends: bool, d: int, r: int, p: nat, e: int)
    requires b == d * S + r && 0 <= r < S && p > 0
    requires TieRule(10 * r, S, 10 * mlo, 10 * mhi, ends, p - 1, e - d * Pow(10, p), false)
    ensures TieRule(b, S, mlo, mhi, ends, p, e, true) && TieRule(b, S, mlo, mhi, ends, p, e, false)
  {
    hide Tied, HalfAway, Floor, TieRule, Pow;
    FloorTens(b, S, d, r, p);
    HalfStep(S, mhi, ends, p);
    var h := EvenStep(d, p);
    forall e' ensures Tied(b, S, mlo, mhi, ends, p, e, e') ==>
                        Tied(10 * r, S, 10 * mlo, 10 * mhi, ends, p - 1, e - d * Pow(10, p), e' - d * Pow(10, p)) {
      TiedStep(b, S, mlo, mhi, ends, d, r, p, e, e');
    }
    TieLift(b, S, mlo, mhi, ends, p, e, 10 * r, 10 * mlo, 10 * mhi, d * Pow(10, p), h);
  }

  lemma FloorTens(b: int, S: int, d: int, r: int, p: nat)
    requires b == d * S + r && S > 0 && p > 0
    ensures Floor(b, S, p) == d * Pow(10, p) + Floor(10 * r, S, p - 1)
  {
    FloorStep(b, S, d, r, Pow(10, p), Pow(10, p - 1));
  }

  lemma FloorStep(b: int, S: int, d: int, r: int, t: int, u: int)
    requires b == d * S + r && S > 0 && t == 10 * u
    ensures b * t / S == d * t + 10 * r * u / S
  {
    var y := 10 * r * u;
    var q, m := y / S, y % S;
    assert b * t == (d * t) * S + y by { assert (d * S + r) * t == (d * t) * S + r * t; assert r * t == y; }
    assert b * t == (d * t + q) * S + m by { assert (d * t + q) * S == (d * t) * S + q * S; }
    Quotient(b * t, S, d * t + q, m);
  }

  /** What holds of the digits after d holds of all of them. */
  lemma DigitInFront(b: int, S: int, mlo: int, mhi: int, ends: bool, d: nat, r: int, bare: bool, rest: seq<nat>)
    requires b == d * S + r && 0 <= r < S && mlo > 0 && mhi > 0 && |rest| >= 1
    requires Judge(d, r, S, mlo, mhi, ends, bare) == More
    requires Inside(10 * r, S, 10 * mlo, 10 * mhi, ends, |rest| - 1, DigitsValue(rest))
    requires NoShorter(10 * r, S, 10 * mlo, 10 * mhi, ends, |rest| - 1)
    requires mlo <= mhi ==> Closest(10 * r, S, 10 * mlo, 10 * mhi, ends, |rest| - 1, DigitsValue(rest))
    requires mlo <= mhi ==> TieRule(10 * r, S, 10 * mlo, 10 * mhi, ends, |rest| - 1, DigitsValue(rest), false)
    ensures Inside(b, S, mlo, mhi, ends, |rest|, DigitsValue([d] + rest))
    ensures NoShorter(b, S, mlo, mhi, ends, |rest|)
    ensures mlo <= mhi ==> Closest(b, S, mlo, mhi, ends, |rest|, DigitsValue([d] + rest))
    ensures mlo <= mhi ==> TieRule(b, S, mlo, mhi, ends, |rest|, DigitsValue([d] + rest), true)
    ensures mlo <= mhi ==> TieRule(b, S, mlo, mhi, ends, |rest|, DigitsValue([d] + rest), false)
  {
    var p, e := |rest|, DigitsValue([d] + rest);
    DigitsValueCons(d, rest);
    InsideStep(b, S, mlo, mhi, ends, d, r, p, e);
    ShorterStep(b, S, mlo, mhi, ends, d, r, bare, p - 1);
    if mlo <= mhi {
      ClosestStep(b, S, mlo, mhi, ends, d, r, p, e);
      TieStep(b, S, mlo, mhi, ends, d, r, p, e);
    }
  }

  lemma NoneShorter(b: int, S: int, mlo: int, mhi: int, ends: bool)
    ensures NoShorter(b, S, mlo, mhi, ends, 0)
  {
  }

  /** All digits but the first: the loop ends, its digits stay below ten, the
      decimal is in the interval, none with fewer places is, and none with as many
      is nearer; a tie is decided by the rule. */
  lemma {:induction false} LoopRight(b: nat, S: nat, mlo: nat, mhi: nat, ends: bool, single: bool, done: seq<nat>)
      returns (ds: seq<nat>)
    requires S > 0 && mlo > 0 && mhi > 0 && b < 10 * S && Fits(b, S, mhi, ends)
    ensures Loop(b, S, mlo, mhi, ends, single, done) == Out(done + ds, false)
    ensures |ds| >= 1 && forall i :: 0 <= i < |ds| ==> ds[i] <= 9
    ensures Inside(b, S, mlo, mhi, ends, |ds| - 1, DigitsValue(ds))
    ensures NoShorter(b, S, mlo, mhi, ends, |ds| - 1)
    ensures mlo <= mhi ==> Closest(b, S, mlo, mhi, ends, |ds| - 1, DigitsValue(ds))
    ensures mlo <= mhi ==> TieRule(b, S, mlo, mhi, ends, |ds| - 1, DigitsValue(ds), false)
    decreases if mlo < S then S - mlo else 0
  {
    NoneShorter(b, S, mlo, mhi, ends);
    hide Inside, NoShorter, Closest, TieRule;
    DigitBound(b, S);
    var d, r := b / S, b % S;
    var bare := single && d > 0;
    NoCarry(b, S, mlo, mhi, ends, d, r, bare);
    JudgeRight(b, S, mlo, mhi, ends, d, r, bare, 0);
    match Judge(d, r, S, mlo, mhi, ends, bare)
    case Low => ds := [d]; Single(d); LastNearest(b, S, mlo, mhi, ends, d, r, bare);
    case High => ds := [d + 1]; Single(d + 1); LastNearest(b, S, mlo, mhi, ends, d, r, bare);
    case More =>
      var rest := LoopRight(10 * r, S, 10 * mlo, 10 * mhi, ends, single, done + [d]);
      ds := [d] + rest;
      assert done + [d] + rest == done + ds;
      DigitInFront(b, S, mlo, mhi, ends, d, r, bare, rest);
  }

  lemma LastNearest(b: int, S: int, mlo: int, mhi: int, ends: bool, d: int, r: int, bare: bool)
    requires b == d * S + r && 0 <= r < S && 0 < mlo && mhi > 0 && d <= 9
    requires Judge(d, r, S, mlo, mhi, ends, bare) == High ==> d < 9
    ensures var v := Judge(d, r, S, mlo, mhi, ends, bare);
            mlo <= mhi ==>
              (v == Low ==> Closest(b, S, mlo, mhi, ends, 0, d)) && (v == High ==> Closest(b, S, mlo, mhi, ends, 0, d + 1))
    ensures var v := Judge(d, r, S, mlo, mhi, ends, bare);
            mlo <= mhi ==>
              (v == Low ==> TieRule(b, S, mlo, mhi, ends, 0, d, false)) && (v == High ==> TieRule(b, S, mlo, mhi, ends, 0, d + 1, false))
  {
    hide TieRule;
    if mlo <= mhi {
      match Judge(d, r, S, mlo, mhi, ends, bare)
      case Low => LastTie(b, S, mlo, mhi, ends, d, r, bare, d, false);
      case High => LastTie(b, S, mlo, mhi, ends, d, r, bare, d + 1, false);
      case More =>
    }
    if mlo <= mhi {
      forall e | Inside(b, S, mlo, mhi, ends, 0, e)
        ensures Judge(d, r, S, mlo, mhi, ends, bare) == Low ==> Far(b, S, 0, d) <= Far(b, S, 0, e)
        ensures Judge(d, r, S, mlo, mhi, ends, bare) == High ==> Far(b, S, 0, d + 1) <= Far(b, S, 0, e)
      {
        JudgeNearest(b, S, mlo, mhi, ends, d, r, bare, e);
      }
    }
  }

  lemma ShorterStep(b: int, S: int, mlo: int, mhi: int, ends: bool, d: int, r: int, bare: bool, p: nat)
    requires b == d * S + r && 0 <= r < S && mlo > 0 && mhi > 0
    requires Judge(d, r, S, mlo, mhi, ends, bare) == More
    requires NoShorter(10 * r, S, 10 * mlo, 10 * mhi, ends, p)
    ensures NoShorter(b, S, mlo, mhi, ends, p + 1)
  {
    forall q: nat, e: int | q < p + 1 ensures !Inside(b, S, mlo, mhi, ends, q, e) {
      if q == 0 {
        JudgeRight(b, S, mlo, mhi, ends, d, r, bare, e);
      } else {
        InsideStep(b, S, mlo, mhi, ends, d, r, q, e);
      }
    }
  }

  lemma ClosestStep(b: int, S: int, mlo: int, mhi: int, ends: bool, d: int, r: int, p: nat, e: int)
    requires b == d * S + r && p > 0
    requires Closest(10 * r, S, 10 * mlo, 10 * mhi, ends, p - 1, e - d * Pow(10, p))
    ensures Closest(b, S, mlo, mhi, ends, p, e)
  {
    forall e' | Inside(b, S, mlo, mhi, ends, p, e') ensures Far(b, S, p, e) <= Far(b, S, p, e') {
      InsideStep(b, S, mlo, mhi, ends, d, r, p, e');
      FarStep(b, S, d, r, p, e);
      FarStep(b, S, d, r, p, e');
    }
  }

  // ---------------------------------------------------------------- main results

  /** The loop from the first digit on: it ends, its result lies in the interval
      whatever exit it takes, and no decimal with fewer places does. */
  lemma Shortest(b: nat, S: nat, mlo: nat, mhi: nat, ends: bool, single: bool) returns (p: nat, e: nat)
    requires S > 0 && mlo > 0 && mhi > 0 && b < 10 * S
    ensures Gives(Loop(b, S, mlo, mhi, ends, single, []), p, e)
    ensures Inside(b, S, mlo, mhi, ends, p, e) && NoShorter(b, S, mlo, mhi, ends, p)
    ensures Loop(b, S, mlo, mhi, ends, single, []).up ==> b / S == 9
    ensures mlo <= mhi ==> (Closest(b, S, mlo, mhi, ends, p, e) <==> !Overshoots(b, S, mlo, mhi, ends, single))
    ensures mlo <= mhi ==> TieRule(b, S, mlo, mhi, ends, p, e, true)
  {
    hide TieRule;
    DigitBound(b, S);
    var d, r := b / S, b % S;
    var bare := single && d > 0;
    OnlyHighOvershoots(b, S, mlo, mhi, ends, single);
    match Judge(d, r, S, mlo, mhi, ends, bare)
    case Low =>
      p, e := 0, d;
      if mlo <= mhi { LastTie(b, S, mlo, mhi, ends, d, r, bare, e, true); }
      LowFirst(b, S, mlo, mhi, ends, single);
    case High =>
      p, e := 0, d + 1;
      HighFirst(b, S, mlo, mhi, ends, single);
      if mlo <= mhi {
        FirstNearest(b, S, mlo, mhi, ends, single);
        LastTie(b, S, mlo, mhi, ends, d, r, bare, e, true);
      }
    case More =>
      p, e := MoreDigits(b, S, mlo, mhi, ends, single);
  }

  lemma OnlyHighOvershoots(b: nat, S: nat, mlo: nat, mhi: nat, ends: bool, single: bool)
    requires S > 0
    ensures Overshoots(b, S, mlo, mhi, ends, single) ==> Judge(b / S, b % S, S, mlo, mhi, ends, single && b / S > 0) == High
  {
  }

  lemma LowFirst(b: nat, S: nat, mlo: nat, mhi: nat, ends: bool, single: bool)
    requires S > 0 && mlo > 0 && mhi > 0 && b < 10 * S
    requires Judge(b / S, b % S, S, mlo, mhi, ends, single && b / S > 0) == Low
    ensures Loop(b, S, mlo, mhi, ends, single, []) == Out([b / S], false)
    ensures Gives(Out([b / S], false), 0, b / S) && Inside(b, S, mlo, mhi, ends, 0, b / S)
    ensures mlo <= mhi ==> Closest(b, S, mlo, mhi, ends, 0, b / S)
  {
    DigitBound(b, S);
    JudgeRight(b, S, mlo, mhi, ends, b / S, b % S, single && b / S > 0, 0);
    Single(b / S);
    LastNearest(b, S, mlo, mhi, ends, b / S, b % S, single && b / S > 0);
    assert [] + [b / S] == [b / S];
  }

  lemma HighFirst(b: nat, S: nat, mlo: nat, mhi: nat, ends: bool, single: bool)
    requires S > 0 && mlo > 0 && mhi > 0 && b < 10 * S
    requires Judge(b / S, b % S, S, mlo, mhi, ends, single && b / S > 0) == High
    ensures var o := Loop(b, S, mlo, mhi, ends, single, []); Gives(o, 0, b / S + 1) && (o.up ==> b / S == 9)
    ensures Inside(b, S, mlo, mhi, ends, 0, b / S + 1)
  {
    DigitBound(b, S);
    JudgeRight(b, S, mlo, mhi, ends, b / S, b % S, single && b / S > 0, 0);
    Single(b / S + 1);
    assert [] + [9] == [9] && [9][..0] == [] && [] + [b / S + 1] == [b / S + 1];
  }

  /** The output is a decimal in the interval, none with fewer places is, and a tie has
      been decided by the rule. */
  ghost predicate IsShortest(o: Out, b: int, S: int, mlo: int, mhi: int, ends: bool) {
    exists p: nat, e: int ::
      && Gives(o, p, e) && Inside(b, S, mlo, mhi, ends, p, e) && NoShorter(b, S, mlo, mhi, ends, p)
      && (S > 0 && mlo <= mhi ==> TieRule(b, S, mlo, mhi, ends, p, e, true))
  }

  lemma LoopIsShortest(b: nat, S: nat, mlo: nat, mhi: nat, ends: bool, single: bool)
    requires S > 0 && mlo > 0 && mhi > 0 && b < 10 * S
    ensures IsShortest(Loop(b, S, mlo, mhi, ends, single, []), b, S, mlo, mhi, ends)
  {
    hide Inside, NoShorter, TieRule, Gives;
    var p, e := Shortest(b, S, mlo, mhi, ends, single);
  }

  lemma MoreDigits(b: nat, S: nat, mlo: nat, mhi: nat, ends: bool, single: bool) returns (p: nat, e: nat)
    requires S > 0 && mlo > 0 && mhi > 0 && b < 10 * S
    requires Judge(b / S, b % S, S, mlo, mhi, ends, single && b / S > 0) == More
    ensures Gives(Loop(b, S, mlo, mhi, ends, single, []), p, e)
    ensures Inside(b, S, mlo, mhi, ends, p, e) && NoShorter(b, S, mlo, mhi, ends, p)
    ensures !Loop(b, S, mlo, mhi, ends, single, []).up
    ensures mlo <= mhi ==> Closest(b, S, mlo, mhi, ends, p, e) && TieRule(b, S, mlo, mhi, ends, p, e, true)
  {
    hide TieRule;
    DigitBound(b, S);
    var d, r := b / S, b % S;
    var bare := single && d > 0;
    assert [] + [d] == [d];
    var rest := LoopRight(10 * r, S, 10 * mlo, 10 * mhi, ends, single, [d]);
    p, e := |rest|, DigitsValue([d] + rest);
    DigitInFront(b, S, mlo, mhi, ends, d, r, bare, rest);
  }

  /** Rounding the first digit up is the nearest choice except when it overshoots. */
  lemma FirstNearest(b: nat, S: nat, mlo: nat, mhi: nat, ends: bool, single: bool)
    requires S > 0 && 0 < mlo <= mhi && b < 10 * S
    requires Judge(b / S, b % S, S, mlo, mhi, ends, single && b / S > 0) == High
    ensures Closest(b, S, mlo, mhi, ends, 0, b / S + 1) <==> !Overshoots(b, S, mlo, mhi, ends, single)
  {
    DigitBound(b, S);
    var d, r := b / S, b % S;
    var bare := single && d > 0;
    if Overshoots(b, S, mlo, mhi, ends, single) {
      InsideWhole(b, S, mlo, mhi, ends, d, r, d);
      FarWhole(b, S, d, r, d);
      FarWhole(b, S, d, r, d + 1);
      assert Inside(b, S, mlo, mhi, ends, 0, d) && Far(b, S, 0, d) < Far(b, S, 0, d + 1);
    } else {
      forall e | Inside(b, S, mlo, mhi, ends, 0, e) ensures Far(b, S, 0, d + 1) <= Far(b, S, 0, e) {
        JudgeNearest(b, S, mlo, mhi, ends, d, r, bare, e);
      }
    }
  }

  /** Among arbitrary integers the exception occurs: 9 + 1/S comes out as 10 although
      9 lies in the interval.  Numbers that come from a double are no such case. */
  lemma OvershootExample()
    ensures var S := 0x800_0000;
            var b, m := 9 * S + 1, S - 1;
            && Overshoots(b, S, m, m, true, true)
            && Loop(b, S, m, m, true, true, []) == Out([1], true)
            && !Closest(b, S, m, m, true, 0, 10)
  {
    var S := 0x800_0000;
    var b, m := 9 * S + 1, S - 1;
    assert b / S == 9 && b % S == 1;
    assert [] + [9] == [9] && [9][..0] == [];
    FirstNearest(b, S, m, m, true, true);
  }

  /** The exception to ties to even occurs: with half a unit as the margin, 7 and a half
      comes out as 7, although 8 is in the interval and as near.  Numbers that come from
      a double are no such case either. */
  lemma TieExample()
    ensures var S := 0x800_0000;
            var m := 0x400_0000;
            var b := 7 * S + m;
            Loop(b, S, m, m, true, true, []) == Out([7], false) && Tied(b, S, m, m, true, 0, 7, 8)
  {
    var S := 0x800_0000;
    var m := 0x400_0000;
    var b := 7 * S + m;
    Quotient(b, S, 7, m);
    assert b % S == m;
    assert [] + [7] == [7];
    InsideWhole(b, S, m, m, true, 7, m, 8);
    FarWhole(b, S, 7, m, 7);
    FarWhole(b, S, 7, m, 8);
  }
}
