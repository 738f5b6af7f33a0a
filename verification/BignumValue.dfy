/** Numbers as sequences of 32-bit words, least significant word first. */
module BignumValue {
  const BASE: int := 0x1_0000_0000

  type Word = x: int | 0 <= x < BASE

  function Pow(b: nat, e: nat): nat { if e == 0 then 1 else b * Pow(b, e - 1) }

  /** BASE to the power n. */
  function Place(n: nat): (p: nat)
    ensures p > 0
  {
    if n == 0 then 1 else Place(n - 1) * BASE
  }

  function Val(s: seq<Word>): nat {
    if s == [] then 0 else Val(s[..|s| - 1]) + s[|s| - 1] * Place(|s| - 1)
  }

  lemma ValSnoc(s: seq<Word>, i: nat)
    requires i < |s|
    ensures Val(s[..i + 1]) == Val(s[..i]) + s[i] * Place(i)
  {
    assert s[..i + 1][..i] == s[..i];
  }

  lemma {:induction false} ValBound(s: seq<Word>)
    ensures Val(s) < Place(|s|)
  {
    if s != [] {
      var n := |s| - 1;
      ValBound(s[..n]);
      assert s[n] * Place(n) <= (BASE - 1) * Place(n) by { MulMono(s[n], BASE - 1, Place(n)); }
    }
  }

  lemma MulMono(a: int, b: int, p: int)
    requires a <= b && p >= 0
    ensures a * p <= b * p
  {
  }

  lemma Assoc(a: int, b: int, c: int)
    ensures a * b * c == a * (b * c)
  {
  }

  /** A number is at least its top word at its place. */
  lemma ValTop(s: seq<Word>)
    requires s != []
    ensures s[|s| - 1] * Place(|s| - 1) <= Val(s) < (s[|s| - 1] + 1) * Place(|s| - 1)
  {
    ValBound(s[..|s| - 1]);
  }

  lemma {:induction false} PlaceMono(m: nat, n: nat)
    requires m <= n
    ensures Place(m) <= Place(n)
    decreases n
  {
    if m < n { PlaceMono(m, n - 1); }
  }

  lemma {:induction false} PlaceAdd(m: nat, n: nat)
    ensures Place(m + n) == Place(m) * Place(n)
    decreases n
  {
    if n > 0 {
      PlaceAdd(m, n - 1);
      assert Place(m) * (Place(n - 1) * BASE) == Place(m) * Place(n - 1) * BASE;
    }
  }

  lemma {:induction false} ValZeros(s: seq<Word>, n: nat)
    requires n <= |s| && forall i :: n <= i < |s| ==> s[i] == 0
    ensures Val(s) == Val(s[..n])
    decreases |s|
  {
    if n < |s| {
      ValZeros(s[..|s| - 1], n);
      assert s[..|s| - 1][..n] == s[..n];
    } else {
      assert s[..n] == s;
    }
  }

  lemma {:induction false} ValZero(s: seq<Word>)
    requires Val(s) == 0
    ensures forall i :: 0 <= i < |s| ==> s[i] == 0
  {
    if s != [] {
      var n := |s| - 1;
      ValZero(s[..n]);
      assert s[n] == 0 by { if s[n] >= 1 { MulMono(1, s[n], Place(n)); } }
      assert forall i :: 0 <= i < n ==> s[i] == s[..n][i];
    }
  }

  /** No leading zero words, except that zero may be one zero word. */
  predicate Trim(s: seq<Word>) { |s| <= 1 || s[|s| - 1] != 0 }

  predicate Normal(s: seq<Word>) { |s| >= 1 && Trim(s) }

  /** Longer means larger. */
  lemma LongerIsLarger(s: seq<Word>, t: seq<Word>)
    requires Trim(s) && |s| > |t| && |t| >= 1
    ensures Val(s) > Val(t)
  {
    ValTop(s);
    MulMono(1, s[|s| - 1], Place(|s| - 1));
    PlaceMono(|t|, |s| - 1);
    ValBound(t);
  }

  /** The highest word in which two numbers differ decides. */
  lemma {:induction false} TopDecides(s: seq<Word>, t: seq<Word>, i: nat)
    requires |s| == |t| && i < |s| && s[i] < t[i] && s[i + 1..] == t[i + 1..]
    ensures Val(s) < Val(t)
    decreases |s|
  {
    var n := |s| - 1;
    if i == n {
      ValTop(s);
      ValTop(t);
      MulMono(s[n] + 1, t[n], Place(n));
    } else {
      assert s[n] == s[i + 1..][n - i - 1] && t[n] == t[i + 1..][n - i - 1];
      assert s[..n][i + 1..] == s[i + 1..][..n - i - 1] && t[..n][i + 1..] == t[i + 1..][..n - i - 1];
      TopDecides(s[..n], t[..n], i);
    }
  }
}
