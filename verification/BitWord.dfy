/** 32-bit words of a bitmap, bit 0 first, and the bit tricks of the bit pointers. */
module BitWord {
  type Word = s: seq<bool> | |s| == 32 witness seq(32, _ => false)

  function Zero(): Word { seq(32, _ => false) }

  function Full(): Word { seq(32, _ => true) }

  /** The mask of bit i. */
  function Mask(i: nat): Word
    requires i < 32
  {
    seq(32, k => k == i)
  }

  function Or(a: Word, b: Word): Word { seq(32, k requires 0 <= k < 32 => a[k] || b[k]) }

  function And(a: Word, b: Word): Word { seq(32, k requires 0 <= k < 32 => a[k] && b[k]) }

  function Not(a: Word): Word { seq(32, k requires 0 <= k < 32 => !a[k]) }

  /** Addition and subtraction of one, with carry and borrow from bit to bit; what
      leaves the word is lost. */
  function PlusOne(s: seq<bool>): (r: seq<bool>)
    ensures |r| == |s|
  {
    if s == [] then [] else if s[0] then [false] + PlusOne(s[1..]) else [true] + s[1..]
  }

  function MinusOne(s: seq<bool>): (r: seq<bool>)
    ensures |r| == |s|
  {
    if s == [] then [] else if s[0] then [false] + s[1..] else [true] + MinusOne(s[1..])
  }

  /** BITPTR_NEXT0: tmp = word | (mask - 1); mask = (tmp + 1) & ~tmp. */
  function Next0(w: Word, mask: Word): Word {
    var t := Or(w, MinusOne(mask));
    And(PlusOne(t), Not(t))
  }

  /** The lowest zero bit from i on, or 32. */
  function LeastZero(w: Word, i: nat): (j: nat)
    requires i <= 32
    ensures i <= j <= 32 && (j < 32 ==> !w[j]) && (forall k :: i <= k < j ==> w[k])
    decreases 32 - i
  {
    if i == 32 || !w[i] then i else LeastZero(w, i + 1)
  }

  lemma {:induction false} PlusOneBit(s: seq<bool>, k: nat)
    requires k < |s|
    ensures PlusOne(s)[k] <==> if (forall j :: 0 <= j < k ==> s[j]) then !s[k] else s[k]
  {
    if k > 0 {
      if s[0] {
        PlusOneBit(s[1..], k - 1);
        assert (forall j :: 0 <= j < k ==> s[j]) <==> (forall j :: 0 <= j < k - 1 ==> s[1..][j]) by {
          if forall j :: 0 <= j < k - 1 ==> s[1..][j] {
            forall j | 0 < j < k ensures s[j] { assert s[1..][j - 1]; }
          }
        }
      }
    }
  }

  /** mask - 1 has the bits below the mask. */
  lemma {:induction false} MinusOneBit(s: seq<bool>, i: nat, k: nat)
    requires i < |s| && k < |s| && forall j :: 0 <= j < |s| ==> (s[j] <==> j == i)
    ensures MinusOne(s)[k] <==> k < i
  {
    if i > 0 && k > 0 {
      forall j | 0 <= j < |s| - 1 ensures s[1..][j] <==> j == i - 1 { assert s[j + 1] <==> j + 1 == i; }
      MinusOneBit(s[1..], i - 1, k - 1);
    }
  }

  /** The trick finds the lowest zero bit at or above the mask; the mask becomes zero
      when there is none. */
  lemma Next0Finds(w: Word, i: nat)
    requires i < 32
    ensures var j := LeastZero(w, i);
            Next0(w, Mask(i)) == if j == 32 then Zero() else Mask(j)
  {
    var j := LeastZero(w, i);
    var t := Or(w, MinusOne(Mask(i)));
    forall k | 0 <= k < 32 ensures Next0(w, Mask(i))[k] <==> k == j {
      forall l | 0 <= l < 32 ensures t[l] <==> w[l] || l < i { MinusOneBit(Mask(i), i, l); }
      PlusOneBit(t, k);
      if k == j { assert forall l :: 0 <= l < k ==> t[l]; }
      if k > j { assert !t[j]; }
    }
    if j == 32 { assert Next0(w, Mask(i)) == Zero(); } else { assert Next0(w, Mask(i)) == Mask(j); }
  }

  /** BITPTR_INC: mask = (mask << 1) | (mask >> 31), and the word index grows by
      mask >> 31. */
  function Rotate(mask: Word): Word { [mask[31]] + mask[..31] }

  lemma IncMoves(i: nat)
    requires i < 32
    ensures Rotate(Mask(i)) == Mask((i + 1) % 32) && (Mask(i)[31] <==> (i + 1) % 32 == 0)
  {
    forall k | 0 <= k < 32 ensures Rotate(Mask(i))[k] <==> k == (i + 1) % 32 { }
    assert Rotate(Mask(i)) == Mask((i + 1) % 32);
  }
}
