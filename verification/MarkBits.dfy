/** Marking in the three-level bitmap of the bitmap heap: bit w of each upper level is
    set iff word w of the level below is full, whatever is marked in whatever order. */
module MarkBits {
  import opened BitWord
  import opened Bitmap
  import opened FreeCount

  /** All levels agree. */
  ghost predicate Levels(l0: seq<Word>, l1: seq<Word>, l2: seq<Word>, n: nat) {
    Fenced(l0, n) && Summary(l0, l1) && Summary(l1, l2)
  }

  /** live_count: the blocks that are marked. */
  ghost function Live(l0: seq<Word>, n: nat): nat
    requires Fenced(l0, n)
  {
    CountFence(l0, n, 0);
    n - Count(l0, 0, n)
  }

  function SetBit(s: seq<Word>, i: nat): (r: seq<Word>)
    requires i / 32 < |s|
    ensures |r| == |s|
  {
    s[i / 32 := Or(s[i / 32], Mask(i % 32))]
  }

  lemma SetBitAt(s: seq<Word>, i: nat, j: nat)
    requires i / 32 < |s| && j / 32 < |s|
    ensures At(SetBit(s, i), j) <==> j == i || At(s, j)
  {
    if j / 32 == i / 32 && j % 32 == i % 32 { assert j == i; }
  }

  lemma SetBitFenced(s: seq<Word>, n: nat, i: nat)
    requires Fenced(s, n) && i / 32 < |s|
    ensures Fenced(SetBit(s, i), n)
  {
  }

  /** A bit set below and, if that fills the word, the bit above. */
  lemma SetKeepsSummary(lower: seq<Word>, upper: seq<Word>, i: nat)
    requires Summary(lower, upper) && i / 32 < |lower|
    ensures var lower' := SetBit(lower, i);
            Summary(lower', if lower'[i / 32] == Full() then SetBit(upper, i / 32) else upper)
  {
    var lower' := SetBit(lower, i);
    var w := i / 32;
    SetBitFenced(upper, |lower|, w);
    forall v | 0 <= v < |lower| ensures At(SetBit(upper, w), v) <==> v == w || At(upper, v) { SetBitAt(upper, w, v); }
    assert lower[w] == Full() ==> Or(lower[w], Mask(i % 32)) == Full();
  }

  /** Setting a clear bit counts one more. */
  lemma {:induction false} CountSet(s: seq<Word>, i: nat, n: nat)
    requires i / 32 < |s| && n <= 32 * |s| && !At(s, i)
    ensures Count(SetBit(s, i), 0, n) == Count(s, 0, n) - if i < n then 1 else 0
    decreases n
  {
    if n > 0 {
      CountSet(s, i, n - 1);
      SetBitAt(s, i, n - 1);
    }
  }

  /** The levels after MARKBIT. */
  function Marked1(l0: seq<Word>, l1: seq<Word>, i: nat): seq<Word>
    requires i / 32 < |l0| && i / 32 / 32 < |l1|
  {
    if SetBit(l0, i)[i / 32] == Full() then SetBit(l1, i / 32) else l1
  }

  function Marked2(l0: seq<Word>, l1: seq<Word>, l2: seq<Word>, i: nat): seq<Word>
    requires i / 32 < |l0| && i / 32 / 32 < |l1| && i / 32 / 32 / 32 < |l2|
  {
    if SetBit(l0, i)[i / 32] == Full() && SetBit(l1, i / 32)[i / 32 / 32] == Full() then SetBit(l2, i / 32 / 32) else l2
  }

  lemma MarkKeepsLevels(l0: seq<Word>, l1: seq<Word>, l2: seq<Word>, n: nat, i: nat)
    requires Levels(l0, l1, l2, n) && i < n
    ensures i / 32 / 32 < |l1| && i / 32 / 32 / 32 < |l2|
    ensures Levels(SetBit(l0, i), Marked1(l0, l1, i), Marked2(l0, l1, l2, i), n)
  {
    SetBitFenced(l0, n, i);
    SetKeepsSummary(l0, l1, i);
    SetKeepsSummary(l1, l2, i / 32);
  }

  /** MARKBIT, in place. */
  method MarkBit(l0: array<Word>, l1: array<Word>, l2: array<Word>, n: nat, live: nat, i: nat) returns (live': nat)
    requires l0 != l1 && l0 != l2 && l1 != l2
    requires Levels(l0[..], l1[..], l2[..], n) && live == Live(l0[..], n) && i < n && !At(l0[..], i)
    modifies l0, l1, l2
    ensures Levels(l0[..], l1[..], l2[..], n) && live' == Live(l0[..], n) == live + 1
    ensures forall j :: 0 <= j < n ==> (At(l0[..], j) <==> j == i || old(At(l0[..], j)))
  {
    ghost var s0, s1, s2 := l0[..], l1[..], l2[..];
    MarkKeepsLevels(s0, s1, s2, n, i);
    CountFence(s0, n, 0);
    CountSet(s0, i, n);
    forall j | 0 <= j < n ensures At(SetBit(s0, i), j) <==> j == i || At(s0, j) { SetBitAt(s0, i, j); }
    live' := live + 1;
    var w := i / 32;
    l0[w] := Or(l0[w], Mask(i % 32));
    assert l0[..] == SetBit(s0, i);
    if l0[w] == Full() {
      var v := w / 32;
      l1[v] := Or(l1[v], Mask(w % 32));
      assert l1[..] == SetBit(s1, w);
      if l1[v] == Full() {
        l2[v / 32] := Or(l2[v / 32], Mask(v % 32));
        assert l2[..] == SetBit(s2, v);
      }
    }
    assert l1[..] == Marked1(s0, s1, i) && l2[..] == Marked2(s0, s1, s2, i);
  }

  /** A segment is full, empty or in between, as its live count says. */
  lemma LiveMeans(l0: seq<Word>, n: nat)
    requires Fenced(l0, n)
    ensures Live(l0, n) == n <==> forall i :: 0 <= i < n ==> At(l0, i)
    ensures Live(l0, n) == 0 <==> forall i :: 0 <= i < n ==> !At(l0, i)
  {
    CountFence(l0, n, 0);
    CountAll(l0, 0, n);
  }

  // -------------------------------------------------------------------- clearing

  /** The words of one level after clear_bitmap: all zero except that the bits of the
      last word from `bits` on are the sentinel. */
  function ClearLevel(words: nat, bits: nat): seq<Word>
    requires words > 0 && 32 * (words - 1) <= bits < 32 * words
  {
    seq(words - 1, _ => Zero()) + [Sentinel(bits)]
  }

  function Up(bits: nat): nat { (bits + 31) / 32 }

  /** The sentinel of every level fits in one word. */
  predicate SentinelFits(n: nat) {
    var w0 := Words(n);
    var w1 := Words(w0);
    32 * (w1 - 1) <= Up(n) && 32 * (Words(w1) - 1) <= Up(Up(n))
  }

  /** clear_bitmap puts all levels in agreement, with nothing marked, also when the last
      word of a level has only sentinel bits. */
  lemma ClearLevels(n: nat)
    requires n > 0 && SentinelFits(n)
    ensures var l0, l1, l2 := ClearLevel(Words(n), n), ClearLevel(Words(Words(n)), Up(n)), ClearLevel(Words(Words(Words(n))), Up(Up(n)));
            Levels(l0, l1, l2, n) && Live(l0, n) == 0 && forall i :: 0 <= i < n ==> !At(l0, i)
  {
    var w0 := Words(n);
    var w1 := Words(w0);
    ClearSummary(w0, n);
    ClearSummary(w1, Up(n));
    var l0 := ClearLevel(w0, n);
    LiveMeans(l0, n);
  }

  lemma ClearSummary(words: nat, bits: nat)
    requires words > 0 && 32 * (words - 1) <= bits < 32 * words && 32 * (Words(words) - 1) <= Up(bits)
    ensures bits > 0 ==> Up(bits) < 32 * Words(words) && Summary(ClearLevel(words, bits), ClearLevel(Words(words), Up(bits)))
  {
    if bits > 0 {
      var lower, upper := ClearLevel(words, bits), ClearLevel(Words(words), Up(bits));
      assert Up(bits) == if bits % 32 == 0 then words - 1 else words;
      assert Zero() != Full() by { assert Zero()[0] != Full()[0]; }
      forall w | 0 <= w < words ensures At(upper, w) <==> lower[w] == Full() {
        if w == words - 1 {
          LastWord(bits);
        }
      }
    }
  }

  lemma LastWord(bits: nat)
    ensures Sentinel(bits) == Full() <==> bits % 32 == 0
  {
    if bits % 32 == 0 { assert Sentinel(bits) == Full(); } else { assert !Sentinel(bits)[0] && Full()[0]; }
  }
}
