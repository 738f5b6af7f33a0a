/** The two-level bitmap of a segment: bit i of the lower bitmap is set iff block i is
    in use; bit w of the upper one iff word w of the lower one is full.  Both end in
    sentinel bits that are always set. */
module Bitmap {
  import opened BitWord

  function Words(n: nat): nat { n / 32 + 1 }

  predicate At(s: seq<Word>, i: nat)
    requires i / 32 < |s|
  {
    s[i / 32][i % 32]
  }

  /** Room for n bits and at least one sentinel; the sentinels are set. */
  ghost predicate Fenced(s: seq<Word>, n: nat) {
    |s| == Words(n) && forall k :: n % 32 <= k < 32 ==> s[n / 32][k]
  }

  ghost predicate Summary(lower: seq<Word>, upper: seq<Word>) {
    Fenced(upper, |lower|) && forall w :: 0 <= w < |lower| ==> (At(upper, w) <==> lower[w] == Full())
  }

  ghost predicate Good(lower: seq<Word>, upper: seq<Word>, n: nat) { Fenced(lower, n) && Summary(lower, upper) }

  /** Block i is free. */
  predicate Free(lower: seq<Word>, n: nat, i: nat)
    requires |lower| == Words(n)
  {
    i < n && !At(lower, i)
  }

  /** The reference: index is the first free block from pos on. */
  ghost predicate FirstFree(lower: seq<Word>, n: nat, pos: nat, index: nat)
    requires |lower| == Words(n)
  {
    pos <= index && Free(lower, n, index) && forall i :: pos <= i < index ==> !Free(lower, n, i)
  }

  ghost predicate NoneFree(lower: seq<Word>, n: nat, pos: nat)
    requires |lower| == Words(n)
  {
    forall i :: pos <= i < n ==> !Free(lower, n, i)
  }

  // ------------------------------------------------------------------ one word

  /** The index of the set bit of a mask. */
  function Ctz(mask: Word, i: nat): nat
    requires i <= 32
    decreases 32 - i
  {
    if i == 32 || mask[i] then i else Ctz(mask, i + 1)
  }

  lemma {:induction false} CtzMask(j: nat, i: nat)
    requires i <= j < 32
    ensures Ctz(Mask(j), i) == j
    decreases j - i
  {
    if i < j { CtzMask(j, i + 1); }
  }

  lemma MaskNotZero(j: nat)
    requires j < 32
    ensures Mask(j) != Zero()
  {
    assert Mask(j)[j] && !Zero()[j];
  }

  /** BITPTR_NEXT0 on word w from bit i on, and BITPTR_MASKINDEX of the result. */
  method NextInWord(w: Word, i: nat) returns (ok: bool, j: nat)
    requires i < 32
    ensures ok <==> LeastZero(w, i) < 32
    ensures ok ==> j == LeastZero(w, i)
  {
    Next0Finds(w, i);
    if LeastZero(w, i) < 32 { MaskNotZero(LeastZero(w, i)); }
    var mask := Next0(w, Mask(i));
    ok := mask != Zero();
    j := 0;
    if ok {
      CtzMask(LeastZero(w, i), 0);
      j := Ctz(mask, 0);
    }
  }

  // ----------------------------------------------------- from words to positions

  lemma DivMod(w: nat, k: nat)
    requires k < 32
    ensures (32 * w + k) / 32 == w && (32 * w + k) % 32 == k
  {
  }

  /** A zero bit of the lower bitmap is never a sentinel. */
  lemma ZeroIsBlock(s: seq<Word>, n: nat, w: nat, k: nat)
    requires Fenced(s, n) && w < |s| && k < 32 && !s[w][k]
    ensures 32 * w + k < n && Free(s, n, 32 * w + k)
  {
    DivMod(w, k);
  }

  /** A full word has no free block. */
  lemma FullWord(s: seq<Word>, n: nat, i: nat)
    requires |s| == Words(n) && i / 32 < |s| && s[i / 32] == Full()
    ensures !Free(s, n, i)
  {
  }

  /** A zero bit of the upper bitmap names a word that is not full. */
  lemma UpperZero(lower: seq<Word>, upper: seq<Word>, w: nat)
    requires Summary(lower, upper) && w / 32 < |upper| && !At(upper, w)
    ensures w < |lower| && lower[w] != Full()
  {
  }

  lemma NotFullHasZero(w: Word)
    requires w != Full()
    ensures LeastZero(w, 0) < 32
  {
    assert (forall k :: 0 <= k < 32 ==> w[k]) ==> w == Full();
  }

  /** If the words from w0 to w are full, and the bits below k of word w too, then the
      zero bit k of word w is the first free block from a position in word w0 on. */
  lemma FirstFrom(s: seq<Word>, n: nat, pos: nat, w: nat, k: nat)
    requires Fenced(s, n) && pos <= n && pos / 32 <= w < |s| && k < 32 && !s[w][k]
    requires forall b :: (if w == pos / 32 then pos % 32 else 0) <= b < k ==> s[w][b]
    requires forall b :: pos % 32 <= b < 32 && w > pos / 32 ==> s[pos / 32][b]
    requires forall v :: pos / 32 < v < w ==> s[v] == Full()
    requires w == pos / 32 ==> pos % 32 <= k
    ensures FirstFree(s, n, pos, 32 * w + k)
  {
    ZeroIsBlock(s, n, w, k);
    forall i | pos <= i < 32 * w + k ensures !Free(s, n, i) {
      var v, b := i / 32, i % 32;
      assert pos / 32 <= v <= w;
      if v == w { assert s[w][b]; } else if v == pos / 32 { assert s[v][b]; } else { FullWord(s, n, i); }
    }
  }

  lemma NoneFrom(s: seq<Word>, n: nat, pos: nat)
    requires Fenced(s, n) && pos <= n
    requires forall b :: pos % 32 <= b < 32 ==> s[pos / 32][b]
    requires forall v :: pos / 32 < v < |s| ==> s[v] == Full()
    ensures NoneFree(s, n, pos)
  {
    forall i | pos <= i < n ensures !Free(s, n, i) {
      if i / 32 == pos / 32 { assert s[pos / 32][i % 32]; } else { FullWord(s, n, i); }
    }
  }

  /** bitptr_linear_search over the upper bitmap, from word v0 on. */
  method LinearSearch(upper: seq<Word>, v0: nat) returns (ok: bool, w: nat)
    requires v0 <= |upper|
    ensures ok ==> 32 * v0 <= w < 32 * |upper| && !At(upper, w)
    ensures ok ==> forall x :: 32 * v0 <= x < w ==> At(upper, x)
    ensures !ok ==> forall x :: 32 * v0 <= x < 32 * |upper| ==> At(upper, x)
  {
    var v := v0;
    w := 0;
    while v < |upper|
      invariant v0 <= v <= |upper|
      invariant forall x :: 32 * v0 <= x < 32 * v ==> At(upper, x)
    {
      var found, j := NextInWord(upper[v], 0);
      if found {
        DivMod(v, j);
        assert forall x :: 32 * v <= x < 32 * v + j ==> At(upper, x);
        return true, 32 * v + j;
      }
      assert forall x :: 32 * v <= x < 32 * (v + 1) ==> At(upper, x);
      v := v + 1;
    }
    ok := false;
  }

  /** The first zero bit of the upper bitmap from bit w0 on. */
  method UpperSearch(upper: seq<Word>, w0: nat) returns (ok: bool, w: nat)
    requires w0 / 32 < |upper|
    ensures ok ==> w0 <= w < 32 * |upper| && !At(upper, w)
    ensures ok ==> forall x :: w0 <= x < w ==> At(upper, x)
    ensures !ok ==> forall x :: w0 <= x < 32 * |upper| ==> At(upper, x)
  {
    var v := w0 / 32;
    var found, j := NextInWord(upper[v], w0 % 32);
    if found {
      DivMod(v, j);
      assert forall x :: w0 <= x < 32 * v + j ==> x / 32 == v && At(upper, x);
      return true, 32 * v + j;
    }
    assert forall x :: w0 <= x < 32 * (v + 1) ==> x / 32 == v && At(upper, x);
    ok, w := LinearSearch(upper, v + 1);
  }

  /** find_bitmap: the search refines the linear one, and never ends on a sentinel. */
  method FindBitmap(lower: seq<Word>, upper: seq<Word>, n: nat, pos: nat) returns (ok: bool, index: nat)
    requires Good(lower, upper, n) && pos <= n
    ensures ok ==> FirstFree(lower, n, pos, index)
    ensures !ok ==> NoneFree(lower, n, pos)
  {
    var w0 := pos / 32;
    var found, k := NextInWord(lower[w0], pos % 32);
    if found {
      FirstFrom(lower, n, pos, w0, k);
      return true, 32 * w0 + k;
    }
    var w;
    ok, w := UpperSearch(upper, w0 + 1);
    UpperMeans(lower, upper, w0 + 1, w, ok);
    index := 0;
    if !ok {
      NoneFrom(lower, n, pos);
      return;
    }
    NotFullHasZero(lower[w]);
    found, k := NextInWord(lower[w], 0);
    FirstFrom(lower, n, pos, w, k);
    index := 32 * w + k;
  }

  /** What the upper search says about the lower words. */
  lemma UpperMeans(lower: seq<Word>, upper: seq<Word>, w0: nat, w: nat, ok: bool)
    requires Summary(lower, upper) && w0 <= |lower|
    requires ok ==> w0 <= w < 32 * |upper| && !At(upper, w) && forall x :: w0 <= x < w ==> At(upper, x)
    requires !ok ==> forall x :: w0 <= x < 32 * |upper| ==> At(upper, x)
    ensures ok ==> w0 <= w < |lower| && lower[w] != Full() && forall v :: w0 <= v < w ==> lower[v] == Full()
    ensures !ok ==> forall v :: w0 <= v < |lower| ==> lower[v] == Full()
  {
    if ok {
      UpperZero(lower, upper, w);
      forall v | w0 <= v < w ensures lower[v] == Full() { assert At(upper, v); }
    } else {
      forall v | w0 <= v < |lower| ensures lower[v] == Full() { assert At(upper, v); }
    }
  }

  // --------------------------------------------------------- copy_collect_bitmap

  /** The sentinel of a bitmap of n bits: the bits of its last word from n % 32 on. */
  function Sentinel(n: nat): Word { seq(32, k => k >= n % 32) }

  /** The lower bitmap says what the collect bits said. */
  ghost predicate Copies(lower: seq<Word>, collect: seq<Word>, n: nat) {
    |lower| == |collect| == Words(n) && forall i :: 0 <= i < n ==> (At(lower, i) <==> At(collect, i))
  }

  method CopyLower(lower: array<Word>, collect: array<Word>, n: nat)
    requires lower != collect && lower.Length == collect.Length == Words(n)
    modifies lower
    ensures Fenced(lower[..], n) && Copies(lower[..], collect[..], n)
  {
    var w := 0;
    while w < lower.Length
      invariant w <= lower.Length && forall v :: 0 <= v < w ==> lower[v] == collect[v]
    {
      lower[w] := collect[w];
      w := w + 1;
    }
    var last := lower.Length - 1;
    lower[last] := Or(lower[last], Sentinel(n));
  }

  /** What has been summed up after 32 * u + k words. */
  ghost predicate Summed(lower: seq<Word>, upper: seq<Word>, u: nat, word: Word, k: nat) {
    && u <= |upper| && k < 32 && 32 * u + k <= |lower|
    && (forall w :: 0 <= w < 32 * u ==> (At(upper, w) <==> lower[w] == Full()))
    && (forall b :: 0 <= b < k ==> (word[b] <==> lower[32 * u + b] == Full()))
    && (forall b :: k <= b < 32 ==> !word[b])
  }

  method BuildUpper(lower: array<Word>, upper: array<Word>)
    requires lower != upper && upper.Length == Words(lower.Length)
    modifies upper
    ensures Summary(lower[..], upper[..])
  {
    var u: nat, k: nat, word: Word := 0, 0, Zero();
    while 32 * u + k < lower.Length
      invariant Summed(lower[..], upper[..], u, word, k)
      decreases lower.Length - (32 * u + k)
    {
      var next: Word := if lower[32 * u + k] == Full() then Or(word, Mask(k)) else word;
      if k + 1 == 32 {
        ghost var before := upper[..];
        upper[u] := next;
        Flush(lower[..], before, u, word, next, upper[..]);
        u, k, word := u + 1, 0, Zero();
      } else {
        AddBit(lower[..], upper[..], u, word, next, k);
        k, word := k + 1, next;
      }
    }
    ghost var before := upper[..];
    upper[u] := Or(word, Sentinel(lower.Length));
    Finish(lower[..], before, u, word, k, upper[..]);
  }

  lemma AddBit(lower: seq<Word>, upper: seq<Word>, u: nat, word: Word, next: Word, k: nat)
    requires Summed(lower, upper, u, word, k) && 32 * u + k < |lower| && k < 31
    requires next == if lower[32 * u + k] == Full() then Or(word, Mask(k)) else word
    ensures Summed(lower, upper, u, next, k + 1)
  {
  }

  lemma Flush(lower: seq<Word>, before: seq<Word>, u: nat, word: Word, next: Word, upper: seq<Word>)
    requires Summed(lower, before, u, word, 31) && 32 * u + 31 < |lower| && u < |before| && upper == before[u := next]
    requires next == if lower[32 * u + 31] == Full() then Or(word, Mask(31)) else word
    ensures Summed(lower, upper, u + 1, Zero(), 0)
  {
    forall w | 0 <= w < 32 * (u + 1) ensures At(upper, w) <==> lower[w] == Full() {
      if w < 32 * u {
        assert At(before, w) <==> lower[w] == Full();
      } else {
        DivMod(u, w - 32 * u);
      }
    }
  }

  lemma Finish(lower: seq<Word>, before: seq<Word>, u: nat, word: Word, k: nat, upper: seq<Word>)
    requires Summed(lower, before, u, word, k) && 32 * u + k == |lower| && |before| == Words(|lower|)
    requires u < |before| && upper == before[u := Or(word, Sentinel(|lower|))]
    ensures Summary(lower, upper)
  {
    DivMod(u, k);
    forall w | 0 <= w < |lower| ensures At(upper, w) <==> lower[w] == Full() {
      if w < 32 * u {
        assert At(before, w) <==> lower[w] == Full();
      } else {
        DivMod(u, w - 32 * u);
      }
    }
  }

  /** copy_collect_bitmap: both levels are rebuilt from the collect bits. */
  method CopyCollect(lower: array<Word>, upper: array<Word>, collect: array<Word>, n: nat)
    requires lower != collect && lower != upper && upper != collect
    requires lower.Length == collect.Length == Words(n) && upper.Length == Words(lower.Length)
    modifies lower, upper
    ensures Good(lower[..], upper[..], n) && Copies(lower[..], collect[..], n)
  {
    CopyLower(lower, collect, n);
    ghost var s := lower[..];
    BuildUpper(lower, upper);
    assert lower[..] == s;
  }

  // ------------------------------------------------------------------ allocation

  /** sml_alloc in one segment: the block under the pointer if it is free, otherwise
      the next free one.  The pointer is left behind the block handed out. */
  method AllocAt(lower: seq<Word>, upper: seq<Word>, n: nat, pos: nat) returns (ok: bool, index: nat, pos': nat)
    requires Good(lower, upper, n) && pos <= n
    ensures ok ==> FirstFree(lower, n, pos, index) && pos' == index + 1 <= n
    ensures !ok ==> NoneFree(lower, n, pos) && pos' == pos
  {
    if !lower[pos / 32][pos % 32] {
      ZeroIsBlock(lower, n, pos / 32, pos % 32);
      return true, pos, pos + 1;
    }
    ok, index := FindBitmap(lower, upper, n, pos);
    pos' := if ok then index + 1 else pos;
  }

  /** All free blocks from pos on, in increasing order. */
  function FreeList(lower: seq<Word>, n: nat, pos: nat): seq<nat>
    requires |lower| == Words(n) && pos <= n
    decreases n - pos
  {
    if pos == n then [] else (if Free(lower, n, pos) then [pos] else []) + FreeList(lower, n, pos + 1)
  }

  lemma {:induction false} FreeListFirst(lower: seq<Word>, n: nat, pos: nat, index: nat)
    requires |lower| == Words(n) && pos <= n && FirstFree(lower, n, pos, index)
    ensures FreeList(lower, n, pos) == [index] + FreeList(lower, n, index + 1)
    decreases n - pos
  {
    if pos < index {
      assert !Free(lower, n, pos);
      FreeListFirst(lower, n, pos + 1, index);
    }
  }

  lemma {:induction false} FreeListNone(lower: seq<Word>, n: nat, pos: nat)
    requires |lower| == Words(n) && pos <= n && NoneFree(lower, n, pos)
    ensures FreeList(lower, n, pos) == []
    decreases n - pos
  {
    if pos < n { FreeListNone(lower, n, pos + 1); }
  }

  /** Allocating until the segment is exhausted hands out every free block exactly
      once, in increasing order. */
  method AllocAll(lower: seq<Word>, upper: seq<Word>, n: nat) returns (blocks: seq<nat>)
    requires Good(lower, upper, n)
    ensures blocks == FreeList(lower, n, 0)
  {
    var pos: nat, ok := 0, true;
    blocks := [];
    ghost var rest := FreeList(lower, n, 0);
    while ok
      invariant pos <= n && rest == (if ok then FreeList(lower, n, pos) else [])
      invariant blocks + rest == FreeList(lower, n, 0)
      decreases ok, n - pos
    {
      var index, pos';
      ok, index, pos' := AllocAt(lower, upper, n, pos);
      if ok {
        FreeListFirst(lower, n, pos, index);
        Move(blocks, index, FreeList(lower, n, index + 1));
        blocks, rest := blocks + [index], FreeList(lower, n, index + 1);
      } else {
        FreeListNone(lower, n, pos);
      }
      pos := pos';
    }
  }

  lemma Move(a: seq<nat>, x: nat, b: seq<nat>)
    ensures a + ([x] + b) == (a + [x]) + b
  {
  }
}
