/** Counting free blocks word by word. */
module FreeCount {
  import opened BitWord
  import opened Bitmap

  /** Zero bits among the first k bits of a word: popcount(~word) for k = 32. */
  function Zeros(w: Word, k: nat): (c: nat)
    requires k <= 32
    ensures c <= k
  {
    if k == 0 then 0 else Zeros(w, k - 1) + if w[k - 1] then 0 else 1
  }

  /** Zero bits from position i up to position j. */
  function Count(s: seq<Word>, i: nat, j: nat): (c: nat)
    requires i <= j <= 32 * |s|
    ensures c <= j - i
    decreases j - i
  {
    if i == j then 0 else Count(s, i, j - 1) + if At(s, j - 1) then 0 else 1
  }

  lemma {:induction false} CountSplit(s: seq<Word>, i: nat, m: nat, j: nat)
    requires i <= m <= j <= 32 * |s|
    ensures Count(s, i, j) == Count(s, i, m) + Count(s, m, j)
    decreases j - m
  {
    if m < j { CountSplit(s, i, m, j - 1); }
  }

  /** One word. */
  lemma {:induction false} CountWord(s: seq<Word>, w: nat, k: nat)
    requires w < |s| && k <= 32
    ensures Count(s, 32 * w, 32 * w + k) == Zeros(s[w], k)
    decreases k
  {
    if k > 0 {
      CountWord(s, w, k - 1);
      DivMod(w, k - 1);
    }
  }

  /** All ones: nothing to count; all zeros: everything. */
  lemma {:induction false} CountAll(s: seq<Word>, i: nat, j: nat)
    requires i <= j <= 32 * |s|
    ensures Count(s, i, j) == 0 <==> forall k :: i <= k < j ==> At(s, k)
    ensures Count(s, i, j) == j - i <==> forall k :: i <= k < j ==> !At(s, k)
    decreases j - i
  {
    if i < j { CountAll(s, i, j - 1); }
  }

  /** Sentinels are not counted. */
  lemma CountFence(s: seq<Word>, n: nat, i: nat)
    requires Fenced(s, n) && i <= n
    ensures n <= 32 * |s| && Count(s, i, 32 * |s|) == Count(s, i, n)
  {
    CountSplit(s, i, n, 32 * |s|);
    CountAll(s, n, 32 * |s|);
    forall k | n <= k < 32 * |s| ensures At(s, k) {
      assert k / 32 == n / 32 && n % 32 <= k % 32;
    }
  }

  /** popcount(~w), summed over the words from w0 on. */
  method CountFrom(s: seq<Word>, w0: nat) returns (sum: nat)
    requires w0 <= |s|
    ensures sum == Count(s, 32 * w0, 32 * |s|)
  {
    var p: nat := w0;
    sum := 0;
    while p < |s|
      invariant w0 <= p <= |s| && sum == Count(s, 32 * w0, 32 * p)
    {
      CountWord(s, p, 32);
      CountSplit(s, 32 * w0, 32 * p, 32 * p + 32);
      sum := sum + Zeros(s[p], 32);
      p := p + 1;
    }
  }

  /** free_count without an allocation pointer is exact. */
  method FreeBlocks(s: seq<Word>, n: nat) returns (count: nat)
    requires Fenced(s, n)
    ensures count == Count(s, 0, n) <= n
    ensures count == n <==> forall i :: 0 <= i < n ==> Free(s, n, i)
    ensures count == 0 <==> forall i :: 0 <= i < n ==> !Free(s, n, i)
  {
    count := CountFrom(s, 0);
    CountFence(s, n, 0);
    CountAll(s, 0, n);
    assert forall i :: 0 <= i < n ==> (Free(s, n, i) <==> !At(s, i));
  }

  /** With an allocation pointer the word that the pointer is in is skipped.  The
      result is short by the free blocks in the rest of that word. */
  method FreeBlocksAfter(s: seq<Word>, n: nat, pos: nat) returns (count: nat)
    requires Fenced(s, n) && pos <= n
    ensures count <= Count(s, pos, n) <= count + (32 - pos % 32)
  {
    var w: nat := pos / 32 + 1;
    count := CountFrom(s, w);
    CountFence(s, n, pos);
    CountSplit(s, pos, 32 * w, 32 * |s|);
  }

  /** The result of free_count is short by 32, one more than the 31 that the source
      states, exactly if the pointer is at the start of a word of 32 free blocks. */
  lemma ShortBy32(s: seq<Word>, n: nat, pos: nat)
    requires Fenced(s, n) && pos <= n
    ensures pos / 32 + 1 <= |s|
    ensures Count(s, pos, n) - Count(s, 32 * (pos / 32 + 1), 32 * |s|) == 32 <==>
            pos % 32 == 0 && pos + 32 <= n && forall i :: pos <= i < pos + 32 ==> Free(s, n, i)
  {
    var end: nat := 32 * (pos / 32 + 1);
    CountFence(s, n, pos);
    CountSplit(s, pos, end, 32 * |s|);
    CountAll(s, pos, end);
    if pos % 32 == 0 {
      assert end == pos + 32;
      assert forall i :: pos <= i < pos + 32 && i < n ==> (Free(s, n, i) <==> !At(s, i));
      if n < end { SentinelSet(s, n); }
    }
  }

  lemma SentinelSet(s: seq<Word>, n: nat)
    requires Fenced(s, n)
    ensures n < 32 * |s| && At(s, n)
  {
  }

  /** Three words, the second one empty: a pointer to its start. */
  lemma ShortExample()
    ensures var s := [Full(), Zero(), Full()];
            Fenced(s, 64) && Count(s, 32, 64) - Count(s, 32 * (32 / 32 + 1), 32 * |s|) == 32
  {
    var s := [Full(), Zero(), Full()];
    assert Words(64) == 3 && Fenced(s, 64);
    forall i | 32 <= i < 64 ensures Free(s, 64, i) { assert i / 32 == 1; }
    ShortBy32(s, 64, 32);
  }
}
