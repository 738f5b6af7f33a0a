/** Reclaiming the segments of a subheap after marking.

    A segment in `partial` has not been allocated from since it was last reclaimed;
    one in `filled` has been used up; the current one is being allocated from, up to
    the allocation pointer.  Blocks from the snapshot on that were free then hold
    objects that this collection does not judge. */
module Reclaim {
  import opened BitWord
  import opened Bitmap
  import opened FreeCount

  /** A segment: its identity, number of blocks, both bitmaps, the collect bits,
      allocptr_snapshot as a block index (n is BLOCK_LIMIT), and free_count. */
  datatype Segment = Segment(id: nat, n: nat, lower: seq<Word>, upper: seq<Word>, collect: seq<Word>,
                             snapshot: nat, free_count: nat)

  ghost predicate Valid(s: Segment) {
    s.n > 0 && Good(s.lower, s.upper, s.n) && |s.collect| == Words(s.n) && s.snapshot <= s.n
  }

  /** No collect bit is set. */
  ghost predicate Unmarked(s: Segment) {
    |s.collect| == Words(s.n) && forall i :: 0 <= i < s.n ==> !At(s.collect, i)
  }

  /** Block i may hold a live object: it is marked, or it is one of the blocks below
      `top` that were handed out after the snapshot. */
  ghost predicate Held(s: Segment, top: nat, i: nat)
    requires |s.collect| == |s.lower| == Words(s.n)
  {
    i < s.n && (At(s.collect, i) || (s.snapshot <= i < top && !At(s.lower, i)))
  }

  /** Nothing that may hold a live object is free afterwards, from block `from` on. */
  ghost predicate Spared(s: Segment, s': Segment, top: nat, from: nat)
    requires Valid(s) && Valid(s') && s'.n == s.n
  {
    forall i :: from <= i < s.n && Free(s'.lower, s'.n, i) ==> !Held(s, top, i)
  }

  /** A new segment: nothing in use, nothing marked. */
  method Fresh(id: nat, n: nat) returns (s: Segment)
    requires n > 0
    ensures Valid(s) && s.id == id && s.n == n && s.snapshot == 0 && s.free_count == n && Unmarked(s)
    ensures forall i :: 0 <= i < n ==> Free(s.lower, n, i)
  {
    var c := new Word[Words(n)](_ => Zero());
    var l := new Word[Words(n)](_ => Zero());
    var u := new Word[Words(Words(n))](_ => Zero());
    CopyCollect(l, u, c, n);
    s := Segment(id, n, l[..], u[..], c[..], 0, n);
  }

  /** copy_collect_bitmap */
  method Rebuild(s: Segment) returns (s': Segment)
    requires Valid(s)
    ensures s' == s.(lower := s'.lower, upper := s'.upper) && Valid(s') && Copies(s'.lower, s.collect, s.n)
  {
    var c := new Word[|s.collect|](i requires 0 <= i < |s.collect| => s.collect[i]);
    var l := new Word[|s.lower|](_ => Zero());
    var u := new Word[|s.upper|](_ => Zero());
    assert c[..] == s.collect;
    CopyCollect(l, u, c, s.n);
    s' := s.(lower := l[..], upper := u[..]);
  }

  /** clear_collect_bitmap */
  function Cleared(s: Segment): Segment { s.(collect := seq(|s.collect|, _ => Zero())) }

  ghost predicate AllMarked(s: Segment) {
    |s.collect| == Words(s.n) && forall i :: 0 <= i < s.n ==> At(s.collect, i)
  }

  /** After copying, the blocks are all free iff none is marked, and none is free iff
      all are marked. */
  lemma FreeIsUnmarked(s: Segment, lower: seq<Word>)
    requires Copies(lower, s.collect, s.n)
    ensures (forall i :: 0 <= i < s.n ==> Free(lower, s.n, i)) <==> Unmarked(s)
    ensures (forall i :: 0 <= i < s.n ==> !Free(lower, s.n, i)) <==> AllMarked(s)
  {
    assert forall i :: 0 <= i < s.n ==> (Free(lower, s.n, i) <==> !At(s.collect, i));
    if Unmarked(s) { assert forall i :: 0 <= i < s.n ==> Free(lower, s.n, i); }
    if AllMarked(s) { assert forall i :: 0 <= i < s.n ==> !Free(lower, s.n, i); }
    if forall i :: 0 <= i < s.n ==> Free(lower, s.n, i) {
      forall i | 0 <= i < s.n ensures !At(s.collect, i) { assert Free(lower, s.n, i); }
    }
    if forall i :: 0 <= i < s.n ==> !Free(lower, s.n, i) {
      forall i | 0 <= i < s.n ensures At(s.collect, i) { assert !Free(lower, s.n, i); }
    }
  }

  datatype Dest = ToPartial | ToFilled | ToFree

  /** What a partial segment becomes. */
  ghost predicate PartialDone(s: Segment, s': Segment, dest: Dest) {
    && Valid(s) && Valid(s') && s'.id == s.id && s'.n == s.n && s'.snapshot == 0 && Unmarked(s')
    && Spared(s, s', 0, 0) && s'.free_count == Count(s'.lower, 0, s'.n) && Copies(s'.lower, s.collect, s.n)
    && dest != ToFilled && (dest == ToFree <==> Unmarked(s))
  }

  /** What a filled segment becomes: it is used again iff no block of it was handed out
      after the snapshot and some block is not marked. */
  ghost predicate FilledDone(s: Segment, s': Segment, dest: Dest) {
    && Valid(s) && Valid(s') && s'.id == s.id && s'.n == s.n && Unmarked(s')
    && s'.free_count == Count(s'.lower, 0, s'.n) && Copies(s'.lower, s.collect, s.n)
    && s'.snapshot == (if dest == ToFilled then s.n else 0)
    && (dest == ToFilled <==> s.snapshot < s.n || AllMarked(s))
    && (dest == ToFree <==> s.snapshot == s.n && Unmarked(s))
    && (dest != ToFilled ==> Spared(s, s', s.n, 0))
    && (dest != ToFilled ==> exists i :: 0 <= i < s.n && Free(s'.lower, s.n, i))
  }

  method ReclaimPartial(s: Segment) returns (s': Segment, dest: Dest)
    requires Valid(s) && s.snapshot == 0
    ensures PartialDone(s, s', dest)
  {
    s' := Rebuild(s);
    var count := FreeBlocks(s'.lower, s.n);
    s' := s'.(free_count := count);
    FreeIsUnmarked(s, s'.lower);
    if count == s.n {
      dest := ToFree;
    } else {
      s' := Cleared(s');
      dest := ToPartial;
    }
  }

  method ReclaimFilled(s: Segment) returns (s': Segment, dest: Dest)
    requires Valid(s)
    ensures FilledDone(s, s', dest)
  {
    s' := Rebuild(s);
    var count := FreeBlocks(s'.lower, s.n);
    s' := s'.(free_count := count);
    FreeIsUnmarked(s, s'.lower);
    if s.snapshot < s.n || count == 0 {
      s' := Cleared(s').(snapshot := s.n);
      dest := ToFilled;
    } else if count == s.n {
      s' := s'.(snapshot := 0);
      dest := ToFree;
    } else {
      s' := Cleared(s').(snapshot := 0);
      dest := ToPartial;
    }
  }

  /** What the current segment becomes: allocation goes on behind the pointer. */
  ghost predicate CurrentDone(s: Segment, s': Segment, pos: nat) {
    && Valid(s) && Valid(s') && s'.id == s.id && s'.n == s.n && pos <= s.n && s'.snapshot == s.n && Unmarked(s')
    && Spared(s, s', pos, pos) && Copies(s'.lower, s.collect, s.n)
    && s'.free_count <= Count(s'.lower, pos, s.n) <= s'.free_count + 32
  }

  method ReclaimCurrent(s: Segment, pos: nat) returns (s': Segment)
    requires Valid(s) && pos <= s.n
    ensures CurrentDone(s, s', pos)
  {
    s' := Rebuild(s);
    s' := Cleared(s').(snapshot := s.n);
    var count := FreeBlocksAfter(s'.lower, s.n, pos);
    s' := s'.(free_count := count);
  }
}
