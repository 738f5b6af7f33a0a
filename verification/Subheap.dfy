/** A subheap of one allocator: where its segments are, and which blocks are in use.

    Segments are known by their number (their address); each is in exactly one of the
    lists `partial`, `filled` and `freelist`, or is the current one. */
module Subheap {
  import opened Phases
  import opened BitWord
  import opened Bitmap
  import opened FreeCount
  import opened Reclaim

  datatype Block = Block(seg: nat, index: nat)

  datatype Sub = Sub(
    segs: map<nat, Segment>,
    partial: seq<nat>, filled: seq<nat>, freelist: seq<nat>,
    current: Option<nat>,
    pos: nat,            // the allocation pointer, as a block index
    held: set<Block>,    // history: blocks handed out and not reclaimed since
    young: set<Block>,   // history: those handed out after the snapshot of this collection
    cut: bool)           // history: the snapshot of this collection has been taken

  /** The collection in progress may free block i: what visit tests. */
  predicate Target(s: Segment, i: nat)
    requires |s.lower| == Words(s.n) && i < s.n
  {
    At(s.lower, i) || i < s.snapshot
  }

  ghost predicate NoDup(l: seq<nat>) { forall i, j :: 0 <= i < j < |l| ==> l[i] != l[j] }

  /** Every segment is in exactly one place. */
  ghost predicate Lists(h: Sub) {
    && NoDup(h.partial) && NoDup(h.filled) && NoDup(h.freelist)
    && (forall k :: k in h.partial ==> k !in h.filled && k !in h.freelist && h.current != Some(k))
    && (forall k :: k in h.filled ==> k !in h.freelist && h.current != Some(k))
    && (forall k :: k in h.freelist ==> h.current != Some(k))
    && (forall k :: k in h.segs <==> k in h.partial || k in h.filled || k in h.freelist || h.current == Some(k))
  }

  /** Block b of segment s has not been handed out, as far as the bitmaps tell. */
  ghost predicate Stocked(s: Segment) { |s.lower| == Words(s.n) && s.snapshot == 0 && exists i :: 0 <= i < s.n && Free(s.lower, s.n, i) }

  /** What holds of segment k where it is. */
  ghost predicate SegOk(h: Sub, k: nat) {
    && k in h.segs && Valid(h.segs[k]) && h.segs[k].id == k
    && var s := h.segs[k];
    && (forall i :: 0 <= i < s.n && At(s.collect, i) ==> Block(k, i) in h.held)
    && (k in h.partial || k in h.freelist ==> Stocked(s))
    && (k in h.filled && !h.cut ==> s.snapshot == s.n)
    && (h.current == Some(k) ==> h.pos <= s.n && if h.cut then s.snapshot <= h.pos else s.snapshot == s.n)
  }

  /** What holds of block b, which is in use: it is not handed out again, and it is
      judged by this collection iff it was handed out before the snapshot. */
  ghost predicate BlockOk(h: Sub, b: Block) {
    && b.seg in h.segs && Valid(h.segs[b.seg]) && b.index < h.segs[b.seg].n
    && var s := h.segs[b.seg];
    && (b in h.young <==> !Target(s, b.index))
    && (b.seg in h.filled || (h.current == Some(b.seg) && b.index < h.pos) || !Free(s.lower, s.n, b.index))
  }

  ghost predicate Inv(h: Sub) {
    && Lists(h) && h.young <= h.held && (!h.cut ==> h.young == {})
    && (forall k {:trigger SegOk(h, k)} :: k in h.segs ==> SegOk(h, k))
    && (forall b {:trigger BlockOk(h, b)} :: b in h.held ==> BlockOk(h, b))
  }

  // ------------------------------------------------------------------ allocation

  /** There is a free block at or behind the allocation pointer. */
  ghost predicate FreeAhead(h: Sub) {
    && h.current.Some? && h.current.value in h.segs
    && var s := h.segs[h.current.value];
    |s.lower| == Words(s.n) && exists i :: h.pos <= i < s.n && Free(s.lower, s.n, i)
  }

  /** Block b is the first free one from the allocation pointer on. */
  ghost predicate FirstAhead(h: Sub, b: Block) {
    && h.current == Some(b.seg) && b.seg in h.segs
    && FirstIn(h.segs[b.seg], h.pos, b.index)
  }

  ghost predicate FirstIn(s: Segment, from: nat, index: nat) { |s.lower| == Words(s.n) && FirstFree(s.lower, s.n, from, index) }

  /** The block under or behind the allocation pointer, if there is a free one. */
  method AllocHere(h: Sub) returns (h': Sub, ok: bool, b: Block)
    requires Inv(h)
    ensures Inv(h')
    ensures ok <==> FreeAhead(h)
    ensures ok ==> FirstAhead(h, b) && h'.pos == b.index + 1
    ensures ok ==> b !in h.held && h' == h.(pos := h'.pos, held := h.held + {b}, young := if h.cut then h.young + {b} else h.young)
    ensures !ok ==> h' == h
  {
    h', b := h, Block(0, 0);
    if h.current.None? { return h, false, b; }
    assert SegOk(h, h.current.value);
    var s := h.segs[h.current.value];
    var index, pos;
    ok, index, pos := AllocAt(s.lower, s.upper, s.n, h.pos);
    if ok {
      b := Block(h.current.value, index);
      assert b in h.held ==> BlockOk(h, b);
      h' := h.(pos := pos, held := h.held + {b}, young := if h.cut then h.young + {b} else h.young);
      HandedOut(h, h', b);
    }
  }

  lemma HandedOut(h: Sub, h': Sub, b: Block)
    requires Inv(h) && h.current == Some(b.seg) && b.seg in h.segs && SegOk(h, b.seg) && b !in h.held
    requires h.pos <= b.index && Free(h.segs[b.seg].lower, h.segs[b.seg].n, b.index)
    requires h' == h.(pos := b.index + 1, held := h.held + {b}, young := if h.cut then h.young + {b} else h.young)
    ensures Inv(h')
  {
    forall k | k in h'.segs ensures SegOk(h', k) { assert SegOk(h, k); }
    forall c | c in h'.held ensures BlockOk(h', c) { if c != b { assert BlockOk(h, c); } }
  }

  /** release_alloc_ptr: the current segment is used up. */
  function Released(h: Sub): Sub
    requires h.current.Some?
  {
    h.(filled := [h.current.value] + h.filled, current := None, pos := 0)
  }

  lemma ReleasedInv(h: Sub)
    requires Inv(h) && h.current.Some?
    ensures Inv(Released(h))
  {
    var h' := Released(h);
    forall k | k in h'.segs ensures SegOk(h', k) { assert SegOk(h, k); }
    forall b | b in h'.held ensures BlockOk(h', b) { assert BlockOk(h, b); }
  }

  /** set_alloc_ptr: segment k, taken off its list, becomes the current one.  Before
      the snapshot all of it is declared a target. */
  function Installed(h: Sub, k: nat, phase: Phase): Sub
    requires k in h.segs
  {
    var s := h.segs[k];
    h.(current := Some(k), pos := 0,
       segs := h.segs[k := if BeforeSnapshot(phase) then s.(snapshot := s.n) else s])
  }

  lemma InstalledInv(h: Sub, h0: Sub, k: nat, phase: Phase)
    requires Inv(h) && h.current == None && k in h.segs && (k in h.partial || k in h.freelist)
    requires BeforeSnapshot(phase) <==> !h.cut
    requires h0 == h.(partial := h0.partial, freelist := h0.freelist)
    requires NoDup(h0.partial) && NoDup(h0.freelist)
    requires forall j :: j in h0.partial <==> j in h.partial && j != k
    requires forall j :: j in h0.freelist <==> j in h.freelist && j != k
    ensures Inv(Installed(h0, k, phase))
  {
    var h' := Installed(h0, k, phase);
    assert SegOk(h, k);
    forall j | j in h'.segs ensures SegOk(h', j) { assert SegOk(h, j); }
    forall b | b in h'.held ensures BlockOk(h', b) { assert BlockOk(h, b); }
  }

  lemma TailOk(l: seq<nat>)
    requires NoDup(l) && l != []
    ensures NoDup(l[1..]) && forall j :: j in l[1..] <==> j in l && j != l[0]
  {
    assert l == [l[0]] + l[1..];
    forall j | j in l[1..] ensures j != l[0] { var i :| 0 <= i < |l| - 1 && l[1..][i] == j; assert l[i + 1] == j; }
  }

  ghost predicate SameBlocks(s: Segment, s': Segment) { s'.n == s.n && s'.lower == s.lower }

  /** Only the snapshot of segment k may have changed, and it has a free block. */
  lemma InstalledAhead(h: Sub, h0: Sub, k: nat, phase: Phase)
    requires Inv(h) && k in h.segs && (k in h.partial || k in h.freelist) && h0.segs == h.segs
    ensures var h' := Installed(h0, k, phase);
            FreeAhead(h') && h'.segs.Keys == h.segs.Keys && forall j :: j in h.segs ==> SameBlocks(h.segs[j], h'.segs[j])
  {
    hide BlockOk, Lists;
    assert SegOk(h, k);
  }

  /** try_find_segment without the pool: the next partial segment, or an empty one if
      the subheap may grow. */
  method NextSegment(h: Sub, phase: Phase, room: bool) returns (h': Sub, ok: bool)
    requires Inv(h) && h.current == None && (BeforeSnapshot(phase) <==> !h.cut)
    ensures Inv(h') && h'.held == h.held && h'.young == h.young && h'.cut == h.cut
    ensures ok <==> h.partial != [] || (room && h.freelist != [])
    ensures ok ==> h'.current.Some? && h'.pos == 0 && h'.current.value in h'.segs && h'.filled == h.filled
    ensures ok ==> FreeAhead(h') && h'.current == Some(if h.partial != [] then h.partial[0] else h.freelist[0])
    ensures h'.segs.Keys == h.segs.Keys && forall k :: k in h.segs ==> SameBlocks(h.segs[k], h'.segs[k])
    ensures !ok ==> h' == h
  {
    hide SegOk, BlockOk, FreeAhead;
    if h.partial != [] {
      var k := h.partial[0];
      TailOk(h.partial);
      var h0 := h.(partial := h.partial[1..]);
      InstalledInv(h, h0, k, phase);
      InstalledAhead(h, h0, k, phase);
      return Installed(h0, k, phase), true;
    } else if room && h.freelist != [] {
      var k := h.freelist[0];
      TailOk(h.freelist);
      var h0 := h.(freelist := h.freelist[1..]);
      InstalledInv(h, h0, k, phase);
      InstalledAhead(h, h0, k, phase);
      return Installed(h0, k, phase), true;
    }
    return h, false;
  }

  /** Which block is next: the first free one from the allocation pointer on; if there
      is none, the first free one of the next partial segment, and of an empty segment
      only if there is no partial one and the subheap may grow. */
  ghost predicate NextBlock(h: Sub, room: bool, b: Block) {
    if FreeAhead(h) then FirstAhead(h, b)
    else if h.partial != [] then b.seg == h.partial[0] && b.seg in h.segs && FirstIn(h.segs[b.seg], 0, b.index)
    else room && h.freelist != [] && b.seg == h.freelist[0] && b.seg in h.segs && FirstIn(h.segs[b.seg], 0, b.index)
  }

  /** sml_alloc: the next block is handed out, which is not in use; the allocation fails
      only if there is no free block at hand. */
  method Alloc(h: Sub, phase: Phase, room: bool) returns (h': Sub, ok: bool, b: Block)
    requires Inv(h) && (BeforeSnapshot(phase) <==> !h.cut)
    ensures Inv(h') && h'.cut == h.cut
    ensures ok <==> FreeAhead(h) || h.partial != [] || (room && h.freelist != [])
    ensures ok ==> NextBlock(h, room, b) && h'.current == Some(b.seg) && h'.pos == b.index + 1
    ensures ok ==> b !in h.held && h'.held == h.held + {b} && h'.young == if h.cut then h.young + {b} else h.young
    ensures !ok ==> h'.held == h.held && h'.young == h.young
  {
    h', ok, b := AllocHere(h);
    if ok { return; }
    if h'.current.Some? {
      ReleasedInv(h');
      h' := Released(h');
    }
    h', ok := NextSegment(h', phase, room);
    if ok { h', ok, b := AllocHere(h'); }
  }

  // ------------------------------------------------------------- the collection

  /** save_alloc_ptr, in the SYNC2 action. */
  function Snapshot(h: Sub): Sub {
    if h.current.Some? && h.current.value in h.segs then
      h.(segs := h.segs[h.current.value := h.segs[h.current.value].(snapshot := h.pos)], cut := true)
    else h.(cut := true)
  }

  /** From now on exactly the blocks in use are targets. */
  lemma SnapshotInv(h: Sub)
    requires Inv(h) && !h.cut
    ensures Inv(Snapshot(h)) && Snapshot(h).held == h.held && Snapshot(h).young == {}
  {
    var h' := Snapshot(h);
    forall k | k in h'.segs ensures SegOk(h', k) { assert SegOk(h, k); }
    forall b | b in h'.held ensures BlockOk(h', b) {
      assert BlockOk(h, b);
      assert SegOk(h, b.seg);
    }
  }

  /** The collect bit of block b. */
  predicate Marked(h: Sub, b: Block)
    requires b.seg in h.segs && |h.segs[b.seg].collect| == Words(h.segs[b.seg].n) && b.index < h.segs[b.seg].n
  {
    At(h.segs[b.seg].collect, b.index)
  }

  /** The collect bit of block b is set. */
  function WithMark(h: Sub, b: Block): Sub
    requires b.seg in h.segs && |h.segs[b.seg].collect| == Words(h.segs[b.seg].n) && b.index < h.segs[b.seg].n
  {
    var s := h.segs[b.seg];
    var w := b.index / 32;
    h.(segs := h.segs[b.seg := s.(collect := s.collect[w := Or(s.collect[w], Mask(b.index % 32))])])
  }

  /** Exactly that bit changes. */
  lemma MarksOne(h: Sub, b: Block, c: Block)
    requires BlockOk(h, b) && BlockOk(h, c)
    ensures BlockOk(WithMark(h, b), c) && (Marked(WithMark(h, b), c) <==> c == b || Marked(h, c))
  {
    if c.seg == b.seg && c.index / 32 == b.index / 32 && c.index % 32 == b.index % 32 {
      assert c.index == b.index;
    }
  }

  lemma WithMarkInv(h: Sub, b: Block)
    requires Inv(h) && b in h.held && BlockOk(h, b)
    ensures Inv(WithMark(h, b))
  {
    var h' := WithMark(h, b);
    forall k | k in h'.segs ensures SegOk(h', k) {
      assert SegOk(h, k);
      forall i | 0 <= i < h'.segs[k].n && At(h'.segs[k].collect, i) ensures Block(k, i) in h'.held {
        if k == b.seg && i != b.index {
          assert i / 32 != b.index / 32 || i % 32 != b.index % 32;
          assert At(h.segs[k].collect, i);
        }
      }
    }
    forall c | c in h'.held ensures BlockOk(h', c) {
      assert BlockOk(h, c);
      MarksOne(h, b, c);
    }
  }

  /** visit: sets the collect bit of a target, and tells whether it was clear.  The
      targets are exactly the blocks handed out before the snapshot. */
  method Visit(h: Sub, b: Block) returns (h': Sub, first: bool)
    requires Inv(h) && b in h.held
    ensures Inv(h') && BlockOk(h, b)
    ensures first <==> b !in h.young && !Marked(h, b)
    ensures h' == if first then WithMark(h, b) else h
  {
    assert BlockOk(h, b);
    var s := h.segs[b.seg];
    first := Target(s, b.index) && !At(s.collect, b.index);
    h' := h;
    if first {
      WithMarkInv(h, b);
      h' := WithMark(h, b);
    }
  }

  /** What one reclaimed list becomes. */
  ghost predicate ReclaimedList(segs: map<nat, Segment>, segs': map<nat, Segment>, list: seq<nat>, dests: seq<Dest>, filled: bool) {
    && segs'.Keys == segs.Keys && |dests| == |list|
    && (forall k :: k in segs && k !in list ==> segs'[k] == segs[k])
    && (forall i :: 0 <= i < |list| ==> list[i] in segs && OneDone(segs[list[i]], segs'[list[i]], dests[i], filled))
  }

  ghost predicate OneDone(s: Segment, s': Segment, dest: Dest, filled: bool) {
    if filled then FilledDone(s, s', dest) else PartialDone(s, s', dest)
  }

  /** The list members sent to d, in order. */
  ghost function Pick(list: seq<nat>, dests: seq<Dest>, d: Dest): (r: seq<nat>)
    requires |list| == |dests|
    ensures forall k :: k in r <==> exists i :: 0 <= i < |list| && list[i] == k && dests[i] == d
  {
    if list == [] then []
    else
      var n := |list| - 1;
      var r := Pick(list[..n], dests[..n], d);
      assert forall i :: 0 <= i < n ==> list[..n][i] == list[i] && dests[..n][i] == dests[i];
      r + if dests[n] == d then [list[n]] else []
  }

  lemma {:induction false} PickNoDup(list: seq<nat>, dests: seq<Dest>, d: Dest)
    requires |list| == |dests| && NoDup(list)
    ensures NoDup(Pick(list, dests, d))
  {
    if list != [] {
      var n := |list| - 1;
      PickNoDup(list[..n], dests[..n], d);
      var r := Pick(list[..n], dests[..n], d);
      forall k | k in r ensures k != list[n] {
        var i :| 0 <= i < n && list[..n][i] == k && dests[..n][i] == d;
        assert list[i] == k;
      }
      assert forall i :: 0 <= i < |r| ==> r[i] in r;
    }
  }

  lemma PickSnoc(list: seq<nat>, dests: seq<Dest>, k: nat, dest: Dest, d: Dest)
    requires |list| == |dests|
    ensures Pick(list + [k], dests + [dest], d) == Pick(list, dests, d) + if dest == d then [k] else []
  {
    assert (list + [k])[..|list|] == list && (dests + [dest])[..|list|] == dests;
  }

  /** The three lists that the members of one list go to. */
  ghost predicate SortedOut(list: seq<nat>, dests: seq<Dest>, partial: seq<nat>, full: seq<nat>, free: seq<nat>) {
    && |list| == |dests|
    && partial == Pick(list, dests, ToPartial) && full == Pick(list, dests, ToFilled) && free == Pick(list, dests, ToFree)
  }

  function Append(list: seq<nat>, k: nat, here: bool): seq<nat> { if here then list + [k] else list }

  lemma SortOne(list: seq<nat>, dests: seq<Dest>, partial: seq<nat>, full: seq<nat>, free: seq<nat>, k: nat, dest: Dest)
    requires SortedOut(list, dests, partial, full, free)
    ensures SortedOut(list + [k], dests + [dest], Append(partial, k, dest == ToPartial), Append(full, k, dest == ToFilled),
                      Append(free, k, dest == ToFree))
  {
    PickSnoc(list, dests, k, dest, ToPartial);
    PickSnoc(list, dests, k, dest, ToFilled);
    PickSnoc(list, dests, k, dest, ToFree);
  }

  method ReclaimOne(s: Segment, filled: bool) returns (s': Segment, dest: Dest)
    requires Valid(s) && (!filled ==> s.snapshot == 0)
    ensures OneDone(s, s', dest, filled)
  {
    if filled { s', dest := ReclaimFilled(s); } else { s', dest := ReclaimPartial(s); }
  }

  /** The loop over one list of reclaim_subheap. */
  method ReclaimList(segs: map<nat, Segment>, list: seq<nat>, filled: bool)
      returns (segs': map<nat, Segment>, partial: seq<nat>, full: seq<nat>, free: seq<nat>, ghost dests: seq<Dest>)
    requires NoDup(list) && forall k :: k in list ==> k in segs && Valid(segs[k]) && (!filled ==> segs[k].snapshot == 0)
    ensures ReclaimedList(segs, segs', list, dests, filled) && SortedOut(list, dests, partial, full, free)
  {
    segs', partial, full, free, dests := segs, [], [], [], [];
    var i := 0;
    while i < |list|
      invariant i <= |list| && ReclaimedList(segs, segs', list[..i], dests, filled)
      invariant SortedOut(list[..i], dests, partial, full, free)
    {
      var k := list[i];
      assert k in list && k !in list[..i] && list[..i + 1] == list[..i] + [k];
      var s, dest := ReclaimOne(segs'[k], filled);
      SortOne(list[..i], dests, partial, full, free, k, dest);
      OneMore(segs, segs', list[..i], dests, filled, k, s, dest);
      partial, full, free := Append(partial, k, dest == ToPartial), Append(full, k, dest == ToFilled), Append(free, k, dest == ToFree);
      segs', dests := segs'[k := s], dests + [dest];
      i := i + 1;
    }
    assert list[..|list|] == list;
  }

  lemma OneMore(segs: map<nat, Segment>, segs': map<nat, Segment>, list: seq<nat>, dests: seq<Dest>, filled: bool, k: nat, s: Segment, dest: Dest)
    requires ReclaimedList(segs, segs', list, dests, filled) && k in segs && k !in list && OneDone(segs[k], s, dest, filled)
    ensures ReclaimedList(segs, segs'[k := s], list + [k], dests + [dest], filled)
  {
    var list', dests' := list + [k], dests + [dest];
    forall i | 0 <= i < |list'| ensures list'[i] in segs && OneDone(segs[list'[i]], segs'[k := s][list'[i]], dests'[i], filled) {
      if i < |list| { assert list[i] in list; }
    }
  }

  /** The segments after reclaim_subheap, place by place. */
  ghost predicate AfterReclaim(h: Sub, segs: map<nat, Segment>, d1: seq<Dest>, d2: seq<Dest>) {
    && segs.Keys == h.segs.Keys && |d1| == |h.partial| && |d2| == |h.filled|
    && (forall i :: 0 <= i < |d1| ==> h.partial[i] in segs && PartialDone(h.segs[h.partial[i]], segs[h.partial[i]], d1[i]))
    && (forall i :: 0 <= i < |d2| ==> h.filled[i] in segs && FilledDone(h.segs[h.filled[i]], segs[h.filled[i]], d2[i]))
    && (forall k :: k in h.freelist ==> k in segs && segs[k] == h.segs[k])
    && (h.current.Some? ==> h.current.value in segs && CurrentDone(h.segs[h.current.value], segs[h.current.value], h.pos))
  }

  /** The blocks that stay in use: the marked ones and the young ones. */
  ghost function Survivors(h: Sub): set<Block> {
    set b | b in h.held && (b in h.young || (BlockOk(h, b) && Marked(h, b)))
  }

  /** The subheap after reclaim_subheap. */
  ghost function Reclaimed(h: Sub, segs: map<nat, Segment>, d1: seq<Dest>, d2: seq<Dest>): Sub
    requires |d1| == |h.partial| && |d2| == |h.filled|
  {
    h.(segs := segs,
       partial := Pick(h.partial, d1, ToPartial) + Pick(h.filled, d2, ToPartial),
       filled := Pick(h.filled, d2, ToFilled),
       freelist := h.freelist + Pick(h.partial, d1, ToFree) + Pick(h.filled, d2, ToFree),
       held := Survivors(h), young := {}, cut := false)
  }

  lemma NoDupConcat(a: seq<nat>, b: seq<nat>)
    requires NoDup(a) && NoDup(b) && forall k :: k in a ==> k !in b
    ensures NoDup(a + b)
  {
    var c := a + b;
    forall i, j | 0 <= i < j < |c| ensures c[i] != c[j] {
      if i < |a| <= j { assert c[i] in a && c[j] in b; }
    }
  }

  /** An item of a list without repetitions goes to one place only. */
  lemma OnePlace(list: seq<nat>, dests: seq<Dest>, d: Dest, d': Dest, k: nat)
    requires |list| == |dests| && NoDup(list) && k in Pick(list, dests, d) && d != d'
    ensures k !in Pick(list, dests, d') && k in list
  {
    var i :| 0 <= i < |list| && list[i] == k && dests[i] == d;
  }

  /** A list without repetitions, cut into three. */
  ghost predicate Three(list: seq<nat>, a: seq<nat>, b: seq<nat>, c: seq<nat>) {
    && NoDup(a) && NoDup(b) && NoDup(c)
    && (forall k :: k in list <==> k in a || k in b || k in c)
    && (forall k :: k in a ==> k !in b && k !in c) && (forall k :: k in b ==> k !in c)
  }

  lemma PickThree(list: seq<nat>, dests: seq<Dest>)
    requires |list| == |dests| && NoDup(list)
    ensures Three(list, Pick(list, dests, ToPartial), Pick(list, dests, ToFilled), Pick(list, dests, ToFree))
  {
    var a, b, c := Pick(list, dests, ToPartial), Pick(list, dests, ToFilled), Pick(list, dests, ToFree);
    PickNoDup(list, dests, ToPartial);
    PickNoDup(list, dests, ToFilled);
    PickNoDup(list, dests, ToFree);
    forall k | k in list ensures k in a || k in b || k in c {
      var i :| 0 <= i < |list| && list[i] == k;
    }
    forall k | k in a ensures k in list && k !in b && k !in c {
      OnePlace(list, dests, ToPartial, ToFilled, k);
      OnePlace(list, dests, ToPartial, ToFree, k);
    }
    forall k | k in b ensures k in list && k !in c { OnePlace(list, dests, ToFilled, ToFree, k); }
  }

  lemma NewLists(h: Sub, segs: map<nat, Segment>, p1: seq<nat>, f1: seq<nat>, e1: seq<nat>, p2: seq<nat>, f2: seq<nat>, e2: seq<nat>)
    requires Lists(h) && segs.Keys == h.segs.Keys && Three(h.partial, p1, f1, e1) && Three(h.filled, p2, f2, e2) && f1 == []
    ensures Lists(h.(segs := segs, partial := p1 + p2, filled := f2, freelist := h.freelist + e1 + e2,
                     held := Survivors(h), young := {}, cut := false))
  {
    NoDupConcat(p1, p2);
    NoDupConcat(h.freelist, e1);
    NoDupConcat(h.freelist + e1, e2);
  }

  /** Every segment is in exactly one place again. */
  lemma ReclaimedLists(h: Sub, segs: map<nat, Segment>, d1: seq<Dest>, d2: seq<Dest>)
    requires Lists(h) && AfterReclaim(h, segs, d1, d2)
    ensures Lists(Reclaimed(h, segs, d1, d2))
  {
    PickThree(h.partial, d1);
    PickThree(h.filled, d2);
    NoneFilled(h, segs, d1, d2);
    NewLists(h, segs, Pick(h.partial, d1, ToPartial), [], Pick(h.partial, d1, ToFree),
             Pick(h.filled, d2, ToPartial), Pick(h.filled, d2, ToFilled), Pick(h.filled, d2, ToFree));
  }

  lemma NoneFilled(h: Sub, segs: map<nat, Segment>, d1: seq<Dest>, d2: seq<Dest>)
    requires AfterReclaim(h, segs, d1, d2)
    ensures Pick(h.partial, d1, ToFilled) == []
  {
    assert forall i :: 0 <= i < |d1| ==> PartialDone(h.segs[h.partial[i]], segs[h.partial[i]], d1[i]);
    PickNone(h.partial, d1, ToFilled);
  }

  lemma {:induction false} PickNone(list: seq<nat>, dests: seq<Dest>, d: Dest)
    requires |list| == |dests| && forall i :: 0 <= i < |dests| ==> dests[i] != d
    ensures Pick(list, dests, d) == []
  {
    if list != [] { PickNone(list[..|list| - 1], dests[..|list| - 1], d); }
  }

  /** A segment in the lists after reclaiming, and where it came from. */
  lemma FromPartial(h: Sub, segs: map<nat, Segment>, d1: seq<Dest>, d2: seq<Dest>, k: nat)
    requires AfterReclaim(h, segs, d1, d2) && k in h.partial
    ensures k in segs && k in h.segs
    ensures exists d :: PartialDone(h.segs[k], segs[k], d)
  {
    var i :| 0 <= i < |h.partial| && h.partial[i] == k;
    assert PartialDone(h.segs[k], segs[k], d1[i]);
  }

  lemma FromFilled(h: Sub, segs: map<nat, Segment>, d1: seq<Dest>, d2: seq<Dest>, k: nat) returns (d: Dest)
    requires AfterReclaim(h, segs, d1, d2) && NoDup(h.filled) && k in h.filled
    ensures k in segs && k in h.segs && FilledDone(h.segs[k], segs[k], d)
    ensures d == ToFilled <==> k in Pick(h.filled, d2, ToFilled)
  {
    var i :| 0 <= i < |h.filled| && h.filled[i] == k;
    d := d2[i];
  }

  /** A free block of a partial segment stays free: nothing in it can have been marked. */
  lemma StaysStocked(h: Sub, segs: map<nat, Segment>, k: nat, d: Dest)
    requires Inv(h) && k in h.segs && k in h.partial && k in segs && PartialDone(h.segs[k], segs[k], d)
    ensures Stocked(segs[k])
  {
    assert SegOk(h, k);
    var s, s' := h.segs[k], segs[k];
    var i :| 0 <= i < s.n && Free(s.lower, s.n, i);
    assert Block(k, i) in h.held ==> BlockOk(h, Block(k, i));
    assert !At(s.collect, i);
    assert Free(s'.lower, s'.n, i);
  }

  /** What SegOk comes to after reclaiming, when the snapshots are gone. */
  ghost predicate Settled(h: Sub, s': Segment, k: nat, reusable: bool, isFilled: bool, held: set<Block>) {
    && Valid(s') && s'.id == k
    && (forall i :: 0 <= i < s'.n && At(s'.collect, i) ==> Block(k, i) in held)
    && (reusable ==> Stocked(s')) && (isFilled ==> s'.snapshot == s'.n)
    && (h.current == Some(k) ==> h.pos <= s'.n && s'.snapshot == s'.n)
  }

  lemma SettledPartial(h: Sub, segs: map<nat, Segment>, d: Dest, k: nat)
    requires Inv(h) && k in h.partial && k in h.segs && k in segs && PartialDone(h.segs[k], segs[k], d)
    ensures Settled(h, segs[k], k, true, false, Survivors(h))
  {
    assert SegOk(h, k);
    StaysStocked(h, segs, k, d);
  }

  lemma SettledFilled(h: Sub, s': Segment, d: Dest, k: nat)
    requires Inv(h) && k in h.filled && k in h.segs && FilledDone(h.segs[k], s', d)
    ensures Settled(h, s', k, d != ToFilled, d == ToFilled, Survivors(h))
  {
    assert SegOk(h, k);
  }

  lemma SettledFree(h: Sub, k: nat)
    requires Inv(h) && k in h.freelist && k in h.segs
    ensures Settled(h, h.segs[k], k, true, false, Survivors(h))
  {
    assert SegOk(h, k);
    var s := h.segs[k];
    forall i | 0 <= i < s.n && At(s.collect, i) ensures Block(k, i) in Survivors(h) {
      assert BlockOk(h, Block(k, i));
    }
  }

  lemma SettledCurrent(h: Sub, s': Segment, k: nat)
    requires Inv(h) && h.current == Some(k) && k in h.segs && CurrentDone(h.segs[k], s', h.pos)
    ensures Settled(h, s', k, false, false, Survivors(h))
  {
    assert SegOk(h, k);
  }

  lemma ReclaimedSeg(h: Sub, segs: map<nat, Segment>, d1: seq<Dest>, d2: seq<Dest>, k: nat)
    requires Inv(h) && h.cut && AfterReclaim(h, segs, d1, d2) && k in segs
    ensures SegOk(Reclaimed(h, segs, d1, d2), k)
  {
    if k in h.partial {
      FromPartial(h, segs, d1, d2, k);
      var d :| PartialDone(h.segs[k], segs[k], d);
      SettledPartial(h, segs, d, k);
      assert k !in Pick(h.filled, d2, ToFilled);
    } else if k in h.filled {
      var d := FromFilled(h, segs, d1, d2, k);
      SettledFilled(h, segs[k], d, k);
      assert h.current != Some(k);
      if d == ToFilled { OnlyFilled(h, d1, d2, k); }
    } else if k in h.freelist {
      SettledFree(h, k);
      assert k !in Pick(h.filled, d2, ToFilled);
    } else {
      SettledCurrent(h, segs[k], k);
      assert k !in Pick(h.filled, d2, ToFilled) && k !in Pick(h.filled, d2, ToPartial) && k !in Pick(h.filled, d2, ToFree);
      assert k !in Pick(h.partial, d1, ToPartial) && k !in Pick(h.partial, d1, ToFree);
    }
  }

  lemma OnlyFilled(h: Sub, d1: seq<Dest>, d2: seq<Dest>, k: nat)
    requires Lists(h) && |d1| == |h.partial| && |d2| == |h.filled| && k in Pick(h.filled, d2, ToFilled)
    ensures k !in Pick(h.partial, d1, ToPartial) && k !in Pick(h.partial, d1, ToFree) && k !in h.freelist
    ensures k !in Pick(h.filled, d2, ToPartial) && k !in Pick(h.filled, d2, ToFree)
  {
    OnePlace(h.filled, d2, ToFilled, ToPartial, k);
    OnePlace(h.filled, d2, ToFilled, ToFree, k);
  }

  /** Why a surviving block is safe in its new segment s': its bit is set, or the
      segment is not used again, or it lies before the allocation pointer. */
  ghost predicate SafeIn(h: Sub, s: Segment, s': Segment, b: Block, reused: bool) {
    && Valid(s') && s'.n == s.n && b.index < s.n
    && (At(s'.lower, b.index) || (s'.snapshot == s'.n && (!reused || (h.current == Some(b.seg) && b.index < h.pos))))
  }

  lemma SurvivesPartial(h: Sub, s': Segment, d: Dest, b: Block)
    requires Inv(h) && b in Survivors(h) && b.seg in h.partial && b.seg in h.segs && PartialDone(h.segs[b.seg], s', d)
    ensures SafeIn(h, h.segs[b.seg], s', b, true)
  {
    assert BlockOk(h, b);
  }

  lemma SurvivesFilled(h: Sub, s': Segment, d: Dest, b: Block)
    requires Inv(h) && b in Survivors(h) && b.seg in h.filled && b.seg in h.segs && FilledDone(h.segs[b.seg], s', d)
    ensures SafeIn(h, h.segs[b.seg], s', b, d != ToFilled)
  {
    assert BlockOk(h, b);
  }

  lemma SurvivesCurrent(h: Sub, s': Segment, b: Block)
    requires Inv(h) && b in Survivors(h) && h.current == Some(b.seg) && b.seg in h.segs && CurrentDone(h.segs[b.seg], s', h.pos)
    ensures SafeIn(h, h.segs[b.seg], s', b, true)
  {
    assert BlockOk(h, b);
  }

  lemma SurvivesFree(h: Sub, b: Block)
    requires Inv(h) && b in Survivors(h) && b.seg in h.freelist && b.seg in h.segs
    ensures SafeIn(h, h.segs[b.seg], h.segs[b.seg], b, true)
  {
    assert BlockOk(h, b);
  }

  lemma ReclaimedBlock(h: Sub, segs: map<nat, Segment>, d1: seq<Dest>, d2: seq<Dest>, b: Block)
    requires Inv(h) && h.cut && AfterReclaim(h, segs, d1, d2) && b in Survivors(h)
    ensures BlockOk(Reclaimed(h, segs, d1, d2), b)
  {
    assert BlockOk(h, b);
    var k := b.seg;
    if k in h.partial {
      FromPartial(h, segs, d1, d2, k);
      var d :| PartialDone(h.segs[k], segs[k], d);
      SurvivesPartial(h, segs[k], d, b);
    } else if k in h.filled {
      var d := FromFilled(h, segs, d1, d2, k);
      SurvivesFilled(h, segs[k], d, b);
    } else if k in h.freelist {
      SurvivesFree(h, b);
    } else {
      SurvivesCurrent(h, segs[k], b);
    }
  }

  /** Reclaiming keeps the invariant: what was marked or young stays in use, the rest
      may be handed out again. */
  lemma ReclaimedInv(h: Sub, segs: map<nat, Segment>, d1: seq<Dest>, d2: seq<Dest>)
    requires Inv(h) && h.cut && AfterReclaim(h, segs, d1, d2)
    ensures Inv(Reclaimed(h, segs, d1, d2))
  {
    var h' := Reclaimed(h, segs, d1, d2);
    ReclaimedLists(h, segs, d1, d2);
    forall k | k in h'.segs ensures SegOk(h', k) { ReclaimedSeg(h, segs, d1, d2, k); }
    forall b | b in h'.held ensures BlockOk(h', b) { ReclaimedBlock(h, segs, d1, d2, b); }
  }

  /** What the loops over the two lists need. */
  lemma ReclaimReady(h: Sub)
    requires Inv(h) && h.cut
    ensures NoDup(h.partial) && NoDup(h.filled)
    ensures forall k :: k in h.partial ==> k in h.segs && Valid(h.segs[k]) && h.segs[k].snapshot == 0
    ensures forall k :: k in h.filled ==> k in h.segs && Valid(h.segs[k]) && k !in h.partial && h.current != Some(k)
    ensures h.current.Some? ==>
              h.current.value in h.segs && h.current.value !in h.partial && Valid(h.segs[h.current.value])
              && h.pos <= h.segs[h.current.value].n
  {
    forall k | k in h.segs ensures SegOk(h, k) { }
  }

  /** The loop over the partial segments leaves the current one alone. */
  lemma CurrentStays(h: Sub, segs1: map<nat, Segment>, d1: seq<Dest>)
    requires Inv(h) && h.cut && h.current.Some? && ReclaimedList(h.segs, segs1, h.partial, d1, false)
    ensures var k := h.current.value; k in segs1 && k in h.segs && segs1[k] == h.segs[k] && Valid(segs1[k]) && h.pos <= segs1[k].n
  {
    ReclaimReady(h);
  }

  /** Block b can be handed out without another collection. */
  ghost predicate Reusable(h: Sub, b: Block) {
    && b.seg in h.segs && b.index < h.segs[b.seg].n
    && |h.segs[b.seg].lower| == Words(h.segs[b.seg].n) && Free(h.segs[b.seg].lower, h.segs[b.seg].n, b.index)
    && (b.seg in h.partial || b.seg in h.freelist || (h.current == Some(b.seg) && h.pos <= b.index))
  }

  /** What the collection recovers: what has no mark, in a partial segment, behind the
      allocation pointer, or in a used-up segment from which nothing was handed out
      after the snapshot. */
  ghost predicate Recovered(h: Sub, b: Block) {
    && b.seg in h.segs && b.index < h.segs[b.seg].n && |h.segs[b.seg].collect| == Words(h.segs[b.seg].n) && !Marked(h, b)
    && (b.seg in h.partial || (h.current == Some(b.seg) && h.pos <= b.index)
        || (b.seg in h.filled && h.segs[b.seg].snapshot == h.segs[b.seg].n))
  }

  /** Block i of the new segment is free iff it had no mark. */
  ghost predicate FreeIfUnmarked(s: Segment, s': Segment) {
    && s'.n == s.n && |s.collect| == |s'.lower| == Words(s.n)
    && forall i :: 0 <= i < s.n ==> (Free(s'.lower, s'.n, i) <==> !At(s.collect, i))
  }

  lemma DoneFrees(s: Segment, s': Segment, dest: Dest, pos: nat)
    ensures PartialDone(s, s', dest) || FilledDone(s, s', dest) || CurrentDone(s, s', pos) ==> FreeIfUnmarked(s, s')
  {
    hide Spared;
  }

  lemma RecoversPartial(h: Sub, segs: map<nat, Segment>, d1: seq<Dest>, d2: seq<Dest>, b: Block)
    requires Inv(h) && AfterReclaim(h, segs, d1, d2) && b.seg in h.partial
    ensures Reusable(Reclaimed(h, segs, d1, d2), b) <==> Recovered(h, b)
  {
    hide SegOk, BlockOk, CurrentDone, FilledDone, Spared;
    var i :| 0 <= i < |h.partial| && h.partial[i] == b.seg;
    assert PartialDone(h.segs[b.seg], segs[b.seg], d1[i]);
    DoneFrees(h.segs[b.seg], segs[b.seg], d1[i], 0);
    assert b.seg in Pick(h.partial, d1, d1[i]);
  }

  /** Where a filled segment can be allocated from afterwards. */
  lemma FilledPlace(h: Sub, d1: seq<Dest>, d2: seq<Dest>, i: nat)
    requires Lists(h) && |d1| == |h.partial| && |d2| == |h.filled| && i < |h.filled|
    ensures var k := h.filled[i];
            d2[i] != ToFilled <==>
            k in Pick(h.partial, d1, ToPartial) + Pick(h.filled, d2, ToPartial)
            || k in h.freelist + Pick(h.partial, d1, ToFree) + Pick(h.filled, d2, ToFree)
  {
    var k := h.filled[i];
    assert k in Pick(h.filled, d2, d2[i]);
    if d2[i] == ToFilled { OnlyFilled(h, d1, d2, k); }
  }

  lemma MarkedAll(s: Segment, i: nat)
    requires i < s.n && AllMarked(s)
    ensures At(s.collect, i)
  {
  }

  lemma RecoversFilled(h: Sub, segs: map<nat, Segment>, d1: seq<Dest>, d2: seq<Dest>, b: Block)
    requires Inv(h) && AfterReclaim(h, segs, d1, d2) && b.seg in h.filled
    ensures Reusable(Reclaimed(h, segs, d1, d2), b) <==> Recovered(h, b)
  {
    hide SegOk, BlockOk, CurrentDone, PartialDone, Spared, Survivors, Free;
    var s, s' := h.segs[b.seg], segs[b.seg];
    var i :| 0 <= i < |h.filled| && h.filled[i] == b.seg;
    assert FilledDone(s, s', d2[i]);
    DoneFrees(s, s', d2[i], 0);
    FilledPlace(h, d1, d2, i);
    if b.index < s.n && AllMarked(s) { MarkedAll(s, b.index); }
  }

  lemma RecoversCurrent(h: Sub, segs: map<nat, Segment>, d1: seq<Dest>, d2: seq<Dest>, b: Block)
    requires Inv(h) && AfterReclaim(h, segs, d1, d2) && h.current == Some(b.seg)
    ensures Reusable(Reclaimed(h, segs, d1, d2), b) <==> Recovered(h, b)
  {
    hide SegOk, BlockOk, PartialDone, FilledDone, CurrentDone, Survivors, Free;
    DoneFrees(h.segs[b.seg], segs[b.seg], ToPartial, h.pos);
    assert b.seg !in Pick(h.partial, d1, ToPartial) + Pick(h.filled, d2, ToPartial);
    assert b.seg !in h.freelist + Pick(h.partial, d1, ToFree) + Pick(h.filled, d2, ToFree);
  }

  /** Reclaiming makes exactly these blocks available, besides those of the segments
      that were empty before. */
  lemma ReclaimComplete(h: Sub, segs: map<nat, Segment>, d1: seq<Dest>, d2: seq<Dest>, b: Block)
    requires Inv(h) && AfterReclaim(h, segs, d1, d2)
    ensures Reusable(Reclaimed(h, segs, d1, d2), b) <==> Recovered(h, b) || (b.seg in h.freelist && Reusable(h, b))
  {
    hide SegOk, BlockOk, Valid, PartialDone, FilledDone, CurrentDone, Recovered;
    if b.seg in h.partial {
      RecoversPartial(h, segs, d1, d2, b);
    } else if b.seg in h.filled {
      RecoversFilled(h, segs, d1, d2, b);
    } else if h.current == Some(b.seg) {
      RecoversCurrent(h, segs, d1, d2, b);
    } else {
      NotRecovered(h, b);
    }
  }

  lemma NotRecovered(h: Sub, b: Block)
    requires b.seg !in h.partial && b.seg !in h.filled && h.current != Some(b.seg)
    ensures !Recovered(h, b)
  {
  }

  lemma HeldOnIs(h: Sub)
    requires Inv(h)
    ensures HeldOn(h) == Survivors(h)
  {
    forall b | b in h.held ensures BlockOk(h, b) { }
  }

  /** reclaim_subheap: the partial segments, the current one, the filled ones. */
  method ReclaimSubheap(h: Sub) returns (h': Sub, ghost d1: seq<Dest>, ghost d2: seq<Dest>)
    requires Inv(h) && h.cut
    ensures Inv(h') && |d1| == |h.partial| && |d2| == |h.filled| && AfterReclaim(h, h'.segs, d1, d2)
    ensures h' == Reclaimed(h, h'.segs, d1, d2)
    ensures h'.held == Survivors(h) && h'.segs.Keys == h.segs.Keys
    ensures forall b :: Reusable(h', b) <==> Recovered(h, b) || (b.seg in h.freelist && Reusable(h, b))
  {
    hide Reusable, Recovered;
    hide SegOk, BlockOk, Valid, PartialDone, FilledDone, CurrentDone, Marked;
    ReclaimReady(h);
    var segs1, p1, f1, e1;
    segs1, p1, f1, e1, d1 := ReclaimList(h.segs, h.partial, false);
    var segs2 := segs1;
    if h.current.Some? {
      CurrentStays(h, segs1, d1);
      var s := ReclaimCurrent(segs1[h.current.value], h.pos);
      segs2 := segs1[h.current.value := s];
    }
    var segs3, p2, f2, e2;
    segs3, p2, f2, e2, d2 := ReclaimList(segs2, h.filled, true);
    Together(h, segs1, segs2, segs3, d1, d2);
    ReclaimedInv(h, segs3, d1, d2);
    HeldOnIs(h);
    h' := h.(segs := segs3, partial := p1 + p2, filled := f2, freelist := h.freelist + e1 + e2,
             held := HeldOn(h), young := {}, cut := false);
    forall b ensures Reusable(h', b) <==> Recovered(h, b) || (b.seg in h.freelist && Reusable(h, b)) {
      ReclaimComplete(h, segs3, d1, d2, b);
    }
  }

  /** The three loops work on different segments. */
  lemma Together(h: Sub, segs1: map<nat, Segment>, segs2: map<nat, Segment>, segs3: map<nat, Segment>, d1: seq<Dest>, d2: seq<Dest>)
    requires Lists(h) && ReclaimedList(h.segs, segs1, h.partial, d1, false) && ReclaimedList(segs2, segs3, h.filled, d2, true)
    requires if h.current.Some? then h.current.value in segs1 && h.current.value in segs2 &&
               segs2 == segs1[h.current.value := segs2[h.current.value]] &&
               CurrentDone(segs1[h.current.value], segs2[h.current.value], h.pos)
             else segs2 == segs1
    ensures AfterReclaim(h, segs3, d1, d2)
  {
    forall i | 0 <= i < |d1| ensures h.partial[i] in segs3 && PartialDone(h.segs[h.partial[i]], segs3[h.partial[i]], d1[i]) {
      var k := h.partial[i];
      assert k in h.partial && k !in h.filled;
      assert OneDone(h.segs[k], segs1[k], d1[i], false);
    }
    forall i | 0 <= i < |d2| ensures h.filled[i] in segs3 && FilledDone(h.segs[h.filled[i]], segs3[h.filled[i]], d2[i]) {
      var k := h.filled[i];
      assert k in h.filled && k !in h.partial;
      assert OneDone(segs2[k], segs3[k], d2[i], true);
    }
  }

  /** The survivors, computed. */
  function HeldOn(h: Sub): set<Block> {
    set b | b in h.held && (b in h.young || (b.seg in h.segs && b.index < h.segs[b.seg].n
      && |h.segs[b.seg].collect| == Words(h.segs[b.seg].n) && Marked(h, b)))
  }
}
