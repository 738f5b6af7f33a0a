/** sweep: a list of segments is split in place, by rewriting next pointers through
    tail pointers, into full, partly used and empty segments. */
module Sweep {
  import BitWord
  import Bitmap
  import MarkBits

  const NULL: int := -1

  ghost predicate NoDup(s: seq<nat>) { forall i, j :: 0 <= i < j < |s| ==> s[i] != s[j] }

  /** The next pointer of item i of a list that is ended by NULL. */
  ghost predicate LinkAt(next: seq<int>, s: seq<nat>, i: int) {
    0 <= i < |s| && s[i] < |next| && next[s[i]] == if i + 1 < |s| then s[i + 1] else NULL
  }

  /** The list from `head` on is s, ended by NULL. */
  ghost predicate Path(next: seq<int>, head: int, s: seq<nat>) {
    head == (if s == [] then NULL else s[0]) && forall i {:trigger LinkAt(next, s, i)} :: 0 <= i < |s| ==> LinkAt(next, s, i)
  }

  /** A list under construction: a head and a tail pointer.  The tail is the last
      segment, whose next pointer is not set yet, or NULL while the list is empty. */
  ghost predicate Open(next: seq<int>, head: int, tail: int, s: seq<nat>) {
    && (s == [] ==> tail == NULL)
    && (s != [] ==> head == s[0] && tail == s[|s| - 1])
    && (forall i :: 0 <= i < |s| ==> s[i] < |next|)
    && forall i :: 0 <= i < |s| - 1 ==> next[s[i]] == s[i + 1]
  }

  datatype Class = Filled | Partly | Empty

  function Classify(live: nat, blocks: nat): Class {
    if live == blocks then Filled else if live > 0 then Partly else Empty
  }

  /** With the live count that MARKBIT keeps, the classes are what they are called. */
  lemma ClassMeans(l0: seq<BitWord.Word>, n: nat)
    requires n > 0 && Bitmap.Fenced(l0, n)
    ensures var c := Classify(MarkBits.Live(l0, n), n);
            && (c == Filled <==> forall i :: 0 <= i < n ==> Bitmap.At(l0, i))
            && (c == Empty <==> forall i :: 0 <= i < n ==> !Bitmap.At(l0, i))
  {
    MarkBits.LiveMeans(l0, n);
  }

  ghost predicate Within(s: seq<nat>, n: nat) { forall i :: 0 <= i < |s| ==> s[i] < n }

  /** The members of a class, in the order of the list. */
  ghost function Of(s: seq<nat>, live: seq<nat>, blocks: nat, c: Class): seq<nat>
    requires Within(s, |live|)
  {
    if s == [] then []
    else
      var n := |s| - 1;
      Of(s[..n], live, blocks, c) + if Classify(live[s[n]], blocks) == c then [s[n]] else []
  }

  lemma OfSnoc(s: seq<nat>, live: seq<nat>, blocks: nat, c: Class, x: nat)
    requires Within(s, |live|) && x < |live|
    ensures Within(s + [x], |live|)
    ensures Of(s + [x], live, blocks, c) == Of(s, live, blocks, c) + if Classify(live[x], blocks) == c then [x] else []
  {
    assert (s + [x])[..|s|] == s;
  }

  lemma {:induction false} OfFrom(s: seq<nat>, live: seq<nat>, blocks: nat, c: Class)
    requires Within(s, |live|)
    ensures forall x :: x in Of(s, live, blocks, c) ==> x in s && x < |live| && Classify(live[x], blocks) == c
    ensures NoDup(s) ==> NoDup(Of(s, live, blocks, c))
  {
    if s != [] {
      var n := |s| - 1;
      var r := Of(s[..n], live, blocks, c);
      OfFrom(s[..n], live, blocks, c);
      if NoDup(s) {
        assert forall i :: 0 <= i < n ==> s[i] != s[n];
        assert forall x :: x in s[..n] ==> x != s[n];
        assert forall i :: 0 <= i < |r| ==> r[i] in r;
      }
    }
  }

  lemma Snoc(s: seq<nat>, x: nat)
    ensures multiset(s + [x]) == multiset(s) + multiset{x}
  {
  }

  lemma AddOne(a: multiset<nat>, b: multiset<nat>, c: multiset<nat>, x: multiset<nat>)
    ensures (a + x) + b + c == a + b + c + x && a + (b + x) + c == a + b + c + x
  {
  }

  ghost function Bag(s: seq<nat>, live: seq<nat>, blocks: nat, c: Class): multiset<nat>
    requires Within(s, |live|)
  {
    multiset(Of(s, live, blocks, c))
  }

  lemma BagSnoc(s: seq<nat>, live: seq<nat>, blocks: nat, c: Class, x: nat)
    requires Within(s, |live|) && x < |live|
    ensures Within(s + [x], |live|)
    ensures Bag(s + [x], live, blocks, c) == if Classify(live[x], blocks) == c then Bag(s, live, blocks, c) + multiset{x} else Bag(s, live, blocks, c)
  {
    OfSnoc(s, live, blocks, c, x);
    Snoc(Of(s, live, blocks, c), x);
  }

  /** Nothing is lost or duplicated. */
  lemma {:induction false} OfAll(s: seq<nat>, live: seq<nat>, blocks: nat)
    requires Within(s, |live|)
    ensures Bag(s, live, blocks, Filled) + Bag(s, live, blocks, Partly) + Bag(s, live, blocks, Empty) == multiset(s)
  {
    if s != [] {
      var p, x := s[..|s| - 1], s[|s| - 1];
      assert s == p + [x];
      OfAll(p, live, blocks);
      Snoc(p, x);
      BagSnoc(p, live, blocks, Filled, x);
      BagSnoc(p, live, blocks, Partly, x);
      BagSnoc(p, live, blocks, Empty, x);
      AddOne(Bag(p, live, blocks, Filled), Bag(p, live, blocks, Partly), Bag(p, live, blocks, Empty), multiset{x});
    }
  }

  /** Writing the next pointer of a segment that is not in the list, or is its last one. */
  lemma OpenFrame(next: seq<int>, head: int, tail: int, s: seq<nat>, x: nat, v: int)
    requires Open(next, head, tail, s) && x < |next| && (x !in s || (x == tail && NoDup(s)))
    ensures Open(next[x := v], head, tail, s)
  {
    forall i | 0 <= i < |s| - 1 ensures next[x := v][s[i]] == s[i + 1] {
      assert s[i] in s && (NoDup(s) ==> s[i] != s[|s| - 1]);
    }
  }

  /** `*tail = x; tail = &x->next;` */
  method Append(next: array<int>, head: int, tail: int, x: nat, ghost s: seq<nat>) returns (head': int, tail': int)
    requires Open(next[..], head, tail, s) && x < next.Length && x !in s && NoDup(s)
    modifies next
    ensures Open(next[..], head', tail', s + [x]) && tail' == x
    ensures forall y :: 0 <= y < next.Length && y != tail ==> next[y] == old(next[y])
  {
    head', tail' := head, x;
    if tail == NULL {
      head' := x;
    } else {
      ghost var was := next[..];
      OpenFrame(was, head, tail, s, tail, x);
      next[tail] := x;
      assert next[..] == was[tail := x];
    }
  }

  lemma OtherFrame(next: seq<int>, next': seq<int>, head: int, tail: int, s: seq<nat>, x: int)
    requires Open(next, head, tail, s) && |next'| == |next|
    requires forall y :: 0 <= y < |next| && y != x ==> next'[y] == next[y]
    requires forall i :: 0 <= i < |s| ==> s[i] != x
    ensures Open(next', head, tail, s)
  {
  }

  /** The heads and tails of the three lists. */
  datatype Lists = Lists(fh: int, ft: int, uh: int, ut: int, eh: int, et: int)

  ghost predicate Disjoint(s: seq<nat>, u: seq<nat>) { forall i, j :: 0 <= i < |s| && 0 <= j < |u| ==> s[i] != u[j] }

  ghost predicate Apart(s: seq<nat>, x: nat) { forall i :: 0 <= i < |s| ==> s[i] != x }

  /** The members of the three lists so far. */
  datatype Sets = Sets(f: seq<nat>, u: seq<nat>, e: seq<nat>)

  ghost predicate Building(next: seq<int>, l: Lists, m: Sets) {
    && Open(next, l.fh, l.ft, m.f) && Open(next, l.uh, l.ut, m.u) && Open(next, l.eh, l.et, m.e)
    && NoDup(m.f) && NoDup(m.u) && NoDup(m.e) && Disjoint(m.f, m.u) && Disjoint(m.f, m.e) && Disjoint(m.u, m.e)
  }

  ghost predicate New(m: Sets, x: nat) { Apart(m.f, x) && Apart(m.u, x) && Apart(m.e, x) }

  ghost function Put(m: Sets, x: nat, c: Class): Sets {
    match c
    case Filled => m.(f := m.f + [x])
    case Partly => m.(u := m.u + [x])
    case Empty => m.(e := m.e + [x])
  }

  /** Appending to one list leaves two others alone. */
  method AppendTo(next: array<int>, h: int, t: int, x: nat, ghost s: seq<nat>,
                  ghost h2: int, ghost t2: int, ghost s2: seq<nat>, ghost h3: int, ghost t3: int, ghost s3: seq<nat>) returns (h': int, t': int)
    requires Open(next[..], h, t, s) && Open(next[..], h2, t2, s2) && Open(next[..], h3, t3, s3)
    requires NoDup(s) && Disjoint(s, s2) && Disjoint(s, s3) && x < next.Length && Apart(s, x) && Apart(s2, x) && Apart(s3, x)
    modifies next
    ensures Open(next[..], h', t', s + [x]) && Open(next[..], h2, t2, s2) && Open(next[..], h3, t3, s3)
    ensures NoDup(s + [x]) && Disjoint(s + [x], s2) && Disjoint(s + [x], s3)
    ensures forall y :: 0 <= y < next.Length && Apart(s, y) ==> next[y] == old(next[y])
  {
    ghost var was := next[..];
    h', t' := Append(next, h, t, x, s);
    assert s != [] ==> t == s[|s| - 1];
    OtherFrame(was, next[..], h2, t2, s2, t);
    OtherFrame(was, next[..], h3, t3, s3, t);
    forall y | 0 <= y < next.Length && Apart(s, y) ensures next[y] == was[y] {
      assert s != [] ==> y != s[|s| - 1];
    }
  }

  lemma DisjointSwap(s: seq<nat>, u: seq<nat>)
    ensures Disjoint(s, u) ==> Disjoint(u, s)
  {
  }

  /** One segment goes to the end of its list. */
  method Place(next: array<int>, l: Lists, x: nat, c: Class, ghost m: Sets) returns (l': Lists)
    requires Building(next[..], l, m) && x < next.Length && New(m, x)
    modifies next
    ensures Building(next[..], l', Put(m, x, c))
    ensures forall y :: 0 <= y < next.Length && New(m, y) ==> next[y] == old(next[y])
  {
    DisjointSwap(m.f, m.u);
    DisjointSwap(m.f, m.e);
    DisjointSwap(m.u, m.e);
    match c {
      case Filled =>
        var h, t := AppendTo(next, l.fh, l.ft, x, m.f, l.uh, l.ut, m.u, l.eh, l.et, m.e);
        l' := l.(fh := h, ft := t);
      case Partly =>
        var h, t := AppendTo(next, l.uh, l.ut, x, m.u, l.fh, l.ft, m.f, l.eh, l.et, m.e);
        DisjointSwap(m.u + [x], m.f);
        l' := l.(uh := h, ut := t);
      case Empty =>
        var h, t := AppendTo(next, l.eh, l.et, x, m.e, l.fh, l.ft, m.f, l.uh, l.ut, m.u);
        DisjointSwap(m.e + [x], m.f);
        DisjointSwap(m.e + [x], m.u);
        l' := l.(eh := h, et := t);
    }
  }

  /** What the loop has done with the segments in `done`; `free0` was in the free list
      before. */
  ghost predicate Placed(m: Sets, done: seq<nat>, live: seq<nat>, blocks: nat, free0: seq<nat>) {
    && Within(done, |live|)
    && m.f == Of(done, live, blocks, Filled) && m.u == Of(done, live, blocks, Partly)
    && m.e == free0 + Of(done, live, blocks, Empty)
  }

  lemma PlacedOne(m: Sets, done: seq<nat>, live: seq<nat>, blocks: nat, free0: seq<nat>, x: nat)
    requires Placed(m, done, live, blocks, free0) && x < |live|
    ensures Placed(Put(m, x, Classify(live[x], blocks)), done + [x], live, blocks, free0)
  {
    OfSnoc(done, live, blocks, Filled, x);
    OfSnoc(done, live, blocks, Partly, x);
    OfSnoc(done, live, blocks, Empty, x);
  }

  /** A segment that is still ahead is in none of the lists yet. */
  lemma AheadIsNew(m: Sets, done: seq<nat>, live: seq<nat>, blocks: nat, free0: seq<nat>, x: nat)
    requires Placed(m, done, live, blocks, free0) && Apart(done, x) && Apart(free0, x)
    ensures New(m, x)
  {
    OfFrom(done, live, blocks, Filled);
    OfFrom(done, live, blocks, Partly);
    OfFrom(done, live, blocks, Empty);
    assert forall i :: 0 <= i < |m.f| ==> m.f[i] in m.f;
    assert forall i :: 0 <= i < |m.u| ==> m.u[i] in m.u;
    var e := Of(done, live, blocks, Empty);
    assert forall i :: 0 <= i < |m.e| ==> m.e[i] == if i < |free0| then free0[i] else e[i - |free0|];
    assert forall i :: 0 <= i < |e| ==> e[i] in e;
  }

  /** `*unfilled_tail = NULL` */
  method CloseUnfilled(next: array<int>, l: Lists, ghost m: Sets) returns (uh: int)
    requires Building(next[..], l, m)
    modifies next
    ensures Path(next[..], uh, m.u) && Open(next[..], l.fh, l.ft, m.f) && Open(next[..], l.eh, l.et, m.e)
    ensures forall y :: 0 <= y < next.Length && Apart(m.u, y) ==> next[y] == old(next[y])
  {
    uh := l.uh;
    ghost var s0 := next[..];
    if l.ut == NULL { uh := NULL; } else { next[l.ut] := NULL; }
    ghost var s1 := next[..];
    assert m.u != [] ==> l.ut == m.u[|m.u| - 1] && s1 == s0[l.ut := NULL];
    OtherFrame(s0, s1, l.fh, l.ft, m.f, l.ut);
    OtherFrame(s0, s1, l.eh, l.et, m.e, l.ut);
    EndPath(s0, s1, l.uh, l.ut, m.u);
  }

  /** Both lists end up behind each other: `*filled_tail = unfilled; *unfilled_tail = NULL`. */
  method Finish(next: array<int>, l: Lists, ghost m: Sets) returns (head: int, uh: int)
    requires Building(next[..], l, m)
    modifies next
    ensures Path(next[..], head, m.f + m.u) && Path(next[..], uh, m.u)
    ensures Open(next[..], l.eh, l.et, m.e)
    ensures forall y :: 0 <= y < next.Length && Apart(m.f, y) && Apart(m.u, y) ==> next[y] == old(next[y])
  {
    head := l.fh;
    uh := CloseUnfilled(next, l, m);
    ghost var s1 := next[..];
    if l.ft == NULL { head := uh; } else { next[l.ft] := uh; }
    ghost var s2 := next[..];
    assert m.f != [] ==> l.ft == m.f[|m.f| - 1] && s2 == s1[l.ft := uh];
    OtherFrame(s1, s2, l.eh, l.et, m.e, l.ft);
    JoinPath(s1, s2, l.fh, l.ft, m.f, uh, m.u);
  }

  /** A list whose next pointers have not been written. */
  lemma PathFrame(next: seq<int>, next': seq<int>, head: int, s: seq<nat>)
    requires Path(next, head, s) && |next'| == |next| && forall y :: 0 <= y < |next| && y in s ==> next'[y] == next[y]
    ensures Path(next', head, s)
  {
    forall i | 0 <= i < |s| ensures LinkAt(next', s, i) { assert LinkAt(next, s, i) && s[i] in s; }
  }

  /** A list under construction becomes a list when its last pointer is set to NULL. */
  lemma EndPath(next: seq<int>, next': seq<int>, head: int, tail: int, s: seq<nat>)
    requires Open(next, head, tail, s) && NoDup(s)
    requires if s == [] then next' == next else next' == next[s[|s| - 1] := NULL]
    ensures Path(next', if s == [] then NULL else head, s)
  {
    forall i | 0 <= i < |s| ensures LinkAt(next', s, i) {
      assert i < |s| - 1 ==> s[i] != s[|s| - 1];
    }
  }

  /** A list behind a list under construction. */
  lemma JoinPath(next: seq<int>, next': seq<int>, head: int, tail: int, f: seq<nat>, uh: int, u: seq<nat>)
    requires Open(next, head, tail, f) && NoDup(f) && Path(next, uh, u) && Disjoint(f, u)
    requires if f == [] then next' == next else next' == next[f[|f| - 1] := uh]
    ensures Path(next', if f == [] then uh else head, f + u) && Path(next', uh, u)
  {
    PathFrame(next, next', uh, u);
    var s := f + u;
    forall i | 0 <= i < |s| ensures LinkAt(next', s, i) {
      if i < |f| {
        assert s[i] == f[i] && (i < |f| - 1 ==> s[i + 1] == f[i + 1] && f[i] != f[|f| - 1]);
        assert i == |f| - 1 && u != [] ==> s[i + 1] == u[0];
      } else {
        var k := i - |f|;
        assert LinkAt(next, u, k);
        assert s[i] == u[k] && (k + 1 < |u| ==> s[i + 1] == u[k + 1]);
        assert f != [] ==> u[k] != f[|f| - 1];
      }
    }
  }

  lemma StartLists(next: seq<int>, eh: int, et: int, free0: seq<nat>, live: seq<nat>, blocks: nat)
    requires Open(next, eh, et, free0) && NoDup(free0)
    ensures Building(next, Lists(NULL, NULL, NULL, NULL, eh, et), Sets([], [], free0))
    ensures Placed(Sets([], [], free0), [], live, blocks, free0)
  {
  }

  /** The rest of the original list, from its i-th segment on. */
  ghost predicate Rest(next: seq<int>, list: seq<nat>, i: nat) {
    i <= |list| && forall k {:trigger LinkAt(next, list, k)} :: i <= k < |list| ==> LinkAt(next, list, k)
  }

  /** Placing a segment leaves the rest of the list alone. */
  lemma RestStays(before: seq<int>, after: seq<int>, list: seq<nat>, i: nat, m: Sets, live: seq<nat>, blocks: nat, free0: seq<nat>)
    requires Rest(before, list, i) && NoDup(list) && Disjoint(list, free0) && Placed(m, list[..i], live, blocks, free0)
    requires |after| == |before| && forall y :: 0 <= y < |before| && New(m, y) ==> after[y] == before[y]
    ensures Rest(after, list, i)
  {
    forall k | i <= k < |list| ensures LinkAt(after, list, k) {
      assert LinkAt(before, list, k);
      AheadIsNew(m, list[..i], live, blocks, free0, list[k]);
    }
  }

  /** Between two segments: i of them have been placed, and seg is the next one. */
  ghost predicate Sweeping(next: seq<int>, l: Lists, m: Sets, list: seq<nat>, i: nat, live: seq<nat>, blocks: nat, free0: seq<nat>, seg: int) {
    && Rest(next, list, i) && NoDup(list) && Disjoint(list, free0) && |live| == |next|
    && Building(next, l, m) && Placed(m, list[..i], live, blocks, free0)
    && seg == if i < |list| then list[i] else NULL
  }

  method Step(next: array<int>, live: seq<nat>, blocks: nat, l: Lists, seg: nat, ghost m: Sets, ghost list: seq<nat>, ghost i: nat, ghost free0: seq<nat>)
      returns (l': Lists, seg': int, ghost m': Sets)
    requires Sweeping(next[..], l, m, list, i, live, blocks, free0, seg) && i < |list|
    modifies next
    ensures Sweeping(next[..], l', m', list, i + 1, live, blocks, free0, seg')
    ensures forall y :: 0 <= y < next.Length && Apart(list, y) && Apart(free0, y) ==> next[y] == old(next[y])
  {
    ghost var before := next[..];
    forall y | 0 <= y < next.Length && Apart(list, y) && Apart(free0, y) ensures New(m, y) {
      AheadIsNew(m, list[..i], live, blocks, free0, y);
    }
    assert LinkAt(before, list, i);
    AheadIsNew(m, list[..i], live, blocks, free0, seg);
    l' := Place(next, l, seg, Classify(live[seg], blocks), m);
    RestStays(before, next[..], list, i, m, live, blocks, free0);
    assert list[..i + 1] == list[..i] + [seg];
    PlacedOne(m, list[..i], live, blocks, free0, seg);
    m' := Put(m, seg, Classify(live[seg], blocks));
    seg' := next[seg];
    assert LinkAt(next[..], list, i);
  }

  /** The loop over the segments of one subheap.  The list is split stably: full
      segments first, partly used ones behind them, from `unreserved` on, and empty
      ones behind those that the sweep has found in other subheaps, `free0`. */
  method SweepList(next: array<int>, live: seq<nat>, blocks: nat, head: int, eh: int, et: int, ghost list: seq<nat>, ghost free0: seq<nat>)
      returns (head': int, unreserved: int, eh': int, et': int)
    requires |live| == next.Length && Path(next[..], head, list) && Open(next[..], eh, et, free0)
    requires NoDup(list) && NoDup(free0) && Disjoint(list, free0)
    modifies next
    ensures Within(list, |live|)
    ensures Path(next[..], head', Of(list, live, blocks, Filled) + Of(list, live, blocks, Partly))
    ensures Path(next[..], unreserved, Of(list, live, blocks, Partly))
    ensures Open(next[..], eh', et', free0 + Of(list, live, blocks, Empty))
    ensures forall y :: 0 <= y < next.Length && Apart(list, y) && Apart(free0, y) ==> next[y] == old(next[y])
  {
    var l := Lists(NULL, NULL, NULL, NULL, eh, et);
    ghost var m := Sets([], [], free0);
    StartLists(next[..], eh, et, free0, live, blocks);
    assert list[..0] == [];
    var seg := head;
    ghost var i := 0;
    while seg != NULL
      invariant i <= |list| && Sweeping(next[..], l, m, list, i, live, blocks, free0, seg)
      invariant forall y :: 0 <= y < next.Length && Apart(list, y) && Apart(free0, y) ==> next[y] == old(next[y])
      decreases |list| - i
    {
      l, seg, m := Step(next, live, blocks, l, seg, m, list, i, free0);
      i := i + 1;
    }
    assert list[..i] == list;
    forall y | 0 <= y < next.Length && Apart(list, y) && Apart(free0, y) ensures New(m, y) {
      AheadIsNew(m, list, live, blocks, free0, y);
    }
    head', unreserved := Finish(next, l, m);
    eh', et' := l.eh, l.et;
  }
}
