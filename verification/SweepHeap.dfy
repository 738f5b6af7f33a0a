/** sweep: all subheaps in turn, and what becomes of the empty segments. */
module SweepHeap {
  import opened Sweep

  /** The segments of different lists are different. */
  ghost predicate AllDisjoint(lists: seq<seq<nat>>, free: seq<nat>) {
    && (forall k :: 0 <= k < |lists| ==> NoDup(lists[k]) && Disjoint(lists[k], free))
    && (forall k, l :: 0 <= k < |lists| && 0 <= l < |lists| && k != l ==> Disjoint(lists[k], lists[l]))
    && NoDup(free)
  }

  ghost predicate AllWithin(lists: seq<seq<nat>>, n: nat) { forall k :: 0 <= k < |lists| ==> Within(lists[k], n) }

  /** What a subheap keeps. */
  ghost function Kept(s: seq<nat>, live: seq<nat>, blocks: nat): seq<nat>
    requires Within(s, |live|)
  {
    Of(s, live, blocks, Filled) + Of(s, live, blocks, Partly)
  }

  /** The empty segments of the first k subheaps, in order. */
  ghost function Emptied(lists: seq<seq<nat>>, live: seq<nat>, blocks: seq<nat>, k: nat): seq<nat>
    requires k <= |lists| == |blocks| && AllWithin(lists, |live|)
  {
    if k == 0 then [] else Emptied(lists, live, blocks, k - 1) + Of(lists[k - 1], live, blocks[k - 1], Empty)
  }

  lemma {:induction false} EmptiedFrom(lists: seq<seq<nat>>, live: seq<nat>, blocks: seq<nat>, k: nat, free: seq<nat>)
    requires k <= |lists| == |blocks| && AllWithin(lists, |live|) && AllDisjoint(lists, free)
    ensures var e := Emptied(lists, live, blocks, k);
            && (forall x :: x in e ==> exists l :: 0 <= l < k && x in Of(lists[l], live, blocks[l], Empty))
            && NoDup(e)
    decreases k
  {
    if k > 0 {
      EmptiedFrom(lists, live, blocks, k - 1, free);
      OfFrom(lists[k - 1], live, blocks[k - 1], Empty);
      var a, b := Emptied(lists, live, blocks, k - 1), Of(lists[k - 1], live, blocks[k - 1], Empty);
      forall i, j | 0 <= i < |a| && 0 <= j < |b| ensures a[i] != b[j] {
        assert a[i] in a;
        var l :| 0 <= l < k - 1 && a[i] in Of(lists[l], live, blocks[l], Empty);
        OfFrom(lists[l], live, blocks[l], Empty);
        Different(lists[l], lists[k - 1], a[i], b[j]);
      }
    }
  }

  lemma Different(s: seq<nat>, t: seq<nat>, x: nat, y: nat)
    requires Disjoint(s, t) && x in s && y in t
    ensures x != y
  {
    var i :| 0 <= i < |s| && s[i] == x;
    var j :| 0 <= j < |t| && t[j] == y;
  }

  /** An empty segment is in no subheap's list any more, nor in the old free list. */
  lemma EmptyElsewhere(lists: seq<seq<nat>>, live: seq<nat>, blocks: seq<nat>, k: nat, free: seq<nat>, x: nat)
    requires k <= |lists| == |blocks| && AllWithin(lists, |live|) && AllDisjoint(lists, free)
    requires x in Emptied(lists, live, blocks, k)
    ensures forall l :: 0 <= l < |lists| ==> x !in Kept(lists[l], live, blocks[l])
    ensures forall l :: k <= l < |lists| ==> x !in lists[l]
    ensures x !in free
  {
    EmptiedFrom(lists, live, blocks, k, free);
    var e :| 0 <= e < k && x in Of(lists[e], live, blocks[e], Empty);
    OfFrom(lists[e], live, blocks[e], Empty);
    if x in free { Different(lists[e], free, x, x); }
    forall l | 0 <= l < |lists| ensures x !in Kept(lists[l], live, blocks[l]) && (l >= k ==> x !in lists[l]) {
      OfFrom(lists[l], live, blocks[l], Filled);
      OfFrom(lists[l], live, blocks[l], Partly);
      if l != e && x in lists[l] { Different(lists[e], lists[l], x, x); }
    }
  }

  /** Subheaps below k have been swept; e is the list of empty segments so far. */
  ghost predicate Swept(next: seq<int>, live: seq<nat>, blocks: seq<nat>, heads0: seq<int>, heads: seq<int>, eh: int, et: int,
                        freelist: int, lists: seq<seq<nat>>, free: seq<nat>, k: nat) {
    && k <= |lists| == |blocks| == |heads0| == |heads| && |live| == |next|
    && AllWithin(lists, |live|) && AllDisjoint(lists, free)
    && (forall l :: 0 <= l < k ==> Path(next, heads[l], Kept(lists[l], live, blocks[l])))
    && (forall l :: k <= l < |lists| ==> Path(next, heads0[l], lists[l]))
    && Path(next, freelist, free) && Open(next, eh, et, Emptied(lists, live, blocks, k))
  }

  lemma PathWithin(next: seq<int>, head: int, s: seq<nat>)
    requires Path(next, head, s)
    ensures Within(s, |next|)
  {
    forall i | 0 <= i < |s| ensures s[i] < |next| { assert LinkAt(next, s, i); }
  }

  lemma ApartIn(s: seq<nat>, x: nat)
    ensures Apart(s, x) <==> x !in s
  {
  }

  /** What sweeping subheap k leaves alone. */
  lemma OthersStay(before: seq<int>, after: seq<int>, live: seq<nat>, blocks: seq<nat>, heads0: seq<int>, heads: seq<int>, eh: int, et: int,
                   freelist: int, lists: seq<seq<nat>>, free: seq<nat>, k: nat)
    requires Swept(before, live, blocks, heads0, heads, eh, et, freelist, lists, free, k) && k < |lists| && |after| == |before|
    requires forall y :: 0 <= y < |before| && Apart(lists[k], y) && Apart(Emptied(lists, live, blocks, k), y) ==> after[y] == before[y]
    ensures Path(after, freelist, free)
    ensures forall l :: 0 <= l < k ==> Path(after, heads[l], Kept(lists[l], live, blocks[l]))
    ensures forall l :: k < l < |lists| ==> Path(after, heads0[l], lists[l])
  {
    var e := Emptied(lists, live, blocks, k);
    forall y | 0 <= y < |before| && y !in lists[k] && y !in e ensures after[y] == before[y] {
      ApartIn(lists[k], y);
      ApartIn(e, y);
    }
    forall x | x in e ensures x !in free && forall l :: 0 <= l < |lists| ==> x !in Kept(lists[l], live, blocks[l]) && (l >= k ==> x !in lists[l]) {
      EmptyElsewhere(lists, live, blocks, k, free, x);
    }
    forall y | y in free ensures y !in lists[k] { if y in lists[k] { Different(lists[k], free, y, y); } }
    PathFrame(before, after, freelist, free);
    forall l | 0 <= l < k ensures Path(after, heads[l], Kept(lists[l], live, blocks[l])) {
      OfFrom(lists[l], live, blocks[l], Filled);
      OfFrom(lists[l], live, blocks[l], Partly);
      forall y | y in Kept(lists[l], live, blocks[l]) ensures y !in lists[k] {
        if y in lists[k] { Different(lists[l], lists[k], y, y); }
      }
      PathFrame(before, after, heads[l], Kept(lists[l], live, blocks[l]));
    }
    forall l | k < l < |lists| ensures Path(after, heads0[l], lists[l]) {
      forall y | y in lists[l] ensures y !in lists[k] { if y in lists[k] { Different(lists[l], lists[k], y, y); } }
      PathFrame(before, after, heads0[l], lists[l]);
    }
  }

  lemma EmptyDisjoint(lists: seq<seq<nat>>, live: seq<nat>, blocks: seq<nat>, k: nat, free: seq<nat>)
    requires k < |lists| == |blocks| && AllWithin(lists, |live|) && AllDisjoint(lists, free)
    ensures Disjoint(lists[k], Emptied(lists, live, blocks, k)) && NoDup(Emptied(lists, live, blocks, k))
  {
    var e := Emptied(lists, live, blocks, k);
    EmptiedFrom(lists, live, blocks, k, free);
    forall i, j | 0 <= i < |lists[k]| && 0 <= j < |e| ensures lists[k][i] != e[j] {
      EmptyElsewhere(lists, live, blocks, k, free, e[j]);
      assert lists[k][i] in lists[k] && e[j] in e;
    }
  }

  /** All subheaps are split, and the empty segments, in order, are put in front of
      the free list. */
  method SweepAll(next: array<int>, live: seq<nat>, blocks: seq<nat>, heads0: seq<int>, freelist: int,
                  ghost lists: seq<seq<nat>>, ghost free: seq<nat>) returns (heads: seq<int>, freelist': int)
    requires |live| == next.Length && |lists| == |blocks| == |heads0| && AllDisjoint(lists, free)
    requires forall k :: 0 <= k < |lists| ==> Path(next[..], heads0[k], lists[k])
    requires Path(next[..], freelist, free)
    modifies next
    ensures AllWithin(lists, |live|) && |heads| == |lists|
    ensures forall k :: 0 <= k < |lists| ==> Path(next[..], heads[k], Kept(lists[k], live, blocks[k]))
    ensures Path(next[..], freelist', Emptied(lists, live, blocks, |lists|) + free)
  {
    forall k | 0 <= k < |lists| ensures Within(lists[k], |live|) { PathWithin(next[..], heads0[k], lists[k]); }
    heads := heads0;
    var eh, et, k := NULL, NULL, 0;
    while k < |blocks|
      invariant Swept(next[..], live, blocks, heads0, heads, eh, et, freelist, lists, free, k)
    {
      heads, eh, et := SweepOne(next, live, blocks, heads0, heads, eh, et, freelist, lists, free, k);
      k := k + 1;
    }
    freelist' := Splice(next, live, blocks, heads0, heads, eh, et, freelist, lists, free);
  }

  /** One subheap. */
  method SweepOne(next: array<int>, live: seq<nat>, blocks: seq<nat>, heads0: seq<int>, heads: seq<int>, eh: int, et: int,
                  ghost freelist: int, ghost lists: seq<seq<nat>>, ghost free: seq<nat>, k: nat)
      returns (heads': seq<int>, eh': int, et': int)
    requires Swept(next[..], live, blocks, heads0, heads, eh, et, freelist, lists, free, k) && k < |lists|
    modifies next
    ensures Swept(next[..], live, blocks, heads0, heads', eh', et', freelist, lists, free, k + 1)
  {
    hide Of, AllDisjoint, Disjoint, NoDup, Open, Path, Kept;
    ghost var before := next[..];
    EmptyDisjoint(lists, live, blocks, k, free);
    Parts(lists, free, k);
    var h, unreserved;
    h, unreserved, eh', et' := SweepList(next, live, blocks[k], heads0[k], eh, et, lists[k], Emptied(lists, live, blocks, k));
    OthersStay(before, next[..], live, blocks, heads0, heads, eh, et, freelist, lists, free, k);
    heads' := heads[k := h];
    KeptIs(lists[k], live, blocks[k]);
  }

  lemma Parts(lists: seq<seq<nat>>, free: seq<nat>, k: nat)
    requires AllDisjoint(lists, free) && k < |lists|
    ensures NoDup(lists[k])
  {
  }

  lemma KeptIs(s: seq<nat>, live: seq<nat>, blocks: nat)
    requires Within(s, |live|)
    ensures Kept(s, live, blocks) == Of(s, live, blocks, Filled) + Of(s, live, blocks, Partly)
  {
  }

  /** `*free_tail = heap_space.freelist; heap_space.freelist = free` */
  method Splice(next: array<int>, live: seq<nat>, blocks: seq<nat>, ghost heads0: seq<int>, heads: seq<int>, eh: int, et: int, freelist: int,
                ghost lists: seq<seq<nat>>, ghost free: seq<nat>) returns (freelist': int)
    requires Swept(next[..], live, blocks, heads0, heads, eh, et, freelist, lists, free, |lists|)
    modifies next
    ensures forall k :: 0 <= k < |lists| ==> Path(next[..], heads[k], Kept(lists[k], live, blocks[k]))
    ensures Path(next[..], freelist', Emptied(lists, live, blocks, |lists|) + free)
  {
    ghost var e, before := Emptied(lists, live, blocks, |lists|), next[..];
    EmptiedFrom(lists, live, blocks, |lists|, free);
    forall i, j | 0 <= i < |e| && 0 <= j < |free| ensures e[i] != free[j] {
      EmptyElsewhere(lists, live, blocks, |lists|, free, e[i]);
    }
    freelist' := eh;
    if et == NULL { freelist' := freelist; } else { next[et] := freelist; }
    assert e != [] ==> et == e[|e| - 1] && next[..] == before[et := freelist];
    JoinPath(before, next[..], eh, et, e, freelist, free);
    forall k | 0 <= k < |lists| ensures Path(next[..], heads[k], Kept(lists[k], live, blocks[k])) {
      if e != [] { EmptyElsewhere(lists, live, blocks, |lists|, free, e[|e| - 1]); }
      PathFrame(before, next[..], heads[k], Kept(lists[k], live, blocks[k]));
    }
  }

  /** No segment is lost or duplicated: those that the subheaps keep, the empty ones
      and the old free list are all there were. */
  lemma {:induction false} NoneLost(lists: seq<seq<nat>>, live: seq<nat>, blocks: seq<nat>, k: nat)
    requires k <= |lists| == |blocks| && AllWithin(lists, |live|)
    ensures AllKept(lists, live, blocks, k) + multiset(Emptied(lists, live, blocks, k)) == AllOf(lists, k)
    decreases k
  {
    hide Of, Classify;
    if k > 0 {
      NoneLost(lists, live, blocks, k - 1);
      var s, b := lists[k - 1], blocks[k - 1];
      OfAll(s, live, b);
      BagOfTwo(Of(s, live, b, Filled), Of(s, live, b, Partly));
      BagOfTwo(Emptied(lists, live, blocks, k - 1), Of(s, live, b, Empty));
      Exchange(AllKept(lists, live, blocks, k - 1), multiset(Kept(s, live, b)),
               multiset(Emptied(lists, live, blocks, k - 1)), Bag(s, live, b, Empty));
    }
  }

  lemma BagOfTwo(s: seq<nat>, t: seq<nat>)
    ensures multiset(s + t) == multiset(s) + multiset(t)
  {
  }

  lemma Exchange(a: multiset<nat>, b: multiset<nat>, c: multiset<nat>, d: multiset<nat>)
    ensures (a + b) + (c + d) == (a + c) + (b + d)
  {
  }

  ghost function AllKept(lists: seq<seq<nat>>, live: seq<nat>, blocks: seq<nat>, k: nat): multiset<nat>
    requires k <= |lists| == |blocks| && AllWithin(lists, |live|)
  {
    if k == 0 then multiset{} else AllKept(lists, live, blocks, k - 1) + multiset(Kept(lists[k - 1], live, blocks[k - 1]))
  }

  ghost function AllOf(lists: seq<seq<nat>>, k: nat): multiset<nat>
    requires k <= |lists|
  {
    if k == 0 then multiset{} else AllOf(lists, k - 1) + multiset(lists[k - 1])
  }
}
