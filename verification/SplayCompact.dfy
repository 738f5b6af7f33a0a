/** Copying compaction of the nodes: a breadth-first copy into fresh chunks. */
module SplayCompact {
  import opened Splay
  import opened SplayNodes
  import opened SplayTree

  /** The same tree with other places. */
  ghost predicate SameForm<T>(t: Tree<Slot<T>>, u: Tree<Slot<T>>) {
    match t
    case Nil => u == Nil
    case Node(l, s, r) => u.Node? && u.item.item == s.item && SameForm(l, u.left) && SameForm(r, u.right)
  }

  /** What stands at q when t has been copied there. */
  ghost function Copied<T>(m: Memory<T>, q: nat, t: Tree<Slot<T>>): Tree<Slot<T>>
    decreases t
  {
    match t
    case Nil => Nil
    case Node(l, s, r) =>
      if q in m then Node(Copied(m, m[q].child.left, l), Slot(q, s.item), Copied(m, m[q].child.right, r)) else Nil
  }

  // The nodes are copied to base, base + 1, ...; g[i] is the old subtree whose root is
  // now at base + i, and the copies below `done` have got their new children.

  /** The pointer q to the copy of t. */
  ghost predicate CopyAt<T>(base: nat, g: seq<Tree<Slot<T>>>, q: nat, t: Tree<Slot<T>>) {
    if t == Nil then q == 0 else base <= q < base + |g| && g[q - base] == t
  }

  ghost predicate Scanned<T>(base: nat, g: seq<Tree<Slot<T>>>, to: Memory<T>, i: nat)
    requires i < |g|
  {
    && base + i in to && g[i].Node? && to[base + i].item == g[i].item.item
    && CopyAt(base, g, to[base + i].child.left, g[i].left) && CopyAt(base, g, to[base + i].child.right, g[i].right)
  }

  ghost predicate Unscanned<T>(base: nat, g: seq<Tree<Slot<T>>>, m: Memory<T>, to: Memory<T>, i: nat)
    requires i < |g|
  {
    && base + i in to && g[i].Node? && g[i].item.at in m && Shape(m, g[i].item.at, g[i])
    && to[base + i] == m[g[i].item.at]
  }

  ghost predicate Copying<T>(base: nat, g: seq<Tree<Slot<T>>>, m: Memory<T>, to: Memory<T>, done: nat) {
    && done <= |g|
    && (forall q :: q in to <==> base <= q < base + |g|)
    && (forall i :: 0 <= i < done ==> Scanned(base, g, to, i))
    && (forall i :: done <= i < |g| ==> Unscanned(base, g, m, to, i))
  }

  /** How many nodes the unscanned copies still bring in. */
  ghost function Ahead<T>(g: seq<Tree<Slot<T>>>, done: nat): nat {
    if done >= |g| then 0 else Ahead(g[..|g| - 1], done) + Kids(g[|g| - 1])
  }

  ghost function Kids<T>(t: Tree<Slot<T>>): nat {
    match t case Nil => 0 case Node(l, _, r) => |InOrder(l)| + |InOrder(r)|
  }

  lemma AheadMore<T>(g: seq<Tree<Slot<T>>>, t: Tree<Slot<T>>, done: nat)
    requires done <= |g|
    ensures Ahead(g + [t], done) == Ahead(g, done) + Kids(t)
  {
    assert (g + [t])[..|g|] == g;
  }

  lemma {:induction false} AheadFirst<T>(g: seq<Tree<Slot<T>>>, done: nat)
    requires done < |g|
    ensures Ahead(g, done) == Kids(g[done]) + Ahead(g, done + 1)
    decreases |g|
  {
    if done < |g| - 1 { AheadFirst(g[..|g| - 1], done); }
  }

  /** One child field: the copy of the child is appended. */
  function Grown<T>(g: seq<Tree<Slot<T>>>, t: Tree<Slot<T>>): (g': seq<Tree<Slot<T>>>)
    ensures |g| <= |g'| && g'[..|g|] == g
  {
    if t == Nil then g else g + [t]
  }

  lemma GrownCopy<T>(base: nat, g: seq<Tree<Slot<T>>>, q: nat, t: Tree<Slot<T>>, x: Tree<Slot<T>>)
    requires CopyAt(base, g, q, t)
    ensures CopyAt(base, Grown(g, x), q, t)
  {
  }

  /** forward: copies the node p unless it is null; q is its new place. */
  method Forward<T>(m: Memory<T>, to: Memory<T>, next: nat, p: nat, ghost base: nat, ghost g: seq<Tree<Slot<T>>>, ghost done: nat, ghost t: Tree<Slot<T>>)
      returns (to': Memory<T>, next': nat, q: nat)
    requires Copying(base, g, m, to, done) && next == base + |g| && Shape(m, p, t) && base > 0
    ensures Copying(base, Grown(g, t), m, to', done) && next' == base + |Grown(g, t)|
    ensures CopyAt(base, Grown(g, t), q, t)
    ensures forall x :: x in to ==> x in to' && to'[x] == to[x]
    ensures |Grown(g, t)| + Ahead(Grown(g, t), done) == |g| + Ahead(g, done) + |InOrder(t)|
  {
    if p == 0 {
      return to, next, 0;
    }
    AheadMore(g, t, done);
    to', next', q := to[next := m[p]], next + 1, next;
    ghost var g' := g + [t];
    forall i | 0 <= i < |g'| ensures if i < done then Scanned(base, g', to', i) else Unscanned(base, g', m, to', i) {
      if i < done { assert Scanned(base, g, to, i); } else if i < |g| { assert Unscanned(base, g, m, to, i); }
    }
  }

  /** The copy at `done` gets its new children. */
  lemma ScanOne<T>(base: nat, g: seq<Tree<Slot<T>>>, g': seq<Tree<Slot<T>>>, m: Memory<T>, to: Memory<T>, to': Memory<T>, done: nat, l: nat, r: nat)
    requires Copying(base, g, m, to, done) && Copying(base, g', m, to', done) && done < |g| <= |g'| && g'[..|g|] == g && g[done].Node?
    requires CopyAt(base, g', l, g[done].left) && CopyAt(base, g', r, g[done].right)
    ensures base + done in to' && Copying(base, g', m, SetChildren(to', base + done, Two(l, r)), done + 1)
  {
    var to2 := SetChildren(to', base + done, Two(l, r));
    assert Unscanned(base, g', m, to', done) && g'[done] == g[done];
    forall i | 0 <= i < |g'| ensures if i <= done then Scanned(base, g', to2, i) else Unscanned(base, g', m, to2, i) {
      if i < done { assert Scanned(base, g', to', i); } else { assert Unscanned(base, g', m, to', i); }
    }
  }

  /** The copy is a tree of the same form; the place of each node tells which it is. */
  lemma {:induction false} CopiedTree<T>(base: nat, g: seq<Tree<Slot<T>>>, m: Memory<T>, to: Memory<T>, q: nat, t: Tree<Slot<T>>)
    requires Copying(base, g, m, to, |g|) && CopyAt(base, g, q, t) && base > 0
    ensures Shape(to, q, Copied(to, q, t)) && SameForm(t, Copied(to, q, t))
    ensures Strip(InOrder(Copied(to, q, t))) == Strip(InOrder(t))
    ensures Tells(base, g, InOrder(t), InOrder(Copied(to, q, t)))
    decreases t
  {
    if t.Node? {
      assert Scanned(base, g, to, q - base);
      var l, r := to[q].child.left, to[q].child.right;
      CopiedTree(base, g, m, to, l, t.left);
      CopiedTree(base, g, m, to, r, t.right);
      var cl, cr := Copied(to, l, t.left), Copied(to, r, t.right);
      StripAppend(InOrder(t.left), [t.item]);
      StripAppend(InOrder(t.left) + [t.item], InOrder(t.right));
      StripAppend(InOrder(cl), [Slot(q, t.item.item)]);
      StripAppend(InOrder(cl) + [Slot(q, t.item.item)], InOrder(cr));
      assert Strip([Slot(q, t.item.item)]) == Strip([t.item]);
      TellsAppend(base, g, InOrder(t.left), InOrder(cl), [t.item], [Slot(q, t.item.item)]);
      TellsAppend(base, g, InOrder(t.left) + [t.item], InOrder(cl) + [Slot(q, t.item.item)], InOrder(t.right), InOrder(cr));
    }
  }

  ghost predicate Tells<T>(base: nat, g: seq<Tree<Slot<T>>>, s: seq<Slot<T>>, c: seq<Slot<T>>) {
    |c| == |s| && forall k :: 0 <= k < |c| ==>
      base <= c[k].at < base + |g| && g[c[k].at - base].Node? && g[c[k].at - base].item == s[k]
  }

  lemma TellsAppend<T>(base: nat, g: seq<Tree<Slot<T>>>, a: seq<Slot<T>>, ca: seq<Slot<T>>, b: seq<Slot<T>>, cb: seq<Slot<T>>)
    requires Tells(base, g, a, ca) && Tells(base, g, b, cb)
    ensures Tells(base, g, a + b, ca + cb)
  {
  }

  lemma TellsDistinct<T>(base: nat, g: seq<Tree<Slot<T>>>, s: seq<Slot<T>>, c: seq<Slot<T>>)
    requires Tells(base, g, s, c) && Distinct(s)
    ensures Distinct(c)
  {
    forall i: nat, j: nat | i < j < |c| ensures Differ(c, i, j) { assert Differ(s, i, j); }
  }

  lemma {:induction false} CountAts<T>(s: seq<Slot<T>>)
    requires Distinct(s)
    ensures |Ats(s)| == |s|
  {
    if s != [] {
      var p, x := s[..|s| - 1], s[|s| - 1];
      assert s == p + [x];
      OneMoreAt(p, x);
      CountAts(p);
    }
  }

  lemma OneMoreAt<T>(p: seq<Slot<T>>, x: Slot<T>)
    requires Distinct(p + [x])
    ensures Distinct(p) && Ats(p + [x]) == Ats(p) + {x.at} && x.at !in Ats(p)
  {
    DistinctSplit(p, [x]);
    AtsOf(p, [x]);
    assert x.at in Ats([x]) && Ats([x]) == {x.at};
  }

  /** Distinct places in a range of the same size fill it. */
  lemma Fill<T>(base: nat, n: nat, c: seq<Slot<T>>, range: set<nat>)
    requires Distinct(c) && |c| == n && forall x :: x in c ==> base <= x.at < base + n
    requires forall q :: q in range <==> base <= q < base + n
    ensures Ats(c) == range && |range| == n
  {
    CountAts(c);
    RangeSize(base, n, range);
    Subset(Ats(c), range);
  }

  lemma Subset(a: set<nat>, b: set<nat>)
    requires a <= b && |a| == |b|
    ensures a == b
  {
    if x :| x in b && x !in a {
      assert a <= b - {x};
      SmallerSet(a, b - {x});
    }
  }

  lemma {:induction false} SmallerSet(a: set<nat>, b: set<nat>)
    requires a <= b
    ensures |a| <= |b|
    decreases a
  {
    if a != {} {
      var x :| x in a;
      SmallerSet(a - {x}, b - {x});
    }
  }

  lemma {:induction false} RangeSize(base: nat, n: nat, all: set<nat>)
    requires forall q :: q in all <==> base <= q < base + n
    ensures |all| == n
    decreases n
  {
    if n > 0 {
      RangeSize(base, n - 1, all - {base + n - 1});
    } else {
      assert all == {};
    }
  }

  /** When every copy has been scanned, the copies are a search tree of the same form
      and nothing else. */
  lemma Compacted<T(!new)>(cmp: (T, T) -> int, m: Memory<T>, t: Tree<Slot<T>>, base: nat, g: seq<Tree<Slot<T>>>, to: Memory<T>, q: nat)
    requires TotalOrder(cmp) && Search(OnItems(cmp), t) && Distinct(InOrder(t)) && base > 0
    requires Copying(base, g, m, to, |g|) && CopyAt(base, g, q, t) && |g| == |InOrder(t)|
    ensures var u := Copied(to, q, t);
            && SameForm(t, u) && Strip(InOrder(u)) == Strip(InOrder(t))
            && Sound(cmp, to, q, u, 0, [], base + |g|) && to.Keys == Ats(InOrder(u)) && |to.Keys| == |g|
  {
    var u := Copied(to, q, t);
    CopiedTree(base, g, m, to, q, t);
    TellsDistinct(base, g, InOrder(t), InOrder(u));
    Fill(base, |g|, InOrder(u), to.Keys);
    SameOrder(cmp, InOrder(t), InOrder(u));
  }

  lemma SameOrder<T>(cmp: (T, T) -> int, s: seq<Slot<T>>, c: seq<Slot<T>>)
    requires Sorted(OnItems(cmp), s) && Strip(c) == Strip(s)
    ensures Sorted(OnItems(cmp), c)
  {
    forall i: nat, j: nat | i < j < |c| ensures Less(OnItems(cmp), c, i, j) {
      assert Strip(c)[i] == Strip(s)[i] && Strip(c)[j] == Strip(s)[j];
      assert Less(OnItems(cmp), s, i, j);
    }
  }

  /** Copies one scanned node's children. */
  method ScanNode<T>(m: Memory<T>, to: Memory<T>, next: nat, ghost base: nat, ghost g: seq<Tree<Slot<T>>>, scan: nat,
                      ghost q0: nat, ghost t0: Tree<Slot<T>>)
      returns (to': Memory<T>, next': nat, ghost g': seq<Tree<Slot<T>>>)
    requires base <= scan < base + |g| && Copying(base, g, m, to, scan - base) && next == base + |g| && base > 0
    requires CopyAt(base, g, q0, t0)
    ensures |g| <= |g'| && next' == base + |g'| && CopyAt(base, g', q0, t0)
    ensures Copying(base, g', m, to', scan - base + 1)
    ensures |g'| + Ahead(g', scan - base + 1) == |g| + Ahead(g, scan - base)
  {
    hide Copying, CopyAt, Kids, InOrder;
    ghost var done := scan - base;
    ScanReady(base, g, m, to, done);
    ghost var t := g[done];
    var cell, left, right := to[scan], 0, 0;
    to', next', left := Forward(m, to, next, cell.child.left, base, g, done, t.left);
    ghost var g1 := Grown(g, t.left);
    to', next', right := Forward(m, to', next', cell.child.right, base, g1, done, t.right);
    g' := Grown(g1, t.right);
    ScanDone(base, g, g1, g', m, to, to', done, left, right);
    StillCopy(base, g, g', q0, t0);
    to' := SetChildren(to', scan, Two(left, right));
  }

  lemma ScanReady<T>(base: nat, g: seq<Tree<Slot<T>>>, m: Memory<T>, to: Memory<T>, done: nat)
    requires Copying(base, g, m, to, done) && done < |g|
    ensures base + done in to && g[done].Node?
    ensures var c := to[base + done].child; Shape(m, c.left, g[done].left) && Shape(m, c.right, g[done].right)
  {
    assert Unscanned(base, g, m, to, done);
  }

  lemma ScanDone<T>(base: nat, g: seq<Tree<Slot<T>>>, g1: seq<Tree<Slot<T>>>, g': seq<Tree<Slot<T>>>, m: Memory<T>, to: Memory<T>, to': Memory<T>,
                    done: nat, l: nat, r: nat)
    requires Copying(base, g, m, to, done) && Copying(base, g', m, to', done) && done < |g| && g[done].Node?
    requires g1 == Grown(g, g[done].left) && g' == Grown(g1, g[done].right)
    requires CopyAt(base, g1, l, g[done].left) && CopyAt(base, g', r, g[done].right)
    ensures |g| <= |g'| && g'[..|g|] == g
    ensures base + done in to' && Copying(base, g', m, SetChildren(to', base + done, Two(l, r)), done + 1)
    ensures Ahead(g', done) == |InOrder(g[done].left)| + |InOrder(g[done].right)| + Ahead(g', done + 1)
  {
    assert g'[..|g|] == g1[..|g|] == g;
    assert g'[done] == g[done];
    GrownCopy(base, g1, l, g[done].left, g[done].right);
    ScanOne(base, g, g', m, to, to', done, l, r);
    AheadFirst(g', done);
  }

  lemma NoCopies<T>(base: nat, m: Memory<T>, t: Tree<Slot<T>>)
    ensures Copying(base, [], m, map[], 0) && Ahead<T>([], 0) == 0
  {
  }

  lemma StillCopy<T>(base: nat, g: seq<Tree<Slot<T>>>, g': seq<Tree<Slot<T>>>, q: nat, t: Tree<Slot<T>>)
    requires CopyAt(base, g, q, t) && |g| <= |g'| && g'[..|g|] == g
    ensures CopyAt(base, g', q, t)
  {
    assert forall i :: 0 <= i < |g| ==> g'[i] == g[i];
  }

  /** The copying loop. */
  method CopyAll<T>(m: Memory<T>, root: nat, base: nat, ghost t: Tree<Slot<T>>)
      returns (to: Memory<T>, next: nat, q: nat, ghost g: seq<Tree<Slot<T>>>)
    requires Shape(m, root, t) && base > 0
    ensures Copying(base, g, m, to, |g|) && CopyAt(base, g, q, t) && |g| == |InOrder(t)| && next == base + |g|
  {
    hide Copying, CopyAt, Shape, InOrder, Ahead, Kids, Grown;
    g := [];
    to, next, q := map[], base, 0;
    NoCopies(base, m, t);
    to, next, q := Forward(m, to, next, root, base, g, 0, t);
    g := Grown(g, t);
    var scan := base;
    while scan < next
      invariant base <= scan <= next == base + |g|
      invariant Copying(base, g, m, to, scan - base) && CopyAt(base, g, q, t)
      invariant |g| + Ahead(g, scan - base) == |InOrder(t)|
      decreases |InOrder(t)| - (scan - base)
    {
      to, next, g := ScanNode(m, to, next, base, g, scan, q, t);
      scan := scan + 1;
    }
    NoneAhead(g);
  }

  lemma NoneAhead<T>(g: seq<Tree<Slot<T>>>)
    ensures Ahead(g, |g|) == 0
  {
  }

  /** Every node is copied once, into fresh chunks; the old chunks, and with them the
      free list, are given up. */
  method Compact<T(!new)>(tree: NodeTree<T>)
    requires tree.Valid()
    modifies tree
    ensures tree.Valid() && SameForm(old(tree.tree), tree.tree) && tree.Items() == old(tree.Items())
    ensures tree.free == [] && tree.mem.Keys == Ats(InOrder(tree.tree)) && |tree.mem.Keys| == |old(tree.Items())|
    ensures tree.mem.Keys !! old(tree.mem.Keys)
  {
    ghost var t := tree.tree;
    var to, next, q;
    ghost var g;
    to, next, q, g := CopyAll(tree.mem, tree.root, tree.unused, t);
    Compacted(tree.cmp, tree.mem, t, tree.unused, g, to, q);
    tree.Replace(to, q, next, Copied(to, q, t));
  }
}
