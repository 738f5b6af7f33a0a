/** The splay tree: a search that rewires the nodes on its way, and the operations
    on top of it. */
module SplayTree {
  import opened Splay
  import opened SplayNodes

  /** Only child fields of the nodes at `ats` have changed. */
  ghost predicate Rewired<T>(m: Memory<T>, m': Memory<T>, ats: set<nat>) {
    && m'.Keys == m.Keys
    && (forall q :: q in m ==> m'[q].item == m[q].item && m'[q].back == m[q].back)
    && (forall q :: q in m && q !in ats ==> m'[q] == m[q])
  }

  /** The state of a search for k in t0, which stood in m0. */
  ghost predicate Searching<T(!new)>(cmp: (T, T) -> int, k: T, m0: Memory<T>, t0: Tree<Slot<T>>,
                                     m: Memory<T>, res: Two<nat>, p: nat, cs: Two<seq<Frame<Slot<T>>>>, t: Tree<Slot<T>>) {
    && Rewired(m0, m, Ats(InOrder(t0)))
    && Held(m, res, p, cs, t)
    && Parts(cs.left, t, cs.right) == InOrder(t0)
    && Splits(OnItems(cmp), Slot(0, k), cs.left, t, cs.right)
  }

  /** A search has ended: the focus has the key, or no child on its side. */
  ghost predicate Ended<T(!new)>(cmp: (T, T) -> int, k: T, n: int, t: Tree<Slot<T>>) {
    t.Node? && n == cmp(k, t.item.item) && (n < 0 ==> t.left == Nil) && (n > 0 ==> t.right == Nil)
  }

  /** How many nodes a search for k passes. */
  function PathLength<T>(cmp: (T, T) -> int, k: T, t: Tree<Slot<T>>): nat {
    if t == Nil then 0
    else
      var n := cmp(k, t.item.item);
      1 + if n == 0 then 0 else PathLength(cmp, k, Sub(t, DirOf(n)))
  }

  /** The part of the path that is behind takes up to half its length on each side; one
      more on the side where the last node was hung without a rotation, because then the
      search turns to the other side. */
  ghost predicate HalfBehind<T>(length: nat, ahead: nat, n: int, cs: Two<seq<Frame<Slot<T>>>>) {
    && ahead <= length
    && 2 * |cs.left| <= length - ahead + (if n != 0 && DirOf(n) == RIGHT then 0 else 1)
    && 2 * |cs.right| <= length - ahead + (if n != 0 && DirOf(n) == LEFT then 0 else 1)
  }

  /** A rotation and a link take two nodes off the path and hang one. */
  lemma HalfRotated<T>(cmp: (T, T) -> int, k: T, length: nat, n: int, cs: Two<seq<Frame<Slot<T>>>>, t: Tree<Slot<T>>, d: Dir)
    requires t.Node? && Sub(t, d).Node? && n == cmp(k, t.item.item) && n != 0 && DirOf(n) == d
    requires var n1 := cmp(k, Sub(t, d).item.item); n1 != 0 && DirOf(n1) == d
    requires HalfBehind(length, PathLength(cmp, k, t), n, cs)
    ensures PathLength(cmp, k, t) == 2 + PathLength(cmp, k, Sub(Sub(t, d), d))
    ensures forall n2 :: HalfBehind(length, PathLength(cmp, k, Sub(Sub(t, d), d)), n2, Linked(cs, Rotated(t, d), d))
    ensures 2 * |cs.left| <= length && 2 * |cs.right| <= length
  {
  }

  lemma HalfLinked<T>(cmp: (T, T) -> int, k: T, length: nat, n: int, cs: Two<seq<Frame<Slot<T>>>>, t: Tree<Slot<T>>, d: Dir)
    requires t.Node? && Sub(t, d).Node? && n == cmp(k, t.item.item) && n != 0 && DirOf(n) == d
    requires HalfBehind(length, PathLength(cmp, k, t), n, cs)
    ensures var n1 := cmp(k, Sub(t, d).item.item);
            n1 == 0 || DirOf(n1) != d ==> HalfBehind(length, PathLength(cmp, k, Sub(t, d)), n1, Linked(cs, t, d))
  {
  }

  lemma PathAhead<T>(cmp: (T, T) -> int, k: T, t: Tree<Slot<T>>)
    requires t.Node?
    ensures PathLength(cmp, k, t) > 0
  {
  }

  lemma FocusShape<T>(m: Memory<T>, p: nat, t: Tree<Slot<T>>, d: Dir)
    requires Shape(m, p, t) && t.Node?
    ensures p != 0 && p in m && m[p].item == t.item.item && Shape(m, m[p].child.At(d), Sub(t, d))
    ensures m[p].child.At(d) == 0 <==> Sub(t, d) == Nil
    ensures var c := m[p].child.At(d); c != 0 ==> c in m && m[c].item == Sub(t, d).item.item
  {
  }

  lemma RewiredMore<T>(m0: Memory<T>, m: Memory<T>, ats: set<nat>, p: nat, d: Dir, v: nat)
    requires Rewired(m0, m, ats) && p in m && p in ats
    ensures Rewired(m0, SetChild(m, p, d, v), ats)
  {
  }

  lemma SameParts<T(!new)>(cmp: (T, T) -> int, k: T, cs: Two<seq<Frame<T>>>, t: Tree<T>, t': Tree<T>)
    requires Splits(cmp, k, cs.left, t, cs.right) && InOrder(t') == InOrder(t)
    ensures Splits(cmp, k, cs.left, t', cs.right) && Parts(cs.left, t', cs.right) == Parts(cs.left, t, cs.right)
  {
  }

  lemma RotateStep<T(!new)>(cmp: (T, T) -> int, k: T, m0: Memory<T>, t0: Tree<Slot<T>>,
                            m: Memory<T>, res: Two<nat>, p: nat, cs: Two<seq<Frame<Slot<T>>>>, t: Tree<Slot<T>>, d: Dir)
    requires Searching(cmp, k, m0, t0, m, res, p, cs, t) && t.Node? && Sub(t, d).Node?
    ensures p in m && m[p].child.At(d) in m
    ensures Searching(cmp, k, m0, t0, RotateStores(m, p, d), res, m[p].child.At(d), cs, Rotated(t, d))
    ensures Rotated(t, d).Node? && Sub(Rotated(t, d), d) == Sub(Sub(t, d), d) && Rotated(t, d).item == Sub(t, d).item
  {
    Apart(cs, t, d);
    RotateHeld(m, res, p, cs, t, d);
    RotateKeepsItems(t, d);
    SameParts(OnItems(cmp), Slot(0, k), cs, t, Rotated(t, d));
    var c, ats := m[p].child.At(d), Ats(InOrder(t0));
    assert p in ats && c in ats;
    RewiredMore(m0, m, ats, p, d, m[c].child.At(Opp(d)));
    RewiredMore(m0, SetChild(m, p, d, m[c].child.At(Opp(d))), ats, c, Opp(d), p);
  }

  lemma LinkSplits<T(!new)>(cmp: (T, T) -> int, k: T, cs: Two<seq<Frame<T>>>, t: Tree<T>, d: Dir)
    requires TotalOrder(cmp) && Splits(cmp, k, cs.left, t, cs.right) && t.Node?
    requires var n := cmp(k, t.item); n != 0 && DirOf(n) == d
    ensures var cs' := Linked(cs, t, d); Splits(cmp, k, cs'.left, Sub(t, d), cs'.right)
  {
    if d == LEFT { LinkRight(cmp, k, cs.left, t, cs.right); } else { LinkLeft(cmp, k, cs.left, t, cs.right); }
  }

  lemma LinkStep<T(!new)>(cmp: (T, T) -> int, k: T, m0: Memory<T>, t0: Tree<Slot<T>>,
                          m: Memory<T>, res: Two<nat>, p: nat, cs: Two<seq<Frame<Slot<T>>>>, t: Tree<Slot<T>>, d: Dir)
    requires TotalOrder(cmp) && Searching(cmp, k, m0, t0, m, res, p, cs, t) && t.Node?
    requires var n := cmp(k, t.item.item); n != 0 && DirOf(n) == d
    ensures var o := Opp(d);
            var hole := Top(cs.At(o));
            && p in m && (hole == 0 || hole in m)
            && var w := FillHole(o, m, hole, res.At(o), p);
               Searching(cmp, k, m0, t0, w.0, res.Put(o, w.1), m[p].child.At(d), Linked(cs, t, d), Sub(t, d))
    ensures Top(Linked(cs, t, d).At(Opp(d))) == p
  {
    OnItemsOrder(cmp);
    LinkHeld(m, res, p, cs, t, d);
    var hole := Top(cs.At(Opp(d)));
    if hole != 0 { RewiredMore(m0, m, Ats(InOrder(t0)), hole, d, p); }
    LinkParts(cs, t, d);
    LinkSplits(OnItems(cmp), Slot(0, k), cs, t, d);
  }

  // ------------------------------------------------------------- ownership of nodes

  /** The nodes of the free list, linked by their back pointers. */
  ghost predicate FreeList<T>(m: Memory<T>, p: nat, fs: seq<nat>)
    decreases |fs|
  {
    if fs == [] then p == 0
    else p == fs[0] && p != 0 && p in m && m[p].back.ToNode? && FreeList(m, m[p].back.p, fs[1..])
  }

  lemma {:induction false} FreeFrame<T>(m: Memory<T>, m': Memory<T>, p: nat, fs: seq<nat>)
    requires FreeList(m, p, fs) && forall q :: q in fs && q in m ==> q in m' && m'[q].back == m[q].back
    ensures FreeList(m', p, fs)
    decreases |fs|
  {
    if fs != [] { FreeFrame(m, m', m[p].back.p, fs[1..]); }
  }

  ghost function Elems(fs: seq<nat>): set<nat> { set q | q in fs }

  ghost predicate NoDup(fs: seq<nat>) { forall i, j :: 0 <= i < j < |fs| ==> fs[i] != fs[j] }

  /** Every node is either in the tree or in the free list. */
  ghost predicate Owned<T>(m: Memory<T>, root: nat, t: Tree<Slot<T>>, head: nat, fs: seq<nat>) {
    && Shape(m, root, t) && Distinct(InOrder(t))
    && FreeList(m, head, fs) && NoDup(fs)
    && m.Keys == Ats(InOrder(t)) + Elems(fs) && Ats(InOrder(t)) !! Elems(fs)
  }

  /** A search tree that owns the nodes up to `unused`. */
  ghost predicate Sound<T(!new)>(cmp: (T, T) -> int, m: Memory<T>, root: nat, t: Tree<Slot<T>>, head: nat, fs: seq<nat>, unused: nat) {
    && TotalOrder(cmp) && Owned(m, root, t, head, fs) && Search(OnItems(cmp), t)
    && unused > 0 && (forall q :: q in m ==> 0 < q < unused)
  }

  /** The items of a tree, without their places. */
  function Strip<T>(s: seq<Slot<T>>): (r: seq<T>)
    ensures |r| == |s|
  {
    seq(|s|, i requires 0 <= i < |s| => s[i].item)
  }

  lemma {:induction false} StripBelow<T>(cmp: (T, T) -> int, s: seq<Slot<T>>, k: Slot<T>)
    ensures Strip(Below(OnItems(cmp), s, k)) == Below(cmp, Strip(s), k.item)
    ensures Strip(Above(OnItems(cmp), s, k)) == Above(cmp, Strip(s), k.item)
  {
    if s != [] {
      var q := s[..|s| - 1];
      StripBelow(cmp, q, k);
      assert Strip(s)[..|s| - 1] == Strip(q);
    }
  }

  lemma StripAppend<T>(a: seq<Slot<T>>, b: seq<Slot<T>>)
    ensures Strip(a + b) == Strip(a) + Strip(b)
  {
  }

  lemma StripHas<T>(cmp: (T, T) -> int, s: seq<Slot<T>>, k: Slot<T>)
    ensures HasKey(OnItems(cmp), s, k) <==> HasKey(cmp, Strip(s), k.item)
  {
    if x :| x in s && OnItems(cmp)(k, x) == 0 {
      var i :| 0 <= i < |s| && s[i] == x;
      assert Strip(s)[i] == x.item && x.item in Strip(s);
    }
    if y :| y in Strip(s) && cmp(k.item, y) == 0 {
      var i :| 0 <= i < |s| && Strip(s)[i] == y;
      assert s[i] in s && OnItems(cmp)(k, s[i]) == 0;
    }
  }

  /** Where the search ends it is known whether the key is in the tree. */
  lemma SearchTells<T(!new)>(cmp: (T, T) -> int, k: T, m0: Memory<T>, t0: Tree<Slot<T>>,
                             m: Memory<T>, n: int, res: Two<nat>, p: nat, cs: Two<seq<Frame<Slot<T>>>>, t: Tree<Slot<T>>)
    requires TotalOrder(cmp) && Searching(cmp, k, m0, t0, m, res, p, cs, t) && Ended(cmp, k, n, t)
    ensures n == 0 <==> HasKey(cmp, Strip(InOrder(t0)), k)
  {
    OnItemsOrder(cmp);
    FocusCut(OnItems(cmp), Slot(0, k), cs.left, t, cs.right);
    StripHas(cmp, InOrder(t0), Slot(0, k));
  }

  // -------------------------------------------------- lemmas about the operations

  /** Storing p's children changes the search's own nodes only. */
  lemma AssembleRewired<T>(m: Memory<T>, res: Two<nat>, p: nat, cs: Two<seq<Frame<Slot<T>>>>, t: Tree<Slot<T>>)
    requires Held(m, res, p, cs, t) && t.Node?
    ensures p in m && forall o :: Tops(cs).At(o) == 0 || Tops(cs).At(o) in m
    ensures Rewired(m, AssembleStores(m, res, Tops(cs), p), Around(cs, p))
  {
    HolesIn(m, res, p, cs, t);
  }

  /** The nodes that assemble may change. */
  ghost function Around<T>(cs: Two<seq<Frame<Slot<T>>>>, p: nat): set<nat> {
    Ats(CtxItems(LEFT, cs.left)) + {p} + Ats(CtxItems(RIGHT, cs.right))
  }

  lemma RewiredTrans<T>(m0: Memory<T>, m1: Memory<T>, m2: Memory<T>, a: set<nat>, b: set<nat>)
    requires Rewired(m0, m1, a) && Rewired(m1, m2, b)
    ensures Rewired(m0, m2, a + b)
  {
  }

  lemma RewiredWider<T>(m0: Memory<T>, m1: Memory<T>, a: set<nat>, b: set<nat>)
    requires Rewired(m0, m1, a) && a <= b
    ensures Rewired(m0, m1, b)
  {
  }

  /** Rewiring keeps the nodes of the free list, and every node where it was. */
  lemma StillOwned<T>(m: Memory<T>, m': Memory<T>, ats: set<nat>, root: nat, t: Tree<Slot<T>>, root': nat, t': Tree<Slot<T>>, head: nat, fs: seq<nat>)
    requires Owned(m, root, t, head, fs) && Rewired(m, m', ats)
    requires Shape(m', root', t') && InOrder(t') == InOrder(t)
    ensures Owned(m', root', t', head, fs)
  {
    FreeFrame(m, m', head, fs);
  }

  lemma DistinctWithout<T>(a: seq<Slot<T>>, x: Slot<T>, b: seq<Slot<T>>)
    requires Distinct(a + [x] + b)
    ensures Distinct(a + b) && x.at !in Ats(a + b) && Ats(a + [x] + b) == Ats(a + b) + {x.at}
  {
    var s, t := a + [x] + b, a + b;
    forall i: nat, j: nat | i < j < |t| ensures Differ(t, i, j) {
      var i', j' := if i < |a| then i else i + 1, if j < |a| then j else j + 1;
      assert t[i] == s[i'] && t[j] == s[j'] && Differ(s, i', j');
    }
    AtsOf(a + [x], b);
    AtsOf(a, [x]);
    AtsOf(a, b);
    DistinctSplit(a + [x], b);
    DistinctSplit(a, [x]);
    assert x.at in Ats([x]) && Ats([x]) == {x.at};
  }

  lemma DistinctWith<T>(a: seq<Slot<T>>, x: Slot<T>, b: seq<Slot<T>>)
    requires Distinct(a + b) && x.at !in Ats(a + b)
    ensures Distinct(a + [x] + b) && Ats(a + [x] + b) == Ats(a + b) + {x.at}
  {
    var s, t := a + [x] + b, a + b;
    forall i: nat, j: nat | i < j < |s| ensures Differ(s, i, j) {
      var i', j' := if i < |a| then i else i - 1, if j < |a| then j else j - 1;
      if i == |a| {
        assert s[j] == t[j'] && t[j'].at in Ats(t);
      } else if j == |a| {
        assert s[i] == t[i'] && t[i'].at in Ats(t);
      } else {
        assert s[i] == t[i'] && s[j] == t[j'] && Differ(t, i', j');
      }
    }
    AtsOf(a + [x], b);
    AtsOf(a, [x]);
    AtsOf(a, b);
    assert Ats([x]) == {x.at};
  }

  /** In join, the right subtree hangs below the largest node on the left. */
  lemma JoinHeld<T>(m: Memory<T>, res: Two<nat>, q: nat, cs: Two<seq<Frame<Slot<T>>>>, f: Tree<Slot<T>>, v: nat, right: Tree<Slot<T>>)
    requires Held(m, res, q, cs, f) && f.Node? && f.right == Nil && cs.right == [] && Shape(m, v, right)
    requires Distinct(Parts(cs.left, f, []) + InOrder(right))
    ensures q in m && Held(SetChild(m, q, RIGHT, v), res, q, cs, Node(f.left, f.item, right))
    ensures Parts(cs.left, Node(f.left, f.item, right), []) == Parts(cs.left, f, []) + InOrder(right)
  {
    JoinItems(cs.left, f, right);
    Apart(cs, f, LEFT);
    TreeApart(f);
    DistinctSplit(Parts(cs.left, f, []), InOrder(right));
    var m' := SetChild(m, q, RIGHT, v);
    ShapeFrame(m, m', m[q].child.left, f.left);
    ShapeFrame(m, m', v, right);
    CtxFrame(LEFT, m, m', cs.left, res.left);
  }

  lemma JoinedParts<T>(cs: Two<seq<Frame<Slot<T>>>>, t: Tree<Slot<T>>, u: Tree<Slot<T>>)
    requires Distinct(Parts(cs.left, t, cs.right)) && t.Node? && InOrder(u) == InOrder(t.left) + InOrder(t.right)
    ensures Distinct(Parts(cs.left, u, cs.right))
    ensures Ats(Parts(cs.left, t, cs.right)) == Ats(Parts(cs.left, u, cs.right)) + {t.item.at}
    ensures t.item.at !in Ats(Parts(cs.left, u, cs.right))
  {
    var a, b := LeftItems(cs.left) + InOrder(t.left), InOrder(t.right) + RightItems(cs.right);
    Regroup(LeftItems(cs.left), InOrder(t.left), [t.item], InOrder(t.right), RightItems(cs.right));
    assert Parts(cs.left, t, cs.right) == a + [t.item] + b;
    DistinctWithout(a, t.item, b);
    Halves(LeftItems(cs.left), InOrder(t.left), InOrder(t.right), RightItems(cs.right));
  }

  /** The joined subtrees take the place of the focus. */
  lemma JoinedHeld<T>(m: Memory<T>, m': Memory<T>, res: Two<nat>, p: nat, cs: Two<seq<Frame<Slot<T>>>>, t: Tree<Slot<T>>, q: nat, u: Tree<Slot<T>>)
    requires Held(m, res, p, cs, t) && t.Node? && Rewired(m, m', Ats(InOrder(t.left)))
    requires Shape(m', q, u) && InOrder(u) == InOrder(t.left) + InOrder(t.right)
    ensures Held(m', res, q, cs, u)
  {
    Apart(cs, t, LEFT);
    TreeApart(t);
    var ats := Ats(InOrder(t.left));
    assert Ats(CtxItems(LEFT, cs.left)) !! ats && Ats(CtxItems(RIGHT, cs.right)) !! ats;
    RewiredKept(m, m', ats, Ats(CtxItems(LEFT, cs.left)));
    RewiredKept(m, m', ats, Ats(CtxItems(RIGHT, cs.right)));
    CtxFrame(LEFT, m, m', cs.left, res.left);
    CtxFrame(RIGHT, m, m', cs.right, res.right);
    JoinedParts(cs, t, u);
  }

  lemma RewiredKept<T>(m: Memory<T>, m': Memory<T>, a: set<nat>, b: set<nat>)
    requires Rewired(m, m', a) && a !! b
    ensures Kept(m, m', b)
  {
  }

  /** After splaying the left subtree of t at t's key: its largest node is the focus,
      and can take the right subtree. */
  lemma JoinReady<T(!new)>(cmp: (T, T) -> int, m0: Memory<T>, p: nat, t: Tree<Slot<T>>,
                           m: Memory<T>, n: int, q: nat, res: Two<nat>, cs: Two<seq<Frame<Slot<T>>>>, f: Tree<Slot<T>>)
    requires TotalOrder(cmp) && Shape(m0, p, t) && t.Node? && Distinct(InOrder(t)) && Search(OnItems(cmp), t)
    requires Searching(cmp, t.item.item, m0, t.left, m, res, q, cs, f) && Ended(cmp, t.item.item, n, f)
    ensures p in m && q in m && m[p] == m0[p]
    ensures f.right == Nil && cs.right == []
    ensures var u := Node(f.left, f.item, t.right);
            && Held(SetChild(m, q, RIGHT, m[p].child.right), res, q, cs, u)
            && InOrder(Assemble(u, cs.left, [])) == InOrder(t.left) + InOrder(t.right)
    ensures Around(cs, q) <= Ats(InOrder(t.left)) && q in Ats(InOrder(t.left))
  {
    OnItemsOrder(cmp);
    JoinAlone(OnItems(cmp), t, cs, f);
    TreeApart(t);
    DistinctWithout(InOrder(t.left), t.item, InOrder(t.right));
    RewiredKept(m0, m, Ats(InOrder(t.left)), Ats(InOrder(t.right)));
    ShapeFrame(m0, m, m0[p].child.right, t.right);
    Apart(cs, f, LEFT);
    TreeApart(f);
    JoinHeld(m, res, q, cs, f, m[p].child.right, t.right);
    AssembleItems(Node(f.left, f.item, t.right), cs.left, []);
  }

  lemma JoinAlone<T(!new)>(cmp: (Slot<T>, Slot<T>) -> int, t: Tree<Slot<T>>, cs: Two<seq<Frame<Slot<T>>>>, f: Tree<Slot<T>>)
    requires TotalOrder(cmp) && t.Node? && Search(cmp, t) && f.Node? && Parts(cs.left, f, cs.right) == InOrder(t.left)
    requires After(cmp, RightItems(cs.right), t.item) && (cmp(t.item, f.item) > 0 ==> f.right == Nil)
    ensures f.right == Nil && cs.right == []
  {
    NothingAfter(cmp, t, cs.left, f, cs.right);
  }

  lemma RewiredNothing<T>(m: Memory<T>, m': Memory<T>)
    requires Rewired(m, m', {})
    ensures m' == m
  {
  }

  function SetBack<T>(m: Memory<T>, p: nat, b: Back): Memory<T>
    requires p in m
  {
    m[p := m[p].(back := b)]
  }

  lemma FreeMore<T>(m: Memory<T>, m': Memory<T>, head: nat, fs: seq<nat>, p: nat)
    requires FreeList(m, head, fs) && NoDup(fs) && p !in fs && p != 0 && p in m' && m'[p].back == ToNode(head)
    requires forall q :: q in fs && q in m ==> q in m' && m'[q].back == m[q].back
    ensures FreeList(m', p, [p] + fs) && NoDup([p] + fs) && Elems([p] + fs) == {p} + Elems(fs)
  {
    FreeFrame(m, m', head, fs);
    assert ([p] + fs)[1..] == fs;
  }

  /** The focus has been taken out of the tree and goes to the free list. */
  lemma TakenOut<T(!new)>(cmp: (T, T) -> int, m0: Memory<T>, r0: nat, t0: Tree<Slot<T>>, head: nat, fs: seq<nat>, unused: nat,
                          m: Memory<T>, p: nat, q: nat, u: Tree<Slot<T>>)
    requires Sound(cmp, m0, r0, t0, head, fs, unused) && Rewired(m0, m, Ats(InOrder(t0))) && Shape(m, q, u)
    requires Distinct(InOrder(u)) && Search(OnItems(cmp), u)
    requires Ats(InOrder(t0)) == Ats(InOrder(u)) + {p} && p !in Ats(InOrder(u))
    ensures p in m && Sound(cmp, SetBack(m, p, ToNode(head)), q, u, p, [p] + fs, unused)
  {
    var m' := SetBack(m, p, ToNode(head));
    ShapeFrame(m, m', q, u);
    assert p !in Elems(fs);
    FreeMore(m0, m', head, fs, p);
  }

  lemma {:induction false} FreeAt<T>(m: Memory<T>, p: nat, fs: seq<nat>)
    requires FreeList(m, p, fs)
    ensures p != 0 <==> fs != []
    ensures forall q :: q in fs ==> q in m && q != 0
    decreases |fs|
  {
    if fs != [] {
      FreeAt(m, m[p].back.p, fs[1..]);
      assert fs == [p] + fs[1..];
    }
  }

  /** A key that is not in the tree: there is nothing to remove. */
  lemma NothingTaken<T(!new)>(cmp: (T, T) -> int, k: T, n: int, cs: Two<seq<Frame<Slot<T>>>>, t: Tree<Slot<T>>)
    requires TotalOrder(cmp) && Splits(OnItems(cmp), Slot(0, k), cs.left, t, cs.right) && Ended(cmp, k, n, t) && n != 0
    ensures var s := Strip(Parts(cs.left, t, cs.right)); Below(cmp, s, k) + Above(cmp, s, k) == s
  {
    var s := Parts(cs.left, t, cs.right);
    OnItemsOrder(cmp);
    KeptWhole(OnItems(cmp), Slot(0, k), cs.left, t, cs.right);
    WithoutKey(cmp, s, k, s);
  }

  lemma WithoutKey<T(!new)>(cmp: (T, T) -> int, s: seq<Slot<T>>, k: T, s': seq<Slot<T>>)
    requires TotalOrder(cmp) && Sorted(OnItems(cmp), s)
    requires s' == Below(OnItems(cmp), s, Slot(0, k)) + Above(OnItems(cmp), s, Slot(0, k))
    ensures Strip(s') == Below(cmp, Strip(s), k) + Above(cmp, Strip(s), k)
    ensures Sorted(OnItems(cmp), s')
  {
    OnItemsOrder(cmp);
    InsertSorted(OnItems(cmp), s, Slot(0, k));
    StripBelow(cmp, s, Slot(0, k));
    StripAppend(Below(OnItems(cmp), s, Slot(0, k)), Above(OnItems(cmp), s, Slot(0, k)));
  }

  /** A search has found its key at the focus. */
  ghost predicate FocusFound<T(!new)>(cmp: (T, T) -> int, k: T, m: Memory<T>, res: Two<nat>, p: nat, cs: Two<seq<Frame<Slot<T>>>>, t: Tree<Slot<T>>) {
    && TotalOrder(cmp) && TotalOrder(OnItems(cmp)) && Held(m, res, p, cs, t) && t.Node?
    && Splits(OnItems(cmp), Slot(0, k), cs.left, t, cs.right) && cmp(k, t.item.item) == 0
  }

  /** The nodes with other keys than k. */
  function Without<T>(cmp: (T, T) -> int, s: seq<Slot<T>>, k: T): seq<Slot<T>> {
    Below(OnItems(cmp), s, Slot(0, k)) + Above(OnItems(cmp), s, Slot(0, k))
  }

  lemma FocusAlone<T(!new)>(cmp: (T, T) -> int, k: T, m: Memory<T>, res: Two<nat>, p: nat, cs: Two<seq<Frame<Slot<T>>>>, t: Tree<Slot<T>>)
    requires FocusFound(cmp, k, m, res, p, cs, t)
    ensures Distinct(InOrder(t)) && Search(OnItems(cmp), t)
  {
    Apart(cs, t, LEFT);
    FocusSorted(OnItems(cmp), cs.left, t, cs.right);
  }

  lemma JoinedAts<T>(cs: Two<seq<Frame<Slot<T>>>>, t: Tree<Slot<T>>, q: nat, u: Tree<Slot<T>>)
    requires Distinct(Parts(cs.left, t, cs.right)) && t.Node? && u.Node? && q == u.item.at
    requires InOrder(u) == InOrder(t.left) + InOrder(t.right)
    ensures Ats(InOrder(t.left)) + Around(cs, q) <= Ats(Parts(cs.left, t, cs.right))
  {
    Apart(cs, t, LEFT);
    TreeApart(t);
    AtsOf(InOrder(t.left), InOrder(t.right));
    assert u.item in InOrder(u);
  }

  lemma RootAts<T>(cs: Two<seq<Frame<Slot<T>>>>, t: Tree<Slot<T>>, p: nat)
    requires Distinct(Parts(cs.left, t, cs.right)) && t.Node? && p == t.item.at
    ensures var u := Assemble(t, cs.left, cs.right);
            Distinct(InOrder(u)) && Around(cs, p) + Ats(InOrder(u.left)) <= Ats(Parts(cs.left, t, cs.right))
  {
    var u := Assemble(t, cs.left, cs.right);
    Apart(cs, t, LEFT);
    TreeApart(t);
    AssembleItems(t, cs.left, cs.right);
    TreeApart(u);
  }

  lemma FocusParts<T(!new)>(cmp: (T, T) -> int, k: T, cs: Two<seq<Frame<Slot<T>>>>, t: Tree<Slot<T>>)
    requires TotalOrder(OnItems(cmp)) && t.Node?
    requires Splits(OnItems(cmp), Slot(0, k), cs.left, t, cs.right) && OnItems(cmp)(Slot(0, k), t.item) == 0
    ensures var a, b := LeftItems(cs.left) + InOrder(t.left), InOrder(t.right) + RightItems(cs.right);
            var s := Parts(cs.left, t, cs.right);
            s == a + [t.item] + b && Without(cmp, s, k) == a + b
  {
    EqualCut(OnItems(cmp), Slot(0, k), cs.left, t, cs.right);
    Regroup(LeftItems(cs.left), InOrder(t.left), [t.item], InOrder(t.right), RightItems(cs.right));
  }

  lemma FocusGone<T(!new)>(cmp: (T, T) -> int, k: T, cs: Two<seq<Frame<Slot<T>>>>, t: Tree<Slot<T>>, u: Tree<Slot<T>>)
    requires TotalOrder(cmp) && Distinct(Parts(cs.left, t, cs.right)) && t.Node?
    requires Splits(OnItems(cmp), Slot(0, k), cs.left, t, cs.right) && cmp(k, t.item.item) == 0
    requires InOrder(u) == Without(cmp, Parts(cs.left, t, cs.right), k)
    ensures var s := Parts(cs.left, t, cs.right);
            && Distinct(InOrder(u)) && Search(OnItems(cmp), u)
            && Ats(s) == Ats(InOrder(u)) + {t.item.at} && t.item.at !in Ats(InOrder(u))
            && Strip(InOrder(u)) == Below(cmp, Strip(s), k) + Above(cmp, Strip(s), k)
  {
    var s := Parts(cs.left, t, cs.right);
    OnItemsOrder(cmp);
    FocusParts(cmp, k, cs, t);
    DistinctWithout(LeftItems(cs.left) + InOrder(t.left), t.item, InOrder(t.right) + RightItems(cs.right));
    WithoutKey(cmp, s, k, InOrder(u));
  }

  lemma SearchFound<T(!new)>(cmp: (T, T) -> int, k: T, m0: Memory<T>, t0: Tree<Slot<T>>,
                             m: Memory<T>, res: Two<nat>, p: nat, cs: Two<seq<Frame<Slot<T>>>>, t: Tree<Slot<T>>)
    requires TotalOrder(cmp) && Searching(cmp, k, m0, t0, m, res, p, cs, t) && Ended(cmp, k, 0, t)
    ensures FocusFound(cmp, k, m, res, p, cs, t) && Parts(cs.left, t, cs.right) == InOrder(t0)
  {
    OnItemsOrder(cmp);
  }

  lemma FocusDeleted<T(!new)>(cmp: (T, T) -> int, k: T, m0: Memory<T>, r0: nat, t0: Tree<Slot<T>>, head: nat, fs: seq<nat>, unused: nat,
                              m1: Memory<T>, m: Memory<T>, res: Two<nat>, p: nat, cs: Two<seq<Frame<Slot<T>>>>, t: Tree<Slot<T>>,
                              q: nat, u: Tree<Slot<T>>)
    requires Sound(cmp, m0, r0, t0, head, fs, unused)
    requires Searching(cmp, k, m0, t0, m1, res, p, cs, t) && Ended(cmp, k, 0, t)
    requires Rewired(m1, m, Ats(InOrder(t0))) && Shape(m, q, u) && InOrder(u) == Without(cmp, InOrder(t0), k)
    ensures p in m && cmp(k, m[p].item) == 0 && m.Keys == m0.Keys
    ensures Sound(cmp, SetBack(m, p, ToNode(head)), q, u, p, [p] + fs, unused)
    ensures Strip(InOrder(u)) == Below(cmp, Strip(InOrder(t0)), k) + Above(cmp, Strip(InOrder(t0)), k)
  {
    RewiredTrans(m0, m1, m, Ats(InOrder(t0)), Ats(InOrder(t0)));
    FocusGone(cmp, k, cs, t, u);
    TakenOut(cmp, m0, r0, t0, head, fs, unused, m, p, q, u);
    FocusShape(m1, p, t, LEFT);
  }

  // --------------------------------------------------------------------- insertion

  /** The new node takes the focus, which may be empty, as its only child. */
  function Placed<T>(n: int, s: Slot<T>, t: Tree<Slot<T>>): Tree<Slot<T>> {
    if n < 0 then Node(Nil, s, t) else Node(t, s, Nil)
  }

  function SetChildren<T>(m: Memory<T>, p: nat, c: Two<nat>): Memory<T>
    requires p in m
  {
    m[p := m[p].(child := c)]
  }

  function SetItem<T>(m: Memory<T>, p: nat, x: T): Memory<T>
    requires p in m
  {
    m[p := m[p].(item := x)]
  }

  lemma PlacedParts<T>(n: int, s: Slot<T>, cs: Two<seq<Frame<Slot<T>>>>, t: Tree<Slot<T>>)
    requires Distinct(Parts(cs.left, t, cs.right)) && s.at !in Ats(Parts(cs.left, t, cs.right))
    ensures var u := Placed(n, s, t);
            && Distinct(Parts(cs.left, u, cs.right))
            && Ats(Parts(cs.left, u, cs.right)) == Ats(Parts(cs.left, t, cs.right)) + {s.at}
  {
    var a, b, c := LeftItems(cs.left), InOrder(t), RightItems(cs.right);
    Between(a, s, b, c);
    if n < 0 {
      assert InOrder(Placed(n, s, t)) == [] + [s] + b;
      DistinctWith(a, s, b + c);
    } else {
      assert InOrder(Placed(n, s, t)) == b + [s] + [];
      DistinctWith(a + b, s, c);
    }
  }

  lemma Between<A>(a: seq<A>, s: A, b: seq<A>, c: seq<A>)
    ensures a + ([] + [s] + b) + c == a + [s] + (b + c)
    ensures a + (b + [s] + []) + c == (a + b) + [s] + c
    ensures a + b + c == a + (b + c)
  {
  }

  lemma PlacedHeld<T>(m: Memory<T>, res: Two<nat>, p: nat, cs: Two<seq<Frame<Slot<T>>>>, t: Tree<Slot<T>>, n: int, q: nat)
    requires Held(m, res, p, cs, t) && q != 0 && q in m && q !in Ats(Parts(cs.left, t, cs.right))
    ensures Held(SetChildren(m, q, Two(0, 0).Put(Opp(DirOf(n)), p)), res, q, cs, Placed(n, Slot(q, m[q].item), t))
  {
    var m' := SetChildren(m, q, Two(0, 0).Put(Opp(DirOf(n)), p));
    Apart(cs, t, LEFT);
    ShapeFrame(m, m', p, t);
    CtxFrame(LEFT, m, m', cs.left, res.left);
    CtxFrame(RIGHT, m, m', cs.right, res.right);
    PlacedParts(n, Slot(q, m[q].item), cs, t);
  }

  lemma GrownHeld<T>(m: Memory<T>, m': Memory<T>, res: Two<nat>, p: nat, cs: Two<seq<Frame<Slot<T>>>>, t: Tree<Slot<T>>, q: nat)
    requires Held(m, res, p, cs, t) && q !in Ats(Parts(cs.left, t, cs.right))
    requires forall x :: x in m && x != q ==> x in m' && m'[x] == m[x]
    ensures Held(m', res, p, cs, t)
  {
    Apart(cs, t, LEFT);
    ShapeFrame(m, m', p, t);
    CtxFrame(LEFT, m, m', cs.left, res.left);
    CtxFrame(RIGHT, m, m', cs.right, res.right);
  }

  lemma Added<T>(m0: Memory<T>, m: Memory<T>, res: Two<nat>, q: nat, cs: Two<seq<Frame<Slot<T>>>>, t: Tree<Slot<T>>, n: int, p: nat,
                 head: nat, fs: seq<nat>, unused: nat)
    requires Held(m0, res, q, cs, t) && p != 0 && p in m && p !in Ats(Parts(cs.left, t, cs.right))
    requires forall x :: x in m0 && x != p ==> x in m && m[x] == m0[x]
    requires Spare(m, Ats(Parts(cs.left, t, cs.right)) + {p}, head, fs, unused)
    ensures var m' := SetChildren(m, p, Two(0, 0).Put(Opp(DirOf(n)), q));
            var u := Placed(n, Slot(p, m[p].item), t);
            Held(m', res, p, cs, u) && Spare(m', Ats(Parts(cs.left, u, cs.right)), head, fs, unused)
  {
    GrownHeld(m0, m, res, q, cs, t, p);
    PlacedHeld(m, res, q, cs, t, n, p);
    PlacedParts(n, Slot(p, m[p].item), cs, t);
    var m' := SetChildren(m, p, Two(0, 0).Put(Opp(DirOf(n)), q));
    SpareFrame(m, m', Ats(Parts(cs.left, t, cs.right)) + {p}, head, fs, unused);
  }

  /** The root with another item in the same place. */
  function WithRoot<T>(t: Tree<Slot<T>>, k: T): (u: Tree<Slot<T>>)
    requires t.Node?
    ensures u.Node?
  {
    Node(t.left, Slot(t.item.at, k), t.right)
  }

  lemma OverwriteShape<T>(m: Memory<T>, p: nat, t: Tree<Slot<T>>, k: T)
    requires Shape(m, p, t) && t.Node? && Distinct(InOrder(t))
    ensures p in m && Shape(SetItem(m, p, k), p, WithRoot(t, k))
    ensures Distinct(InOrder(WithRoot(t, k))) && Ats(InOrder(WithRoot(t, k))) == Ats(InOrder(t))
  {
    TreeApart(t);
    var m' := SetItem(m, p, k);
    ShapeFrame(m, m', m[p].child.left, t.left);
    ShapeFrame(m, m', m[p].child.right, t.right);
    DistinctWithout(InOrder(t.left), t.item, InOrder(t.right));
    DistinctWith(InOrder(t.left), Slot(t.item.at, k), InOrder(t.right));
  }

  /** The nodes that are not at `ats` make up the free list. */
  ghost predicate Spare<T>(m: Memory<T>, ats: set<nat>, head: nat, fs: seq<nat>, unused: nat) {
    && FreeList(m, head, fs) && NoDup(fs) && m.Keys == ats + Elems(fs) && ats !! Elems(fs)
    && unused > 0 && forall q :: q in m ==> 0 < q < unused
  }

  lemma SpareFrame<T>(m: Memory<T>, m': Memory<T>, ats: set<nat>, head: nat, fs: seq<nat>, unused: nat)
    requires Spare(m, ats, head, fs, unused) && m'.Keys == m.Keys && forall q :: q in m ==> m'[q].back == m[q].back
    ensures Spare(m', ats, head, fs, unused)
  {
    FreeFrame(m, m', head, fs);
  }

  lemma StillSpare<T(!new)>(cmp: (T, T) -> int, k: T, m0: Memory<T>, r0: nat, t0: Tree<Slot<T>>, head: nat, fs: seq<nat>, unused: nat,
                            m: Memory<T>, res: Two<nat>, p: nat, cs: Two<seq<Frame<Slot<T>>>>, t: Tree<Slot<T>>)
    requires Sound(cmp, m0, r0, t0, head, fs, unused) && Searching(cmp, k, m0, t0, m, res, p, cs, t)
    ensures Spare(m, Ats(Parts(cs.left, t, cs.right)), head, fs, unused) && m.Keys == m0.Keys
  {
    FreeFrame(m0, m, head, fs);
  }

  /** Memory in which node q has joined, or stayed in, the tree that was t0. */
  lemma NowSound<T(!new)>(cmp: (T, T) -> int, m0: Memory<T>, m: Memory<T>, q: nat, u: Tree<Slot<T>>, ats: set<nat>,
                          head: nat, fs: seq<nat>, unused: nat)
    requires TotalOrder(cmp) && Search(OnItems(cmp), u) && Shape(m, q, u) && Distinct(InOrder(u)) && Ats(InOrder(u)) == ats
    requires Spare(m0, ats, head, fs, unused)
    requires m.Keys == m0.Keys && forall q :: q in m ==> m[q].back == m0[q].back
    ensures Sound(cmp, m, q, u, head, fs, unused)
  {
    FreeFrame(m0, m, head, fs);
  }

  /** A search has ended, or there was nothing to search. */
  ghost predicate Stopped<T(!new)>(cmp: (T, T) -> int, k: T, n: int, cs: Two<seq<Frame<Slot<T>>>>, t: Tree<Slot<T>>) {
    Ended(cmp, k, n, t) || (t == Nil && n == 1 && cs == Two([], []))
  }

  /** What becomes of the focus: it stays, or a new node takes its place. */
  function Newest<T>(n: int, s: Slot<T>, t: Tree<Slot<T>>): (u: Tree<Slot<T>>)
    requires n == 0 ==> t.Node?
    ensures u.Node?
  {
    if n == 0 then t else Placed(n, s, t)
  }

  /** What insertion leaves: the items below k, k, and the items above k. */
  lemma InsertedItems<T(!new)>(cmp: (T, T) -> int, k: T, n: int, cs: Two<seq<Frame<Slot<T>>>>, t: Tree<Slot<T>>, s: Slot<T>)
    requires TotalOrder(cmp) && Stopped(cmp, k, n, cs, t) && Splits(OnItems(cmp), Slot(0, k), cs.left, t, cs.right)
    ensures var u := WithRoot(Assemble(Newest(n, s, t), cs.left, cs.right), k);
            var items := Strip(Parts(cs.left, t, cs.right));
            Search(OnItems(cmp), u) && Strip(InOrder(u)) == Below(cmp, items, k) + [k] + Above(cmp, items, k)
  {
    var items := Parts(cs.left, t, cs.right);
    var x := Slot(if n == 0 then t.item.at else s.at, k);
    OnItemsOrder(cmp);
    SplitsAt(cmp, k, cs, t, x.at);
    if t == Nil {
      assert items == [];
      assert InOrder(WithRoot(Assemble(Newest(n, s, t), cs.left, cs.right), k)) == [x];
    } else {
      PlaceItems(OnItems(cmp), x, cs.left, t, cs.right);
      InsertSorted(OnItems(cmp), items, x);
    }
    StripInserted(cmp, items, x);
  }

  lemma StripInserted<T(!new)>(cmp: (T, T) -> int, s: seq<Slot<T>>, x: Slot<T>)
    ensures Strip(Below(OnItems(cmp), s, x) + [x] + Above(OnItems(cmp), s, x))
         == Below(cmp, Strip(s), x.item) + [x.item] + Above(cmp, Strip(s), x.item)
  {
    StripBelow(cmp, s, x);
    StripAppend(Below(OnItems(cmp), s, x), [x]);
    StripAppend(Below(OnItems(cmp), s, x) + [x], Above(OnItems(cmp), s, x));
  }

  lemma SplitsAt<T(!new)>(cmp: (T, T) -> int, k: T, cs: Two<seq<Frame<Slot<T>>>>, t: Tree<Slot<T>>, q: nat)
    requires Splits(OnItems(cmp), Slot(0, k), cs.left, t, cs.right)
    ensures Splits(OnItems(cmp), Slot(q, k), cs.left, t, cs.right)
  {
    forall x | x in LeftItems(cs.left) ensures OnItems(cmp)(Slot(q, k), x) > 0 {
      assert OnItems(cmp)(Slot(0, k), x) > 0;
    }
    forall x | x in RightItems(cs.right) ensures OnItems(cmp)(Slot(q, k), x) < 0 {
      assert OnItems(cmp)(Slot(0, k), x) < 0;
    }
  }

  lemma StoppedTells<T(!new)>(cmp: (T, T) -> int, k: T, m0: Memory<T>, t0: Tree<Slot<T>>,
                              m: Memory<T>, n: int, res: Two<nat>, p: nat, cs: Two<seq<Frame<Slot<T>>>>, t: Tree<Slot<T>>)
    requires TotalOrder(cmp) && Searching(cmp, k, m0, t0, m, res, p, cs, t) && Stopped(cmp, k, n, cs, t)
    ensures n == 0 <==> HasKey(cmp, Strip(InOrder(t0)), k)
  {
    if t.Node? { SearchTells(cmp, k, m0, t0, m, n, res, p, cs, t); }
  }

  lemma Located<T(!new)>(cmp: (T, T) -> int, k: T, m0: Memory<T>, r0: nat, t0: Tree<Slot<T>>, head: nat, fs: seq<nat>, unused: nat,
                         m: Memory<T>, n: int, res: Two<nat>, p: nat, cs: Two<seq<Frame<Slot<T>>>>, t: Tree<Slot<T>>)
    requires Sound(cmp, m0, r0, t0, head, fs, unused) && Searching(cmp, k, m0, t0, m, res, p, cs, t) && Stopped(cmp, k, n, cs, t)
    ensures n == 0 <==> HasKey(cmp, Strip(InOrder(t0)), k)
    ensures Spare(m, Ats(Parts(cs.left, t, cs.right)), head, fs, unused) && m.Keys == m0.Keys
    ensures Held(m, res, p, cs, t) && TotalOrder(cmp) && (n == 0 ==> t.Node?)
  {
    StoppedTells(cmp, k, m0, t0, m, n, res, p, cs, t);
    StillSpare(cmp, k, m0, r0, t0, head, fs, unused, m, res, p, cs, t);
  }

  class NodeTree<T(!new)> {
    const cmp: (T, T) -> int
    var mem: Memory<T>
    var root: nat
    var freelist: nat
    var unused: nat
    ghost var tree: Tree<Slot<T>>
    ghost var free: seq<nat>

    ghost predicate Valid()
      reads this
    {
      Sound(cmp, mem, root, tree, freelist, free, unused)
    }

    /** The finite map that the tree stands for: its items in key order. */
    ghost function Items(): seq<T>
      reads this
    {
      Strip(InOrder(tree))
    }

    constructor (cmp: (T, T) -> int)
      requires TotalOrder(cmp)
      ensures Valid() && Items() == [] && free == [] && this.cmp == cmp
    {
      this.cmp := cmp;
      mem, root, freelist, unused := map[], 0, 0, 1;
      tree, free := Nil, [];
    }

    /** Rotates the child c on side d above p. */
    method Rotate(p: nat, c: nat, d: Dir)
      requires p in mem && c in mem && mem[p].child.At(d) == c
      modifies this`mem
      ensures mem == RotateStores(old(mem), p, d)
    {
      mem := SetChild(mem, p, d, mem[c].child.At(Opp(d)));
      mem := SetChild(mem, c, Opp(d), p);
    }

    /** Hangs p into the hole of the other side; the hole moves to its child. */
    method Link(p: nat, d: Dir, res: Two<nat>, hole: Two<nat>) returns (res': Two<nat>, hole': Two<nat>)
      requires hole.At(Opp(d)) == 0 || hole.At(Opp(d)) in mem
      modifies this`mem
      ensures var o := Opp(d);
              var w := FillHole(o, old(mem), hole.At(o), res.At(o), p);
              mem == w.0 && res' == res.Put(o, w.1) && hole' == hole.Put(o, p)
    {
      var o := Opp(d);
      res' := res;
      if hole.At(o) == 0 {
        res' := res.Put(o, p);
      } else {
        mem := SetChild(mem, hole.At(o), d, p);
      }
      hole' := hole.Put(o, p);
    }

    /** Splaying at k, which need not be in the tree.  Each context is at most half as
        long as the search path. */
    method SplayAt(k: T, start: nat, ghost t0: Tree<Slot<T>>)
        returns (n: int, p: nat, res: Two<nat>, hole: Two<nat>, ghost cs: Two<seq<Frame<Slot<T>>>>, ghost t: Tree<Slot<T>>)
      requires TotalOrder(cmp) && t0.Node? && Shape(mem, start, t0)
      requires Distinct(InOrder(t0)) && Search(OnItems(cmp), t0)
      modifies this`mem
      ensures Searching(cmp, k, old(mem), t0, mem, res, p, cs, t) && Ended(cmp, k, n, t)
      ensures hole == Tops(cs)
      ensures 2 * |cs.left| <= PathLength(cmp, k, t0) && 2 * |cs.right| <= PathLength(cmp, k, t0)
    {
      ghost var m0, length := mem, PathLength(cmp, k, t0);
      hide TotalOrder, Sorted, Distinct, PathLength;
      res, hole, cs := Two(0, 0), Two(0, 0), Two([], []);
      p, t := start, t0;
      assert Parts(cs.left, t, cs.right) == InOrder(t0);
      n := cmp(k, mem[p].item);
      while n != 0
        invariant Searching(cmp, k, m0, t0, mem, res, p, cs, t)
        invariant t.Node? && n == cmp(k, t.item.item) && hole == Tops(cs)
        invariant HalfBehind(length, PathLength(cmp, k, t), n, cs)
        decreases t
      {
        PathAhead(cmp, k, t);
        var d := DirOf(n);
        FocusShape(mem, p, t, d);
        var c := mem[p].child.At(d);
        if c == 0 { break; }
        HalfLinked(cmp, k, length, n, cs, t, d);
        ghost var n0 := n;
        n := cmp(k, mem[c].item);
        if n != 0 && DirOf(n) == d {
          HalfRotated(cmp, k, length, n0, cs, t, d);
          RotateStep(cmp, k, m0, t0, mem, res, p, cs, t, d);
          Rotate(p, c, d);
          p, t := c, Rotated(t, d);
          FocusShape(mem, p, t, d);
          c := mem[p].child.At(d);
          if c == 0 { break; }
          n := cmp(k, mem[c].item);
        }
        LinkStep(cmp, k, m0, t0, mem, res, p, cs, t, d);
        res, hole := Link(p, d, res, hole);
        cs, t := Linked(cs, t, d), Sub(t, d);
        p := c;
      }
      PathAhead(cmp, k, t);
    }

    /** Stores v in the hole on side o. */
    method Fill(o: Dir, hole: nat, res: nat, v: nat) returns (res': nat)
      requires hole == 0 || hole in mem
      modifies this`mem
      ensures (mem, res') == FillHole(o, old(mem), hole, res, v)
    {
      res' := res;
      if hole == 0 { res' := v; } else { mem := SetChild(mem, hole, Opp(o), v); }
    }

    /** The focus becomes the root, its subtrees fill the holes. */
    method AssembleAt(p: nat, res: Two<nat>, hole: Two<nat>, ghost cs: Two<seq<Frame<Slot<T>>>>, ghost t: Tree<Slot<T>>)
      requires Held(mem, res, p, cs, t) && t.Node? && hole == Tops(cs)
      modifies this`mem
      ensures Shape(mem, p, Assemble(t, cs.left, cs.right))
      ensures Rewired(old(mem), mem, Around(cs, p))
    {
      AssembleShape(mem, res, p, cs, t);
      AssembleRewired(mem, res, p, cs, t);
      HolesIn(mem, res, p, cs, t);
      assert Tops(cs).At(LEFT) == hole.left && Tops(cs).At(RIGHT) == hole.right;
      var right := Fill(RIGHT, hole.right, res.right, mem[p].child.right);
      var left := Fill(LEFT, hole.left, res.left, mem[p].child.left);
      mem := SetChild(mem, p, RIGHT, right);
      mem := SetChild(mem, p, LEFT, left);
    }

    /** The two subtrees of p as one tree: the largest node on the left becomes the
        root, with the right subtree as it is. */
    method Join(p: nat, ghost t: Tree<Slot<T>>) returns (q: nat, ghost u: Tree<Slot<T>>)
      requires TotalOrder(cmp) && Shape(mem, p, t) && t.Node?
      requires Distinct(InOrder(t)) && Search(OnItems(cmp), t)
      modifies this`mem
      ensures Shape(mem, q, u) && InOrder(u) == InOrder(t.left) + InOrder(t.right)
      ensures if t.left == Nil then u == t.right else u.Node? && u.right == t.right
      ensures Rewired(old(mem), mem, Ats(InOrder(t.left)))
    {
      FocusShape(mem, p, t, LEFT);
      FocusShape(mem, p, t, RIGHT);
      var left := mem[p].child.left;
      if left == 0 {
        q, u := mem[p].child.right, t.right;
        assert InOrder(t.left) == [];
        return;
      }
      OnItemsOrder(cmp);
      ChildrenSorted(OnItems(cmp), t);
      TreeApart(t);
      ghost var m0 := mem;
      var n, res, hole;
      ghost var cs, f;
      n, q, res, hole, cs, f := SplayAt(mem[p].item, left, t.left);
      JoinReady(cmp, m0, p, t, mem, n, q, res, cs, f);
      ghost var m1 := mem;
      mem := SetChild(mem, q, RIGHT, mem[p].child.right);
      RewiredMore(m0, m1, Ats(InOrder(t.left)), q, RIGHT, m1[p].child.right);
      ghost var m2 := mem;
      u := Node(f.left, f.item, t.right);
      AssembleAt(q, res, hole, cs, u);
      RewiredTrans(m0, m2, mem, Ats(InOrder(t.left)), Around(cs, q));
      RewiredWider(m0, mem, Ats(InOrder(t.left)) + Around(cs, q), Ats(InOrder(t.left)));
      u := Assemble(u, cs.left, cs.right);
    }

    /** Puts the tree together after a search that has changed nothing else. */
    method Settle(k: T, ghost m0: Memory<T>, ghost r0: nat, ghost t0: Tree<Slot<T>>,
                  p: nat, res: Two<nat>, hole: Two<nat>, ghost cs: Two<seq<Frame<Slot<T>>>>, ghost t: Tree<Slot<T>>)
      requires Searching(cmp, k, m0, t0, mem, res, p, cs, t) && t.Node? && hole == Tops(cs)
      requires Sound(cmp, m0, r0, t0, freelist, free, unused)
      modifies this`mem
      ensures Sound(cmp, mem, p, Assemble(t, cs.left, cs.right), freelist, free, unused) && mem.Keys == m0.Keys
      ensures InOrder(Assemble(t, cs.left, cs.right)) == InOrder(t0)
    {
      ghost var m1 := mem;
      AssembleItems(t, cs.left, cs.right);
      AssembleAt(p, res, hole, cs, t);
      RewiredTrans(m0, m1, mem, Ats(InOrder(t0)), Around(cs, p));
      StillOwned(m0, mem, Ats(InOrder(t0)) + Around(cs, p), r0, t0, p, Assemble(t, cs.left, cs.right), freelist, free);
    }

    /** Looking up changes the shape of the tree, not its contents. */
    method Find(k: T) returns (p: nat)
      requires Valid()
      modifies this
      ensures Valid() && Items() == old(Items()) && free == old(free) && mem.Keys == old(mem.Keys)
      ensures p != 0 <==> HasKey(cmp, Items(), k)
      ensures p != 0 ==> p == root && p in mem && cmp(k, mem[p].item) == 0
    {
      hide Searching, PathLength, Sorted, TotalOrder, Distinct, FillLeft, FillRight, FreeList;
      if root == 0 { return 0; }
      ghost var m0, t0 := mem, tree;
      var n, q, res, hole;
      ghost var cs, t;
      n, q, res, hole, cs, t := SplayAt(k, root, tree);
      SearchTells(cmp, k, m0, t0, mem, n, res, q, cs, t);
      Settle(k, m0, root, t0, q, res, hole, cs, t);
      root, tree := q, Assemble(t, cs.left, cs.right);
      p := if n == 0 then root else 0;
    }

    /** Takes the focus, which has the key and a left or right child, out of the tree. */
    method HangJoined(k: T, ghost m0: Memory<T>, p: nat, res: Two<nat>, hole: Two<nat>,
                      ghost cs: Two<seq<Frame<Slot<T>>>>, ghost t: Tree<Slot<T>>, q: nat, ghost u: Tree<Slot<T>>)
        returns (ghost v: Tree<Slot<T>>)
      requires FocusFound(cmp, k, m0, res, p, cs, t) && hole == Tops(cs)
      requires Rewired(m0, mem, Ats(InOrder(t.left)))
      requires Shape(mem, q, u) && u.Node? && InOrder(u) == InOrder(t.left) + InOrder(t.right)
      modifies this`mem
      ensures Rewired(m0, mem, Ats(Parts(cs.left, t, cs.right))) && Shape(mem, q, v)
      ensures InOrder(v) == Without(cmp, Parts(cs.left, t, cs.right), k)
    {
      ghost var m1 := mem;
      ghost var ats := Ats(Parts(cs.left, t, cs.right));
      JoinedHeld(m0, m1, res, p, cs, t, q, u);
      FocusRemoved(OnItems(cmp), Slot(0, k), cs.left, t, cs.right, u);
      JoinedAts(cs, t, q, u);
      AssembleAt(q, res, hole, cs, u);
      v := Assemble(u, cs.left, cs.right);
      RewiredTrans(m0, m1, mem, Ats(InOrder(t.left)), Around(cs, q));
      RewiredWider(m0, mem, Ats(InOrder(t.left)) + Around(cs, q), ats);
    }

    /** The same when it has no child. */
    method DropRoot(k: T, p: nat, res: Two<nat>, hole: Two<nat>, ghost cs: Two<seq<Frame<Slot<T>>>>, ghost t: Tree<Slot<T>>)
        returns (q: nat, ghost v: Tree<Slot<T>>)
      requires FocusFound(cmp, k, mem, res, p, cs, t) && hole == Tops(cs)
      modifies this`mem
      ensures Rewired(old(mem), mem, Ats(Parts(cs.left, t, cs.right))) && Shape(mem, q, v)
      ensures InOrder(v) == Without(cmp, Parts(cs.left, t, cs.right), k)
    {
      ghost var m0 := mem;
      ghost var ats := Ats(Parts(cs.left, t, cs.right));
      ghost var u := Assemble(t, cs.left, cs.right);
      RootRemoved(OnItems(cmp), Slot(0, k), cs.left, t, cs.right);
      AssembleItems(t, cs.left, cs.right);
      RootAts(cs, t, p);
      AssembleAt(p, res, hole, cs, t);
      ghost var m1 := mem;
      q, v := Join(p, u);
      RewiredTrans(m0, m1, mem, Around(cs, p), Ats(InOrder(u.left)));
      RewiredWider(m0, mem, Around(cs, p) + Ats(InOrder(u.left)), ats);
    }

    /** Takes the focus, which has the key, out of the tree. */
    method RemoveFocus(k: T, p: nat, res: Two<nat>, hole: Two<nat>, ghost cs: Two<seq<Frame<Slot<T>>>>, ghost t: Tree<Slot<T>>)
        returns (q: nat, ghost v: Tree<Slot<T>>)
      requires FocusFound(cmp, k, mem, res, p, cs, t) && hole == Tops(cs)
      modifies this`mem
      ensures Rewired(old(mem), mem, Ats(Parts(cs.left, t, cs.right))) && Shape(mem, q, v)
      ensures InOrder(v) == Without(cmp, Parts(cs.left, t, cs.right), k)
    {
      ghost var m0 := mem;
      FocusAlone(cmp, k, m0, res, p, cs, t);
      ghost var u;
      q, u := Join(p, t);
      if q != 0 {
        v := HangJoined(k, m0, p, res, hole, cs, t, q, u);
      } else {
        RewiredNothing(m0, mem);
        q, v := DropRoot(k, p, res, hole, cs, t);
      }
    }

    /** The nodes stand for the tree t from now on. */
    ghost method Become(t: Tree<Slot<T>>)
      requires Sound(cmp, mem, root, t, freelist, free, unused)
      modifies this`tree
      ensures Valid() && tree == t
    {
      tree := t;
    }

    /** Other chunks replace all the old ones. */
    method Replace(m: Memory<T>, p: nat, next: nat, ghost t: Tree<Slot<T>>)
      requires Sound(cmp, m, p, t, 0, [], next)
      modifies this
      ensures Valid() && tree == t && mem == m && free == []
    {
      mem, root, unused := m, p, next;
      freelist, free, tree := 0, [], t;
    }

    method NodeReclaim(p: nat)
      requires p in mem
      modifies this`mem, this`freelist, this`free
      ensures mem == SetBack(old(mem), p, ToNode(old(freelist))) && freelist == p && free == [p] + old(free)
    {
      mem := SetBack(mem, p, ToNode(freelist));
      freelist, free := p, [p] + free;
    }

    /** The node p, no longer in the tree, goes to the free list. */
    method TakeOut(p: nat, newroot: nat, ghost u: Tree<Slot<T>>)
      requires p in mem && Sound(cmp, SetBack(mem, p, ToNode(freelist)), newroot, u, p, [p] + free, unused)
      modifies this
      ensures mem == SetBack(old(mem), p, ToNode(old(freelist)))
      ensures tree == u && free == [p] + old(free) && Valid()
    {
      NodeReclaim(p);
      root, tree := newroot, u;
    }

    /** The search has found its key: the focus goes to the free list. */
    method DeleteFocus(k: T, ghost m0: Memory<T>, p: nat, res: Two<nat>, hole: Two<nat>,
                       ghost cs: Two<seq<Frame<Slot<T>>>>, ghost t: Tree<Slot<T>>)
      requires TotalOrder(cmp) && Sound(cmp, m0, root, tree, freelist, free, unused)
      requires Searching(cmp, k, m0, tree, mem, res, p, cs, t) && Ended(cmp, k, 0, t) && hole == Tops(cs)
      modifies this
      ensures Valid() && mem.Keys == m0.Keys && free == [p] + old(free)
      ensures Items() == Below(cmp, old(Items()), k) + Above(cmp, old(Items()), k)
      ensures p in mem && cmp(k, mem[p].item) == 0
    {
      hide Searching, FocusFound, Rewired, Shape, Sound, Ended;
      ghost var m1, r0, t0, fs := mem, root, tree, free;
      var head, newroot := freelist, 0;
      ghost var u;
      SearchFound(cmp, k, m0, t0, m1, res, p, cs, t);
      newroot, u := RemoveFocus(k, p, res, hole, cs, t);
      FocusDeleted(cmp, k, m0, r0, t0, head, fs, unused, m1, mem, res, p, cs, t, newroot, u);
      TakeOut(p, newroot, u);
    }

    /** Exactly the item with an equal key is removed, and its node given back. */
    method Delete(k: T) returns (p: nat)
      requires Valid()
      modifies this
      ensures Valid() && mem.Keys == old(mem.Keys)
      ensures Items() == Below(cmp, old(Items()), k) + Above(cmp, old(Items()), k)
      ensures p != 0 <==> HasKey(cmp, old(Items()), k)
      ensures p != 0 ==> p in mem && cmp(k, mem[p].item) == 0 && free == [p] + old(free)
      ensures p == 0 ==> Items() == old(Items()) && free == old(free)
    {
      hide PathLength, Sorted, TotalOrder;
      if root == 0 { return 0; }
      ghost var m0, t0 := mem, tree;
      var n, q, res, hole;
      ghost var cs, t;
      n, q, res, hole, cs, t := SplayAt(k, root, tree);
      SearchTells(cmp, k, m0, t0, mem, n, res, q, cs, t);
      if n != 0 {
        NothingTaken(cmp, k, n, cs, t);
        Settle(k, m0, root, t0, q, res, hole, cs, t);
        root, tree := q, Assemble(t, cs.left, cs.right);
        p := 0;
      } else {
        p := q;
        DeleteFocus(k, m0, p, res, hole, cs, t);
      }
    }

    /** A node from the free list, or a new one. */
    method NodeAlloc(k: T, ghost ats: set<nat>) returns (p: nat)
      requires Spare(mem, ats, freelist, free, unused)
      modifies this
      ensures root == old(root) && tree == old(tree)
      ensures p != 0 && p in mem && p !in ats && Spare(mem, ats + {p}, freelist, free, unused)
      ensures mem.Keys == old(mem.Keys) + {p} && forall x :: x in old(mem) ==> mem[x] == old(mem)[x]
      ensures if old(free) == [] then free == [] && p !in old(mem) else old(free) == [p] + free && p in old(mem)
    {
      FreeAt(mem, freelist, free);
      if freelist != 0 {
        p := freelist;
        assert free == [p] + free[1..];
        freelist, free := mem[p].back.p, free[1..];
      } else {
        p := unused;
        mem := mem[p := Cell(k, Two(0, 0), Nowhere)];
        unused := unused + 1;
      }
    }

    /** A node for k takes the place of the focus. */
    method AddNode(k: T, n: int, q: nat, ghost res: Two<nat>, ghost cs: Two<seq<Frame<Slot<T>>>>, ghost t: Tree<Slot<T>>)
        returns (p: nat, ghost s: Slot<T>)
      requires n != 0 && Held(mem, res, q, cs, t)
      requires Spare(mem, Ats(Parts(cs.left, t, cs.right)), freelist, free, unused)
      modifies this
      ensures root == old(root) && tree == old(tree) && s.at == p
      ensures Held(mem, res, p, cs, Placed(n, s, t))
      ensures Spare(mem, Ats(Parts(cs.left, Placed(n, s, t), cs.right)), freelist, free, unused)
      ensures if old(free) == [] then free == [] && p !in old(mem) && mem.Keys == old(mem.Keys) + {p}
              else old(free) == [p] + free && mem.Keys == old(mem.Keys)
    {
      hide Held, Spare;
      ghost var m0, ats := mem, Ats(Parts(cs.left, t, cs.right));
      p := NodeAlloc(k, ats);
      s := Slot(p, mem[p].item);
      Added(m0, mem, res, q, cs, t, n, p, freelist, free, unused);
      mem := SetChildren(mem, p, Two(0, 0).Put(Opp(DirOf(n)), q));
    }

    /** Assembles the tree at p and stores k there. */
    method PutRoot(k: T, p: nat, res: Two<nat>, hole: Two<nat>, ghost cs: Two<seq<Frame<Slot<T>>>>, ghost u: Tree<Slot<T>>)
      requires TotalOrder(cmp) && Held(mem, res, p, cs, u) && u.Node? && hole == Tops(cs)
      requires Spare(mem, Ats(Parts(cs.left, u, cs.right)), freelist, free, unused)
      requires Search(OnItems(cmp), WithRoot(Assemble(u, cs.left, cs.right), k))
      modifies this`mem, this`root, this`tree
      ensures Valid() && root == p && tree == WithRoot(Assemble(u, cs.left, cs.right), k)
      ensures p in mem && mem[p].item == k && mem.Keys == old(mem.Keys)
    {
      hide TotalOrder, Search, Spare;
      ghost var m0, a := mem, Assemble(u, cs.left, cs.right);
      AssembleItems(u, cs.left, cs.right);
      AssembleAt(p, res, hole, cs, u);
      OverwriteShape(mem, p, a, k);
      mem := SetItem(mem, p, k);
      NowSound(cmp, m0, mem, p, WithRoot(a, k), Ats(InOrder(a)), freelist, free, unused);
      root, tree := p, WithRoot(a, k);
    }

    /** Splaying the whole tree at k; an empty tree gives the empty focus. */
    method Locate(k: T) returns (n: int, p: nat, res: Two<nat>, hole: Two<nat>, ghost cs: Two<seq<Frame<Slot<T>>>>, ghost t: Tree<Slot<T>>)
      requires TotalOrder(cmp) && Shape(mem, root, tree) && Distinct(InOrder(tree)) && Search(OnItems(cmp), tree)
      modifies this`mem
      ensures Searching(cmp, k, old(mem), tree, mem, res, p, cs, t) && Stopped(cmp, k, n, cs, t)
      ensures hole == Tops(cs)
    {
      if root != 0 {
        n, p, res, hole, cs, t := SplayAt(k, root, tree);
      } else {
        n, p, res, hole, cs, t := 1, 0, Two(0, 0), Two(0, 0), Two([], []), Nil;
      }
    }

    /** The focus has the key: its item is overwritten. */
    method Overwrite(k: T, q: nat, res: Two<nat>, hole: Two<nat>, ghost cs: Two<seq<Frame<Slot<T>>>>, ghost t: Tree<Slot<T>>)
      requires TotalOrder(cmp) && Ended(cmp, k, 0, t) && Held(mem, res, q, cs, t) && hole == Tops(cs)
      requires Spare(mem, Ats(Parts(cs.left, t, cs.right)), freelist, free, unused)
      requires Splits(OnItems(cmp), Slot(0, k), cs.left, t, cs.right)
      modifies this
      ensures Valid() && root == q && q in mem && mem[q].item == k && mem.Keys == old(mem.Keys) && free == old(free)
      ensures var items := Strip(Parts(cs.left, t, cs.right)); Items() == Below(cmp, items, k) + [k] + Above(cmp, items, k)
    {
      InsertedItems(cmp, k, 0, cs, t, t.item);
      PutRoot(k, q, res, hole, cs, t);
    }

    /** The key is new: so is the root. */
    method InsertNew(k: T, n: int, q: nat, res: Two<nat>, hole: Two<nat>, ghost cs: Two<seq<Frame<Slot<T>>>>, ghost t: Tree<Slot<T>>)
        returns (p: nat)
      requires TotalOrder(cmp) && n != 0 && Stopped(cmp, k, n, cs, t) && Held(mem, res, q, cs, t) && hole == Tops(cs)
      requires Spare(mem, Ats(Parts(cs.left, t, cs.right)), freelist, free, unused)
      requires Splits(OnItems(cmp), Slot(0, k), cs.left, t, cs.right)
      modifies this
      ensures Valid() && root == p && p in mem && mem[p].item == k
      ensures if old(free) == [] then free == [] && p !in old(mem) && mem.Keys == old(mem.Keys) + {p}
              else old(free) == [p] + free && mem.Keys == old(mem.Keys)
      ensures var items := Strip(Parts(cs.left, t, cs.right)); Items() == Below(cmp, items, k) + [k] + Above(cmp, items, k)
    {
      ghost var s;
      p, s := AddNode(k, n, q, res, cs, t);
      InsertedItems(cmp, k, n, cs, t, s);
      PutRoot(k, p, res, hole, cs, Placed(n, s, t));
    }

    /** An item with an equal key is overwritten. */
    method Insert(k: T) returns (p: nat)
      requires Valid()
      modifies this
      ensures Valid() && Items() == Below(cmp, old(Items()), k) + [k] + Above(cmp, old(Items()), k)
      ensures p == root && p in mem && mem[p].item == k
      ensures HasKey(cmp, old(Items()), k) ==> mem.Keys == old(mem.Keys) && free == old(free)
      ensures !HasKey(cmp, old(Items()), k) ==>
                if old(free) == [] then free == [] && p !in old(mem) && mem.Keys == old(mem.Keys) + {p}
                else old(free) == [p] + free && mem.Keys == old(mem.Keys)
    {
      ghost var m0 := mem;
      var n, q, res, hole;
      ghost var cs, t;
      n, q, res, hole, cs, t := Locate(k);
      Located(cmp, k, m0, root, tree, freelist, free, unused, mem, n, res, q, cs, t);
      if n == 0 {
        p := q;
        Overwrite(k, q, res, hole, cs, t);
      } else {
        p := InsertNew(k, n, q, res, hole, cs, t);
      }
    }
  }
}
